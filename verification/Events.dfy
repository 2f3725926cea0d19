/** The event manager: the kernel's interest set and the two tables of callbacks that have to
    agree with it, and the one-shot timers built on it. */
module Events {
  import opened Options

  datatype Interest = Interest(input: bool, output: bool)

  /** `interest` is the kernel's; the tables hold a null callback where there is no interest. */
  datatype Registry<H(==), +C> = Registry(
    interest: map<H, Interest>,
    readCallbacks: map<H, Option<C>>,
    writeCallbacks: map<H, Option<C>>)

  /** The three agree, descriptor by descriptor and bit by bit: a callback for each interest bit
      and none without. */
  ghost predicate Coherent<H, C>(r: Registry<H, C>) {
    && r.interest.Keys == r.readCallbacks.Keys == r.writeCallbacks.Keys
    && forall h :: h in r.interest ==>
         (r.interest[h].input <==> r.readCallbacks[h].Some?) && (r.interest[h].output <==> r.writeCallbacks[h].Some?)
  }

  /** What is registered for one descriptor: its two callbacks. */
  datatype Entry<+C> = Entry(read: Option<C>, write: Option<C>)

  function At<H, C>(r: Registry<H, C>, h: H): Option<Entry<C>> {
    if h in r.interest && h in r.readCallbacks && h in r.writeCallbacks
    then Some(Entry(r.readCallbacks[h], r.writeCallbacks[h])) else None
  }

  /** What is done to one descriptor. */
  datatype Change<+C> = Enter(read: Option<C>, write: Option<C>) | Drop

  function Updated<K, V>(m: map<K, V>, k: K, v: Option<V>): map<K, V> {
    if v.Some? then m[k := v.value] else m - {k}
  }

  function InterestOf<C>(c: Change<C>): Option<Interest> {
    if c.Drop? then None else Some(Interest(c.read.Some?, c.write.Some?))
  }

  function ReadOf<C>(c: Change<C>): Option<Option<C>> {
    if c.Drop? then None else Some(c.read)
  }

  function WriteOf<C>(c: Change<C>): Option<Option<C>> {
    if c.Drop? then None else Some(c.write)
  }

  function Changed<H, C>(r: Registry<H, C>, h: H, c: Change<C>): Registry<H, C> {
    Registry(Updated(r.interest, h, InterestOf(c)), Updated(r.readCallbacks, h, ReadOf(c)),
             Updated(r.writeCallbacks, h, WriteOf(c)))
  }

  function Entered<H, C>(r: Registry<H, C>, h: H, read: Option<C>, write: Option<C>): Registry<H, C> {
    Changed(r, h, Enter(read, write))
  }

  function Removed<H, C>(r: Registry<H, C>, h: H): Registry<H, C> {
    Changed(r, h, Drop)
  }

  /** Unregistering undoes registering. */
  lemma RegisterThenUnregister<H, C>(r: Registry<H, C>, h: H, read: Option<C>, write: Option<C>)
    requires Coherent(r) && h !in r.interest
    ensures Removed(Entered(r, h, read, write), h) == r
  {
    var t := Removed(Entered(r, h, read, write), h);
    assert t.interest == r.interest && t.readCallbacks == r.readCallbacks && t.writeCallbacks == r.writeCallbacks;
  }

  lemma UpdatesCommute<K, V>(m: map<K, V>, k: K, v: Option<V>, l: K, w: Option<V>)
    requires k != l
    ensures Updated(Updated(m, k, v), l, w) == Updated(Updated(m, l, w), k, v)
  {
    var a, b := Updated(Updated(m, k, v), l, w), Updated(Updated(m, l, w), k, v);
    assert a.Keys == b.Keys;
    assert forall x :: x in a ==> a[x] == b[x];
  }

  /** Operations on different descriptors do not meet: whatever they are, their order does not
      matter, and neither changes the other's entry or whether it is refused. */
  lemma OwnersDoNotMeet<H, C>(r: Registry<H, C>, h: H, c: Change<C>, g: H, d: Change<C>)
    requires h != g
    ensures Changed(Changed(r, h, c), g, d) == Changed(Changed(r, g, d), h, c)
    ensures At(Changed(r, h, c), g) == At(r, g) && (g in Changed(r, h, c).interest <==> g in r.interest)
  {
    UpdatesCommute(r.interest, h, InterestOf(c), g, InterestOf(d));
    UpdatesCommute(r.readCallbacks, h, ReadOf(c), g, ReadOf(d));
    UpdatesCommute(r.writeCallbacks, h, WriteOf(c), g, WriteOf(d));
  }

  datatype Operation = Add | Modify

  class EventManager<H(==), C> {
    var interest: map<H, Interest>
    var readCallbacks: map<H, Option<C>>
    var writeCallbacks: map<H, Option<C>>

    ghost function View(): Registry<H, C>
      reads this
    {
      Registry(interest, readCallbacks, writeCallbacks)
    }

    ghost predicate Valid()
      reads this
    {
      Coherent(View())
    }

    constructor ()
      ensures Valid() && View() == Registry(map[], map[], map[])
    {
      interest := map[];
      readCallbacks := map[];
      writeCallbacks := map[];
    }

    /** False when epoll refuses: an addition of what is there, a change of what is not. */
    method UpdateEventInternal(h: H, op: Operation, read: Option<C>, write: Option<C>) returns (ok: bool)
      requires Valid()
      modifies this
      ensures Valid()
      ensures ok <==> (op.Add? <==> h !in old(interest))
      ensures View() == if ok then Entered(old(View()), h, read, write) else old(View())
    {
      if op.Add? == (h in interest) {
        return false;
      }
      interest := interest[h := Interest(read.Some?, write.Some?)];
      readCallbacks := readCallbacks[h := read];
      writeCallbacks := writeCallbacks[h := write];
      ok := true;
    }

    method RegisterEvent(h: H, read: Option<C>, write: Option<C>) returns (ok: bool)
      requires Valid()
      modifies this
      ensures Valid() && (ok <==> h !in old(interest))
      ensures View() == if ok then Entered(old(View()), h, read, write) else old(View())
    {
      ok := UpdateEventInternal(h, Add, read, write);
    }

    method UpdateEvent(h: H, read: Option<C>, write: Option<C>) returns (ok: bool)
      requires Valid()
      modifies this
      ensures Valid() && (ok <==> h in old(interest))
      ensures View() == if ok then Entered(old(View()), h, read, write) else old(View())
    {
      ok := UpdateEventInternal(h, Modify, read, write);
    }

    method UnregisterEvent(h: H) returns (ok: bool)
      requires Valid()
      modifies this
      ensures Valid() && (ok <==> h in old(interest))
      ensures View() == if ok then Removed(old(View()), h) else old(View())
    {
      if h !in interest {
        return false;
      }
      interest := interest - {h};
      readCallbacks := readCallbacks - {h};
      writeCallbacks := writeCallbacks - {h};
      ok := true;
    }

    /** The callback for one reported event. The kernel reports what was asked for, so there is
        an entry in the table and it is not null. */
    method Callback(h: H, input: bool) returns (callback: C)
      requires Valid() && h in interest && (if input then interest[h].input else interest[h].output)
      ensures Some(callback) == if input then readCallbacks[h] else writeCallbacks[h]
    {
      callback := if input then readCallbacks[h].value else writeCallbacks[h].value;
    }
  }

  /** A timer is registered exactly while it runs, and it fires once. */
  class Timer<H(==), C> {
    const fd: H
    const interval: int
    const onExpire: C
    const callback: C
    const events: EventManager<H, C>
    var running: bool

    ghost predicate Valid()
      reads this, events
    {
      events.Valid() && (running <==> fd in events.interest)
    }

    constructor (fd: H, interval: int, onExpire: C, callback: C, events: EventManager<H, C>)
      requires events.Valid() && fd !in events.interest
      ensures Valid() && !running && this.events == events && this.fd == fd
      ensures this.onExpire == onExpire && this.callback == callback
    {
      this.fd := fd;
      this.interval := interval;
      this.onExpire := onExpire;
      this.callback := callback;
      this.events := events;
      running := false;
    }

    method Start()
      requires Valid() && !running
      modifies this, events
      ensures Valid() && running
      ensures events.View() == Entered(old(events.View()), fd, Some(onExpire), None)
    {
      var ok := events.RegisterEvent(fd, Some(onExpire), None);
      running := true;
    }

    /** Gives the callback to call. */
    method OnExpire() returns (call: C)
      requires Valid() && running
      modifies this, events
      ensures Valid() && !running && call == callback
      ensures events.View() == Removed(old(events.View()), fd)
    {
      running := false;
      var ok := events.UnregisterEvent(fd);
      call := callback;
    }

    /** The destructor: after it nothing of the timer is left in the event manager, whether it
        was never started, still runs or has fired. */
    method Destroy()
      requires Valid()
      modifies events
      ensures events.Valid() && fd !in events.interest
      ensures events.View() == if running then Removed(old(events.View()), fd) else old(events.View())
    {
      if running {
        var ok := events.UnregisterEvent(fd);
      }
    }
  }
}
