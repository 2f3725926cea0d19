/** The daemon as a whole: one event manager that the server's socket, the clients' connections
    and the jobs' processes share, and the loop that calls back whoever epoll reports. */
module Taskmasterd {
  import opened Options
  import opened JobConfigs
  import opened Proto
  import opened Framing
  import opened CommandCheck
  import opened Events
  import opened Ipc
  import L = Lockstep
  import S = SupervisorSpec
  import Safety = SupervisorSafety
  import V = Supervisor
  import D = DaemonSide

  /** What epoll reports, and what the calls that the callback makes will give. */
  datatype Report =
    | Connecting(id: nat)
    | Readable(id: nat, received: Received, loaded: Option<ConfigMap>, order: seq<string>)
    | Writable(id: nat, taken: Option<nat>)
    | Happened(process: V.Process, handle: S.Handle, what: S.ChildEvent)

  function Source(r: Report): V.Owner {
    match r
    case Connecting(_) => V.Listener
    case Readable(id, _, _, _) => V.Connection(id)
    case Writable(id, _) => V.Connection(id)
    case Happened(p, h, _) => V.OfProcess(p, h)
  }

  /** The event of the supervisor that a report amounts to, if any; `heard` is the command that a
      receive completed. */
  function Cause(r: Report, heard: Option<Command>): Option<S.Event> {
    match r
    case Readable(_, _, loaded, order) => if heard.Some? then D.CommandEvent(heard.value, loaded, order) else None
    case Happened(p, _, what) => Some(S.ChildDid(p.job.config.name, p.index, what))
    case _ => None
  }

  /** The server's connections: a client's mode, reader and writer, or nothing when it closed. */
  type Connections = map<nat, Option<L.Serving>>

  /** The report fits the connections: reading from one that reads, writing to one that writes. */
  predicate Fits(s: Connections, r: Report) {
    match r
    case Readable(id, _, _, _) => id in s && s[id].Some? && s[id].value.mode.ReadMode?
    case Writable(id, taken) =>
      && id in s && s[id].Some? && s[id].value.mode.WriteMode? && WriterOk(s[id].value.writer)
      && (taken.Some? ==> CanTake(s[id].value.writer, taken.value))
    case _ => true
  }

  /** What a turn makes of the connections. A new one reads, and those that closed go; a receive and
      a write are the protocol's steps, or close; the jobs' events leave all of them alone. */
  function Served(s: Connections, r: Report, codec: L.Codec, response: Response): (t: Connections)
    requires Fits(s, r)
    ensures r.Connecting? ==>
              && (forall i :: i in t <==> i == r.id || (i in s && s[i].Some?))
              && t[r.id] == Some(L.CONNECTED.daemon)
              && (forall i :: i in t && i != r.id ==> t[i] == s[i])
    ensures !r.Connecting? ==>
              t.Keys == s.Keys && forall i :: i in t && Source(r) != V.Connection(i) ==> t[i] == s[i]
    ensures r.Readable? ==>
              (t[r.id].None? <==>
                 || r.received.Closed? || r.received.Failed?
                 || (r.received.Data? && L.DaemonReads(codec, s[r.id].value, r.received.bytes, response).failed))
    ensures r.Writable? ==> (t[r.id].None? <==> r.taken.None?)
  {
    match r
    case Connecting(id) => StillOpen(s[id := Some(L.CONNECTED.daemon)])
    case Readable(id, received, _, _) => s[id := AfterRead(s[id].value, received, codec, response)]
    case Writable(id, taken) =>
      s[id := if taken.Some? then Some(L.DaemonWrites(s[id].value, taken.value)) else None]
    case Happened(_, _, _) => s
  }

  function StillOpen(s: Connections): Connections {
    map id | id in s && s[id].Some? :: s[id]
  }

  function AfterRead(d: L.Serving, received: Received, codec: L.Codec, response: Response): Option<L.Serving> {
    match received
    case Data(bytes) =>
      var step := L.DaemonReads(codec, d, bytes, response);
      if step.failed then None else Some(step.daemon)
    case WouldBlock => Some(d)
    case _ => None
  }

  /** The command that a turn completes. */
  function Heard(s: Connections, r: Report, codec: L.Codec, response: Response): Option<Command>
    requires Fits(s, r)
  {
    if r.Readable? && r.received.Data?
    then L.DaemonReads(codec, s[r.id].value, r.received.bytes, response).heard else None
  }

  /** The answer to an accepted `terminate` is complete with this turn. */
  predicate Terminates(s: Connections, r: Report)
    requires Fits(s, r)
  {
    && r.Writable? && r.taken.Some? && Written(s[r.id].value.writer, r.taken.value).done
    && s[r.id].value.mode.cmd.kind == TERMINATE
  }

  lemma NothingMarked(m: S.Manager)
    requires Safety.Safe(m)
    ensures Safety.ManagerOk(m) && S.Updated(m) == m
  {
    assert S.Updated(m).jobs == m.jobs;
  }

  class Daemon {
    const events: EventManager<V.Owner, V.Callback>
    const globals: D.Globals
    const manager: V.JobManager
    const server: D.Server
    var clients: map<nat, D.Client>
    /** The clients with their readers and writers, and the global state. */
    ghost var repr: set<object>

    ghost function View(): S.Manager
      reads manager, manager.jobs.Values
    {
      manager.View()
    }

    /** The clients are this daemon's, each with a reader and a writer of its own. */
    ghost predicate Structured()
      reads this
    {
      && globals in repr && this !in repr
      && (forall id :: id in clients ==>
            && clients[id] in repr && clients[id].reader in repr && clients[id].writer in repr
            && clients[id].id == id && clients[id].events == events && clients[id].server == server
            && clients[id].globals == globals)
      && forall a, b :: a in clients && b in clients && a != b ==>
           clients[a].reader != clients[b].reader && clients[a].writer != clients[b].writer
    }

    /** Each client has its own registrations in `r`, and nobody else has a connection. */
    ghost predicate ClientsIn(r: V.Books)
      reads this, repr
      requires Structured()
    {
      && (forall id :: id in clients ==> clients[id].ValidIn(r))
      && At(r, V.Listener) == Some(Entry(Some(V.ServerAccepts), None))
      && forall o :: o in r.interest && o.Connection? ==> o.id in clients && clients[o.id].open
    }

    ghost function ConnectionsIn(r: V.Books): Connections
      reads this, repr
      requires Structured() && ClientsIn(r)
    {
      map id | id in clients :: clients[id].ViewIn(r)
    }

    ghost function Open(): Connections
      reads this, repr, events, manager, manager.repr
      requires Linked()
    {
      ConnectionsIn(events.View())
    }

    /** The objects are linked as they should be, and none belongs to two. */
    ghost predicate Framed()
      reads this, manager
    {
      && manager.events == events && server.manager == manager && Structured()
      && repr !! manager.repr && manager !in repr && events !in repr && this !in manager.repr
    }

    ghost predicate Linked()
      reads this, repr, events, manager, manager.repr
    {
      Framed() && manager.Valid() && ClientsIn(events.View())
    }

    ghost predicate Valid()
      reads this, repr, events, manager, manager.repr, manager.jobs.Values
    {
      Linked() && Safety.Safe(View())
    }

    /** Around a manager and a server that have just been set up. */
    constructor (server: D.Server, globals: D.Globals)
      requires server.manager.Valid() && Safety.Safe(server.manager.View()) && globals !in server.manager.repr
      requires At(server.manager.events.View(), V.Listener) == Some(Entry(Some(V.ServerAccepts), None))
      requires forall o :: o in server.manager.events.interest ==> !o.Connection?
      ensures Valid() && clients == map[] && repr == {globals}
      ensures this.server == server && this.globals == globals && manager == server.manager
    {
      hide V.JobManager.Valid, V.JobManager.View, Safety.Safe;
      this.server, this.globals := server, globals;
      events, manager := server.manager.events, server.manager;
      clients, repr := map[], {globals};
    }

    /** What happens before the loop: every configured job is in the table, the socket is
        registered, and the jobs that ask for it are started. */
    static method Boot(loaded: ConfigMap) returns (d: Daemon)
      requires Safety.ConfigOk(loaded)
      ensures d.Valid() && d.clients == map[] && d.Open() == map[] && d.globals.state == D.RUNNING
      ensures d.View() == S.StartedAll(S.Initial(loaded))
    {
      hide V.JobManager.Valid, V.SameApart, S.StartedAll, S.Initial, Safety.Safe;
      var globals := new D.Globals();
      var server := Serve(loaded);
      d := new Daemon(server, globals);
    }

    static method Serve(loaded: ConfigMap) returns (server: D.Server)
      requires Safety.ConfigOk(loaded)
      ensures server.manager.Valid() && Safety.Safe(server.manager.View()) && fresh(server.manager.repr)
      ensures At(server.manager.events.View(), V.Listener) == Some(Entry(Some(V.ServerAccepts), None))
      ensures forall o :: o in server.manager.events.interest ==> !o.Connection?
      ensures server.manager.View() == S.StartedAll(S.Initial(loaded))
    {
      hide V.JobManager.Valid, V.SameApart, S.StartedAll, S.Initial, Safety.Safe;
      var events := new EventManager();
      ghost var r := events.View();
      var manager := new V.JobManager(loaded, events);
      manager.ValidIs();
      server := new D.Server(manager);
      manager.ValidIs();
      OnlyServer(r, events.View());
      Safety.BootSafe(loaded);
    }

    static lemma OnlyServer(r: V.Books, t: V.Books)
      requires r == Registry(map[], map[], map[]) && Coherent(t) && V.SameApart(r, t, V.Listener)
      ensures forall o :: o in t.interest ==> !o.Connection?
    {
      forall o | o in t.interest
        ensures !o.Connection?
      {
        assert At(t, o).Some?;
      }
    }

    lemma ProcessEntry(n: string, k: nat, h: S.Handle)
      requires Valid() && n in manager.jobs && k < |manager.jobs[n].processes|
      ensures var p := manager.jobs[n].processes[k];
              At(events.View(), V.OfProcess(p, h)) ==
                if h in Safety.Owned(p.View()) then Some(Entry(Some(V.CallbackFor(p, h)), None)) else None
    {
      var job := manager.jobs[n];
      job.ValidIs();
      assert View().jobs[n].procs[k] == job.processes[k].View();
      assert Safety.ProcOk(View().jobs[n].procs[k], View().jobs[n].config);
      assert V.Shows(events.View(), job.processes[k], job.processes[k].os.watched);
    }

    /** A pidfd calls back the process whose child changed, a timer the one whose time has come. */
    static function ProcessCallback(o: V.Owner): V.Callback
      requires o.OfProcess?
    {
      if o.handle.PidFd? then V.ChildChanged(o.process) else V.TimerExpired(o.process)
    }

    /** The descriptors that the jobs' processes own. */
    ghost function ProcessOwners(): set<V.Owner>
      reads manager, manager.repr, manager.jobs.Values, events
      requires manager.Valid() && manager.events == events
    {
      set n, k, h | n in manager.jobs && 0 <= k < |manager.jobs[n].processes|
                    && h in Safety.Owned(manager.jobs[n].processes[k].View())
        :: V.OfProcess(manager.jobs[n].processes[k], h)
    }

    lemma ProcessesAreExact(o: V.Owner)
      requires Valid() && o.OfProcess?
      ensures o in events.interest <==> o in ProcessOwners()
      ensures o in events.interest ==>
                At(events.View(), o) == Some(Entry(Some(ProcessCallback(o)), None))
    {
      hide Safety.Owned, V.Shows;
      if o in events.interest {
        var n := o.process.job.config.name;
        assert manager.Tabled(o.process);
        var k :| 0 <= k < |manager.jobs[n].processes| && manager.jobs[n].processes[k] == o.process;
        ProcessEntry(n, k, o.handle);
      }
      if o in ProcessOwners() {
        var n, k :| n in manager.jobs && 0 <= k < |manager.jobs[n].processes|
                    && o.handle in Safety.Owned(manager.jobs[n].processes[k].View())
                    && o == V.OfProcess(manager.jobs[n].processes[k], o.handle);
        ProcessEntry(n, k, o.handle);
      }
    }

    /** The event manager holds exactly the server, the open clients, the pidfds of the children
        that were not reaped and the timers that run; each with a callback for each of its
        interest bits and none without. */
    lemma RegistryIsExact()
      requires Valid()
      ensures Coherent(events.View())
      ensures events.interest.Keys ==
                {V.Listener} + (set id | id in clients && clients[id].open :: V.Connection(id)) + ProcessOwners()
      ensures forall o :: o in events.interest && !o.Connection? ==>
                At(events.View(), o) ==
                  Some(Entry(Some(if o.Listener? then V.ServerAccepts else ProcessCallback(o)), None))
    {
      hide Safety.Safe, V.JobManager.Valid, ClientsIn;
      manager.ValidIs();
      var owners := {V.Listener} + (set id | id in clients && clients[id].open :: V.Connection(id)) + ProcessOwners();
      forall o: V.Owner | o in events.interest.Keys + owners
        ensures o in events.interest.Keys <==> o in owners
        ensures o in events.interest && !o.Connection? ==>
                  At(events.View(), o) ==
                    Some(Entry(Some(if o.Listener? then V.ServerAccepts else ProcessCallback(o)), None))
      {
        if o.OfProcess? {
          ProcessesAreExact(o);
        } else {
          ServedAreExact(o);
        }
      }
    }

    lemma ServedAreExact(o: V.Owner)
      requires Valid() && !o.OfProcess?
      ensures o in events.interest <==> o.Listener? || (o.Connection? && o.id in clients && clients[o.id].open)
      ensures o.Listener? ==> At(events.View(), o) == Some(Entry(Some(V.ServerAccepts), None))
    {
      if o.Connection? && o.id in clients {
        assert clients[o.id].Me() == o;
      }
    }

    /** An open client reads or writes, and not both. */
    lemma ClientsHaveOneMode(id: nat)
      requires Valid() && id in clients && clients[id].open
      ensures clients[id].Reading() != clients[id].Writing()
    {
      assert clients[id].ValidIn(events.View());
    }

    // ------------------------------------------------------------------------ one turn

    /** What epoll can report: a registered interest, and results that fit. */
    ghost predicate CanReport(r: Report)
      requires Linked()
      reads this, repr, events, manager, manager.repr, manager.jobs.Values, (if r.Happened? then {r.process} else {})
    {
      && Source(r) in events.interest
      && match r
         case Connecting(id) => id !in clients
         case Readable(id, received, loaded, order) =>
           && events.interest[V.Connection(id)].input
           && (received.Data? ==> 1 <= |received.bytes| <= MAX_CHUNK)
           && S.IsOrder(order, View().jobs.Keys) && (loaded.Some? ==> Safety.ConfigOk(loaded.value))
         case Writable(id, taken) =>
           && events.interest[V.Connection(id)].output && id in clients
           && (taken.Some? ==> WriterOk(clients[id].writer.View()) && CanTake(clients[id].writer.View(), taken.value))
         case Happened(p, h, what) =>
           && (h.TimerFd? <==> what.TimerFired?)
           && (what.TimerFired? ==> p.timer.Timer? && p.timer.interval > 0)
    }

    lemma ReportIsEnabled(r: Report)
      requires Valid() && CanReport(r) && r.Happened?
      ensures S.Enabled(View(), S.ChildDid(r.process.job.config.name, r.process.index, r.what))
      ensures r.process.job.config.name in manager.jobs
      ensures var job := manager.jobs[r.process.job.config.name];
              r.process.index < |job.processes| && job.processes[r.process.index] == r.process
    {
      hide Safety.Safe;
      var n := r.process.job.config.name;
      assert manager.Tabled(r.process);
      manager.jobs[n].ValidIs();
      var k :| 0 <= k < |manager.jobs[n].processes| && manager.jobs[n].processes[k] == r.process;
      assert r.process.index == k;
      ProcessEntry(n, k, r.handle);
      assert View().jobs[n].procs[k] == r.process.View();
    }

    /** And nothing is missed: whatever can happen to a child is reported. */
    lemma EnabledIsReported(n: string, k: nat, what: S.ChildEvent)
      requires Valid() && S.Enabled(View(), S.ChildDid(n, k, what))
      ensures n in manager.jobs && k < |manager.jobs[n].processes|
      ensures var p := manager.jobs[n].processes[k];
              CanReport(Happened(p, if what.TimerFired? then S.TimerFd(p.os.timers) else S.PidFd(p.os.forks), what))
    {
      hide Safety.Safe, ClientsIn;
      manager.jobs[n].ValidIs();
      var p := manager.jobs[n].processes[k];
      assert View().jobs[n].procs[k] == p.View();
      ProcessEntry(n, k, if what.TimerFired? then S.TimerFd(p.os.timers) else S.PidFd(p.os.forks));
    }

    /** Nor on a connection: one that reads can be read from, one that writes can be written to,
        and a new one can be made. */
    lemma FittingIsReported(r: Report)
      requires Valid() && Fits(Open(), r) && !r.Happened? && (r.Connecting? ==> r.id !in clients)
      requires r.Readable? ==>
                 && (r.received.Data? ==> 1 <= |r.received.bytes| <= MAX_CHUNK)
                 && S.IsOrder(r.order, View().jobs.Keys) && (r.loaded.Some? ==> Safety.ConfigOk(r.loaded.value))
      ensures CanReport(r)
    {
      hide Safety.Safe, V.JobManager.Valid, S.IsOrder, Safety.ConfigOk;
      manager.ValidIs();
      if r.Readable? || r.Writable? {
        assert clients[r.id].Me() == Source(r) && clients[r.id].ValidIn(events.View());
        assert Open()[r.id] == clients[r.id].ViewIn(events.View());
      }
    }

    /** One client and the processes changed: everyone else's entries still fit. */
    lemma StillClients(id: nat, r: V.Books, t: V.Books)
      requires Structured() && id in clients && clients[id].ValidIn(t) && Coherent(r) && Coherent(t)
      requires forall i :: i in clients && i != id ==> clients[i].ValidIn(r)
      requires V.SameApart(r, t, V.Connection(id))
      requires At(r, V.Listener) == Some(Entry(Some(V.ServerAccepts), None))
      requires forall o :: o in r.interest && o.Connection? && o.id != id ==> o.id in clients && clients[o.id].open
      ensures ClientsIn(t)
      ensures forall i :: i in clients && i != id ==> clients[i].ViewIn(t) == clients[i].ViewIn(r)
    {
      forall i | i in clients && i != id
        ensures clients[i].ValidIn(t) && clients[i].ViewIn(t) == clients[i].ViewIn(r)
      {
        clients[i].Kept(r, t);
      }
      forall o | o in t.interest && o.Connection?
        ensures o.id in clients && clients[o.id].open
      {
        if o.id != id {
          assert At(t, o) == At(r, o);
        } else {
          assert At(t, clients[id].Me()).Some?;
        }
      }
      assert At(t, V.Listener) == At(r, V.Listener);
    }

    /** One client of a daemon whose parts fit, and the others. */
    lemma ClientIs(id: nat)
      requires Linked() && id in clients
      ensures var c := clients[id];
              && c.Valid() && c.events == events && c.server == server && c.globals == globals && c.id == id
              && c.server.manager == manager && c in repr && c.reader in repr && c.writer in repr && globals in repr
      ensures OthersIn(id, events.View()) && events.Valid() && manager.Valid()
      ensures manager.events == events && server.manager == manager
    {
      hide V.JobManager.Valid, D.Client.ValidIn, OthersIn;
      manager.ValidIs();
      clients[id].ValidIs();
      OthersFit(id);
    }

    lemma OthersFit(id: nat)
      requires Linked() && events.Valid()
      ensures OthersIn(id, events.View())
    {
      hide V.JobManager.Valid, D.Client.ValidIn, Framed;
    }

    ghost function Others(id: nat): set<object>
      reads this
    {
      (set i | i in clients && i != id :: clients[i] as object) +
      (set i | i in clients && i != id :: clients[i].reader as object) +
      (set i | i in clients && i != id :: clients[i].writer as object)
    }

    /** A client's turn does not touch the others. */
    lemma OthersAreApart(id: nat)
      requires Framed() && id in clients
      ensures clients[id] !in Others(id) && clients[id].reader !in Others(id) && clients[id].writer !in Others(id)
      ensures globals !in Others(id) && events !in Others(id) && manager !in Others(id) && Others(id) !! manager.repr
    {
    }

    /** Everyone but the client `id` has its own registrations in `r`. */
    ghost predicate OthersIn(id: nat, r: V.Books)
      reads this, Others(id)
    {
      && Coherent(r) && At(r, V.Listener) == Some(Entry(Some(V.ServerAccepts), None))
      && (forall i :: i in clients && i != id ==> clients[i].ValidIn(r))
      && forall o :: o in r.interest && o.Connection? && o.id != id ==> o.id in clients && clients[o.id].open
    }

    /** Their connections. */
    ghost function OthersOpen(id: nat, r: V.Books): Connections
      reads this, Others(id)
      requires OthersIn(id, r)
    {
      map i | i in clients && i != id :: clients[i].ViewIn(r)
    }

    lemma OpenIs(id: nat)
      requires Linked() && id in clients && OthersIn(id, events.View())
      ensures Open() == OthersOpen(id, events.View())[id := clients[id].ViewIn(events.View())]
    {
      hide D.Client.ViewIn, D.Client.ValidIn, V.JobManager.Valid;
    }

    /** One client and processes changed: the parts fit again. */
    lemma Relinked(id: nat, r: V.Books)
      requires Framed() && manager.Valid() && events.Valid() && id in clients && clients[id].ValidIn(events.View())
      requires OthersIn(id, r) && V.SameApart(r, events.View(), V.Connection(id))
      ensures Linked() && OthersIn(id, events.View()) && OthersOpen(id, events.View()) == OthersOpen(id, r)
    {
      hide D.Client.ViewIn, D.Client.ValidIn, V.JobManager.Valid, V.SameApart;
      StillClients(id, r, events.View());
    }

    lemma AllClientsAre()
      requires Linked()
      ensures forall i :: i in clients ==> clients[i].ValidIn(events.View())
      ensures forall o :: o in events.interest && o.Connection? ==> o.id in clients && clients[o.id].open
      ensures At(events.View(), V.Listener) == Some(Entry(Some(V.ServerAccepts), None)) && Coherent(events.View())
    {
    }

    lemma NotRegistered(id: nat)
      requires Linked() && id !in clients
      ensures V.Connection(id) !in events.interest
    {
    }

    /** `onAccept`: a client for the new connection; those that are closed go. */
    method Accept(id: nat)
      requires Linked() && id !in clients
      modifies this`clients, this`repr, events
      ensures Linked() && View() == old(View()) && fresh(repr - old(repr)) && manager.repr == old(manager.repr)
      ensures Open() == StillOpen(old(Open())[id := Some(L.CONNECTED.daemon)])
    {
      hide V.JobManager.Valid, V.JobManager.ValidIn, V.JobManager.View, V.SameApart, D.Client.ValidIn,
           D.Client.ViewIn, D.Client.Valid, ClientsIn, ConnectionsIn, StillOpen, OthersIn, OthersOpen, Structured;
      ghost var r := events.View();
      AllClientsAre();
      var client := NewClient(id);
      Admit(client, r);
      Relinked(id, r);
      OpenIs(id);
      DropClosed();
    }

    method Admit(client: D.Client, ghost r: V.Books)
      requires Framed() && ClientsIn(r) && Coherent(r)
      requires client.id !in clients && {client as object, client.reader, client.writer} !! repr + manager.repr
      requires client.events == events && client.server == server && client.globals == globals
      modifies this`clients, this`repr
      ensures Framed() && clients == old(clients)[client.id := client]
      ensures repr == old(repr) + {client, client.reader, client.writer}
      ensures OthersIn(client.id, r) && OthersOpen(client.id, r) == old(ConnectionsIn(r))
    {
      hide D.Client.ValidIn, D.Client.ViewIn, OthersIn, OthersOpen;
      ghost var s := ConnectionsIn(r);
      clients := clients[client.id := client];
      repr := repr + {client, client.reader, client.writer};
      OthersWere(client.id, r, s);
    }

    lemma OthersWere(id: nat, r: V.Books, s: Connections)
      requires Structured() && Coherent(r) && At(r, V.Listener) == Some(Entry(Some(V.ServerAccepts), None))
      requires s.Keys == clients.Keys - {id}
      requires forall i :: i in clients && i != id ==> clients[i].ValidIn(r) && clients[i].ViewIn(r) == s[i]
      requires forall o :: o in r.interest && o.Connection? ==> o.id in clients && o.id != id && clients[o.id].open
      ensures OthersIn(id, r) && OthersOpen(id, r) == s
    {
      hide D.Client.ViewIn, D.Client.ValidIn;
    }

    method NewClient(id: nat) returns (client: D.Client)
      requires Linked() && id !in clients
      modifies events
      ensures fresh(client) && fresh(client.reader) && fresh(client.writer)
      ensures client.id == id && client.events == events && client.server == server && client.globals == globals
      ensures events.Valid() && client.ValidIn(events.View()) && manager.Valid() && View() == old(View())
      ensures client.ViewIn(events.View()) == Some(L.CONNECTED.daemon)
      ensures V.SameApart(old(events.View()), events.View(), V.Connection(id))
    {
      hide V.JobManager.Valid, V.JobManager.ValidIn, V.JobManager.View, V.SameBut, V.SameApart, D.Client.ValidIn,
           D.Client.Valid, ClientsIn;
      ghost var r := events.View();
      manager.ValidIs();
      NotRegistered(id);
      client := new D.Client(id, server, globals, events);
      client.ValidIs();
      client.ViewIs();
      V.SameButIsApart(r, events.View(), V.Connection(id));
      manager.ValidKept(r, events.View(), V.Connection(id));
      manager.ValidIs();
    }

    method DropClosed()
      requires Linked()
      modifies this`clients
      ensures Linked() && View() == old(View()) && Open() == StillOpen(old(Open()))
    {
      hide V.JobManager.Valid, V.JobManager.ValidIn, V.JobManager.View, D.Client.ValidIn;
      clients := map id | id in clients && clients[id].open :: clients[id];
    }

    lemma ServerIsReady(id: nat, loaded: Option<ConfigMap>, order: seq<string>)
      requires Valid() && id in clients
      requires S.IsOrder(order, View().jobs.Keys) && (loaded.Some? ==> Safety.ConfigOk(loaded.value))
      ensures clients[id].ServerReady(loaded, order)
    {
      hide V.JobManager.Valid, Safety.Safe, Safety.ConfigOk, D.Client.ValidIn, ClientsIn;
      assert View().jobs.Keys == manager.jobs.Keys;
      assert clients[id].server.manager == manager;
    }

    method ReadFrom(id: nat, received: Received, codec: L.Codec, loaded: Option<ConfigMap>, order: seq<string>)
      returns (response: Response, ghost heard: Option<Command>)
      requires Valid() && id in clients && clients[id].open && clients[id].Reading()
      requires received.Data? ==> 1 <= |received.bytes| <= MAX_CHUNK
      requires S.IsOrder(order, View().jobs.Keys) && (loaded.Some? ==> Safety.ConfigOk(loaded.value))
      modifies repr, events, manager, manager.repr
      ensures Linked() && fresh(manager.repr - old(manager.repr)) && globals.state == old(globals.state)
      ensures heard == if received.Data?
                       then L.DaemonReads(codec, old(clients[id].View()), received.bytes, response).heard else None
      ensures heard.Some? ==> Answers(heard.value, response)
      ensures View() == if heard.Some? then D.Effect(old(View()), heard.value, loaded, order) else old(View())
      ensures Open() == old(Open())[id := AfterRead(old(clients[id].View()), received, codec, response)]
    {
      hide V.JobManager.Valid, V.JobManager.ValidIn, V.JobManager.View, V.SameApart, D.Client.ValidIn,
           D.Client.Valid, D.Client.Reading, D.Client.View, D.Client.ViewIn, ClientsIn, Safety.Safe, S.IsOrder,
           Safety.ConfigOk, D.Effect, Answers, L.DaemonReads, Framed, Structured, OthersIn, OthersOpen, Others,
           AfterRead;
      ghost var r := events.View();
      ClientIs(id);
      ServerIsReady(id, loaded, order);
      OpenIs(id);
      clients[id].ViewIs();
      response, heard := CallReader(id, received, codec, loaded, order);
      Relinked(id, r);
      OpenIs(id);
    }

    method CallReader(id: nat, received: Received, codec: L.Codec, loaded: Option<ConfigMap>, order: seq<string>)
      returns (response: Response, ghost heard: Option<Command>)
      requires Framed() && id in clients && manager.Valid() && OthersIn(id, events.View())
      requires clients[id].Valid() && clients[id].open && clients[id].Reading()
      requires clients[id].ServerReady(loaded, order)
      requires received.Data? ==> 1 <= |received.bytes| <= MAX_CHUNK
      modifies clients[id], clients[id].reader, clients[id].writer, events, manager, manager.repr
      ensures Framed() && events.Valid() && manager.Valid() && fresh(manager.repr - old(manager.repr))
      ensures clients == old(clients) && globals.state == old(globals.state) && clients[id].ValidIn(events.View())
      ensures V.SameApart(old(events.View()), events.View(), V.Connection(id))
      ensures clients[id].ViewIn(events.View()) == AfterRead(old(clients[id].View()), received, codec, response)
      ensures heard == if received.Data?
                       then L.DaemonReads(codec, old(clients[id].View()), received.bytes, response).heard else None
      ensures heard.Some? ==> Answers(heard.value, response)
      ensures S.IsOrder(order, old(View()).jobs.Keys)
      ensures View() == if heard.Some? then D.Effect(old(View()), heard.value, loaded, order) else old(View())
      ensures OthersIn(id, old(events.View()))
      ensures OthersOpen(id, old(events.View())) == old(OthersOpen(id, events.View()))
    {
      hide V.JobManager.Valid, V.JobManager.ValidIn, V.JobManager.View, V.SameApart, D.Client.ValidIn,
           D.Client.Valid, D.Client.Reading, D.Client.View, D.Client.ViewIn, Safety.Safe, S.IsOrder,
           Safety.ConfigOk, D.Effect, Answers, L.DaemonReads, OthersIn, OthersOpen;
      OthersAreApart(id);
      manager.ValidIs();
      ghost var before := clients[id].View();
      OrderFits(order);
      response := clients[id].HandleRead(received, codec, loaded, order);
      heard := if received.Data? then L.DaemonReads(codec, before, received.bytes, response).heard else None;
      manager.ValidIs();
      clients[id].ValidIs();
      clients[id].ViewIs();
    }

    lemma OrderFits(order: seq<string>)
      requires S.IsOrder(order, manager.jobs.Keys)
      ensures S.IsOrder(order, View().jobs.Keys)
    {
      assert View().jobs.Keys == manager.jobs.Keys;
    }

    method WriteTo(id: nat, taken: Option<nat>)
      requires Linked() && id in clients && clients[id].open && clients[id].Writing()
      requires taken.Some? ==> CanTake(clients[id].writer.View(), taken.value)
      modifies repr, events
      ensures Linked() && View() == old(View()) && manager.repr == old(manager.repr)
      ensures Open() == old(Open())[id :=
                if taken.Some? then Some(L.DaemonWrites(old(clients[id].View()), taken.value)) else None]
      ensures globals.state ==
                if taken.Some? && Written(old(clients[id].View()).writer, taken.value).done &&
                   old(clients[id].View()).mode.cmd.kind == TERMINATE
                then D.TERMINATED else old(globals.state)
    {
      hide V.JobManager.Valid, V.JobManager.ValidIn, V.JobManager.View, V.SameBut, V.SameApart, D.Client.ValidIn,
           D.Client.Valid, D.Client.Writing, D.Client.View, D.Client.ViewIn, ClientsIn, L.DaemonWrites, Written,
           CanTake, Framed, Structured, OthersIn, OthersOpen, Others;
      ghost var r := events.View();
      ClientIs(id);
      OpenIs(id);
      clients[id].ViewIs();
      CallWriter(id, taken);
      Relinked(id, r);
      OpenIs(id);
    }

    method CallWriter(id: nat, taken: Option<nat>)
      requires Framed() && id in clients && manager.Valid() && OthersIn(id, events.View())
      requires clients[id].Valid() && clients[id].open && clients[id].Writing()
      requires taken.Some? ==> CanTake(clients[id].writer.View(), taken.value)
      modifies clients[id], events, clients[id].writer, globals
      ensures Framed() && events.Valid() && manager.Valid() && clients[id].ValidIn(events.View())
      ensures V.SameApart(old(events.View()), events.View(), V.Connection(id))
      ensures clients[id].ViewIn(events.View()) ==
                if taken.Some? then Some(L.DaemonWrites(old(clients[id].View()), taken.value)) else None
      ensures globals.state ==
                if taken.Some? && Written(old(clients[id].View()).writer, taken.value).done &&
                   old(clients[id].View()).mode.cmd.kind == TERMINATE
                then D.TERMINATED else old(globals.state)
      ensures OthersIn(id, old(events.View()))
      ensures OthersOpen(id, old(events.View())) == old(OthersOpen(id, events.View()))
    {
      hide V.JobManager.Valid, V.JobManager.ValidIn, V.JobManager.View, V.SameBut, V.SameApart, D.Client.ValidIn,
           D.Client.Valid, D.Client.Writing, D.Client.View, D.Client.ViewIn, L.DaemonWrites, Written, CanTake,
           OthersIn, OthersOpen;
      OthersAreApart(id);
      clients[id].ViewIs();
      clients[id].HandleWrite(taken);
      V.SameButIsApart(old(events.View()), events.View(), V.Connection(id));
      clients[id].ValidIs();
      clients[id].ViewIs();
    }

    /** Only processes changed: the clients' entries still fit. */
    lemma SameClients(r: V.Books)
      requires Structured() && ClientsIn(r) && V.SameElsewhere(r, events.View()) && Coherent(r) && events.Valid()
      ensures ClientsIn(events.View()) && ConnectionsIn(events.View()) == ConnectionsIn(r)
    {
      hide D.Client.ValidIn;
      var t := events.View();
      forall i | i in clients
        ensures clients[i].ValidIn(t) && clients[i].ViewIn(t) == clients[i].ViewIn(r)
      {
        clients[i].Kept(r, t);
      }
      forall o | o in t.interest && o.Connection?
        ensures o.id in clients && clients[o.id].open
      {
        assert At(t, o) == At(r, o);
      }
      assert At(t, V.Listener) == At(r, V.Listener);
    }

    /** The child of a process changed: it exited or died by a signal. */
    method ChildChanged(name: string, index: nat, what: S.ChildEvent)
      requires Linked() && !what.TimerFired? && S.Enabled(View(), S.ChildDid(name, index, what))
      modifies manager.repr, events
      ensures Linked() && View() == S.Handled(old(View()), S.ChildDid(name, index, what))
      ensures manager.repr == old(manager.repr) && Open() == old(Open()) && globals.state == old(globals.state)
    {
      hide V.JobManager.Valid, V.JobManager.ValidIn, V.JobManager.View, V.SameElsewhere, D.Client.ValidIn,
           D.Client.ViewIn, ClientsIn, ConnectionsIn, S.Handled, S.Enabled;
      ghost var r := events.View();
      manager.ValidIs();
      manager.HandleOne(name, index, what);
      manager.ValidIs();
      SameClients(r);
    }

    /** The timer of a process expired. */
    method TimerExpired(name: string, index: nat)
      requires Linked() && S.Enabled(View(), S.ChildDid(name, index, S.TimerFired))
      modifies manager.repr, events
      ensures Linked() && View() == S.Handled(old(View()), S.ChildDid(name, index, S.TimerFired))
      ensures manager.repr == old(manager.repr) && Open() == old(Open()) && globals.state == old(globals.state)
    {
      hide V.JobManager.Valid, V.JobManager.ValidIn, V.JobManager.View, V.SameElsewhere, D.Client.ValidIn,
           D.Client.ViewIn, ClientsIn, ConnectionsIn, S.Handled, S.Enabled;
      ghost var r := events.View();
      manager.ValidIs();
      manager.HandleOne(name, index, S.TimerFired);
      manager.ValidIs();
      SameClients(r);
    }

    method Update()
      requires Linked() && Safety.ManagerOk(View())
      modifies manager`jobs, manager`repr, manager.repr, events
      ensures Linked() && Safety.Safe(View()) && View() == S.Updated(old(View()))
      ensures fresh(manager.repr - old(manager.repr)) && Open() == old(Open()) && globals.state == old(globals.state)
    {
      hide V.JobManager.Valid, V.JobManager.ValidIn, V.JobManager.View, V.SameElsewhere, D.Client.ValidIn,
           D.Client.ViewIn, ClientsIn, ConnectionsIn, S.Updated, Safety.ManagerOk;
      ghost var r := events.View();
      manager.ValidIs();
      Safety.UpdatedOk(View());
      manager.Update();
      manager.ValidIs();
      SameClients(r);
    }

    /** The callback that the registry holds for a report: it is found, and it is the owner's. */
    lemma CallbackIsOwners(r: Report, callback: V.Callback)
      requires Valid() && CanReport(r)
      requires Some(callback) ==
                 if r.Writable? then events.writeCallbacks[Source(r)] else events.readCallbacks[Source(r)]
      ensures match r
              case Connecting(_) => callback == V.ServerAccepts
              case Readable(id, _, _, _) =>
                id in clients && clients[id].open && clients[id].Reading() && callback == V.ClientReads(id)
              case Writable(id, _) =>
                && id in clients && clients[id].open && clients[id].Writing()
                && callback.ClientWrites? && callback.id == id
              case Happened(p, h, _) => callback == if h.PidFd? then V.ChildChanged(p) else V.TimerExpired(p)
    {
      hide Safety.Safe, V.JobManager.Valid;
      manager.ValidIs();
      if r.Happened? {
        ReportIsEnabled(r);
        ProcessesAreExact(Source(r));
      } else if !r.Connecting? {
        assert clients[r.id].Me() == Source(r) && clients[r.id].ValidIn(events.View());
      }
    }

    /** The kernel reports only interests that are registered. */
    lemma ReportIsRegistered(r: Report)
      requires Valid() && CanReport(r)
      ensures events.Valid() && Source(r) in events.interest
      ensures if r.Writable? then events.interest[Source(r)].output else events.interest[Source(r)].input
    {
      hide Safety.Safe, V.JobManager.Valid, ClientsIn;
      manager.ValidIs();
      if r.Happened? {
        ReportIsEnabled(r);
        ProcessesAreExact(Source(r));
      } else if r.Connecting? {
        ServedAreExact(Source(r));
      }
    }

    /** A report for a connection fits its mode. */
    lemma ReportFits(r: Report)
      requires Valid() && CanReport(r)
      ensures Fits(Open(), r)
      ensures r.Readable? || r.Writable? ==>
                && r.id in clients && clients[r.id].Valid() && clients[r.id].open
                && Open()[r.id] == Some(clients[r.id].View())
                && (if r.Readable? then clients[r.id].Reading() else clients[r.id].Writing())
    {
      hide Safety.Safe, V.JobManager.Valid;
      if r.Readable? || r.Writable? {
        assert clients[r.id].Me() == Source(r) && clients[r.id].ValidIn(events.View());
        manager.ValidIs();
        clients[r.id].ViewIs();
      }
    }

    /** Looks the callback up and calls it. */
    method Dispatch(report: Report, codec: L.Codec) returns (response: Response, ghost heard: Option<Command>)
      requires Valid() && CanReport(report)
      modifies this`clients, this`repr, repr, events, manager, manager.repr
      ensures Linked() && fresh(manager.repr - old(manager.repr))
      ensures Fits(old(Open()), report) && heard == Heard(old(Open()), report, codec, response)
      ensures heard.Some? ==> Answers(heard.value, response)
      ensures match Cause(report, heard)
              case Some(e) => S.Enabled(old(View()), e) && Safety.LoadsOk(e) && View() == S.Handled(old(View()), e)
              case None => View() == old(View())
      ensures Open() == Served(old(Open()), report, codec, response)
      ensures globals.state == if Terminates(old(Open()), report) then D.TERMINATED else old(globals.state)
    {
      hide Linked, V.JobManager.Valid, Safety.Safe, Safety.ConfigOk, S.IsOrder, S.Handled, S.Enabled, Fits, Open,
           Answers, L.DaemonReads, L.DaemonWrites, CanTake, WriterOk;
      response, heard := Response(OK, ""), None;
      ReportIsRegistered(report);
      ReportFits(report);
      var callback := events.Callback(Source(report), !report.Writable?);
      CallbackIsOwners(report, callback);
      if report.Happened? {
        ReportIsEnabled(report);
      }
      match callback {
        case ChildChanged(p) => ChildChanged(p.job.config.name, p.index, report.what);
        case TimerExpired(p) => TimerExpired(p.job.config.name, p.index);
        case _ => response, heard := CallServer(callback, report, codec);
      }
    }

    /** The callbacks of the server and its clients. */
    method CallServer(callback: V.Callback, report: Report, codec: L.Codec)
      returns (response: Response, ghost heard: Option<Command>)
      requires Valid() && CanReport(report) && Fits(Open(), report) && !report.Happened?
      requires match callback
               case ServerAccepts => report.Connecting?
               case ClientReads(id) => report.Readable? && report.id == id
               case ClientWrites(id, _) => report.Writable? && report.id == id
               case _ => false
      modifies this`clients, this`repr, repr, events, manager, manager.repr
      ensures Linked() && fresh(manager.repr - old(manager.repr))
      ensures heard == Heard(old(Open()), report, codec, response) && (heard.Some? ==> Answers(heard.value, response))
      ensures match Cause(report, heard)
              case Some(e) => S.Enabled(old(View()), e) && Safety.LoadsOk(e) && View() == S.Handled(old(View()), e)
              case None => View() == old(View())
      ensures Open() == Served(old(Open()), report, codec, response)
      ensures globals.state == if Terminates(old(Open()), report) then D.TERMINATED else old(globals.state)
    {
      hide Linked, V.JobManager.Valid, Safety.Safe, Safety.ConfigOk, S.IsOrder, S.Handled, D.Client.Reading,
           D.Client.Writing, D.Client.View, L.DaemonReads, L.DaemonWrites, Answers, CanTake, WriterOk, Written,
           StillOpen, AfterRead, Open;
      response, heard := Response(OK, ""), None;
      ReportFits(report);
      match callback {
        case ServerAccepts => Accept(report.id);
        case ClientReads(id) =>
          response, heard := ReadFrom(id, report.received, codec, report.loaded, report.order);
        case ClientWrites(id, _) => WriteTo(id, report.taken);
      }
    }

    /** One turn of the main loop: epoll's report, the callback, and `update`. It keeps everything.
        For the jobs it is a step of the supervisor's run, by the child's event or the command that
        was received, or nothing. For the clients it is a step of the protocol, a new connection or
        a closed one; and the daemon is to end exactly when the answer to an accepted `terminate`
        is complete. */
    method Turn(report: Report, codec: L.Codec) returns (response: Response, ghost heard: Option<Command>)
      requires Valid() && CanReport(report)
      modifies this`clients, this`repr, repr, events, manager, manager.repr
      ensures Valid()
      ensures Fits(old(Open()), report) && heard == Heard(old(Open()), report, codec, response)
      ensures heard.Some? ==> Answers(heard.value, response)
      ensures match Cause(report, heard)
              case Some(e) => S.Enabled(old(View()), e) && View() == S.Step(old(View()), e)
              case None => View() == old(View())
      ensures Open() == Served(old(Open()), report, codec, response)
      ensures globals.state == if Terminates(old(Open()), report) then D.TERMINATED else old(globals.state)
    {
      hide Linked, S.Handled, S.Updated, S.Enabled, Safety.Safe, CanReport, Cause, Fits, Served, Heard, Terminates,
           Open, Answers;
      response, heard := Dispatch(report, codec);
      if Cause(report, heard).Some? {
        Safety.HandledOk(old(View()), Cause(report, heard).value);
      } else {
        NothingMarked(View());
      }
      Update();
    }
  }
}
