/** The daemon's side of a connection: the server that decides on commands and hands them to the
    manager, and the client object that reads a command, writes its answer, and reads again. */
module DaemonSide {
  import opened Options
  import opened JobConfigs
  import opened Proto
  import opened Framing
  import opened CommandCheck
  import opened Events
  import opened Ipc
  import L = Lockstep
  import S = SupervisorSpec
  import Safety = SupervisorSafety
  import V = Supervisor
  import Clean = CleanRuns
  import C = Commands

  datatype GlobalState = RUNNING | RELOADING | TERMINATED

  class Globals {
    var state: GlobalState

    constructor ()
      ensures state == RUNNING
    {
      state := RUNNING;
    }
  }

  /** The event of the supervisor that a command is; none when it is turned away or asks for
      nothing of the jobs. */
  function CommandEvent(cmd: Command, loaded: Option<ConfigMap>, order: seq<string>): Option<S.Event> {
    if Rejection(cmd).Some? then None
    else
      match cmd.kind
      case START => Some(S.StartCommand(cmd.args[0]))
      case STOP => Some(S.StopCommand(cmd.args[0]))
      case RESTART => Some(S.RestartCommand(cmd.args[0]))
      case RELOAD => Some(S.ReloadCommand(loaded, order))
      case _ => None
  }

  /** What a command does to the jobs. */
  function Effect(m: S.Manager, cmd: Command, loaded: Option<ConfigMap>, order: seq<string>): S.Manager
    requires S.IsOrder(order, m.jobs.Keys)
  {
    match CommandEvent(cmd, loaded, order)
    case Some(e) => S.Handled(m, e)
    case None => m
  }

  /** What each type of command does to the jobs, in a clean state. */
  lemma CommandsDo(m: S.Manager, cmd: Command, loaded: Option<ConfigMap>, order: seq<string>)
    requires Clean.CleanState(m) && S.IsOrder(order, m.jobs.Keys)
    ensures var r := Effect(m, cmd, loaded, order);
            if Rejection(cmd).Some? then r == m
            else
              match cmd.kind
              case START =>
                var n := cmd.args[0];
                if n in m.jobs then C.OnlyJob(m, r, n) && C.StartDid(m.jobs[n], r.jobs[n]) else r == m
              case STOP =>
                var n := cmd.args[0];
                if n in m.jobs then C.OnlyJob(m, r, n) && C.StopDid(m, n, r.jobs[n]) else r == m
              case RESTART =>
                var n := cmd.args[0];
                if n in m.jobs
                then C.OnlyJob(m, r, n) && (Clean.CleanRestart(m, n) ==> C.RestartDid(m.jobs[n], r.jobs[n]))
                else r == m
              case RELOAD => if loaded.None? then r == m else r.config == loaded.value
              case _ => r == m
  {
    hide C.OnlyJob, C.StartDid, C.StopDid, C.RestartDid, S.Handled, Clean.CleanRestart;
    if Rejection(cmd).None? {
      match cmd.kind
      case START => C.StartCommandDoes(m, cmd.args[0]);
      case STOP => C.StopCommandDoes(m, cmd.args[0]);
      case RESTART => C.RestartCommandDoes(m, cmd.args[0]);
      case RELOAD =>
        C.FailedReloadDoesNothing(m, order);
        if loaded.Some? {
          C.ReloadCreates(m, loaded.value, order);
        }
      case _ =>
    }
  }

  /** A `reload` is the supervisor's, in any state. */
  lemma ReloadsReload(m: S.Manager, loaded: Option<ConfigMap>, order: seq<string>)
    requires S.IsOrder(order, m.jobs.Keys)
    ensures Effect(m, Command(RELOAD, []), loaded, order) == S.Reloaded(m, loaded, order).0
    ensures loaded.None? ==> Effect(m, Command(RELOAD, []), loaded, order) == m
  {
    hide S.Reloaded;
    C.FailedReloadDoesNothing(m, order);
  }

  /** The status an accepted command is answered with; none when the exception of a stop leaves
      `reload`. */
  function Outcome(m: S.Manager, cmd: Command, loaded: Option<ConfigMap>, order: seq<string>): Option<Status>
    requires S.IsOrder(order, m.jobs.Keys) && Rejection(cmd).None?
  {
    match cmd.kind
    case START => Some(if cmd.args[0] in m.jobs then OK else ARGUMENT_ERROR)
    case STATUS => Some(if cmd.args == [] || cmd.args[0] in m.jobs then OK else ARGUMENT_ERROR)
    case STOP => Some(StopStatus(m, cmd.args[0]))
    case RESTART => Some(StopStatus(m, cmd.args[0]))
    case RELOAD =>
      if loaded.None? then Some(ERROR)
      else if S.Reloaded(m, loaded, order).1 then Some(OK) else None
    case _ => Some(OK)
  }

  function StopStatus(m: S.Manager, n: string): Status {
    if n !in m.jobs then ARGUMENT_ERROR else if S.StopNamed(m, n, true).1 then OK else ERROR
  }

  /** The exact condition for an accepted command to be answered by an error of the daemon's own
      in a clean run: the configuration does not load. No stop throws, no command vanishes. */
  lemma CleanAnswers(m: S.Manager, cmd: Command, loaded: Option<ConfigMap>, order: seq<string>)
    requires Clean.CleanState(m) && S.IsOrder(order, m.jobs.Keys) && Rejection(cmd).None?
    requires loaded.Some? ==> Safety.ConfigOk(loaded.value)
    ensures Outcome(m, cmd, loaded, order).Some? && Outcome(m, cmd, loaded, order).value in {OK, ARGUMENT_ERROR, ERROR}
    ensures Outcome(m, cmd, loaded, order) == Some(ERROR) <==> cmd.kind.RELOAD? && loaded.None?
    ensures Outcome(m, cmd, loaded, order) == Some(ERROR) ==> Effect(m, cmd, loaded, order) == m
  {
    if cmd.kind.RELOAD? && loaded.Some? {
      Clean.ReloadIsClean(m, loaded.value, order);
    } else if (cmd.kind.STOP? || cmd.kind.RESTART?) && cmd.args[0] in m.jobs {
      Clean.StopOfAgreeing(m.jobs[cmd.args[0]], S.VerdictOf(m, cmd.args[0]));
    }
  }

  /** In any run: `stop` and `restart` are answered ERROR exactly when the job is active and one
      of its processes is STOPPED, and an argument error means that nothing was changed. */
  lemma ErrorsExactlyWhen(m: S.Manager, cmd: Command, loaded: Option<ConfigMap>, order: seq<string>)
    requires Safety.Safe(m) && S.IsOrder(order, m.jobs.Keys) && Rejection(cmd).None?
    ensures Outcome(m, cmd, loaded, order) == Some(ARGUMENT_ERROR) <==>
              cmd.kind in {START, STOP, RESTART, STATUS} && cmd.args != [] && cmd.args[0] !in m.jobs
    ensures Outcome(m, cmd, loaded, order) == Some(ARGUMENT_ERROR) ==> Effect(m, cmd, loaded, order) == m
    ensures cmd.kind.STOP? || cmd.kind.RESTART? ==>
              (Outcome(m, cmd, loaded, order) == Some(ERROR) <==>
                 && cmd.args[0] in m.jobs
                 && (m.jobs[cmd.args[0]].state.Starting? || m.jobs[cmd.args[0]].state.Running?)
                 && !Clean.NoneStopped(m.jobs[cmd.args[0]]))
  {
    if (cmd.kind.STOP? || cmd.kind.RESTART?) && cmd.args[0] in m.jobs {
      Clean.StopThrowsExactlyWhen(m.jobs[cmd.args[0]], S.VerdictOf(m, cmd.args[0]));
    }
  }

  class Server {
    const manager: V.JobManager

    /** Registers the socket and starts the jobs that ask for it. */
    constructor (manager: V.JobManager)
      requires manager.Valid() && V.Listener !in manager.events.interest
      modifies manager, manager.repr, manager.events
      ensures this.manager == manager && manager.Valid() && fresh(manager.repr - old(manager.repr))
      ensures manager.View() == S.StartedAll(old(manager.View()))
      ensures At(manager.events.View(), V.Listener) == Some(Entry(Some(V.ServerAccepts), None))
      ensures V.SameApart(old(manager.events.View()), manager.events.View(), V.Listener)
    {
      hide V.JobManager.Valid, V.JobManager.View, V.SameApart, S.StartedAll;
      this.manager := manager;
      new;
      Begin(manager);
    }

    static method Begin(manager: V.JobManager)
      requires manager.Valid() && V.Listener !in manager.events.interest
      modifies manager, manager.repr, manager.events
      ensures manager.Valid() && fresh(manager.repr - old(manager.repr))
      ensures manager.View() == S.StartedAll(old(manager.View()))
      ensures At(manager.events.View(), V.Listener) == Some(Entry(Some(V.ServerAccepts), None))
      ensures V.SameApart(old(manager.events.View()), manager.events.View(), V.Listener)
    {
      hide V.JobManager.Valid, V.SameBut, V.SameElsewhere, V.SameApart, S.StartedAll;
      ghost var r := manager.events.View();
      Listen(manager);
      ghost var t := manager.events.View();
      manager.ValidIs();
      manager.Start();
      manager.ValidIs();
      V.StaysIn(t, manager.events.View(), V.Listener);
      V.SameButItself(manager.events.View(), V.Listener);
      V.SameApartChain(r, t, manager.events.View(), manager.events.View(), V.Listener);
    }

    static method Listen(manager: V.JobManager)
      requires manager.Valid() && V.Listener !in manager.events.interest
      modifies manager.events
      ensures manager.Valid() && V.Listener in manager.events.interest && manager.View() == old(manager.View())
      ensures At(manager.events.View(), V.Listener) == Some(Entry(Some(V.ServerAccepts), None))
      ensures V.SameBut(old(manager.events.View()), manager.events.View(), V.Listener)
    {
      hide V.JobManager.Valid, V.SameBut;
      ghost var r := manager.events.View();
      manager.ValidIs();
      var ok := manager.events.RegisterEvent(V.Listener, Some(V.ServerAccepts), None);
      V.ChangedMine(r, V.Listener, Enter(Some(V.ServerAccepts), None));
      manager.ValidKept(r, manager.events.View(), V.Listener);
      manager.ValidIs();
    }

    /** The command as it is left, and the answer; no answer when a stop threw during a reload.
        The texts are arbitrary. */
    method OnCommand(cmd: Command, loaded: Option<ConfigMap>, order: seq<string>)
      returns (rewritten: Command, response: Option<Response>)
      requires manager.Valid() && Safety.Safe(manager.View()) && S.IsOrder(order, manager.jobs.Keys)
      requires loaded.Some? ==> Safety.ConfigOk(loaded.value)
      modifies manager, manager.repr, manager.events
      ensures manager.Valid() && fresh(manager.repr - old(manager.repr))
      ensures V.SameElsewhere(old(manager.events.View()), manager.events.View())
      ensures manager.View() == Effect(old(manager.View()), cmd, loaded, order)
      ensures rewritten == Rewritten(cmd)
      ensures match Rejection(cmd)
              case Some(status) => response.Some? && response.value.status == status
              case None => Outcome(old(manager.View()), cmd, loaded, order) ==
                             (if response.Some? then Some(response.value.status) else None)
    {
      hide V.SameElsewhere, V.Job.Valid, Safety.Safe, Safety.ConfigOk, S.StopJob, S.StartJob, S.Reloaded;
      V.SameItself(manager.events.View());
      var rejection := Rejection(cmd);
      rewritten := cmd;
      if rejection.Some? {
        rewritten := cmd.(kind := COMMAND_ERROR);
        var why: string := *;
        return rewritten, Some(Response(rejection.value, why));
      }
      var status := OK;
      match cmd.kind {
        case START => status := manager.StartCommand(cmd.args[0]);
        case STOP => status := manager.StopCommand(cmd.args[0]);
        case RESTART => status := manager.RestartCommand(cmd.args[0]);
        case STATUS =>
          if |cmd.args| > 0 {
            status := manager.StatusCommand(cmd.args[0]);
          }
        case RELOAD =>
          var reloaded := manager.Reload(loaded, order);
          if reloaded.None? {
            return rewritten, None;
          }
          status := reloaded.value;
        case _ =>
      }
      var text: string := *;
      response := Some(Response(status, text));
    }
  }

  class Client {
    const id: nat
    const events: EventManager<V.Owner, V.Callback>
    const server: Server
    const globals: Globals
    const reader: ProtoReader<Command>
    const writer: ProtoWriter
    var open: bool

    function Me(): V.Owner {
      V.Connection(id)
    }

    /** Registered for input alone, with an idle writer, or for output alone; or closed and not
        registered at all. */
    ghost predicate Valid()
      reads this, events, reader, writer
    {
      events.Valid() && ValidIn(events.View())
    }

    ghost predicate ValidIn(r: V.Books)
      reads this, reader, writer
    {
      && ReaderOk(reader.View()) && WriterOk(writer.View())
      && if open then ReadingIn(r) || WritingIn(r) else At(r, Me()).None?
    }

    lemma ValidIs()
      ensures Valid() <==> events.Valid() && ValidIn(events.View())
    {
    }

    /** What others register is of no concern. */
    lemma Kept(r: V.Books, t: V.Books)
      requires ValidIn(r) && At(t, Me()) == At(r, Me())
      ensures ValidIn(t) && ViewIn(t) == ViewIn(r)
    {
    }

    /** The connection when `r` is what is registered; none when it is closed. */
    ghost function ViewIn(r: V.Books): Option<L.Serving>
      requires ValidIn(r)
      reads this, reader, writer
    {
      if !open then None
      else Some(L.Serving(if ReadingIn(r) then L.ReadMode else L.WriteMode(At(r, Me()).value.write.value.cmd),
                          reader.View(), writer.View()))
    }

    lemma ViewIs()
      requires Valid()
      ensures ViewIn(events.View()) == if open then Some(View()) else None
      ensures open ==> View().mode == Mode() && View().writer == writer.View()
      ensures open && Reading() ==> View().mode.ReadMode?
      ensures open && Writing() ==> View().mode.WriteMode? && WriterOk(View().writer)
    {
    }

    ghost predicate ReadingIn(r: V.Books)
      reads writer
    {
      At(r, Me()) == Some(Entry(Some(V.ClientReads(id)), None)) && writer.View() == IDLE_WRITER
    }

    ghost predicate WritingIn(r: V.Books) {
      var e := At(r, Me());
      && e.Some? && e.value.read.None? && e.value.write.Some?
      && e.value.write.value.ClientWrites? && e.value.write.value.id == id
    }

    ghost predicate Reading()
      reads events, writer
    {
      ReadingIn(events.View())
    }

    ghost predicate Writing()
      reads events
    {
      WritingIn(events.View())
    }

    ghost function Mode(): L.Mode
      requires Valid() && open
      reads this, events, reader, writer
    {
      if Reading() then L.ReadMode else L.WriteMode(At(events.View(), Me()).value.write.value.cmd)
    }

    ghost function View(): L.Serving
      requires Valid() && open
      reads this, events, reader, writer
    {
      L.Serving(Mode(), reader.View(), writer.View())
    }

    constructor (id: nat, server: Server, globals: Globals, events: EventManager<V.Owner, V.Callback>)
      requires events.Valid() && V.Connection(id) !in events.interest
      modifies events
      ensures Valid() && open && View() == L.CONNECTED.daemon && fresh(reader) && fresh(writer)
      ensures this.id == id && this.server == server && this.globals == globals && this.events == events
      ensures V.SameBut(old(events.View()), events.View(), Me())
    {
      this.id := id;
      this.server := server;
      this.globals := globals;
      this.events := events;
      reader := new ProtoReader();
      writer := new ProtoWriter();
      open := true;
      new;
      var ok := events.RegisterEvent(Me(), Some(V.ClientReads(id)), None);
    }

    ghost predicate ServerReady(loaded: Option<ConfigMap>, order: seq<string>)
      reads this, events, server.manager, server.manager.repr, server.manager.jobs.Values
    {
      && server.manager.events == events && server.manager.Valid() && Safety.Safe(server.manager.View())
      && S.IsOrder(order, server.manager.jobs.Keys)
      && (loaded.Some? ==> Safety.ConfigOk(loaded.value))
      && {this as object, reader, writer, globals} !! server.manager.repr
    }

    /** The server's answer, or the one that reports its exception. */
    method Ask(cmd: Command, loaded: Option<ConfigMap>, order: seq<string>)
      returns (rewritten: Command, response: Response)
      requires ServerReady(loaded, order) && writer.View() == IDLE_WRITER
      modifies writer, server.manager, server.manager.repr, events
      ensures writer.View() == IDLE_WRITER && rewritten == Rewritten(cmd) && Answers(cmd, response)
      ensures Rejection(cmd).None? ==>
                response.status == match Outcome(old(server.manager.View()), cmd, loaded, order)
                                   case Some(status) => status
                                   case None => ERROR
      ensures server.manager.Valid() && fresh(server.manager.repr - old(server.manager.repr))
      ensures server.manager.View() == Effect(old(server.manager.View()), cmd, loaded, order)
      ensures V.SameElsewhere(old(events.View()), events.View())
    {
      hide Effect, Rewritten, Safety.Safe, Safety.ConfigOk, V.JobManager.Valid;
      var answer: Option<Response>;
      rewritten, answer := server.OnCommand(cmd, loaded, order);
      if answer.Some? {
        response := answer.value;
      } else {
        writer.Clear();
        var text: string := *;
        response := Response(ERROR, "Internal daemon error: " + text);
      }
    }

    /** Takes this client's entry out, or puts one in; the jobs' processes keep theirs. */
    method Forget()
      requires Valid() && open && server.manager.Valid() && server.manager.events == events
      modifies events
      ensures events.Valid() && Me() !in events.interest && server.manager.Valid()
      ensures V.SameBut(old(events.View()), events.View(), Me())
    {
      hide V.SameBut, V.JobManager.Valid, V.JobManager.ValidIn;
      ghost var r := events.View();
      server.manager.ValidIs();
      var ok := events.UnregisterEvent(Me());
      V.ChangedMine(r, Me(), Drop);
      server.manager.ValidKept(r, events.View(), Me());
      server.manager.ValidIs();
    }

    method Enter(read: Option<V.Callback>, write: Option<V.Callback>)
      requires events.Valid() && Me() !in events.interest
      requires server.manager.Valid() && server.manager.events == events
      modifies events
      ensures events.Valid() && At(events.View(), Me()) == Some(Entry(read, write)) && server.manager.Valid()
      ensures V.SameBut(old(events.View()), events.View(), Me())
    {
      hide V.SameBut, V.JobManager.Valid, V.JobManager.ValidIn;
      ghost var r := events.View();
      server.manager.ValidIs();
      var ok := events.RegisterEvent(Me(), read, write);
      V.ChangedMine(r, Me(), Change.Enter(read, write));
      server.manager.ValidKept(r, events.View(), Me());
      server.manager.ValidIs();
    }

    /** The message goes into the idle writer, and the client writes. */
    method Reply(message: seq<byte>, cmd: Command)
      requires events.Valid() && Me() !in events.interest && open
      requires ReaderOk(reader.View()) && writer.View() == IDLE_WRITER
      requires server.manager.Valid() && server.manager.events == events && writer !in server.manager.repr
      modifies events, writer
      ensures Valid() && server.manager.Valid() && V.SameBut(old(events.View()), events.View(), Me())
      ensures View() == L.Serving(L.WriteMode(cmd), old(reader.View()), Writer(message, 0, false))
    {
      hide V.JobManager.Valid, V.JobManager.ValidIn, V.SameBut;
      server.manager.ValidIs();
      var ok := writer.Init(message);
      WriterStarts(message);
      Enter(None, Some(V.ClientWrites(id, cmd)));
    }

    /** The client stops reading, the command goes to the server and its answer into the writer;
        then the client writes. */
    method HandleMessage(cmd: Command, codec: L.Codec, loaded: Option<ConfigMap>, order: seq<string>)
      returns (response: Response)
      requires Valid() && open && Reading() && ServerReady(loaded, order)
      modifies events, writer, server.manager, server.manager.repr
      ensures Valid() && Answers(cmd, response)
      ensures V.SameApart(old(events.View()), events.View(), Me())
      ensures View() == L.Serving(L.WriteMode(Rewritten(cmd)), old(reader.View()),
                                 Writer(codec.encodeResponse(response), 0, false))
      ensures server.manager.Valid() && fresh(server.manager.repr - old(server.manager.repr))
      ensures server.manager.View() == Effect(old(server.manager.View()), cmd, loaded, order)
    {
      hide Effect, Rewritten, Answers, Safety.Safe, Safety.ConfigOk, V.JobManager.Valid, V.JobManager.ValidIn,
           V.SameBut, V.SameApart, V.SameElsewhere, S.IsOrder, WritingIn, View, ReaderOk;
      ghost var r := events.View();
      server.manager.ValidIs();
      Forget();
      ghost var t := events.View();
      var rewritten: Command;
      rewritten, response := Ask(cmd, loaded, order);
      ghost var u := events.View();
      server.manager.ValidIs();
      V.StaysOut(t, u, Me());
      Reply(codec.encodeResponse(response), rewritten);
      V.SameApartChain(r, t, u, events.View(), Me());
    }

    /** The descriptor is readable. The client disconnects on an end of file, on an error and on
        a message that does not parse; otherwise it does what the protocol's reading step says. */
    method HandleRead(received: Received, codec: L.Codec, loaded: Option<ConfigMap>, order: seq<string>)
      returns (response: Response)
      requires Valid() && open && Reading() && ServerReady(loaded, order)
      requires received.Data? ==> 1 <= |received.bytes| <= MAX_CHUNK
      modifies this`open, events, reader, writer, server.manager, server.manager.repr
      ensures Valid() && server.manager.Valid() && fresh(server.manager.repr - old(server.manager.repr))
      ensures V.SameApart(old(events.View()), events.View(), Me())
      ensures received.Data? ==>
                var step := L.DaemonReads(codec, old(View()), received.bytes, response);
                && (open <==> !step.failed)
                && (open ==> View() == step.daemon)
                && (step.heard.Some? ==> Answers(step.heard.value, response))
                && server.manager.View() ==
                     if step.heard.Some? then Effect(old(server.manager.View()), step.heard.value, loaded, order)
                     else old(server.manager.View())
      ensures received.Closed? || received.Failed? ==> !open
      ensures received.WouldBlock? ==> open && View() == old(View())
      ensures !received.Data? ==> server.manager.View() == old(server.manager.View())
    {
      hide Effect, Rewritten, Rejection, Answers, Fed, ReaderOk, WriterOk, Safety.Safe, Safety.ConfigOk, S.IsOrder,
           V.JobManager.Valid, V.JobManager.View, V.SameBut, V.SameApart;
      response := Response(OK, "");
      var r := reader.Read(received, codec.decodeCommand);
      if r.Threw? || r.count == 0 {
        Close();
        V.SameButIsApart(old(events.View()), events.View(), Me());
        return;
      }
      if r.message.Some? {
        response := HandleMessage(r.message.value, codec, loaded, order);
      } else {
        V.SameButItself(events.View(), Me());
        V.SameButIsApart(events.View(), events.View(), Me());
      }
    }

    /** Unregisters and closes. */
    method Close()
      requires Valid() && open && server.manager.Valid() && server.manager.events == events
      modifies this`open, events
      ensures Valid() && !open && server.manager.Valid()
      ensures V.SameBut(old(events.View()), events.View(), Me())
    {
      Forget();
      open := false;
    }

    /** The descriptor is writable; the kernel takes `k` bytes or the send fails. With the last
        byte of the answer the client reads again, and only then does an accepted `terminate`
        take effect. */
    method HandleWrite(k: Option<nat>)
      requires Valid() && open && Writing() && (k.Some? ==> CanTake(writer.View(), k.value))
      requires server.manager.Valid() && server.manager.events == events
      requires {this as object, writer, globals} !! server.manager.repr
      modifies this`open, events, writer, globals
      ensures Valid() && server.manager.Valid()
      ensures V.SameBut(old(events.View()), events.View(), Me())
      ensures k.None? ==> !open && globals.state == old(globals.state)
      ensures k.Some? ==>
                && open && View() == L.DaemonWrites(old(View()), k.value)
                && globals.state == if Written(old(writer.View()), k.value).done && old(Mode()).cmd.kind == TERMINATE
                                    then TERMINATED else old(globals.state)
    {
      hide V.JobManager.Valid, V.JobManager.ValidIn, V.JobManager.View, V.SameBut;
      V.SameButItself(events.View(), Me());
      if k.None? {
        Close();
        return;
      }
      var command := events.writeCallbacks[Me()].value.cmd;
      var sent, done := writer.Write(k.value);
      if done {
        Forget();
        ghost var t := events.View();
        Enter(Some(V.ClientReads(id)), None);
        V.SameButChain(old(events.View()), t, events.View(), Me());
        writer.Clear();
        if command.kind == TERMINATE {
          globals.state := TERMINATED;
        }
      }
    }
  }
}
