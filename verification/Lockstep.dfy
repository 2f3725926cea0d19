/** One connection between `taskmasterctl` and the daemon: two byte streams, a client that
    sends a command and waits, a server that switches between reading and writing. Every
    interleaving of the two and every way the kernel cuts the streams is a run. */
module Lockstep {
  import opened Options
  import opened Proto
  import opened Framing
  import opened CommandCheck

  /** Serialisation: an injective function on each side, and its inverse. */
  datatype Codec = Codec(
    encodeCommand: Command -> seq<byte>,
    decodeCommand: seq<byte> -> Option<Command>,
    encodeResponse: Response -> seq<byte>,
    decodeResponse: seq<byte> -> Option<Response>)

  ghost predicate Lawful(c: Codec) {
    && (forall x :: c.decodeCommand(c.encodeCommand(x)) == Some(x))
    && (forall y :: c.decodeResponse(c.encodeResponse(y)) == Some(y))
  }

  datatype Ctl =
    | Idle
    | Sending(cmd: Command, writer: Writer)
    | Awaiting(cmd: Command, reader: Reader)
    | Exited

  /** Which callback the daemon's `Client` has registered. */
  datatype Mode = ReadMode | WriteMode(cmd: Command)

  datatype Serving = Serving(mode: Mode, reader: Reader, writer: Writer)

  /** A handled command and its answer. */
  datatype Exchange = Exchange(cmd: Command, response: Response)

  /** `failed`: a message that does not parse, or a writer that is busy when it should take a
      new message. */
  datatype Sys = Sys(
    ctl: Ctl,
    up: seq<byte>,
    down: seq<byte>,
    daemon: Serving,
    terminated: bool,
    failed: bool,
    sent: seq<Command>,
    handled: seq<Exchange>,
    received: seq<Response>,
    finished: nat)

  const CONNECTED := Sys(Idle, [], [], Serving(ReadMode, NEW_READER, IDLE_WRITER), false, false, [], [], [], 0)

  datatype Move =
    | Issue(cmd: Command)
    | CtlSends(k: nat)
    | CtlReceives(n: nat)
    | DaemonReceives(n: nat, response: Response)
    | DaemonSends(k: nat)

  predicate Piece(n: nat, stream: seq<byte>) {
    1 <= n <= |stream| && n <= MAX_CHUNK
  }

  /** The command that the daemon's next receive of `n` bytes completes. */
  function Heard(c: Codec, s: Sys, n: nat): Option<Command>
    requires n <= |s.up|
  {
    var f := Fed(s.daemon.reader, s.up[..n]);
    if f.1.Some? then c.decodeCommand(f.1.value) else None
  }

  predicate CanMove(c: Codec, s: Sys, m: Move) {
    !s.failed &&
    match m
    case Issue(cmd) => s.ctl.Idle? && |c.encodeCommand(cmd)| < WORD
    case CtlSends(k) => s.ctl.Sending? && WriterOk(s.ctl.writer) && CanTake(s.ctl.writer, k)
    case CtlReceives(n) => s.ctl.Awaiting? && Piece(n, s.down)
    case DaemonReceives(n, response) =>
      && s.daemon.mode.ReadMode? && !s.terminated && Piece(n, s.up)
      && (Heard(c, s, n).Some? ==>
            Answers(Heard(c, s, n).value, response) && |c.encodeResponse(response)| < WORD)
    case DaemonSends(k) =>
      s.daemon.mode.WriteMode? && !s.terminated && WriterOk(s.daemon.writer) && CanTake(s.daemon.writer, k)
  }

  function CtlSent(s: Sys, k: nat): Sys
    requires s.ctl.Sending? && WriterOk(s.ctl.writer) && CanTake(s.ctl.writer, k)
  {
    var w := Written(s.ctl.writer, k);
    s.(up := s.up + w.sent,
       ctl := if w.done then Awaiting(s.ctl.cmd, NEW_READER) else Sending(s.ctl.cmd, w.writer))
  }

  /** The client leaves on an OK in answer to `terminate`. */
  function CtlReceived(c: Codec, s: Sys, n: nat): Sys
    requires s.ctl.Awaiting? && n <= |s.down|
  {
    var f := Fed(s.ctl.reader, s.down[..n]);
    var t := s.(down := s.down[n..]);
    if f.1.None? then t.(ctl := Awaiting(s.ctl.cmd, f.0))
    else
      match c.decodeResponse(f.1.value)
      case None => t.(failed := true)
      case Some(r) =>
        t.(received := s.received + [r],
           ctl := if r.status == OK && s.ctl.cmd.kind == TERMINATE then Exited else Idle)
  }

  datatype ReadStep = ReadStep(daemon: Serving, heard: Option<Command>, failed: bool)

  /** The daemon's client reads `chunk`; a command that it completes is answered by `response`,
      and from then on the client writes. */
  function DaemonReads(c: Codec, d: Serving, chunk: seq<byte>, response: Response): ReadStep {
    var f := Fed(d.reader, chunk);
    var d1 := d.(reader := f.0);
    if f.1.None? then ReadStep(d1, None, false)
    else
      match c.decodeCommand(f.1.value)
      case None => ReadStep(d1, None, true)
      case Some(cmd) =>
        ReadStep(d1.(mode := WriteMode(Rewritten(cmd)), writer := d.writer.(msg := c.encodeResponse(response))),
                 Some(cmd), |d.writer.msg| > 0)
  }

  /** One write; with the last one the client reads again. */
  function DaemonWrites(d: Serving, k: nat): Serving
    requires d.mode.WriteMode? && WriterOk(d.writer) && CanTake(d.writer, k)
  {
    var w := Written(d.writer, k);
    if w.done then d.(mode := ReadMode, writer := IDLE_WRITER) else d.(writer := w.writer)
  }

  function DaemonReceived(c: Codec, s: Sys, n: nat, response: Response): Sys
    requires n <= |s.up|
  {
    var r := DaemonReads(c, s.daemon, s.up[..n], response);
    s.(up := s.up[n..], daemon := r.daemon, failed := s.failed || r.failed,
       handled := if r.heard.Some? then s.handled + [Exchange(r.heard.value, response)] else s.handled)
  }

  function DaemonSent(s: Sys, k: nat): Sys
    requires s.daemon.mode.WriteMode? && WriterOk(s.daemon.writer) && CanTake(s.daemon.writer, k)
  {
    var w := Written(s.daemon.writer, k);
    s.(down := s.down + w.sent, daemon := DaemonWrites(s.daemon, k),
       finished := s.finished + (if w.done then 1 else 0),
       terminated := s.terminated || (w.done && s.daemon.mode.cmd.kind == TERMINATE))
  }

  function Moved(c: Codec, s: Sys, m: Move): Sys
    requires CanMove(c, s, m)
  {
    match m
    case Issue(cmd) => s.(ctl := Sending(cmd, Writer(c.encodeCommand(cmd), 0, false)), sent := s.sent + [cmd])
    case CtlSends(k) => CtlSent(s, k)
    case CtlReceives(n) => CtlReceived(c, s, n)
    case DaemonReceives(n, response) => DaemonReceived(c, s, n, response)
    case DaemonSends(k) => DaemonSent(s, k)
  }

  // --------------------------------------------------------------------- the invariant

  predicate Busy(s: Sys) {
    s.ctl.Sending? || s.ctl.Awaiting?
  }

  predicate Unhandled(s: Sys) {
    Busy(s) && |s.handled| == |s.received|
  }

  predicate Answered(s: Sys) {
    |s.handled| == |s.received| + 1
  }

  /** Every command handled once, in order, and the answers received are theirs. */
  ghost predicate InOrder(s: Sys) {
    && |s.sent| == |s.received| + (if Busy(s) then 1 else 0)
    && |s.received| <= |s.handled| <= |s.sent|
    && (Busy(s) ==> s.ctl.cmd == s.sent[|s.received|])
    && (forall i :: 0 <= i < |s.handled| ==>
          s.handled[i].cmd == s.sent[i] && Answers(s.handled[i].cmd, s.handled[i].response))
    && (forall i :: 0 <= i < |s.received| ==> s.received[i] == s.handled[i].response)
  }

  ghost predicate UpOk(c: Codec, s: Sys) {
    match s.ctl
    case Sending(cmd, w) =>
      && WriterOk(w) && w.msg == c.encodeCommand(cmd) && |w.msg| < WORD
      && (if Answered(s) then s.up == [] && s.daemon.reader == NEW_READER && w.msg == [] && w.sizeWritten
          else Partial(s.daemon.reader, s.up, SoFar(w)))
    case Awaiting(cmd, r) =>
      && |c.encodeCommand(cmd)| < WORD
      && (if Answered(s) then s.up == [] && s.daemon.reader == NEW_READER
          else Partial(s.daemon.reader, s.up, Frame(c.encodeCommand(cmd))))
    case _ => s.up == [] && s.daemon.reader == NEW_READER
  }

  /** The client in one mode at a time; the writer idle in read mode; one answer per command. */
  ghost predicate DaemonOk(c: Codec, s: Sys) {
    match s.daemon.mode
    case ReadMode => s.daemon.writer == IDLE_WRITER && s.finished == |s.handled|
    case WriteMode(cmd) =>
      && s.finished + 1 == |s.handled|
      && var x := s.handled[s.finished];
         && cmd == Rewritten(x.cmd) && WriterOk(s.daemon.writer)
         && s.daemon.writer.msg == c.encodeResponse(x.response) && |s.daemon.writer.msg| < WORD
  }

  function CtlReader(s: Sys): Reader {
    if s.ctl.Awaiting? then s.ctl.reader else NEW_READER
  }

  ghost predicate DownOk(c: Codec, s: Sys) {
    if Answered(s) then
      var x := s.handled[|s.received|];
      && |c.encodeResponse(x.response)| < WORD
      && Partial(CtlReader(s), s.down,
                 if s.daemon.mode.WriteMode? && WriterOk(s.daemon.writer) then SoFar(s.daemon.writer)
                 else Frame(c.encodeResponse(x.response)))
    else
      && s.down == [] && CtlReader(s) == NEW_READER
      && (s.daemon.mode.WriteMode? ==> s.daemon.writer.msg == [] && s.daemon.writer.sizeWritten)
  }

  predicate Accepted(x: Exchange) {
    Rewritten(x.cmd).kind == TERMINATE
  }

  /** The daemon ends after a whole OK to an accepted `terminate`, the client on receiving it. */
  ghost predicate EndOk(s: Sys) {
    && s.finished <= |s.handled|
    && (s.terminated <==> exists i :: 0 <= i < s.finished && Accepted(s.handled[i]))
    && (s.ctl.Exited? <==> |s.received| > 0 && |s.received| <= |s.handled| && Accepted(s.handled[|s.received| - 1]))
    && (forall i :: 0 <= i < |s.received| - 1 && i < |s.handled| ==> !Accepted(s.handled[i]))
  }

  ghost predicate Inv(c: Codec, s: Sys) {
    !s.failed && InOrder(s) && DaemonOk(c, s) && UpOk(c, s) && DownOk(c, s) && EndOk(s)
  }

  // ------------------------------------------------------------------ one move

  lemma StartsOk(c: Codec)
    ensures Inv(c, CONNECTED)
  {
  }

  lemma IssueKeeps(c: Codec, s: Sys, cmd: Command)
    requires Inv(c, s) && CanMove(c, s, Issue(cmd))
    ensures Inv(c, Moved(c, s, Issue(cmd)))
  {
    hide Header, BigEndian, FromBigEndian, HoldsFrame, Rejection;
    WriterStarts(c.encodeCommand(cmd));
    NothingIsPartial();
  }

  lemma CtlSendsKeeps(c: Codec, s: Sys, k: nat)
    requires Inv(c, s) && CanMove(c, s, CtlSends(k))
    ensures Inv(c, Moved(c, s, CtlSends(k)))
  {
    hide Header, BigEndian, FromBigEndian, HoldsFrame, Rejection, Rewritten, Answers, Frame, SoFar, Fed, Accepted;
    var w := s.ctl.writer;
    WriteExtends(w, k);
    if !Answered(s) {
      PartialGrows(s.daemon.reader, s.up, SoFar(w), Written(w, k).sent);
    }
  }

  lemma DaemonSendsKeeps(c: Codec, s: Sys, k: nat)
    requires Inv(c, s) && CanMove(c, s, DaemonSends(k))
    ensures Inv(c, Moved(c, s, DaemonSends(k)))
  {
    hide Header, BigEndian, FromBigEndian, HoldsFrame, Rejection, Frame, SoFar;
    var w := s.daemon.writer;
    WriteExtends(w, k);
    if Answered(s) {
      PartialGrows(CtlReader(s), s.down, SoFar(w), Written(w, k).sent);
    }
  }

  /** The answer that is on its way to the client, as far as it was sent. */
  ghost function Incoming(c: Codec, s: Sys): seq<byte>
    requires Inv(c, s) && Answered(s)
  {
    if s.daemon.mode.WriteMode? then SoFar(s.daemon.writer)
    else Frame(c.encodeResponse(s.handled[|s.received|].response))
  }

  /** The client's receive either leaves it waiting for the rest, or gives it the answer. */
  lemma CtlReceivedIs(c: Codec, s: Sys, n: nat)
    requires Lawful(c) && Inv(c, s) && CanMove(c, s, CtlReceives(n))
    ensures Answered(s)
    ensures var x, t := s.handled[|s.received|], CtlReceived(c, s, n);
            if n == |s.down| && Incoming(c, s) == Frame(c.encodeResponse(x.response)) then
              t == s.(down := [], received := s.received + [x.response],
                      ctl := if Accepted(x) then Exited else Idle)
            else
              exists r :: t == s.(down := s.down[n..], ctl := Awaiting(s.ctl.cmd, r))
                          && Partial(r, s.down[n..], Incoming(c, s))
  {
    hide Header, BigEndian, FromBigEndian, HoldsFrame, Rejection, Rewritten, Answers, Frame, SoFar, Fed, EndOk,
         UpOk;
    var x := s.handled[|s.received|];
    if s.daemon.mode.WriteMode? {
      WholeBeforeDone(s.daemon.writer);
    }
    ReceivePiece(s.ctl.reader, s.down, n, Incoming(c, s), c.encodeResponse(x.response));
    OkMeansAccepted(x.cmd, x.response);
  }

  /** The client has a piece of its answer, and waits for the rest. */
  lemma PieceKeeps(c: Codec, s: Sys, down: seq<byte>, r: Reader)
    requires Inv(c, s) && s.ctl.Awaiting? && Answered(s) && Partial(r, down, Incoming(c, s))
    ensures Inv(c, s.(down := down, ctl := Awaiting(s.ctl.cmd, r)))
  {
    hide Header, BigEndian, FromBigEndian, HoldsFrame, Rejection, Rewritten, Answers, Frame, SoFar, Fed, Partial;
  }

  /** The client has its answer; the daemon's writer is done with it, but perhaps for a last word. */
  lemma AnswerKeeps(c: Codec, s: Sys)
    requires Inv(c, s) && s.ctl.Awaiting? && Answered(s)
    requires var x := s.handled[|s.received|]; Incoming(c, s) == Frame(c.encodeResponse(x.response))
    ensures var x := s.handled[|s.received|];
            Inv(c, s.(down := [], received := s.received + [x.response], ctl := if Accepted(x) then Exited else Idle))
  {
    hide Header, BigEndian, FromBigEndian, HoldsFrame, Rejection, Rewritten, Answers, Frame, SoFar, Fed, Partial;
    if s.daemon.mode.WriteMode? {
      WholeBeforeDone(s.daemon.writer);
    }
  }

  lemma CtlReceivesKeeps(c: Codec, s: Sys, n: nat)
    requires Lawful(c) && Inv(c, s) && CanMove(c, s, CtlReceives(n))
    ensures Inv(c, Moved(c, s, CtlReceives(n)))
  {
    hide Inv, Frame, Partial, Fed, CtlReceived, Accepted;
    CtlReceivedIs(c, s, n);
    var x, t := s.handled[|s.received|], CtlReceived(c, s, n);
    if n == |s.down| && Incoming(c, s) == Frame(c.encodeResponse(x.response)) {
      AnswerKeeps(c, s);
    } else {
      var r :| t == s.(down := s.down[n..], ctl := Awaiting(s.ctl.cmd, r)) && Partial(r, s.down[n..], Incoming(c, s));
      PieceKeeps(c, s, s.down[n..], r);
    }
  }

  /** The command that is on its way to the daemon, as far as it was sent. */
  ghost function Outgoing(c: Codec, s: Sys): seq<byte>
    requires Inv(c, s) && Busy(s)
  {
    if s.ctl.Sending? then SoFar(s.ctl.writer) else Frame(c.encodeCommand(s.ctl.cmd))
  }

  /** The daemon's receive either leaves it waiting for the rest, or gives it the command, which
      it answers. */
  lemma DaemonReceivedIs(c: Codec, s: Sys, n: nat, response: Response)
    requires Lawful(c) && Inv(c, s) && CanMove(c, s, DaemonReceives(n, response))
    ensures Unhandled(s)
    ensures var t := DaemonReceived(c, s, n, response);
            if n == |s.up| && Outgoing(c, s) == Frame(c.encodeCommand(s.ctl.cmd)) then
              && |c.encodeResponse(response)| < WORD && Answers(s.ctl.cmd, response)
              && t == s.(up := [], handled := s.handled + [Exchange(s.ctl.cmd, response)],
                         daemon := Serving(WriteMode(Rewritten(s.ctl.cmd)), NEW_READER,
                                          Writer(c.encodeResponse(response), 0, false)))
            else
              exists r :: t == s.(up := s.up[n..], daemon := s.daemon.(reader := r))
                          && Partial(r, s.up[n..], Outgoing(c, s))
  {
    hide Header, BigEndian, FromBigEndian, HoldsFrame, Rejection, Rewritten, Answers, Frame, SoFar, Fed, EndOk,
         DownOk;
    if s.ctl.Sending? {
      WholeBeforeDone(s.ctl.writer);
    }
    ReceivePiece(s.daemon.reader, s.up, n, Outgoing(c, s), c.encodeCommand(s.ctl.cmd));
  }

  lemma DaemonReceivesKeeps(c: Codec, s: Sys, n: nat, response: Response)
    requires Lawful(c) && Inv(c, s)
    ensures CanMove(c, s, DaemonReceives(n, response)) ==> Inv(c, Moved(c, s, DaemonReceives(n, response)))
  {
    hide Header, BigEndian, FromBigEndian, HoldsFrame, Rejection, Rewritten, Answers, Frame, SoFar, Fed,
         DaemonReceived;
    if !CanMove(c, s, DaemonReceives(n, response)) {
      return;
    }
    DaemonReceivedIs(c, s, n, response);
    if s.ctl.Sending? {
      WholeBeforeDone(s.ctl.writer);
    }
    WriterStarts(c.encodeResponse(response));
    NothingIsPartial();
  }

  lemma MoveKeeps(c: Codec, s: Sys, m: Move)
    requires Lawful(c) && Inv(c, s) && CanMove(c, s, m)
    ensures Inv(c, Moved(c, s, m))
  {
    hide *;
    match m
    case Issue(cmd) => IssueKeeps(c, s, cmd);
    case CtlSends(k) => CtlSendsKeeps(c, s, k);
    case CtlReceives(n) => CtlReceivesKeeps(c, s, n);
    case DaemonReceives(n, response) => DaemonReceivesKeeps(c, s, n, response);
    case DaemonSends(k) => DaemonSendsKeeps(c, s, k);
  }

  // ------------------------------------------------------------------------- runs

  ghost predicate IsRun(c: Codec, states: seq<Sys>, moves: seq<Move>) {
    && |states| == |moves| + 1 && states[0] == CONNECTED
    && forall k :: 0 <= k < |moves| ==>
         CanMove(c, states[k], moves[k]) && states[k + 1] == Moved(c, states[k], moves[k])
  }

  lemma {:induction false} EveryRunKeeps(c: Codec, states: seq<Sys>, moves: seq<Move>, k: nat)
    requires Lawful(c) && IsRun(c, states, moves) && k < |states|
    ensures Inv(c, states[k])
    decreases k
  {
    if k == 0 {
      StartsOk(c);
    } else {
      EveryRunKeeps(c, states, moves, k - 1);
      MoveKeeps(c, states[k - 1], moves[k - 1]);
    }
  }

  /** What every run shows. Nothing ever fails. The answers received are the answers of the
      first commands handled, in order, and those were the first commands sent. Whenever the
      client is idle nothing is buffered or on its way from it, so a fresh reader and a fresh
      writer for its next command lose nothing; the daemon never takes a new message while its
      writer holds an old one. */
  lemma EveryRunIsInLockstep(c: Codec, states: seq<Sys>, moves: seq<Move>, k: nat)
    requires Lawful(c) && IsRun(c, states, moves) && k < |states|
    ensures var s := states[k];
            && !s.failed
            && |s.received| <= |s.handled| <= |s.sent| <= |s.received| + 1
            && (forall i :: 0 <= i < |s.handled| ==>
                  s.handled[i].cmd == s.sent[i] && Answers(s.sent[i], s.handled[i].response))
            && (forall i :: 0 <= i < |s.received| ==> s.received[i] == s.handled[i].response)
            && (s.ctl.Idle? || s.ctl.Exited? ==>
                  |s.sent| == |s.received| && s.up == [] && s.down == [] && s.daemon.reader == NEW_READER)
            && (s.daemon.mode.ReadMode? ==> s.daemon.writer == IDLE_WRITER)
            && |s.handled| == s.finished + (if s.daemon.mode.WriteMode? then 1 else 0)
  {
    hide Rejection, Frame, SoFar, Partial;
    EveryRunKeeps(c, states, moves, k);
  }

  /** An accepted command is the last one handled: its answer ends both sides. */
  lemma AcceptedIsLast(c: Codec, s: Sys)
    requires Inv(c, s)
    ensures |s.received| <= |s.handled| && s.finished <= |s.handled|
    ensures forall i :: 0 <= i < s.finished && Accepted(s.handled[i]) ==> i == s.finished - 1 == |s.handled| - 1
    ensures s.terminated <==> s.finished > 0 && Accepted(s.handled[s.finished - 1])
    ensures s.terminated ==> s.finished == |s.handled| && s.daemon.mode.ReadMode?
  {
    hide UpOk, DownOk, Answers, Accepted;
  }

  /** The whole answer is with the client or on its way when the daemon ends. */
  lemma AnswerIsOut(c: Codec, s: Sys)
    requires Inv(c, s) && s.terminated && s.ctl.Awaiting?
    ensures s.finished > 0 && s.finished <= |s.handled|
    ensures s.ctl.reader.buffer + s.down == Frame(c.encodeResponse(s.handled[s.finished - 1].response))
  {
    hide Frame, SoFar, HoldsFrame, UpOk, Answers, Accepted;
    AcceptedIsLast(c, s);
  }

  /** Leaving is agreed. The client has left exactly when the last answer it received was to an
      accepted `terminate`; the daemon ends its loop only when the whole answer to one is on the
      wire, handles nothing after that, and never ends for a rejected command. */
  lemma LeavingIsAgreed(c: Codec, states: seq<Sys>, moves: seq<Move>, k: nat)
    requires Lawful(c) && IsRun(c, states, moves) && k < |states|
    ensures var s := states[k];
            && |s.received| <= |s.handled| && s.finished <= |s.handled|
            && (s.ctl.Exited? <==>
                  |s.received| > 0 && Accepted(s.handled[|s.received| - 1]))
            && (s.terminated <==> s.finished > 0 && Accepted(s.handled[s.finished - 1]))
            && (s.terminated ==> s.finished == |s.handled| && s.daemon.mode.ReadMode?)
            && (s.terminated && s.ctl.Awaiting? ==>
                  s.ctl.reader.buffer + s.down == Frame(c.encodeResponse(s.handled[s.finished - 1].response)))
            && (s.ctl.Exited? && s.daemon.mode.ReadMode? ==> s.terminated)
  {
    hide Frame, UpOk, DownOk, Accepted;
    EveryRunKeeps(c, states, moves, k);
    AcceptedIsLast(c, states[k]);
    if states[k].terminated && states[k].ctl.Awaiting? {
      AnswerIsOut(c, states[k]);
    }
  }

  // --------------------------------------------------------------------- progress

  /** Every command has an answer that fits a frame. */
  ghost predicate CanAnswer(c: Codec) {
    forall cmd :: Answerable(c, cmd)
  }

  ghost predicate Answerable(c: Codec, cmd: Command) {
    exists r :: Answers(cmd, r) && |c.encodeResponse(r)| < WORD
  }

  function SomePiece(stream: seq<byte>): (n: nat)
    requires stream != []
    ensures Piece(n, stream)
  {
    if |stream| < MAX_CHUNK then |stream| else MAX_CHUNK
  }

  /** A client that waits waits for something: a byte on its way, or the daemon. */
  lemma AwaitedComes(c: Codec, s: Sys)
    requires Inv(c, s) && s.ctl.Awaiting? && s.down == []
    ensures !s.terminated && (s.daemon.mode.ReadMode? ==> s.up != [])
  {
    hide Rejection, Rewritten, Answers, SoFar, HoldsFrame, BigEndian, FromBigEndian;
    if s.daemon.mode.ReadMode? && Answered(s) {
      SomethingIsOnItsWay(s.ctl.reader, s.down, c.encodeResponse(s.handled[|s.received|].response));
    } else if s.daemon.mode.ReadMode? {
      SomethingIsOnItsWay(s.daemon.reader, s.up, c.encodeCommand(s.ctl.cmd));
    }
  }

  /** No deadlock: while a command is unanswered, one of the two can move, whatever the other
      does. */
  lemma SomeoneCanMove(c: Codec, s: Sys) returns (m: Move)
    requires CanAnswer(c) && Inv(c, s) && Busy(s)
    ensures CanMove(c, s, m) && !m.Issue?
  {
    hide Rejection, Rewritten, Answers, Frame, SoFar, HoldsFrame, Fed;
    if s.ctl.Sending? {
      m := CtlSends(SomeTake(s.ctl.writer));
    } else if s.down != [] {
      m := CtlReceives(SomePiece(s.down));
    } else {
      AwaitedComes(c, s);
      if s.daemon.mode.WriteMode? {
        m := DaemonSends(SomeTake(s.daemon.writer));
      } else {
        var n := SomePiece(s.up);
        var r := Response(OK, "");
        if Heard(c, s, n).Some? {
          assert Answerable(c, Heard(c, s, n).value);
          r :| Answers(Heard(c, s, n).value, r) && |c.encodeResponse(r)| < WORD;
        }
        m := DaemonReceives(n, r);
      }
    }
  }

  /** The bytes a writer has left to send. */
  function Left(w: Writer): nat
    requires WriterOk(w)
  {
    (if w.sizeWritten then 0 else HEADER) + |w.msg| - w.written
  }

  /** Every byte moves twice, and a writer's last word counts once more. */
  ghost function Work(c: Codec, s: Sys): nat
    requires Inv(c, s)
  {
    (if s.ctl.Sending? then 2 * Left(s.ctl.writer) + 1 else 0) + |s.up| +
    (if s.daemon.mode.WriteMode? then 2 * Left(s.daemon.writer) + 1 else 0) + |s.down|
  }

  lemma WriteWorks(w: Writer, k: nat)
    requires WriterOk(w) && CanTake(w, k)
    ensures var r := Written(w, k);
            if r.done then |r.sent| < 2 * Left(w) + 1
            else 2 * Left(r.writer) + |r.sent| < 2 * Left(w)
  {
    hide BigEndian;
  }

  lemma SendingWorks(c: Codec, s: Sys, m: Move)
    requires Inv(c, s) && CanMove(c, s, m) && (m.CtlSends? || m.DaemonSends?) && Inv(c, Moved(c, s, m))
    ensures Work(c, Moved(c, s, m)) < Work(c, s) && Unhandled(Moved(c, s, m)) == Unhandled(s)
  {
    hide Rejection, Rewritten, Answers, Frame, SoFar, HoldsFrame, Fed, Header, InOrder, UpOk, DownOk, EndOk;
    match m
    case CtlSends(k) => WriteWorks(s.ctl.writer, k);
    case DaemonSends(k) => WriteWorks(s.daemon.writer, k);
    case _ =>
  }

  /** No livelock: every move but a new command either gets the outstanding command handled or
      leaves less work, so that an exchange is over after finitely many moves. */
  lemma MovesGetDone(c: Codec, s: Sys, m: Move)
    requires Lawful(c) && Inv(c, s) && CanMove(c, s, m) && !m.Issue?
    ensures Inv(c, Moved(c, s, m))
    ensures var t := Moved(c, s, m);
            (Unhandled(s) && !Unhandled(t)) || (Unhandled(s) == Unhandled(t) && Work(c, t) < Work(c, s))
  {
    hide Rejection, Rewritten, Answers, Frame, SoFar, HoldsFrame, Fed, Header, BigEndian, UpOk, DownOk, EndOk,
         Written;
    MoveKeeps(c, s, m);
    if m.CtlSends? || m.DaemonSends? {
      SendingWorks(c, s, m);
    }
  }

  /** Work for one message: its frame is sent and read, and each writer has a last word. */
  function MessageWork(msg: seq<byte>): nat {
    2 * (HEADER + |msg|) + 2
  }

  lemma IssueWork(c: Codec, s: Sys, cmd: Command)
    requires Inv(c, s) && CanMove(c, s, Issue(cmd))
    ensures Inv(c, Moved(c, s, Issue(cmd))) && Unhandled(Moved(c, s, Issue(cmd)))
    ensures Work(c, Moved(c, s, Issue(cmd))) <= MessageWork(c.encodeCommand(cmd))
  {
    hide Rejection, Rewritten, Answers, HoldsFrame, Header;
    IssueKeeps(c, s, cmd);
  }

  /** The move that gets the command handled leaves the work of its answer. */
  lemma HandlingWork(c: Codec, s: Sys, m: Move)
    requires Lawful(c) && Inv(c, s) && CanMove(c, s, m)
    ensures Inv(c, Moved(c, s, m))
    ensures var t := Moved(c, s, m);
            Unhandled(s) && !Unhandled(t) ==>
              && Work(c, s) > 0 && |t.handled| == |s.handled| + 1
              && Work(c, t) <= MessageWork(c.encodeResponse(t.handled[|s.handled|].response))
  {
    hide Rejection, Rewritten, Answers, SoFar, HoldsFrame, Fed, Header;
    MoveKeeps(c, s, m);
  }

  lemma HandledStays(c: Codec, s: Sys, m: Move)
    requires Inv(c, s) && CanMove(c, s, m)
    ensures s.handled <= Moved(c, s, m).handled && |Moved(c, s, m).handled| <= |s.handled| + 1
    ensures !Unhandled(s) || Unhandled(Moved(c, s, m)) ==> Moved(c, s, m).handled == s.handled
  {
    hide Rejection, Rewritten, Answers, Frame, SoFar, HoldsFrame, Fed, Header;
  }

  /** An exchange is over after a number of moves that the two messages bound, whatever the
      interleaving and the pieces: first those that get the command handled, then those that get
      the answer received. */
  lemma {:induction false} ExchangeIsBounded(c: Codec, states: seq<Sys>, moves: seq<Move>, t: nat, k: nat)
    requires Lawful(c) && IsRun(c, states, moves) && t < k < |states| && moves[t].Issue?
    requires forall i :: t < i < k ==> !moves[i].Issue?
    ensures Inv(c, states[k]) && |states[t].handled| <= |states[k].handled|
    ensures var w := MessageWork(c.encodeCommand(moves[t].cmd));
            if Unhandled(states[k]) then k - t - 1 + Work(c, states[k]) <= w
            else
              && |states[t].handled| < |states[k].handled|
              && var answer := states[k].handled[|states[t].handled|].response;
                 k - t - 1 + Work(c, states[k]) <= w + MessageWork(c.encodeResponse(answer))
    ensures Unhandled(states[k]) ==> |states[k].handled| == |states[t].handled|
    decreases k
  {
    hide Inv, CanMove, Moved, Work, Unhandled;
    var s, m := states[k - 1], moves[k - 1];
    EveryRunKeeps(c, states, moves, k - 1);
    EveryRunKeeps(c, states, moves, k);
    if k == t + 1 {
      IssueWork(c, s, m.cmd);
      HandledStays(c, s, m);
    } else {
      ExchangeIsBounded(c, states, moves, t, k - 1);
      MovesGetDone(c, s, m);
      HandledStays(c, s, m);
      if Unhandled(s) && !Unhandled(states[k]) {
        HandlingWork(c, s, m);
      }
    }
  }
}
