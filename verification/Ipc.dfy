/** The reader and writer objects both programs use, and `taskmasterctl`'s two loops. What the
    kernel does is a parameter or an arbitrary choice. */
module Ipc {
  import opened Options
  import opened Proto
  import opened Framing
  import opened CommandCheck

  /** What `recv` returned. */
  datatype Received = Data(bytes: seq<byte>) | Closed | WouldBlock | Failed

  /** The number of bytes read and the message, if one is complete; or an exception. */
  datatype ReadResult<+T> = Got(count: int, message: Option<T>) | Threw

  class ProtoReader<T> {
    var buffer: seq<byte>
    var messageSize: Option<nat>

    function View(): Reader
      reads this
    {
      Reader(buffer, messageSize)
    }

    constructor ()
      ensures View() == NEW_READER
    {
      buffer := [];
      messageSize := None;
    }

    /** The buffer takes what arrived; the first whole frame, if any, is parsed. A frame that
        does not parse is gone all the same. */
    method Read(received: Received, parse: seq<byte> -> Option<T>) returns (r: ReadResult<T>)
      requires ReaderOk(View())
      modifies this
      ensures ReaderOk(View())
      ensures received.Data? ==>
                var f := Fed(old(View()), received.bytes);
                && View() == f.0
                && (f.1.None? ==> r == Got(|received.bytes|, None))
                && (f.1.Some? && parse(f.1.value).Some? ==> r == Got(|received.bytes|, parse(f.1.value)))
                && (f.1.Some? && parse(f.1.value).None? ==> r.Threw?)
      ensures !received.Data? ==> View() == old(View())
      ensures received.Closed? ==> r == Got(0, None)
      ensures received.WouldBlock? ==> r == Got(-1, None)
      ensures received.Failed? ==> r.Threw?
    {
      match received {
        case Closed => return Got(0, None);
        case WouldBlock => return Got(-1, None);
        case Failed => return Threw;
        case Data(bytes) =>
          FedKeepsOk(View(), bytes);
          buffer := buffer + bytes;
          if messageSize.None? && |buffer| >= HEADER {
            messageSize := Some(FromBigEndian(buffer[..HEADER]));
          }
          if messageSize.Some? && |buffer| >= HEADER + messageSize.value {
            var message := parse(buffer[HEADER..HEADER + messageSize.value]);
            buffer := buffer[HEADER + messageSize.value..];
            messageSize := None;
            if message.None? {
              return Threw;
            }
            return Got(|bytes|, message);
          }
          r := Got(|bytes|, None);
      }
    }
  }

  class ProtoWriter {
    var serializedMessage: seq<byte>
    var bytesWritten: nat
    var sizeWritten: bool

    function View(): Writer
      reads this
    {
      Writer(serializedMessage, bytesWritten, sizeWritten)
    }

    constructor ()
      ensures View() == IDLE_WRITER
    {
      serializedMessage := [];
      bytesWritten := 0;
      sizeWritten := false;
    }

    /** False when a message is still being written and the call throws. */
    method Init(serialized: seq<byte>) returns (ok: bool)
      modifies this
      ensures ok <==> old(serializedMessage) == []
      ensures View() == if ok then old(View()).(msg := serialized) else old(View())
    {
      if |serializedMessage| > 0 {
        return false;
      }
      serializedMessage := serialized;
      ok := true;
    }

    method Clear()
      modifies this
      ensures View() == IDLE_WRITER
    {
      serializedMessage := [];
      bytesWritten := 0;
      sizeWritten := false;
    }

    /** One call: the header, or the next piece, of which the kernel takes `k` bytes. */
    method Write(k: nat) returns (sent: seq<byte>, done: bool)
      requires WriterOk(View()) && CanTake(View(), k)
      modifies this
      ensures WriterOk(View()) && Wrote(View(), sent, done) == Written(old(View()), k)
    {
      if !sizeWritten {
        sent := Header(|serializedMessage|);
        sizeWritten := true;
        return sent, false;
      }
      if bytesWritten == |serializedMessage| {
        return [], true;
      }
      sent := serializedMessage[bytesWritten..bytesWritten + k];
      bytesWritten := bytesWritten + k;
      if bytesWritten == |serializedMessage| {
        Clear();
        return sent, true;
      }
      done := false;
    }
  }

  function AtLeastOne(n: nat): nat {
    if n == 0 then 1 else n
  }

  /** The calls it takes when the kernel always takes all it is given. */
  function FullPieces(n: nat): nat {
    (n + MAX_CHUNK - 1) / MAX_CHUNK
  }

  /** What the kernel takes of a piece when it has room for `room` bytes. */
  function Taken(w: Writer, room: nat): (k: nat)
    requires WriterOk(w) && room > 0
    ensures CanTake(w, k)
  {
    if !w.sizeWritten || w.written == |w.msg| then 0 else if room < Room(w) then room else Room(w)
  }

  /** Writes until the writer reports the end. `room` is what the kernel has room for at each
      call. However little it is, what goes out is the frame of the message, in at most one call
      for the header and one for each byte; and when there is always room for a full piece, in
      exactly one call for the header and one for each full piece. */
  method SendCommandToDaemon(message: seq<byte>, room: nat -> nat) returns (sent: seq<byte>, calls: nat)
    requires forall i :: room(i) > 0
    ensures sent == Frame(message)
    ensures calls <= 1 + AtLeastOne(|message|)
    ensures (forall i :: room(i) >= MAX_CHUNK) ==> calls == 1 + AtLeastOne(FullPieces(|message|))
  {
    var writer := new ProtoWriter();
    var ok := writer.Init(message);
    WriterStarts(message);
    sent, calls := [], 0;
    ghost var whole := forall i :: room(i) >= MAX_CHUNK;
    var done := false;
    while !done
      invariant done ==> sent == Frame(message)
      invariant !done ==> WriterOk(writer.View()) && writer.serializedMessage == message && SoFar(writer.View()) == sent
      invariant !done ==> CallsSoFar(writer.View(), calls, whole)
      invariant done ==> CallsInAll(message, calls, whole)
      decreases !done, |message| - writer.bytesWritten, !writer.sizeWritten
    {
      ghost var w := writer.View();
      var k := Taken(writer.View(), room(calls));
      WriteExtends(w, k);
      CallsCount(w, k, calls, whole);
      var piece: seq<byte>;
      piece, done := writer.Write(k);
      sent := sent + piece;
      calls := calls + 1;
    }
  }

  /** How many calls have been made, as the writer's own fields tell it. */
  ghost predicate CallsSoFar(w: Writer, calls: nat, whole: bool) {
    && (if w.sizeWritten then 1 <= calls <= 1 + w.written else calls == 0)
    && (w.sizeWritten && whole ==> w.written == MAX_CHUNK * (calls - 1))
  }

  ghost predicate CallsInAll(message: seq<byte>, calls: nat, whole: bool) {
    && calls <= 1 + AtLeastOne(|message|)
    && (whole ==> calls == 1 + AtLeastOne(FullPieces(|message|)))
  }

  lemma CallsCount(w: Writer, k: nat, calls: nat, whole: bool)
    requires WriterOk(w) && CanTake(w, k) && CallsSoFar(w, calls, whole)
    requires whole ==> !w.sizeWritten || k == Room(w)
    ensures var r := Written(w, k);
            if r.done then CallsInAll(w.msg, calls + 1, whole) else CallsSoFar(r.writer, calls + 1, whole)
  {
    hide BigEndian;
  }

  /** Reads, with a reader of its own, until an answer is there: exactly as many receives as it
      takes for the answer's frame to arrive. Leaves on an OK in answer to `terminate`. */
  method AwaitDaemonResponse(pieces: seq<seq<byte>>, cmd: Command, parse: seq<byte> -> Option<Response>,
                             ghost response: Response, ghost payload: seq<byte>)
    returns (leave: bool, received: Response, used: nat)
    requires Flatten(pieces) == Frame(payload) && |payload| < WORD && parse(payload) == Some(response)
    requires forall i :: 0 <= i < |pieces| ==> pieces[i] != []
    ensures received == response && used == |pieces|
    ensures leave <==> response.status == OK && cmd.kind == TERMINATE
  {
    var reader := new ProtoReader<Response>();
    used := 0;
    var message: Option<Response> := None;
    FrameNeedsPieces(pieces, payload);
    assert pieces[..0] == [];
    while message.None?
      invariant used <= |pieces| && ReaderOk(reader.View()) && reader.View() == FedAll(pieces[..used]).0
      invariant message == if used == |pieces| then Some(response) else None
      decreases |pieces| - used
    {
      hide Frame, Fed, FedAll, BigEndian, FromBigEndian, HoldsFrame, ReaderOk, Flatten;
      NextPiece(pieces, payload, used);
      var r := reader.Read(Data(pieces[used]), parse);
      used := used + 1;
      message := if r.Got? then r.message else None;
    }
    received := message.value;
    leave := received.status == OK && cmd.kind == TERMINATE;
  }
}
