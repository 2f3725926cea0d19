/** Length-prefixed frames: what a reader makes of the bytes it receives, in whatever pieces,
    and what a writer sends, in whatever pieces. */
module Framing {
  import opened Options

  newtype byte = x: int | 0 <= x < 256

  const HEADER := 4
  const MAX_CHUNK := 4096
  const WORD := 0x1_0000_0000

  function Halves(n: nat): (r: seq<byte>)
    requires n < 0x1_0000
    ensures |r| == 2
  {
    [(n / 0x100) as byte, (n % 0x100) as byte]
  }

  function Joined(hi: byte, lo: byte): (n: nat)
    ensures n < 0x1_0000
  {
    hi as int * 0x100 + lo as int
  }

  /** A 32-bit number in network byte order. */
  function BigEndian(n: nat): (r: seq<byte>)
    requires n < WORD
    ensures |r| == HEADER
  {
    Halves(n / 0x1_0000) + Halves(n % 0x1_0000)
  }

  function FromBigEndian(b: seq<byte>): (n: nat)
    requires |b| == HEADER
    ensures n < WORD
  {
    Joined(b[0], b[1]) * 0x1_0000 + Joined(b[2], b[3])
  }

  lemma HalvesRoundTrip(n: nat)
    requires n < 0x1_0000
    ensures Joined(Halves(n)[0], Halves(n)[1]) == n
  {
  }

  lemma JoinedRoundTrip(hi: byte, lo: byte)
    ensures Halves(Joined(hi, lo)) == [hi, lo]
  {
    var n := Joined(hi, lo);
    assert n / 0x100 == hi as int && n % 0x100 == lo as int;
  }

  lemma NumberRoundTrip(n: nat)
    requires n < WORD
    ensures FromBigEndian(BigEndian(n)) == n
  {
    HalvesRoundTrip(n / 0x1_0000);
    HalvesRoundTrip(n % 0x1_0000);
    var b := BigEndian(n);
    assert b[0] == Halves(n / 0x1_0000)[0] && b[1] == Halves(n / 0x1_0000)[1];
    assert b[2] == Halves(n % 0x1_0000)[0] && b[3] == Halves(n % 0x1_0000)[1];
  }

  lemma BytesRoundTrip(b: seq<byte>)
    requires |b| == HEADER
    ensures BigEndian(FromBigEndian(b)) == b
  {
    var hi, lo := Joined(b[0], b[1]), Joined(b[2], b[3]);
    JoinedRoundTrip(b[0], b[1]);
    JoinedRoundTrip(b[2], b[3]);
    assert FromBigEndian(b) / 0x1_0000 == hi && FromBigEndian(b) % 0x1_0000 == lo;
    assert b == [b[0], b[1]] + [b[2], b[3]];
  }

  /** The most significant byte comes first, in what is sent and in what is read. */
  lemma MostSignificantFirst(n: nat, b: seq<byte>)
    requires n < WORD && |b| == HEADER
    ensures var s := BigEndian(n);
            && s[0] as int == n / 0x100_0000 && s[1] as int == n / 0x1_0000 % 0x100
            && s[2] as int == n / 0x100 % 0x100 && s[3] as int == n % 0x100
    ensures FromBigEndian(b) ==
              b[0] as int * 0x100_0000 + b[1] as int * 0x1_0000 + b[2] as int * 0x100 + b[3] as int
  {
    var hi, lo := n / 0x1_0000, n % 0x1_0000;
    assert BigEndian(n)[0] == Halves(hi)[0] && BigEndian(n)[1] == Halves(hi)[1];
    assert BigEndian(n)[2] == Halves(lo)[0] && BigEndian(n)[3] == Halves(lo)[1];
    assert hi / 0x100 == n / 0x100_0000;
    assert lo / 0x100 == n / 0x100 % 0x100 && lo % 0x100 == n % 0x100;
  }

  /** The size field is 32 bits wide: a longer message's size would be cut off. */
  function Header(size: nat): seq<byte> {
    BigEndian(size % WORD)
  }

  function Frame(payload: seq<byte>): seq<byte> {
    Header(|payload|) + payload
  }

  function Frames(payloads: seq<seq<byte>>): seq<byte> {
    if payloads == [] then [] else Frames(payloads[..|payloads| - 1]) + Frame(payloads[|payloads| - 1])
  }

  function Flatten(chunks: seq<seq<byte>>): seq<byte> {
    if chunks == [] then [] else Flatten(chunks[..|chunks| - 1]) + chunks[|chunks| - 1]
  }

  // ------------------------------------------------------------------------ reader

  /** `_buffer` and `_message_size`. */
  datatype Reader = Reader(buffer: seq<byte>, size: Option<nat>)

  const NEW_READER := Reader([], None)

  /** What the reader holds after `recv` gave it `chunk`, and the payload it delivers, if any. */
  function Fed(r: Reader, chunk: seq<byte>): (Reader, Option<seq<byte>>) {
    var buffer := r.buffer + chunk;
    var size := if r.size.None? && |buffer| >= HEADER then Some(FromBigEndian(buffer[..HEADER])) else r.size;
    if size.Some? && |buffer| >= HEADER + size.value then
      (Reader(buffer[HEADER + size.value..], None), Some(buffer[HEADER..HEADER + size.value]))
    else
      (Reader(buffer, size), None)
  }

  /** The buffer starts with a whole frame. */
  predicate HoldsFrame(b: seq<byte>) {
    |b| >= HEADER && |b| >= HEADER + FromBigEndian(b[..HEADER])
  }

  function FrameEnd(b: seq<byte>): (n: nat)
    requires HoldsFrame(b)
    ensures HEADER <= n <= |b|
  {
    HEADER + FromBigEndian(b[..HEADER])
  }

  /** A cached size is the big-endian value of the first four buffered bytes, and its message
      is not complete. */
  predicate ReaderOk(r: Reader) {
    r.size.Some? ==>
      && |r.buffer| >= HEADER && r.size.value == FromBigEndian(r.buffer[..HEADER])
      && !HoldsFrame(r.buffer)
  }

  lemma FedKeepsOk(r: Reader, chunk: seq<byte>)
    requires ReaderOk(r)
    ensures ReaderOk(Fed(r, chunk).0)
  {
    if r.size.Some? {
      assert (r.buffer + chunk)[..HEADER] == r.buffer[..HEADER];
    }
  }

  /** A receive delivers exactly when the bytes so far hold a whole frame: the first one. */
  lemma FedDelivers(r: Reader, chunk: seq<byte>)
    requires ReaderOk(r)
    ensures var b := r.buffer + chunk;
            && (Fed(r, chunk).1.Some? <==> HoldsFrame(b))
            && (HoldsFrame(b) ==>
                  && Fed(r, chunk).1.value == b[HEADER..FrameEnd(b)]
                  && Frame(Fed(r, chunk).1.value) == b[..FrameEnd(b)]
                  && Fed(r, chunk).0 == Reader(b[FrameEnd(b)..], None))
            && (!HoldsFrame(b) ==> Fed(r, chunk).0.buffer == b)
  {
    hide BigEndian, FromBigEndian;
    var b := r.buffer + chunk;
    if r.size.Some? {
      assert b[..HEADER] == r.buffer[..HEADER];
    }
    if HoldsFrame(b) {
      BytesRoundTrip(b[..HEADER]);
      assert b[..FrameEnd(b)] == b[..HEADER] + b[HEADER..FrameEnd(b)];
    }
  }

  /** The exact condition for a receive to leave a whole frame lying in the buffer: the bytes
      held two. It is delivered only by a later receive. */
  lemma LeftoverExactlyWhen(r: Reader, chunk: seq<byte>)
    requires ReaderOk(r)
    ensures HoldsFrame(Fed(r, chunk).0.buffer) <==>
              var b := r.buffer + chunk; HoldsFrame(b) && HoldsFrame(b[FrameEnd(b)..])
  {
    FedDelivers(r, chunk);
  }

  /** A reader that was given `chunks` one after the other, and all it delivered. */
  function FedAll(chunks: seq<seq<byte>>): (Reader, seq<seq<byte>>) {
    if chunks == [] then (NEW_READER, [])
    else
      var before := FedAll(chunks[..|chunks| - 1]);
      var f := Fed(before.0, chunks[|chunks| - 1]);
      (f.0, if f.1.Some? then before.1 + [f.1.value] else before.1)
  }

  lemma OneMoreFrame(payloads: seq<seq<byte>>, p: seq<byte>, rest: seq<byte>)
    ensures Frames(payloads + [p]) + rest == Frames(payloads) + (Frame(p) + rest)
  {
    assert (payloads + [p])[..|payloads|] == payloads;
  }

  /** Nothing is lost, invented or reordered, however the stream is cut: the frames of what was
      delivered, followed by the buffer, are the bytes received. One receive delivers one
      message at most. */
  lemma {:induction false} StreamIsConserved(chunks: seq<seq<byte>>)
    ensures ReaderOk(FedAll(chunks).0)
    ensures Frames(FedAll(chunks).1) + FedAll(chunks).0.buffer == Flatten(chunks)
    ensures |FedAll(chunks).1| <= |chunks|
    decreases |chunks|
  {
    hide Frame, Fed, HoldsFrame, FrameEnd;
    if chunks != [] {
      var init, last := chunks[..|chunks| - 1], chunks[|chunks| - 1];
      StreamIsConserved(init);
      var before := FedAll(init);
      FedKeepsOk(before.0, last);
      FedDelivers(before.0, last);
      var b := before.0.buffer + last;
      assert Frames(before.1) + b == Flatten(chunks);
      if HoldsFrame(b) {
        var p := Fed(before.0, last).1.value;
        assert b == Frame(p) + b[FrameEnd(b)..];
        OneMoreFrame(before.1, p, b[FrameEnd(b)..]);
      }
    }
  }

  lemma FrameIsWhole(payload: seq<byte>)
    requires |payload| < WORD
    ensures HoldsFrame(Frame(payload)) && FrameEnd(Frame(payload)) == |Frame(payload)|
    ensures Frame(payload)[HEADER..] == payload
  {
    hide BigEndian, FromBigEndian;
    NumberRoundTrip(|payload|);
    assert Frame(payload)[..HEADER] == Header(|payload|);
  }

  /** A proper prefix of a frame does not hold a frame. */
  lemma PrefixIsPartial(payload: seq<byte>, n: nat)
    requires |payload| < WORD && n < |Frame(payload)|
    ensures !HoldsFrame(Frame(payload)[..n])
  {
    FrameIsWhole(payload);
    if n >= HEADER {
      assert Frame(payload)[..n][..HEADER] == Frame(payload)[..HEADER];
    }
  }

  lemma {:induction false} FlattenLength(chunks: seq<seq<byte>>, k: nat)
    requires k < |chunks| && forall i :: 0 <= i < |chunks| ==> chunks[i] != []
    ensures |Flatten(chunks[..k])| < |Flatten(chunks)|
    ensures Flatten(chunks[..k]) == Flatten(chunks)[..|Flatten(chunks[..k])|]
    decreases |chunks|
  {
    var last := |chunks| - 1;
    if k < last {
      FlattenLength(chunks[..last], k);
      assert chunks[..last][..k] == chunks[..k];
    }
  }

  lemma {:induction false} NothingDeliveredYet(chunks: seq<seq<byte>>, payload: seq<byte>, n: nat)
    requires |payload| < WORD && n < |Frame(payload)| && Flatten(chunks) == Frame(payload)[..n]
    ensures FedAll(chunks).1 == [] && FedAll(chunks).0.buffer == Frame(payload)[..n]
    decreases |chunks|
  {
    if chunks != [] {
      var init, last := chunks[..|chunks| - 1], chunks[|chunks| - 1];
      var m := |Flatten(init)|;
      assert Flatten(init) == Frame(payload)[..m];
      NothingDeliveredYet(init, payload, m);
      StreamIsConserved(init);
      FedDelivers(FedAll(init).0, last);
      PrefixIsPartial(payload, n);
    }
  }

  lemma LastPieceDelivers(r: Reader, last: seq<byte>, payload: seq<byte>)
    requires ReaderOk(r) && |payload| < WORD && r.buffer + last == Frame(payload)
    ensures Fed(r, last) == (NEW_READER, Some(payload))
  {
    FedDelivers(r, last);
    FrameIsWhole(payload);
    var b := Frame(payload);
    assert b[FrameEnd(b)..] == [];
    assert b[HEADER..FrameEnd(b)] == b[HEADER..];
  }

  /** A single frame, cut anywhere into non-empty pieces, is not delivered by any proper prefix
      of the pieces. */
  lemma NotBeforeItsLastPiece(chunks: seq<seq<byte>>, payload: seq<byte>, k: nat)
    requires |payload| < WORD && Flatten(chunks) == Frame(payload) && k < |chunks|
    requires forall i :: 0 <= i < |chunks| ==> chunks[i] != []
    ensures FedAll(chunks[..k]).1 == [] && ReaderOk(FedAll(chunks[..k]).0)
    ensures FedAll(chunks[..k]).0.buffer == Flatten(chunks[..k])
  {
    hide Frame, FromBigEndian;
    FlattenLength(chunks, k);
    StreamIsConserved(chunks[..k]);
    NothingDeliveredYet(chunks[..k], payload, |Flatten(chunks[..k])|);
  }

  lemma LastStep(chunks: seq<seq<byte>>)
    requires chunks != []
    ensures var init, last := chunks[..|chunks| - 1], chunks[|chunks| - 1];
            && Flatten(chunks) == Flatten(init) + last
            && FedAll(chunks).0 == Fed(FedAll(init).0, last).0
            && (Fed(FedAll(init).0, last).1.Some? ==>
                  FedAll(chunks).1 == FedAll(init).1 + [Fed(FedAll(init).0, last).1.value])
            && (Fed(FedAll(init).0, last).1.None? ==> FedAll(chunks).1 == FedAll(init).1)
  {
  }

  lemma FrameNeedsPieces(chunks: seq<seq<byte>>, payload: seq<byte>)
    requires Flatten(chunks) == Frame(payload)
    ensures chunks != []
  {
    hide BigEndian;
    assert |Frame(payload)| >= HEADER;
  }

  /** It is delivered by the last piece, which leaves the reader as new. */
  lemma ArrivesWithItsLastPiece(chunks: seq<seq<byte>>, payload: seq<byte>)
    requires |payload| < WORD && Flatten(chunks) == Frame(payload)
    requires forall i :: 0 <= i < |chunks| ==> chunks[i] != []
    ensures FedAll(chunks) == (NEW_READER, [payload])
  {
    hide *;
    FrameNeedsPieces(chunks, payload);
    var init, last := chunks[..|chunks| - 1], chunks[|chunks| - 1];
    NotBeforeItsLastPiece(chunks, payload, |chunks| - 1);
    LastStep(chunks);
    LastPieceDelivers(FedAll(init).0, last, payload);
    assert FedAll(init).1 == [] && FedAll(chunks).1 == [payload];
    assert FedAll(chunks).0 == NEW_READER;
  }

  /** One receive of a frame that comes in `chunks`, seen from the receiver's loop. */
  lemma NextPiece(chunks: seq<seq<byte>>, payload: seq<byte>, k: nat)
    requires |payload| < WORD && Flatten(chunks) == Frame(payload) && k < |chunks|
    requires forall i :: 0 <= i < |chunks| ==> chunks[i] != []
    ensures ReaderOk(FedAll(chunks[..k]).0)
    ensures Fed(FedAll(chunks[..k]).0, chunks[k]) ==
              (FedAll(chunks[..k + 1]).0, if k + 1 == |chunks| then Some(payload) else None)
  {
    hide *;
    var upTo := chunks[..k + 1];
    assert upTo[..|upTo| - 1] == chunks[..k] && upTo[|upTo| - 1] == chunks[k];
    LastStep(upTo);
    NotBeforeItsLastPiece(chunks, payload, k);
    if k + 1 < |chunks| {
      NotBeforeItsLastPiece(chunks, payload, k + 1);
    } else {
      assert upTo == chunks;
      ArrivesWithItsLastPiece(chunks, payload);
      var f := Fed(FedAll(chunks[..k]).0, chunks[k]);
      assert FedAll(upTo).1[0] == payload && |FedAll(upTo).1| == 1;
      assert f.1.Some? && (FedAll(chunks[..k]).1 + [f.1.value])[0] == f.1.value;
    }
  }

  // ------------------------------------------------------------------------ writer

  /** `_serializedMessage`, `_bytesWritten` and `_sizeWritten`. */
  datatype Writer = Writer(msg: seq<byte>, written: nat, sizeWritten: bool)

  const IDLE_WRITER := Writer([], 0, false)

  predicate WriterOk(w: Writer) {
    && (w.written < |w.msg| || (w.msg == [] && w.written == 0))
    && (w.written > 0 ==> w.sizeWritten)
  }

  /** The most that one call may pass to `send`. */
  function Room(w: Writer): nat
    requires WriterOk(w)
  {
    if |w.msg| - w.written < MAX_CHUNK then |w.msg| - w.written else MAX_CHUNK
  }

  datatype Wrote = Wrote(writer: Writer, sent: seq<byte>, done: bool)

  /** `k` is how much of the payload the kernel took; the header is taken whole. */
  predicate CanTake(w: Writer, k: nat)
    requires WriterOk(w)
  {
    if w.sizeWritten && w.written < |w.msg| then 1 <= k <= Room(w) else k == 0
  }

  /** The kernel can always take something: here, all it is given. */
  function SomeTake(w: Writer): (k: nat)
    requires WriterOk(w)
    ensures CanTake(w, k)
  {
    if w.sizeWritten && w.written < |w.msg| then Room(w) else 0
  }

  function Written(w: Writer, k: nat): (r: Wrote)
    requires WriterOk(w) && CanTake(w, k)
    ensures WriterOk(r.writer)
  {
    if !w.sizeWritten then Wrote(w.(sizeWritten := true), Header(|w.msg|), false)
    else if w.written == |w.msg| then Wrote(w, [], true)
    else
      var sent := w.msg[w.written..w.written + k];
      if w.written + k == |w.msg| then Wrote(IDLE_WRITER, sent, true)
      else Wrote(w.(written := w.written + k), sent, false)
  }

  /** What a writer that holds `msg` has put on the wire so far. */
  function SoFar(w: Writer): seq<byte>
    requires WriterOk(w)
  {
    if !w.sizeWritten then [] else Header(|w.msg|) + w.msg[..w.written]
  }

  lemma PrefixGrows(h: seq<byte>, m: seq<byte>, a: nat, b: nat)
    requires a <= b <= |m|
    ensures h + m[..a] + m[a..b] == h + m[..b] <= h + m
    ensures h + m[..b] == h + m <==> b == |m|
  {
    assert m[..b] == m[..a] + m[a..b];
    assert m == m[..b] + m[b..];
    assert b < |m| ==> |h + m[..b]| < |h + m|;
  }

  /** Each call extends a prefix of the frame; `true` comes exactly when the frame is complete
      and there was nothing left to announce. Then the writer is as new, unless the message was
      empty: its header counts as written until the writer is cleared. */
  lemma WriteExtends(w: Writer, k: nat)
    requires WriterOk(w) && CanTake(w, k)
    ensures SoFar(w) <= Frame(w.msg)
    ensures SoFar(w) + Written(w, k).sent <= Frame(w.msg)
    ensures Written(w, k).done <==> w.sizeWritten && SoFar(w) + Written(w, k).sent == Frame(w.msg)
    ensures Written(w, k).done ==> Written(w, k).writer == if w.msg == [] then w else IDLE_WRITER
    ensures !Written(w, k).done ==>
              SoFar(Written(w, k).writer) == SoFar(w) + Written(w, k).sent && Written(w, k).writer.msg == w.msg
  {
    hide Header;
    var h := Header(|w.msg|);
    PrefixGrows(h, w.msg, 0, w.written);
    PrefixGrows(h, w.msg, 0, 0);
    PrefixGrows(h, w.msg, w.written, w.written + k);
    assert SoFar(w) == if w.sizeWritten then h + w.msg[..w.written] else [];
    assert h + w.msg[..0] == h;
  }

  /** What was sent is the whole frame before `true` was returned only for an empty message,
      whose header is all there is. */
  lemma WholeBeforeDone(w: Writer)
    requires WriterOk(w)
    ensures SoFar(w) <= Frame(w.msg)
    ensures SoFar(w) == Frame(w.msg) <==> w.msg == [] && w.sizeWritten
  {
    hide BigEndian;
    PrefixGrows(Header(|w.msg|), w.msg, 0, w.written);
  }

  // ------------------------------------------------------------------ frames in transit

  /** A frame, or its beginning, in two places: in the reader's buffer and still on its way. */
  ghost predicate Partial(r: Reader, stream: seq<byte>, whole: seq<byte>) {
    ReaderOk(r) && !HoldsFrame(r.buffer) && r.buffer + stream == whole
  }

  lemma NothingIsPartial()
    ensures Partial(NEW_READER, [], [])
  {
  }

  lemma PartialGrows(r: Reader, stream: seq<byte>, whole: seq<byte>, sent: seq<byte>)
    requires Partial(r, stream, whole)
    ensures Partial(r, stream + sent, whole + sent)
  {
    assert r.buffer + (stream + sent) == (r.buffer + stream) + sent;
  }

  lemma TakeFromStream(a: seq<byte>, stream: seq<byte>, n: nat)
    requires n <= |stream|
    ensures a + stream == a + stream[..n] + stream[n..]
    ensures |a + stream[..n]| == |a| + n && a + stream[..n] <= a + stream
  {
    assert stream == stream[..n] + stream[n..];
  }

  /** Receiving some of what is on its way: the payload comes with the last byte of the whole
      frame and not before. */
  lemma ReceivePiece(r: Reader, stream: seq<byte>, n: nat, whole: seq<byte>, payload: seq<byte>)
    requires |payload| < WORD && whole <= Frame(payload) && Partial(r, stream, whole) && 1 <= n <= |stream|
    ensures var f := Fed(r, stream[..n]);
            if n == |stream| && whole == Frame(payload)
            then f == (NEW_READER, Some(payload)) && stream[n..] == []
            else f.1.None? && Partial(f.0, stream[n..], whole)
  {
    hide BigEndian, FromBigEndian, Fed, Frame, FrameEnd;
    var b := r.buffer + stream[..n];
    TakeFromStream(r.buffer, stream, n);
    FedDelivers(r, stream[..n]);
    FedKeepsOk(r, stream[..n]);
    if n == |stream| && whole == Frame(payload) {
      assert stream[..n] == stream;
      LastPieceDelivers(r, stream[..n], payload);
    } else {
      assert |b| < |Frame(payload)|;
      assert b == Frame(payload)[..|b|];
      PrefixIsPartial(payload, |b|);
    }
  }

  /** A reader that still waits has not got everything. */
  lemma SomethingIsOnItsWay(r: Reader, stream: seq<byte>, payload: seq<byte>)
    requires |payload| < WORD && Partial(r, stream, Frame(payload))
    ensures stream != []
  {
    hide Frame;
    FrameIsWhole(payload);
    assert r.buffer + [] == r.buffer;
  }

  lemma WriterStarts(msg: seq<byte>)
    ensures WriterOk(Writer(msg, 0, false)) && SoFar(Writer(msg, 0, false)) == []
  {
  }
}
