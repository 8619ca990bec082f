/** `PipeWebSocket` (launcher_pipe.go): a duplex message channel over two raw
    pipes. Every message is followed by one zero byte on the wire; there is no
    length prefix and no escaping.

    The outbound side is the growing sequence of bytes written so far. The
    inbound side is the whole sequence of bytes the peer writes, how the stream
    ends once those are exhausted (`EOF`, or the read error the OS reports),
    and a cursor marking how far the transport has consumed it. `closed`
    stands for an `*os.File` after `Close`: every further call on it fails. */
module Transport {
  import opened Errors
  import opened Process

  newtype byte = b: int | 0 <= b < 256

  /** The frame terminator, `'\x00'`. */
  const Delimiter: byte := 0

  datatype Outbound = Outbound(file: File, written: seq<byte>, closed: bool)

  datatype Inbound = Inbound(file: File, stream: seq<byte>, end: Err, cursor: nat, closed: bool)

  /** `input` is the Go field `in` (messages from the child), `output` the field `out` (messages to it). */
  datatype PipeWebSocket = PipeWebSocket(input: Inbound, output: Outbound)

  /** The cursor never runs past the peer's bytes. */
  predicate Valid(p: PipeWebSocket) {
    p.input.cursor <= |p.input.stream|
  }

  /** The bytes the transport has not consumed yet. */
  function Unread(p: PipeWebSocket): seq<byte>
    requires Valid(p)
  {
    p.input.stream[p.input.cursor..]
  }

  /** One message as it travels on the wire. */
  function Frame(m: seq<byte>): seq<byte> {
    m + [Delimiter]
  }

  /** Several messages, one after the other. */
  function Frames(ms: seq<seq<byte>>): seq<byte> {
    if |ms| == 0 then [] else Frame(ms[0]) + Frames(ms[1..])
  }

  /** Messages the framing can carry: none contains the delimiter. */
  predicate AllFramable(ms: seq<seq<byte>>) {
    forall i :: 0 <= i < |ms| ==> Delimiter !in ms[i]
  }

  /** `NewPipeWebSocket(in, out)`, with `inFile` as `in` and `outFile` as `out`: both ends open, nothing read or written yet.
      `incoming` and `end` say what the peer will write on `in` and how that
      stream ends. */
  function NewPipeWebSocket(inFile: File, outFile: File, incoming: seq<byte>, end: Err): (p: PipeWebSocket)
    ensures Valid(p) && Unread(p) == incoming
    ensures p.input.file == inFile && p.output.file == outFile
    ensures !p.input.closed && !p.output.closed && p.output.written == []
    ensures p.input.end == end
  {
    PipeWebSocket(Inbound(inFile, incoming, end, 0, false), Outbound(outFile, [], false))
  }

  // ---------------------------------------------------------------- Close

  /** `(*os.File).Close`: a second close reports `ErrClosed`; otherwise the
      OS's verdict `fault` (`None` for success). Either way the file is closed
      afterwards. */
  function CloseFile(closed: bool, fault: Option<Err>): Option<Err> {
    if closed then Some(ErrClosed) else fault
  }

  datatype CloseResult = CloseResult(ws: PipeWebSocket, err: Option<Err>)

  /** `Close`: closes `in` and then `out`, whatever the first close reported,
      and returns `in`'s error if there is one, otherwise `out`'s. */
  function Close(p: PipeWebSocket, inFault: Option<Err>, outFault: Option<Err>): (r: CloseResult)
    ensures r.ws.input.closed && r.ws.output.closed
    ensures r.ws.input.(closed := p.input.closed) == p.input && r.ws.output.(closed := p.output.closed) == p.output
    ensures r.err.None? <==> !p.input.closed && inFault.None? && !p.output.closed && outFault.None?
    ensures p.input.closed ==> r.err == Some(ErrClosed)
    ensures !p.input.closed && inFault.Some? ==> r.err == inFault
    ensures !p.input.closed && inFault.None? && p.output.closed ==> r.err == Some(ErrClosed)
    ensures !p.input.closed && inFault.None? && !p.output.closed ==> r.err == outFault
  {
    var err1 := CloseFile(p.input.closed, inFault);
    var err2 := CloseFile(p.output.closed, outFault);
    var ws := PipeWebSocket(p.input.(closed := true), p.output.(closed := true));
    if err1.Some? then CloseResult(ws, err1) else CloseResult(ws, err2)
  }

  /** The transport after `_ = p.Close()`: the state does not depend on what
      the two closes reported, so their outcomes are not parameters here. */
  function Shut(p: PipeWebSocket): (q: PipeWebSocket)
    ensures q == Close(p, None, None).ws
  {
    PipeWebSocket(p.input.(closed := true), p.output.(closed := true))
  }

  // ----------------------------------------------------------------- Send

  /** The outcome of `p.output.Write(frame)`. A failed write may have delivered
      only the first `accepted` bytes; Go reports an error exactly when fewer
      than all bytes were written, so at most a strict prefix gets through. */
  datatype WriteOutcome = Written | WriteFailed(accepted: nat, err: Err)

  datatype SendResult = SendResult(ws: PipeWebSocket, err: Option<Err>)

  /** `Send(data)`: writes `data` followed by one delimiter. Any write error
      closes the transport and is returned. */
  function Send(p: PipeWebSocket, data: seq<byte>, w: WriteOutcome): (r: SendResult)
    ensures r.ws.input.(closed := p.input.closed) == p.input
    ensures r.ws.output.file == p.output.file
    // success: exactly one frame more on the wire, transport still open
    ensures r.err.None? <==> !p.output.closed && w.Written?
    ensures r.err.None? ==> r.ws == p.(output := p.output.(written := p.output.written + data + [Delimiter]))
    // failure: the transport is closed and the error is the write's
    ensures r.err.Some? ==> r.ws.input.closed && r.ws.output.closed
    ensures p.output.closed ==> r.err == Some(ErrClosed) && r.ws.output.written == p.output.written
    ensures !p.output.closed && w.WriteFailed? ==>
              && r.err == Some(w.err)
              && p.output.written <= r.ws.output.written
              && r.ws.output.written[|p.output.written|..] <= Frame(data)
              && |r.ws.output.written| < |p.output.written| + |Frame(data)|
  {
    var frame := data + [Delimiter];
    if p.output.closed then
      SendResult(Shut(p), Some(ErrClosed))
    else match w
      case Written =>
        SendResult(p.(output := p.output.(written := p.output.written + frame)), None)
      case WriteFailed(accepted, err) =>
        var n := if accepted < |frame| then accepted else |frame| - 1;
        var q := p.(output := p.output.(written := p.output.written + frame[..n]));
        assert q.output.written[|p.output.written|..] == frame[..n];
        SendResult(Shut(q), Some(err))
  }

  /** One successful `Send` of a framable message adds exactly one delimiter. */
  lemma SendAddsOneDelimiter(p: PipeWebSocket, data: seq<byte>)
    requires !p.output.closed && Delimiter !in data
    ensures var added := Send(p, data, Written).ws.output.written[|p.output.written|..];
            && |added| == |data| + 1
            && added[|data|] == Delimiter
            && Delimiter !in added[..|data|]
  {

  }

  /** A failed `Send` never completes a frame of a framable message: the
      bytes that did get through contain no delimiter, so the peer cannot
      mistake them for a message. */
  lemma FailedSendLeavesNoFrame(p: PipeWebSocket, data: seq<byte>, accepted: nat, e: Err)
    requires !p.output.closed && Delimiter !in data
    ensures var r := Send(p, data, WriteFailed(accepted, e));
            Delimiter !in r.ws.output.written[|p.output.written|..]
  {

  }

  // ----------------------------------------------------------------- Read

  /** First delimiter at or after `from`. */
  function IndexOfDelimiter(s: seq<byte>, from: nat): (r: Option<nat>)
    requires from <= |s|
    ensures r.Some? ==> from <= r.value < |s| && s[r.value] == Delimiter && Delimiter !in s[from..r.value]
    ensures r.None? ==> Delimiter !in s[from..]
    decreases |s| - from
  {
    if from == |s| then None
    else if s[from] == Delimiter then Some(from)
    else
      var r := IndexOfDelimiter(s, from + 1);
      assert s[from..] == [s[from]] + s[from + 1..];
      if r.Some? then
        assert s[from..r.value] == [s[from]] + s[from + 1..r.value];
        r
      else r
  }

  datatype ReadResult = ReadResult(ws: PipeWebSocket, msg: Result<seq<byte>>)

  /** `Read()`: the bytes up to the next delimiter, with the delimiter
      removed. When the stream ends or fails first, or the file is already
      closed, the transport closes itself and the error is returned instead;
      the bytes read without a delimiter are dropped. */
  function Read(p: PipeWebSocket): (r: ReadResult)
    requires Valid(p)
    ensures Valid(r.ws) && r.ws.output.(closed := p.output.closed) == p.output
    ensures r.ws.input.stream == p.input.stream && r.ws.input.end == p.input.end
    ensures r.ws.input.file == p.input.file
    ensures p.input.closed ==> r.ws.input.cursor == p.input.cursor
    ensures r.msg.Success? <==> !p.input.closed && Delimiter in Unread(p)
    // a message is everything before the first delimiter, and the cursor moves past it
    ensures r.msg.Success? ==>
              && Delimiter !in r.msg.value
              && Frame(r.msg.value) <= Unread(p)
              && r.ws == p.(input := p.input.(cursor := p.input.cursor + |r.msg.value| + 1))
    // a failure closes the transport
    ensures r.msg.Failure? ==> r.ws.input.closed && r.ws.output.closed
    ensures p.input.closed ==> r.msg == Failure(ErrClosed)
    // an unterminated tail is consumed and lost, and the stream's own error is returned
    ensures !p.input.closed && r.msg.Failure? ==>
              r.msg.error == p.input.end && r.ws.input.cursor == |p.input.stream|
  {
    if p.input.closed then
      ReadResult(Shut(p), Failure(ErrClosed))
    else match IndexOfDelimiter(p.input.stream, p.input.cursor)
      case None =>
        ReadResult(Shut(p.(input := p.input.(cursor := |p.input.stream|))), Failure(p.input.end))
      case Some(j) =>
        // ReadBytes returns the bytes through the delimiter; the last one is cut off
        var data := p.input.stream[p.input.cursor..j + 1];
        var msg := if |data| > 0 then data[..|data| - 1] else data;
        assert msg == p.input.stream[p.input.cursor..j];
        assert Unread(p)[..|msg| + 1] == Frame(msg);
        ReadResult(p.(input := p.input.(cursor := j + 1)), Success(msg))
  }

  /** A delimiter right at the cursor is an empty message. */
  lemma LoneDelimiterIsEmptyMessage(p: PipeWebSocket)
    requires Valid(p) && !p.input.closed
    requires p.input.cursor < |p.input.stream| && p.input.stream[p.input.cursor] == Delimiter
    ensures Read(p).msg == Success([])
    ensures Read(p).ws.input.cursor == p.input.cursor + 1
  {

  }

  /** What a frame-prefixed stream starts with determines the message: two
      delimiter-free messages whose frames both begin `s` are equal. */
  lemma FrameIsUnique(s: seq<byte>, a: seq<byte>, b: seq<byte>)
    requires Delimiter !in a && Delimiter !in b
    requires Frame(a) <= s && Frame(b) <= s
    ensures a == b
  {
    assert Frame(a)[|a|] == s[|a|] == Delimiter;
    assert Frame(b)[|b|] == s[|b|] == Delimiter;
    assert forall i :: 0 <= i < |a| ==> s[i] == a[i] != Delimiter;
    assert forall i :: 0 <= i < |b| ==> s[i] == b[i] != Delimiter;
    assert forall i :: 0 <= i < |a| ==> a[i] == s[i] == b[i];
  }

  // ------------------------------------------------------- many messages

  /** `Send` of each message in turn, every write succeeding, stopping at the
      first error. */
  function SendAll(p: PipeWebSocket, ms: seq<seq<byte>>): (r: SendResult)
    ensures !p.output.closed ==>
              r.err.None? && r.ws == p.(output := p.output.(written := p.output.written + Frames(ms)))
    decreases |ms|
  {
    if |ms| == 0 then SendResult(p, None)
    else
      var s := Send(p, ms[0], Written);
      if s.err.Some? then s
      else
        var rest := SendAll(s.ws, ms[1..]);
        assert p.output.written + Frames(ms) == (p.output.written + Frame(ms[0])) + Frames(ms[1..]);
        rest
  }

  datatype ReadManyResult = ReadManyResult(ws: PipeWebSocket, msgs: Result<seq<seq<byte>>>)

  /** `Read` called `n` times, stopping at the first error. */
  function ReadMany(p: PipeWebSocket, n: nat): (r: ReadManyResult)
    requires Valid(p)
    ensures Valid(r.ws)
    ensures r.msgs.Success? ==> |r.msgs.value| == n && AllFramable(r.msgs.value)
    decreases n
  {
    if n == 0 then ReadManyResult(p, Success([]))
    else
      var first := Read(p);
      match first.msg
      case Failure(e) => ReadManyResult(first.ws, Failure(e))
      case Success(m) =>
        var rest := ReadMany(first.ws, n - 1);
        match rest.msgs
        case Failure(e) => ReadManyResult(rest.ws, Failure(e))
        case Success(ms) =>
          assert forall i :: 1 <= i < |[m] + ms| ==> ([m] + ms)[i] == ms[i - 1];
          ReadManyResult(rest.ws, Success([m] + ms))
  }

  /** A stream that starts with the frame of a delimiter-free `m` reads as
      `m`, and what follows the frame is what remains unread. */
  lemma ReadFirstFrame(p: PipeWebSocket, m: seq<byte>, rest: seq<byte>)
    requires Valid(p) && !p.input.closed && Delimiter !in m
    requires Frame(m) + rest <= Unread(p)
    ensures Read(p).msg == Success(m)
    ensures Read(p).ws.input.cursor == p.input.cursor + |Frame(m)|
    ensures !Read(p).ws.input.closed && Valid(Read(p).ws)
    ensures rest <= Unread(Read(p).ws)
  {
    var u := Unread(p);
    assert Frame(m) <= u by {
      assert (Frame(m) + rest)[..|Frame(m)|] == Frame(m);
    }
    assert Delimiter in u by {
      assert u[|m|] == Frame(m)[|m|];
    }
    var first := Read(p);
    FrameIsUnique(u, first.msg.value, m);
    assert Unread(first.ws) == u[|Frame(m)|..];
  }

  /** Reading a stream that holds the frames of `ms` yields `ms`, in order,
      and leaves the cursor just past the last frame. */
  lemma {:induction false} ReadManyFrames(p: PipeWebSocket, ms: seq<seq<byte>>)
    requires Valid(p) && !p.input.closed && AllFramable(ms)
    requires Frames(ms) <= Unread(p)
    ensures ReadMany(p, |ms|).msgs == Success(ms)
    ensures ReadMany(p, |ms|).ws.input.cursor == p.input.cursor + |Frames(ms)|
    ensures !ReadMany(p, |ms|).ws.input.closed
    decreases |ms|
  {
    if |ms| > 0 {
      var m, tail := ms[0], ms[1..];
      assert Frames(ms) == Frame(m) + Frames(tail);
      ReadFirstFrame(p, m, Frames(tail));
      var q := Read(p).ws;
      assert AllFramable(tail) by {
        forall i | 0 <= i < |tail| ensures Delimiter !in tail[i] {
          assert tail[i] == ms[i + 1];
        }
      }
      ReadManyFrames(q, tail);
      var rest := ReadMany(q, |tail|);
      assert ReadMany(p, |ms|) == ReadManyResult(rest.ws, Success([m] + tail));
      assert [m] + tail == ms;
    }
  }

  /** Round trip: what one transport sends, a transport reading the same pipe
      receives unchanged and in the same order, provided every message is
      free of the delimiter and the reader starts where the writer started. */
  lemma RoundTrip(writer: PipeWebSocket, reader: PipeWebSocket, ms: seq<seq<byte>>)
    requires !writer.output.closed && AllFramable(ms)
    requires Valid(reader) && !reader.input.closed
    requires reader.input.cursor == |writer.output.written|
    requires SendAll(writer, ms).ws.output.written <= reader.input.stream
    ensures SendAll(writer, ms).err.None?
    ensures ReadMany(reader, |ms|).msgs == Success(ms)
  {
    var w := SendAll(writer, ms).ws.output.written;
    assert w == writer.output.written + Frames(ms);
    assert Frames(ms) <= Unread(reader) by {
      assert w[|writer.output.written|..] == Frames(ms);
      assert Unread(reader)[..|Frames(ms)|] == w[|writer.output.written|..];
    }
    ReadManyFrames(reader, ms);
  }

  /** The single-message round trip: `Send` then the peer's `Read`. */
  lemma SendThenRead(writer: PipeWebSocket, reader: PipeWebSocket, m: seq<byte>)
    requires !writer.output.closed && Delimiter !in m
    requires Valid(reader) && !reader.input.closed
    requires reader.input.cursor == |writer.output.written|
    requires Send(writer, m, Written).ws.output.written <= reader.input.stream
    ensures Read(reader).msg == Success(m)
    ensures Read(reader).ws.input.cursor == |Send(writer, m, Written).ws.output.written|
  {
    var w := Send(writer, m, Written).ws.output.written;
    assert Frame(m) + [] <= Unread(reader) by {
      assert w[|writer.output.written|..] == Frame(m);
      assert Unread(reader)[..|Frame(m)|] == w[|writer.output.written|..];
    }
    ReadFirstFrame(reader, m, []);
  }

  // ----------------------------------------------------- closing is final

  /** Once a `Send` or `Read` has failed, every later `Send` and `Read`
      fails with `ErrClosed` and a later `Close` reports `ErrClosed` too. */
  lemma FailureIsSticky(p: PipeWebSocket, data: seq<byte>, w: WriteOutcome,
                        next: seq<byte>, w2: WriteOutcome, f1: Option<Err>, f2: Option<Err>)
    requires Valid(p)
    ensures var s := Send(p, data, w);
            s.err.Some? ==>
              && Send(s.ws, next, w2).err == Some(ErrClosed)
              && Read(s.ws).msg == Failure(ErrClosed)
              && Close(s.ws, f1, f2).err == Some(ErrClosed)
    ensures var r := Read(p);
            r.msg.Failure? ==>
              && Send(r.ws, next, w2).err == Some(ErrClosed)
              && Read(r.ws).msg == Failure(ErrClosed)
              && Close(r.ws, f1, f2).err == Some(ErrClosed)
  {
  }

  /** After `Close`, whatever it reported, the transport refuses all I/O,
      and closing it again reports `ErrClosed`. */
  lemma CloseIsFinal(p: PipeWebSocket, f1: Option<Err>, f2: Option<Err>,
                     data: seq<byte>, w: WriteOutcome, g1: Option<Err>, g2: Option<Err>)
    requires Valid(p)
    ensures var q := Close(p, f1, f2).ws;
            && Valid(q)
            && Send(q, data, w).err == Some(ErrClosed)
            && Send(q, data, w).ws.output.written == p.output.written
            && Read(q).msg == Failure(ErrClosed)
            && Close(q, g1, g2).err == Some(ErrClosed)
  {
  }
}
