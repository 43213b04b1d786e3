/**
 The command protocol: a frame is the length of its payload, four bytes in network order,
 followed by the payload.  Reads and writes are partial, and every split must do.
 */
module Framing {
  import opened Bytes

  const MAX_FRAME: nat := 1024 * 1024

  const WORD: nat := 0x1_0000_0000

  /** `htonl`. */
  function BigEndian(n: nat): (r: seq<byte>)
    requires n < WORD
    ensures |r| == 4
  {
    var b3: int, b2: int, b1: int, b0: int := n / 0x100_0000, n / 0x1_0000 % 256, n / 256 % 256, n % 256;
    [b3, b2, b1, b0]
  }

  /** `ntohl`. */
  function FromBigEndian(s: seq<byte>): (n: nat)
    requires |s| == 4
    ensures n < WORD
  {
    s[0] as int * 0x100_0000 + s[1] as int * 0x1_0000 + s[2] as int * 256 + s[3]
  }

  lemma BigEndianRoundTrip(n: nat)
    requires n < WORD
    ensures FromBigEndian(BigEndian(n)) == n
  {
    var hi, lo := n / 0x1_0000, n % 0x1_0000;
    assert n / 0x100_0000 == hi / 256;
    assert n / 256 % 256 == lo / 256 by {
      assert n / 256 == hi * 256 + lo / 256;
    }
    assert n % 256 == lo % 256;
  }

  /** The response length is cut to 32 bits on its way into the header. */
  function Frame(payload: seq<byte>): (r: seq<byte>)
    ensures |r| == 4 + |payload|
  {
    BigEndian(|payload| % WORD) + payload
  }

  datatype Code = Failed | Closed | More | Complete

  // ---------------------------------------------------------------- receiving

  /** What a connection has of the frame it is reading: `read_state` 0 and 1. */
  datatype Receiver = Header(size: seq<byte>) | Body(len: nat, buf: seq<byte>)

  const IDLE: Receiver := Header([])

  /** How many bytes the next `recv` asks for; one, to notice a closed socket, when nothing is missing. */
  function Request(r: Receiver): nat
    requires r.Header? ==> |r.size| <= 4
    requires r.Body? ==> |r.buf| <= r.len
  {
    match r
    case Header(size) => if |size| == 4 then 1 else 4 - |size|
    case Body(len, buf) => if |buf| == len then 1 else len - |buf|
  }

  /** `recv_sock_buf` when the kernel delivers `chunk`. */
  function Recv(r: Receiver, chunk: seq<byte>): (Receiver, Code)
    requires r.Header? ==> |r.size| + |chunk| <= 4
  {
    match r
    case Header(size) =>
      var size' := size + chunk;
      if |size'| < 4 then (Header(size'), More)
      else
        var len := FromBigEndian(size');
        (Body(len, []), if len > MAX_FRAME then Failed else More)
    case Body(len, buf) =>
      if |buf| == len then (r, Failed)
      else (Body(len, buf + chunk), if |buf + chunk| == len then Complete else More)
  }

  /** The kernel delivers between one byte and what was asked for. */
  predicate Deliverable(r: Receiver, chunk: seq<byte>) {
    && (r.Header? ==> |r.size| < 4) && (r.Body? ==> |r.buf| <= r.len)
    && 1 <= |chunk| <= Request(r)
  }

  function Concat(chunks: seq<seq<byte>>): seq<byte> {
    if chunks == [] then [] else Concat(chunks[..|chunks| - 1]) + chunks[|chunks| - 1]
  }

  /** The state and the last answer after the chunks, read one after the other; reading goes on only after `More`. */
  ghost predicate Reads(chunks: seq<seq<byte>>, r: Receiver, code: Code)
    decreases |chunks|
  {
    if chunks == [] then r == IDLE && code == More
    else exists r0 :: ReadsLast(chunks, r0, r, code)
  }

  ghost predicate ReadsLast(chunks: seq<seq<byte>>, r0: Receiver, r: Receiver, code: Code)
    requires chunks != []
    decreases |chunks|, 0
  {
    var n := |chunks| - 1;
    Reads(chunks[..n], r0, More) && Deliverable(r0, chunks[n]) && (r, code) == Recv(r0, chunks[n])
  }

  /** What the bytes alone determine. */
  function StateAfter(s: seq<byte>): Receiver {
    if |s| < 4 then Header(s) else Body(FromBigEndian(s[..4]), s[4..])
  }

  function CodeAfter(s: seq<byte>): Code {
    if |s| < 4 then More
    else
      var len := FromBigEndian(s[..4]);
      if |s| == 4 then (if len > MAX_FRAME then Failed else More)
      else if |s| < 4 + len then More
      else if |s| == 4 + len then Complete
      else Failed
  }

  /** For every way of chunking the stream: state and answer depend on the bytes read, not on how they were cut. */
  lemma {:induction false} ChunkingIsIrrelevant(chunks: seq<seq<byte>>, r: Receiver, code: Code)
    requires Reads(chunks, r, code)
    ensures code == CodeAfter(Concat(chunks))
    ensures code != Failed || |Concat(chunks)| == 4 ==> r == StateAfter(Concat(chunks))
    decreases |chunks|
  {
    if chunks != [] {
      var n := |chunks| - 1;
      var r0 :| ReadsLast(chunks, r0, r, code);
      ChunkingIsIrrelevant(chunks[..n], r0, More);
      var c, d := Concat(chunks[..n]), chunks[n];
      assert Concat(chunks) == c + d;
      if |c| >= 4 {
        assert (c + d)[..4] == c[..4] && (c + d)[4..] == c[4..] + d;
      } else if |c + d| == 4 {
        assert (c + d)[..4] == c + d && (c + d)[4..] == [];
      }
    }
  }

  /** And every way of chunking is covered: any run that is still going on can take any deliverable chunk. */
  lemma ReadsOn(chunks: seq<seq<byte>>, r: Receiver, chunk: seq<byte>)
    requires Reads(chunks, r, More) && Deliverable(r, chunk)
    ensures Reads(chunks + [chunk], Recv(r, chunk).0, Recv(r, chunk).1)
  {
    var all := chunks + [chunk];
    assert all[..|all| - 1] == chunks;
    assert ReadsLast(all, r, Recv(r, chunk).0, Recv(r, chunk).1);
  }

  lemma FrameLength(payload: seq<byte>)
    requires |payload| < WORD
    ensures FromBigEndian(Frame(payload)[..4]) == |payload| && Frame(payload)[4..] == payload
  {
    assert Frame(payload)[..4] == BigEndian(|payload|);
    BigEndianRoundTrip(|payload|);
  }

  /**
   A stream that starts with a frame is read up to the end of that frame and no further; the
   answer is `Complete` exactly when its last byte has arrived, and then the buffer is the payload.
   */
  lemma ReceivesFrame(payload: seq<byte>, rest: seq<byte>, chunks: seq<seq<byte>>, r: Receiver, code: Code)
    requires 1 <= |payload| <= MAX_FRAME
    requires Reads(chunks, r, code) && Concat(chunks) <= Frame(payload) + rest
    ensures |Concat(chunks)| <= |Frame(payload)|
    ensures code == if Concat(chunks) == Frame(payload) then Complete else More
    ensures code == Complete ==> r == Body(|payload|, payload)
  {
    var c, f := Concat(chunks), Frame(payload);
    FrameLength(payload);
    ChunkingIsIrrelevant(chunks, r, code);
    NoOvershoot(payload, rest, chunks, r, code);
    assert c == f[..|c|];
    if |c| >= 4 {
      assert c[..4] == f[..4];
      if |c| == |f| { assert c == f; }
    }
  }

  lemma {:induction false} NoOvershoot(payload: seq<byte>, rest: seq<byte>, chunks: seq<seq<byte>>, r: Receiver,
                                       code: Code)
    requires 1 <= |payload| <= MAX_FRAME
    requires Reads(chunks, r, code) && Concat(chunks) <= Frame(payload) + rest
    ensures |Concat(chunks)| <= |Frame(payload)|
  {
    if chunks != [] {
      var n := |chunks| - 1;
      var r0 :| ReadsLast(chunks, r0, r, code);
      var c, f := Concat(chunks[..n]), Frame(payload);
      assert Concat(chunks) == c + chunks[n];
      assert c == (c + chunks[n])[..|c|];
      assert c <= f + rest;
      NoOvershoot(payload, rest, chunks[..n], r0, More);
      ChunkingIsIrrelevant(chunks[..n], r0, More);
      FrameLength(payload);
      assert c == f[..|c|];
      if |c| >= 4 { assert c[..4] == f[..4]; }
    }
  }

  /** A frame without payload is never complete: the next byte is an error, and so is a length over the limit. */
  lemma DegenerateFrames(chunks: seq<seq<byte>>, r: Receiver, code: Code)
    requires Reads(chunks, r, code) && |Concat(chunks)| >= 4
    ensures var len := FromBigEndian(Concat(chunks)[..4]);
      && (len == 0 ==> code == if |Concat(chunks)| == 4 then More else Failed)
      && (len > MAX_FRAME && |Concat(chunks)| == 4 ==> code == Failed)
  {
    ChunkingIsIrrelevant(chunks, r, code);
  }

  // ------------------------------------------------------------------ sending

  /** The two `iovec`s: what is left of the header and the payload, or what is left of the payload. */
  function Offered(res: seq<byte>, sent: nat): (r: seq<byte>)
    requires sent <= 4 + |res|
    ensures r == Frame(res)[sent..]
  {
    if sent < 4 then BigEndian(|res| % WORD)[sent..] + res else res[sent - 4..]
  }

  /** Nothing is left to send; asked before any write. */
  predicate Finished(res: seq<byte>, sent: nat) {
    res == [] || sent == |res| + 4
  }

  /** `send_sock_buf` when the kernel takes `n` bytes; `res_bytes` is zero throughout. */
  function Send(res: seq<byte>, sent: nat, n: nat): (nat, Code) {
    if Finished(res, sent) then (sent, Complete)
    else (sent + n, if sent + n == 4 then Complete else More)
  }

  /** The kernel takes between one byte and everything it is offered. */
  predicate Takes(res: seq<byte>, sent: nat, n: nat) {
    if Finished(res, sent) then n == 0 else sent <= |res| + 4 && 1 <= n <= |res| + 4 - sent
  }

  function Sum(ns: seq<nat>): nat {
    if ns == [] then 0 else Sum(ns[..|ns| - 1]) + ns[|ns| - 1]
  }

  /** After the writes `ns`, the last of them answered `code`, the bytes `wire` are out. */
  ghost predicate Sends(res: seq<byte>, ns: seq<nat>, wire: seq<byte>, code: Code)
    decreases |ns|
  {
    if ns == [] then wire == [] && code == More
    else exists w0 :: SendsLast(res, ns, w0, wire, code)
  }

  ghost predicate SendsLast(res: seq<byte>, ns: seq<nat>, w0: seq<byte>, wire: seq<byte>, code: Code)
    requires ns != []
    decreases |ns|, 0
  {
    var k := |ns| - 1;
    && Sends(res, ns[..k], w0, More)
    && Takes(res, |w0|, ns[k])
    && |w0| <= 4 + |res|
    && ns[k] <= |Offered(res, |w0|)|
    && wire == w0 + Offered(res, |w0|)[..ns[k]]
    && code == Send(res, |w0|, ns[k]).1
  }

  /** The writes never leave the frame. */
  lemma {:induction false} SendsPrefix(res: seq<byte>, ns: seq<nat>, wire: seq<byte>, code: Code)
    requires Sends(res, ns, wire, code)
    ensures wire <= Frame(res) && |wire| == Sum(ns)
    ensures code == Complete ==> res == [] || |wire| == 4 || wire == Frame(res)
    ensures code == Failed ==> false
    decreases |ns|
  {
    if ns != [] {
      var k := |ns| - 1;
      var w0 :| SendsLast(res, ns, w0, wire, code);
      SendsPrefix(res, ns[..k], w0, More);
      ExtendPrefix(Frame(res), w0, ns[k]);
    }
  }

  lemma ExtendPrefix(s: seq<byte>, prefix: seq<byte>, n: nat)
    requires prefix <= s && |prefix| + n <= |s|
    ensures prefix + s[|prefix|..][..n] == s[..|prefix| + n]
  {
  }

  /**
   A response reported as sent was sent in full exactly when it is not empty and the writes did
   not add up to the four bytes of its header.
   */
  lemma SendsWhole(res: seq<byte>, ns: seq<nat>, wire: seq<byte>)
    requires Sends(res, ns, wire, Complete)
    ensures wire == Frame(res) <==> res != [] && Sum(ns) != 4
  {
    SendsPrefix(res, ns, wire, Complete);
    if res == [] && ns != [] {
      var w0 :| SendsLast(res, ns, w0, wire, Complete);
      var before := ns[..|ns| - 1];
      if before != [] { WritesMeanPayload(res, before, w0); }
    }
  }

  lemma WritesMeanPayload(res: seq<byte>, ns: seq<nat>, wire: seq<byte>)
    requires ns != [] && Sends(res, ns, wire, More)
    ensures res != []
  {
    var w0 :| SendsLast(res, ns, w0, wire, More);
  }

  /** Writing exactly the header first drops the payload, whatever the response. */
  lemma HeaderOnly(res: seq<byte>)
    requires res != []
    ensures Sends(res, [4], Frame(res)[..4], Complete) && Frame(res)[..4] != Frame(res)
  {
    assert [4][..0] == [];
    assert Sends(res, [], [], More);
    assert SendsLast(res, [4], [], Frame(res)[..4], Complete);
  }

  /** One response of a connection, the writes that sent it and the bytes that went out. */
  datatype Answer = Answer(res: seq<byte>, ns: seq<nat>, wire: seq<byte>)

  ghost predicate Answered(a: Answer) {
    Sends(a.res, a.ns, a.wire, Complete)
  }

  function Wire(session: seq<Answer>): seq<byte> {
    if session == [] then [] else session[0].wire + Wire(session[1..])
  }

  function Frames(session: seq<Answer>): seq<byte> {
    if session == [] then [] else Frame(session[0].res) + Frames(session[1..])
  }

  predicate Whole(a: Answer) {
    a.res != [] && Sum(a.ns) != 4
  }

  /** Over a whole connection the client gets the frames of the responses, in order, exactly when no answer was cut. */
  lemma {:induction false} SessionExact(session: seq<Answer>)
    requires forall a <- session :: Answered(a)
    ensures |Wire(session)| <= |Frames(session)|
    ensures Wire(session) == Frames(session) <==> forall a <- session :: Whole(a)
  {
    if session != [] {
      var a, rest := session[0], session[1..];
      assert Answered(a);
      SessionExact(rest);
      SendsPrefix(a.res, a.ns, a.wire, Complete);
      SendsWhole(a.res, a.ns, a.wire);
      Cancel(a.wire, Wire(rest), Frame(a.res), Frames(rest));
      AllOfBoth(session);
    }
  }

  lemma AllOfBoth(session: seq<Answer>)
    requires session != []
    ensures (forall a <- session :: Whole(a)) <==> Whole(session[0]) && forall a <- session[1..] :: Whole(a)
  {
    assert session == [session[0]] + session[1..];
    assert forall a :: a in session <==> a == session[0] || a in session[1..];
  }

  /** Two texts of which neither part is longer agree exactly when their parts do. */
  lemma Cancel(a: seq<byte>, b: seq<byte>, c: seq<byte>, d: seq<byte>)
    requires |a| <= |c| && |b| <= |d|
    ensures a + b == c + d <==> a == c && b == d
  {
    if a + b == c + d {
      assert |a| == |c|;
      assert a == (a + b)[..|a|] && c == (c + d)[..|a|];
      assert b == (a + b)[|a|..] && d == (c + d)[|a|..];
    }
  }

  /**
   From end to end: whatever the writes and whatever the reads, the peer that reads what was sent
   ends up with the response, exactly when the writes did not stop at the header.
   */
  lemma EndToEnd(res: seq<byte>, ns: seq<nat>, wire: seq<byte>, chunks: seq<seq<byte>>, r: Receiver, code: Code)
    requires 1 <= |res| <= MAX_FRAME
    requires Sends(res, ns, wire, Complete) && Reads(chunks, r, code) && Concat(chunks) == wire
    ensures (code == Complete && r == Body(|res|, res)) <==> Sum(ns) != 4
  {
    SendsPrefix(res, ns, wire, Complete);
    SendsWhole(res, ns, wire);
    assert wire <= Frame(res) + [];
    ReceivesFrame(res, [], chunks, r, code);
  }

  // --------------------------------------------------------------- the socket

  /** What a `recv` or a `sendmsg` came back with. */
  datatype Input = Data(bytes: seq<byte>) | NothingYet | HungUp | ReadError
  datatype Output = Taken(n: nat) | NotYet | PeerGone | WriteError

  /** `struct sock_buf`. */
  class SockBuf {
    var readState: nat
    const size: array<byte>
    var readSize: nat
    var buf: array?<byte>
    var bufSize: nat
    var readBytes: nat
    var resBuf: seq<byte>
    var sentSize: nat

    ghost predicate Valid()
      reads this, size, buf
    {
      && size.Length == 4 && size != buf && readState <= 1
      && (readState == 0 ==> readSize < 4 && readBytes == 0)
      && (readState == 1 ==> buf != null && buf.Length == bufSize && readBytes <= bufSize)
      && sentSize <= |resBuf| + 4
    }

    ghost function Receiving(): Receiver
      requires Valid()
      reads this, size, buf
    {
      if readState == 0 then Header(size[..readSize]) else Body(bufSize, buf[..readBytes])
    }

    constructor ()
      ensures Valid() && fresh(size) && buf == null && Receiving() == IDLE && resBuf == [] && sentSize == 0
    {
      readState, readSize, bufSize, readBytes := 0, 0, 0, 0;
      size, buf := new byte[4], null;
      resBuf, sentSize := [], 0;
      new;
      assert size[..0] == [];
    }

    /** `clear_sock_buf`. */
    method ClearSockBuf()
      requires Valid()
      modifies this`readState, this`readSize, this`buf, this`bufSize, this`readBytes
      ensures Valid() && buf == null && Receiving() == IDLE
    {
      buf, readState, bufSize, readSize, readBytes := null, 0, 0, 0, 0;
    }

    /** `clear_send_sock_buf`. */
    method ClearSendSockBuf()
      requires Valid()
      modifies this`resBuf, this`sentSize
      ensures Valid() && resBuf == [] && sentSize == 0
    {
      resBuf, sentSize := [], 0;
    }

    /** How much of the buffer is still to be filled, with the one byte that notices a closed socket. */
    method Room() returns (n: nat)
      requires Valid()
      ensures n == Request(Receiving())
    {
      if readState == 0 {
        n := 4 - readSize;
      } else if bufSize == readBytes {
        n := 1;
      } else {
        n := bufSize - readBytes;
      }
    }

    /** `recv_sock_buf`; `memory` says whether `malloc` succeeds. */
    method RecvSockBuf(input: Input, memory: bool) returns (code: Code)
      requires Valid()
      requires input.Data? ==> Deliverable(Receiving(), input.bytes)
      modifies this`readState, this`readSize, this`buf, this`bufSize, this`readBytes, size, buf
      ensures input == NothingYet ==> code == More && Valid() && Receiving() == old(Receiving())
      ensures input == HungUp ==> code == Closed
      ensures input == ReadError ==> code == Failed
      ensures input.Data? ==> code == Failed || (code == old(Recv(Receiving(), input.bytes)).1
                                                 && Valid() && Receiving() == old(Recv(Receiving(), input.bytes)).0)
      ensures input.Data? && memory ==> code == old(Recv(Receiving(), input.bytes)).1
      ensures input.Data? && code == Failed && !memory ==> old(readState) == 1 || old(readSize) + |input.bytes| == 4
    {
      match input {
        case NothingYet => return More;
        case HungUp => return Closed;
        case ReadError => return Failed;
        case Data(bytes) =>
          if readState == 0 {
            code := FillHeader(bytes, memory);
          } else if bufSize == readBytes {
            code := Failed;
          } else {
            code := FillBody(bytes);
          }
      }
    }

    method FillHeader(bytes: seq<byte>, memory: bool) returns (code: Code)
      requires Valid() && readState == 0 && Deliverable(Receiving(), bytes)
      modifies this`readState, this`readSize, this`buf, this`bufSize, this`readBytes, size
      ensures code == Failed || (code == old(Recv(Receiving(), bytes)).1
                                 && Valid() && Receiving() == old(Recv(Receiving(), bytes)).0)
      ensures memory ==> code == old(Recv(Receiving(), bytes)).1
      ensures code == Failed ==> old(readSize) + |bytes| == 4
    {
      ghost var before := size[..readSize];
      forall i | 0 <= i < |bytes| {
        size[readSize + i] := bytes[i];
      }
      readSize := readSize + |bytes|;
      assert size[..readSize] == before + bytes;
      code := More;
      if readSize == 4 {
        assert size[..] == before + bytes;
        readState, bufSize := 1, FromBigEndian(size[..]);
        if bufSize > MAX_FRAME || !memory {
          return Failed;
        }
        buf := new byte[bufSize];
        assert buf[..0] == [];
      }
    }

    method FillBody(bytes: seq<byte>) returns (code: Code)
      requires Valid() && readState == 1 && readBytes < bufSize && Deliverable(Receiving(), bytes)
      modifies this`readBytes, buf
      ensures Valid() && (Receiving(), code) == old(Recv(Receiving(), bytes))
    {
      ghost var before := buf[..readBytes];
      forall i | 0 <= i < |bytes| {
        buf[readBytes + i] := bytes[i];
      }
      readBytes := readBytes + |bytes|;
      assert buf[..readBytes] == before + bytes;
      code := if readBytes == bufSize then Complete else More;
    }

    /** `send_sock_buf`. */
    method SendSockBuf(output: Output) returns (code: Code)
      requires Valid()
      requires output.Taken? && !Finished(resBuf, sentSize) ==> 1 <= output.n <= |Offered(resBuf, sentSize)|
      modifies this`sentSize
      ensures Valid()
      ensures Finished(resBuf, old(sentSize)) ==> code == Complete && sentSize == old(sentSize)
      ensures !Finished(resBuf, old(sentSize)) ==>
        match output
        case Taken(n) => (sentSize, code) == Send(resBuf, old(sentSize), n)
        case NotYet => code == More && sentSize == old(sentSize)
        case PeerGone => code == Closed && sentSize == old(sentSize)
        case WriteError => code == Failed && sentSize == old(sentSize)
    {
      if |resBuf| == 0 || sentSize == |resBuf| + 4 {
        return Complete;
      }
      match output {
        case NotYet => code := More;
        case PeerGone => code := Closed;
        case WriteError => code := Failed;
        case Taken(n) =>
          sentSize := sentSize + n;
          code := if sentSize == 4 then Complete else More;
      }
    }
  }
}
