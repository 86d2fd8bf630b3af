/**
 Length-prefixed frames: a big-endian 32-bit length and then the payload.  The sender writes any payload; the
 receiver gives up on a length above `MAX_MESSAGE_BYTES`.
 */
module Framing {
  type byte = b: int | 0 <= b < 256
  type Bytes = seq<byte>

  const MAX_MESSAGE_BYTES := 1048576
  const HEADER := 4

  /** The `k` low bytes of `n`, the most significant first. */
  function BigEndian(n: nat, k: nat): (bytes: Bytes)
    ensures |bytes| == k
  {
    if k == 0 then [] else BigEndian(n / 0x100, k - 1) + [n % 0x100]
  }

  function BigEndianValue(bytes: Bytes): nat {
    if bytes == [] then 0 else BigEndianValue(bytes[..|bytes| - 1]) * 0x100 + bytes[|bytes| - 1]
  }

  function Range(k: nat): nat {
    if k == 0 then 1 else Range(k - 1) * 0x100
  }

  lemma {:induction false} BigEndianRoundTrip(n: nat, k: nat)
    requires n < Range(k)
    ensures BigEndianValue(BigEndian(n, k)) == n
  {
    if k > 0 {
      BigEndianRoundTrip(n / 0x100, k - 1);
      assert BigEndian(n, k)[..k - 1] == BigEndian(n / 0x100, k - 1);
    }
  }

  lemma {:induction false} BigEndianOfValue(bytes: Bytes)
    ensures BigEndianValue(bytes) < Range(|bytes|)
    ensures BigEndian(BigEndianValue(bytes), |bytes|) == bytes
  {
    if bytes != [] {
      var front, last := bytes[..|bytes| - 1], bytes[|bytes| - 1];
      BigEndianOfValue(front);
      assert bytes == front + [last];
    }
  }

  /** `htonl` and `ntohl`. */
  function HostToNetwork(n: nat): (bytes: Bytes)
    ensures |bytes| == HEADER
  {
    BigEndian(n, HEADER)
  }

  function NetworkToHost(bytes: Bytes): nat {
    BigEndianValue(bytes)
  }

  /** The four bytes of a length, the most significant first. */
  predicate IsHeader(bytes: Bytes, n: nat) {
    && |bytes| == 4
    && bytes[0] == n / 0x100_0000 && bytes[1] == n / 0x1_0000 % 0x100
    && bytes[2] == n / 0x100 % 0x100 && bytes[3] == n % 0x100
  }

  lemma HostToNetworkExactly(n: nat)
    requires n < 0x1_0000_0000
    ensures IsHeader(HostToNetwork(n), n)
  {
    var b3 := BigEndian(n, 4);
    var b2 := BigEndian(n / 0x100, 3);
    var b1 := BigEndian(n / 0x100 / 0x100, 2);
    var b0 := BigEndian(n / 0x100 / 0x100 / 0x100, 1);
    assert n / 0x100 / 0x100 == n / 0x1_0000 && n / 0x100 / 0x100 / 0x100 == n / 0x100_0000;
    assert b0 == BigEndian(n / 0x100 / 0x100 / 0x100 / 0x100, 0) + [n / 0x100_0000 % 0x100];
    assert b1 == b0 + [n / 0x1_0000 % 0x100] && b2 == b1 + [n / 0x100 % 0x100] && b3 == b2 + [n % 0x100];
  }

  lemma NetworkToHostExactly(bytes: Bytes)
    requires |bytes| == 4
    ensures NetworkToHost(bytes) == HeaderValue(bytes[0], bytes[1], bytes[2], bytes[3])
  {
    assert bytes[..3][..2] == bytes[..2] && bytes[..2][..1] == bytes[..1] && bytes[..1][..0] == [];
    assert BigEndianValue(bytes[..1]) == bytes[0];
    assert BigEndianValue(bytes[..2]) == BigEndianValue(bytes[..1]) * 0x100 + bytes[1];
    assert BigEndianValue(bytes[..3]) == BigEndianValue(bytes[..2]) * 0x100 + bytes[2];
  }

  function HeaderValue(b0: int, b1: int, b2: int, b3: int): int {
    b0 * 0x100_0000 + b1 * 0x1_0000 + b2 * 0x100 + b3
  }

  lemma HostOrderRoundTrip(n: nat)
    requires n < 0x1_0000_0000
    ensures NetworkToHost(HostToNetwork(n)) == n
  {
    assert Range(4) == 0x1_0000_0000;
    BigEndianRoundTrip(n, HEADER);
  }

  lemma NetworkOrderRoundTrip(bytes: Bytes)
    requires |bytes| == HEADER
    ensures HostToNetwork(NetworkToHost(bytes)) == bytes
  {
    BigEndianOfValue(bytes);
  }

  /** The buffer `SendBytes` builds.  The length is cast to 32 bits. */
  function Frame(payload: Bytes): Bytes {
    HostToNetwork(|payload| % 0x1_0000_0000) + payload
  }

  function Frames(payloads: seq<Bytes>): Bytes {
    if payloads == [] then [] else Frame(payloads[0]) + Frames(payloads[1..])
  }

  /** What a reader has made of a stream of bytes: the payloads it handed on, whether it hung up on an oversize
      length, and otherwise the bytes that do not yet complete a frame. */
  datatype Reading = Reading(delivered: seq<Bytes>, hungUp: bool, rest: Bytes)

  /** `r`, after the payloads `before` have been delivered. */
  function After(before: seq<Bytes>, r: Reading): Reading {
    r.(delivered := before + r.delivered)
  }

  lemma AfterNone(r: Reading)
    ensures After([], r) == r
  {
    assert [] + r.delivered == r.delivered;
  }

  lemma AfterAfter(ps: seq<Bytes>, qs: seq<Bytes>, r: Reading)
    ensures After(ps, After(qs, r)) == After(ps + qs, r)
  {
    assert ps + (qs + r.delivered) == ps + qs + r.delivered;
  }

  /** The payloads in a stream, by recursion on the stream: the specification of the read loop. */
  function Read(stream: Bytes): Reading
    decreases |stream|
  {
    if |stream| < HEADER then Reading([], false, stream)
    else
      var length := NetworkToHost(stream[..HEADER]);
      if length > MAX_MESSAGE_BYTES then Reading([], true, stream)
      else if |stream| < HEADER + length then Reading([], false, stream)
      else
        After([stream[HEADER..HEADER + length]], Read(stream[HEADER + length..]))
  }

  // ---- Round trip ----

  lemma ReadFrame(payload: Bytes, stream: Bytes)
    requires |payload| <= MAX_MESSAGE_BYTES
    ensures Read(Frame(payload) + stream) == After([payload], Read(stream))
  {
    var all := Frame(payload) + stream;
    HostOrderRoundTrip(|payload|);
    assert all[..HEADER] == HostToNetwork(|payload|);
    assert all[HEADER..HEADER + |payload|] == payload;
    assert all[HEADER + |payload|..] == stream;
  }

  /** Reading a stream that begins with the frames of `payloads` delivers them and goes on with what follows. */
  lemma {:induction false} ReadFrames(payloads: seq<Bytes>, stream: Bytes)
    requires forall p :: p in payloads ==> |p| <= MAX_MESSAGE_BYTES
    ensures Read(Frames(payloads) + stream) == After(payloads, Read(stream))
  {
    if payloads == [] {
      assert Frames(payloads) + stream == stream;
      AfterNone(Read(stream));
    } else {
      var rest := Frames(payloads[1..]) + stream;
      assert Frames(payloads) + stream == Frame(payloads[0]) + rest;
      ReadFrame(payloads[0], rest);
      ReadFrames(payloads[1..], stream);
      AfterAfter([payloads[0]], payloads[1..], Read(stream));
      assert payloads == [payloads[0]] + payloads[1..];
    }
  }

  /** Payloads within the bound, empty ones included, are delivered exactly, with nothing left over. */
  lemma RoundTrip(payloads: seq<Bytes>)
    requires forall p :: p in payloads ==> |p| <= 1048576
    ensures Read(Frames(payloads)) == Reading(payloads, false, [])
  {
    ReadFrames(payloads, []);
    assert Frames(payloads) + [] == Frames(payloads);
    assert payloads + [] == payloads;
  }

  /** On meeting an oversize length the reader has delivered exactly the earlier frames, and hangs up, whatever
      follows. */
  lemma OversizeHangsUp(payloads: seq<Bytes>, length: nat, tail: Bytes)
    requires forall p :: p in payloads ==> |p| <= MAX_MESSAGE_BYTES
    requires 1048576 < length < 0x1_0000_0000
    ensures var r := Read(Frames(payloads) + HostToNetwork(length) + tail);
      r.delivered == payloads && r.hungUp
  {
    var stream := HostToNetwork(length) + tail;
    HostOrderRoundTrip(length);
    assert stream[..HEADER] == HostToNetwork(length);
    assert Read(stream) == Reading([], true, stream);
    ReadFrames(payloads, stream);
    assert Frames(payloads) + HostToNetwork(length) + tail == Frames(payloads) + stream;
    assert payloads + [] == payloads;
  }

  lemma {:induction false} FramesConcat(ps: seq<Bytes>, qs: seq<Bytes>)
    ensures Frames(ps + qs) == Frames(ps) + Frames(qs)
  {
    if ps == [] {
      assert ps + qs == qs;
    } else {
      assert (ps + qs)[1..] == ps[1..] + qs;
      FramesConcat(ps[1..], qs);
    }
  }

  lemma {:induction false} FirstOversize(payloads: seq<Bytes>) returns (k: nat)
    requires exists p :: p in payloads && |p| > MAX_MESSAGE_BYTES
    ensures k < |payloads| && IsFirstOversize(payloads, k)
  {
    if |payloads[0]| > MAX_MESSAGE_BYTES {
      k := 0;
    } else {
      k := FirstOversize(payloads[1..]);
      k := k + 1;
    }
  }

  // ---- Prefixes and chunks ----

  /** Reading more bytes resumes where the reader stood: it depends on the stream alone, not on how it was cut. */
  lemma {:induction false} ReadResumes(stream: Bytes, more: Bytes)
    ensures var r := Read(stream);
      var all := Read(stream + more);
      && (r.hungUp ==> all.hungUp && all.delivered == r.delivered)
      && (!r.hungUp ==> all == After(r.delivered, Read(r.rest + more)))
    decreases |stream|
  {
    var r := Read(stream);
    if |stream| >= HEADER {
      assert (stream + more)[..HEADER] == stream[..HEADER];
      var length := NetworkToHost(stream[..HEADER]);
      if length <= MAX_MESSAGE_BYTES && HEADER + length <= |stream| {
        ReadResumesPastFrame(stream, more, length);
        return;
      }
    }
    AfterNone(Read(stream + more));
  }

  lemma {:induction false} ReadResumesPastFrame(stream: Bytes, more: Bytes, length: nat)
    requires HEADER + length <= |stream| && length <= MAX_MESSAGE_BYTES && length == NetworkToHost(stream[..HEADER])
    ensures var r := Read(stream);
      var all := Read(stream + more);
      && (r.hungUp ==> all.hungUp && all.delivered == r.delivered)
      && (!r.hungUp ==> all == After(r.delivered, Read(r.rest + more)))
    decreases |stream|, 0
  {
    var end := HEADER + length;
    var body, s := stream[HEADER..end], Read(stream[end..]);
    assert Read(stream) == After([body], s);
    assert Read(stream + more) == After([body], Read(stream[end..] + more)) by {
      assert (stream + more)[..HEADER] == stream[..HEADER];
      assert (stream + more)[HEADER..end] == body;
      assert (stream + more)[end..] == stream[end..] + more;
    }
    ReadResumes(stream[end..], more);
    AfterAfter([body], s.delivered, Read(s.rest + more));
  }

  /** A reader that has handed on `delivered` and still holds `pending` goes on from there. */
  lemma ReadGoesOn(stream: Bytes, more: Bytes, delivered: seq<Bytes>, pending: Bytes)
    requires Read(stream) == Reading(delivered, false, pending)
    ensures Read(stream + more) == After(delivered, Read(pending + more))
  {
    ReadResumes(stream, more);
  }

  /** On any prefix of a stream the reader delivers a prefix of what it delivers on the stream. */
  lemma PrefixDeliversPrefix(stream: Bytes, full: Bytes)
    requires stream <= full
    ensures Read(stream).delivered <= Read(full).delivered
  {
    assert full == stream + full[|stream|..];
    ReadResumes(stream, full[|stream|..]);
  }

  /** The first payload above the bound, if there is one, has a length whose low 32 bits are above the bound too. */
  ghost predicate LengthsSurvive(payloads: seq<Bytes>) {
    forall k :: 0 <= k < |payloads| && IsFirstOversize(payloads, k) ==>
      |payloads[k]| % 0x1_0000_0000 > MAX_MESSAGE_BYTES
  }

  ghost predicate IsFirstOversize(payloads: seq<Bytes>, k: nat)
    requires k < |payloads|
  {
    |payloads[k]| > MAX_MESSAGE_BYTES && forall p :: p in payloads[..k] ==> |p| <= MAX_MESSAGE_BYTES
  }

  /** All payloads whose length fits 32 bits, as the header has room for, are among these. */
  lemma ShortLengthsSurvive(payloads: seq<Bytes>)
    requires forall p :: p in payloads ==> |p| < 0x1_0000_0000
    ensures LengthsSurvive(payloads)
  {
  }

  lemma OnlyFirstOversize(payloads: seq<Bytes>, k: nat, j: nat)
    requires k < |payloads| && j < |payloads| && j != k && IsFirstOversize(payloads, k)
    ensures !IsFirstOversize(payloads, j)
  {
    if k < j {
      assert payloads[k] in payloads[..j];
    } else {
      assert payloads[j] in payloads[..k];
    }
  }

  /** What a reader makes of the frame of an oversize payload: it hangs up, or takes the front of it for the whole. */
  lemma ReadOversize(payload: Bytes, stream: Bytes)
    requires |payload| > MAX_MESSAGE_BYTES
    ensures var r, n := Read(Frame(payload) + stream), |payload| % 0x1_0000_0000;
      if n > MAX_MESSAGE_BYTES then r.delivered == [] && r.hungUp
      else r.delivered != [] && r.delivered[0] == payload[..n] && n < |payload|
  {
    var all, n := Frame(payload) + stream, |payload| % 0x1_0000_0000;
    HostOrderRoundTrip(n);
    assert all[..HEADER] == HostToNetwork(n);
    if n <= MAX_MESSAGE_BYTES {
      assert all[HEADER..HEADER + n] == payload[..n];
    }
  }

  /** What is delivered of the frames up to the first oversize payload, and of that. */
  lemma ReadToOversize(payloads: seq<Bytes>, k: nat)
    requires k < |payloads| && IsFirstOversize(payloads, k)
    ensures var d, n := Read(Frames(payloads)).delivered, |payloads[k]| % 0x1_0000_0000;
      if n > MAX_MESSAGE_BYTES then d == payloads[..k] else |d| > k && d[k] != payloads[k]
  {
    var rest := Frames(payloads[k..]);
    assert payloads == payloads[..k] + payloads[k..] && payloads[k..][1..] == payloads[k + 1..];
    FramesConcat(payloads[..k], payloads[k..]);
    ReadFrames(payloads[..k], rest);
    ReadOversize(payloads[k], Frames(payloads[k + 1..]));
    assert payloads[..k] + [] == payloads[..k];
  }

  /** What is delivered is a prefix of what was sent, whatever part of the frames has arrived, for exactly the lists
      whose lengths survive the cast to 32 bits. */
  lemma DeliversPrefixExactly(payloads: seq<Bytes>)
    ensures Read(Frames(payloads)).delivered <= payloads <==> LengthsSurvive(payloads)
  {
    if forall p :: p in payloads ==> |p| <= MAX_MESSAGE_BYTES {
      RoundTrip(payloads);
    } else {
      var k := FirstOversize(payloads);
      ReadToOversize(payloads, k);
      forall j | 0 <= j < |payloads| && j != k ensures !IsFirstOversize(payloads, j) {
        OnlyFirstOversize(payloads, k, j);
      }
    }
  }

  /** The shortest payload that is mistaken: its length is cast to 0, so an empty payload is delivered in its place. */
  lemma LongPayloadIsMistaken()
    ensures var payload: Bytes := seq(0x1_0000_0000, i => 0);
      var delivered := Read(Frames([payload])).delivered;
      delivered != [] && delivered[0] == [] && !(delivered <= [payload])
  {
    var payload: Bytes := seq(0x1_0000_0000, i => 0);
    ReadOversize(payload, []);
    assert Frames([payload]) == Frame(payload) + [];
  }

  lemma SurvivePrefix(payloads: seq<Bytes>, more: seq<Bytes>)
    requires LengthsSurvive(more) && payloads <= more
    ensures LengthsSurvive(payloads)
  {
    forall k | 0 <= k < |payloads| && IsFirstOversize(payloads, k) ensures IsFirstOversize(more, k) {
      assert more[..k] == payloads[..k];
    }
  }

  lemma DeliversPrefixOfSent(payloads: seq<Bytes>, stream: Bytes)
    requires LengthsSurvive(payloads) && stream <= Frames(payloads)
    ensures Read(stream).delivered <= payloads
  {
    PrefixDeliversPrefix(stream, Frames(payloads));
    DeliversPrefixExactly(payloads);
  }

  /** The round trip holds for exactly the lists whose payloads are all within the bound. */
  lemma RoundTripExactly(payloads: seq<Bytes>)
    ensures Read(Frames(payloads)).delivered == payloads <==> forall p :: p in payloads ==> |p| <= 1048576
  {
    if forall p :: p in payloads ==> |p| <= MAX_MESSAGE_BYTES {
      RoundTrip(payloads);
    } else {
      var k := FirstOversize(payloads);
      ReadToOversize(payloads, k);
    }
  }

  // ---- The receiving side of the connection ----

  /** The bytes of the frame that is still being read; `bodyLength` is -1 until its header has been. */
  function PendingBytes(bodyLength: int, incoming: Bytes): Bytes {
    if bodyLength >= 0 then HostToNetwork(bodyLength) + incoming else incoming
  }

  function Needed(bodyLength: int): int {
    if bodyLength >= 0 then bodyLength else HEADER
  }

  /** What a reader started afresh would make of the pending bytes is all that is missing from `delivered`. */
  ghost predicate Agrees(stream: Bytes, stopped: bool, delivered: seq<Bytes>, pending: Bytes) {
    if stopped then Read(stream).hungUp && Read(stream).delivered == delivered
    else Read(stream) == After(delivered, Read(pending))
  }

  lemma WaitingReadsNothing(bodyLength: int, incoming: Bytes)
    requires -1 <= bodyLength <= MAX_MESSAGE_BYTES && |incoming| < Needed(bodyLength)
    ensures var pending := PendingBytes(bodyLength, incoming);
      Read(pending) == Reading([], false, pending)
  {
    if bodyLength >= 0 {
      HostOrderRoundTrip(bodyLength);
      assert PendingBytes(bodyLength, incoming)[..HEADER] == HostToNetwork(bodyLength);
    }
  }

  lemma BytesArrive(stream: Bytes, delivered: seq<Bytes>, bodyLength: int, incoming: Bytes, chunk: Bytes)
    requires -1 <= bodyLength <= MAX_MESSAGE_BYTES && |incoming| < Needed(bodyLength)
    requires Agrees(stream, false, delivered, PendingBytes(bodyLength, incoming))
    ensures Agrees(stream + chunk, false, delivered, PendingBytes(bodyLength, incoming + chunk))
  {
    var pending := PendingBytes(bodyLength, incoming);
    WaitingReadsNothing(bodyLength, incoming);
    assert delivered + [] == delivered;
    assert Read(stream) == Reading(delivered, false, pending);
    ReadGoesOn(stream, chunk, delivered, pending);
    PendingGrows(bodyLength, incoming, chunk);
  }

  lemma PendingGrows(bodyLength: int, incoming: Bytes, chunk: Bytes)
    ensures PendingBytes(bodyLength, incoming + chunk) == PendingBytes(bodyLength, incoming) + chunk
  {
    if bodyLength >= 0 {
      assert HostToNetwork(bodyLength) + (incoming + chunk) == HostToNetwork(bodyLength) + incoming + chunk;
    }
  }

  lemma HeaderArrives(incoming: Bytes, stream: Bytes, delivered: seq<Bytes>)
    requires |incoming| >= HEADER && Agrees(stream, false, delivered, incoming)
    ensures var length := NetworkToHost(incoming[..HEADER]);
      if length > MAX_MESSAGE_BYTES then Agrees(stream, true, delivered, incoming)
      else Agrees(stream, false, delivered, PendingBytes(length, incoming[HEADER..]))
  {
    var length := NetworkToHost(incoming[..HEADER]);
    if length > MAX_MESSAGE_BYTES {
      assert delivered + [] == delivered;
    } else {
      NetworkOrderRoundTrip(incoming[..HEADER]);
      assert PendingBytes(length, incoming[HEADER..]) == incoming;
    }
  }

  lemma BodyArrives(bodyLength: nat, incoming: Bytes, stream: Bytes, delivered: seq<Bytes>)
    requires bodyLength <= MAX_MESSAGE_BYTES && |incoming| >= bodyLength
    requires Agrees(stream, false, delivered, PendingBytes(bodyLength, incoming))
    ensures Agrees(stream, false, delivered + [incoming[..bodyLength]], incoming[bodyLength..])
  {
    var body, rest := incoming[..bodyLength], incoming[bodyLength..];
    assert PendingBytes(bodyLength, incoming) == Frame(body) + rest;
    ReadFrame(body, rest);
    AfterAfter(delivered, [body], Read(rest));
  }

  /** The read chain of one connection.  `incoming` are the bytes that have arrived and that no read has
      consumed; `bodyLength` is the decoded length while the second read of a frame is pending. */
  class FrameReader {
    var incoming: Bytes
    var bodyLength: int
    var stopped: bool
    var delivered: seq<Bytes>
    /** Every byte that has arrived. */
    ghost var stream: Bytes

    ghost predicate Valid()
      reads this
    {
      && -1 <= bodyLength <= MAX_MESSAGE_BYTES
      && Agrees(stream, stopped, delivered, PendingBytes(bodyLength, incoming))
    }

    /** The pending read waits for bytes that have not arrived. */
    ghost predicate Settled()
      reads this
    {
      stopped || |incoming| < Needed(bodyLength)
    }

    constructor ()
      ensures Valid() && Settled() && !stopped && stream == [] && delivered == []
    {
      incoming, bodyLength, stopped, delivered, stream := [], -1, false, [], [];
    }

    /** The read of a length completes. */
    method OnHeader()
      requires Valid() && !stopped && bodyLength == -1 && |incoming| >= HEADER
      modifies this`incoming, this`bodyLength, this`stopped
      ensures Valid()
      ensures stopped <==> old(NetworkToHost(incoming[..4])) > 1048576
      ensures var length := HeaderValue(old(incoming)[0], old(incoming)[1], old(incoming)[2], old(incoming)[3]);
        (stopped <==> length > 1048576) && (!stopped ==> bodyLength == length && incoming == old(incoming)[4..])
      ensures if stopped then incoming == old(incoming) else
        bodyLength == old(NetworkToHost(incoming[..HEADER])) && incoming == old(incoming[HEADER..])
    {
      HeaderArrives(incoming, stream, delivered);
      NetworkToHostExactly(incoming[..HEADER]);
      var hostLength := NetworkToHost(incoming[..HEADER]);
      if hostLength > MAX_MESSAGE_BYTES {
        stopped := true;
        return;
      }
      bodyLength := hostLength;
      incoming := incoming[HEADER..];
    }

    /** The read of a payload completes: it is handed on and the next length is awaited. */
    method OnBody()
      requires Valid() && !stopped && bodyLength >= 0 && |incoming| >= bodyLength
      modifies this`incoming, this`bodyLength, this`delivered
      ensures Valid()
      ensures bodyLength == -1 && incoming == old(incoming[bodyLength..])
      ensures delivered == old(delivered) + [old(incoming[..bodyLength])]
    {
      BodyArrives(bodyLength, incoming, stream, delivered);
      delivered := delivered + [incoming[..bodyLength]];
      incoming := incoming[bodyLength..];
      bodyLength := -1;
    }

    /** More bytes arrive and every read that can complete does.  However the stream is cut into chunks, the
        payloads handed on are those of the stream. */
    method Receive(chunk: Bytes)
      requires Valid() && Settled()
      modifies this
      ensures Valid() && Settled()
      ensures stream == old(stream) + chunk
      ensures delivered == Read(stream).delivered
      ensures stopped <==> Read(stream).hungUp
    {
      if stopped {
        ReadResumes(stream, chunk);
      } else {
        BytesArrive(stream, delivered, bodyLength, incoming, chunk);
        incoming := incoming + chunk;
      }
      stream := stream + chunk;
      while !stopped && |incoming| >= Needed(bodyLength)
        invariant Valid() && stream == old(stream) + chunk
        decreases |incoming|, if stopped then 0 else 1, bodyLength + 1
      {
        if bodyLength == -1 {
          OnHeader();
        } else {
          OnBody();
        }
      }
      if !stopped {
        WaitingReadsNothing(bodyLength, incoming);
        assert delivered + [] == delivered;
      }
    }
  }
}
