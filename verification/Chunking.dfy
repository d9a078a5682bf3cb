/**
 * Message framing: the chunker that writes messages to the socket, overwriting bytes it has
 * already sent to build each further chunk header, and the dechunker that reads them back into
 * a reusable, growing buffer.
 */
module Chunking {
  import opened Bytes

  const MAX_CHUNK := 0xffff

  type Message = seq<Byte>

  // ---------------------------------------------------------------------------------------------
  // The format
  // ---------------------------------------------------------------------------------------------

  /** The chunks of one message: full chunks first, then the remainder and the end marker. */
  function Frames(m: Message): (b: seq<Byte>)
    ensures |b| >= |m| + 4
  {
    if |m| <= MAX_CHUNK then BigEndian(|m|, 2) + m + [0, 0]
    else [0xff, 0xff] + m[..MAX_CHUNK] + Frames(m[MAX_CHUNK..])
  }

  function Stream(ms: seq<Message>): seq<Byte>
  {
    if ms == [] then [] else Frames(ms[0]) + Stream(ms[1..])
  }

  /** What `n` no-op chunks look like; a server sends them to keep a connection alive. */
  function Noops(n: nat): seq<Byte>
  {
    if n == 0 then [] else [0, 0] + Noops(n - 1)
  }

  /**
   * The reading side of the format: the first message of `s`, given the bytes `acc` of it that
   * earlier chunks brought, and what follows it. None when the bytes run out first.
   */
  function FirstMessage(s: seq<Byte>, acc: Message): (r: Option<(Message, seq<Byte>)>)
    ensures r.Some? ==> r.value.0 != [] && |r.value.1| < |s|
    decreases |s|
  {
    if |s| < 2 then None else
    var n := FromBigEndian(s[..2]);
    if n == 0 then
      if acc != [] then Some((acc, s[2..])) else FirstMessage(s[2..], acc)
    else if |s| < 2 + n then None
    else FirstMessage(s[2 + n..], acc + s[2..2 + n])
  }

  /** Every complete message of `s`, in order. */
  function AllMessages(s: seq<Byte>): seq<Message>
    decreases |s|
  {
    match FirstMessage(s, [])
    case None => []
    case Some((m, rest)) => [m] + AllMessages(rest)
  }

  function NonEmpty(ms: seq<Message>): seq<Message>
  {
    if ms == [] then []
    else (if ms[0] == [] then [] else [ms[0]]) + NonEmpty(ms[1..])
  }

  lemma {:induction false} ZeroHeader(s: seq<Byte>)
    requires |s| >= 2
    ensures s[0] == 0 && s[1] == 0 ==> FromBigEndian(s[..2]) == 0
  {
    if s[0] == 0 && s[1] == 0 {
      BigEndian2(0);
      assert s[..2] == BigEndian(0, 2);
    }
  }

  lemma {:induction false} FramesRead(m: Message, acc: Message, rest: seq<Byte>)
    requires m != []
    ensures FirstMessage(Frames(m) + rest, acc) == Some((acc + m, rest))
    decreases |m|
  {
    if |m| <= MAX_CHUNK {
      Nested(BigEndian(|m|, 2), m, [0, 0], rest);
      ChunkRead(m, acc, [0, 0] + rest);
      EndRead(acc + m, rest);
    } else {
      var first, more := m[..MAX_CHUNK], m[MAX_CHUNK..];
      BigEndian2(MAX_CHUNK);
      assert BigEndian(MAX_CHUNK, 2) == [0xff, 0xff];
      Nested([0xff, 0xff], first, Frames(more), rest);
      ChunkRead(first, acc, Frames(more) + rest);
      FramesRead(more, acc + first, rest);
      assert acc + m == (acc + first) + more;
    }
  }

  lemma {:induction false} Nested(a: seq<Byte>, b: seq<Byte>, c: seq<Byte>, d: seq<Byte>)
    ensures (a + b + c) + d == a + (b + (c + d))
  {
  }

  lemma {:induction false} EndRead(acc: Message, rest: seq<Byte>)
    requires acc != []
    ensures FirstMessage([0, 0] + rest, acc) == Some((acc, rest))
  {
    ZeroHeader([0, 0] + rest);
    assert ([0, 0] + rest)[2..] == rest;
  }

  /** One chunk is taken off and its bytes added to what came before. */
  lemma {:induction false} ChunkRead(chunk: Message, acc: Message, tail: seq<Byte>)
    requires 0 < |chunk| < 0x1_0000
    ensures FirstMessage(BigEndian(|chunk|, 2) + (chunk + tail), acc) == FirstMessage(tail, acc + chunk)
  {
    var s := BigEndian(|chunk|, 2) + (chunk + tail);
    BigEndian2(|chunk|);
    assert s[..2] == BigEndian(|chunk|, 2);
    assert s[2 + |chunk|..] == tail && s[2..2 + |chunk|] == chunk;
  }

  lemma {:induction false} NoopsSkipped(n: nat, rest: seq<Byte>)
    ensures FirstMessage(Noops(n) + rest, []) == FirstMessage(rest, [])
  {
    var s := Noops(n) + rest;
    if n == 0 {
      assert s == rest;
    } else {
      ZeroHeader(s);
      assert s[2..] == Noops(n - 1) + rest;
      NoopsSkipped(n - 1, rest);
    }
  }

  /** One message written after any number of no-op chunks is read back, and nothing after it. */
  lemma {:induction false} MessageRoundTrip(m: Message, noops: nat, rest: seq<Byte>)
    requires m != []
    ensures FirstMessage(Noops(noops) + (Frames(m) + rest), []) == Some((m, rest))
  {
    NoopsSkipped(noops, Frames(m) + rest);
    FramesRead(m, [], rest);
    assert [] + m == m;
  }

  /** An interleaving of the messages with no-op chunks: `gaps[i]` of them before message `i`. */
  function StreamWithNoops(ms: seq<Message>, gaps: seq<nat>): seq<Byte>
    requires |gaps| == |ms|
  {
    if ms == [] then [] else Noops(gaps[0]) + (Frames(ms[0]) + StreamWithNoops(ms[1..], gaps[1..]))
  }

  /**
   * Reading a stream back gives exactly the messages written, in order, whatever no-op chunks
   * stand between them. A message with no bytes is itself two no-op chunks and disappears.
   */
  lemma {:induction false} StreamRoundTrip(ms: seq<Message>, gaps: seq<nat>)
    requires |gaps| == |ms|
    ensures AllMessages(StreamWithNoops(ms, gaps)) == NonEmpty(ms)
    decreases |ms|
  {
    if ms == [] {
    } else {
      var rest := StreamWithNoops(ms[1..], gaps[1..]);
      StreamRoundTrip(ms[1..], gaps[1..]);
      if ms[0] == [] {
        BigEndian2(0);
        assert Frames([]) == Noops(2) by { assert Noops(2) == [0, 0] + Noops(1); assert Noops(1) == [0, 0] + Noops(0); }
        NoopsSkipped(gaps[0], Noops(2) + rest);
        NoopsSkipped(2, rest);
      } else {
        MessageRoundTrip(ms[0], gaps[0], rest);
      }
    }
  }

  lemma {:induction false} StreamIsGapless(ms: seq<Message>)
    ensures StreamWithNoops(ms, seq(|ms|, _ => 0)) == Stream(ms)
  {
    if ms == [] {
    } else {
      StreamIsGapless(ms[1..]);
      assert seq(|ms|, _ => 0)[1..] == seq(|ms| - 1, _ => 0);
    }
  }

  // ---------------------------------------------------------------------------------------------
  // The writer
  // ---------------------------------------------------------------------------------------------

  /** The socket's writing half: it takes `capacity` more bytes and then fails. */
  class Writer {
    var accepted: seq<Byte>
    var capacity: nat

    constructor (capacity: nat)
      ensures accepted == [] && this.capacity == capacity
    {
      accepted, this.capacity := [], capacity;
    }

    method Write(b: seq<Byte>) returns (ok: bool)
      modifies this
      ensures ok == (|b| <= old(capacity))
      ensures ok ==> accepted == old(accepted) + b
      ensures !ok ==> accepted == old(accepted) + b[..old(capacity)]
    {
      ok := |b| <= capacity;
      if ok {
        accepted, capacity := accepted + b, capacity - |b|;
      } else {
        accepted, capacity := accepted + b[..capacity], 0;
      }
    }
  }

  /** The chunker's buffer before sending: every payload between two bytes of room on each side. */
  function Layout(ms: seq<Message>): seq<Byte>
  {
    if ms == [] then [] else [0, 0] + ms[0] + [0, 0] + Layout(ms[1..])
  }

  function Sizes(ms: seq<Message>): (s: seq<nat>)
    ensures |s| == |ms|
    ensures forall i :: 0 <= i < |ms| ==> s[i] == |ms[i]|
  {
    seq(|ms|, i requires 0 <= i < |ms| => |ms[i]|)
  }

  lemma {:induction false} LayoutSnoc(ms: seq<Message>, m: Message)
    ensures Layout(ms + [m]) == Layout(ms) + [0, 0] + m + [0, 0]
  {
    if ms == [] {
      assert ms + [m] == [m];
      assert Layout([m]) == [0, 0] + m + [0, 0] + Layout([m][1..]);
    } else {
      assert (ms + [m])[1..] == ms[1..] + [m];
      LayoutSnoc(ms[1..], m);
      assert Layout(ms + [m]) == [0, 0] + ms[0] + [0, 0] + Layout(ms[1..] + [m]);
      Regrouped([0, 0] + ms[0] + [0, 0], Layout(ms[1..]), [0, 0], m);
    }
  }

  lemma {:induction false} Regrouped(a: seq<Byte>, b: seq<Byte>, c: seq<Byte>, d: seq<Byte>)
    ensures a + (b + c + d + c) == (a + b) + c + d + c
  {
  }

  lemma {:induction false} SizesSnoc(ms: seq<Message>, m: Message)
    ensures Sizes(ms + [m]) == Sizes(ms) + [|m|]
  {
    forall i | 0 <= i < |ms| + 1
      ensures Sizes(ms + [m])[i] == (Sizes(ms) + [|m|])[i]
    {
    }
  }

  predicate IsPrefix(a: seq<Byte>, b: seq<Byte>)
  {
    |a| <= |b| && a == b[..|a|]
  }

  /** `buf` with `n` written as the two header bytes at `at`. */
  function WithHeader(buf: seq<Byte>, at: nat, n: nat): (r: seq<Byte>)
    requires at + 2 <= |buf| && n < 0x1_0000
    ensures |r| == |buf| && r[..at] == buf[..at] && r[at..at + 2] == BigEndian(n, 2) && r[at + 2..] == buf[at + 2..]
  {
    BigEndian2(n);
    buf[at := n / 0x100][at + 1 := n % 0x100]
  }

  /** Writing a header in front of the next `n` bytes of a payload makes them a chunk. */
  lemma {:induction false} ChunkInPlace(buf: seq<Byte>, start: nat, at: nat, n: nat, left: Message, tail: seq<Byte>)
    requires start <= at && at + 2 <= |buf| && buf[at + 2..] == left + tail && n <= |left| && n < 0x1_0000
    ensures var b := WithHeader(buf, at, n);
            && b[start..at + 2 + n] == buf[start..at] + (BigEndian(n, 2) + left[..n])
            && b[at + 2 + n..] == left[n..] + tail
  {
    var b := WithHeader(buf, at, n);
    assert b[start..at] == buf[start..at] by { assert b[..at][start..] == buf[..at][start..]; }
    assert b[at + 2..at + 2 + n] == left[..n] by { assert b[at + 2..][..n] == (left + tail)[..n]; }
    assert b[start..at + 2 + n] == b[start..at] + b[at..at + 2] + b[at + 2..at + 2 + n];
    assert b[at + 2 + n..] == b[at + 2..][n..] == (left + tail)[n..];
  }

  /** A write that fails part way leaves a prefix of the whole stream on the wire. */
  lemma {:induction false} PartialWrite(before: seq<Byte>, sent: seq<Byte>, b: seq<Byte>, n: nat, rest: seq<Byte>, goal: seq<Byte>)
    requires n <= |b| && sent + b + rest == goal
    ensures IsPrefix(sent + b[..n], goal)
    ensures before + sent + b[..n] == before + (sent + b[..n])
    ensures before + sent + b == before + (sent + b)
  {
    assert goal[..|sent| + n] == sent + b[..n];
  }

  lemma {:induction false} Regroup(a: seq<Byte>, b: seq<Byte>, c: seq<Byte>, d: seq<Byte>, e: seq<Byte>)
    ensures a + b + ((c + d) + e) == a + (b + c) + (d + e)
  {
    assert a + b + ((c + d) + e) == a + (b + c) + (d + e);
  }

  lemma {:induction false} RegroupLast(a: seq<Byte>, b: seq<Byte>, c: seq<Byte>, d: seq<Byte>)
    ensures a + b + (c + d) == a + (b + c) + d
  {
    assert a + b + (c + d) == a + (b + c) + d;
  }

  lemma {:induction false} LayoutHead(ms: seq<Message>, i: nat, buf: seq<Byte>, end: nat)
    requires i < |ms| && end <= |buf| && buf[end..] == Layout(ms[i..])
    ensures end + 2 <= |buf| && buf[end + 2..] == ms[i] + ([0, 0] + Layout(ms[i + 1..]))
    ensures Stream(ms[i..]) == Frames(ms[i]) + Stream(ms[i + 1..])
  {
    assert ms[i..][1..] == ms[i + 1..];
    assert buf[end..] == [0, 0] + ms[i] + [0, 0] + Layout(ms[i + 1..]);
    assert buf[end + 2..] == buf[end..][2..];
  }

  lemma {:induction false} FullChunkSent(sent: seq<Byte>, pending: seq<Byte>, left: Message, later: seq<Byte>, goal: seq<Byte>)
    requires |left| > MAX_CHUNK && sent + pending + (Frames(left) + later) == goal
    ensures sent + (pending + (BigEndian(MAX_CHUNK, 2) + left[..MAX_CHUNK])) + (Frames(left[MAX_CHUNK..]) + later) == goal
  {
    BigEndian2(MAX_CHUNK);
    Regroup(sent, pending, BigEndian(MAX_CHUNK, 2) + left[..MAX_CHUNK], Frames(left[MAX_CHUNK..]), later);
  }

  lemma {:induction false} MessageInPlace(buf: seq<Byte>, start: nat, at: nat, pending: seq<Byte>, chunk: seq<Byte>, later: seq<Byte>)
    requires start <= at <= |buf|
    requires buf[start..at] == pending + chunk
    requires buf[at..] == [] + ([0, 0] + later)
    ensures at + 2 <= |buf| && buf[start..at + 2] == pending + (chunk + [0, 0]) && buf[at + 2..] == later
  {
    assert buf[at..] == [0, 0] + later;
    assert buf[at] == 0 && buf[at + 1] == 0;
    assert buf[start..at + 2] == buf[start..at] + [0, 0];
    assert pending + chunk + [0, 0] == pending + (chunk + [0, 0]);
    assert buf[at + 2..] == buf[at..][2..];
  }

  class Chunker {
    var buf: seq<Byte>
    var sizes: seq<nat>
    var offset: nat
    /** The complete messages waiting to be sent. */
    ghost var messages: seq<Message>

    ghost predicate Valid()
      reads this
    {
      && buf == Layout(messages)
      && sizes == Sizes(messages)
      && offset == |buf|
    }

    /** Between `BeginMessage` and `EndMessage`, with `payload` packed so far. */
    ghost predicate Open(payload: Message)
      reads this
    {
      && buf == Layout(messages) + [0, 0] + payload
      && sizes == Sizes(messages)
      && offset == |Layout(messages)| + 2
    }

    constructor ()
      ensures Valid() && messages == []
    {
      buf, sizes, offset, messages := [], [], 0, [];
      new;
      assert sizes == Sizes(messages);
    }

    method BeginMessage()
      requires Valid()
      modifies this
      ensures Open([]) && messages == old(messages)
    {
      buf := buf + [0, 0];
      offset := offset + 2;
      assert buf == Layout(messages) + [0, 0] + [];
    }

    /** The packer appending to the chunker's own buffer. */
    method Append(b: seq<Byte>, ghost payload: Message)
      requires Open(payload)
      modifies this
      ensures Open(payload + b) && messages == old(messages)
    {
      buf := buf + b;
      assert buf == Layout(messages) + [0, 0] + (payload + b);
    }

    method EndMessage(ghost payload: Message)
      requires Open(payload)
      modifies this
      ensures Valid() && messages == old(messages) + [payload]
    {
      var size := |buf| - offset;
      offset := offset + size;
      sizes := sizes + [size];
      buf := buf + [0, 0];
      offset := offset + 2;
      LayoutSnoc(messages, payload);
      SizesSnoc(messages, payload);
      messages := messages + [payload];
    }

    /**
     * The inner loop of `Send`: writes every full chunk of the message whose header belongs at
     * `end0`, reusing the last two bytes already on the wire as room for the next header.
     * `left` is what remains of the message, `tail` what follows it in the buffer, `sent` what
     * this `Send` has written, and `later` the stream still to come after this message.
     */
    method SendFullChunks(wr: Writer, start0: nat, end0: nat, size0: nat, ghost left0: Message, ghost tail: seq<Byte>,
                          ghost before: seq<Byte>, ghost sent0: seq<Byte>, ghost later: seq<Byte>, ghost goal: seq<Byte>)
      returns (ok: bool, start: nat, end: nat, size: nat, ghost left: Message, ghost sent: seq<Byte>)
      requires size0 == |left0| && start0 <= end0 && end0 + 2 <= |buf| && buf[end0 + 2..] == left0 + tail
      requires wr.accepted == before + sent0
      requires sent0 + buf[start0..end0] + (Frames(left0) + later) == goal
      modifies this`buf, wr
      ensures ok ==> |left| == size <= MAX_CHUNK && start <= end && end + 2 <= |buf| && buf[end + 2..] == left + tail
      ensures ok ==> wr.accepted == before + sent && sent + buf[start..end] + (Frames(left) + later) == goal
      ensures !ok ==> IsPrefix(sent, goal) && wr.accepted == before + sent
    {
      start, end, size, left, sent := start0, end0, size0, left0, sent0;
      while size > MAX_CHUNK
        invariant size == |left| && 0 <= start <= end && end + 2 <= |buf|
        invariant wr.accepted == before + sent
        invariant sent + buf[start..end] + (Frames(left) + later) == goal
        invariant buf[end + 2..] == left + tail
      {
        ChunkInPlace(buf, start, end, MAX_CHUNK, left, tail);
        FullChunkSent(sent, buf[start..end], left, later, goal);
        buf := WithHeader(buf, end, MAX_CHUNK);
        end := end + 2 + MAX_CHUNK;
        left := left[MAX_CHUNK..];
        ghost var room := wr.capacity;
        var written := wr.Write(buf[start..end]);
        if !written {
          PartialWrite(before, sent, buf[start..end], room, Frames(left) + later, goal);
          sent := sent + buf[start..end][..room];
          return false, start, end, size, left, sent;
        }
        sent := sent + buf[start..end];
        end := end - 2;
        start := end;
        size := size - MAX_CHUNK;
        assert sent + buf[start..end] == sent;
      }
      ok := true;
    }

    /** The header, payload and end marker of a last chunk, put in place in the buffer. */
    method PutLastChunk(start: nat, end0: nat, size: nat, ghost left: Message, ghost layout: seq<Byte>) returns (end: nat)
      requires size == |left| <= MAX_CHUNK && start <= end0 && end0 + 2 <= |buf|
      requires buf[end0 + 2..] == left + ([0, 0] + layout)
      modifies this`buf
      ensures start <= end <= |buf| && buf[start..end] == old(buf)[start..end0] + Frames(left) && buf[end..] == layout
    {
      ChunkInPlace(buf, start, end0, size, left, [0, 0] + layout);
      ghost var pending := buf[start..end0];
      buf := WithHeader(buf, end0, size);
      assert left[..size] == left && left[size..] == [];
      MessageInPlace(buf, start, end0 + 2 + size, pending, BigEndian(size, 2) + left, layout);
      end := end0 + 2 + size + 2;
    }

    /**
     * Sends everything queued in as few writes as possible. What reaches the socket is the chunk
     * stream of the queued messages, or a prefix of it when a write fails.
     */
    method Send(wr: Writer) returns (ok: bool)
      requires Valid()
      modifies this, wr
      ensures ok ==> wr.accepted == old(wr.accepted) + Stream(old(messages))
      ensures ok ==> Valid() && messages == []
      ensures !ok ==> exists sent :: IsPrefix(sent, Stream(old(messages))) && wr.accepted == old(wr.accepted) + sent
    {
      ghost var before, goal := wr.accepted, Stream(messages);
      ghost var sent: seq<Byte> := [];
      var start, end, i := 0, 0, 0;
      assert messages[0..] == messages;
      while i < |sizes|
        invariant 0 <= i <= |sizes| && sizes == Sizes(messages) && messages == old(messages)
        invariant 0 <= start <= end <= |buf|
        invariant wr.accepted == before + sent
        invariant sent + buf[start..end] + Stream(messages[i..]) == goal
        invariant buf[end..] == Layout(messages[i..])
      {
        var size := sizes[i];
        ghost var left, later := messages[i], messages[i + 1..];
        LayoutHead(messages, i, buf, end);
        ok, start, end, size, left, sent :=
          SendFullChunks(wr, start, end, size, left, [0, 0] + Layout(later), before, sent, Stream(later), goal);
        if !ok { return; }
        ghost var pending := buf[start..end];
        end := PutLastChunk(start, end, size, left, Layout(later));
        RegroupLast(sent, pending, Frames(left), Stream(later));
        i := i + 1;
      }
      assert messages[i..] == [];
      if end > start {
        ghost var room := wr.capacity;
        ok := wr.Write(buf[start..end]);
        PartialWrite(before, sent, buf[start..end], if ok then 0 else room, [], goal);
        if !ok {
          sent := sent + buf[start..end][..room];
          assert IsPrefix(sent, goal) && wr.accepted == before + sent;
          return;
        }
      }
      assert sent + buf[start..end] == goal;
      offset, buf, sizes, messages := 0, [], [], [];
      ok := true;
      assert sizes == Sizes(messages);
    }
  }

  /** The chunker and the dechunker agree: what `Send` puts on the wire reads back as the messages. */
  lemma {:induction false} SendThenReceive(ms: seq<Message>)
    ensures AllMessages(Stream(ms)) == NonEmpty(ms)
  {
    StreamIsGapless(ms);
    StreamRoundTrip(ms, seq(|ms|, _ => 0));
  }

  // ---------------------------------------------------------------------------------------------
  // The reader
  // ---------------------------------------------------------------------------------------------

  /** The socket's reading half: the bytes still to come before it fails. */
  class Reader {
    var input: seq<Byte>

    constructor (input: seq<Byte>)
      ensures this.input == input
    {
      this.input := input;
    }

    method ReadFull(n: nat) returns (ok: bool, b: seq<Byte>)
      modifies this
      ensures ok == (n <= |old(input)|)
      ensures ok ==> b == old(input)[..n] && input == old(input)[n..]
    {
      ok := n <= |input|;
      if ok {
        b, input := input[..n], input[n..];
      } else {
        b, input := input, [];
      }
    }
  }

  /**
   * The message bytes after the buffer holding them has been replaced by a larger one. Only the
   * slice's length is copied, so bytes read beyond it into the spare capacity become zero.
   */
  function Grown(acc: Message, len: nat): (r: Message)
    ensures |r| == |acc|
    ensures len >= |acc| ==> r == acc
  {
    seq(|acc|, i requires 0 <= i < |acc| => if i < len then acc[i] else 0)
  }

  /** `FirstMessage` as computed with a reusable buffer of length `len` and capacity `cap`. */
  function Dechunked(s: seq<Byte>, acc: Message, len: nat, cap: nat): (r: Option<(Message, seq<Byte>)>)
    decreases |s|
  {
    if |s| < 2 then None else
    var n := FromBigEndian(s[..2]);
    if n == 0 then
      if acc != [] then Some((acc, s[2..])) else Dechunked(s[2..], acc, len, cap)
    else
      var grow := |acc| + n > cap;
      var size := |acc| + n + 4096;
      if |s| < 2 + n then None
      else if grow then Dechunked(s[2 + n..], Grown(acc, len) + s[2..2 + n], size, size)
      else Dechunked(s[2 + n..], acc + s[2..2 + n], len, cap)
  }

  /** A buffer with no spare capacity is never damaged by growing. */
  lemma {:induction false} FullBufferIsSafe(s: seq<Byte>, acc: Message, cap: nat)
    requires |acc| <= cap
    ensures Dechunked(s, acc, cap, cap) == FirstMessage(s, acc)
    decreases |s|
  {
    if |s| < 2 {
    } else {
      var n := FromBigEndian(s[..2]);
      if n == 0 {
        if acc == [] { FullBufferIsSafe(s[2..], acc, cap); }
      } else if |s| >= 2 + n {
        var size := |acc| + n + 4096;
        FullBufferIsSafe(s[2 + n..], acc + s[2..2 + n], if |acc| + n > cap then size else cap);
      }
    }
  }

  /** `n` chunks of a single byte each. */
  function Ones(n: nat): seq<Byte>
  {
    if n == 0 then [] else [0, 1, 1] + Ones(n - 1)
  }

  lemma {:induction false} OneHeader(s: seq<Byte>)
    requires |s| >= 2 && s[0] == 0 && s[1] == 1
    ensures FromBigEndian(s[..2]) == 1
  {
    BigEndian2(1);
    assert s[..2] == BigEndian(1, 2);
  }

  /** Filling the spare capacity and then growing zeroes a byte that had been received. */
  lemma {:induction false} SpareCapacityLosesBytes(n: nat, acc: Message, len: nat, cap: nat)
    requires len < cap && |acc| + n == cap + 1 && n > 0
    requires forall i :: 0 <= i < |acc| ==> acc[i] == 1
    ensures var s := Ones(n) + [0, 0];
            && Dechunked(s, acc, len, cap).Some? && |Dechunked(s, acc, len, cap).value.0| == cap + 1
            && Dechunked(s, acc, len, cap).value.0[len] == 0
            && FirstMessage(s, acc).Some? && |FirstMessage(s, acc).value.0| == cap + 1
            && FirstMessage(s, acc).value.0[len] == 1
  {
    var s := Ones(n) + [0, 0];
    OneHeader(s);
    assert s[3..] == Ones(n - 1) + [0, 0];
    assert s[2..3] == [1];
    if n == 1 {
      assert s[3..] == [0, 0];
      ZeroHeader(s[3..]);
    } else {
      SpareCapacityLosesBytes(n - 1, acc + [1], len, cap);
    }
  }

  /**
   * The dechunker is right on every byte stream exactly when the buffer it is given has no spare
   * capacity, which is how the connection allocates its first buffer and how growth replaces it.
   */
  lemma {:induction false} BufferMustBeFull(len: nat, cap: nat)
    requires len <= cap
    ensures (forall s :: Dechunked(s, [], len, cap) == FirstMessage(s, [])) <==> len == cap
  {
    if len == cap {
      forall s ensures Dechunked(s, [], len, cap) == FirstMessage(s, []) {
        FullBufferIsSafe(s, [], cap);
      }
    } else {
      SpareCapacityLosesBytes(cap + 1, [], len, cap);
      var s := Ones(cap + 1) + [0, 0];
      assert Dechunked(s, [], len, cap) != FirstMessage(s, []);
    }
  }

  /**
   * Reads one message. `store` and `len` are the reusable buffer's array and slice length; the
   * returned pair is the buffer to use next, and on success `store[..off]` is the message.
   */
  method DechunkMessage(r: Reader, store0: array<Byte>, len0: nat)
    returns (ok: bool, store: array<Byte>, len: nat, off: nat)
    requires len0 <= store0.Length
    modifies r, store0
    ensures len <= store.Length && off <= store.Length
    ensures store == store0 || fresh(store)
    ensures len0 == store0.Length ==> len == store.Length
    ensures ok ==> Dechunked(old(r.input), [], len0, store0.Length) == Some((store[..off], r.input))
    ensures !ok ==> Dechunked(old(r.input), [], len0, store0.Length) == None
  {
    store, len, off := store0, len0, 0;
    ghost var goal := Dechunked(r.input, [], len0, store0.Length);
    assert store[..0] == [];
    while true
      invariant len <= store.Length && off <= store.Length
      invariant store == store0 || fresh(store)
      invariant len0 == store0.Length ==> len == store.Length
      invariant Dechunked(r.input, store[..off], len, store.Length) == goal
      modifies r, store0, store
      decreases |r.input|
    {
      ghost var s := r.input;
      var sizeOk, sizeBuf := r.ReadFull(2);
      if !sizeOk { return false, store, len, off; }
      var chunkSize := FromBigEndian(sizeBuf);
      if chunkSize == 0 {
        if off > 0 { return true, store, len, off; }
        continue;
      }
      DechunkedChunk(s, store[..off], len, store.Length);
      if off + chunkSize > store.Length {
        store, len := Enlarge(store, len, off, off + chunkSize + 4096);
      }
      var readOk, chunk := r.ReadFull(chunkSize);
      if !readOk { return false, store, len, off; }
      Fill(store, off, chunk);
      off := off + chunkSize;
    }
  }

  /** One non-empty chunk of `Dechunked`, unfolded. */
  lemma {:induction false} DechunkedChunk(s: seq<Byte>, acc: Message, len: nat, cap: nat)
    requires |s| >= 2 && FromBigEndian(s[..2]) != 0
    ensures var n, rest := FromBigEndian(s[..2]), s[2..];
            var size := |acc| + n + 4096;
            Dechunked(s, acc, len, cap) ==
            if |rest| < n then None
            else if |acc| + n > cap then Dechunked(rest[n..], Grown(acc, len) + rest[..n], size, size)
            else Dechunked(rest[n..], acc + rest[..n], len, cap)
  {
    var n, rest := FromBigEndian(s[..2]), s[2..];
    if |rest| >= n {
      assert s[2 + n..] == rest[n..];
      assert s[2..2 + n] == rest[..n];
    }
  }

  method Fill(store: array<Byte>, off: nat, b: seq<Byte>)
    requires off + |b| <= store.Length
    modifies store
    ensures store[..off + |b|] == old(store[..off]) + b
  {
    forall i | 0 <= i < |b| { store[off + i] := b[i]; }
  }

  method Enlarge(store0: array<Byte>, len0: nat, ghost off: nat, size: nat) returns (store: array<Byte>, len: nat)
    requires len0 <= store0.Length <= size && off <= store0.Length
    ensures fresh(store) && store.Length == len == size
    ensures store[..off] == Grown(store0[..off], len0)
  {
    store, len := new Byte[size](_ => 0), size;
    forall i | 0 <= i < len0 { store[i] := store0[i]; }
  }

  /** Repeated calls with the connection's own buffer return every message, in order. */
  method DechunkAll(r: Reader) returns (ms: seq<Message>)
    modifies r
    ensures ms == AllMessages(old(r.input))
  {
    var store, len := new Byte[4096](_ => 0), 4096;
    ms := [];
    while true
      invariant fresh(store) && len == store.Length
      invariant AllMessages(old(r.input)) == ms + AllMessages(r.input)
      modifies r, store
      decreases |r.input|
    {
      FullBufferIsSafe(r.input, [], len);
      ghost var s := r.input;
      var ok, off;
      ok, store, len, off := DechunkMessage(r, store, len);
      if !ok { return; }
      assert AllMessages(s) == [store[..off]] + AllMessages(r.input);
      ms := ms + [store[..off]];
    }
  }

  // ---------------------------------------------------------------------------------------------
  // End to end
  // ---------------------------------------------------------------------------------------------

  /** A message that is there is there whatever more follows. */
  lemma {:induction false} FirstMessageMore(s: seq<Byte>, acc: Message, q: seq<Byte>)
    requires FirstMessage(s, acc).Some?
    ensures FirstMessage(s + q, acc) == Some((FirstMessage(s, acc).value.0, FirstMessage(s, acc).value.1 + q))
    decreases |s|
  {
    var n := FromBigEndian(s[..2]);
    assert (s + q)[..2] == s[..2] && (s + q)[2..] == s[2..] + q;
    if n == 0 {
      if acc == [] { FirstMessageMore(s[2..], acc, q); }
    } else {
      assert (s + q)[2 + n..] == s[2 + n..] + q && (s + q)[2..2 + n] == s[2..2 + n];
      FirstMessageMore(s[2 + n..], acc + s[2..2 + n], q);
    }
  }

  /** Of a stream cut short, the complete messages are the first ones of the whole. */
  lemma {:induction false} CutShort(s: seq<Byte>, q: seq<Byte>)
    ensures AllMessages(s) <= AllMessages(s + q)
    decreases |s|
  {
    if FirstMessage(s, []).Some? {
      FirstMessageMore(s, [], q);
      CutShort(FirstMessage(s, []).value.1, q);
    }
  }

  method Queue(c: Chunker, ms: seq<Message>)
    requires c.Valid() && c.messages == []
    modifies c
    ensures c.Valid() && c.messages == ms
  {
    for i := 0 to |ms|
      invariant c.Valid() && c.messages == ms[..i]
    {
      c.BeginMessage();
      c.Append(ms[i], []);
      c.EndMessage([] + ms[i]);
      assert [] + ms[i] == ms[i] && ms[..i + 1] == ms[..i] + [ms[i]];
    }
    assert ms[..|ms|] == ms;
  }

  method Transmit(ms: seq<Message>, capacity: nat) returns (ok: bool, wire: seq<Byte>)
    ensures IsPrefix(wire, Stream(ms)) && (ok ==> wire == Stream(ms))
  {
    var c := new Chunker();
    var wr := new Writer(capacity);
    Queue(c, ms);
    ok := c.Send(wr);
    wire := wr.accepted;
    if ok {
      assert [] + Stream(ms) == Stream(ms);
    } else {
      ghost var sent :| IsPrefix(sent, Stream(ms)) && wr.accepted == [] + sent;
      assert [] + sent == sent;
    }
  }

  lemma {:induction false} Arrives(ms: seq<Message>, wire: seq<Byte>)
    requires IsPrefix(wire, Stream(ms))
    ensures AllMessages(wire) <= NonEmpty(ms) && (wire == Stream(ms) ==> AllMessages(wire) == NonEmpty(ms))
  {
    SendThenReceive(ms);
    assert wire + Stream(ms)[|wire|..] == Stream(ms);
    CutShort(wire, Stream(ms)[|wire|..]);
  }

  /**
   * Chunker, socket and dechunker together, for any messages and a socket that takes only so many
   * bytes: all that are not empty arrive in order, or if a write fails the first ones do.
   */
  method SendAndReceive(ms: seq<Message>, capacity: nat) returns (ok: bool, received: seq<Message>)
    ensures ok ==> received == NonEmpty(ms)
    ensures !ok ==> received <= NonEmpty(ms)
  {
    var wire;
    ok, wire := Transmit(ms, capacity);
    Arrives(ms, wire);
    var r := new Reader(wire);
    received := DechunkAll(r);
  }
}
