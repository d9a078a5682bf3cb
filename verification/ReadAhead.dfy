/**
 * The socket that reads ahead. A goroutine reads into one buffer and hands out slices of it; two
 * channels pass a single token that says who may use the buffer. Each channel operation is one step
 * here, a socket read is another, and Close may come between any two.
 */
module ReadAhead {
  import opened Bytes

  /** A slice of the shared buffer, with the error the socket gave along with those bytes. */
  datatype Read = Read(off: nat, len: nat, err: bool)

  /** Where the goroutine is: at its select, inside the socket's Read, about to send, or gone. */
  datatype Reader = AtSelect | Reading | Sending(n: nat, err: bool) | Gone

  /** Where the one caller is; `room` is the length of the slice it gave to Read. */
  datatype Client =
    | Outside
    | ReadEntered(room: nat)
    | ReadWaiting(room: nat)
    | Copying(room: nat, read: Read)
    | PuttingBack(copied: seq<Byte>, rest: Read)
    | Asking(copied: seq<Byte>, err: bool)
    | AliveEntered
    | AliveLooking
    | AlivePuttingBack(read: Read)

  /** What passes from the socket to the caller: bytes, and errors in their place among them. */
  datatype Item = Data(b: Byte) | Failure

  /**
   * The channels are sequences of capacity one. `delivered` is all the socket has delivered and
   * `returned` all that calls of Read have returned; `answer` is what peerAlive said last.
   */
  datatype State = State(
    buffer: seq<Byte>, pending: seq<Read>, wantRead: nat, done: bool, reader: Reader, client: Client,
    delivered: seq<Item>, returned: seq<Item>, answer: Option<bool>)

  const DEFAULT_SIZE := 8192

  function Items(bytes: seq<Byte>, err: bool): seq<Item>
  {
    if bytes != [] then [Data(bytes[0])] + Items(bytes[1..], err) else if err then [Failure] else []
  }

  function Init(size: int): State
  {
    State(seq(if size <= 0 then DEFAULT_SIZE else size, _ => 0), [], 1, false, AtSelect, Outside, [], [], None)
  }

  datatype Step =
    | TakeWantRead
    | Quit
    | SocketRead(buffer: seq<Byte>, n: nat, err: bool)
    | SendPending
    | CallRead(room: nat)
    | ReadEnter
    | ReadTake
    | ReadClosed
    | Copy
    | ReadPutBack
    | ReadAsk
    | CallAlive
    | AliveEnter
    | AliveLook
    | AlivePutBack
    | Close

  /** Whether a step can be taken. A send on a full channel cannot: it would block. */
  predicate Enabled(s: State, a: Step)
  {
    match a
    case TakeWantRead => s.reader == AtSelect && s.wantRead > 0
    case Quit => s.reader == AtSelect && s.done
    case SocketRead(buffer, n, _) => s.reader == Reading && |buffer| == |s.buffer| && n <= |buffer|
    case SendPending => s.reader.Sending? && s.pending == []
    case CallRead(_) => s.client == Outside
    case ReadEnter => s.client.ReadEntered?
    case ReadTake => s.client.ReadWaiting? && s.pending != []
    case ReadClosed => s.client.ReadWaiting? && s.done
    case Copy => s.client.Copying?
    case ReadPutBack => s.client.PuttingBack? && s.pending == []
    case ReadAsk => s.client.Asking? && s.wantRead == 0
    case CallAlive => s.client == Outside
    case AliveEnter => s.client == AliveEntered
    case AliveLook => s.client == AliveLooking
    case AlivePutBack => s.client.AlivePuttingBack? && s.pending == []
    case Close => true
  }

  predicate InBuffer(s: State, r: Read)
  {
    r.off + r.len <= |s.buffer|
  }

  predicate Ranges(s: State)
  {
    && (forall i :: 0 <= i < |s.pending| ==> InBuffer(s, s.pending[i]))
    && (s.client.Copying? ==> InBuffer(s, s.client.read))
    && (s.client.PuttingBack? ==> InBuffer(s, s.client.rest))
    && (s.client.AlivePuttingBack? ==> InBuffer(s, s.client.read))
    && (s.reader.Sending? ==> s.reader.n <= |s.buffer|)
  }

  function Apply(s: State, a: Step): State
    requires Enabled(s, a) && Ranges(s)
  {
    match a
    case TakeWantRead => s.(wantRead := s.wantRead - 1, reader := Reading)
    case Quit => s.(reader := Gone)
    case SocketRead(buffer, n, err) =>
      s.(buffer := buffer, reader := Sending(n, err), delivered := s.delivered + Items(buffer[..n], err))
    case SendPending => s.(pending := [Read(0, s.reader.n, s.reader.err)], reader := AtSelect)
    case CallRead(room) => s.(client := ReadEntered(room))
    case ReadEnter => s.(client := if s.done then Outside else ReadWaiting(s.client.room))
    case ReadTake => s.(pending := s.pending[1..], client := Copying(s.client.room, s.pending[0]))
    case ReadClosed => s.(client := Outside)
    case Copy =>
      var r := s.client.read;
      var n := if s.client.room < r.len then s.client.room else r.len;
      var copied := s.buffer[r.off..r.off + n];
      s.(client := if n < r.len then PuttingBack(copied, Read(r.off + n, r.len - n, r.err)) else Asking(copied, r.err))
    case ReadPutBack =>
      s.(pending := [s.client.rest], client := Outside, returned := s.returned + Items(s.client.copied, false))
    case ReadAsk =>
      s.(wantRead := 1, client := Outside, returned := s.returned + Items(s.client.copied, s.client.err))
    case CallAlive => s.(client := AliveEntered)
    case AliveEnter => if s.done then s.(client := Outside, answer := Some(false)) else s.(client := AliveLooking)
    case AliveLook =>
      if s.pending == [] then s.(client := Outside, answer := Some(true))
      else s.(pending := s.pending[1..], client := AlivePuttingBack(s.pending[0]))
    case AlivePutBack => s.(pending := [s.client.read], client := Outside, answer := Some(!s.client.read.err))
    case Close => s.(done := true)
  }

  // ---------------------------------------------------------------------------------------------
  // The invariant
  // ---------------------------------------------------------------------------------------------

  predicate ReaderHas(s: State)
  {
    s.reader == Reading || s.reader.Sending?
  }

  predicate ClientHas(s: State)
  {
    s.client.Copying? || s.client.PuttingBack? || s.client.Asking? || s.client.AlivePuttingBack?
  }

  /** How many tokens there are: in the two channels, with the goroutine and with the caller. */
  function Tokens(s: State): nat
  {
    s.wantRead + |s.pending| + (if ReaderHas(s) then 1 else 0) + (if ClientHas(s) then 1 else 0)
  }

  function ReadItems(s: State, r: Read): seq<Item>
    requires InBuffer(s, r)
  {
    Items(s.buffer[r.off..r.off + r.len], r.err)
  }

  /** What has been delivered and not yet returned: it is where the token is. */
  function Unread(s: State): seq<Item>
    requires Ranges(s)
  {
    match s.client
    case Copying(_, r) => ReadItems(s, r)
    case PuttingBack(copied, r) => Items(copied, false) + ReadItems(s, r)
    case Asking(copied, err) => Items(copied, err)
    case AlivePuttingBack(r) => ReadItems(s, r)
    case _ =>
      if s.pending != [] then ReadItems(s, s.pending[0])
      else if s.reader.Sending? then ReadItems(s, Read(0, s.reader.n, s.reader.err))
      else []
  }

  predicate Inv(s: State)
  {
    && Ranges(s)
    && Tokens(s) == 1
    && s.delivered == s.returned + Unread(s)
    && (s.reader == Gone ==> s.done)
    && |s.buffer| > 0
  }

  lemma {:induction false} ItemsSplit(bytes: seq<Byte>, n: nat, err: bool)
    requires n <= |bytes|
    ensures Items(bytes[..n], false) + Items(bytes[n..], err) == Items(bytes, err)
  {
    if n == 0 {
      assert bytes[..0] == [] && bytes[0..] == bytes;
    } else {
      ItemsSplit(bytes[1..], n - 1, err);
      assert bytes[..n][1..] == bytes[1..][..n - 1] && bytes[1..][n - 1..] == bytes[n..];
    }
  }

  lemma {:induction false} SliceSplit(buffer: seq<Byte>, r: Read, n: nat)
    requires r.off + r.len <= |buffer| && n <= r.len
    ensures Items(buffer[r.off..r.off + r.len], r.err)
         == Items(buffer[r.off..r.off + n], false) + Items(buffer[r.off + n..r.off + r.len], r.err)
  {
    var bytes := buffer[r.off..r.off + r.len];
    ItemsSplit(bytes, n, r.err);
    assert bytes[..n] == buffer[r.off..r.off + n] && bytes[n..] == buffer[r.off + n..r.off + r.len];
  }

  /** Copying splits what is read into what was copied and what is left of the slice. */
  lemma {:induction false} CopyKeeps(s: State)
    requires Ranges(s) && s.client.Copying?
    ensures Ranges(Apply(s, Copy)) && Unread(Apply(s, Copy)) == Unread(s)
  {
    var t := Apply(s, Copy);
    var r := s.client.read;
    var n := s.client.room;
    if n < r.len {
      var rest := Read(r.off + n, r.len - n, r.err);
      assert t == s.(client := PuttingBack(s.buffer[r.off..r.off + n], rest));
      assert rest.off + rest.len == r.off + r.len;
      SliceSplit(s.buffer, r, n);
      assert Unread(t) == Items(s.buffer[r.off..r.off + n], false) + ReadItems(t, rest);
    } else {
      assert t == s.(client := Asking(s.buffer[r.off..r.off + r.len], r.err));
    }
  }

  lemma {:induction false} TokenStays(s: State, a: Step)
    requires Ranges(s) && Tokens(s) == 1 && Enabled(s, a)
    ensures Ranges(Apply(s, a)) && Tokens(Apply(s, a)) == 1
  {
  }

  /** What a step adds to what was returned it takes from the unread; a socket read adds to both others. */
  lemma {:induction false} UnreadMoves(s: State, a: Step)
    requires Ranges(s) && Tokens(s) == 1 && Enabled(s, a) && Ranges(Apply(s, a))
    ensures var t := Apply(s, a);
            match a
            case SocketRead(buffer, n, err) => Unread(s) == [] && Unread(t) == Items(buffer[..n], err)
            case ReadPutBack => Unread(s) == Items(s.client.copied, false) + Unread(t)
            case ReadAsk => Unread(s) == Items(s.client.copied, s.client.err) && Unread(t) == []
            case _ => Unread(t) == Unread(s)
  {
    match a {
      case Copy => CopyKeeps(s);
      case SocketRead(buffer, n, err) => assert buffer[..n] == buffer[0..0 + n];
      case _ =>
    }
  }

  lemma {:induction false} StepInv(s: State, a: Step)
    requires Inv(s) && Enabled(s, a)
    ensures Inv(Apply(s, a))
  {
    TokenStays(s, a);
    UnreadMoves(s, a);
    Conserved(s.returned, s.delivered, Unread(s), Unread(Apply(s, a)));
  }

  /** Nothing moves; or what is returned is taken from the front of the unread; or it all came just now. */
  lemma {:induction false} Conserved(returned: seq<Item>, delivered: seq<Item>, unread: seq<Item>, unread': seq<Item>)
    requires delivered == returned + unread
    ensures unread == [] ==> delivered + unread' == returned + unread'
    ensures forall x :: unread == x + unread' ==> delivered == (returned + x) + unread'
  {
    forall x | unread == x + unread' ensures delivered == (returned + x) + unread' {}
  }

  // ---------------------------------------------------------------------------------------------
  // Every run
  // ---------------------------------------------------------------------------------------------

  predicate Runs(s: State, run: seq<Step>)
    decreases |run|
  {
    run == [] || (Ranges(s) && Enabled(s, run[0]) && Runs(Apply(s, run[0]), run[1..]))
  }

  function After(s: State, run: seq<Step>): State
    requires Runs(s, run)
    decreases |run|
  {
    if run == [] then s else After(Apply(s, run[0]), run[1..])
  }

  lemma {:induction false} RunInv(s: State, run: seq<Step>)
    requires Inv(s) && Runs(s, run)
    ensures Inv(After(s, run))
    decreases |run|
  {
    if run != [] {
      StepInv(s, run[0]);
      RunInv(Apply(s, run[0]), run[1..]);
    }
  }

  /** The one step each party takes next when it is about to send. */
  predicate SendsFree(s: State)
  {
    && (s.reader.Sending? ==> Enabled(s, SendPending))
    && (s.client.PuttingBack? ==> Enabled(s, ReadPutBack))
    && (s.client.Asking? ==> Enabled(s, ReadAsk))
    && (s.client.AlivePuttingBack? ==> Enabled(s, AlivePutBack))
  }

  /** Nothing that is still to be read lies in the buffer. */
  predicate BufferUnused(s: State)
  {
    s.pending == [] && !ClientHas(s) && !s.reader.Sending?
  }

  /**
   * In every interleaving: there is exactly one token; no send blocks; the socket writes into the
   * buffer only while nothing unread lies in it; and what Read has returned, bytes and errors, is a
   * prefix of what the socket delivered, the rest being unread. A caller that waits while nothing is
   * pending waits for a goroutine that will read, unless the connection is closed.
   */
  lemma {:induction false} EveryRun(size: int, run: seq<Step>)
    requires Runs(Init(size), run)
    ensures var s := After(Init(size), run);
            && Ranges(s) && Tokens(s) == 1 && SendsFree(s) && |s.buffer| > 0
            && (s.reader == Reading ==> BufferUnused(s))
            && s.delivered == s.returned + Unread(s)
            && (s.client.ReadWaiting? && s.pending == [] && !s.done ==>
                  s.reader == Reading || s.reader.Sending? || Enabled(s, TakeWantRead))
  {
    RunInv(Init(size), run);
  }

  function DataOf(items: seq<Item>): seq<Byte>
  {
    if items == [] then [] else (if items[0].Data? then [items[0].b] else []) + DataOf(items[1..])
  }

  lemma {:induction false} DataConcat(a: seq<Item>, b: seq<Item>)
    ensures DataOf(a + b) == DataOf(a) + DataOf(b)
  {
    if a == [] {
      assert a + b == b;
    } else {
      var first := if a[0].Data? then [a[0].b] else [];
      DataConcat(a[1..], b);
      assert (a + b)[0] == a[0] && (a + b)[1..] == a[1..] + b;
      assert DataOf(a + b) == first + (DataOf(a[1..]) + DataOf(b));
      assert DataOf(a) == first + DataOf(a[1..]);
    }
  }

  /** The bytes Read returned are a prefix of the bytes the socket delivered. */
  lemma {:induction false} BytesInOrder(size: int, run: seq<Step>)
    requires Runs(Init(size), run)
    ensures var s := After(Init(size), run); DataOf(s.returned) <= DataOf(s.delivered)
  {
    EveryRun(size, run);
    var s := After(Init(size), run);
    DataConcat(s.returned, Unread(s));
  }

  /**
   * Asking whether the peer is alive leaves everything as it was. It says no just if the reader is
   * done or an error is pending, and yes if nothing is pending or some bytes are.
   */
  lemma {:induction false} PeerAliveOnlyLooks(s: State)
    requires Inv(s) && s.client == AliveEntered && Ranges(s)
    ensures var t := Apply(s, AliveEnter);
            if s.done then t == s.(client := Outside, answer := Some(false))
            else
              && Ranges(t) && Enabled(t, AliveLook)
              && var u := Apply(t, AliveLook);
                 if s.pending == [] then u == s.(client := Outside, answer := Some(true))
                 else && Ranges(u) && Enabled(u, AlivePutBack)
                      && Apply(u, AlivePutBack) == s.(client := Outside, answer := Some(!s.pending[0].err))
  {
    if s.pending != [] { assert [s.pending[0]] == s.pending; }
  }
}
