/** Exactly which streams can overflow the receive buffer, and for which lengths that is so. */
module ReceiverLimit {
  import opened Base
  import opened Wire
  import opened Envelope
  import opened Receiver

  // ---- cutting a stream so that it overflows ---------------------------------------------------------------

  /** Full reads up to `n`, then the rest at once. */
  ghost function Cut(stream: seq<byte>, i: nat, n: nat): (ticks: seq<Tick>)
    requires i <= n <= |stream|
    ensures ticks != []
    decreases n - i
  {
    if i == n then [Tick(0, Chunk(stream[n..]))]
    else
      var j := if i + READ_SIZE < n then i + READ_SIZE else n;
      [Tick(0, Chunk(stream[i..j]))] + Cut(stream, j, n)
  }

  lemma {:induction false} CutAll(stream: seq<byte>, i: nat, n: nat)
    requires i <= n <= |stream| && |stream| - n <= READ_SIZE
    ensures Stream(Cut(stream, i, n)) == stream[i..] && Sized(Cut(stream, i, n))
    decreases n - i
  {
    if i < n {
      var j := if i + READ_SIZE < n then i + READ_SIZE else n;
      CutAll(stream, j, n);
      assert Cut(stream, i, n)[1..] == Cut(stream, j, n);
      assert stream[i..] == stream[i..j] + stream[j..];
    }
  }

  lemma CutLast(ck: Checksum, stream: seq<byte>, n: nat, s: Buffered)
    requires n <= BUFFER_LIMIT < |stream| && s.buf == stream[..n] && (s.started.Some? ==> s.started == Some(0))
    requires TryParse(ck, s.buf) == Incomplete
    ensures Receive(ck, s, 0, 1, Cut(stream, n, n)).result == Failed(BufferLimitExceeded)
  {
    hide TryParse;
    assert s.buf + stream[n..] == stream;
  }

  /** The buffer holds the first `i` bytes, which is not a whole message. */
  ghost predicate HoldsPart(ck: Checksum, stream: seq<byte>, i: nat, s: Buffered)
    requires i <= |stream|
  {
    s.buf == stream[..i] && (s.started.Some? ==> s.started == Some(0)) && TryParse(ck, s.buf) == Incomplete
  }

  lemma AppendPart(ck: Checksum, stream: seq<byte>, i: nat, j: nat, s: Buffered)
    requires i <= j <= |stream| && HoldsPart(ck, stream, i, s) && TryParse(ck, stream[..j]) == Incomplete
    ensures HoldsPart(ck, stream, j, Append(s, stream[i..j], 0))
  {
    hide TryParse;
    assert stream[..i] + stream[i..j] == stream[..j];
  }

  lemma {:induction false} CutOverflows(ck: Checksum, stream: seq<byte>, i: nat, n: nat, s: Buffered)
    requires i <= n <= BUFFER_LIMIT < |stream| && HoldsPart(ck, stream, i, s)
    requires forall k :: 0 <= k <= n ==> TryParse(ck, stream[..k]) == Incomplete
    ensures Receive(ck, s, 0, 1, Cut(stream, i, n)).result == Failed(BufferLimitExceeded)
    decreases n - i
  {
    hide TryParse, Receive, Cut;
    if i == n {
      CutLast(ck, stream, n, s);
    } else {
      var j := if i + READ_SIZE < n then i + READ_SIZE else n;
      CutFirst(stream, i, n, j);
      AppendPart(ck, stream, i, j, s);
      GoRound(ck, s, 0, 1, Cut(stream, i, n));
      CutOverflows(ck, stream, j, n, Append(s, stream[i..j], 0));
    }
  }

  lemma CutFirst(stream: seq<byte>, i: nat, n: nat, j: nat)
    requires i < n <= |stream| && j == (if i + READ_SIZE < n then i + READ_SIZE else n)
    ensures Cut(stream, i, n)[0] == Tick(0, Chunk(stream[i..j])) && Cut(stream, i, n)[1..] == Cut(stream, j, n)
  {}

  lemma EmptyPart(ck: Checksum, stream: seq<byte>)
    ensures HoldsPart(ck, stream, 0, Buffered([], None))
  {
    assert stream[..0] == [];
  }

  lemma ShortIncomplete(ck: Checksum, part: seq<byte>)
    requires |part| >= HEADER ==> Announces(part) && |part| < HEADER + DeclaredLength(part)
    ensures TryParse(ck, part) == Incomplete
  {
    hide ParseCommand, FromLe;
  }

  /** Short of what it announces, a message is incomplete. */
  lemma AnnouncedIncomplete(ck: Checksum, bytes: seq<byte>, k: nat)
    requires Announces(bytes) && k < HEADER + DeclaredLength(bytes) && k <= |bytes|
    ensures TryParse(ck, bytes[..k]) == Incomplete
  {
    hide TryParse, DeclaredLength, Announces;
    if k >= HEADER {
      AnnouncesMore(bytes[..k], bytes[k..]);
      assert bytes == bytes[..k] + bytes[k..];
    }
    ShortIncomplete(ck, bytes[..k]);
  }

  lemma HeadIncomplete(ck: Checksum, stream: seq<byte>, head: seq<byte>)
    requires HeavyHere(stream) && head == stream[..BUFFER_LIMIT + 1]
    ensures var n := HEADER + DeclaredLength(stream) - 1;
            n <= BUFFER_LIMIT && |head| - n <= READ_SIZE &&
            forall k :: 0 <= k <= n ==> TryParse(ck, head[..k]) == Incomplete
  {
    hide TryParse, DeclaredLength;
    var n := HEADER + DeclaredLength(stream) - 1;
    assert Announces(stream) && n <= BUFFER_LIMIT;
    forall k | 0 <= k <= n ensures TryParse(ck, head[..k]) == Incomplete {
      AnnouncedIncomplete(ck, stream, k);
      assert head[..k] == stream[..k];
    }
  }

  /** A connection whose first call overflows the buffer. */
  lemma HeavyHereOverflows(ck: Checksum, stream: seq<byte>) returns (ticks: seq<Tick>)
    requires HeavyHere(stream)
    ensures Sized(ticks) && Stream(ticks) <= stream
    ensures Run(ck, [Call(0, 1)], ticks).last == Some(Failed(BufferLimitExceeded))
  {
    hide TryParse, Receive, Cut, HoldsPart, Stream, Sized, DeclaredLength, Run;
    var head := stream[..BUFFER_LIMIT + 1];
    var n := HEADER + DeclaredLength(stream) - 1;
    HeadIncomplete(ck, stream, head);
    hide HeavyHere;
    EmptyPart(ck, head);
    ticks := Cut(head, 0, n);
    CutAll(head, 0, n);
    assert head[0..] == head;
    CutOverflows(ck, head, 0, n, Buffered([], None));
    OneCall(ck, ticks);
  }

  lemma OneCall(ck: Checksum, ticks: seq<Tick>)
    requires Receive(ck, Buffered([], None), 0, 1, ticks).result == Failed(BufferLimitExceeded)
    ensures Run(ck, [Call(0, 1)], ticks).last == Some(Failed(BufferLimitExceeded))
  {
    hide Receive;
  }

  // ---- getting past the messages before it --------------------------------------------------------------------

  lemma FrameIncomplete(ck: Checksum, f: seq<byte>, m: Message, k: nat)
    requires TryParse(ck, f) == Complete(m, []) && k < |f|
    ensures TryParse(ck, f[..k]) == Incomplete
  {
    hide TryParse;
    VerdictStands(ck, f[..k], f[k..]);
    assert f == f[..k] + f[k..];
  }

  lemma TailOf<T>(a: seq<T>, b: seq<T>)
    requires a != []
    ensures (a + b)[0] == a[0] && (a + b)[1..] == a[1..] + b
  {}

  /** The last bytes of a message deliver it. */
  lemma CutDeliversLast(ck: Checksum, f: seq<byte>, m: Message, n: nat, s: Buffered, more: seq<Tick>)
    requires TryParse(ck, f) == Complete(m, []) && n < |f| <= BUFFER_LIMIT && HoldsPart(ck, f, n, s)
    ensures Receive(ck, s, 0, 1, Cut(f, n, n) + more) == Outcome(Got(m), Buffered([], None), 0, more)
  {
    hide TryParse;
    var ticks := Cut(f, n, n) + more;
    assert s.buf + f[n..] == f && ticks[1..] == more && ticks[0] == Tick(0, Chunk(f[n..]));
    GoRound(ck, s, 0, 1, ticks);
  }

  lemma {:induction false} CutDelivers(ck: Checksum, f: seq<byte>, m: Message, i: nat, n: nat, s: Buffered,
      more: seq<Tick>)
    requires TryParse(ck, f) == Complete(m, []) && i <= n < |f| <= BUFFER_LIMIT && HoldsPart(ck, f, i, s)
    ensures Receive(ck, s, 0, 1, Cut(f, i, n) + more) == Outcome(Got(m), Buffered([], None), 0, more)
    decreases n - i
  {
    hide TryParse, Receive, Cut;
    if i == n {
      CutDeliversLast(ck, f, m, n, s, more);
    } else {
      var j := if i + READ_SIZE < n then i + READ_SIZE else n;
      CutFirst(f, i, n, j);
      FrameIncomplete(ck, f, m, j);
      AppendPart(ck, f, i, j, s);
      var ticks := Cut(f, i, n) + more;
      TailOf(Cut(f, i, n), more);
      GoRound(ck, s, 0, 1, ticks);
      CutDelivers(ck, f, m, j, n, Append(s, f[i..j], 0), more);
    }
  }

  lemma {:induction false} StreamConcat(a: seq<Tick>, b: seq<Tick>)
    requires Sized(a) && Sized(b)
    ensures Stream(a + b) == Stream(a) + Stream(b) && Sized(a + b)
  {
    if a == [] {
      assert a + b == b && Stream(a) + Stream(b) == Stream(b);
    } else {
      StreamConcat(a[1..], b);
      assert (a + b)[1..] == a[1..] + b;
      Assoc(if a[0].arrival.Chunk? then a[0].arrival.bytes else [], Stream(a[1..]), Stream(b));
    }
  }

  /** The frame a stream begins with. */
  lemma FirstFrame(ck: Checksum, stream: seq<byte>) returns (f: seq<byte>, m: Message, rest: seq<byte>)
    requires TryParse(ck, stream).Complete?
    ensures TryParse(ck, stream) == Complete(m, rest) && stream == f + rest
    ensures TryParse(ck, f) == Complete(m, []) && 0 < |f| <= BUFFER_LIMIT
  {
    hide TryParse, Header;
    m, rest := TryParse(ck, stream).message, TryParse(ck, stream).rest;
    FrameParse(ck, stream);
    f := Frame(ck, m).value;
    ParseFrame(ck, m, []);
    assert f + [] == f;
  }

  lemma CutFrame(f: seq<byte>, ticks: seq<Tick>)
    requires 0 < |f| <= BUFFER_LIMIT && Sized(ticks)
    ensures var all := Cut(f, 0, |f| - 1) + ticks; Sized(all) && Stream(all) == f + Stream(ticks)
  {
    hide Cut, Stream, Sized;
    CutAll(f, 0, |f| - 1);
    assert f[0..] == f;
    StreamConcat(Cut(f, 0, |f| - 1), ticks);
  }

  /** A first call that delivers a message and leaves the rest to the other calls. */
  lemma RunOn(ck: Checksum, m: Message, calls: seq<Call>, all: seq<Tick>, ticks: seq<Tick>)
    requires Receive(ck, Buffered([], None), 0, 1, all) == Outcome(Got(m), Buffered([], None), 0, ticks)
    requires Run(ck, calls, ticks).last.Some?
    ensures Run(ck, [Call(0, 1)] + calls, all).last == Run(ck, calls, ticks).last
  {
    hide Receive;
    assert ([Call(0, 1)] + calls)[1..] == calls;
  }

  lemma DeliverFirst(ck: Checksum, f: seq<byte>, m: Message, calls: seq<Call>, ticks: seq<Tick>)
    requires TryParse(ck, f) == Complete(m, []) && 0 < |f| <= BUFFER_LIMIT && Sized(ticks)
    requires Run(ck, calls, ticks).last.Some?
    ensures var all := Cut(f, 0, |f| - 1) + ticks;
            Sized(all) && Stream(all) == f + Stream(ticks) &&
            Run(ck, [Call(0, 1)] + calls, all).last == Run(ck, calls, ticks).last
  {
    hide TryParse, Cut, HoldsPart, Stream, Sized, Receive, Run;
    CutFrame(f, ticks);
    EmptyPart(ck, f);
    CutDelivers(ck, f, m, 0, |f| - 1, Buffered([], None), ticks);
    RunOn(ck, m, calls, Cut(f, 0, |f| - 1) + ticks, ticks);
  }

  // ---- the main results -------------------------------------------------------------------------------------------

  /** Some cutting of the stream into reads, and some calls, end with a full buffer. */
  ghost predicate CanOverflow(ck: Checksum, stream: seq<byte>) {
    exists calls, ticks ::
      Sized(ticks) && Stream(ticks) <= stream && Run(ck, calls, ticks).last == Some(Failed(BufferLimitExceeded))
  }

  lemma PrefixBehind(f: seq<byte>, a: seq<byte>, b: seq<byte>)
    requires a <= b
    ensures f + a <= f + b
  {}

  lemma {:induction false} HeavyOverflows(ck: Checksum, stream: seq<byte>) returns (calls: seq<Call>, ticks: seq<Tick>)
    requires Heavy(ck, stream)
    ensures Sized(ticks) && Stream(ticks) <= stream
    ensures Run(ck, calls, ticks).last == Some(Failed(BufferLimitExceeded))
    decreases |stream|
  {
    hide TryParse, HeavyHere, Run, Stream, Sized, Cut;
    if HeavyHere(stream) {
      ticks := HeavyHereOverflows(ck, stream);
      calls := [Call(0, 1)];
    } else {
      var f, m, rest := FirstFrame(ck, stream);
      calls, ticks := HeavyOverflows(ck, rest);
      hide Heavy;
      DeliverFirst(ck, f, m, calls, ticks);
      PrefixBehind(f, Stream(ticks), rest);
      calls, ticks := [Call(0, 1)] + calls, Cut(f, 0, |f| - 1) + ticks;
    }
  }

  /** A stream can overflow the buffer if and only if, where some message begins, its header announces more than
      3,991,809 bytes and at least 4,000,025 bytes follow from there. */
  lemma OverflowsExactly(ck: Checksum, stream: seq<byte>)
    ensures CanOverflow(ck, stream) <==> Heavy(ck, stream)
  {
    hide Run, Stream, Sized, Heavy;
    if Heavy(ck, stream) {
      var calls, ticks := HeavyOverflows(ck, stream);
    } else {
      forall calls, ticks | Sized(ticks) && Stream(ticks) <= stream
        ensures Run(ck, calls, ticks).last != Some(Failed(BufferLimitExceeded))
      {
        var _ := ChunkingIndependence(ck, calls, ticks, stream);
      }
    }
  }

  // ---- which lengths are safe -------------------------------------------------------------------------------------

  /** No header in order announces more than `bound` bytes. */
  ghost predicate Modest(ck: Checksum, bytes: seq<byte>, bound: nat)
    decreases |bytes|
  {
    (Announces(bytes) ==> DeclaredLength(bytes) <= bound) &&
    match TryParse(ck, bytes)
    case Complete(_, rest) => Modest(ck, rest, bound)
    case _ => true
  }

  lemma {:induction false} ModestFits(ck: Checksum, bytes: seq<byte>, bound: nat)
    requires Modest(ck, bytes, bound) && bound <= SAFE_LENGTH
    ensures !Heavy(ck, bytes)
    decreases |bytes|
  {
    hide Announces;
    match TryParse(ck, bytes)
    case Complete(m, rest) => ModestFits(ck, rest, bound);
    case _ =>
  }

  /** The longest message of a length, and just enough after it to overflow the buffer. */
  ghost function Overlong(ck: Checksum, length: nat): seq<byte>
    requires length <= MAX_PROTOCOL_MESSAGE_LENGTH
  {
    Header(ck, Message([0x61], Padding(length))) + (Padding(length) + Padding(MAX_PROTOCOL_MESSAGE_LENGTH + 1 - length))
  }

  lemma OverlongParses(ck: Checksum, length: nat)
    requires length <= MAX_PROTOCOL_MESSAGE_LENGTH
    ensures |Overlong(ck, length)| == BUFFER_LIMIT + 1 && Modest(ck, Overlong(ck, length), length)
    ensures Announces(Overlong(ck, length)) && DeclaredLength(Overlong(ck, length)) == length
  {
    hide TryParse, ParseCommand, FromLe, Header, Padding;
    var m := Message([0x61], Padding(length));
    var stream := Overlong(ck, length);
    var tail := Padding(MAX_PROTOCOL_MESSAGE_LENGTH + 1 - length);
    assert stream == Frame(ck, m).value + tail;
    ParseFrame(ck, m, tail);
    HeaderFields(ck, m, Padding(length) + tail, stream);
    ZerosBreak(ck, tail, length);
  }

  lemma ZerosBreak(ck: Checksum, zeros: seq<byte>, bound: nat)
    requires Zeros(zeros)
    ensures Modest(ck, zeros, bound)
  {
    if |zeros| >= HEADER {
      assert zeros[0..4][0] != MAGIC[0];
    }
  }

  /** A bound on lengths keeps every stream within it from overflowing exactly up to 3,991,809 bytes. */
  lemma BoundIsTight(ck: Checksum, bound: nat)
    requires bound <= MAX_PROTOCOL_MESSAGE_LENGTH
    ensures (forall stream :: Modest(ck, stream, bound) ==> !CanOverflow(ck, stream)) <==> bound <= 3_991_809
  {
    hide TryParse, CanOverflow, Modest, Overlong, Heavy;
    if bound <= SAFE_LENGTH {
      forall stream | Modest(ck, stream, bound) ensures !CanOverflow(ck, stream) {
        ModestFits(ck, stream, bound);
        OverflowsExactly(ck, stream);
      }
    } else {
      OverlongParses(ck, bound);
      OverlongHeavy(ck, bound);
      OverflowsExactly(ck, Overlong(ck, bound));
    }
  }

  lemma OverlongHeavy(ck: Checksum, length: nat)
    requires SAFE_LENGTH < length <= MAX_PROTOCOL_MESSAGE_LENGTH
    ensures Heavy(ck, Overlong(ck, length))
  {
    OverlongParses(ck, length);
    hide Overlong, Announces, DeclaredLength, Modest;
  }
}
