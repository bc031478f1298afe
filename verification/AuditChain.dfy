/** The hash-chained audit log (internal/store/audit_store.go). SHA-256 is any function. */
module AuditChain {
  import opened Domain

  type byte = x: int | 0 <= x < 256 witness 0
  type bytes = seq<byte>

  const UINT32_RANGE := 0x1_0000_0000
  const UINT64_RANGE := 0x1_0000_0000_0000_0000
  const MAX_AUDIT_LIMIT := 500

  // --- framing --------------------------------------------------------------------------

  function Pow256(width: nat): (p: nat)
    ensures p >= 1
  {
    if width == 0 then 1 else 256 * Pow256(width - 1)
  }

  /** binary.BigEndian.PutUint32 and PutUint64. */
  function BigEndian(n: nat, width: nat): (b: bytes)
    ensures |b| == width
  {
    if width == 0 then [] else BigEndian(n / 256, width - 1) + [n % 256]
  }

  lemma {:induction false} BigEndianInjective(n: nat, m: nat, width: nat)
    requires n < Pow256(width) && m < Pow256(width) && BigEndian(n, width) == BigEndian(m, width)
    ensures n == m
    decreases width
  {
    if width > 0 {
      var a, b := BigEndian(n, width), BigEndian(m, width);
      assert a[..width - 1] == BigEndian(n / 256, width - 1) && b[..width - 1] == BigEndian(m / 256, width - 1);
      assert a[width - 1] == n % 256 && b[width - 1] == m % 256;
      BigEndianInjective(n / 256, m / 256, width - 1);
    }
  }

  /** writePrefixedString: the length is cast to uint32 and so wraps at 2^32. */
  function Prefixed(s: bytes): bytes { BigEndian(|s| % UINT32_RANGE, 4) + s }

  lemma Pow256Is(width: nat)
    ensures Pow256(4) == UINT32_RANGE && Pow256(8) == UINT64_RANGE
  {
    assert Pow256(1) == 256 && Pow256(2) == 0x1_0000 && Pow256(3) == 0x100_0000;
    assert Pow256(5) == 0x100_0000_0000 && Pow256(6) == 0x1_0000_0000_0000 && Pow256(7) == 0x100_0000_0000_0000;
  }

  lemma ConcatInjective(a: bytes, b: bytes, x: bytes, y: bytes)
    requires |a| == |b| && a + x == b + y
    ensures a == b && x == y
  {
    assert (a + x)[..|a|] == a && (b + y)[..|b|] == b;
    assert (a + x)[|a|..] == x && (b + y)[|b|..] == y;
  }

  lemma PrefixIs(s: bytes, n: nat)
    requires n < UINT32_RANGE && (|s| == n || |s| == UINT32_RANGE + n)
    ensures Prefixed(s) == BigEndian(n, 4) + s
  {
    hide BigEndian;
  }

  /** A field under 4 GiB is recovered from any stream that starts with it. */
  lemma PrefixedInjective(s: bytes, t: bytes, x: bytes, y: bytes)
    requires |s| < UINT32_RANGE && |t| < UINT32_RANGE && Prefixed(s) + x == Prefixed(t) + y
    ensures s == t && x == y
  {
    hide BigEndian, Pow256;
    PrefixedSplits(s, x);
    PrefixedSplits(t, y);
    ConcatInjective(BigEndian(|s|, 4), BigEndian(|t|, 4), s + x, t + y);
    Pow256Is(4);
    BigEndianInjective(|s|, |t|, 4);
    ConcatInjective(s, t, x, y);
  }

  lemma PrefixedSplits(s: bytes, x: bytes)
    requires |s| < UINT32_RANGE
    ensures Prefixed(s) + x == BigEndian(|s|, 4) + (s + x)
  {
    hide BigEndian, Prefixed;
    PrefixIs(s, |s|);
    ConcatAssociative(BigEndian(|s|, 4), s, x);
  }

  lemma ConcatAssociative(a: bytes, b: bytes, c: bytes)
    ensures (a + b) + c == a + (b + c)
  {}

  function Frame(fields: seq<bytes>): bytes {
    if fields == [] then [] else Prefixed(fields[0]) + Frame(fields[1..])
  }

  predicate Bounded(fields: seq<bytes>) { forall i | 0 <= i < |fields| :: |fields[i]| < UINT32_RANGE }

  lemma {:induction false} FrameInjective(fs: seq<bytes>, gs: seq<bytes>)
    requires |fs| == |gs| && Bounded(fs) && Bounded(gs) && Frame(fs) == Frame(gs)
    ensures fs == gs
  {
    if fs != [] {
      PrefixedInjective(fs[0], gs[0], Frame(fs[1..]), Frame(gs[1..]));
      FrameInjective(fs[1..], gs[1..]);
      assert fs == [fs[0]] + fs[1..] && gs == [gs[0]] + gs[1..];
    }
  }

  lemma {:induction false} FrameJoins(fs: seq<bytes>, gs: seq<bytes>)
    ensures Frame(fs + gs) == Frame(fs) + Frame(gs)
  {
    hide Prefixed;
    if fs == [] {
      assert fs + gs == gs;
    } else {
      FrameJoins(fs[1..], gs);
      assert (fs + gs)[1..] == fs[1..] + gs && (fs + gs)[0] == fs[0];
      var p, f, g := Prefixed(fs[0]), Frame(fs[1..]), Frame(gs);
      assert Frame(fs + gs) == p + Frame(fs[1..] + gs);
      assert p + (f + g) == (p + f) + g;
    }
  }

  lemma FrameTwo(a: bytes, b: bytes)
    ensures Frame([a, b]) == Prefixed(a) + Prefixed(b)
  {
    hide Prefixed;
    assert [a, b][1..] == [b];
    assert Frame([b]) == Prefixed(b) + Frame([]);
  }

  lemma Regroup(zero: bytes, p: bytes, x: bytes, t: bytes)
    ensures (zero + (p + x)) + (p + t) == zero + (p + (x + p + t))
  {}

  /** At 2^32 bytes the length prefix wraps to zero, and a field can be split from its successor
      elsewhere. */
  lemma WrappedPrefixCollides(s: bytes, t: bytes)
    requires |s| == UINT32_RANGE && |t| < UINT32_RANGE && s[..4] == BigEndian(|t|, 4)
    ensures var u := s[4..] + BigEndian(|t|, 4) + t; s != [] && Frame([s, t]) == Frame([[], u])
  {
    hide BigEndian, Prefixed, Frame;
    var p, zero, none: bytes := BigEndian(|t|, 4), BigEndian(0, 4), [];
    var u := s[4..] + p + t;
    PrefixIs(s, 0);
    PrefixIs(none, 0);
    PrefixIs(t, |t|);
    PrefixIs(u, |t|);
    assert zero + none == zero;
    FrameTwo(s, t);
    FrameTwo(none, u);
    assert s == p + s[4..];
    Regroup(zero, p, s[4..], t);
  }

  // --- events -------------------------------------------------------------------------------

  /** The hashed columns of an audit event; NULL lineage columns hash as the empty string. */
  datatype Content = Content(
    eventId: bytes, eventType: bytes, timestamp: bytes, pair: bytes, task: bytes,
    contract: bytes, attempt: bytes, actor: bytes, details: bytes)

  datatype Row = Row(sequence: nat, content: Content, prev: bytes, hash: bytes)

  function Fields(c: Content, prev: bytes): (fields: seq<bytes>)
    ensures |fields| == 10
  {
    [c.eventId, c.eventType, c.timestamp, c.pair, c.task, c.contract, c.attempt, c.actor, c.details, prev]
  }

  predicate BoundedContent(c: Content) {
    && |c.eventId| < UINT32_RANGE && |c.eventType| < UINT32_RANGE && |c.timestamp| < UINT32_RANGE && |c.pair| < UINT32_RANGE
    && |c.task| < UINT32_RANGE && |c.contract| < UINT32_RANGE && |c.attempt| < UINT32_RANGE && |c.actor| < UINT32_RANGE
    && |c.details| < UINT32_RANGE
  }

  /** The preimage of ComputeEventHashRaw. */
  function Encode(separator: bytes, sequence: nat, c: Content, prev: bytes): bytes {
    Prefixed(separator) + (BigEndian(sequence % UINT64_RANGE, 8) + Frame(Fields(c, prev)))
  }

  lemma HeadInjective(separator: bytes, n: nat, f: bytes, m: nat, g: bytes)
    requires |separator| < UINT32_RANGE && n < UINT64_RANGE && m < UINT64_RANGE
    requires Prefixed(separator) + (BigEndian(n, 8) + f) == Prefixed(separator) + (BigEndian(m, 8) + g)
    ensures n == m && f == g
  {
    hide Prefixed;
    PrefixedInjective(separator, separator, BigEndian(n, 8) + f, BigEndian(m, 8) + g);
    ConcatInjective(BigEndian(n, 8), BigEndian(m, 8), f, g);
    Pow256Is(8);
    BigEndianInjective(n, m, 8);
  }

  lemma BoundedFields(c: Content, prev: bytes)
    requires BoundedContent(c) && |prev| < UINT32_RANGE
    ensures Bounded(Fields(c, prev))
  {}

  /** Two events with the same preimage are the same event at the same place of the chain. */
  lemma EncodeInjective(separator: bytes, n: nat, c: Content, p: bytes, m: nat, d: Content, q: bytes)
    requires |separator| < UINT32_RANGE && n < UINT64_RANGE && m < UINT64_RANGE
    requires BoundedContent(c) && BoundedContent(d) && |p| < UINT32_RANGE && |q| < UINT32_RANGE
    requires Encode(separator, n, c, p) == Encode(separator, m, d, q)
    ensures n == m && c == d && p == q
  {
    hide BigEndian, Frame, Fields, Prefixed, Bounded;
    HeadInjective(separator, n, Frame(Fields(c, p)), m, Frame(Fields(d, q)));
    BoundedFields(c, p);
    BoundedFields(d, q);
    FrameInjective(Fields(c, p), Fields(d, q));
    FieldsInjective(c, p, d, q);
  }

  lemma FieldsInjective(c: Content, p: bytes, d: Content, q: bytes)
    requires Fields(c, p) == Fields(d, q)
    ensures c == d && p == q
  {
    var f, g := Fields(c, p), Fields(d, q);
    assert f[0] == g[0] && f[1] == g[1] && f[2] == g[2] && f[3] == g[3] && f[4] == g[4];
    assert f[5] == g[5] && f[6] == g[6] && f[7] == g[7] && f[8] == g[8] && f[9] == g[9];
  }

  /** An unbounded field is recovered when the rest of the stream has a known length. */
  lemma LastTwoInjective(x: bytes, p: bytes, y: bytes, q: bytes)
    requires |p| == |q| < UINT32_RANGE && Prefixed(x) + Prefixed(p) == Prefixed(y) + Prefixed(q)
    ensures x == y && p == q
  {
    hide BigEndian;
    var a, b := BigEndian(|x| % UINT32_RANGE, 4), BigEndian(|y| % UINT32_RANGE, 4);
    var c, d := BigEndian(|p|, 4) + p, BigEndian(|q|, 4) + q;
    assert (a + x) + c == a + (x + c) && (b + y) + d == b + (y + d);
    ConcatInjective(a, b, x + c, y + d);
    ConcatInjective(x, y, c, d);
    ConcatInjective(BigEndian(|p|, 4), BigEndian(|q|, 4), p, q);
  }

  function Head(c: Content): seq<bytes> { [c.eventId, c.eventType, c.timestamp, c.pair, c.task, c.contract, c.attempt, c.actor] }

  /** What the store lets in: short fields, details of any size. */
  predicate Stored(c: Content) { forall i | 0 <= i < |Head(c)| :: |Head(c)[i]| < UINT32_RANGE }

  /** Stored rows cannot be confused, whatever the size of their details, because hashes all
      have one length. */
  lemma StoredInjective(separator: bytes, n: nat, c: Content, p: bytes, m: nat, d: Content, q: bytes)
    requires |separator| < UINT32_RANGE && n < UINT64_RANGE && m < UINT64_RANGE
    requires Stored(c) && Stored(d) && |p| == |q| < UINT32_RANGE
    requires Encode(separator, n, c, p) == Encode(separator, m, d, q)
    ensures n == m && c == d && p == q
  {
    hide BigEndian, Frame, Prefixed, Bounded, Stored;
    HeadInjective(separator, n, Frame(Fields(c, p)), m, Frame(Fields(d, q)));
    assert Fields(c, p) == Head(c) + [c.details, p] && Fields(d, q) == Head(d) + [d.details, q];
    FrameJoins(Head(c), [c.details, p]);
    FrameJoins(Head(d), [d.details, q]);
    FrameTwo(c.details, p);
    FrameTwo(d.details, q);
    HeadBounded(c);
    HeadBounded(d);
    FrameAligned(Head(c), Head(d), Prefixed(c.details) + Prefixed(p), Prefixed(d.details) + Prefixed(q));
    LastTwoInjective(c.details, p, d.details, q);
    HeadsEqual(c, d);
  }

  lemma HeadBounded(c: Content)
    requires Stored(c)
    ensures Bounded(Head(c))
  {}

  lemma HeadsEqual(c: Content, d: Content)
    requires Head(c) == Head(d) && c.details == d.details
    ensures c == d
  {
    var f, g := Head(c), Head(d);
    assert f[0] == g[0] && f[1] == g[1] && f[2] == g[2] && f[3] == g[3] && f[4] == g[4] && f[5] == g[5] && f[6] == g[6] && f[7] == g[7];
  }

  lemma {:induction false} FrameAligned(fs: seq<bytes>, gs: seq<bytes>, x: bytes, y: bytes)
    requires |fs| == |gs| && Bounded(fs) && Bounded(gs) && Frame(fs) + x == Frame(gs) + y
    ensures fs == gs && x == y
  {
    hide Prefixed;
    if fs != [] {
      var f, g := Frame(fs[1..]), Frame(gs[1..]);
      assert Prefixed(fs[0]) + (f + x) == Frame(fs) + x && Prefixed(gs[0]) + (g + y) == Frame(gs) + y;
      PrefixedInjective(fs[0], gs[0], f + x, g + y);
      FrameAligned(fs[1..], gs[1..], x, y);
      assert fs == [fs[0]] + fs[1..] && gs == [gs[0]] + gs[1..];
    } else {
      assert Frame(fs) + x == x && Frame(gs) + y == y;
    }
  }

  // --- the exact bound -----------------------------------------------------------------------------

  predicate Below(c: Content, prev: bytes, bound: nat) { forall i | 0 <= i < |Fields(c, prev)| :: |Fields(c, prev)[i]| < bound }

  /** Fields shorter than the bound are recovered from the preimage. */
  ghost predicate InjectiveBelow(separator: bytes, bound: nat) {
    forall n: nat, c, p, m: nat, d, q ::
      n < UINT64_RANGE && m < UINT64_RANGE && Below(c, p, bound) && Below(d, q, bound) && Encode(separator, n, c, p) == Encode(separator, m, d, q)
      ==> n == m && c == d && p == q
  }

  lemma BelowBounded(c: Content, prev: bytes, bound: nat)
    requires Below(c, prev, bound) && bound <= UINT32_RANGE
    ensures BoundedContent(c) && |prev| < UINT32_RANGE
  {
    var f := Fields(c, prev);
    assert |f[0]| < bound && |f[1]| < bound && |f[2]| < bound && |f[3]| < bound && |f[4]| < bound;
    assert |f[5]| < bound && |f[6]| < bound && |f[7]| < bound && |f[8]| < bound && |f[9]| < bound;
  }

  function Blank(actor: bytes, details: bytes): Content { Content([], [], [], [], [], [], [], actor, details) }

  /** The actor and the details are adjacent, so their boundary can move. */
  lemma BlankCollides(separator: bytes, s: bytes)
    requires |s| == UINT32_RANGE && s[..4] == BigEndian(0, 4)
    ensures Encode(separator, 1, Blank(s, []), []) == Encode(separator, 1, Blank([], s[4..] + BigEndian(0, 4) + []), [])
  {
    hide BigEndian, Frame, Prefixed;
    var none: bytes := [];
    var u := s[4..] + BigEndian(0, 4) + none;
    var blank: seq<bytes> := [[], [], [], [], [], [], []];
    WrappedPrefixCollides(s, none);
    assert Fields(Blank(s, none), none) == blank + ([s, none] + [none]) && Fields(Blank(none, u), none) == blank + ([none, u] + [none]);
    FrameJoins(blank, [s, none] + [none]);
    FrameJoins(blank, [none, u] + [none]);
    FrameJoins([s, none], [none]);
    FrameJoins([none, u], [none]);
  }

  /** The framing is injective below a bound exactly when the bound is at most 2^32. */
  lemma InjectiveIffBelow(separator: bytes, bound: nat)
    requires |separator| < UINT32_RANGE
    ensures InjectiveBelow(separator, bound) <==> bound <= UINT32_RANGE
  {
    hide Encode, Below, BoundedContent;
    if bound <= UINT32_RANGE {
      forall n: nat, c, p, m: nat, d, q | n < UINT64_RANGE && m < UINT64_RANGE && Below(c, p, bound) && Below(d, q, bound)
          && Encode(separator, n, c, p) == Encode(separator, m, d, q)
        ensures n == m && c == d && p == q
      {
        BelowBounded(c, p, bound);
        BelowBounded(d, q, bound);
        EncodeInjective(separator, n, c, p, m, d, q);
      }
    } else {
      var s := Zeros();
      var none: bytes := [];
      var u := s[4..] + BigEndian(0, 4) + none;
      BlankCollides(separator, s);
      BlankBelow(s, none, bound);
      BlankBelow(none, u, bound);
    }
  }

  lemma BlankBelow(actor: bytes, details: bytes, bound: nat)
    requires bound > UINT32_RANGE && |actor| <= UINT32_RANGE && |details| <= UINT32_RANGE
    ensures Below(Blank(actor, details), [], bound)
  {}

  lemma Zeros() returns (s: bytes)
    ensures |s| == UINT32_RANGE && s[..4] == BigEndian(0, 4)
  {
    s := seq(UINT32_RANGE, i => 0);
    assert BigEndian(0, 1) == [0] && BigEndian(0, 2) == [0, 0] && BigEndian(0, 3) == [0, 0, 0];
  }

  // --- the chain --------------------------------------------------------------------------------

  /** text is the spelling of identifiers; readable says which timestamps and details decode. */
  datatype Params = Params(hash: bytes -> bytes, separator: bytes, genesis: bytes, text: Id -> bytes, readable: Content -> bool)

  function HashOf(k: Params, sequence: nat, c: Content, prev: bytes): bytes { k.hash(Encode(k.separator, sequence, c, prev)) }

  /** The hash the row at position i must point back to. */
  function PrevOf(k: Params, rows: seq<Row>, i: nat): bytes
    requires i <= |rows|
  {
    if i == 0 then k.genesis else rows[i - 1].hash
  }

  predicate Linked(k: Params, rows: seq<Row>, i: nat)
    requires i < |rows|
  {
    && rows[i].sequence == i + 1
    && rows[i].prev == PrevOf(k, rows, i)
    && rows[i].hash == HashOf(k, rows[i].sequence, rows[i].content, rows[i].prev)
  }

  predicate Chained(k: Params, rows: seq<Row>) { forall i | 0 <= i < |rows| :: Linked(k, rows, i) }

  /** The rows in sequence order with the persisted head row audit_chain_state. */
  datatype Log = Log(rows: seq<Row>, headSequence: nat, headHash: bytes)

  predicate WellFormed(k: Params, log: Log) {
    Chained(k, log.rows) && log.headSequence == |log.rows| && log.headHash == PrevOf(k, log.rows, |log.rows|)
  }

  /** Rows that the store let in: hashes all have the length of the genesis hash. */
  predicate StoredRows(k: Params, rows: seq<Row>) {
    forall i | 0 <= i < |rows| :: Stored(rows[i].content) && |rows[i].prev| == |k.genesis|
  }

  /** Row i of the two logs: different preimages with one hash. */
  predicate Collides(k: Params, a: seq<Row>, b: seq<Row>, i: int) {
    && 0 <= i < |a| && i < |b|
    && Encode(k.separator, i + 1, a[i].content, a[i].prev) != Encode(k.separator, i + 1, b[i].content, b[i].prev)
    && HashOf(k, i + 1, a[i].content, a[i].prev) == HashOf(k, i + 1, b[i].content, b[i].prev)
  }

  /** One link fixes everything before it, unless the hash collides. */
  lemma {:induction false} LinkFixesPrefix(k: Params, a: seq<Row>, b: seq<Row>, n: nat)
    requires Chained(k, a) && Chained(k, b) && StoredRows(k, a) && StoredRows(k, b) && |k.separator| < UINT32_RANGE && |k.genesis| < UINT32_RANGE
    requires n <= |a| && n <= |b| && |a| < UINT64_RANGE && |b| < UINT64_RANGE
    requires PrevOf(k, a, n) == PrevOf(k, b, n)
    ensures a[..n] == b[..n] || exists i :: Collides(k, a, b, i)
  {
    if n > 0 {
      var x, y := a[n - 1], b[n - 1];
      assert Linked(k, a, n - 1) && Linked(k, b, n - 1);
      if Encode(k.separator, n, x.content, x.prev) != Encode(k.separator, n, y.content, y.prev) {
        assert Collides(k, a, b, n - 1);
      } else {
        StoredInjective(k.separator, n, x.content, x.prev, n, y.content, y.prev);
        LinkFixesPrefix(k, a, b, n - 1);
        assert a[..n] == a[..n - 1] + [x] && b[..n] == b[..n - 1] + [y];
      }
    }
  }

  /** Two verified logs with equal heads are the same log, or they exhibit two preimages with
      the same hash. */
  lemma EqualHeadsEqualLogs(k: Params, a: Log, b: Log)
    requires WellFormed(k, a) && WellFormed(k, b) && StoredRows(k, a.rows) && StoredRows(k, b.rows)
    requires |k.separator| < UINT32_RANGE && |k.genesis| < UINT32_RANGE
    requires a.headSequence < UINT64_RANGE
    requires a.headSequence == b.headSequence && a.headHash == b.headHash
    ensures a == b || exists i :: Collides(k, a.rows, b.rows, i)
  {
    LinkFixesPrefix(k, a.rows, b.rows, |a.rows|);
    assert a.rows[..|a.rows|] == a.rows && b.rows[..|b.rows|] == b.rows;
  }

  // --- chains and their contents ----------------------------------------------------------------

  function Extended(k: Params, log: Log, c: Content): Log {
    var n := log.headSequence + 1;
    var hash := HashOf(k, n, c, log.headHash);
    Log(log.rows + [Row(n, c, log.headHash, hash)], n, hash)
  }

  /** The log of some contents, appended one after the other. */
  function ChainOf(k: Params, contents: seq<Content>): Log {
    if contents == [] then Log([], 0, k.genesis) else Extended(k, ChainOf(k, contents[..|contents| - 1]), contents[|contents| - 1])
  }

  lemma ExtendedVerifies(k: Params, log: Log, c: Content)
    requires WellFormed(k, log)
    ensures WellFormed(k, Extended(k, log, c))
  {
    var more := Extended(k, log, c).rows;
    forall i | 0 <= i < |log.rows| ensures Linked(k, more, i) { assert Linked(k, log.rows, i) && more[i] == log.rows[i]; }
  }

  /** Chaining any contents gives a log that verifies and shows exactly them. */
  lemma {:induction false} ChainVerifies(k: Params, contents: seq<Content>)
    ensures WellFormed(k, ChainOf(k, contents))
    ensures |ChainOf(k, contents).rows| == |contents| && forall i | 0 <= i < |contents| :: ChainOf(k, contents).rows[i].content == contents[i]
  {
    if contents != [] {
      var rest := contents[..|contents| - 1];
      ChainVerifies(k, rest);
      ExtendedVerifies(k, ChainOf(k, rest), contents[|contents| - 1]);
    }
  }

  /** Later contents leave the rows of earlier ones alone. */
  lemma {:induction false} ChainPrefix(k: Params, contents: seq<Content>, more: seq<Content>)
    requires contents <= more
    ensures ChainOf(k, contents).rows <= ChainOf(k, more).rows
  {
    if |contents| < |more| {
      var rest := more[..|more| - 1];
      ChainPrefix(k, contents, rest);
    } else {
      assert contents == more;
    }
  }

  // --- the store ----------------------------------------------------------------------------------

  /** An audit event as a transaction hands it over; details are its sanitized JSON. */
  datatype AuditEvent = AuditEvent(
    eventId: bytes, eventType: bytes, timestamp: bytes, pair: Option<Id>, task: Option<Id>,
    contract: Option<Id>, attempt: Option<Id>, actor: bytes, details: bytes)

  const MAX_FIELD := 256

  function Spelled(k: Params, id: Option<Id>): bytes { if id.None? then [] else k.text(id.value) }

  function ContentOf(k: Params, e: AuditEvent): Content {
    Content(e.eventId, e.eventType, e.timestamp, Spelled(k, e.pair), Spelled(k, e.task), Spelled(k, e.contract), Spelled(k, e.attempt), e.actor, e.details)
  }

  predicate FieldsValid(k: Params, e: AuditEvent) {
    && e.eventId != [] && e.eventType != [] && e.actor != []
    && |e.eventId| <= MAX_FIELD && |e.eventType| <= MAX_FIELD && |e.actor| <= MAX_FIELD
    && |Spelled(k, e.task)| <= MAX_FIELD && |Spelled(k, e.contract)| <= MAX_FIELD
    && |Spelled(k, e.attempt)| <= MAX_FIELD && |Spelled(k, e.pair)| <= MAX_FIELD
  }

  /** The lineage an event names is one of the database. */
  predicate LineageKnown(db: DB, e: AuditEvent) {
    && (e.contract.Some? ==> e.task.Some? && e.contract.value in db.contracts && db.contracts[e.contract.value].task == e.task.value)
    && (e.attempt.Some? ==>
          && e.task.Some? && e.contract.Some? && e.attempt.value in db.attempts
          && db.attempts[e.attempt.value].lineage.task == e.task.value && db.attempts[e.attempt.value].lineage.contract == e.contract.value)
    && (e.pair.Some? && e.task.Some? ==> e.task.value in db.tasks && db.tasks[e.task.value].pair == e.pair.value)
  }

  /** What AppendAuditEvent asks of an event that names nothing to join with. */
  predicate NamesExist(db: DB, pairs: set<Id>, e: AuditEvent) {
    && (e.task.Some? && e.contract.None? && e.attempt.None? && e.pair.None? ==> e.task.value in db.tasks)
    && (e.pair.Some? && e.task.None? ==> e.pair.value in pairs)
  }

  lemma AppendedStored(k: Params, log: Log, e: AuditEvent)
    requires FieldsValid(k, e) && |e.timestamp| < UINT32_RANGE && StoredRows(k, log.rows) && |log.headHash| == |k.genesis|
    ensures StoredRows(k, Extended(k, log, ContentOf(k, e)).rows)
  {}

  /** The primary key, UNIQUE(event_id) and UNIQUE(event_hash). */
  predicate FreshRow(rows: seq<Row>, row: Row) {
    forall i | 0 <= i < |rows| :: rows[i].sequence != row.sequence && rows[i].content.eventId != row.content.eventId && rows[i].hash != row.hash
  }

  function Above(rows: seq<Row>, after: int): seq<Row> {
    if rows == [] then []
    else Above(rows[..|rows| - 1], after) + if rows[|rows| - 1].sequence > after then [rows[|rows| - 1]] else []
  }

  /** In a chained log the rows above a sequence number are its tail. */
  lemma {:induction false} AboveIsTail(k: Params, rows: seq<Row>, after: nat)
    requires Chained(k, rows)
    ensures Above(rows, after) == if after >= |rows| then [] else rows[after..]
  {
    if rows != [] {
      var rest := rows[..|rows| - 1];
      forall i | 0 <= i < |rest| ensures Linked(k, rest, i) { assert Linked(k, rows, i) && rest[i] == rows[i]; }
      AboveIsTail(k, rest, after);
      assert Linked(k, rows, |rows| - 1);
    }
  }

  /** WHERE sequence > ? ORDER BY sequence LIMIT ?. */
  function PageOf(rows: seq<Row>, after: int, limit: nat): seq<Row> {
    var found := Above(rows, after);
    if |found| <= limit then found else found[..limit]
  }

  predicate Decodes(k: Params, rows: seq<Row>) { forall i | 0 <= i < |rows| :: k.readable(rows[i].content) }

  /** A page of a chained log continues what has been read, and ends with its own position. */
  lemma NextPage(k: Params, rows: seq<Row>, after: nat, limit: nat)
    requires Chained(k, rows) && after <= |rows| && limit > 0
    ensures var page := PageOf(rows, after, limit);
      && after + |page| <= |rows| && rows[..after] + page == rows[..after + |page|]
      && (|page| < limit ==> after + |page| == |rows|)
      && (|page| > 0 ==> page[|page| - 1].sequence == after + |page|)
      && (!Decodes(k, page) ==> !Decodes(k, rows))
      && (Decodes(k, rows[..after]) && Decodes(k, page) ==> Decodes(k, rows[..after + |page|]))
  {
    hide Above, Linked;
    AboveIsTail(k, rows, after);
    var page := PageOf(rows, after, limit);
    assert page == rows[after..after + |page|];
    if |page| > 0 { SequenceOf(k, rows, after + |page| - 1); }
  }

  lemma SequenceOf(k: Params, rows: seq<Row>, i: nat)
    requires Chained(k, rows) && i < |rows|
    ensures rows[i].sequence == i + 1
  {
    assert Linked(k, rows, i);
  }

  // --- what is recorded -----------------------------------------------------------------------

  /** The number that bytes spell, the most significant first. */
  function Value(b: bytes): nat {
    if b == [] then 0 else 256 * Value(b[..|b| - 1]) + b[|b| - 1]
  }

  lemma {:induction false} BigEndianValue(n: nat, width: nat)
    requires n < Pow256(width)
    ensures Value(BigEndian(n, width)) == n
    decreases width
  {
    if width > 0 {
      var b := BigEndian(n, width);
      assert b[..width - 1] == BigEndian(n / 256, width - 1) && b[width - 1] == n % 256;
      BigEndianValue(n / 256, width - 1);
    }
  }

  /** The preimage: the separator, the sequence number in eight bytes, and the ten fields in their
      order, each after its length in four bytes. */
  lemma PreimageLayout(separator: bytes, n: nat, c: Content, prev: bytes)
    ensures Encode(separator, n, c, prev) ==
      Prefixed(separator) + (BigEndian(n % UINT64_RANGE, 8)
      + (Prefixed(c.eventId) + (Prefixed(c.eventType) + (Prefixed(c.timestamp) + (Prefixed(c.pair) + (Prefixed(c.task)
      + (Prefixed(c.contract) + (Prefixed(c.attempt) + (Prefixed(c.actor) + (Prefixed(c.details) + Prefixed(prev)))))))))))
  {
    hide Prefixed, BigEndian;
    FrameFirst([c.eventId, c.eventType, c.timestamp, c.pair, c.task, c.contract, c.attempt, c.actor], c.details, prev);
    FrameEight(c.eventId, c.eventType, c.timestamp, c.pair, c.task, c.contract, c.attempt, c.actor, Prefixed(c.details) + Prefixed(prev));
    assert Fields(c, prev) == Head(c) + [c.details, prev];
  }

  lemma FrameFirst(fs: seq<bytes>, details: bytes, prev: bytes)
    ensures Frame(fs + [details, prev]) == Frame(fs) + (Prefixed(details) + Prefixed(prev))
  {
    FrameJoins(fs, [details, prev]);
    FrameTwo(details, prev);
  }

  lemma FrameEight(a: bytes, b: bytes, c: bytes, d: bytes, e: bytes, f: bytes, g: bytes, h: bytes, t: bytes)
    ensures Frame([a, b, c, d, e, f, g, h]) + t ==
      Prefixed(a) + (Prefixed(b) + (Prefixed(c) + (Prefixed(d) + (Prefixed(e) + (Prefixed(f) + (Prefixed(g) + (Prefixed(h) + t)))))))
  {
    hide Prefixed;
    FrameNext(a, [b, c, d, e, f, g, h], t);
    FrameNext(b, [c, d, e, f, g, h], t);
    FrameNext(c, [d, e, f, g, h], t);
    FrameNext(d, [e, f, g, h], t);
    FrameNext(e, [f, g, h], t);
    FrameNext(f, [g, h], t);
    FrameNext(g, [h], t);
    FrameNext(h, [], t);
  }

  lemma FrameNext(a: bytes, fs: seq<bytes>, t: bytes)
    ensures Frame([a] + fs) + t == Prefixed(a) + (Frame(fs) + t)
  {
    assert ([a] + fs)[1..] == fs;
  }

  predicate Named(k: Params, id: Option<Id>) { id.Some? ==> |k.text(id.value)| <= 256 }

  /** In a verified log an event is recorded exactly when its ID, type and actor have 1 to 256
      bytes and its identifiers at most 256, when it names a contract only with its task, an
      attempt only with its task and contract, and a task of its Pair, and when neither its ID
      nor its hash was recorded before. The record takes the next number and points at the last
      hash. */
  lemma RecordedIff(k: Params, db: DB, pairs: set<Id>, log: Log, e: AuditEvent)
    requires WellFormed(k, log)
    ensures var row := Extended(k, log, ContentOf(k, e)).rows[|log.rows|];
      (FieldsValid(k, e) && LineageKnown(db, e) && FreshRow(log.rows, row)) <==>
      (&& 1 <= |e.eventId| <= 256 && 1 <= |e.eventType| <= 256 && 1 <= |e.actor| <= 256
       && Named(k, e.pair) && Named(k, e.task) && Named(k, e.contract) && Named(k, e.attempt)
       && (e.contract.Some? ==> e.task.Some? && e.contract.value in db.contracts && db.contracts[e.contract.value].task == e.task.value)
       && (e.attempt.Some? ==>
             && e.contract.Some? && e.attempt.value in db.attempts
             && e.task == Some(db.attempts[e.attempt.value].lineage.task) && e.contract == Some(db.attempts[e.attempt.value].lineage.contract))
       && (e.pair.Some? && e.task.Some? ==> e.task.value in db.tasks && db.tasks[e.task.value].pair == e.pair.value)
       && forall i | 0 <= i < |log.rows| :: log.rows[i].content.eventId != e.eventId && log.rows[i].hash != row.hash)
    // the entry of its own transaction asks more of an event that names a task or a Pair alone
    ensures NamesExist(db, pairs, e) <==>
      (match (e.pair, e.task)
       case (None, Some(t)) => e.contract.Some? || e.attempt.Some? || t in db.tasks
       case (Some(p), None) => p in pairs
       case _ => true)
    ensures var row := Extended(k, log, ContentOf(k, e)).rows[|log.rows|]; var c := row.content;
      && row.sequence == |log.rows| + 1 && row.prev == (if log.rows == [] then k.genesis else log.rows[|log.rows| - 1].hash)
      && c.eventId == e.eventId && c.eventType == e.eventType && c.timestamp == e.timestamp && c.actor == e.actor && c.details == e.details
      && c.pair == (if e.pair.Some? then k.text(e.pair.value) else []) && c.task == (if e.task.Some? then k.text(e.task.value) else [])
      && c.contract == (if e.contract.Some? then k.text(e.contract.value) else []) && c.attempt == (if e.attempt.Some? then k.text(e.attempt.value) else [])
  {
    forall i | 0 <= i < |log.rows| ensures log.rows[i].sequence != |log.rows| + 1 { SequenceOf(k, log.rows, i); }
  }

  function ContentsOf(rows: seq<Row>): seq<Content> { seq(|rows|, i requires 0 <= i < |rows| => rows[i].content) }

  /** A log is verified exactly when it is what appending its contents one by one builds. */
  lemma {:induction false} VerifiedIsChain(k: Params, log: Log)
    ensures WellFormed(k, log) <==> log == ChainOf(k, ContentsOf(log.rows))
    decreases |log.rows|
  {
    ChainVerifies(k, ContentsOf(log.rows));
    if WellFormed(k, log) && |log.rows| > 0 {
      hide HashOf;
      var n := |log.rows| - 1;
      var rest := Log(log.rows[..n], n, PrevOf(k, log.rows, n));
      LastIsAppended(k, log, rest);
      VerifiedIsChain(k, rest);
      assert ContentsOf(log.rows)[..n] == ContentsOf(rest.rows);
    }
  }

  lemma LastIsAppended(k: Params, log: Log, rest: Log)
    requires WellFormed(k, log) && |log.rows| > 0
    requires rest == Log(log.rows[..|log.rows| - 1], |log.rows| - 1, PrevOf(k, log.rows, |log.rows| - 1))
    ensures WellFormed(k, rest) && log == Extended(k, rest, log.rows[|log.rows| - 1].content)
  {
    var n := |log.rows| - 1;
    forall i | 0 <= i < n ensures Linked(k, rest.rows, i) { assert Linked(k, log.rows, i); }
    assert Linked(k, log.rows, n) && log.rows == rest.rows + [log.rows[n]];
  }

  class AuditStore {
    const params: Params
    /** The rows in sequence order. */
    var log: Log

    constructor (params: Params)
      ensures this.params == params && log == ChainOf(params, [])
    {
      this.params := params;
      log := Log([], 0, params.genesis);
    }

    /** appendAuditEventTx: read the head, insert the next row, move the head. */
    method Append(db: DB, e: AuditEvent) returns (ok: bool)
      modifies this
      ensures var grown := Extended(params, old(log), ContentOf(params, e));
        && (ok <==> FieldsValid(params, e) && LineageKnown(db, e) && FreshRow(old(log).rows, grown.rows[|old(log).rows|]))
        && log == if ok then grown else old(log)
      ensures WellFormed(params, old(log)) ==> WellFormed(params, log)
      ensures ok && StoredRows(params, old(log).rows) && |e.timestamp| < UINT32_RANGE && |old(log).headHash| == |params.genesis| ==> StoredRows(params, log.rows)
    {
      hide WellFormed, StoredRows, HashOf;
      if e.eventId == [] || e.eventType == [] || e.actor == [] { return false; }
      var c := ContentOf(params, e);
      if |c.eventId| > MAX_FIELD || |c.eventType| > MAX_FIELD || |c.actor| > MAX_FIELD || |c.task| > MAX_FIELD
         || |c.contract| > MAX_FIELD || |c.attempt| > MAX_FIELD || |c.pair| > MAX_FIELD { return false; }
      if e.contract.Some? && e.task.None? { return false; }
      if e.attempt.Some? && (e.task.None? || e.contract.None?) { return false; }
      if e.contract.Some? && (e.contract.value !in db.contracts || db.contracts[e.contract.value].task != e.task.value) { return false; }
      if e.attempt.Some? && (e.attempt.value !in db.attempts || db.attempts[e.attempt.value].lineage.task != e.task.value
                             || db.attempts[e.attempt.value].lineage.contract != e.contract.value) { return false; }
      if e.pair.Some? && e.task.Some? && (e.task.value !in db.tasks || db.tasks[e.task.value].pair != e.pair.value) { return false; }
      var next := log.headSequence + 1;
      var row := Row(next, c, log.headHash, HashOf(params, next, c, log.headHash));
      for i := 0 to |log.rows|
        invariant log == old(log) && forall j | 0 <= j < i ::
          log.rows[j].sequence != row.sequence && log.rows[j].content.eventId != row.content.eventId && log.rows[j].hash != row.hash
      {
        if log.rows[i].sequence == row.sequence || log.rows[i].content.eventId == row.content.eventId || log.rows[i].hash == row.hash { return false; }
      }
      if WellFormed(params, log) { ExtendedVerifies(params, log, c); }
      if StoredRows(params, log.rows) && |e.timestamp| < UINT32_RANGE && |log.headHash| == |params.genesis| { AppendedStored(params, log, e); }
      log := Log(log.rows + [row], next, row.hash);
      return true;
    }

    /** AppendAuditEvent, the entry of its own transaction: an event that names a task or a Pair
        alone must name one that exists. */
    method AppendAuditEvent(db: DB, pairs: set<Id>, e: AuditEvent) returns (ok: bool)
      modifies this
      ensures var grown := Extended(params, old(log), ContentOf(params, e));
        && (ok <==> FieldsValid(params, e) && LineageKnown(db, e) && NamesExist(db, pairs, e) && FreshRow(old(log).rows, grown.rows[|old(log).rows|]))
        && log == if ok then grown else old(log)
      ensures WellFormed(params, old(log)) ==> WellFormed(params, log)
    {
      if e.task.Some? && e.contract.None? && e.attempt.None? && e.pair.None? && e.task.value !in db.tasks { return false; }
      if e.pair.Some? && e.task.None? && e.pair.value !in pairs { return false; }
      ok := Append(db, e);
    }

    /** VerifyAuditChain accepts exactly the well-formed chains. */
    method Verify() returns (ok: bool)
      ensures ok <==> WellFormed(params, log)
    {
      if log.headSequence == 0 {
        return log.headHash == params.genesis && |log.rows| == 0;
      }
      var expectedSeq, expectedPrev := 1, params.genesis;
      for i := 0 to |log.rows|
        invariant expectedSeq == i + 1 && expectedPrev == PrevOf(params, log.rows, i)
        invariant forall j | 0 <= j < i :: Linked(params, log.rows, j)
      {
        var row := log.rows[i];
        assert Linked(params, log.rows, i) <==>
          row.sequence == expectedSeq && row.prev == expectedPrev && row.hash == HashOf(params, row.sequence, row.content, row.prev);
        if row.sequence != expectedSeq || row.prev != expectedPrev { return false; }
        if row.hash != HashOf(params, row.sequence, row.content, row.prev) { return false; }
        expectedPrev := row.hash;
        expectedSeq := expectedSeq + 1;
      }
      return expectedSeq - 1 == log.headSequence && expectedPrev == log.headHash;
    }

    /** The rows of one ListAuditEvents query. */
    method Query(from: int, limit: nat) returns (rows: seq<Row>)
      ensures rows == PageOf(log.rows, from, limit)
    {
      rows := [];
      for i := 0 to |log.rows|
        invariant rows == PageOf(log.rows[..i], from, limit)
      {
        assert log.rows[..i + 1][..i] == log.rows[..i];
        if log.rows[i].sequence > from && |rows| < limit { rows := rows + [log.rows[i]]; }
      }
      assert log.rows[..|log.rows|] == log.rows;
    }

    /** ListAuditEvents: up to limit rows above a sequence number, in order; None is the refusal
        of a limit outside 1..500, or of a page with a row that does not decode. */
    method List(after: int, limit: int) returns (page: Option<seq<Row>>)
      ensures 1 <= limit <= MAX_AUDIT_LIMIT ==>
        var asked := PageOf(log.rows, if after < 0 then 0 else after, limit);
        page == if Decodes(params, asked) then Some(asked) else None
      ensures !(1 <= limit <= MAX_AUDIT_LIMIT) ==> page.None?
    {
      if limit <= 0 || limit > MAX_AUDIT_LIMIT { return None; }
      var rows := Query(if after < 0 then 0 else after, limit);
      for i := 0 to |rows|
        invariant Decodes(params, rows[..i])
      {
        if !params.readable(rows[i].content) { return None; }
      }
      assert rows[..|rows|] == rows;
      return Some(rows);
    }

    /** The paging loop of containAmbiguousSend, after the chain has been verified, sees every
        event once, in order, unless one does not decode. */
    method ReadAll() returns (all: Option<seq<Row>>)
      requires Chained(params, log.rows)
      ensures all == if Decodes(params, log.rows) then Some(log.rows) else None
    {
      hide Chained, PageOf;
      var read: seq<Row> := [];
      var after: nat := 0;
      while true
        invariant after <= |log.rows| && read == log.rows[..after] && Decodes(params, read)
        decreases |log.rows| - after
      {
        var listed := List(after, MAX_AUDIT_LIMIT);
        NextPage(params, log.rows, after, MAX_AUDIT_LIMIT);
        if listed.None? { return None; }
        var page := listed.value;
        read := read + page;
        assert log.rows[..|log.rows|] == log.rows;
        if |page| < MAX_AUDIT_LIMIT { return Some(read); }
        after := page[|page| - 1].sequence;
      }
    }
  }
}
