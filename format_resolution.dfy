/** Classification of the connectivity object and resolution of the
    message-passing strategy, with the per-instance strategy cache
    (message_passing.py lines 70-157). */
module FormatResolution {
  import opened MessagePassingTypes

  /** A `torch.LongTensor` of shape [2, *] (lines 90-91). */
  predicate IsEdgeIndexTensor(adj: AdjType): (b: bool)
    ensures b <==> adj.Tensor? && adj.isLong && |adj.shape| == 2 && adj.shape == [2, adj.shape[1]]
  {
    adj.Tensor? && |adj.shape| == 2 && adj.shape[0] == 2 && adj.isLong
  }

  /** `get_adj_format`: the tests of lines 90-100 in order, and the
      `ValueError` of lines 102-109 when none matches. Every object gets
      exactly one tag or the error. */
  function GetAdjFormat(adj: AdjType): (r: Result<AdjFormat>)
    ensures r == Ok(EdgeIndex) <==> IsEdgeIndexTensor(adj)
    ensures r == Ok(SparseAdj) <==> adj.SparseTensor?
    ensures r == Ok(DenseAdj) <==> adj.Tensor? && !IsEdgeIndexTensor(adj)
    ensures r.Err? <==> adj.Other?
    ensures r.Err? ==> r.error == ValueError
  {
    if IsEdgeIndexTensor(adj) then Ok(EdgeIndex)
    else if adj.SparseTensor? then Ok(SparseAdj)
    else if adj.Tensor? then Ok(DenseAdj)
    else Err(ValueError)
  }

  // The capability predicates of lines 70-84.

  predicate SupportsSparseFusedFormat(s: Settings): (b: bool)
    ensures b <==> Implements(s.hooks, SparseMessageAndAggregate)
  {
    s.hooks.sparseMessageAndAggregate
  }

  predicate SupportsDenseFusedFormat(s: Settings): (b: bool)
    ensures b <==> Implements(s.hooks, DenseMessageAndAggregate)
  {
    s.hooks.denseMessageAndAggregate
  }

  /** With a configured `aggr`, only `message` matters; without one, both
      `message` and `aggregate` must be overridden. */
  predicate SupportsSparseFormat(s: Settings): (b: bool)
    ensures s.aggr.Some? ==> (b <==> Implements(s.hooks, Message))
    ensures s.aggr.None? ==> (b <==> Implements(s.hooks, Message) && Implements(s.hooks, Aggregate))
  {
    s.hooks.message && (s.hooks.aggregate || s.aggr.Some?)
  }

  /** The same test with `partial_message` and `partial_aggregate`. */
  predicate SupportsPartialFormat(s: Settings): (b: bool)
    ensures s.aggr.Some? ==> (b <==> Implements(s.hooks, PartialMessage))
    ensures s.aggr.None? ==> (b <==> Implements(s.hooks, PartialMessage) && Implements(s.hooks, PartialAggregate))
  {
    s.hooks.partialMessage && (s.hooks.partialAggregate || s.aggr.Some?)
  }

  /** The strategy resolved for `adj` when the cache has no entry for it and
      no `format` was given: the lines 129-147 branches, in order. */
  function ResolveByCapability(adj: AdjFormat, s: Settings): (r: Option<MpFormat>)
    ensures r.Some? ==> Supports(adj, r.value, s)
    ensures adj == EdgeIndex ==> r.None?
    ensures adj == DenseAdj ==> r != Some(Sparse)
    ensures r.None? && adj != EdgeIndex ==> forall m :: m in Preferences(adj) ==> !Supports(adj, m, s)
  {
    if adj == SparseAdj && SupportsSparseFusedFormat(s) then Some(Fused)
    else if adj == DenseAdj && SupportsDenseFusedFormat(s) then Some(Fused)
    else if adj == SparseAdj && SupportsSparseFormat(s) then Some(Sparse)
    else if adj == SparseAdj && SupportsPartialFormat(s) then Some(Partial)
    else if adj == DenseAdj && SupportsPartialFormat(s) then Some(Partial)
    else None
  }

  /** The strategy `get_mp_format` computes on a cache miss (lines 120-147);
      `None` is the case that raises `TypeError` at line 149. An edge list is
      always "sparse", even against an explicit format and without any
      capability; otherwise an explicit format wins unchecked; otherwise the
      capabilities decide, and a dense adjacency never gets plain "sparse". */
  function ResolveMpFormat(adj: AdjFormat, s: Settings): (r: Option<MpFormat>)
    ensures adj == EdgeIndex ==> r == Some(Sparse)
    ensures adj != EdgeIndex && s.format.Some? ==> r == s.format
    ensures adj != EdgeIndex && s.format.None? ==> r != Some(Dense)
    ensures adj == DenseAdj && s.format.None? ==> r != Some(Sparse)
    ensures adj == SparseAdj && s.format.None? ==>
      && (r == Some(Fused) <==> SupportsSparseFusedFormat(s))
      && (r == Some(Sparse) <==> !SupportsSparseFusedFormat(s) && SupportsSparseFormat(s))
      && (r == Some(Partial) <==>
            !SupportsSparseFusedFormat(s) && !SupportsSparseFormat(s) && SupportsPartialFormat(s))
    ensures adj == DenseAdj && s.format.None? ==>
      && (r == Some(Fused) <==> SupportsDenseFusedFormat(s))
      && (r == Some(Partial) <==> !SupportsDenseFusedFormat(s) && SupportsPartialFormat(s))
  {
    if adj == EdgeIndex then Some(Sparse)
    else if s.format.Some? then s.format
    else ResolveByCapability(adj, s)
  }

  // An independent reference for the capability-driven choice: the first
  // strategy, in the order of preference for the representation, that the
  // layer supports.

  /** Whether the layer's hooks make strategy `m` possible for `adj`. */
  predicate Supports(adj: AdjFormat, m: MpFormat, s: Settings)
  {
    match m
    case Fused =>
      (adj == SparseAdj && SupportsSparseFusedFormat(s)) || (adj == DenseAdj && SupportsDenseFusedFormat(s))
    case Sparse => SupportsSparseFormat(s)
    case Partial => SupportsPartialFormat(s)
    case Dense => false
  }

  /** Strategies in order of preference: fused first, "sparse" before
      "partial" for sparse adjacencies, never "sparse" for dense ones. The
      reference covers adjacency matrices only: an edge list resolves to
      "sparse" without any capability test (lines 121-122), so its entry is
      never consulted. */
  function Preferences(adj: AdjFormat): seq<MpFormat>
  {
    match adj
    case EdgeIndex => [Sparse]
    case SparseAdj => [Fused, Sparse, Partial]
    case DenseAdj => [Fused, Partial]
  }

  /** Position of the first supported strategy in `prefs`, or `|prefs|`
      when none is supported. */
  function FirstSupportedIndex(adj: AdjFormat, prefs: seq<MpFormat>, s: Settings): (k: nat)
    ensures k <= |prefs|
    ensures k < |prefs| ==> Supports(adj, prefs[k], s)
    ensures forall j :: 0 <= j < k ==> !Supports(adj, prefs[j], s)
    decreases |prefs|
  {
    if prefs == [] then 0
    else if Supports(adj, prefs[0], s) then 0
    else 1 + FirstSupportedIndex(adj, prefs[1..], s)
  }

  /** The strategy the preference order picks, if any. */
  function FirstSupported(adj: AdjFormat, s: Settings): Option<MpFormat>
  {
    var prefs := Preferences(adj);
    var k := FirstSupportedIndex(adj, prefs, s);
    if k < |prefs| then Some(prefs[k]) else None
  }

  /** Without an explicit format, the branch chain of lines 129-147 picks
      exactly the first supported strategy in preference order: the chosen
      strategy is supported and every more preferred one is not. */
  lemma ResolveIsFirstSupported(adj: AdjFormat, s: Settings)
    requires adj != EdgeIndex && s.format.None?
    ensures ResolveMpFormat(adj, s) == FirstSupported(adj, s)
  {
    var prefs := Preferences(adj);
    var k := FirstSupportedIndex(adj, prefs, s);
    if adj == SparseAdj {
      assert prefs[1..] == [Sparse, Partial] && prefs[1..][1..] == [Partial];
      var last := FirstSupportedIndex(adj, [Partial], s);
      var middle := FirstSupportedIndex(adj, [Sparse, Partial], s);
      assert middle == if SupportsSparseFormat(s) then 0 else 1 + last;
      assert k == if Supports(adj, Fused, s) then 0 else 1 + middle;
    } else {
      assert prefs[1..] == [Partial] && prefs[1..][1..] == [];
      var last := FirstSupportedIndex(adj, [Partial], s);
      assert last == if SupportsPartialFormat(s) then 0 else 1;
      assert k == if Supports(adj, Fused, s) then 0 else 1 + last;
    }
  }

  /** A cache entry is only ever what resolution gives for its tag: the
      invariant that makes the cache benign while the settings stay fixed. */
  ghost predicate ConsistentCache(cache: map<AdjFormat, MpFormat>, s: Settings)
  {
    forall adj :: adj in cache ==> ResolveMpFormat(adj, s) == Some(cache[adj])
  }

  /** Result of `get_mp_format` together with the cache after the call. */
  datatype Resolved = Resolved(result: Result<MpFormat>, cache: map<AdjFormat, MpFormat>)

  /** `get_mp_format` (lines 113-157) on the cache `__cached_mp_format__`:
      a cached entry is returned unchanged; otherwise the resolved strategy is
      written under `adj` only; when nothing resolves, the `TypeError` leaves
      the cache as it was. */
  function CachedResolve(cache: map<AdjFormat, MpFormat>, adj: AdjFormat, s: Settings): (r: Resolved)
    ensures adj in cache ==> r == Resolved(Ok(cache[adj]), cache)
    ensures adj !in cache ==>
      (r.result.Ok? <==> ResolveMpFormat(adj, s).Some?) &&
      (r.result.Ok? ==> ResolveMpFormat(adj, s) == Some(r.result.value))
    ensures r.result.Ok? ==> r.cache == cache[adj := r.result.value]
    ensures r.result.Err? ==> r.cache == cache && r.result.error == TypeError(NoMpFormat(adj))
  {
    var mp := if adj in cache then Some(cache[adj]) else ResolveMpFormat(adj, s);
    match mp
    case None => Resolved(Err(TypeError(NoMpFormat(adj))), cache)
    case Some(m) => Resolved(Ok(m), cache[adj := m])
  }

  /** Resolving keeps a consistent cache consistent. */
  lemma CachedResolveKeepsConsistent(cache: map<AdjFormat, MpFormat>, adj: AdjFormat, s: Settings)
    requires ConsistentCache(cache, s)
    ensures ConsistentCache(CachedResolve(cache, adj, s).cache, s)
  {
  }

  /** With a consistent cache, the cache changes nothing about the answer:
      it is the fresh resolution, as an `Ok` or as the `TypeError`. */
  lemma CachedEqualsFresh(cache: map<AdjFormat, MpFormat>, adj: AdjFormat, s: Settings)
    requires ConsistentCache(cache, s)
    ensures CachedResolve(cache, adj, s).result ==
      match ResolveMpFormat(adj, s)
      case Some(m) => Ok(m)
      case None => Err(TypeError(NoMpFormat(adj)))
  {
  }

  /** Calling `get_mp_format` twice with the same tag: the second call returns
      the first's answer and writes nothing new. */
  lemma CachedResolveIdempotent(cache: map<AdjFormat, MpFormat>, adj: AdjFormat, s: Settings, s': Settings)
    requires CachedResolve(cache, adj, s).result.Ok?
    ensures var first := CachedResolve(cache, adj, s);
      CachedResolve(first.cache, adj, s') == first
  {
  }

  /** One call of `get_mp_format`, with whatever settings the instance has at
      that moment. */
  datatype Call = Call(adj: AdjFormat, settings: Settings)

  /** The cache after a sequence of `get_mp_format` calls. */
  function CacheAfter(cache: map<AdjFormat, MpFormat>, calls: seq<Call>): map<AdjFormat, MpFormat>
  {
    if calls == [] then cache
    else
      var last := calls[|calls| - 1];
      CachedResolve(CacheAfter(cache, calls[..|calls| - 1]), last.adj, last.settings).cache
  }

  /** The answer of the `i`-th call in the sequence. */
  function AnswerAt(cache: map<AdjFormat, MpFormat>, calls: seq<Call>, i: nat): Result<MpFormat>
    requires i < |calls|
  {
    CachedResolve(CacheAfter(cache, calls[..i]), calls[i].adj, calls[i].settings).result
  }

  /** The cache only grows: a written entry is never removed or changed by
      later calls, whatever settings they run with. */
  lemma {:induction false} CacheEntryIsStable(cache: map<AdjFormat, MpFormat>, calls: seq<Call>, adj: AdjFormat)
    requires adj in cache
    ensures adj in CacheAfter(cache, calls) && CacheAfter(cache, calls)[adj] == cache[adj]
    decreases |calls|
  {
    if calls != [] {
      CacheEntryIsStable(cache, calls[..|calls| - 1], adj);
    }
  }

  /** Once a tag has an answer in the cache, every later call for that tag
      returns that answer, even if capability flags or `format` changed. */
  lemma {:induction false} LaterCallsReturnCached(cache: map<AdjFormat, MpFormat>, calls: seq<Call>, i: nat)
    requires i < |calls| && calls[i].adj in cache
    ensures AnswerAt(cache, calls, i) == Ok(cache[calls[i].adj])
  {
    CacheEntryIsStable(cache, calls[..i], calls[i].adj);
  }

  /** After one successful call for `adj`, any sequence of further calls
      answers every call for `adj` with the first answer. */
  lemma {:induction false} FirstAnswerIsFinal(cache: map<AdjFormat, MpFormat>, first: Call, calls: seq<Call>, i: nat)
    requires CachedResolve(cache, first.adj, first.settings).result.Ok?
    requires i < |calls| && calls[i].adj == first.adj
    ensures AnswerAt(CachedResolve(cache, first.adj, first.settings).cache, calls, i)
         == CachedResolve(cache, first.adj, first.settings).result
  {
    var r := CachedResolve(cache, first.adj, first.settings);
    LaterCallsReturnCached(r.cache, calls, i);
  }
}
