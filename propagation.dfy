/** The guards and the hook dispatch of `MessagePassing.propagate`
    (message_passing.py lines 16-21, 159-247), the default `aggregate`
    (lines 258-269), and the properties of a whole `propagate` call. */
module Propagation {
  import opened MessagePassingTypes
  import opened FormatResolution

  /** The four bound argument collectors of the module-level table. */
  datatype Collector =
    | EdgeIndexSparseCollector
    | SparseAdjFusedCollector
    | SparseAdjSparseCollector
    | DenseAdjFusedCollector

  /** `__collectors__` (lines 16-21): no key for "partial" or "dense". */
  const Collectors: map<(AdjFormat, MpFormat), Collector> := map[
    (EdgeIndex, Sparse) := EdgeIndexSparseCollector,
    (SparseAdj, Fused) := SparseAdjFusedCollector,
    (SparseAdj, Sparse) := SparseAdjSparseCollector,
    (DenseAdj, Fused) := DenseAdjFusedCollector]

  /** The (representation, strategy) pair a collector serves. */
  function CollectorKey(c: Collector): (AdjFormat, MpFormat)
  {
    match c
    case EdgeIndexSparseCollector => (EdgeIndex, Sparse)
    case SparseAdjFusedCollector => (SparseAdj, Fused)
    case SparseAdjSparseCollector => (SparseAdj, Sparse)
    case DenseAdjFusedCollector => (DenseAdj, Fused)
  }

  /** `__get_collector__` (lines 159-170): a collector exists exactly for
      "sparse" on an edge list or sparse adjacency and for "fused" on a sparse
      or dense adjacency, and it is the one serving that pair; every other
      pair, so every "partial" and "dense" strategy, raises `TypeError`. */
  function GetCollector(adj: AdjFormat, mp: MpFormat): (r: Result<Collector>)
    ensures r.Ok? <==> (mp == Sparse && adj != DenseAdj) || (mp == Fused && adj != EdgeIndex)
    ensures r.Ok? ==> CollectorKey(r.value) == (adj, mp)
    ensures r.Err? ==> r.error == TypeError(NoCollector(adj, mp))
  {
    var key := (adj, mp);
    assert key in Collectors <==> (mp == Sparse && adj != DenseAdj) || (mp == Fused && adj != EdgeIndex);
    if key in Collectors then Ok(Collectors[(adj, mp)])
    else Err(TypeError(NoCollector(adj, mp)))
  }

  /** The reduction primitive of `torch_scatter` the default `aggregate`
      calls; the reduction itself is not modelled. */
  datatype Reduction =
    | SegmentCsr(reduce: Aggr)
    | Scatter(reduce: Aggr, dim: nat, dimSize: Option<nat>)

  /** The default `aggregate` (lines 258-269): `NotImplementedError` without
      an `aggr`; otherwise a segment reduction when a `ptr` is supplied and a
      scatter along `node_dim` into `dim_size` buckets when not, both with the
      configured reduction. */
  function DefaultAggregate(s: Settings, hasPtr: bool, dimSize: Option<nat>): (r: Result<Reduction>)
    ensures r.Err? <==> s.aggr.None?
    ensures r.Err? ==> r.error == NotImplementedError(Aggregate)
    ensures r.Ok? ==> r.value.reduce == s.aggr.value && (r.value.SegmentCsr? <==> hasPtr)
    ensures r.Ok? && r.value.Scatter? ==> r.value.dim == s.nodeDim && r.value.dimSize == dimSize
  {
    match s.aggr
    case None => Err(NotImplementedError(Aggregate))
    case Some(a) => if hasPtr then Ok(SegmentCsr(a)) else Ok(Scatter(a, s.nodeDim, dimSize))
  }

  /** The optional `size` argument of `propagate`. */
  type Size = Option<(nat, nat)>

  /** The explain-mask length fix-up of lines 228-235, on lengths only: when
      the message count differs from the mask length, `size[0]` ones are
      appended (raising `TypeError` when `size` is `None`), and the assertion
      then demands equal lengths. The result is the number of ones appended.
      A mask longer than the messages is never accepted. */
  function PadEdgeMask(maskLen: nat, messageCount: nat, size: Size): (r: Result<nat>)
    ensures r.Ok? <==>
      messageCount == maskLen || (size.Some? && messageCount == maskLen + size.value.0)
    ensures r.Ok? ==> maskLen + r.value == messageCount
    ensures r.Ok? && r.value != 0 ==> size.Some? && r.value == size.value.0
    ensures messageCount < maskLen ==> r.Err?
    ensures r.Err? ==>
      r.error == (if size.None? then TypeError(SizeNotSubscriptable) else AssertionError(EdgeMaskLengthCheck))
  {
    if messageCount == maskLen then Ok(0)
    else if size.None? then Err(TypeError(SizeNotSubscriptable))
    else if messageCount == maskLen + size.value.0 then Ok(size.value.0)
    else Err(AssertionError(EdgeMaskLengthCheck))
  }

  /** What the unseen collector and the layer's own `message` produce,
      reduced to what the dispatch looks at: the number of messages
      (`out.size(0)`), whether the collected arguments hold a `ptr`, and the
      collected `dim_size`. */
  datatype Outputs = Outputs(messageCount: nat, hasPtr: bool, dimSize: Option<nat>)

  /** One observable step of a `propagate` call. */
  datatype Step =
    | Collect(collector: Collector)
    | Invoke(hook: Hook)
    | ApplyEdgeMask(maskLength: nat, appended: nat)
    | Reduce(primitive: Reduction)

  /** Calling a hook: the base class's version raises `NotImplementedError`. */
  function CallHook(s: Settings, hook: Hook): (r: Result<Step>)
    ensures r.Ok? <==> Implements(s.hooks, hook)
    ensures r.Ok? ==> r.value == Invoke(hook)
    ensures r.Err? ==> r.error == NotImplementedError(hook)
  {
    if Implements(s.hooks, hook) then Ok(Invoke(hook)) else Err(NotImplementedError(hook))
  }

  /** The explain-mode masking of the messages (lines 222-236); `None` for
      the mask is the unset `__edge_mask__`, whose `.sigmoid()` raises. */
  function MaskMessages(explain: bool, edgeMask: Option<nat>, size: Size, out: Outputs): (r: Result<seq<Step>>)
    ensures !explain ==> r == Ok([])
    ensures explain && edgeMask.None? ==> r == Err(AttributeError("sigmoid"))
    ensures explain && r.Ok? ==>
      && |r.value| == 1 && r.value[0].ApplyEdgeMask?
      && r.value[0].maskLength == edgeMask.value
      && r.value[0].maskLength + r.value[0].appended == out.messageCount
    ensures explain && edgeMask.Some? && out.messageCount < edgeMask.value ==> r.Err?
  {
    if !explain then Ok([])
    else match edgeMask
      case None => Err(AttributeError("sigmoid"))
      case Some(len) =>
        match PadEdgeMask(len, out.messageCount, size)
        case Err(e) => Err(e)
        case Ok(n) => Ok([ApplyEdgeMask(len, n)])
  }

  /** The aggregation step: the layer's own `aggregate` if it overrides it,
      the default otherwise. */
  function AggregateStep(s: Settings, out: Outputs): (r: Result<Step>)
    ensures r.Err? <==> !s.hooks.aggregate && s.aggr.None?
    ensures r.Err? ==> r.error == NotImplementedError(Aggregate)
    ensures s.hooks.aggregate ==> r == Ok(Invoke(Aggregate))
    ensures r.Ok? && !s.hooks.aggregate ==> r.value.Reduce? && r.value.primitive.reduce == s.aggr.value
  {
    if s.hooks.aggregate then Ok(Invoke(Aggregate))
    else match DefaultAggregate(s, out.hasPtr, out.dimSize)
      case Err(e) => Err(e)
      case Ok(red) => Ok(Reduce(red))
  }

  /** "Conditional" message passing (lines 207-247), after collection. The
      "partial" branch reads the misspelt attribute `__partial_message__`, and
      a pair matching no branch leaves `out` unbound. */
  function Dispatch(s: Settings, adj: AdjFormat, mp: MpFormat, explain: bool, edgeMask: Option<nat>,
                    size: Size, out: Outputs): (r: Result<seq<Step>>)
    ensures r.Ok? ==> |r.value| >= 1 && (mp == Fused || mp == Sparse)
    ensures r.Ok? && mp == Sparse ==> r.value[0] == Invoke(Message)
    ensures r.Ok? ==> forall i :: 0 <= i < |r.value| && r.value[i].Invoke? ==> Implements(s.hooks, r.value[i].hook)
    ensures GetCollector(adj, mp).Ok? ==> r != Err(AttributeError("__partial_message__")) && r != Err(UnboundLocalError)
  {
    if adj == SparseAdj && mp == Fused then
      match CallHook(s, SparseMessageAndAggregate) case Err(e) => Err(e) case Ok(step) => Ok([step])
    else if adj == DenseAdj && mp == Fused then
      match CallHook(s, DenseMessageAndAggregate) case Err(e) => Err(e) case Ok(step) => Ok([step])
    else if mp == Sparse then
      match CallHook(s, Message)
      case Err(e) => Err(e)
      case Ok(message) =>
        match MaskMessages(explain, edgeMask, size, out)
        case Err(e) => Err(e)
        case Ok(masking) =>
          match AggregateStep(s, out)
          case Err(e) => Err(e)
          case Ok(aggregate) => Ok([message] + masking + [aggregate])
    else if mp == Partial then Err(AttributeError("__partial_message__"))
    else Err(UnboundLocalError)
  }

  /** Lines 183-247: the explain guard, the flow guard, the collector lookup
      and the dispatch, once the strategy `mp` is resolved. */
  function Guarded(s: Settings, adj: AdjFormat, mp: MpFormat, explain: bool, edgeMask: Option<nat>,
                   size: Size, out: Outputs): (r: Result<seq<Step>>)
    ensures r.Ok? ==>
      && |r.value| >= 2 && r.value[0].Collect?
      && CollectorKey(r.value[0].collector) == (adj, if explain then Sparse else mp)
    ensures r.Ok? && explain ==> adj == EdgeIndex && SupportsSparseFormat(s)
    ensures r.Ok? && adj != EdgeIndex ==> s.flow == SourceToTarget
    ensures r.Ok? ==> forall i :: 0 <= i < |r.value| && r.value[i].Invoke? ==> Implements(s.hooks, r.value[i].hook)
    ensures r != Err(AttributeError("__partial_message__")) && r != Err(UnboundLocalError)
  {
    if explain && (adj != EdgeIndex || !SupportsSparseFormat(s)) then Err(TypeError(ExplainUnsupported))
    else
      var mp' := if explain then Sparse else mp;
      if (adj == SparseAdj || adj == DenseAdj) && s.flow == TargetToSource then Err(TypeError(FlowUnsupported))
      else
        assert adj != EdgeIndex ==> s.flow == SourceToTarget;
        match GetCollector(adj, mp')
        case Err(e) => Err(e)
        case Ok(c) =>
          match Dispatch(s, adj, mp', explain, edgeMask, size, out)
          case Err(e) => Err(e)
          case Ok(steps) => Ok([Collect(c)] + steps)
  }

  /** Result of `propagate` together with the strategy cache after the call. */
  datatype Propagated = Propagated(result: Result<seq<Step>>, cache: map<AdjFormat, MpFormat>)

  /** A whole `propagate` call (lines 172-247) on a layer with settings `s`,
      strategy cache `cache` and explain state `explain`/`edgeMask`. */
  function PropagateSpec(s: Settings, cache: map<AdjFormat, MpFormat>, explain: bool, edgeMask: Option<nat>,
                         adj: AdjType, size: Size, out: Outputs): (p: Propagated)
    ensures GetAdjFormat(adj).Err? ==> p == Propagated(Err(ValueError), cache)
    ensures GetAdjFormat(adj).Ok? ==> p.cache == CachedResolve(cache, GetAdjFormat(adj).value, s).cache
    ensures p.result.Ok? ==>
      && GetAdjFormat(adj).Ok? && GetAdjFormat(adj).value in p.cache
      && |p.result.value| >= 2 && p.result.value[0].Collect?
      && CollectorKey(p.result.value[0].collector).0 == GetAdjFormat(adj).value
    ensures p.result.Ok? ==>
      forall i :: 0 <= i < |p.result.value| && p.result.value[i].Invoke? ==> Implements(s.hooks, p.result.value[i].hook)
    ensures p.result != Err(AttributeError("__partial_message__")) && p.result != Err(UnboundLocalError)
  {
    match GetAdjFormat(adj)
    case Err(e) => Propagated(Err(e), cache)
    case Ok(a) =>
      var resolved := CachedResolve(cache, a, s);
      match resolved.result
      case Err(e) => Propagated(Err(e), resolved.cache)
      case Ok(mp) => Propagated(Guarded(s, a, mp, explain, edgeMask, size, out), resolved.cache)
  }

  /** The `supports_*` predicates (lines 70-79) say exactly when the hooks of
      a strategy can run: "sparse" support is `message` succeeding and the
      aggregation step not raising, fused support is the fused hook
      succeeding. */
  lemma SupportsIffHooksRun(s: Settings, out: Outputs)
    ensures SupportsSparseFormat(s) <==> CallHook(s, Message).Ok? && AggregateStep(s, out).Ok?
    ensures SupportsSparseFusedFormat(s) <==> CallHook(s, SparseMessageAndAggregate).Ok?
    ensures SupportsDenseFusedFormat(s) <==> CallHook(s, DenseMessageAndAggregate).Ok?
  {
  }

  // Properties of a `propagate` call.

  /** The cache entry is written by the strategy resolution before any guard
      runs, so it stays in place when a later guard, the collector lookup or a
      hook fails; a failure before it leaves the cache as it was. */
  lemma CacheWrittenBeforeGuards(s: Settings, cache: map<AdjFormat, MpFormat>, explain: bool,
                                 edgeMask: Option<nat>, adj: AdjType, size: Size, out: Outputs)
    ensures var p := PropagateSpec(s, cache, explain, edgeMask, adj, size, out);
      match GetAdjFormat(adj)
      case Err(_) => p.cache == cache
      case Ok(a) =>
        var resolved := CachedResolve(cache, a, s);
        && p.cache == resolved.cache
        && (resolved.result.Ok? ==> a in p.cache && p.cache[a] == resolved.result.value)
        && (resolved.result.Err? ==> p.cache == cache)
        && (forall other :: other != a ==> (other in p.cache <==> other in cache))
  {
  }

  /** In explain mode `propagate` succeeds only on an edge list with a layer
      supporting "sparse", and it then runs the "sparse" path with the mask
      applied; any other representation, or no "sparse" support, raises
      `TypeError` once the strategy is resolved. */
  lemma ExplainRequiresEdgeIndex(s: Settings, cache: map<AdjFormat, MpFormat>, edgeMask: Option<nat>,
                                 adj: AdjType, size: Size, out: Outputs)
    ensures var p := PropagateSpec(s, cache, true, edgeMask, adj, size, out);
      p.result.Ok? ==>
        && IsEdgeIndexTensor(adj) && SupportsSparseFormat(s)
        && |p.result.value| == 4
        && p.result.value[0] == Collect(EdgeIndexSparseCollector)
        && p.result.value[1] == Invoke(Message)
        && p.result.value[2].ApplyEdgeMask?
    ensures GetAdjFormat(adj).Ok? && CachedResolve(cache, GetAdjFormat(adj).value, s).result.Ok? ==>
      var p := PropagateSpec(s, cache, true, edgeMask, adj, size, out);
      (!IsEdgeIndexTensor(adj) || !SupportsSparseFormat(s)) <==> p.result == Err(TypeError(ExplainUnsupported))
  {
  }

  /** In explain mode no hook is ever missing: the explain guard already
      demands `message` and either an `aggregate` override or an `aggr`. */
  lemma ExplainNeverMissesHook(s: Settings, cache: map<AdjFormat, MpFormat>, edgeMask: Option<nat>,
                               adj: AdjType, size: Size, out: Outputs)
    ensures var r := PropagateSpec(s, cache, true, edgeMask, adj, size, out).result;
      r.Ok? || !r.error.NotImplementedError?
  {
  }

  /** Flow "target_to_source" with a sparse or dense adjacency raises
      `TypeError` once the strategy is resolved (the explain guard, when on,
      fires first); for an edge list the flow changes nothing. */
  lemma FlowGuard(s: Settings, cache: map<AdjFormat, MpFormat>, explain: bool, edgeMask: Option<nat>,
                  adj: AdjType, size: Size, out: Outputs)
    requires s.flow == TargetToSource
    ensures (GetAdjFormat(adj) in {Ok(SparseAdj), Ok(DenseAdj)} &&
             CachedResolve(cache, GetAdjFormat(adj).value, s).result.Ok?) ==>
      PropagateSpec(s, cache, explain, edgeMask, adj, size, out).result ==
        Err(TypeError(if explain then ExplainUnsupported else FlowUnsupported))
    ensures IsEdgeIndexTensor(adj) ==>
      PropagateSpec(s, cache, explain, edgeMask, adj, size, out) ==
      PropagateSpec(s.(flow := SourceToTarget), cache, explain, edgeMask, adj, size, out)
  {
  }

  /** In explain mode an edge list always runs "sparse": neither the
      explicit `format` nor the cached entry for the tag changes the call. */
  lemma ExplainIgnoresFormat(s: Settings, cache: map<AdjFormat, MpFormat>, edgeMask: Option<nat>,
                             adj: AdjType, size: Size, out: Outputs)
    requires IsEdgeIndexTensor(adj)
    ensures PropagateSpec(s, cache, true, edgeMask, adj, size, out).result
         == PropagateSpec(s.(format := None), cache - {EdgeIndex}, true, edgeMask, adj, size, out).result
  {
  }

  /** Outside explain mode a resolved "partial" or "dense" strategy never
      runs: it fails with a `TypeError`, at the flow guard or at the collector
      lookup. */
  lemma PartialAndDenseNeverRun(s: Settings, cache: map<AdjFormat, MpFormat>, edgeMask: Option<nat>,
                                adj: AdjType, size: Size, out: Outputs)
    requires GetAdjFormat(adj).Ok?
    requires CachedResolve(cache, GetAdjFormat(adj).value, s).result in {Ok(Partial), Ok(Dense)}
    ensures var p := PropagateSpec(s, cache, false, edgeMask, adj, size, out);
      p.result.Err? && p.result.error.TypeError?
  {
  }

  /** A successful call collects first with the collector for the pair, then
      runs exactly the hooks of the strategy: the fused hook alone for a
      fused strategy, and `message`, the optional mask, then aggregation for
      "sparse". */
  lemma DispatchOrder(s: Settings, cache: map<AdjFormat, MpFormat>, explain: bool, edgeMask: Option<nat>,
                      adj: AdjType, size: Size, out: Outputs)
    requires PropagateSpec(s, cache, explain, edgeMask, adj, size, out).result.Ok?
    ensures var a := GetAdjFormat(adj).value;
      var mp := CachedResolve(cache, a, s).result.value;
      var steps := PropagateSpec(s, cache, explain, edgeMask, adj, size, out).result.value;
      && steps[0].Collect?
      && (a == SparseAdj && mp == Fused ==>
            steps == [Collect(SparseAdjFusedCollector), Invoke(SparseMessageAndAggregate)])
      && (a == DenseAdj && mp == Fused ==>
            steps == [Collect(DenseAdjFusedCollector), Invoke(DenseMessageAndAggregate)])
      && (mp == Sparse ==>
            && CollectorKey(steps[0].collector) == (a, Sparse)
            && |steps| == (if explain then 4 else 3)
            && steps[1] == Invoke(Message)
            && (steps[|steps| - 1] == Invoke(Aggregate) || steps[|steps| - 1].Reduce?))
  {
  }

  /** The explain mask is padded with `size[0]` ones, not with the missing
      count: a call with a mask shorter than the messages succeeds only when
      the gap is exactly `size[0]`. */
  lemma MaskPaddingIsSizeZero(s: Settings, cache: map<AdjFormat, MpFormat>, maskLen: nat,
                              adj: AdjType, size: Size, out: Outputs)
    requires IsEdgeIndexTensor(adj) && SupportsSparseFormat(s)
    requires out.messageCount != maskLen
    requires PropagateSpec(s, cache, true, Some(maskLen), adj, size, out).result.Ok?
    ensures size.Some? && out.messageCount == maskLen + size.value.0
    ensures PropagateSpec(s, cache, true, Some(maskLen), adj, size, out).result.value[2]
         == ApplyEdgeMask(maskLen, size.value.0)
  {
  }

  /** A sparse adjacency on a layer overriding both the fused hook and
      `message`/`aggregate`, without an explicit format: the fused path is
      chosen and only the fused hook runs. */
  lemma FusedPreferred(s: Settings, edgeMask: Option<nat>, size: Size, out: Outputs)
    requires s.format.None? && s.flow == SourceToTarget
    requires s.hooks.sparseMessageAndAggregate && s.hooks.message && s.hooks.aggregate
    ensures var p := PropagateSpec(s, map[], false, edgeMask, SparseTensor, size, out);
      && p.cache == map[SparseAdj := Fused]
      && p.result == Ok([Collect(SparseAdjFusedCollector), Invoke(SparseMessageAndAggregate)])
  {
    assert CachedResolve(map[], SparseAdj, s).result == Ok(Fused);
    assert GetCollector(SparseAdj, Fused) == Ok(SparseAdjFusedCollector);
    assert Dispatch(s, SparseAdj, Fused, false, edgeMask, size, out) == Ok([Invoke(SparseMessageAndAggregate)]);
    assert [Collect(SparseAdjFusedCollector)] + [Invoke(SparseMessageAndAggregate)]
        == [Collect(SparseAdjFusedCollector), Invoke(SparseMessageAndAggregate)];
    assert Guarded(s, SparseAdj, Fused, false, edgeMask, size, out)
        == Ok([Collect(SparseAdjFusedCollector), Invoke(SparseMessageAndAggregate)]);
  }

  /** An explicit format is taken without checking capabilities, so a layer
      that sets `format='fused'` without overriding the fused hook fails only
      when the base hook raises `NotImplementedError`, and its cache already
      records "fused". */
  lemma ExplicitFormatIsUnchecked(s: Settings, edgeMask: Option<nat>, size: Size, out: Outputs)
    requires s.format == Some(Fused) && s.flow == SourceToTarget
    requires !s.hooks.sparseMessageAndAggregate
    ensures var p := PropagateSpec(s, map[], false, edgeMask, SparseTensor, size, out);
      && p.cache == map[SparseAdj := Fused]
      && p.result == Err(NotImplementedError(SparseMessageAndAggregate))
  {
  }
}
