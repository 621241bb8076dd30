# Message-passing dispatch of PyTorch Geometric's `MessagePassing`

This project models the dispatch core of the `MessagePassing` base class
(`torch_geometric/nn/conv/utils/message_passing.py`): how a layer is
validated at construction, how the connectivity object handed to
`propagate` is classified as an edge list, a sparse adjacency or a dense
adjacency, how a message-passing strategy ("fused", "sparse", "partial",
or an explicit "dense") is resolved and stored in the per-instance cache
`__cached_mp_format__`, which guards `propagate` applies (explain mode,
flow direction, the collector table), and which hooks then run, in which
order. Tensor contents are abstracted away: the model keeps shapes and
lengths where a decision depends on them, and records each call as a
sequence of steps (collect, invoke a hook, apply the explain mask, call a
reduction primitive) or as the Python exception it raises.

Files:

- `types.dfy` (module `MessagePassingTypes`): the connectivity object, the
  format tags, the hook capability record, the settings of a layer and the
  exceptions.
- `construction.dfy` (module `Construction`): the constructor's argument
  checks, on the strings the caller passes.
- `format_resolution.dfy` (module `FormatResolution`): `get_adj_format`,
  the `supports_*` predicates, `get_mp_format` on an explicit cache, a
  preference-order reference for the capability-driven choice, and the
  cache's behaviour over sequences of calls.
- `propagation.dfy` (module `Propagation`): the collector table, the
  default `aggregate`, the explain-mask padding, the guards and dispatch of
  `propagate`, and the properties of a whole call.
- `layer.dfy` (module `MessagePassingLayer`): the class `MessagePassing`
  with its attributes, its mutable cache and explain state, and the
  imperative `GetMpFormat` and `Propagate` methods, each proved equal to
  the functional definition above.

Behaviour of the code worth noting (line numbers refer to
`message_passing.py`):

- The accepted `format` values are 'fused', 'sparse' and 'dense' (line 28);
  'partial' is refused by the assertion of line 47.
- The collector table (lines 16-21) has no entry for "partial" or "dense",
  so a resolved "partial" or "dense" strategy always fails with a
  `TypeError`, at the latest at the collector lookup (line 204). The
  "partial" dispatch branch (lines 241-245) can never run; it would read the
  non-existent attribute `__partial_message__` (line 243).
- The explain mask is padded whenever its length differs from the number of
  messages (line 228), not only when it is shorter. The padding is `size[0]`
  ones (line 233), not the missing count, so a mask longer than the messages
  always fails: at the assertion of line 235, or with the `TypeError` of
  `size[0]` when `size` is `None`.
- In explain mode an explicit `format` is not rejected (lines 183-189). An
  edge list always resolves to "sparse" (lines 121-122), and explain mode
  then forces "sparse" again (line 189).
- The exceptions raised are Python's `AssertionError` (the four argument
  checks of lines 45-48, and the mask-length check of line 235),
  `TypeError` (a forbidden `update` hook at lines 58-62, no strategy at
  lines 149-152, the explain guard at lines 184-188, the flow guard at lines
  193-200, no collector at lines 162-166, and `size[0]` on `size=None` at line
  233), `ValueError` (unclassifiable connectivity, lines 102-109),
  `NotImplementedError` (a base-class hook is called, lines 249-256, or
  the default `aggregate` runs without an `aggr`, line 263) and `AttributeError`
  (the unset `__edge_mask__` at line 223, and `__partial_message__` at
  line 243).
- The class attribute `adj_formats` (line 27) lists 'edge_index', 'sparse'
  and 'dense', while classification produces 'edge_index', 'sparse_adj' and
  'dense_adj' (lines 92-100). The attribute is never read, so the model has
  no counterpart for it.

## Model

| member | source | states |
|---|---|---|
| `Construction.ParseAggr` | torch_geometric/nn/conv/utils/message_passing.py:45 | an `aggr` string parses exactly when it is one of 'add', 'sum', 'mean', 'max', and the tag parsed names that string |
| `Construction.ParseFlow` | torch_geometric/nn/conv/utils/message_passing.py:46 | a `flow` string parses exactly when it is 'source_to_target' or 'target_to_source', and the tag parsed names that string |
| `Construction.ParseMpFormat` | torch_geometric/nn/conv/utils/message_passing.py:28 | a `format` string parses exactly when it is in `mp_formats` ('fused', 'sparse', 'dense'); the result names it and is never "partial" |
| `Construction.NameRoundTrips` | torch_geometric/nn/conv/utils/message_passing.py:28-47 | naming a tag then parsing the name gives the tag back for every aggr and flow, and for every strategy except "partial" |
| `Construction.DefaultArgs` | torch_geometric/nn/conv/utils/message_passing.py:31-34 | the constructor's default arguments pass every check for a layer overriding no hook |
| `Construction.CheckConfig` | torch_geometric/nn/conv/utils/message_passing.py:37-62 | construction succeeds iff aggr, flow and format are accepted, node_dim ≥ 0 and `update` is not overridden; the first failing check in source order decides the exception; on success the stored attributes are the arguments |
| `Construction.PartialFormatRejected` | torch_geometric/nn/conv/utils/message_passing.py:47 | `format='partial'` fails the format assertion whenever aggr and flow are accepted |
| `FormatResolution.IsEdgeIndexTensor` | torch_geometric/nn/conv/utils/message_passing.py:89-91 | the edge-list test holds exactly for a long tensor of shape [2, E] |
| `FormatResolution.GetAdjFormat` | torch_geometric/nn/conv/utils/message_passing.py:86-111 | a long tensor of shape [2, *] is an edge list, a `SparseTensor` a sparse adjacency, any other tensor a dense adjacency, and anything else raises `ValueError`; exactly one of these holds |
| `FormatResolution.SupportsSparseFusedFormat` | torch_geometric/nn/conv/utils/message_passing.py:70-71 | "fused" support for a sparse adjacency holds exactly when `sparse_message_and_aggregate` is overridden |
| `FormatResolution.SupportsDenseFusedFormat` | torch_geometric/nn/conv/utils/message_passing.py:73-74 | "fused" support for a dense adjacency holds exactly when `dense_message_and_aggregate` is overridden |
| `FormatResolution.SupportsSparseFormat` | torch_geometric/nn/conv/utils/message_passing.py:76-79 | with an `aggr`, "sparse" support is exactly `message` being overridden; without one, `message` and `aggregate` both |
| `FormatResolution.SupportsPartialFormat` | torch_geometric/nn/conv/utils/message_passing.py:81-84 | with an `aggr`, "partial" support is exactly `partial_message` being overridden; without one, `partial_message` and `partial_aggregate` both |
| `FormatResolution.ResolveByCapability` | torch_geometric/nn/conv/utils/message_passing.py:128-147 | the capability chain only picks a strategy the layer supports, never for an edge list, never "sparse" for a dense adjacency, and picks none only when no strategy in the adjacency's preference list is supported |
| `FormatResolution.ResolveMpFormat` | torch_geometric/nn/conv/utils/message_passing.py:120-152 | on a cache miss: an edge list is "sparse" whatever the format; otherwise an explicit format wins unchecked; otherwise a sparse adjacency takes fused, then sparse, then partial, a dense one fused then partial and never sparse, each only when the layer supports it; no strategy is the `TypeError` case |
| `FormatResolution.FirstSupportedIndex` | torch_geometric/nn/conv/utils/message_passing.py:128-147 | reference search: the index returned is the first supported strategy of the preference list, or its length when none is supported |
| `FormatResolution.ResolveIsFirstSupported` | torch_geometric/nn/conv/utils/message_passing.py:70-147 | without an explicit format, the branch chain and the `supports_*` predicates pick exactly the first supported strategy in preference order |
| `FormatResolution.CachedResolve` | torch_geometric/nn/conv/utils/message_passing.py:113-157 | a cached entry is returned and the cache left as it was; otherwise success writes the resolved strategy under that tag only, and the `TypeError` leaves the cache unchanged |
| `FormatResolution.CachedResolveKeepsConsistent` | torch_geometric/nn/conv/utils/message_passing.py:154-155 | if every cached entry is what resolution gives for its tag, that stays true after a call |
| `FormatResolution.CachedEqualsFresh` | torch_geometric/nn/conv/utils/message_passing.py:116-152 | with such a consistent cache, the cached answer equals a fresh resolution, including the `TypeError` |
| `FormatResolution.CachedResolveIdempotent` | torch_geometric/nn/conv/utils/message_passing.py:116-157 | after a successful call, a second call for the same tag under any settings returns the same answer and the same cache |
| `FormatResolution.CacheEntryIsStable` | torch_geometric/nn/conv/utils/message_passing.py:116-155 | over any sequence of calls, with any settings, a cache entry is never removed or changed |
| `FormatResolution.LaterCallsReturnCached` | torch_geometric/nn/conv/utils/message_passing.py:116-118 | every later call for a cached tag answers the cached strategy, even if capability flags or format change |
| `FormatResolution.FirstAnswerIsFinal` | torch_geometric/nn/conv/utils/message_passing.py:113-157 | after the first successful call for a tag, every call for that tag in any later sequence returns the first answer |
| `Propagation.GetCollector` | torch_geometric/nn/conv/utils/message_passing.py:159-170 | the table of lines 16-21 has a collector exactly for (edge list or sparse, "sparse") and (sparse or dense, "fused"), and the collector found serves that pair; every other pair raises `TypeError` |
| `Propagation.DefaultAggregate` | torch_geometric/nn/conv/utils/message_passing.py:258-269 | no `aggr` raises `NotImplementedError`; otherwise the segment reduction iff a `ptr` is given, else the scatter along `node_dim` into `dim_size`, both with the configured reduction |
| `Propagation.PadEdgeMask` | torch_geometric/nn/conv/utils/message_passing.py:228-235 | succeeds iff the message count equals the mask length, or the mask length plus `size[0]`; then the padded mask matches the messages; padding is exactly `size[0]` ones; a longer mask always fails; `size=None` on a mismatch raises `TypeError` |
| `Propagation.CallHook` | torch_geometric/nn/conv/utils/message_passing.py:249-256 | calling a hook succeeds exactly when the layer overrides it, and otherwise raises `NotImplementedError` naming that hook |
| `Propagation.MaskMessages` | torch_geometric/nn/conv/utils/message_passing.py:222-236 | outside explain mode nothing is masked; an unset `__edge_mask__` raises `AttributeError`; a success is one mask step whose mask length plus the ones appended equals the message count; a mask longer than the messages never succeeds |
| `Propagation.AggregateStep` | torch_geometric/nn/conv/utils/message_passing.py:238-239 | the aggregation step raises exactly when `aggregate` is not overridden and there is no `aggr`; an override is invoked; otherwise the default reduction uses the configured `aggr` |
| `Propagation.Dispatch` | torch_geometric/nn/conv/utils/message_passing.py:207-247 | a successful dispatch runs "fused" or "sparse" only, starts "sparse" with `message`, and invokes only hooks the layer overrides; for a pair the collector table admits, the "partial" branch and the fall-through past every branch are never reached |
| `Propagation.Guarded` | torch_geometric/nn/conv/utils/message_passing.py:183-247 | a success starts with the collector serving the representation and the strategy ("sparse" in explain mode), needs an edge list and "sparse" support in explain mode and "source_to_target" for an adjacency matrix, invokes only overridden hooks, and never ends in the dead branches |
| `Propagation.PropagateSpec` | torch_geometric/nn/conv/utils/message_passing.py:172-247 | an unclassifiable object raises `ValueError` with the cache unchanged; otherwise the cache after the call is the one resolution leaves; a success has its tag cached, starts with a collector for that tag, invokes only overridden hooks; no call reaches the dead branches |
| `Propagation.SupportsIffHooksRun` | torch_geometric/nn/conv/utils/message_passing.py:70-79 | "sparse" support holds iff `message` is overridden and the aggregation step does not raise; fused support holds iff the fused hook is overridden |
| `Propagation.CacheWrittenBeforeGuards` | torch_geometric/nn/conv/utils/message_passing.py:175-204 | the cache after `propagate` is the one left by the resolution, even when a later guard or hook fails; other tags are untouched; a classification failure leaves the cache unchanged |
| `Propagation.ExplainRequiresEdgeIndex` | torch_geometric/nn/conv/utils/message_passing.py:183-189 | in explain mode success needs an edge list and "sparse" support and runs collect, message, mask, aggregate; once resolved, a non-edge-list or no "sparse" support raises the explain `TypeError` |
| `Propagation.ExplainNeverMissesHook` | torch_geometric/nn/conv/utils/message_passing.py:183-239 | in explain mode `propagate` never raises `NotImplementedError` |
| `Propagation.ExplainIgnoresFormat` | torch_geometric/nn/conv/utils/message_passing.py:183-189 | in explain mode on an edge list, neither an explicit format nor the cached entry changes the outcome |
| `Propagation.FlowGuard` | torch_geometric/nn/conv/utils/message_passing.py:191-200 | with "target_to_source", a resolved sparse or dense adjacency raises `TypeError` (the explain one when explaining); for an edge list the flow changes nothing |
| `Propagation.PartialAndDenseNeverRun` | torch_geometric/nn/conv/utils/message_passing.py:191-204 | outside explain mode, a resolved "partial" or "dense" strategy always ends in a `TypeError` |
| `Propagation.DispatchOrder` | torch_geometric/nn/conv/utils/message_passing.py:207-239 | a successful call collects first with the matching collector; fused strategies run only their fused hook; "sparse" runs `message`, the mask only in explain mode, then aggregation |
| `Propagation.MaskPaddingIsSizeZero` | torch_geometric/nn/conv/utils/message_passing.py:222-236 | when the mask length differs from the message count, success needs the gap to be exactly `size[0]`, and the mask step records `size[0]` ones appended |
| `Propagation.FusedPreferred` | torch_geometric/nn/conv/utils/message_passing.py:128-131 | a sparse adjacency on a layer with both the fused hook and message/aggregate, and no format, resolves to fused, caches it, and runs only the fused hook |
| `Propagation.ExplicitFormatIsUnchecked` | torch_geometric/nn/conv/utils/message_passing.py:124-126 | `format='fused'` without the fused hook is cached as fused and fails only when the base hook raises `NotImplementedError` |
| `MessagePassingLayer.MessagePassing.constructor` | torch_geometric/nn/conv/utils/message_passing.py:31-68 | on accepted arguments: the attributes are the checked settings, the cache is empty, explain mode is off, and the class invariant holds |
| `MessagePassingLayer.MessagePassing.Create` | torch_geometric/nn/conv/utils/message_passing.py:31-62 | construction succeeds iff the checks pass, raising the first failing check's exception otherwise; a new layer is fresh with an empty cache |
| `MessagePassingLayer.MessagePassing.GetMpFormat` | torch_geometric/nn/conv/utils/message_passing.py:113-157 | the in-place cache update and answer are those of `CachedResolve`, the answer equals a fresh resolution (or its `TypeError`), and every cached entry stays the resolution of its tag |
| `MessagePassingLayer.MessagePassing.Propagate` | torch_geometric/nn/conv/utils/message_passing.py:172-247 | the steps or exception and the new cache are those of `PropagateSpec`, and the cache invariant is kept |
| `MessagePassingLayer.CacheSurvivesFailedPropagate` | torch_geometric/nn/conv/utils/message_passing.py:175-189 | on a fresh layer with a fused sparse hook, switching explain mode on and propagating a `SparseTensor` fails with the explain `TypeError`, yet leaves the cache holding "fused" for sparse adjacencies, which the next `GetMpFormat` returns |

## Left out

- `torch_geometric/datasets/faust.py` and `torch_geometric/datasets/planetoid.py`: dataset download, file reading and saving, with no decision logic to model.
- Numeric tensor work (`sigmoid`, the elementwise product, `torch.cat` values, `.view`) and the results of `scatter` and `segment_csr`: floating point and a foreign library. Only lengths and the chosen primitive are kept. No numeric result of a layer is stated.
- The `Inspector` and the `Collector` classes are not part of this model. Which hooks a layer overrides is the `Hooks` record. What `collect` produces is reduced to `Outputs` (the `ptr` presence and `dim_size`), as is the message count of the layer's own `message`. `collector.bind(self)` and `inspector.distribute` have no effect in the model.
- A hook the layer overrides is assumed to return. An exception it raises itself is not modelled; only the base class's `NotImplementedError` is.
- `__partial__message__`, `__partial__aggregate__`, `check_propagate_consistency` and `__repr__`: stubs that do nothing or always raise. The partial path is unreachable past the collector lookup in any case.
- `get_mp_format` called directly with a string other than the three representation tags: `propagate` never does so, and the model's tag type has only those three.
- Python `assert` statements are modelled as always executed. Under `python -O` the four argument checks and the mask-length check disappear.
- A `size` argument other than `None` or a pair of naturals: a shorter tuple or a negative count is not modelled.
- `partial_max_deg`, `partial_binning` and `torchscript` are stored, as in the source, and never read.
- Reassigning `aggr`, `flow` or `format` on a live layer: the class keeps them, and the hooks, as constant fields. The effect of changed settings on the cache is stated on the functions instead (`LaterCallsReturnCached`, `FirstAnswerIsFinal`).
- Concurrent first calls racing on the cache are not modelled; calls are sequential.
