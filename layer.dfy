/** The `MessagePassing` base class itself (message_passing.py lines 24-247):
    the attributes fixed at construction, the strategy cache
    `__cached_mp_format__` that `get_mp_format` fills in place, and the
    explain state that an explainer sets from outside. */
module MessagePassingLayer {
  import opened MessagePassingTypes
  import opened Construction
  import opened FormatResolution
  import opened Propagation

  class MessagePassing {
    const aggr: Option<Aggr>
    const flow: Flow
    const format: Option<MpFormat>
    const nodeDim: nat
    const partialMaxDeg: Option<int>
    const partialBinning: bool
    const torchscript: bool
    /** The hooks the concrete layer overrides, as found by the inspector. */
    const hooks: Hooks

    /** `__cached_mp_format__`: representation tag to resolved strategy. */
    var cache: map<AdjFormat, MpFormat>
    /** `__explain__`. */
    var explain: bool
    /** `__edge_mask__`, reduced to its length; `None` while unset. */
    var edgeMask: Option<nat>

    /** The settings the instance holds. */
    function CurrentSettings(): Settings
    {
      Settings(aggr, flow, format, nodeDim, partialMaxDeg, partialBinning, torchscript, hooks)
    }

    /** A constructed layer never holds the format "partial" nor an `update`
        hook, and every cached strategy is what resolution gives for its tag. */
    ghost predicate Valid()
      reads this
    {
      && format != Some(Partial)
      && !hooks.update
      && ConsistentCache(cache, CurrentSettings())
    }

    /** `__init__` on arguments that pass its checks. */
    constructor (args: Args, layerHooks: Hooks)
      requires CheckConfig(args, layerHooks).Ok?
      ensures Valid()
      ensures CurrentSettings() == CheckConfig(args, layerHooks).value
      ensures cache == map[] && !explain && edgeMask == None
    {
      var s := CheckConfig(args, layerHooks).value;
      aggr := s.aggr;
      flow := s.flow;
      format := s.format;
      nodeDim := s.nodeDim;
      partialMaxDeg := s.partialMaxDeg;
      partialBinning := s.partialBinning;
      torchscript := s.torchscript;
      hooks := layerHooks;
      cache := map[];
      explain := false;
      edgeMask := None;
    }

    /** `MessagePassing(...)`: the constructor's checks, raising the first
        failing one, or a fresh layer with an empty cache. */
    static method Create(args: Args, layerHooks: Hooks) returns (r: Result<MessagePassing>)
      ensures r.Ok? <==> CheckConfig(args, layerHooks).Ok?
      ensures r.Err? ==> r.error == CheckConfig(args, layerHooks).error
      ensures r.Ok? ==>
        && fresh(r.value) && r.value.Valid()
        && r.value.CurrentSettings() == CheckConfig(args, layerHooks).value
        && r.value.cache == map[] && !r.value.explain && r.value.edgeMask == None
    {
      var checked := CheckConfig(args, layerHooks);
      if checked.Err? {
        return Err(checked.error);
      }
      var layer := new MessagePassing(args, layerHooks);
      r := Ok(layer);
    }

    /** `get_mp_format` (lines 113-157): the cached strategy when present,
        else the first applicable branch, written into the cache; the
        `TypeError` leaves the cache untouched. */
    method GetMpFormat(adj: AdjFormat) returns (r: Result<MpFormat>)
      requires Valid()
      modifies this`cache
      ensures Valid()
      ensures Resolved(r, cache) == CachedResolve(old(cache), adj, CurrentSettings())
      ensures r == (match ResolveMpFormat(adj, CurrentSettings())
                    case Some(m) => Ok(m)
                    case None => Err(TypeError(NoMpFormat(adj))))
    {
      CachedEqualsFresh(cache, adj, CurrentSettings());
      var mp: Option<MpFormat> := None;
      if adj in cache {
        mp := Some(cache[adj]);
      } else if adj == EdgeIndex {
        mp := Some(Sparse);
      } else if format.Some? {
        mp := format;
      } else if adj == SparseAdj && SupportsSparseFusedFormat(CurrentSettings()) {
        mp := Some(Fused);
      } else if adj == DenseAdj && SupportsDenseFusedFormat(CurrentSettings()) {
        mp := Some(Fused);
      } else if adj == SparseAdj && SupportsSparseFormat(CurrentSettings()) {
        mp := Some(Sparse);
      } else if adj == SparseAdj && SupportsPartialFormat(CurrentSettings()) {
        mp := Some(Partial);
      } else if adj == DenseAdj && SupportsPartialFormat(CurrentSettings()) {
        mp := Some(Partial);
      }

      if mp.None? {
        return Err(TypeError(NoMpFormat(adj)));
      }
      cache := cache[adj := mp.value];
      r := Ok(mp.value);
    }

    /** `propagate` (lines 172-247): classify, resolve (writing the cache),
        the explain and flow guards, the collector lookup, then the hooks of
        the strategy in order. The steps taken, or the exception raised. */
    method Propagate(adjType: AdjType, size: Size, out: Outputs) returns (r: Result<seq<Step>>)
      requires Valid()
      modifies this`cache
      ensures Valid()
      ensures Propagated(r, cache) == PropagateSpec(CurrentSettings(), old(cache), explain, edgeMask, adjType, size, out)
    {
      var classified := GetAdjFormat(adjType);
      if classified.Err? {
        return Err(classified.error);
      }
      var adj := classified.value;
      var resolved := GetMpFormat(adj);
      if resolved.Err? {
        return Err(resolved.error);
      }
      var mp := resolved.value;

      if explain {
        if adj != EdgeIndex || !SupportsSparseFormat(CurrentSettings()) {
          return Err(TypeError(ExplainUnsupported));
        }
        mp := Sparse;
      }

      if (adj == SparseAdj || adj == DenseAdj) && flow == TargetToSource {
        return Err(TypeError(FlowUnsupported));
      }

      var collector := GetCollector(adj, mp);
      if collector.Err? {
        return Err(collector.error);
      }
      var steps: seq<Step> := [];

      if adj == SparseAdj && mp == Fused {
        if !hooks.sparseMessageAndAggregate {
          return Err(NotImplementedError(SparseMessageAndAggregate));
        }
        steps := [Invoke(SparseMessageAndAggregate)];
      } else if adj == DenseAdj && mp == Fused {
        if !hooks.denseMessageAndAggregate {
          return Err(NotImplementedError(DenseMessageAndAggregate));
        }
        steps := [Invoke(DenseMessageAndAggregate)];
      } else if mp == Sparse {
        if !hooks.message {
          return Err(NotImplementedError(Message));
        }
        var masking: seq<Step> := [];
        if explain {
          if edgeMask.None? {
            return Err(AttributeError("sigmoid"));
          }
          var padded := PadEdgeMask(edgeMask.value, out.messageCount, size);
          if padded.Err? {
            return Err(padded.error);
          }
          masking := [ApplyEdgeMask(edgeMask.value, padded.value)];
        }
        if hooks.aggregate {
          steps := [Invoke(Message)] + masking + [Invoke(Aggregate)];
        } else {
          var reduction := DefaultAggregate(CurrentSettings(), out.hasPtr, out.dimSize);
          if reduction.Err? {
            return Err(reduction.error);
          }
          steps := [Invoke(Message)] + masking + [Reduce(reduction.value)];
        }
      } else if mp == Partial {
        return Err(AttributeError("__partial_message__"));
      } else {
        return Err(UnboundLocalError);
      }
      r := Ok([Collect(collector.value)] + steps);
    }
  }

  /** A client: after a first successful resolution for a tag, a failing
      `propagate` on the same tag (here, explain mode on a sparse adjacency)
      still leaves that entry, and the next resolution returns it. */
  method CacheSurvivesFailedPropagate(layer: MessagePassing, size: Size, out: Outputs)
    returns (failed: Result<seq<Step>>, again: Result<MpFormat>)
    requires layer.Valid() && layer.cache == map[]
    requires layer.hooks.sparseMessageAndAggregate && layer.format.None?
    modifies layer
    ensures failed == Err(TypeError(ExplainUnsupported))
    ensures again == Ok(Fused)
    ensures layer.explain && layer.cache == map[SparseAdj := Fused]
  {
    layer.explain := true;
    failed := layer.Propagate(SparseTensor, size, out);
    again := layer.GetMpFormat(SparseAdj);
  }
}
