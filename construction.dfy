/** Validation of the constructor arguments of `MessagePassing`
    (message_passing.py lines 31-64). The arguments arrive as Python strings,
    so they are modelled as strings here and parsed into the tags of
    `MessagePassingTypes`. */
module Construction {
  import opened MessagePassingTypes

  /** The accepted `aggr` strings, besides `None` (line 45). */
  const AggrNames: seq<string> := ["add", "sum", "mean", "max"]

  /** The accepted `flow` strings (line 46). */
  const FlowNames: seq<string> := ["source_to_target", "target_to_source"]

  /** `MessagePassing.mp_formats` (line 28): the accepted `format` strings,
      besides `None`. 'partial' is not among them. */
  const MpFormatNames: seq<string> := ["fused", "sparse", "dense"]

  function AggrName(a: Aggr): string
  {
    match a
    case Add => "add"
    case Sum => "sum"
    case Mean => "mean"
    case Max => "max"
  }

  function FlowName(f: Flow): string
  {
    match f
    case SourceToTarget => "source_to_target"
    case TargetToSource => "target_to_source"
  }

  function MpFormatName(m: MpFormat): string
  {
    match m
    case Fused => "fused"
    case Sparse => "sparse"
    case Partial => "partial"
    case Dense => "dense"
  }

  /** The string an optional tag is stored as, `None` staying `None`. */
  function OptionName<T>(o: Option<T>, name: T -> string): Option<string>
  {
    match o
    case None => None
    case Some(v) => Some(name(v))
  }

  function ParseAggr(name: string): (r: Option<Aggr>)
    ensures r.Some? <==> name in AggrNames
    ensures r.Some? ==> AggrName(r.value) == name
  {
    if name == "add" then Some(Add)
    else if name == "sum" then Some(Sum)
    else if name == "mean" then Some(Mean)
    else if name == "max" then Some(Max)
    else None
  }

  function ParseFlow(name: string): (r: Option<Flow>)
    ensures r.Some? <==> name in FlowNames
    ensures r.Some? ==> FlowName(r.value) == name
  {
    if name == "source_to_target" then Some(SourceToTarget)
    else if name == "target_to_source" then Some(TargetToSource)
    else None
  }

  function ParseMpFormat(name: string): (r: Option<MpFormat>)
    ensures r.Some? <==> name in MpFormatNames
    ensures r.Some? ==> MpFormatName(r.value) == name && r.value != Partial
  {
    if name == "fused" then Some(Fused)
    else if name == "sparse" then Some(Sparse)
    else if name == "dense" then Some(Dense)
    else None
  }

  /** Naming a tag and parsing the name gives the tag back, for every tag
      except `Partial`, whose name the format list does not contain. */
  lemma NameRoundTrips(a: Aggr, f: Flow, m: MpFormat)
    ensures ParseAggr(AggrName(a)) == Some(a)
    ensures ParseFlow(FlowName(f)) == Some(f)
    ensures ParseMpFormat(MpFormatName(m)) == Some(m) <==> m != Partial
  {
  }

  /** The arguments of the constructor (line 31-34) as the caller passes them. */
  datatype Args = Args(
    aggr: Option<string>,
    flow: string,
    format: Option<string>,
    nodeDim: int,
    partialMaxDeg: Option<int>,
    partialBinning: bool,
    torchscript: bool)

  /** The constructor's defaults: aggr "add", flow "source_to_target",
      format None, node_dim 0, partial_max_deg None, partial_binning True,
      torchscript False. */
  function DefaultArgs(): (a: Args)
    ensures CheckConfig(a, NoHooks()).Ok?
  {
    Args(Some("add"), "source_to_target", None, 0, None, true, false)
  }

  /** A layer overriding nothing. */
  function NoHooks(): Hooks
  {
    Hooks(false, false, false, false, false, false, false)
  }

  predicate AggrAccepted(a: Args) { a.aggr.None? || a.aggr.value in AggrNames }
  predicate FlowAccepted(a: Args) { a.flow in FlowNames }
  predicate FormatAccepted(a: Args) { a.format.None? || a.format.value in MpFormatNames }

  /** The checks of the constructor, in source order: the four assertions of
      lines 45-48, then the `TypeError` of lines 58-62 for a layer that
      overrides `update`. On success, the settings the instance holds. */
  function CheckConfig(a: Args, hooks: Hooks): (r: Result<Settings>)
    ensures r.Ok? <==>
      AggrAccepted(a) && FlowAccepted(a) && FormatAccepted(a) && a.nodeDim >= 0 && !hooks.update
    ensures !AggrAccepted(a) ==> r == Err(AssertionError(AggrCheck))
    ensures AggrAccepted(a) && !FlowAccepted(a) ==> r == Err(AssertionError(FlowCheck))
    ensures AggrAccepted(a) && FlowAccepted(a) && !FormatAccepted(a) ==>
      r == Err(AssertionError(FormatCheck))
    ensures AggrAccepted(a) && FlowAccepted(a) && FormatAccepted(a) && a.nodeDim < 0 ==>
      r == Err(AssertionError(NodeDimCheck))
    ensures AggrAccepted(a) && FlowAccepted(a) && FormatAccepted(a) && a.nodeDim >= 0 && hooks.update ==>
      r == Err(TypeError(UpdateHookImplemented))
    ensures r.Ok? ==>
      && OptionName(r.value.aggr, AggrName) == a.aggr
      && FlowName(r.value.flow) == a.flow
      && OptionName(r.value.format, MpFormatName) == a.format
      && r.value.format != Some(Partial)
      && r.value.nodeDim == a.nodeDim
      && r.value.partialMaxDeg == a.partialMaxDeg
      && r.value.partialBinning == a.partialBinning
      && r.value.torchscript == a.torchscript
      && r.value.hooks == hooks
  {
    var aggr := if a.aggr.None? then Some(None) else
      match ParseAggr(a.aggr.value) case None => None case Some(g) => Some(Some(g));
    var flow := ParseFlow(a.flow);
    var format := if a.format.None? then Some(None) else
      match ParseMpFormat(a.format.value) case None => None case Some(m) => Some(Some(m));
    if aggr.None? then Err(AssertionError(AggrCheck))
    else if flow.None? then Err(AssertionError(FlowCheck))
    else if format.None? then Err(AssertionError(FormatCheck))
    else if a.nodeDim < 0 then Err(AssertionError(NodeDimCheck))
    else if hooks.update then Err(TypeError(UpdateHookImplemented))
    else Ok(Settings(aggr.value, flow.value, format.value, a.nodeDim,
                     a.partialMaxDeg, a.partialBinning, a.torchscript, hooks))
  }

  /** An explicit `format='partial'` is refused by the format assertion,
      whatever else the arguments say. */
  lemma PartialFormatRejected(a: Args, hooks: Hooks)
    requires a.format == Some("partial")
    requires AggrAccepted(a) && FlowAccepted(a)
    ensures CheckConfig(a, hooks) == Err(AssertionError(FormatCheck))
  {
  }
}
