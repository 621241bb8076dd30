/** Values shared by every part of the message-passing model: the connectivity
    object handed to `propagate`, the format tags, the hooks a layer may
    override, the settings fixed at construction and the exceptions raised. */
module MessagePassingTypes {

  datatype Option<+T> = None | Some(value: T)

  /** Outcome of an operation of the source that may raise. */
  datatype Result<+T> = Ok(value: T) | Err(error: Error)

  /** `aggr` values accepted by the constructor ('add', 'sum', 'mean', 'max');
      the constructor's `None` is `Option.None`. */
  datatype Aggr = Add | Sum | Mean | Max

  datatype Flow = SourceToTarget | TargetToSource

  /** Connectivity representation tags: 'edge_index', 'sparse_adj', 'dense_adj'. */
  datatype AdjFormat = EdgeIndex | SparseAdj | DenseAdj

  /** Message-passing strategy tags. 'dense' is an accepted `format` value
      even though no strategy of that name is ever dispatched. */
  datatype MpFormat = Fused | Sparse | Partial | Dense

  /** The connectivity object, reduced to what classification looks at:
      a torch tensor (its shape and whether its dtype is `torch.long`), a
      `torch_sparse.SparseTensor`, or any other Python object. */
  datatype AdjType = Tensor(shape: seq<nat>, isLong: bool) | SparseTensor | Other

  /** The overridable hooks of a layer. */
  datatype Hook =
    | SparseMessageAndAggregate
    | DenseMessageAndAggregate
    | Message
    | Aggregate
    | PartialMessage
    | PartialAggregate

  /** Which hooks the concrete layer overrides, as the inspector reports it;
      `update` is the hook the constructor forbids. */
  datatype Hooks = Hooks(
    sparseMessageAndAggregate: bool,
    denseMessageAndAggregate: bool,
    message: bool,
    aggregate: bool,
    partialMessage: bool,
    partialAggregate: bool,
    update: bool)

  /** True when the layer overrides `hook`, so that calling it does not
      reach the base class's `raise NotImplementedError`. */
  predicate Implements(h: Hooks, hook: Hook)
  {
    match hook
    case SparseMessageAndAggregate => h.sparseMessageAndAggregate
    case DenseMessageAndAggregate => h.denseMessageAndAggregate
    case Message => h.message
    case Aggregate => h.aggregate
    case PartialMessage => h.partialMessage
    case PartialAggregate => h.partialAggregate
  }

  /** The attributes a constructed layer holds, with the hooks of its class. */
  datatype Settings = Settings(
    aggr: Option<Aggr>,
    flow: Flow,
    format: Option<MpFormat>,
    nodeDim: nat,
    partialMaxDeg: Option<int>,
    partialBinning: bool,
    torchscript: bool,
    hooks: Hooks)

  /** The `assert` statements of the source, by what they check. */
  datatype Check = AggrCheck | FlowCheck | FormatCheck | NodeDimCheck | EdgeMaskLengthCheck

  /** Why a `TypeError` was raised. */
  datatype TypeErrorCause =
    | UpdateHookImplemented
    | NoMpFormat(adj: AdjFormat)
    | ExplainUnsupported
    | FlowUnsupported
    | NoCollector(adj: AdjFormat, mp: MpFormat)
    | SizeNotSubscriptable

  datatype Error =
    | AssertionError(check: Check)
    | ValueError
    | TypeError(cause: TypeErrorCause)
    | NotImplementedError(hook: Hook)
    | AttributeError(attribute: string)
    | UnboundLocalError
}
