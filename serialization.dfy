/**
 * The per-operation translation of client options records into the
 * backend's options records.  Every serialiser starts from the backend
 * record with nothing assigned, applies the transaction id, stamps the
 * mutation id when the operation mutates, forwards each optional client
 * field only when it is present and copies the plain client fields always.
 *
 * Read operations (Get, Exists, List) take no mutation-id cell and their
 * backend records have no mutation fields, so they can neither stamp nor
 * touch a cell.  Mutating operations take the caller's cell and stamp it
 * exactly once.
 */
module Serialization {
  import opened Wrappers
  import opened Guids
  import opened MutationIds

  newtype int64 = x: int | -0x8000_0000_0000_0000 <= x < 0x8000_0000_0000_0000

  /** The client's attribute filter: the attribute names to fetch. */
  datatype AttributeFilter = AttributeFilter(Attributes: seq<string>)

  /** The client's read-consistency choice. */
  datatype EMasterReadKind = Leader | Follower | Cache | MasterCache

  /** A backend channel kind, identified by its underlying integer value. */
  datatype MasterChannelKind = MasterChannelKind(Code: int)

  /** The integer value of a client read kind: its position in the declaration. */
  function ReadKindCode(k: EMasterReadKind): (c: int)
    ensures 0 <= c < 4
  {
    match k
    case Leader => 0
    case Follower => 1
    case Cache => 2
    case MasterCache => 3
  }

  /** The enum cast from client read kind to backend channel kind: it keeps the integer value. */
  function ToMasterChannelKind(k: EMasterReadKind): (r: MasterChannelKind)
    ensures r.Code == ReadKindCode(k)
  {
    MasterChannelKind(ReadKindCode(k))
  }

  /** Distinct read kinds reach distinct channel kinds. */
  lemma ToMasterChannelKindInjective(a: EMasterReadKind, b: EMasterReadKind)
    requires ToMasterChannelKind(a) == ToMasterChannelKind(b)
    ensures a == b
  {
  }

  /** An optional client field is forwarded when present and leaves the backend field unassigned when absent. */
  ghost predicate ForwardedIfPresent<S, D>(src: Option<S>, dst: Option<D>, convert: S -> D)
  {
    match src
    case None => dst.None?
    case Some(v) => dst == Some(convert(v))
  }

  /** A plain client field is always assigned to the backend field. */
  ghost predicate AlwaysCopied<T>(src: T, dst: Option<T>)
  {
    dst == Some(src)
  }

  /** The transaction field carries the caller's transaction id, unconditionally. */
  ghost predicate TransactionApplied(t: TransactionalOptions, transactionId: UtilGuid)
  {
    t == SetTransactionId(DefaultTransactional, transactionId)
  }

  // ---------------------------------------------------------------------------
  // Client options records (optional fields are Option, plain fields are not)

  datatype GetOptions = GetOptions(AttributeFilter: Option<AttributeFilter>, MaxSize: Option<int64>, ReadFrom: Option<EMasterReadKind>)
  datatype SetOptions = SetOptions(Recursive: bool, Force: Option<bool>)
  datatype ExistsOptions = ExistsOptions(ReadFrom: Option<EMasterReadKind>)
  datatype MultisetAttributesOptions = MultisetAttributesOptions(Force: Option<bool>)
  /** `N` is the client's attribute-tree type. */
  datatype CreateOptions<N> = CreateOptions(Recursive: bool, IgnoreExisting: bool, Force: bool, Attributes: Option<N>)
  datatype CopyOptions = CopyOptions(Recursive: bool, Force: bool, PreserveAccount: bool, PreserveExpirationTime: Option<bool>)
  datatype MoveOptions = MoveOptions(Recursive: bool, Force: bool, PreserveAccount: bool, PreserveExpirationTime: Option<bool>)
  datatype RemoveOptions = RemoveOptions(Recursive: bool, Force: bool)
  datatype ListOptions = ListOptions(AttributeFilter: Option<AttributeFilter>, MaxSize: Option<int64>, ReadFrom: Option<EMasterReadKind>)
  datatype LinkOptions<N> = LinkOptions(Recursive: bool, IgnoreExisting: bool, Force: bool, Attributes: Option<N>)
  datatype LockOptions = LockOptions(Waitable: bool, AttributeKey: Option<string>, ChildKey: Option<string>)
  datatype UnlockOptions = UnlockOptions

  // ---------------------------------------------------------------------------
  // Backend options records (`None` = never assigned, the backend default applies)

  datatype GetNodeOptions = GetNodeOptions(
    Transactional: TransactionalOptions,
    Attributes: Option<seq<string>>, MaxSize: Option<int64>, ReadFrom: Option<MasterChannelKind>)
  datatype SetNodeOptions = SetNodeOptions(
    Mutating: MutatingOptions, Transactional: TransactionalOptions,
    Force: Option<bool>, Recursive: Option<bool>)
  datatype NodeExistsOptions = NodeExistsOptions(
    Transactional: TransactionalOptions,
    ReadFrom: Option<MasterChannelKind>)
  datatype MultisetAttributesNodeOptions = MultisetAttributesNodeOptions(
    Mutating: MutatingOptions, Transactional: TransactionalOptions,
    Force: Option<bool>)
  /** `A` is the backend's attribute-dictionary type. */
  datatype CreateNodeOptions<A> = CreateNodeOptions(
    Mutating: MutatingOptions, Transactional: TransactionalOptions,
    Force: Option<bool>, Attributes: Option<A>, IgnoreExisting: Option<bool>, Recursive: Option<bool>)
  datatype CopyNodeOptions = CopyNodeOptions(
    Mutating: MutatingOptions, Transactional: TransactionalOptions,
    Force: Option<bool>, PreserveAccount: Option<bool>, PreserveExpirationTime: Option<bool>, Recursive: Option<bool>)
  datatype MoveNodeOptions = MoveNodeOptions(
    Mutating: MutatingOptions, Transactional: TransactionalOptions,
    Force: Option<bool>, PreserveAccount: Option<bool>, PreserveExpirationTime: Option<bool>, Recursive: Option<bool>)
  datatype RemoveNodeOptions = RemoveNodeOptions(
    Mutating: MutatingOptions, Transactional: TransactionalOptions,
    Force: Option<bool>, Recursive: Option<bool>)
  datatype ListNodeOptions = ListNodeOptions(
    Transactional: TransactionalOptions,
    Attributes: Option<seq<string>>, MaxSize: Option<int64>, ReadFrom: Option<MasterChannelKind>)
  datatype LinkNodeOptions<A> = LinkNodeOptions(
    Mutating: MutatingOptions, Transactional: TransactionalOptions,
    Force: Option<bool>, Attributes: Option<A>, IgnoreExisting: Option<bool>, Recursive: Option<bool>)
  datatype LockNodeOptions = LockNodeOptions(
    Mutating: MutatingOptions, Transactional: TransactionalOptions,
    Waitable: Option<bool>, AttributeKey: Option<string>, ChildKey: Option<string>)
  datatype UnlockNodeOptions = UnlockNodeOptions(
    Mutating: MutatingOptions, Transactional: TransactionalOptions)

  // ---------------------------------------------------------------------------
  // Read operations

  method SerializeOptionsForGet(transactionId: UtilGuid, options: GetOptions) returns (r: GetNodeOptions)
    ensures TransactionApplied(r.Transactional, transactionId)
    ensures ForwardedIfPresent(options.AttributeFilter, r.Attributes, (f: AttributeFilter) => f.Attributes)
    ensures ForwardedIfPresent(options.MaxSize, r.MaxSize, (n: int64) => n)
    ensures ForwardedIfPresent(options.ReadFrom, r.ReadFrom, ToMasterChannelKind)
  {
    var result := GetNodeOptions(DefaultTransactional, None, None, None);
    result := result.(Transactional := SetTransactionId(result.Transactional, transactionId));
    if options.AttributeFilter.Some? {
      result := result.(Attributes := Some(options.AttributeFilter.value.Attributes));
    }
    if options.MaxSize.Some? {
      result := result.(MaxSize := Some(options.MaxSize.value));
    }
    if options.ReadFrom.Some? {
      result := result.(ReadFrom := Some(ToMasterChannelKind(options.ReadFrom.value)));
    }
    return result;
  }

  method SerializeOptionsForExists(transactionId: UtilGuid, options: ExistsOptions) returns (r: NodeExistsOptions)
    ensures TransactionApplied(r.Transactional, transactionId)
    ensures ForwardedIfPresent(options.ReadFrom, r.ReadFrom, ToMasterChannelKind)
  {
    var result := NodeExistsOptions(DefaultTransactional, None);
    result := result.(Transactional := SetTransactionId(result.Transactional, transactionId));
    if options.ReadFrom.Some? {
      result := result.(ReadFrom := Some(ToMasterChannelKind(options.ReadFrom.value)));
    }
    return result;
  }

  method SerializeOptionsForList(transactionId: UtilGuid, options: ListOptions) returns (r: ListNodeOptions)
    ensures TransactionApplied(r.Transactional, transactionId)
    ensures ForwardedIfPresent(options.AttributeFilter, r.Attributes, (f: AttributeFilter) => f.Attributes)
    ensures ForwardedIfPresent(options.MaxSize, r.MaxSize, (n: int64) => n)
    ensures ForwardedIfPresent(options.ReadFrom, r.ReadFrom, ToMasterChannelKind)
  {
    var result := ListNodeOptions(DefaultTransactional, None, None, None);
    result := result.(Transactional := SetTransactionId(result.Transactional, transactionId));
    if options.AttributeFilter.Some? {
      result := result.(Attributes := Some(options.AttributeFilter.value.Attributes));
    }
    if options.MaxSize.Some? {
      result := result.(MaxSize := Some(options.MaxSize.value));
    }
    if options.ReadFrom.Some? {
      result := result.(ReadFrom := Some(ToMasterChannelKind(options.ReadFrom.value)));
    }
    return result;
  }

  // ---------------------------------------------------------------------------
  // Mutating operations: each stamps the caller's cell once

  method SerializeOptionsForSet(mutationId: MutationIdCell, transactionId: UtilGuid, options: SetOptions, entropy: GuidEntropy)
    returns (r: SetNodeOptions)
    modifies mutationId
    ensures mutationId.Value == StampedCell(old(mutationId.Value), entropy)
    ensures r.Mutating == Stamp(DefaultMutating, old(mutationId.Value), entropy)
    ensures TransactionApplied(r.Transactional, transactionId)
    ensures ForwardedIfPresent(options.Force, r.Force, (b: bool) => b)
    ensures AlwaysCopied(options.Recursive, r.Recursive)
  {
    var result := SetNodeOptions(DefaultMutating, DefaultTransactional, None, None);
    var mutating := SetMutationId(result.Mutating, mutationId, entropy);
    result := result.(Mutating := mutating);
    result := result.(Transactional := SetTransactionId(result.Transactional, transactionId));
    if options.Force.Some? {
      result := result.(Force := Some(options.Force.value));
    }
    result := result.(Recursive := Some(options.Recursive));
    return result;
  }

  method SerializeOptionsForMultisetAttributes(mutationId: MutationIdCell, transactionId: UtilGuid, options: MultisetAttributesOptions, entropy: GuidEntropy)
    returns (r: MultisetAttributesNodeOptions)
    modifies mutationId
    ensures mutationId.Value == StampedCell(old(mutationId.Value), entropy)
    ensures r.Mutating == Stamp(DefaultMutating, old(mutationId.Value), entropy)
    ensures TransactionApplied(r.Transactional, transactionId)
    ensures ForwardedIfPresent(options.Force, r.Force, (b: bool) => b)
  {
    var result := MultisetAttributesNodeOptions(DefaultMutating, DefaultTransactional, None);
    var mutating := SetMutationId(result.Mutating, mutationId, entropy);
    result := result.(Mutating := mutating);
    result := result.(Transactional := SetTransactionId(result.Transactional, transactionId));
    if options.Force.Some? {
      result := result.(Force := Some(options.Force.value));
    }
    return result;
  }

  /** `convertAttributes` is the client-tree to backend-dictionary conversion, applied only to a present payload. */
  method SerializeOptionsForCreate<N, A>(mutationId: MutationIdCell, transactionId: UtilGuid, options: CreateOptions<N>, convertAttributes: N -> A, entropy: GuidEntropy)
    returns (r: CreateNodeOptions<A>)
    modifies mutationId
    ensures mutationId.Value == StampedCell(old(mutationId.Value), entropy)
    ensures r.Mutating == Stamp(DefaultMutating, old(mutationId.Value), entropy)
    ensures TransactionApplied(r.Transactional, transactionId)
    ensures AlwaysCopied(options.Force, r.Force)
    ensures ForwardedIfPresent(options.Attributes, r.Attributes, convertAttributes)
    ensures AlwaysCopied(options.IgnoreExisting, r.IgnoreExisting)
    ensures AlwaysCopied(options.Recursive, r.Recursive)
  {
    var result := CreateNodeOptions(DefaultMutating, DefaultTransactional, None, None, None, None);
    var mutating := SetMutationId(result.Mutating, mutationId, entropy);
    result := result.(Mutating := mutating);
    result := result.(Transactional := SetTransactionId(result.Transactional, transactionId));
    result := result.(Force := Some(options.Force));
    if options.Attributes.Some? {
      result := result.(Attributes := Some(convertAttributes(options.Attributes.value)));
    }
    result := result.(IgnoreExisting := Some(options.IgnoreExisting));
    result := result.(Recursive := Some(options.Recursive));
    return result;
  }

  method SerializeOptionsForCopy(mutationId: MutationIdCell, transactionId: UtilGuid, options: CopyOptions, entropy: GuidEntropy)
    returns (r: CopyNodeOptions)
    modifies mutationId
    ensures mutationId.Value == StampedCell(old(mutationId.Value), entropy)
    ensures r.Mutating == Stamp(DefaultMutating, old(mutationId.Value), entropy)
    ensures TransactionApplied(r.Transactional, transactionId)
    ensures AlwaysCopied(options.Force, r.Force)
    ensures AlwaysCopied(options.PreserveAccount, r.PreserveAccount)
    ensures ForwardedIfPresent(options.PreserveExpirationTime, r.PreserveExpirationTime, (b: bool) => b)
    ensures AlwaysCopied(options.Recursive, r.Recursive)
  {
    var result := CopyNodeOptions(DefaultMutating, DefaultTransactional, None, None, None, None);
    var mutating := SetMutationId(result.Mutating, mutationId, entropy);
    result := result.(Mutating := mutating);
    result := result.(Transactional := SetTransactionId(result.Transactional, transactionId));
    result := result.(Force := Some(options.Force));
    result := result.(PreserveAccount := Some(options.PreserveAccount));
    if options.PreserveExpirationTime.Some? {
      result := result.(PreserveExpirationTime := Some(options.PreserveExpirationTime.value));
    }
    result := result.(Recursive := Some(options.Recursive));
    return result;
  }

  method SerializeOptionsForMove(mutationId: MutationIdCell, transactionId: UtilGuid, options: MoveOptions, entropy: GuidEntropy)
    returns (r: MoveNodeOptions)
    modifies mutationId
    ensures mutationId.Value == StampedCell(old(mutationId.Value), entropy)
    ensures r.Mutating == Stamp(DefaultMutating, old(mutationId.Value), entropy)
    ensures TransactionApplied(r.Transactional, transactionId)
    ensures AlwaysCopied(options.Force, r.Force)
    ensures AlwaysCopied(options.PreserveAccount, r.PreserveAccount)
    ensures ForwardedIfPresent(options.PreserveExpirationTime, r.PreserveExpirationTime, (b: bool) => b)
    ensures AlwaysCopied(options.Recursive, r.Recursive)
  {
    var result := MoveNodeOptions(DefaultMutating, DefaultTransactional, None, None, None, None);
    var mutating := SetMutationId(result.Mutating, mutationId, entropy);
    result := result.(Mutating := mutating);
    result := result.(Transactional := SetTransactionId(result.Transactional, transactionId));
    result := result.(Force := Some(options.Force));
    result := result.(PreserveAccount := Some(options.PreserveAccount));
    if options.PreserveExpirationTime.Some? {
      result := result.(PreserveExpirationTime := Some(options.PreserveExpirationTime.value));
    }
    result := result.(Recursive := Some(options.Recursive));
    return result;
  }

  method SerializeOptionsForRemove(mutationId: MutationIdCell, transactionId: UtilGuid, options: RemoveOptions, entropy: GuidEntropy)
    returns (r: RemoveNodeOptions)
    modifies mutationId
    ensures mutationId.Value == StampedCell(old(mutationId.Value), entropy)
    ensures r.Mutating == Stamp(DefaultMutating, old(mutationId.Value), entropy)
    ensures TransactionApplied(r.Transactional, transactionId)
    ensures AlwaysCopied(options.Force, r.Force)
    ensures AlwaysCopied(options.Recursive, r.Recursive)
  {
    var result := RemoveNodeOptions(DefaultMutating, DefaultTransactional, None, None);
    var mutating := SetMutationId(result.Mutating, mutationId, entropy);
    result := result.(Mutating := mutating);
    result := result.(Transactional := SetTransactionId(result.Transactional, transactionId));
    result := result.(Force := Some(options.Force));
    result := result.(Recursive := Some(options.Recursive));
    return result;
  }

  /** `convertAttributes` is the client-tree to backend-dictionary conversion, applied only to a present payload. */
  method SerializeOptionsForLink<N, A>(mutationId: MutationIdCell, transactionId: UtilGuid, options: LinkOptions<N>, convertAttributes: N -> A, entropy: GuidEntropy)
    returns (r: LinkNodeOptions<A>)
    modifies mutationId
    ensures mutationId.Value == StampedCell(old(mutationId.Value), entropy)
    ensures r.Mutating == Stamp(DefaultMutating, old(mutationId.Value), entropy)
    ensures TransactionApplied(r.Transactional, transactionId)
    ensures AlwaysCopied(options.Force, r.Force)
    ensures ForwardedIfPresent(options.Attributes, r.Attributes, convertAttributes)
    ensures AlwaysCopied(options.IgnoreExisting, r.IgnoreExisting)
    ensures AlwaysCopied(options.Recursive, r.Recursive)
  {
    var result := LinkNodeOptions(DefaultMutating, DefaultTransactional, None, None, None, None);
    var mutating := SetMutationId(result.Mutating, mutationId, entropy);
    result := result.(Mutating := mutating);
    result := result.(Transactional := SetTransactionId(result.Transactional, transactionId));
    result := result.(Force := Some(options.Force));
    if options.Attributes.Some? {
      result := result.(Attributes := Some(convertAttributes(options.Attributes.value)));
    }
    result := result.(IgnoreExisting := Some(options.IgnoreExisting));
    result := result.(Recursive := Some(options.Recursive));
    return result;
  }

  method SerializeOptionsForLock(mutationId: MutationIdCell, transactionId: UtilGuid, options: LockOptions, entropy: GuidEntropy)
    returns (r: LockNodeOptions)
    modifies mutationId
    ensures mutationId.Value == StampedCell(old(mutationId.Value), entropy)
    ensures r.Mutating == Stamp(DefaultMutating, old(mutationId.Value), entropy)
    ensures TransactionApplied(r.Transactional, transactionId)
    ensures AlwaysCopied(options.Waitable, r.Waitable)
    ensures ForwardedIfPresent(options.AttributeKey, r.AttributeKey, (k: string) => k)
    ensures ForwardedIfPresent(options.ChildKey, r.ChildKey, (k: string) => k)
  {
    var result := LockNodeOptions(DefaultMutating, DefaultTransactional, None, None, None);
    var mutating := SetMutationId(result.Mutating, mutationId, entropy);
    result := result.(Mutating := mutating);
    result := result.(Transactional := SetTransactionId(result.Transactional, transactionId));
    result := result.(Waitable := Some(options.Waitable));
    if options.AttributeKey.Some? {
      result := result.(AttributeKey := Some(options.AttributeKey.value));
    }
    if options.ChildKey.Some? {
      result := result.(ChildKey := Some(options.ChildKey.value));
    }
    return result;
  }

  /** The client's unlock options carry nothing, and nothing of them reaches the result. */
  method SerializeOptionsForUnlock(mutationId: MutationIdCell, transactionId: UtilGuid, options: UnlockOptions, entropy: GuidEntropy)
    returns (r: UnlockNodeOptions)
    modifies mutationId
    ensures mutationId.Value == StampedCell(old(mutationId.Value), entropy)
    ensures r == UnlockNodeOptions(Stamp(DefaultMutating, old(mutationId.Value), entropy),
                                   SetTransactionId(DefaultTransactional, transactionId))
  {
    var result := UnlockNodeOptions(DefaultMutating, DefaultTransactional);
    var mutating := SetMutationId(result.Mutating, mutationId, entropy);
    result := result.(Mutating := mutating);
    result := result.(Transactional := SetTransactionId(result.Transactional, transactionId));
    return result;
  }

  // ---------------------------------------------------------------------------
  // The retry protocol seen from a caller

  /**
   * A Create sent through a new cell and then re-sent through the same cell:
   * the first request carries the fresh id and no retry flag, the second the
   * same id with the retry flag, and otherwise the two requests agree.
   */
  method CreateThenRetry<N, A>(transactionId: UtilGuid, options: CreateOptions<N>, convertAttributes: N -> A, first: GuidEntropy, second: GuidEntropy)
    returns (attempt: CreateNodeOptions<A>, retry: CreateNodeOptions<A>)
    requires !IsEmpty(FreshMutationId(first))
    ensures attempt.Mutating == MutatingOptions(Some(YtGuidFromUtilGuid(FreshMutationId(first))), None)
    ensures retry == attempt.(Mutating := MutatingOptions(attempt.Mutating.MutationId, Some(true)))
  {
    var cell := new MutationIdCell();
    attempt := SerializeOptionsForCreate(cell, transactionId, options, convertAttributes, first);
    YtGuidRoundTrip(attempt.Mutating.MutationId.value);
    retry := SerializeOptionsForCreate(cell, transactionId, options, convertAttributes, second);
    YtGuidRoundTrip(retry.Mutating.MutationId.value);
  }

  /**
   * A Remove re-sent through a cell that an earlier attempt already filled:
   * the cell keeps its id, and the request carries that id with the retry
   * flag raised.
   */
  method RemoveThroughFilledCell(previous: UtilGuid, transactionId: UtilGuid, options: RemoveOptions, entropy: GuidEntropy)
    returns (r: RemoveNodeOptions, kept: UtilGuid)
    requires !IsEmpty(previous)
    ensures kept == previous
    ensures r.Mutating == MutatingOptions(Some(YtGuidFromUtilGuid(previous)), Some(true))
  {
    var cell := new MutationIdCell.Holding(previous);
    r := SerializeOptionsForRemove(cell, transactionId, options, entropy);
    YtGuidRoundTrip(r.Mutating.MutationId.value);
    kept := cell.Value;
  }

  /**
   * A Set whose client leaves Force absent and one whose client sets it to
   * false produce different backend requests: presence is not lost.
   */
  method SetForceAbsentVersusFalse(transactionId: UtilGuid, recursive: bool, entropy: GuidEntropy)
    returns (absent: SetNodeOptions, explicit: SetNodeOptions)
    ensures absent.Force == None
    ensures explicit.Force == Some(false)
    ensures absent.Mutating == explicit.Mutating && absent.Transactional == explicit.Transactional
    ensures absent.Recursive == explicit.Recursive == Some(recursive)
  {
    var cellA := new MutationIdCell();
    absent := SerializeOptionsForSet(cellA, transactionId, SetOptions(recursive, None), entropy);
    var cellB := new MutationIdCell();
    explicit := SerializeOptionsForSet(cellB, transactionId, SetOptions(recursive, Some(false)), entropy);
  }
}
