/**
 * The exhaustive switches that translate the client's node types and lock
 * modes into the backend's object types and lock modes.  Both client enums
 * are closed datatypes here, so every `match` is total and the fatal abort
 * that backs the C++ client's switches has no input that could reach it.
 */
module TypeMappers {
  import opened Wrappers

  /** The client's kinds of namespace node. */
  datatype ENodeType =
    | NtString | NtInt64 | NtUint64 | NtDouble | NtBoolean | NtMap | NtList
    | NtFile | NtTable | NtDocument | NtReplicatedTable | NtTableReplica
    | NtUser | NtSchedulerPool | NtLink | NtGroup | NtPortal | NtChaosTableReplica

  /**
   * The backend's object types that the mapping can produce, plus
   * `PortalExit`, the other end of a portal, which no node type maps to.
   * The backend enumeration has many more members; they play no part here.
   */
  datatype EObjectType =
    | StringNode | Int64Node | Uint64Node | DoubleNode | BooleanNode | MapNode | ListNode
    | File | Table | Document | ReplicatedTable | TableReplica
    | User | SchedulerPool | Link | Group | PortalEntrance | PortalExit | ChaosTableReplica

  /** The client's lock modes. */
  datatype ELockMode = LmExclusive | LmShared | LmSnapshot

  /** The backend's lock modes; `None` is the backend's "no lock", which no client mode maps to. */
  datatype ApiLockMode = None | Snapshot | Shared | Exclusive

  /** Reference definition read backwards: which node type, if any, an object type came from. */
  function NodeTypeOf(t: EObjectType): (k: Option<ENodeType>)
  {
    match t
    case StringNode => Some(NtString)
    case Int64Node => Some(NtInt64)
    case Uint64Node => Some(NtUint64)
    case DoubleNode => Some(NtDouble)
    case BooleanNode => Some(NtBoolean)
    case MapNode => Some(NtMap)
    case ListNode => Some(NtList)
    case File => Some(NtFile)
    case Table => Some(NtTable)
    case Document => Some(NtDocument)
    case ReplicatedTable => Some(NtReplicatedTable)
    case TableReplica => Some(NtTableReplica)
    case User => Some(NtUser)
    case SchedulerPool => Some(NtSchedulerPool)
    case Link => Some(NtLink)
    case Group => Some(NtGroup)
    case PortalEntrance => Some(NtPortal)
    case PortalExit => Option.None
    case ChaosTableReplica => Some(NtChaosTableReplica)
  }

  /** Node type to backend object type; the read-back recovers the node type, so the map is injective. */
  function ToApiObjectType(t: ENodeType): (r: EObjectType)
    ensures NodeTypeOf(r) == Some(t)
    ensures r != PortalExit
  {
    match t
    case NtString => StringNode
    case NtInt64 => Int64Node
    case NtUint64 => Uint64Node
    case NtDouble => DoubleNode
    case NtBoolean => BooleanNode
    case NtMap => MapNode
    case NtList => ListNode
    case NtFile => File
    case NtTable => Table
    case NtDocument => Document
    case NtReplicatedTable => ReplicatedTable
    case NtTableReplica => TableReplica
    case NtUser => User
    case NtSchedulerPool => SchedulerPool
    case NtLink => Link
    case NtGroup => Group
    case NtPortal => PortalEntrance
    case NtChaosTableReplica => ChaosTableReplica
  }

  /** Whatever the read-back accepts is the image of the node type it names. */
  lemma NodeTypeOfSound(o: EObjectType)
    ensures NodeTypeOf(o).Some? ==> ToApiObjectType(NodeTypeOf(o).value) == o
    ensures NodeTypeOf(o).None? <==> o == PortalExit
  {
  }

  /** Distinct node types map to distinct object types. */
  lemma ToApiObjectTypeInjective(a: ENodeType, b: ENodeType)
    requires ToApiObjectType(a) == ToApiObjectType(b)
    ensures a == b
  {
  }

  /** The object types reached are exactly those other than `PortalExit`. */
  lemma ToApiObjectTypeImage(o: EObjectType)
    ensures (exists t: ENodeType :: ToApiObjectType(t) == o) <==> o != PortalExit
  {
    NodeTypeOfSound(o);
    if o != PortalExit {
      assert ToApiObjectType(NodeTypeOf(o).value) == o;
    }
  }

  /** Every node type, once each, in declaration order. */
  const AllNodeTypes: seq<ENodeType> := [
    NtString, NtInt64, NtUint64, NtDouble, NtBoolean, NtMap, NtList,
    NtFile, NtTable, NtDocument, NtReplicatedTable, NtTableReplica,
    NtUser, NtSchedulerPool, NtLink, NtGroup, NtPortal, NtChaosTableReplica]

  /** The position of a node type in its declaration. */
  function NodeTypeOrdinal(t: ENodeType): (k: nat)
    ensures k < |AllNodeTypes| && AllNodeTypes[k] == t
  {
    match t
    case NtString => 0
    case NtInt64 => 1
    case NtUint64 => 2
    case NtDouble => 3
    case NtBoolean => 4
    case NtMap => 5
    case NtList => 6
    case NtFile => 7
    case NtTable => 8
    case NtDocument => 9
    case NtReplicatedTable => 10
    case NtTableReplica => 11
    case NtUser => 12
    case NtSchedulerPool => 13
    case NtLink => 14
    case NtGroup => 15
    case NtPortal => 16
    case NtChaosTableReplica => 17
  }

  /** The eighteen node types have eighteen different images. */
  lemma ObjectTypesOfAllNodeTypesDistinct()
    ensures |AllNodeTypes| == 18
    ensures forall t: ENodeType :: t in AllNodeTypes
    ensures forall i, j | 0 <= i < j < |AllNodeTypes| ::
      ToApiObjectType(AllNodeTypes[i]) != ToApiObjectType(AllNodeTypes[j])
  {
    forall t: ENodeType
      ensures t in AllNodeTypes
    {
      assert AllNodeTypes[NodeTypeOrdinal(t)] == t;
    }
  }

  /** Reference definition read backwards: which client lock mode, if any, a backend mode came from. */
  function LockModeOf(m: ApiLockMode): (k: Option<ELockMode>)
  {
    match m
    case None => Option.None
    case Snapshot => Some(LmSnapshot)
    case Shared => Some(LmShared)
    case Exclusive => Some(LmExclusive)
  }

  /** Client lock mode to backend lock mode; never the backend's "no lock", and injective. */
  function ToApiLockMode(mode: ELockMode): (r: ApiLockMode)
    ensures LockModeOf(r) == Some(mode)
    ensures r != ApiLockMode.None
  {
    match mode
    case LmExclusive => Exclusive
    case LmShared => Shared
    case LmSnapshot => Snapshot
  }

  /** Distinct lock modes map to distinct backend modes. */
  lemma ToApiLockModeInjective(a: ELockMode, b: ELockMode)
    requires ToApiLockMode(a) == ToApiLockMode(b)
    ensures a == b
  {
  }

  /** Every backend lock mode other than `None` is the image of the client mode the read-back names. */
  lemma ToApiLockModeOnto(m: ApiLockMode)
    requires m != ApiLockMode.None
    ensures LockModeOf(m).Some? && ToApiLockMode(LockModeOf(m).value) == m
  {
  }
}
