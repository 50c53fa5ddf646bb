# Request translation of the YT RPC raw client, in Dafny

This project models the layer of the YT C++ RPC client that turns a logical
Cypress (metadata namespace) call into the options record of the backend API:

- the positional codec between the client GUID (`TGUID`, words `dw[0..3]`)
  and the backend GUID (`TGuid`, words `Parts32[0..3]`);
- the exhaustive switches from client node types to backend object types and
  from client lock modes to backend lock modes;
- the idempotent-retry protocol: `SetMutationId` fills an empty caller-owned
  mutation-id cell with a fresh id, or reuses a filled one and raises the
  retry flag, and copies the id into the request; `SetTransactionId` copies
  the transaction id;
- the twelve `SerializeOptionsFor*` translators. Each applies the transaction
  id and, for a mutating call, stamps the mutation id. It forwards each
  optional client field only when present and always copies the plain ones.

Files:
- `wrappers.dfy`: `Option`.
- `guids.dfy`: the GUID layouts and codec.
- `type_mappers.dfy`: the two enum mappings, each with an inverse read-back.
- `mutation_ids.dfy`: the cell (`class MutationIdCell`), `SetMutationId` and `SetTransactionId`,
  with the specification functions `StampedCell` and `Stamp` they are proved against.
  It also models the retry protocol over a sequence of attempts.
- `serialization.dfy`: the client and backend options records and the serialisers.

Backend options records give every field the serialisers may write the type
`Option<T>`. `None` means the serialiser never assigned the field, so the
backend's own default applies. `Some(v)` means it assigned `v`, even when `v`
equals that default. Read records (Get, Exists, List) have no mutation fields
at all, and the read serialisers take no mutation-id cell, so they cannot
stamp. Every mutating serialiser's contract ties its mutation fields to
exactly one `Stamp` of the cell's previous content.

Behaviour worth noting:
- The transaction id is always written, also when the caller passes the
  empty GUID.
- Stamping an empty cell does not assign the retry flag. It only leaves it
  unassigned, so the backend default applies.
- A freshly stamped id is not guaranteed to be non-empty.
  `MutationIds.FreshMutationIdEmptyIff` states exactly when it is empty. The
  retry lemmas therefore assume the first stamping left a non-empty id.
- For Create, Copy, Move, Remove and Link, `Force` is a plain client field
  and is always copied. Only Set and MultisetAttributes forward an optional
  `Force`.

## Model

| member | source | states |
|---|---|---|
| `Guids.IsEmpty` | yt/cpp/mapreduce/rpc_client/rpc_parameters_serialization.cpp:84 | the emptiness test (or of the four words is zero) holds exactly for the all-zero GUID |
| `Guids.YtGuidFromUtilGuid` | yt/cpp/mapreduce/rpc_client/rpc_parameters_serialization.cpp:9-12 | backend word i is client word i, for every i, with no reordering |
| `Guids.UtilGuidFromYtGuid` | yt/cpp/mapreduce/rpc_client/rpc_parameters_serialization.cpp:14-17 | client word i is backend word i, for every i |
| `Guids.UtilGuidRoundTrip` | yt/cpp/mapreduce/rpc_client/rpc_parameters_serialization.cpp:9-17 | decoding an encoded client GUID gives it back |
| `Guids.YtGuidRoundTrip` | yt/cpp/mapreduce/rpc_client/rpc_parameters_serialization.cpp:9-17 | encoding a decoded backend GUID gives it back |
| `Guids.EmptyGuidRoundTrip` | yt/cpp/mapreduce/rpc_client/rpc_parameters_serialization.cpp:9-17 | the empty GUID encodes to the all-zero backend GUID and decodes back to empty |
| `Guids.YtGuidFromUtilGuidInjective` | yt/cpp/mapreduce/rpc_client/rpc_parameters_serialization.cpp:9-12 | distinct client GUIDs give distinct backend GUIDs |
| `TypeMappers.ToApiObjectType` | yt/cpp/mapreduce/rpc_client/rpc_parameters_serialization.cpp:19-60 | total on the 18 node types; the inverse read-back recovers the node type; never `PortalExit` (a portal maps to `PortalEntrance`) |
| `TypeMappers.NodeTypeOfSound` | yt/cpp/mapreduce/rpc_client/rpc_parameters_serialization.cpp:19-60 | every object type the read-back accepts is the image of the node type it names; it rejects only `PortalExit` |
| `TypeMappers.ToApiObjectTypeInjective` | yt/cpp/mapreduce/rpc_client/rpc_parameters_serialization.cpp:19-60 | distinct node types give distinct object types |
| `TypeMappers.ToApiObjectTypeImage` | yt/cpp/mapreduce/rpc_client/rpc_parameters_serialization.cpp:19-60 | within the reduced backend enum (the 18 images plus `PortalExit`), an object type is reached by some node type if and only if it is not `PortalExit` |
| `TypeMappers.ObjectTypesOfAllNodeTypesDistinct` | yt/cpp/mapreduce/rpc_client/rpc_parameters_serialization.cpp:21-58 | the 18 cases of the switch are all the node types there are, and their 18 images are pairwise different |
| `TypeMappers.ToApiLockMode` | yt/cpp/mapreduce/rpc_client/rpc_parameters_serialization.cpp:62-73 | total on the three lock modes; the read-back recovers the mode; never the backend's `None` |
| `TypeMappers.ToApiLockModeInjective` | yt/cpp/mapreduce/rpc_client/rpc_parameters_serialization.cpp:62-73 | distinct client lock modes give distinct backend lock modes |
| `TypeMappers.ToApiLockModeOnto` | yt/cpp/mapreduce/rpc_client/rpc_parameters_serialization.cpp:62-73 | every backend mode other than `None` is the image of the client mode the read-back names |
| `MutationIds.LowWord` | yt/cpp/mapreduce/rpc_client/rpc_parameters_serialization.cpp:86 | storing a 64-bit value into a 32-bit word keeps its low 32 bits |
| `MutationIds.MixedWord` | yt/cpp/mapreduce/rpc_client/rpc_parameters_serialization.cpp:86 | `GetPID() ^ MicroSeconds()` stored into a 32-bit word is the process id xor the low half of the clock reading |
| `MutationIds.FreshMutationId` | yt/cpp/mapreduce/rpc_client/rpc_parameters_serialization.cpp:85-86 | a fresh id keeps the generated words 0, 1 and 3, and its word 2 is `PID ^ MicroSeconds` truncated to 32 bits |
| `MutationIds.FreshMutationIdEmptyIff` | yt/cpp/mapreduce/rpc_client/rpc_parameters_serialization.cpp:84-86 | a fresh id is empty iff generated words 0, 1, 3 and the mixed word are all zero |
| `MutationIds.StampedCell` | yt/cpp/mapreduce/rpc_client/rpc_parameters_serialization.cpp:84-89 | a filled cell is left unchanged; an empty one receives the fresh id |
| `MutationIds.Stamp` | yt/cpp/mapreduce/rpc_client/rpc_parameters_serialization.cpp:84-90 | the id sent decodes to the cell's new content; retry is raised iff the cell was filled, else left as it was |
| `MutationIds.SetMutationId` | yt/cpp/mapreduce/rpc_client/rpc_parameters_serialization.cpp:80-91 | the new cell is `StampedCell` of the old one and the options are `Stamp` of it; filled cell kept with retry true; empty cell's retry untouched |
| `MutationIds.SetTransactionId` | yt/cpp/mapreduce/rpc_client/rpc_parameters_serialization.cpp:93-98 | the transaction field is always set, and it decodes back to the caller's transaction id |
| `MutationIds.RestampReusesId` | yt/cpp/mapreduce/rpc_client/rpc_parameters_serialization.cpp:84-90 | stamping again a cell left non-empty keeps the cell, sends the same id and raises retry |
| `MutationIds.CellBefore` | yt/cpp/mapreduce/rpc_client/rpc_parameters_serialization.cpp:77-79 | an attempt that keeps the id finds the cell as it was; one that does not finds it reset to empty |
| `MutationIds.Attempts` | yt/cpp/mapreduce/rpc_client/rpc_parameters_serialization.cpp:77-91 | one transmission per attempt, each the `Stamp` of the cell as that attempt finds it (kept or reset) |
| `MutationIds.AttemptsSplit` | yt/cpp/mapreduce/rpc_client/rpc_parameters_serialization.cpp:77-91 | the attempts of `a + b` send those of `a`, then those of `b` made through the cell `a` left behind |
| `MutationIds.AttemptAfterResetStartsOver` | yt/cpp/mapreduce/rpc_client/rpc_parameters_serialization.cpp:77-91 | any attempt after a reset sends the fresh id made from its own entropy, with retry unassigned, whatever came before |
| `MutationIds.AttemptsThroughFilledCell` | yt/cpp/mapreduce/rpc_client/rpc_parameters_serialization.cpp:77-91 | any number of attempts that keep the id of a filled cell all send its id with retry true, and the cell stays as it was |
| `MutationIds.RetriesShareOneId` | yt/cpp/mapreduce/rpc_client/rpc_parameters_serialization.cpp:77-91 | over a sequence of attempts in which the higher layer keeps the id after the first (`useSameMutationId` true), every attempt sends the id left by the first; the first is flagged iff it found the cell filled; all later ones are flagged |
| `MutationIds.RetriesAfterResetShareOneId` | yt/cpp/mapreduce/rpc_client/rpc_parameters_serialization.cpp:77-91 | a stretch of attempts that opens with a reset and then keeps the id, anywhere in the call, sends one id (the stretch's non-empty fresh id) throughout: first unflagged, later ones flagged |
| `Serialization.ToMasterChannelKind` | yt/cpp/mapreduce/rpc_client/rpc_parameters_serialization.cpp:115 | the ReadFrom cast keeps the enum's integer value |
| `Serialization.ToMasterChannelKindInjective` | yt/cpp/mapreduce/rpc_client/rpc_parameters_serialization.cpp:115 | distinct read kinds reach distinct channel kinds |
| `Serialization.SerializeOptionsForGet` | yt/cpp/mapreduce/rpc_client/rpc_parameters_serialization.cpp:102-118 | transaction id always applied; AttributeFilter, MaxSize and ReadFrom forwarded iff present, else unassigned; no mutation fields |
| `Serialization.SerializeOptionsForSet` | yt/cpp/mapreduce/rpc_client/rpc_parameters_serialization.cpp:120-133 | one stamp of the cell; transaction id applied; Force forwarded iff present; Recursive always copied |
| `Serialization.SerializeOptionsForExists` | yt/cpp/mapreduce/rpc_client/rpc_parameters_serialization.cpp:135-145 | transaction id always applied; ReadFrom forwarded iff present; no mutation fields |
| `Serialization.SerializeOptionsForMultisetAttributes` | yt/cpp/mapreduce/rpc_client/rpc_parameters_serialization.cpp:147-159 | one stamp; transaction id applied; Force forwarded iff present |
| `Serialization.SerializeOptionsForCreate` | yt/cpp/mapreduce/rpc_client/rpc_parameters_serialization.cpp:161-177 | one stamp; transaction id; Force, IgnoreExisting and Recursive always copied; attributes converted iff present |
| `Serialization.SerializeOptionsForCopy` | yt/cpp/mapreduce/rpc_client/rpc_parameters_serialization.cpp:179-194 | one stamp; transaction id; Force, PreserveAccount and Recursive always copied; PreserveExpirationTime forwarded iff present |
| `Serialization.SerializeOptionsForMove` | yt/cpp/mapreduce/rpc_client/rpc_parameters_serialization.cpp:196-211 | one stamp; transaction id; Force, PreserveAccount and Recursive always copied; PreserveExpirationTime forwarded iff present |
| `Serialization.SerializeOptionsForRemove` | yt/cpp/mapreduce/rpc_client/rpc_parameters_serialization.cpp:213-224 | one stamp; transaction id; Force and Recursive always copied |
| `Serialization.SerializeOptionsForList` | yt/cpp/mapreduce/rpc_client/rpc_parameters_serialization.cpp:226-242 | transaction id always applied; AttributeFilter, MaxSize and ReadFrom forwarded iff present; no mutation fields |
| `Serialization.SerializeOptionsForLink` | yt/cpp/mapreduce/rpc_client/rpc_parameters_serialization.cpp:244-260 | one stamp; transaction id; Force, IgnoreExisting and Recursive always copied; attributes converted iff present |
| `Serialization.SerializeOptionsForLock` | yt/cpp/mapreduce/rpc_client/rpc_parameters_serialization.cpp:262-278 | one stamp; transaction id; Waitable always copied; AttributeKey and ChildKey forwarded iff present |
| `Serialization.SerializeOptionsForUnlock` | yt/cpp/mapreduce/rpc_client/rpc_parameters_serialization.cpp:280-289 | the result is exactly one stamp of the cell plus the transaction id; the options argument contributes nothing |
| `Serialization.CreateThenRetry` | yt/cpp/mapreduce/rpc_client/rpc_parameters_serialization.cpp:161-177 | Create through a new cell sends the fresh id without retry; re-sending through the same cell sends the same id with retry true and an otherwise identical request |
| `Serialization.RemoveThroughFilledCell` | yt/cpp/mapreduce/rpc_client/rpc_parameters_serialization.cpp:213-224 | a Remove through a cell filled by an earlier attempt keeps the cell and sends its id with retry true |
| `Serialization.SetForceAbsentVersusFalse` | yt/cpp/mapreduce/rpc_client/rpc_parameters_serialization.cpp:128-130 | for Set, an absent Force leaves the backend field unassigned, while an explicit false is forwarded, so the two requests differ |

## Left out

- Attribute payload conversion (binary YSON writing followed by conversion
  to an attribute dictionary, for Create and Link) is a foreign serialiser.
  The Create and Link serialisers take it as a function parameter
  `convertAttributes`, and its payload and result types are type parameters.
  The model proves only that it is applied exactly when the payload is present.
  The conversion's failures (it throws, for example, on a payload that is not
  a map) are not modelled: the parameter is a total function.
- `CreateGuid`, `GetPID` and `MicroSeconds` are process and clock sources.
  They reach the model as one `GuidEntropy` input. The model does not claim
  that ids are unique. The process id is taken as its 32-bit pattern.
- The `ReadFrom` cast keeps only the enum's integer value. Which backend
  enumerator that value names is not modelled. The client read kinds are
  taken in their declaration order.
- Backend default values are not modelled. A field the serialiser does not
  assign is `None`, whatever default the backend header gives it.
- The backend object-type and lock-mode enums are reduced to the values the
  mappings reach, plus `PortalExit` and the backend's `None` lock.
- The `YT_ABORT()` backstops (lines 59 and 72) have no Dafny counterpart.
  The client enums are closed datatypes, so an out-of-range value cannot be
  constructed.
- The facade's implementation, which issues the backend calls, is not
  modelled. yt/cpp/mapreduce/rpc_client/raw_client.h declares it. There,
  Get, Exists and List take no mutation-id cell (lines 24-27, 36-39, 87-90),
  matching the read serialisers. Most mutating calls take one. The
  exceptions are `CopyWithoutRetries` and `MoveWithoutRetries` (lines 55-59,
  68-72), which take only a transaction id. `CopyInsideMasterCell` and
  `MoveInsideMasterCell` take a cell.
- The caller-side retry loop lives outside
  rpc_parameters_serialization.cpp; the comment at lines 77-79 describes it.
  `MutationIds.Attempts` models the requests of a sequence of attempts as a
  function, not as a method with a loop. Each attempt carries the layer's
  `useSameMutationId` choice: kept, or the cell reset to empty first. When
  the layer chooses a reset, and whatever else decides its retries, is not
  modelled.
