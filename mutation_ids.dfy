/**
 * Idempotent retry: the caller-owned mutation-id cell, the stamping of the
 * backend's mutating options from it, and the stamping of the transaction id.
 *
 * The first transmission of a logical call finds the cell empty, fills it
 * with a fresh id and leaves the retry flag alone.  Provided that fresh id is
 * not all-zero, every later transmission through the same cell that keeps the
 * id (the retry layer's `useSameMutationId`) finds it filled, reuses the id
 * and sets the retry flag, so the backend can recognise the repeat.  A
 * transmission the retry layer sends after resetting the cell starts over
 * with a fresh id and the retry flag unassigned.
 */
module MutationIds {
  import opened Wrappers
  import opened Guids

  /**
   * The process and clock sources that produce a fresh id, taken as inputs:
   * the GUID `CreateGuid` would write, the process id's 32-bit pattern and
   * the microsecond clock reading.
   */
  datatype GuidEntropy = GuidEntropy(Generated: UtilGuid, Pid: bv32, MicroSeconds: bv64)

  /**
   * The mutation fields the backend's mutating options carry; `None` is a
   * field never assigned, which keeps the backend default (no id, no retry).
   */
  datatype MutatingOptions = MutatingOptions(MutationId: Option<YtGuid>, Retry: Option<bool>)

  /** The transaction field the backend's transactional options carry. */
  datatype TransactionalOptions = TransactionalOptions(TransactionId: Option<YtGuid>)

  const DefaultMutating := MutatingOptions(None, None)
  const DefaultTransactional := TransactionalOptions(None)

  /** The low 32 bits of a 64-bit word. */
  function LowWord(x: bv64): (w: bv32)
    ensures w as bv64 == x & 0xFFFF_FFFF
  {
    (x & 0xFFFF_FFFF) as bv32
  }

  /**
   * Word 2 of a fresh id: the process id, widened to 64 bits, exclusive-or
   * the clock reading, truncated to the 32-bit word.  Truncation commutes
   * with the exclusive-or, so only the clock's low half reaches the id.
   */
  function MixedWord(e: GuidEntropy): (w: bv32)
    ensures w == e.Pid ^ LowWord(e.MicroSeconds)
  {
    LowWord((e.Pid as bv64) ^ e.MicroSeconds)
  }

  /** The id an empty cell receives: the generated GUID with word 2 overwritten. */
  function FreshMutationId(e: GuidEntropy): (g: UtilGuid)
    ensures g.dw[2] == MixedWord(e)
    ensures forall i | 0 <= i < 4 && i != 2 :: g.dw[i] == e.Generated.dw[i]
  {
    UtilGuid(e.Generated.dw[2 := MixedWord(e)])
  }

  /** A fresh id is empty exactly when its three generated words and the mixed word are all zero. */
  lemma FreshMutationIdEmptyIff(e: GuidEntropy)
    ensures IsEmpty(FreshMutationId(e)) <==>
      e.Generated.dw[0] == 0 && e.Generated.dw[1] == 0 && e.Generated.dw[3] == 0 && MixedWord(e) == 0
  {
  }

  /** What the cell holds after one stamping: a filled cell is left alone, an empty one gets a fresh id. */
  function StampedCell(cell: UtilGuid, e: GuidEntropy): (c: UtilGuid)
    ensures !IsEmpty(cell) ==> c == cell
    ensures IsEmpty(cell) ==> c == FreshMutationId(e)
  {
    if IsEmpty(cell) then FreshMutationId(e) else cell
  }

  /**
   * The mutation fields after one stamping: the id sent decodes to the
   * cell's new content, and the retry flag is raised exactly when the cell
   * was already filled (otherwise it keeps what it was).
   */
  function Stamp(options: MutatingOptions, cell: UtilGuid, e: GuidEntropy): (r: MutatingOptions)
    ensures r.MutationId.Some? && UtilGuidFromYtGuid(r.MutationId.value) == StampedCell(cell, e)
    ensures r.Retry == if IsEmpty(cell) then options.Retry else Some(true)
  {
    var flagged := if IsEmpty(cell) then options else options.(Retry := Some(true));
    UtilGuidRoundTrip(StampedCell(cell, e));
    flagged.(MutationId := Some(YtGuidFromUtilGuid(StampedCell(cell, e))))
  }

  /**
   * The caller-owned `TMutationId` cell, passed by reference to every
   * mutating call and reused across the retries of one logical call while
   * the retry layer keeps the id.
   */
  class MutationIdCell {
    var Value: UtilGuid

    /** A default-constructed cell is empty. */
    constructor ()
      ensures Value == EmptyGuid
    {
      Value := EmptyGuid;
    }

    /** A cell a caller has already filled, e.g. from a previous attempt. */
    constructor Holding(g: UtilGuid)
      ensures Value == g
    {
      Value := g;
    }
  }

  /**
   * Stamps the mutating options from the cell: fills an empty cell with a
   * fresh id (word 2 replaced by the mixed word), or leaves a filled cell
   * alone and raises the retry flag; in both cases copies the cell's id.
   */
  method SetMutationId(options: MutatingOptions, mutationId: MutationIdCell, entropy: GuidEntropy)
    returns (r: MutatingOptions)
    modifies mutationId
    ensures mutationId.Value == StampedCell(old(mutationId.Value), entropy)
    ensures r == Stamp(options, old(mutationId.Value), entropy)
    ensures old(IsEmpty(mutationId.Value)) ==> r.Retry == options.Retry
    ensures !old(IsEmpty(mutationId.Value)) ==> mutationId.Value == old(mutationId.Value) && r.Retry == Some(true)
    ensures r.MutationId == Some(YtGuidFromUtilGuid(mutationId.Value))
  {
    r := options;
    if IsEmpty(mutationId.Value) {
      mutationId.Value := entropy.Generated;
      mutationId.Value := mutationId.Value.(dw := mutationId.Value.dw[2 := MixedWord(entropy)]);
    } else {
      r := r.(Retry := Some(true));
    }
    r := r.(MutationId := Some(YtGuidFromUtilGuid(mutationId.Value)));
  }

  /** Sets the transaction field; the id sent decodes back to the caller's transaction id. */
  function SetTransactionId(options: TransactionalOptions, transactionId: UtilGuid): (r: TransactionalOptions)
    ensures r.TransactionId.Some? && UtilGuidFromYtGuid(r.TransactionId.value) == transactionId
  {
    UtilGuidRoundTrip(transactionId);
    options.(TransactionId := Some(YtGuidFromUtilGuid(transactionId)))
  }

  /**
   * Stamping again through a cell that the first stamping left filled keeps
   * the cell, sends the same id and raises the retry flag.
   */
  lemma RestampReusesId(options: MutatingOptions, again: MutatingOptions, cell: UtilGuid, e1: GuidEntropy, e2: GuidEntropy)
    requires !IsEmpty(StampedCell(cell, e1))
    ensures StampedCell(StampedCell(cell, e1), e2) == StampedCell(cell, e1)
    ensures Stamp(again, StampedCell(cell, e1), e2).MutationId == Stamp(options, cell, e1).MutationId
    ensures Stamp(again, StampedCell(cell, e1), e2).Retry == Some(true)
  {
  }

  /**
   * One transmission as the higher retry layer issues it: whether it keeps
   * the cell's id (`useSameMutationId`) or first resets the cell to empty,
   * and the entropy a fresh id would be made from.
   */
  datatype Attempt = Attempt(UseSameMutationId: bool, Entropy: GuidEntropy)

  /** The mutation fields of each transmission, in order, and the cell's content after the last one. */
  datatype Transmissions = Transmissions(Sent: seq<MutatingOptions>, Cell: UtilGuid)

  /** The cell as a transmission finds it: kept, or reset to empty by the higher layer. */
  function CellBefore(cell: UtilGuid, a: Attempt): (c: UtilGuid)
    ensures a.UseSameMutationId ==> c == cell
    ensures !a.UseSameMutationId ==> IsEmpty(c)
  {
    if a.UseSameMutationId then cell else EmptyGuid
  }

  /**
   * The transmissions of a sequence of attempts through one cell, each
   * starting from the backend defaults as every serialiser does.
   */
  function Attempts(cell: UtilGuid, attempts: seq<Attempt>): (t: Transmissions)
    ensures |t.Sent| == |attempts|
    decreases |attempts|
  {
    if attempts == [] then Transmissions([], cell)
    else
      var c := CellBefore(cell, attempts[0]);
      var rest := Attempts(StampedCell(c, attempts[0].Entropy), attempts[1..]);
      Transmissions([Stamp(DefaultMutating, c, attempts[0].Entropy)] + rest.Sent, rest.Cell)
  }

  /**
   * A sequence of attempts is its first part followed by its second: the
   * second part's transmissions are those it makes through the cell the
   * first part left behind.
   */
  lemma {:induction false} AttemptsSplit(cell: UtilGuid, a: seq<Attempt>, b: seq<Attempt>)
    ensures Attempts(cell, a + b).Sent == Attempts(cell, a).Sent + Attempts(Attempts(cell, a).Cell, b).Sent
    ensures Attempts(cell, a + b).Cell == Attempts(Attempts(cell, a).Cell, b).Cell
    decreases |a|
  {
    if a == [] {
      assert a + b == b;
    } else {
      assert (a + b)[0] == a[0] && (a + b)[1..] == a[1..] + b;
      var c := CellBefore(cell, a[0]);
      AttemptsSplit(StampedCell(c, a[0].Entropy), a[1..], b);
    }
  }

  /**
   * A transmission after a reset starts over: it sends the fresh id made
   * from its own entropy and leaves the retry flag unassigned, whatever the
   * earlier transmissions sent.
   */
  lemma {:induction false} AttemptAfterResetStartsOver(cell: UtilGuid, attempts: seq<Attempt>, i: nat)
    requires i < |attempts|
    requires !attempts[i].UseSameMutationId
    ensures Attempts(cell, attempts).Sent[i] ==
      MutatingOptions(Some(YtGuidFromUtilGuid(FreshMutationId(attempts[i].Entropy))), None)
    decreases i
  {
    var c := CellBefore(cell, attempts[0]);
    if i == 0 {
      var first := Stamp(DefaultMutating, c, attempts[0].Entropy);
      YtGuidRoundTrip(first.MutationId.value);
    } else {
      AttemptAfterResetStartsOver(StampedCell(c, attempts[0].Entropy), attempts[1..], i - 1);
    }
  }

  /** Every transmission that keeps the id of an already filled cell reuses it and is flagged as a retry. */
  lemma {:induction false} AttemptsThroughFilledCell(cell: UtilGuid, attempts: seq<Attempt>)
    requires !IsEmpty(cell)
    requires forall i | 0 <= i < |attempts| :: attempts[i].UseSameMutationId
    ensures Attempts(cell, attempts).Cell == cell
    ensures forall i | 0 <= i < |attempts| ::
      Attempts(cell, attempts).Sent[i] == MutatingOptions(Some(YtGuidFromUtilGuid(cell)), Some(true))
    decreases |attempts|
  {
    if attempts != [] {
      assert attempts[0].UseSameMutationId;
      AttemptsThroughFilledCell(cell, attempts[1..]);
      var first := Stamp(DefaultMutating, cell, attempts[0].Entropy);
      YtGuidRoundTrip(first.MutationId.value);
      assert first == MutatingOptions(Some(YtGuidFromUtilGuid(cell)), Some(true));
    }
  }

  /**
   * The retry protocol over attempts in which the higher layer keeps the id
   * after the first: once the first transmission has left a non-empty id in
   * the cell, every transmission sends that same id, the first is flagged
   * exactly when it found the cell filled, and all later ones are flagged
   * as retries.
   */
  lemma {:induction false} RetriesShareOneId(cell: UtilGuid, attempts: seq<Attempt>)
    requires |attempts| > 0
    requires forall i | 1 <= i < |attempts| :: attempts[i].UseSameMutationId
    requires !IsEmpty(StampedCell(CellBefore(cell, attempts[0]), attempts[0].Entropy))
    ensures Attempts(cell, attempts).Cell == StampedCell(CellBefore(cell, attempts[0]), attempts[0].Entropy)
    ensures forall i | 0 <= i < |attempts| ::
      Attempts(cell, attempts).Sent[i].MutationId ==
        Some(YtGuidFromUtilGuid(StampedCell(CellBefore(cell, attempts[0]), attempts[0].Entropy)))
    ensures Attempts(cell, attempts).Sent[0].Retry == if IsEmpty(CellBefore(cell, attempts[0])) then None else Some(true)
    ensures forall i | 1 <= i < |attempts| :: Attempts(cell, attempts).Sent[i].Retry == Some(true)
  {
    var before := CellBefore(cell, attempts[0]);
    var c := StampedCell(before, attempts[0].Entropy);
    AttemptsThroughFilledCell(c, attempts[1..]);
    var first := Stamp(DefaultMutating, before, attempts[0].Entropy);
    YtGuidRoundTrip(first.MutationId.value);
    assert first.MutationId == Some(YtGuidFromUtilGuid(c));
  }

  /**
   * A retry stretch that opens with a reset, anywhere in a logical call,
   * behaves like a call of its own: provided its fresh id is not all-zero,
   * all its transmissions send that id, the first with the retry flag
   * unassigned and the later ones flagged as retries.
   */
  lemma RetriesAfterResetShareOneId(cell: UtilGuid, earlier: seq<Attempt>, stretch: seq<Attempt>)
    requires |stretch| > 0 && !stretch[0].UseSameMutationId
    requires forall i | 1 <= i < |stretch| :: stretch[i].UseSameMutationId
    requires !IsEmpty(FreshMutationId(stretch[0].Entropy))
    ensures var sent := Attempts(cell, earlier + stretch).Sent[|earlier|..];
      && |sent| == |stretch|
      && (forall i | 0 <= i < |sent| :: sent[i].MutationId == Some(YtGuidFromUtilGuid(FreshMutationId(stretch[0].Entropy))))
      && sent[0].Retry == None
      && (forall i | 1 <= i < |sent| :: sent[i].Retry == Some(true))
  {
    AttemptsSplit(cell, earlier, stretch);
    RetriesShareOneId(Attempts(cell, earlier).Cell, stretch);
    assert Attempts(cell, earlier + stretch).Sent[|earlier|..] == Attempts(Attempts(cell, earlier).Cell, stretch).Sent;
  }
}
