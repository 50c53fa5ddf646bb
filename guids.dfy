/**
 * The two 128-bit identifier layouts met at the client/backend boundary and
 * the positional codec between them.  Both layouts are four 32-bit words;
 * converting copies word i to word i, with no byte swap and no hashing.
 */
module Guids {

  /** Four 32-bit words, the storage shared by both layouts. */
  type Words = s: seq<bv32> | |s| == 4 witness [0, 0, 0, 0]

  /** The client library's GUID (words `dw[0..3]`); mutation and transaction ids have this type. */
  datatype UtilGuid = UtilGuid(dw: Words)

  /** The backend's GUID (words `Parts32[0..3]`). */
  datatype YtGuid = YtGuid(Parts32: Words)

  /** The value of a default-constructed client GUID. */
  const EmptyGuid := UtilGuid([0, 0, 0, 0])

  /** A client GUID is empty when the bitwise or of its words is zero: exactly the all-zero GUID. */
  predicate IsEmpty(g: UtilGuid): (b: bool)
    ensures b <==> g == EmptyGuid
  {
    (g.dw[0] | g.dw[1] | g.dw[2] | g.dw[3]) == 0
  }

  /** Client GUID to backend GUID. */
  function YtGuidFromUtilGuid(guid: UtilGuid): (r: YtGuid)
    ensures forall i | 0 <= i < 4 :: r.Parts32[i] == guid.dw[i]
  {
    YtGuid([guid.dw[0], guid.dw[1], guid.dw[2], guid.dw[3]])
  }

  /** Backend GUID to client GUID. */
  function UtilGuidFromYtGuid(guid: YtGuid): (r: UtilGuid)
    ensures forall i | 0 <= i < 4 :: r.dw[i] == guid.Parts32[i]
  {
    UtilGuid([guid.Parts32[0], guid.Parts32[1], guid.Parts32[2], guid.Parts32[3]])
  }

  /** Decoding an encoded client GUID gives it back. */
  lemma UtilGuidRoundTrip(g: UtilGuid)
    ensures UtilGuidFromYtGuid(YtGuidFromUtilGuid(g)) == g
  {
  }

  /** Encoding a decoded backend GUID gives it back. */
  lemma YtGuidRoundTrip(g: YtGuid)
    ensures YtGuidFromUtilGuid(UtilGuidFromYtGuid(g)) == g
  {
  }

  /** The empty GUID travels as the all-zero backend GUID and comes back empty. */
  lemma EmptyGuidRoundTrip()
    ensures YtGuidFromUtilGuid(EmptyGuid) == YtGuid([0, 0, 0, 0])
    ensures UtilGuidFromYtGuid(YtGuid([0, 0, 0, 0])) == EmptyGuid
  {
  }

  /** Distinct client GUIDs give distinct backend GUIDs. */
  lemma YtGuidFromUtilGuidInjective(a: UtilGuid, b: UtilGuid)
    requires YtGuidFromUtilGuid(a) == YtGuidFromUtilGuid(b)
    ensures a == b
  {
  }
}
