/** The identifier space shared by servers, clients, pools and sub-memories, and the packing of two
    identifiers into one 32-bit word. */
module IdSpace {
  import Seqs

  const MAX_ID: int := 0xFFFF
  const EINVAL: int := 22
  const ENOSPC: int := 28
  const HALF: int := 0x1_0000
  const WORD: int := 0x1_0000_0000

  /** IS_ID_VALID */
  predicate ValidId(id: int) {
    0 <= id <= MAX_ID
  }

  /** pack_ids. Both identifiers fit 16 bits past the check, so the shift-and-or is a sum of disjoint
      halves; the negative error code becomes its unsigned 32-bit image. */
  function PackIds(id1: int, id2: int): int {
    if !ValidId(id1) || !ValidId(id2) then WORD - EINVAL else id1 * HALF + id2
  }

  function UnpackId1(packed: int): int {
    packed / HALF
  }

  function UnpackId2(packed: int): int {
    packed % HALF
  }

  lemma PackRoundTrip(id1: int, id2: int)
    requires ValidId(id1) && ValidId(id2)
    ensures 0 <= PackIds(id1, id2) < WORD
    ensures UnpackId1(PackIds(id1, id2)) == id1 && UnpackId2(PackIds(id1, id2)) == id2
  {
  }

  /** The word that callers test for failure is itself the packing of exactly one pair of valid identifiers. */
  lemma PackErrorAmbiguity(id1: int, id2: int)
    ensures PackIds(id1, id2) == WORD - EINVAL <==>
            !ValidId(id1) || !ValidId(id2) || (id1 == MAX_ID && id2 == HALF - EINVAL)
  {
  }

  /** ida_alloc_range(name, 0, MAX_ID_VALUE): the lowest identifier in range that is not in use. */
  function LowestFree(used: set<int>, from: int): (id: int)
    requires 0 <= from <= MAX_ID + 1
    ensures id == -ENOSPC || (from <= id <= MAX_ID && id !in used)
    ensures forall j :: from <= j < (if id == -ENOSPC then MAX_ID + 1 else id) ==> j in used
    decreases MAX_ID + 1 - from
  {
    if from > MAX_ID then -ENOSPC
    else if from !in used then from
    else LowestFree(used, from + 1)
  }

  /** generate_id hands the allocator's result on unchanged, error code included. */
  function GenerateId(used: set<int>): (id: int)
    ensures id == -ENOSPC || (ValidId(id) && id !in used)
    ensures forall j :: 0 <= j < (if id == -ENOSPC then MAX_ID + 1 else id) ==> j in used
  {
    LowestFree(used, 0)
  }

  function Interval(n: nat): (r: set<int>)
    ensures |r| == n && forall j :: j in r <==> 0 <= j < n
  {
    if n == 0 then {} else Interval(n - 1) + {n - 1}
  }

  /** With n identifiers in use the next one is at most n: the allocator packs the space densely. */
  lemma GenerateDense(used: set<int>)
    requires |used| <= MAX_ID
    ensures 0 <= GenerateId(used) <= |used|
  {
    var id := GenerateId(used);
    var n := if id == -ENOSPC then MAX_ID + 1 else id;
    assert Interval(n) <= used;
    Seqs.SubsetSize(Interval(n), used);
  }
}
