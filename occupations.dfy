/** The combined occupation vector: two branches of length L^2 laid out in complementary order. */
module Occupations {
  import opened Lattice

  /** The library's expectation values hold (at least) L^2 entries in branches 1 and 2. */
  predicate WellShaped(L: int, fermOccs: seq<seq<real>>)
  {
    |fermOccs| > 2 && |fermOccs[1]| >= BranchLength(L) && |fermOccs[2]| >= BranchLength(L)
  }

  /**
   * Slot k of the combined vector, read slot by slot: the first L^2 slots hold branch 2 in order,
   * the last L^2 slots hold branch 1 in reverse.
   */
  function Interleaved(L: int, exp: real -> real, fermOccs: seq<seq<real>>): (v: seq<real>)
    requires WellShaped(L, fermOccs)
    ensures |v| == Dim(L)
    ensures forall m :: 0 <= m < BranchLength(L) ==> v[m] == exp(fermOccs[2][m]) && v[Dim(L) - 1 - m] == exp(fermOccs[1][m])
  {
    seq(Dim(L), k requires 0 <= k < Dim(L) =>
      if k < BranchLength(L) then exp(fermOccs[2][k]) else exp(fermOccs[1][Dim(L) - 1 - k]))
  }

  /** The two slots iteration m of the loop in CombineOccupations writes: m and 2 half - 1 - m. */
  function WrittenBy(half: nat, m: nat): set<int>
    requires m < half
  {
    {m, 2 * half - 1 - m}
  }

  /**
   * The iteration that writes slot k: k itself in the first half, its mirror image in the second.
   * The loop of CombineOccupations keeps every slot whose writer has already run filled.
   */
  function Writer(half: nat, k: nat): (m: nat)
    requires k < 2 * half
    ensures m < half
  {
    if k < half then k else 2 * half - 1 - k
  }

  /**
   * Fills an uninitialised (np.empty) vector of length 2L^2: iteration m writes slot m from
   * branch 2 and slot 2L^2 - 1 - m from branch 1.
   */
  method CombineOccupations(L: int, exp: real -> real, fermOccs: seq<seq<real>>)
    returns (combined: array<real>)
    requires WellShaped(L, fermOccs)
    ensures fresh(combined)
    ensures combined.Length == Dim(L)
    ensures forall m :: 0 <= m < BranchLength(L) ==>
      combined[m] == exp(fermOccs[2][m]) && combined[Dim(L) - 1 - m] == exp(fermOccs[1][m])
    ensures combined[..] == Interleaved(L, exp, fermOccs)
  {
    var half := BranchLength(L);
    ghost var v := Interleaved(L, exp, fermOccs);
    combined := new real[2 * half];
    for m := 0 to half
      invariant forall k :: 0 <= k < 2 * half && Writer(half, k) < m ==> combined[k] == v[k]
    {
      combined[m] := exp(fermOccs[2][m]);
      combined[2 * half - 1 - m] := exp(fermOccs[1][m]);
    }
    assert combined[..] == v;
  }

  /**
   * The loop writes every slot of the 2 half vector exactly once and nothing outside it: the two
   * slots of one iteration lie in [0, 2 half), and each slot there is written by one iteration only.
   */
  lemma EverySlotWrittenOnce(half: nat)
    ensures forall m, k :: 0 <= m < half && k in WrittenBy(half, m) ==> 0 <= k < 2 * half
    ensures forall m, k :: 0 <= m < half && 0 <= k < 2 * half ==> (k in WrittenBy(half, m) <==> m == Writer(half, k))
  {
  }
}
