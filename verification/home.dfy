/**
 * The catalogue browser's derived state: the case-insensitive name search and
 * the ad carousel's active index.
 */
module Home {
  import opened Types
  import opened Seqs
  import opened Text

  /** A medicine matches when its lower-cased name contains the lower-cased term. */
  predicate Matches(m: Medicine, term: string)
  {
    Contains(Lower(m.name), Lower(term))
  }

  /** `filteredMedicines`: the matching medicines, in catalogue order. */
  function Search(medicines: seq<Medicine>, term: string): (r: seq<Medicine>)
    ensures |r| <= |medicines|
    ensures IsSubsequence(r, medicines)
    ensures forall m :: m in r <==> m in medicines && Matches(m, term)
  {
    Filter(medicines, (m: Medicine) => Matches(m, term))
  }

  /** A medicine is found exactly when some position of its lower-cased name holds the lower-cased term. */
  lemma SearchFindsSubstrings(medicines: seq<Medicine>, term: string, m: Medicine)
    ensures m in Search(medicines, term) <==>
      m in medicines && exists i :: OccursAt(Lower(m.name), Lower(term), i)
  {
    ContainsIff(Lower(m.name), Lower(term));
  }

  /** An empty search term shows the whole catalogue. */
  lemma EmptySearchShowsAll(medicines: seq<Medicine>)
    ensures Search(medicines, "") == medicines
  {
    forall m | m in medicines ensures Matches(m, "") {
      ContainsEmpty(Lower(m.name));
    }
    FilterKeepsAll(medicines, (m: Medicine) => Matches(m, ""));
  }

  /** Search ignores ASCII case in the term: a term and its lower-cased form find the same medicines. */
  lemma SearchIgnoresTermCase(medicines: seq<Medicine>, term: string)
    ensures Search(medicines, Lower(term)) == Search(medicines, term)
  {
    LowerIdempotent(term);
    FilterCongruent(medicines, (m: Medicine) => Matches(m, Lower(term)), (m: Medicine) => Matches(m, term));
  }

  // ---------------------------------------------------------------------------
  // Carousel

  /**
   * One firing of the carousel timer. With at most one ad no timer is
   * installed, so the index stays; otherwise it moves to the next ad, wrapping.
   */
  function Advance(active: nat, adCount: nat): (r: nat)
    ensures adCount <= 1 ==> r == active
    ensures adCount > 1 ==> r < adCount
    ensures adCount > 1 && active + 1 < adCount ==> r == active + 1
    ensures adCount > 1 && active + 1 == adCount ==> r == 0
  {
    if adCount <= 1 then active else (active + 1) % adCount
  }

  /** The index after `k` timer firings. */
  function AdvanceTimes(active: nat, adCount: nat, k: nat): nat
  {
    if k == 0 then active else Advance(AdvanceTimes(active, adCount, k - 1), adCount)
  }

  /** Before the end of the ads is reached, `k` firings move the carousel `k` places on. */
  lemma {:induction false} AdvanceTimesSteps(active: nat, adCount: nat, k: nat)
    requires adCount > 1 && active + k < adCount
    ensures AdvanceTimes(active, adCount, k) == active + k
  {
    if k > 0 {
      AdvanceTimesSteps(active, adCount, k - 1);
    }
  }

  /** `i` firings followed by `j` firings are `i + j` firings. */
  lemma {:induction false} AdvanceTimesCompose(active: nat, adCount: nat, i: nat, j: nat)
    ensures AdvanceTimes(active, adCount, i + j) == AdvanceTimes(AdvanceTimes(active, adCount, i), adCount, j)
  {
    if j > 0 {
      AdvanceTimesCompose(active, adCount, i, j - 1);
      assert i + j - 1 == i + (j - 1);
    }
  }

  /** As many firings as there are ads bring the carousel back to where it started. */
  lemma AdvanceFullCycle(active: nat, adCount: nat)
    requires adCount > 1 && active < adCount
    ensures AdvanceTimes(active, adCount, adCount) == active
  {
    var toEnd := adCount - 1 - active;
    AdvanceTimesSteps(active, adCount, toEnd);
    assert AdvanceTimes(active, adCount, toEnd + 1) == 0;
    AdvanceTimesSteps(0, adCount, active);
    AdvanceTimesCompose(active, adCount, toEnd + 1, active);
    assert toEnd + 1 + active == adCount;
  }

  /** The indices of the dot buttons: one per ad, and only when there is more than one ad. */
  function Dots(adCount: nat): (r: seq<nat>)
    ensures adCount <= 1 ==> r == []
    ensures adCount > 1 ==> |r| == adCount
    ensures forall i :: 0 <= i < |r| ==> r[i] == i
  {
    if adCount <= 1 then [] else seq(adCount, i requires 0 <= i < adCount => i)
  }

  /** Clicking the `k`-th dot selects that dot's ad. */
  function ClickDot(adCount: nat, k: nat): (active: nat)
    requires k < |Dots(adCount)|
    ensures active == k && active < adCount
  {
    Dots(adCount)[k]
  }
}
