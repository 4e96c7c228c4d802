/** Tier classification of a monthly recoin total.

    The job classifies with a Ruby `case` over two half-open integer ranges,
    tried in order, and an `else` branch that catches everything else. The
    model keeps that shape: a table of (range, tier) rows searched in order,
    with a default. Because the `else` branch is a catch-all, totals below
    zero land in Gold, not in Bronze. */
module Tiers {

  datatype Tier = Bronze | Silver | Gold {
    /** The string the job writes into the user's `tier` field. */
    function Label(): (s: string)
      ensures s == "Bronze" || s == "Silver" || s == "Gold"
    {
      match this
      case Bronze => "Bronze"
      case Silver => "Silver"
      case Gold => "Gold"
    }

    /** Position of the tier in the threshold order. */
    function Rank(): (n: nat)
      ensures n < 3
    {
      match this
      case Bronze => 0
      case Silver => 1
      case Gold => 2
    }
  }

  /** A Ruby exclusive range `lo...hi`. */
  datatype HalfOpen = HalfOpen(lo: int, hi: int) {
    /** `Range#===` on an integer: membership in [lo, hi). */
    predicate Covers(n: int) {
      lo <= n < hi
    }
  }

  /** The `when` clauses of `calculate_tier`, in source order. */
  const WhenClauses: seq<(HalfOpen, Tier)> :=
    [(HalfOpen(0, 50), Bronze), (HalfOpen(50, 100), Silver)]

  /** A `case` expression: the tier of the first clause whose range covers
      `n`, or `otherwise` when none does. */
  function CaseOf(clauses: seq<(HalfOpen, Tier)>, n: int, otherwise: Tier): (t: Tier)
    ensures t == otherwise || exists i :: 0 <= i < |clauses| && clauses[i].1 == t && clauses[i].0.Covers(n)
    ensures (forall i :: 0 <= i < |clauses| ==> !clauses[i].0.Covers(n)) ==> t == otherwise
  {
    if clauses == [] then otherwise
    else if clauses[0].0.Covers(n) then clauses[0].1
    else CaseOf(clauses[1..], n, otherwise)
  }

  /** Ruby's `case` takes the FIRST `when` whose range covers the value:
      when clause `i` covers `n` and no earlier clause does, the result is
      clause `i`'s tier, whatever later clauses or the `else` say. */
  lemma {:induction false} CaseOfFirstMatch(clauses: seq<(HalfOpen, Tier)>, n: int, otherwise: Tier, i: nat)
    requires i < |clauses| && clauses[i].0.Covers(n)
    requires forall j :: 0 <= j < i ==> !clauses[j].0.Covers(n)
    ensures CaseOf(clauses, n, otherwise) == clauses[i].1
  {
    if i > 0 {
      assert !clauses[0].0.Covers(n);
      forall j | 0 <= j < i - 1
        ensures !clauses[1..][j].0.Covers(n)
      {
        assert clauses[1..][j] == clauses[j + 1];
      }
      CaseOfFirstMatch(clauses[1..], n, otherwise, i - 1);
    }
  }

  /** `calculate_tier`: the tier of a monthly total. Each tier is
      characterised by exactly the totals that reach it. */
  function CalculateTier(total: int): (tier: Tier)
    ensures tier == Bronze <==> 0 <= total < 50
    ensures tier == Silver <==> 50 <= total < 100
    ensures tier == Gold <==> total < 0 || 100 <= total
  {
    assert CaseOf(WhenClauses[1..][1..], total, Gold) == Gold;
    assert CaseOf(WhenClauses[1..], total, Gold) == if 50 <= total < 100 then Silver else Gold;
    CaseOf(WhenClauses, total, Gold)
  }

  /** The thresholds sit where the source puts them: 50 already counts as
      Silver and 100 already counts as Gold; a negative total is Gold. */
  lemma Boundaries()
    ensures CalculateTier(0) == Bronze && CalculateTier(49) == Bronze
    ensures CalculateTier(50) == Silver && CalculateTier(99) == Silver
    ensures CalculateTier(100) == Gold && CalculateTier(-1) == Gold
  {
  }

  /** On non-negative totals the tier never goes down as the total grows. */
  lemma MonotoneOnNonNegative(a: int, b: int)
    requires 0 <= a <= b
    ensures CalculateTier(a).Rank() <= CalculateTier(b).Rank()
  {
  }

  /** Over all integers it is not monotone: one recoin less than zero jumps
      from Bronze to Gold. */
  lemma NotMonotoneBelowZero()
    ensures CalculateTier(-1).Rank() > CalculateTier(0).Rank()
  {
  }

  /** The three labels written to the store are pairwise different, so the
      stored label determines the tier. */
  lemma LabelInjective(a: Tier, b: Tier)
    requires a.Label() == b.Label()
    ensures a == b
  {
  }
}
