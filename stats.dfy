/**
 * The statistics a tour view carries, computed from the tour's logs at read
 * time: the mean rating and a popularity tier that depends on the log count
 * alone.
 */
module Stats {
  import opened Entities

  /** The sum of the ratings, first to last. */
  function SumRatings(ls: seq<TourLog>): (r: int)
    decreases |ls|
  {
    if ls == [] then 0 else SumRatings(ls[..|ls| - 1]) + ls[|ls| - 1].rating
  }

  /** The arithmetic mean of the ratings, and 0 for no logs. */
  function AverageRating(ls: seq<TourLog>): (r: real)
    ensures ls == [] ==> r == 0.0
    ensures ls != [] ==> r * |ls| as real == SumRatings(ls) as real
  {
    if |ls| == 0 then 0.0 else SumRatings(ls) as real / |ls| as real
  }

  /**
   * The popularity tier of a tour with `logCount` logs. The lowest tier is the
   * string "udefined", spelled as the service spells it.
   */
  function Popularity(logCount: nat): string {
    if logCount >= 10 then "popular"
    else if logCount >= 5 then "medium"
    else if logCount >= 2 then "low"
    else "udefined"
  }

  /** The tiers in ascending order; any other text ranks highest. */
  function TierRank(tier: string): nat {
    if tier == "udefined" then 0
    else if tier == "low" then 1
    else if tier == "medium" then 2
    else 3
  }

  /** Each tier covers exactly one range of log counts. */
  lemma PopularityTiers(n: nat)
    ensures Popularity(n) == "udefined" <==> n <= 1
    ensures Popularity(n) == "low" <==> 2 <= n < 5
    ensures Popularity(n) == "medium" <==> 5 <= n < 10
    ensures Popularity(n) == "popular" <==> 10 <= n
  {
  }

  /** More logs never give a lower tier. */
  lemma PopularityMonotone(n: nat, m: nat)
    requires n <= m
    ensures TierRank(Popularity(n)) <= TierRank(Popularity(m))
  {
  }

  /** Taking one more log of a list into the running sum adds its rating. */
  lemma SumRatingsPrefix(ls: seq<TourLog>, i: int)
    requires 0 <= i < |ls|
    ensures SumRatings(ls[..i + 1]) == SumRatings(ls[..i]) + ls[i].rating
  {
    assert ls[..i + 1][..i] == ls[..i];
  }

  /** Concatenating log lists adds their rating sums. */
  lemma {:induction false} SumRatingsAppend(a: seq<TourLog>, b: seq<TourLog>)
    ensures SumRatings(a + b) == SumRatings(a) + SumRatings(b)
    decreases |b|
  {
    if b != [] {
      var init := b[..|b| - 1];
      assert (a + b)[..|a + b| - 1] == a + init;
      SumRatingsAppend(a, init);
    } else {
      assert a + b == a;
    }
  }

  /** Ratings between `lo` and `hi` sum to between `|ls| * lo` and `|ls| * hi`. */
  lemma {:induction false} SumRatingsBounds(ls: seq<TourLog>, lo: int, hi: int)
    requires forall i :: 0 <= i < |ls| ==> lo <= ls[i].rating <= hi
    ensures |ls| * lo <= SumRatings(ls) <= |ls| * hi
    decreases |ls|
  {
    if ls != [] {
      var init := ls[..|ls| - 1];
      SumRatingsBounds(init, lo, hi);
      MultiplySucc(|init|, lo);
      MultiplySucc(|init|, hi);
    }
  }

  lemma MultiplySucc(n: int, x: int)
    ensures (n + 1) * x == n * x + x
  {
  }

  /** The mean of ratings between `lo` and `hi` lies between them too. */
  lemma AverageWithinRatings(ls: seq<TourLog>, lo: int, hi: int)
    requires ls != []
    requires forall i :: 0 <= i < |ls| ==> lo <= ls[i].rating <= hi
    ensures lo as real <= AverageRating(ls) <= hi as real
  {
    SumRatingsBounds(ls, lo, hi);
    MeanBounds(SumRatings(ls), |ls|, lo, hi);
  }

  /** A sum between `n * lo` and `n * hi` has its mean between `lo` and `hi`. */
  lemma MeanBounds(sum: int, n: int, lo: int, hi: int)
    requires n > 0 && n * lo <= sum <= n * hi
    ensures lo as real <= sum as real / n as real <= hi as real
  {
    CastProduct(n, lo);
    CastProduct(n, hi);
    QuotientBounds(sum as real, n as real, lo as real, hi as real);
  }

  lemma CastProduct(a: int, b: int)
    ensures (a * b) as real == a as real * b as real
  {
  }

  lemma QuotientBounds(sum: real, n: real, lo: real, hi: real)
    requires n > 0.0 && n * lo <= sum <= n * hi
    ensures lo <= sum / n <= hi
  {
  }

  /** A tour with five logs rated 3, 4, 5, 2 and 5: mean 3.8, tier "medium". */
  lemma ExampleTourStats(ls: seq<TourLog>)
    requires |ls| == 5
    requires ls[0].rating == 3 && ls[1].rating == 4 && ls[2].rating == 5
    requires ls[3].rating == 2 && ls[4].rating == 5
    ensures AverageRating(ls) == 3.8
    ensures Popularity(|ls|) == "medium"
  {
    assert ls[..1][..0] == [];
    assert SumRatings(ls[..1]) == 3;
    assert ls[..2][..1] == ls[..1];
    assert SumRatings(ls[..2]) == 7;
    assert ls[..3][..2] == ls[..2];
    assert SumRatings(ls[..3]) == 12;
    assert ls[..4][..3] == ls[..3];
    assert SumRatings(ls[..4]) == 14;
    assert ls[..4] == ls[..|ls| - 1];
    assert SumRatings(ls) == 19;
  }
}
