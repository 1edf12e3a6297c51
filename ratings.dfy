/** Rating aggregates over the `reviews` table: the SQL `AVG(rating)` /
    `COUNT(*)` pair and the reference definitions (sum, occurrences) that the
    histogram loops are checked against. Averages stay exact fractions:
    rounding to one decimal is floating point and is not modelled. */
module Ratings {
  import opened Http
  import opened Seqs
  import opened Tables

  /** Sum of a list of ratings. */
  function Sum(rs: seq<int>): int {
    if rs == [] then 0 else Sum(rs[..|rs| - 1]) + rs[|rs| - 1]
  }

  /** How many ratings in the list equal `k`. */
  function Occurrences(rs: seq<int>, k: int): nat {
    if rs == [] then 0 else Occurrences(rs[..|rs| - 1], k) + (if rs[|rs| - 1] == k then 1 else 0)
  }

  predicate AllStars(rs: seq<int>) {
    forall i :: 0 <= i < |rs| ==> 1 <= rs[i] <= 5
  }

  /** The `rating` column of a list of reviews. */
  function RatingsOf(reviews: seq<Review>): (rs: seq<int>)
    ensures |rs| == |reviews|
    ensures forall i :: 0 <= i < |reviews| ==> rs[i] == reviews[i].rating
  {
    seq(|reviews|, i requires 0 <= i < |reviews| => reviews[i].rating)
  }

  /** The reviews of one chef (`where rest_id = chefId`). */
  function ChefReviews(reviews: seq<Review>, chefId: nat): (r: seq<Review>)
    ensures forall x :: x in r <==> x in reviews && x.restId == chefId
    ensures forall x :: multiset(r)[x] == if x.restId == chefId then multiset(reviews)[x] else 0
  {
    Filter(reviews, (x: Review) => x.restId == chefId)
  }

  /** The reviews of one dish (`where dish_id = dishId`). */
  function DishReviews(reviews: seq<Review>, dishId: nat): (r: seq<Review>)
    ensures forall x :: x in r <==> x in reviews && x.dishId == Some(dishId)
  {
    Filter(reviews, (x: Review) => x.dishId == Some(dishId))
  }

  /** Each review of the dish is kept exactly as often as it is in the table,
      so the dish's count and sum are over its reviews, each once. */
  lemma DishReviewsCounted(reviews: seq<Review>, dishId: nat)
    ensures forall x :: multiset(DishReviews(reviews, dishId))[x] == if x.dishId == Some(dishId) then multiset(reviews)[x] else 0
  {
  }

  /** `COUNT(*)` and the sum behind `AVG(rating)` of one group of reviews;
      a chef or dish with no reviews gets the defaults 0 and 0. */
  datatype Summary = Summary(count: nat, sum: int)

  function Summarize(group: seq<Review>): (s: Summary)
    ensures s.count == |group| && s.sum == Sum(RatingsOf(group))
    ensures group == [] ==> s == Summary(0, 0)
    ensures AllStars(RatingsOf(group)) ==> s.count <= s.sum <= 5 * s.count
  {
    if AllStars(RatingsOf(group)) then SumBounds(RatingsOf(group)); Summary(|group|, Sum(RatingsOf(group)))
    else Summary(|group|, Sum(RatingsOf(group)))
  }

  /** An exact average `num / den`. */
  datatype Mean = Mean(num: int, den: nat)

  /** `total > 0 ? sum / total : 0`. */
  function Average(sum: int, total: nat): (m: Mean)
    ensures m.den > 0
    ensures total == 0 ==> m.num == 0
    ensures total > 0 ==> m.num * total == sum * m.den
  {
    if total > 0 then Mean(sum, total) else Mean(0, 1)
  }

  /** Star ratings sum to between one and five times their number. */
  lemma {:induction false} SumBounds(rs: seq<int>)
    requires AllStars(rs)
    ensures |rs| <= Sum(rs) <= 5 * |rs|
  {
    if rs != [] {
      SumBounds(rs[..|rs| - 1]);
    }
  }

  /** The average of star ratings lies between 1 and 5 (0 when there are none). */
  lemma AverageOfStars(rs: seq<int>)
    requires AllStars(rs)
    ensures var m := Average(Sum(rs), |rs|);
      if rs == [] then m.num == 0 else m.den <= m.num <= 5 * m.den
  {
    SumBounds(rs);
  }
}
