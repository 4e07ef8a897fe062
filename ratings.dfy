/**
 * A title's rating as the title list annotates it: the average of the scores
 * of its reviews, null when it has none. The average is kept exact, as a
 * (sum, count) pair over the review table and its quotient as a `real`.
 */
module Ratings {
  import opened Wrappers
  import opened Catalog
  import Serializers

  /** Sum and number of the scores of one title's reviews. */
  datatype Totals = Totals(sum: int, count: nat)

  /** `t` after taking review `rv` into account for title `title`. */
  function Add(t: Totals, rv: Review, title: Id): Totals {
    if rv.title == title then Totals(t.sum + rv.score, t.count + 1) else t
  }

  ghost function Pick(s: set<Id>): Id
    requires s != {}
  {
    var x :| x in s; x
  }

  /** The totals for `title` over the reviews whose keys are in `keys`. */
  ghost function TotalsOver(rs: map<Id, Review>, keys: set<Id>, title: Id): Totals
    requires keys <= rs.Keys
    decreases keys
  {
    if keys == {} then Totals(0, 0)
    else
      var k := Pick(keys);
      Add(TotalsOver(rs, keys - {k}, title), rs[k], title)
  }

  /** The totals for `title` over the whole review table. */
  ghost function ScoreTotals(rs: map<Id, Review>, title: Id): Totals {
    TotalsOver(rs, rs.Keys, title)
  }

  /** `Avg('reviews__score')`: the exact mean of the title's scores, or null without reviews. */
  ghost function Rating(rs: map<Id, Review>, title: Id): Option<real> {
    var t := ScoreTotals(rs, title);
    if t.count == 0 then None else Some(t.sum as real / t.count as real)
  }

  /** The reviews of `title` among `keys`. */
  ghost function ReviewsOf(rs: map<Id, Review>, keys: set<Id>, title: Id): set<Id>
    requires keys <= rs.Keys
  {
    set k | k in keys && rs[k].title == title
  }

  /** The totals do not depend on which review is taken first. */
  lemma {:induction false} TotalsOverRemove(rs: map<Id, Review>, keys: set<Id>, title: Id, k: Id)
    requires keys <= rs.Keys && k in keys
    ensures TotalsOver(rs, keys, title) == Add(TotalsOver(rs, keys - {k}, title), rs[k], title)
    decreases keys
  {
    var p := Pick(keys);
    if p != k {
      TotalsOverRemove(rs, keys - {p}, title, k);
      TotalsOverRemove(rs, keys - {k}, title, p);
      assert keys - {p} - {k} == keys - {k} - {p};
    }
  }

  /** The totals over `keys` only look at the rows under `keys`. */
  lemma {:induction false} TotalsOverFrame(rs: map<Id, Review>, rs2: map<Id, Review>, keys: set<Id>, title: Id)
    requires keys <= rs.Keys && keys <= rs2.Keys
    requires forall k :: k in keys ==> rs[k] == rs2[k]
    ensures TotalsOver(rs, keys, title) == TotalsOver(rs2, keys, title)
    decreases keys
  {
    if keys != {} {
      TotalsOverFrame(rs, rs2, keys - {Pick(keys)}, title);
    }
  }

  /** The count is the number of the title's reviews. */
  lemma {:induction false} TotalsOverCount(rs: map<Id, Review>, keys: set<Id>, title: Id)
    requires keys <= rs.Keys
    ensures TotalsOver(rs, keys, title).count == |ReviewsOf(rs, keys, title)|
    decreases keys
  {
    if keys != {} {
      var p := Pick(keys);
      TotalsOverCount(rs, keys - {p}, title);
      var all := ReviewsOf(rs, keys, title);
      var rest := ReviewsOf(rs, keys - {p}, title);
      if rs[p].title == title {
        assert all == rest + {p};
        assert p !in rest;
      } else {
        assert all == rest;
      }
    }
  }

  /** With every score in bounds, the sum lies between count times each bound. */
  lemma {:induction false} TotalsOverBounds(rs: map<Id, Review>, keys: set<Id>, title: Id)
    requires keys <= rs.Keys && ScoresInRange(rs)
    ensures var t := TotalsOver(rs, keys, title);
      SCORE_MIN * t.count <= t.sum <= SCORE_MAX * t.count
    decreases keys
  {
    if keys != {} {
      TotalsOverBounds(rs, keys - {Pick(keys)}, title);
    }
  }

  /** A title has no rating exactly when no review belongs to it. */
  lemma RatingAbsentIffNoReviews(rs: map<Id, Review>, title: Id)
    ensures Rating(rs, title).None? <==> forall k :: k in rs ==> rs[k].title != title
  {
    TotalsOverCount(rs, rs.Keys, title);
    var of := ReviewsOf(rs, rs.Keys, title);
    if exists k :: k in rs && rs[k].title == title {
      var k :| k in rs && rs[k].title == title;
      assert k in of;
    } else {
      assert of == {};
    }
  }

  /** With every score in bounds, a rating lies between the two bounds. */
  lemma RatingWithinScoreBounds(rs: map<Id, Review>, title: Id)
    requires ScoresInRange(rs)
    ensures Rating(rs, title).Some? ==> SCORE_MIN as real <= Rating(rs, title).value <= SCORE_MAX as real
  {
    TotalsOverBounds(rs, rs.Keys, title);
    var t := ScoreTotals(rs, title);
    if t.count > 0 {
      QuotientBetween(t.sum as real, t.count as real, SCORE_MIN as real, SCORE_MAX as real);
    }
  }

  /** Dividing by a positive number keeps bounds that hold up to that factor. */
  lemma QuotientBetween(s: real, c: real, lo: real, hi: real)
    requires c > 0.0 && lo * c <= s <= hi * c
    ensures lo <= s / c <= hi
  {
  }

  /** Adding a review to the table adds its score to its own title's totals and to no other. */
  lemma TotalsAfterInsert(rs: map<Id, Review>, k: Id, rv: Review, title: Id)
    requires k !in rs
    ensures ScoreTotals(rs[k := rv], title) == Add(ScoreTotals(rs, title), rv, title)
  {
    var after := rs[k := rv];
    TotalsOverRemove(after, after.Keys, title, k);
    assert after.Keys - {k} == rs.Keys;
    TotalsOverFrame(after, rs, rs.Keys, title);
  }

  /** Deleting a review takes its score out of its own title's totals and out of no other. */
  lemma TotalsAfterDelete(rs: map<Id, Review>, k: Id, title: Id)
    requires k in rs
    ensures ScoreTotals(rs, title) == Add(ScoreTotals(rs - {k}, title), rs[k], title)
  {
    TotalsOverRemove(rs, rs.Keys, title, k);
    assert rs.Keys - {k} == (rs - {k}).Keys;
    TotalsOverFrame(rs, rs - {k}, (rs - {k}).Keys, title);
  }

  /** Three reviews scored 8, 6 and 10 rate their title 8, shown as 8. */
  lemma RatingExample()
    ensures var rs := map[1 := Review(0, 10, "a", 8), 2 := Review(0, 11, "b", 6), 3 := Review(0, 12, "c", 10)];
      Rating(rs, 0) == Some(8.0) && Serializers.RatingField(Rating(rs, 0)) == Some(8)
  {
    var r1 := Review(0, 10, "a", 8);
    var r2 := Review(0, 11, "b", 6);
    var r3 := Review(0, 12, "c", 10);
    var empty: map<Id, Review> := map[];
    assert ScoreTotals(empty, 0) == Totals(0, 0);
    TotalsAfterInsert(empty, 1, r1, 0);
    TotalsAfterInsert(empty[1 := r1], 2, r2, 0);
    TotalsAfterInsert(empty[1 := r1][2 := r2], 3, r3, 0);
    assert empty[1 := r1][2 := r2][3 := r3] == map[1 := r1, 2 := r2, 3 := r3];
  }

  /** Scores 8 and 7 average 7.5, which the integer rating field shows as 7. */
  lemma RatingTruncationExample()
    ensures var rs := map[1 := Review(0, 10, "a", 8), 2 := Review(0, 11, "b", 7)];
      Rating(rs, 0) == Some(7.5) && Serializers.RatingField(Rating(rs, 0)) == Some(7)
  {
    var r1 := Review(0, 10, "a", 8);
    var r2 := Review(0, 11, "b", 7);
    var empty: map<Id, Review> := map[];
    assert ScoreTotals(empty, 0) == Totals(0, 0);
    TotalsAfterInsert(empty, 1, r1, 0);
    TotalsAfterInsert(empty[1 := r1], 2, r2, 0);
    assert empty[1 := r1][2 := r2] == map[1 := r1, 2 := r2];
  }

  /** The rating the read serializer shows for a rated title is an integer within the score bounds. */
  lemma ShownRatingWithinScoreBounds(rs: map<Id, Review>, title: Id)
    requires ScoresInRange(rs)
    ensures var shown := Serializers.RatingField(Rating(rs, title));
      shown.Some? ==> SCORE_MIN <= shown.value <= SCORE_MAX
  {
    RatingWithinScoreBounds(rs, title);
  }
}
