/**
  The derived values of the assessment: the answer lookup, the two category
  sums, the completion predicate and the plotted result (src/App.jsx:101-136).
 */
module Scoring {
  import opened Catalogue

  datatype Option<T> = None | Some(value: T)

  /** The three screens of the assessment flow. */
  datatype Step = Landing | Assessment | Result

  /** The plotted point: x is friction to adopt, y is price sensitivity. */
  datatype Point = Point(x: int, y: int)

  /** Every answered id is a catalogue question and every answer is on the rating scale. */
  predicate ScoresValid(scores: map<string, int>)
    ensures ScoresValid(scores) ==> forall id :: id in scores ==> -2 <= scores[id] <= 2
  {
    forall id :: id in scores ==> IsQuestionId(id) && IsRating(scores[id])
  }

  /**
    The rating counted for `id`; an unanswered question counts as 0, so on
    valid scores the counted value is always on the rating scale.
   */
  function Lookup(scores: map<string, int>, id: string): (v: int)
    ensures ScoresValid(scores) ==> IsRating(v)
  {
    if id in scores then scores[id] else 0
  }

  /**
    The sum of the ratings of `qs`, accumulated from the first question to
    the last as a left fold does. On valid scores it lies within twice the
    number of questions on either side of zero.
   */
  function SumCategory(scores: map<string, int>, qs: seq<Question>): (total: int)
    ensures ScoresValid(scores) ==> -2 * |qs| <= total <= 2 * |qs|
  {
    if qs == [] then 0
    else
      SumCategory(scores, qs[..|qs| - 1]) + Lookup(scores, qs[|qs| - 1].id)
  }

  /** The sum only looks at the ids of the questions it adds up. */
  lemma {:induction false} SumCategoryFrame(a: map<string, int>, b: map<string, int>, qs: seq<Question>)
    requires forall i :: 0 <= i < |qs| ==> Lookup(a, qs[i].id) == Lookup(b, qs[i].id)
    ensures SumCategory(a, qs) == SumCategory(b, qs)
  {
    if qs != [] {
      SumCategoryFrame(a, b, qs[..|qs| - 1]);
    }
  }

  /** When every question of `qs` counts the same rating `c`, the sum is `c` times their number. */
  lemma {:induction false} SumCategoryConstant(scores: map<string, int>, qs: seq<Question>, c: int)
    requires forall i :: 0 <= i < |qs| ==> Lookup(scores, qs[i].id) == c
    ensures SumCategory(scores, qs) == c * |qs|
  {
    if qs != [] {
      SumCategoryConstant(scores, qs[..|qs| - 1], c);
      assert c * |qs| == c * (|qs| - 1) + c;
    }
  }

  /**
    Answering one question changes the sum of a category whose ids are
    distinct by the difference between the new and the previous rating when
    the question belongs to the category, and leaves it unchanged otherwise.
   */
  lemma {:induction false} SumCategoryUpsert(scores: map<string, int>, qs: seq<Question>, id: string, v: int)
    requires DistinctIds(qs)
    ensures SumCategory(scores[id := v], qs)
         == SumCategory(scores, qs) + (if id in IdsOf(qs) then v - Lookup(scores, id) else 0)
  {
    if qs != [] {
      var init := qs[..|qs| - 1];
      var last := qs[|qs| - 1];
      assert DistinctIds(init);
      SumCategoryUpsert(scores, init, id, v);
      assert IdsOf(qs) == IdsOf(init) + {last.id} by {
        assert qs == init + [last];
      }
      if id == last.id {
        assert id !in IdsOf(init) by {
          forall q | q in init ensures q.id != id {
            var k :| 0 <= k < |init| && init[k] == q;
            assert qs[k] == q;
          }
        }
      }
    }
  }

  /**
    The assessment is complete when the number of answered ids equals the
    number of questions of the two categories together.
   */
  predicate IsComplete(scores: map<string, int>)
    ensures IsComplete(scores) <==> |scores| == 10
  {
    |scores| == |Questions(PriceSensitivity)| + |Questions(FrictionToAdopt)|
  }

  /** A subset of a finite set with the same size is the whole set. */
  lemma SubsetSameSize(a: set<string>, b: set<string>)
    requires a <= b && |a| == |b|
    ensures a == b
  {
    assert b == a + (b - a);
    assert |b - a| == 0;
  }

  /**
    As long as only catalogue ids are answered, the count test is the same
    as every one of the ten questions having an answer.
   */
  lemma CompleteIffAllAnswered(scores: map<string, int>)
    requires forall id :: id in scores ==> IsQuestionId(id)
    ensures IsComplete(scores) <==> forall id :: IsQuestionId(id) ==> id in scores
  {
    var all := IdsOf(AllQuestions());
    IdCount();
    assert scores.Keys <= all;
    assert |scores.Keys| == |scores|;
    if IsComplete(scores) {
      SubsetSameSize(scores.Keys, all);
    }
    assert (forall id :: IsQuestionId(id) ==> id in scores) ==> scores.Keys == all;
  }

  /** The progress counter never exceeds the number of questions. */
  lemma AnsweredAtMostTotal(scores: map<string, int>)
    requires forall id :: id in scores ==> IsQuestionId(id)
    ensures |scores| <= 10
  {
    var all := IdsOf(AllQuestions());
    IdCount();
    assert all == scores.Keys + (all - scores.Keys);
    assert |scores.Keys| == |scores|;
  }

  /**
    The plotted result: absent unless the result screen is showing; on it,
    x is the friction sum and y the price-sensitivity sum, each within the
    chart's axis domain -10..10 when the scores are valid.
   */
  function Results(step: Step, scores: map<string, int>): (r: Option<Point>)
    ensures r.None? <==> step != Result
    ensures r.Some? ==> r.value.x == SumCategory(scores, Questions(FrictionToAdopt))
    ensures r.Some? ==> r.value.y == SumCategory(scores, Questions(PriceSensitivity))
    ensures r.Some? && ScoresValid(scores) ==> -10 <= r.value.x <= 10 && -10 <= r.value.y <= 10
  {
    if step != Result then None
    else
      var scoreA := SumCategory(scores, PriceQuestions);
      var scoreB := SumCategory(scores, FrictionQuestions);
      Some(Point(scoreB, scoreA))
  }

  /** A sequence of rating clicks applied to `scores` one after another, first click first. */
  function ApplyRatings(scores: map<string, int>, clicks: seq<(string, int)>): map<string, int>
    decreases clicks
  {
    if clicks == [] then scores
    else ApplyRatings(scores[clicks[0].0 := clicks[0].1], clicks[1..])
  }

  /** For each question clicked in `clicks`, the value of the last click on it. */
  function LastClicks(clicks: seq<(string, int)>): map<string, int>
  {
    if clicks == [] then map[]
    else
      var later := LastClicks(clicks[1..]);
      if clicks[0].0 in later then later else later[clicks[0].0 := clicks[0].1]
  }

  /**
    Applying a sequence of clicks gives the starting scores overwritten by
    the last click on each question: earlier clicks on a question are lost.
   */
  lemma {:induction false} ApplyRatingsLastWins(scores: map<string, int>, clicks: seq<(string, int)>)
    ensures ApplyRatings(scores, clicks) == scores + LastClicks(clicks)
    decreases clicks
  {
    if clicks != [] {
      var (id, v) := clicks[0];
      var later := LastClicks(clicks[1..]);
      ApplyRatingsLastWins(scores[id := v], clicks[1..]);
      if id in later {
        assert scores[id := v] + later == scores + later;
      } else {
        assert scores[id := v] + later == scores + later[id := v];
      }
    }
  }

  /**
    The plotted point depends only on the last rating given to each question,
    not on the order or number of the clicks that led there.
   */
  lemma ResultsDependOnLastClicks(scores: map<string, int>, clicks1: seq<(string, int)>, clicks2: seq<(string, int)>)
    requires LastClicks(clicks1) == LastClicks(clicks2)
    ensures Results(Result, ApplyRatings(scores, clicks1)) == Results(Result, ApplyRatings(scores, clicks2))
  {
    ApplyRatingsLastWins(scores, clicks1);
    ApplyRatingsLastWins(scores, clicks2);
  }

  /**
    Rating a catalogue question moves the plotted point along one axis only:
    a price-sensitivity question moves y, a friction question moves x, each
    by the difference between the new and the previous rating.
   */
  lemma RatingMovesOneAxis(scores: map<string, int>, id: string, v: int)
    requires IsQuestionId(id)
    ensures var before, after := Results(Result, scores).value, Results(Result, scores[id := v]).value;
      if id in IdsOf(PriceQuestions)
      then after == Point(before.x, before.y + v - Lookup(scores, id))
      else after == Point(before.x + v - Lookup(scores, id), before.y)
  {
    CatalogueShape();
    CategoriesPartition();
    SumCategoryUpsert(scores, PriceQuestions, id, v);
    SumCategoryUpsert(scores, FrictionQuestions, id, v);
  }

  /** Every question answered "+": the point is (5, 5). */
  lemma AllPlusOneScenario()
    ensures Results(Result, map id | id in IdsOf(AllQuestions()) :: 1) == Some(Point(5, 5))
  {
    var m := map id | id in IdsOf(AllQuestions()) :: 1;
    SumCategoryConstant(m, PriceQuestions, 1);
    SumCategoryConstant(m, FrictionQuestions, 1);
  }

  /** Nothing answered: every question counts 0, so the point is the origin. */
  lemma NoAnswersScenario()
    ensures Results(Result, map[]) == Some(Point(0, 0))
  {
    SumCategoryConstant(map[], PriceQuestions, 0);
    SumCategoryConstant(map[], FrictionQuestions, 0);
  }
}
