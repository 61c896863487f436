/**
  The fixed question catalogue and the five-point rating scale of the
  assessment (src/App.jsx:20-43).
 */
module Catalogue {

  /** One question of the catalogue: its id and the prompt shown next to it. */
  datatype Question = Question(id: string, text: string)

  /** The two scoring categories; price sensitivity is the y axis, friction the x axis. */
  datatype Category = PriceSensitivity | FrictionToAdopt

  const PriceQuestions: seq<Question> := [
    Question("p1", "Initial Investment Cost"),
    Question("p2", "Ongoing Operating Cost"),
    Question("p3", "Perception of ROI"),
    Question("p4", "Competitive Pricing Pressure"),
    Question("p5", "Budget Availability")
  ]

  const FrictionQuestions: seq<Question> := [
    Question("f1", "Integration Complexity"),
    Question("f2", "Training & Skill Requirements"),
    Question("f3", "Resistance from Legacy Systems"),
    Question("f4", "Technical Prerequisite Load"),
    Question("f5", "Process Change Management")
  ]

  /** The questions of one category, in catalogue order. */
  function Questions(c: Category): seq<Question>
  {
    match c
    case PriceSensitivity => PriceQuestions
    case FrictionToAdopt => FrictionQuestions
  }

  /** Every question, price sensitivity first, as the catalogue lists them. */
  function AllQuestions(): seq<Question>
  {
    PriceQuestions + FrictionQuestions
  }

  /** The set of ids of a list of questions. */
  function IdsOf(qs: seq<Question>): set<string>
  {
    set q | q in qs :: q.id
  }

  /** True when no id occurs twice in `qs`. */
  predicate DistinctIds(qs: seq<Question>)
  {
    forall i, j :: 0 <= i < j < |qs| ==> qs[i].id != qs[j].id
  }

  /** True when `id` names a question of the catalogue. */
  predicate IsQuestionId(id: string)
  {
    id in IdsOf(AllQuestions())
  }

  /** The values of the rating buttons, from "--" to "++". */
  const RatingValues: seq<int> := [-2, -1, 0, 1, 2]

  /** True when `v` is the value of one of the rating buttons. */
  predicate IsRating(v: int)
  {
    v in RatingValues
  }

  /** The rating scale is exactly the integers from -2 to 2. */
  lemma RatingRange(v: int)
    ensures IsRating(v) <==> -2 <= v <= 2
  {
  }

  /** The catalogue has five questions per category, ten in all, and every id is unique. */
  lemma CatalogueShape()
    ensures |Questions(PriceSensitivity)| == 5 && |Questions(FrictionToAdopt)| == 5
    ensures |AllQuestions()| == 10
    ensures DistinctIds(Questions(PriceSensitivity)) && DistinctIds(Questions(FrictionToAdopt))
    ensures DistinctIds(AllQuestions())
  {
    var qs := AllQuestions();
    forall i, j | 0 <= i < j < |qs| ensures qs[i].id != qs[j].id {
      assert qs[i].id[0] != qs[j].id[0] || qs[i].id[1] != qs[j].id[1];
    }
  }

  /** The two categories share no id, and together they hold every catalogue id. */
  lemma CategoriesPartition()
    ensures IdsOf(Questions(PriceSensitivity)) !! IdsOf(Questions(FrictionToAdopt))
    ensures IdsOf(AllQuestions()) == IdsOf(Questions(PriceSensitivity)) + IdsOf(Questions(FrictionToAdopt))
  {
  }

  /** A list of questions with distinct ids has as many ids as questions. */
  lemma {:induction false} DistinctCard(qs: seq<Question>)
    requires DistinctIds(qs)
    ensures |IdsOf(qs)| == |qs|
  {
    if qs != [] {
      var rest := qs[1..];
      assert DistinctIds(rest) by {
        forall i, j | 0 <= i < j < |rest| ensures rest[i].id != rest[j].id {
          assert rest[i] == qs[i + 1] && rest[j] == qs[j + 1];
        }
      }
      DistinctCard(rest);
      assert qs[0].id !in IdsOf(rest) by {
        forall q | q in rest ensures q.id != qs[0].id {
          var k :| 0 <= k < |rest| && rest[k] == q;
          assert rest[k] == qs[k + 1];
        }
      }
      assert IdsOf(qs) == {qs[0].id} + IdsOf(rest) by {
        assert qs == [qs[0]] + rest;
      }
    }
  }

  /** There are exactly ten distinct question ids. */
  lemma IdCount()
    ensures |IdsOf(AllQuestions())| == 10
  {
    CatalogueShape();
    DistinctCard(AllQuestions());
  }
}
