/**
  The state of the assessment screen and its event handlers
  (src/App.jsx:99-118, 217-219): the current step, the industry name typed on
  the landing screen and the map from question id to rating.
 */
module App {
  import opened Catalogue
  import opened Scoring
  import opened Names

  class Assessment {
    var step: Step
    var industryName: string
    var scores: map<string, int>

    /**
      Only catalogue questions are rated, every rating is a button value, and
      the result screen is reached only with every question answered. So
      at most ten questions are ever rated, and on the result screen every
      question of the catalogue is.
     */
    ghost predicate Valid()
      reads this
      ensures Valid() ==> |scores| <= 10
      ensures Valid() && step == Result ==> forall id :: IsQuestionId(id) ==> id in scores
    {
      if ScoresValid(scores) then
        AnsweredAtMostTotal(scores);
        CompleteIffAllAnswered(scores);
        step == Result ==> IsComplete(scores)
      else
        false
    }

    /** A fresh assessment: landing screen, empty name, no ratings. */
    constructor ()
      ensures Valid()
      ensures step == Landing && industryName == "" && scores == map[]
    {
      step := Landing;
      industryName := "";
      scores := map[];
    }

    /** Typing in the name field replaces the name and nothing else. */
    method SetIndustryName(name: string)
      requires Valid()
      modifies this`industryName
      ensures Valid()
      ensures industryName == name
    {
      industryName := name;
    }

    /**
      A rating button: stores `value` under `id`, overwriting any earlier
      rating of that question, and leaves every other rating alone.
     */
    method SetRating(id: string, value: int)
      requires Valid()
      requires IsQuestionId(id) && IsRating(value)
      modifies this`scores
      ensures Valid()
      ensures scores == old(scores)[id := value]
      ensures forall other :: other != id ==> Lookup(scores, other) == Lookup(old(scores), other)
    {
      if step == Result {
        CompleteIffAllAnswered(scores);
        assert scores[id := value].Keys == scores.Keys;
      }
      scores := scores[id := value];
    }

    /** The start button: moves to the questions only when the trimmed name is not empty. */
    method Start() returns (started: bool)
      requires Valid()
      modifies this`step
      ensures Valid()
      ensures started <==> HasContent(industryName)
      ensures step == if started then Assessment else old(step)
    {
      TrimNonEmptyIff(industryName);
      started := Trim(industryName) != [];
      if started {
        step := Assessment;
      }
    }

    /** The analyze button: shows the result only once every question is answered. */
    method Analyze() returns (analyzed: bool)
      requires Valid()
      modifies this`step
      ensures Valid()
      ensures analyzed <==> IsComplete(scores)
      ensures analyzed <==> forall id :: IsQuestionId(id) ==> id in scores
      ensures step == if analyzed then Result else old(step)
    {
      CompleteIffAllAnswered(scores);
      analyzed := IsComplete(scores);
      if analyzed {
        step := Result;
      }
    }

    /** The reset button: from any step, back to an empty landing screen. */
    method Reset()
      modifies this
      ensures Valid()
      ensures step == Landing && industryName == "" && scores == map[]
    {
      scores := map[];
      industryName := "";
      step := Landing;
    }
  }
}
