/**
  The four-way reading of the plotted point shown on the result screen
  (src/App.jsx:238-254). Zero counts as the high side of either axis.
 */
module Quadrant {
  import opened Scoring

  datatype Quadrant =
    | HighFrictionHighSensitivity
    | LowFrictionHighSensitivity
    | HighFrictionLowSensitivity
    | LowFrictionLowSensitivity
  {
    /** The quadrant lies on the high-friction side of the chart. */
    predicate HighFriction() {
      HighFrictionHighSensitivity? || HighFrictionLowSensitivity?
    }

    /** The quadrant lies on the high-price-sensitivity side of the chart. */
    predicate HighSensitivity() {
      HighFrictionHighSensitivity? || LowFrictionHighSensitivity?
    }
  }

  /**
    The quadrant of a point, decided by the same chain of tests as the result
    screen: every point gets exactly one quadrant, chosen by the signs of x
    and y alone.
   */
  function Classify(p: Point): (q: Quadrant)
    ensures q == HighFrictionHighSensitivity <==> p.x >= 0 && p.y >= 0
    ensures q == LowFrictionHighSensitivity <==> p.x < 0 && p.y >= 0
    ensures q == HighFrictionLowSensitivity <==> p.x >= 0 && p.y < 0
    ensures q == LowFrictionLowSensitivity <==> p.x < 0 && p.y < 0
    ensures q.HighFriction() <==> p.x >= 0
    ensures q.HighSensitivity() <==> p.y >= 0
  {
    if p.x >= 0 && p.y >= 0 then HighFrictionHighSensitivity
    else if p.x < 0 && p.y >= 0 then LowFrictionHighSensitivity
    else if p.x >= 0 && p.y < 0 then HighFrictionLowSensitivity
    else LowFrictionLowSensitivity
  }

  /** The heading of the insight card: the friction level, then the price-sensitivity level. */
  function Title(q: Quadrant): (t: string)
    ensures |t| > 16
    ensures t[0] == 'H' <==> q.HighFriction()
    ensures t[|t| - 16] == 'H' <==> q.HighSensitivity()
  {
    match q
    case HighFrictionHighSensitivity => "High Friction / High Sensitivity"
    case LowFrictionHighSensitivity => "Low Friction / High Sensitivity"
    case HighFrictionLowSensitivity => "High Friction / Low Sensitivity"
    case LowFrictionLowSensitivity => "Low Friction / Low Sensitivity"
  }

  /** The explanation under the heading of the insight card. */
  function Description(q: Quadrant): string
  {
    match q
    case HighFrictionHighSensitivity => "Difficult Market. High barriers to entry and price conscious buyers."
    case LowFrictionHighSensitivity => "Commodity Market. Easy to adopt, but buyers are very price driven."
    case HighFrictionLowSensitivity => "Enterprise/Niche. Hard to implement, but budgets are open."
    case LowFrictionLowSensitivity => "Sweet Spot. Easy adoption and buyers aren't price sensitive."
  }

  /** The four headings are pairwise different, so the card names exactly one quadrant. */
  lemma TitlesDistinct(q1: Quadrant, q2: Quadrant)
    ensures Title(q1) == Title(q2) <==> q1 == q2
  {
  }

  /** The four explanations are pairwise different as well. */
  lemma DescriptionsDistinct(q1: Quadrant, q2: Quadrant)
    ensures Description(q1) == Description(q2) <==> q1 == q2
  {
    if q1 != q2 {
      DescriptionLength(q1);
      DescriptionLength(q2);
    }
  }

  /** The descriptions have four different lengths, which tells them apart. */
  lemma DescriptionLength(q: Quadrant)
    ensures |Description(q)| == match q
      case HighFrictionHighSensitivity => 68
      case LowFrictionHighSensitivity => 66
      case HighFrictionLowSensitivity => 58
      case LowFrictionLowSensitivity => 60
  {
  }

  /** Points with the same sign pattern get the same quadrant; the origin reads as a difficult market. */
  lemma ClassifyBySigns(p1: Point, p2: Point)
    requires (p1.x >= 0 <==> p2.x >= 0) && (p1.y >= 0 <==> p2.y >= 0)
    ensures Classify(p1) == Classify(p2)
    ensures Title(Classify(Point(0, 0))) == "High Friction / High Sensitivity"
  {
  }
}
