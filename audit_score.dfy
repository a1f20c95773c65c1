/** `AuditScore` (`frontend/components/analyze/AuditScore.tsx`): the score
    card. It shows the score, the label's badge, the rating it is given
    (coloured by the score) and the confidence as a whole percentage. */
module AuditScoreView {
  import opened Numbers
  import opened BiasTypes
  import Enrichment
  import BadgeView

  datatype Tone = Success | Warning | Danger

  /** The rating's colour: success from 7, warning from 4, danger below. */
  function ToneFor(score: int): (t: Tone)
    ensures t == Success <==> score >= 7
    ensures t == Warning <==> 4 <= score < 7
    ensures t == Danger <==> score < 4
  {
    if score >= 7 then Success else if score >= 4 then Warning else Danger
  }

  /** `Math.round(confidence * 100)`. */
  function Certainty(confidence: real): (p: int)
    ensures confidence - 0.005 < p as real / 100.0 <= confidence + 0.005
  {
    Round(confidence * 100.0)
  }

  datatype Card = Card(
    score: int,
    badgeStyle: string,
    badgeName: string,
    rating: string,
    tone: Tone,
    certainty: int)

  /** The card for its four props; the rating is shown as passed, never
      recomputed from the score. */
  function Render(score: int, rating: string, confidence: real, l: BiasLabel): (c: Card)
    ensures c.score == score && c.rating == rating
    ensures c.tone == ToneFor(score) && c.certainty == Certainty(confidence)
    ensures c.badgeStyle == BadgeView.Style(l) && c.badgeName == BadgeView.Name(l)
  {
    Card(score, BadgeView.Style(l), BadgeView.Name(l), rating, ToneFor(score), Certainty(confidence))
  }

  /** For an enriched score the colour agrees with the rating at the top
      ("Good" and "Excellent" are green) but splits "Needs Improvement": a 4
      is amber while a 3 is red. */
  lemma ToneAgainstRating(score: int)
    ensures ToneFor(score) == Success <==> Enrichment.RatingRank(Enrichment.ComplianceRating(score)) >= 3
    ensures Enrichment.ComplianceRating(3) == Enrichment.ComplianceRating(4)
    ensures ToneFor(3) != ToneFor(4)
  {
  }

  /** A confidence in [0, 1] is shown as a percentage in 0..100. */
  lemma CertaintyInRange(confidence: real)
    requires 0.0 <= confidence <= 1.0
    ensures 0 <= Certainty(confidence) <= 100
  {
    RoundWithin(confidence * 100.0, 0, 100);
  }
}
