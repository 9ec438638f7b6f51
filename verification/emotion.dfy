/**
 The emotion classifier: a first-match-wins cascade of threshold comparisons
 over the four polarity scores a lexicon-based sentiment scorer reports for a
 passage. The scorer itself is external; its output is the input here.
 */
module Emotion {
  import opened Wrappers

  /** The scorer's report for one passage: positive, negative and neutral
      proportions and the normalised compound polarity. Only comparisons are
      ever applied to them, so they are modelled as reals. */
  datatype Scores = Scores(pos: real, neg: real, neu: real, compound: real)

  /** The closed set of labels the classifier can return. */
  datatype Label = Joy | Sadness | Surprise | Anger | Disgust | Fear | Neutral

  /** Compound score at or above which the passage reads as joyful. */
  const JoyThreshold: real := 0.05
  /** Compound score at or below which the passage reads as sad. */
  const SadnessThreshold: real := -0.05
  /** Negative proportion above which a balanced passage reads as disgusted. */
  const DisgustThreshold: real := 0.5
  /** The fear rule wants a positive proportion below this ... */
  const FearPosCeiling: real := 0.1
  /** ... and a negative proportion above this. */
  const FearNegFloor: real := 0.1

  /** The cascade, rule by rule in the order `analyze_emotion` tests them. */
  function Classify(s: Scores): (e: Label)
    ensures e != Fear
  {
    if s.compound >= JoyThreshold then Joy
    else if s.compound <= SadnessThreshold then Sadness
    else if s.pos > s.neg then Surprise
    else if s.neg > s.pos then Anger
    else if s.neg > DisgustThreshold then Disgust
    else if s.pos < FearPosCeiling && s.neg > FearNegFloor then Fear
    else Neutral
  }

  /** The compound score lies strictly between the two polarity thresholds. */
  predicate InDeadZone(s: Scores) {
    SadnessThreshold < s.compound < JoyThreshold
  }

  /**
   An order-free description of the classifier: the region of score space in
   which each label is the answer, with every earlier rule's failure written
   out. Fear's region is its guard under the conditions needed to reach it
   (a dead-zone compound and `pos == neg` with `neg <= 0.5`).
   */
  ghost predicate Region(s: Scores, e: Label) {
    match e
    case Joy => s.compound >= JoyThreshold
    case Sadness => s.compound <= SadnessThreshold
    case Surprise => InDeadZone(s) && s.pos > s.neg
    case Anger => InDeadZone(s) && s.neg > s.pos
    case Disgust => InDeadZone(s) && s.pos == s.neg && s.neg > DisgustThreshold
    case Fear =>
      InDeadZone(s) && s.pos == s.neg && s.neg <= DisgustThreshold
      && s.pos < FearPosCeiling && s.neg > FearNegFloor
    case Neutral =>
      InDeadZone(s) && s.pos == s.neg && s.neg <= DisgustThreshold
      && !(s.pos < FearPosCeiling && s.neg > FearNegFloor)
  }

  /** The cascade returns exactly the label whose region contains the scores. */
  lemma ClassifyMatchesRegion(s: Scores, e: Label)
    ensures Classify(s) == e <==> Region(s, e)
  {
  }

  /** The regions partition score space: every record lies in exactly one. */
  lemma RegionsPartition(s: Scores)
    ensures exists e :: Region(s, e)
    ensures forall e, e' :: Region(s, e) && Region(s, e') ==> e == e'
  {
    ClassifyMatchesRegion(s, Classify(s));
  }

  /** A compound score at or above 0.05 means joy, whatever the proportions;
      otherwise one at or below -0.05 means sadness. */
  lemma CompoundDecides(s: Scores)
    ensures Classify(s) == Joy <==> s.compound >= JoyThreshold
    ensures Classify(s) == Sadness <==> s.compound <= SadnessThreshold
  {
  }

  /** In the dead zone the larger of the two proportions decides. */
  lemma DeadZoneImbalance(s: Scores)
    requires InDeadZone(s)
    ensures s.pos > s.neg ==> Classify(s) == Surprise
    ensures s.neg > s.pos ==> Classify(s) == Anger
    ensures s.pos == s.neg ==> Classify(s) in {Disgust, Neutral}
  {
  }

  /** The fear rule is dead code: reaching it needs `pos == neg`, and then a
      positive proportion below 0.1 and a negative one above 0.1 cannot both hold. */
  lemma FearUnreachable(s: Scores)
    ensures !Region(s, Fear)
    ensures Classify(s) != Fear
  {
  }

  /** Disgust is returned exactly for a dead-zone compound, balanced
      proportions and a negative proportion above 0.5. */
  lemma DisgustExactly(s: Scores)
    ensures Classify(s) == Disgust <==> InDeadZone(s) && s.pos == s.neg && s.neg > DisgustThreshold
  {
  }

  /** Neutral is returned exactly for a dead-zone compound and balanced
      proportions of at most 0.5; in particular for an all-zero record. */
  lemma NeutralExactly(s: Scores)
    ensures Classify(s) == Neutral <==> InDeadZone(s) && s.pos == s.neg && s.neg <= DisgustThreshold
    ensures Classify(Scores(0.0, 0.0, 0.0, 0.0)) == Neutral
  {
  }

  /** The label as `analyze_emotion` spells it. */
  function Name(e: Label): (r: string)
    ensures |r| >= 3
    ensures forall i :: 0 <= i < |r| ==> 'a' <= r[i] <= 'z'
  {
    match e
    case Joy => "joy"
    case Sadness => "sadness"
    case Surprise => "surprise"
    case Anger => "anger"
    case Disgust => "disgust"
    case Fear => "fear"
    case Neutral => "neutral"
  }

  /** Reads a label back from its spelling; anything else is not a label. */
  function Parse(name: string): (r: Option<Label>)
    ensures r.Some? ==> Name(r.value) == name
  {
    if name == "joy" then Some(Joy)
    else if name == "sadness" then Some(Sadness)
    else if name == "surprise" then Some(Surprise)
    else if name == "anger" then Some(Anger)
    else if name == "disgust" then Some(Disgust)
    else if name == "fear" then Some(Fear)
    else if name == "neutral" then Some(Neutral)
    else None
  }

  /** Every label's spelling reads back as that label, so no two labels share
      a spelling. */
  lemma NameRoundTrip(e: Label)
    ensures Parse(Name(e)) == Some(e)
    ensures forall e' :: Name(e') == Name(e) ==> e' == e
  {
    forall e' | Name(e') == Name(e) ensures e' == e {
      assert Parse(Name(e')) == Some(e');
    }
  }
}
