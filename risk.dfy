/** Risk bucketing: the percentage score falls into one of five ordered,
    half-open bands, each carrying fixed copy for the result panel. */
module RiskBands {

  datatype Band = VeryLow | Low | Moderate | High | VeryHigh {

    /** Position of the band in the order of increasing risk. */
    function Rank(): (n: nat)
      ensures n < 5
      ensures this == VeryLow <==> n == 0
      ensures this == VeryHigh <==> n == 4
    {
      match this
      case VeryLow => 0
      case Low => 1
      case Moderate => 2
      case High => 3
      case VeryHigh => 4
    }

    function Label(): string {
      match this
      case VeryLow => "Very Low Risk"
      case Low => "Low Risk"
      case Moderate => "Moderate Risk"
      case High => "High Risk"
      case VeryHigh => "Very High Risk"
    }

    /** The style class of the result box. */
    function CssClass(): string {
      match this
      case VeryLow => "result-very-low"
      case Low => "result-low"
      case Moderate => "result-moderate"
      case High => "result-high"
      case VeryHigh => "result-very-high"
    }

    function Emoji(): string {
      match this
      case VeryLow => "\U{2705}"
      case Low => "\U{1F7E2}"
      case Moderate => "\U{1F7E1}"
      case High => "\U{1F7E0}"
      case VeryHigh => "\U{1F534}"
    }

    function Message(): string {
      match this
      case VeryLow =>
        "The assessment indicates a very low likelihood of depression. Continue maintaining healthy habits!"
      case Low =>
        "The assessment shows a low likelihood of depression. Stay mindful of your mental health."
      case Moderate =>
        "The assessment indicates moderate risk. Consider taking preventive measures."
      case High =>
        "The assessment shows concerning signs. Professional support is strongly recommended."
      case VeryHigh =>
        "The assessment indicates serious concerns. Please seek professional help immediately."
    }

    /** The band's four static recommendations, in display order. */
    function Recommendations(): (recs: seq<string>)
      ensures |recs| == 4
      ensures forall i, j :: 0 <= i < j < |recs| ==> recs[i] != recs[j]
    {
      match this
      case VeryLow => [
        "Keep up your healthy lifestyle choices",
        "Maintain good sleep hygiene",
        "Stay connected with friends and family",
        "Continue balanced study-life routine"]
      case Low => [
        "Monitor stress levels regularly",
        "Maintain work-life balance",
        "Practice relaxation techniques",
        "Keep communication channels open"]
      case Moderate => [
        "Talk to a counselor or trusted person",
        "Develop stress management strategies",
        "Improve sleep schedule and diet",
        "Engage in regular physical activity"]
      case High => [
        "Seek professional counseling services",
        "Reach out to campus mental health resources",
        "Connect with trusted friends or family",
        "Consider reducing workload if possible"]
      case VeryHigh => [
        "Contact a mental health professional urgently",
        "Reach out to crisis hotlines if needed",
        "Inform trusted individuals about your situation",
        "Don't hesitate to visit student counseling services"]
    }
  }

  /** The band boundaries, in increasing order. */
  const Thresholds: seq<real> := [20.0, 40.0, 60.0, 80.0]

  /** The ordered if/elif chain: each test is a strict `<`, so a score equal
      to a boundary falls through to the band above it. */
  function Bucket(score: real): (b: Band)
    ensures InBand(score, b)
  {
    if score < 20.0 then VeryLow
    else if score < 40.0 then Low
    else if score < 60.0 then Moderate
    else if score < 80.0 then High
    else VeryHigh
  }

  /** Independent reading of the partition: band k covers the scores from
      threshold k-1 (inclusive) up to threshold k (exclusive); the lowest band
      has no lower bound and the highest no upper bound. */
  predicate InBand(score: real, b: Band) {
    (b.Rank() == 0 || Thresholds[b.Rank() - 1] <= score)
    && (b.Rank() == 4 || score < Thresholds[b.Rank()])
  }

  /** How many of the boundaries the score has reached. */
  function Reached(ts: seq<real>, score: real): nat {
    if ts == [] then 0
    else (if ts[0] <= score then 1 else 0) + Reached(ts[1..], score)
  }

  /** Bucketing is total and exclusive: every score lies in exactly the band
      the chain picks, and in no other. */
  lemma BucketExact(score: real, b: Band)
    ensures Bucket(score) == b <==> InBand(score, b)
  {
  }

  /** The chosen band's rank is the number of boundaries the score has
      reached, which is why ties go to the higher band. */
  lemma {:induction false} BucketCountsThresholds(score: real)
    ensures Bucket(score).Rank() == Reached(Thresholds, score)
  {
    var r4 := if 80.0 <= score then 1 else 0;
    var r3 := r4 + if 60.0 <= score then 1 else 0;
    var r2 := r3 + if 40.0 <= score then 1 else 0;
    assert [80.0][1..] == [];
    assert Reached([80.0], score) == r4;
    assert [60.0, 80.0][1..] == [80.0];
    assert Reached([60.0, 80.0], score) == r3;
    assert [40.0, 60.0, 80.0][1..] == [60.0, 80.0];
    assert Reached([40.0, 60.0, 80.0], score) == r2;
    assert Thresholds[1..] == [40.0, 60.0, 80.0];
  }

  /** Reaching boundaries is monotone in the score. */
  lemma {:induction false} ReachedMonotone(ts: seq<real>, s: real, t: real)
    requires s <= t
    ensures Reached(ts, s) <= Reached(ts, t)
  {
    if ts != [] {
      ReachedMonotone(ts[1..], s, t);
    }
  }

  /** A higher score never gets a lower band. */
  lemma BucketMonotone(s: real, t: real)
    requires s <= t
    ensures Bucket(s).Rank() <= Bucket(t).Rank()
  {
    BucketCountsThresholds(s);
    BucketCountsThresholds(t);
    ReachedMonotone(Thresholds, s, t);
  }

  /** The boundary cases: a value just under a boundary stays below it, the
      boundary itself and the maximum belong to the higher band. */
  lemma BucketBoundaries()
    ensures Bucket(19.99) == VeryLow && Bucket(20.0) == Low
    ensures Bucket(39.99) == Low && Bucket(40.0) == Moderate
    ensures Bucket(59.99) == Moderate && Bucket(60.0) == High
    ensures Bucket(79.99) == High && Bucket(80.0) == VeryHigh
    ensures Bucket(0.0) == VeryLow && Bucket(100.0) == VeryHigh
  {
  }

  /** The five bands are told apart by their rank, label, style class, emoji
      and message: no two bands share any of them. */
  lemma BandCopyDistinct(a: Band, b: Band)
    requires a != b
    ensures a.Rank() != b.Rank()
    ensures a.Label() != b.Label()
    ensures a.CssClass() != b.CssClass()
    ensures a.Emoji() != b.Emoji()
    ensures a.Message() != b.Message()
  {
  }
}
