/** One submission: the built record goes to the classifier, whose positive-
    class probability becomes a percentage score and then a risk band with its
    copy.  Any exception raised on the way is caught and turned into an error
    message, and then no band, message or recommendation is produced. */
module Prediction {
  import opened Encoding
  import opened Record
  import opened RiskBands

  /** A value, or the text of the exception raised instead. */
  datatype Result<T> = Ok(value: T) | Err(error: string)

  /** The loaded classifier's probability prediction for a one-row frame: a
      matrix whose row 0 holds the class probabilities, or the exception the
      call raised (schema mismatch, bad feature type). */
  type Classifier = Frame -> Result<seq<seq<real>>>

  /** What the result panel shows for one successful prediction. */
  datatype Assessment = Assessment(
    score: real,
    band: Band,
    riskLevel: string,
    riskClass: string,
    emoji: string,
    message: string,
    recommendations: seq<string>
  )

  /** The outcome of pressing the predict button: the result panel, or the
      error line and the hint shown below it. */
  datatype Outcome = Shown(assessment: Assessment) | Failed(error: string, hint: string)

  const ErrorPrefix: string := "\U{274C} Error during prediction: "
  const ErrorHint: string :=
    "Please ensure all fields are filled correctly and the model file is available."

  /** The IndexError raised when the matrix has no second entry in row 0. */
  const IndexErrorText: string := "index out of bounds"

  /** The positive-class probability scaled to a percentage. */
  function Score(p1: real): (score: real)
    ensures 0.0 <= p1 <= 1.0 ==> 0.0 <= score <= 100.0
    ensures score / 100.0 == p1
  {
    p1 * 100.0
  }

  /** Entry [0][1] of the probability matrix, or the error that indexing
      it raises when row 0 or its second entry is missing. */
  function PositiveProbability(proba: seq<seq<real>>): (r: Result<real>)
    ensures r.Ok? <==> |proba| >= 1 && |proba[0]| >= 2
    ensures r.Ok? ==> r.value == proba[0][1]
  {
    if |proba| >= 1 && |proba[0]| >= 2 then Ok(proba[0][1]) else Err(IndexErrorText)
  }

  /** The result panel for a score: its band and that band's fixed copy. */
  function Assess(score: real): (a: Assessment)
    ensures a.score == score && InBand(score, a.band)
    ensures a.riskLevel == a.band.Label() && a.riskClass == a.band.CssClass()
    ensures a.emoji == a.band.Emoji() && a.message == a.band.Message()
    ensures a.recommendations == a.band.Recommendations() && |a.recommendations| == 4
  {
    var b := Bucket(score);
    Assessment(score, b, b.Label(), b.CssClass(), b.Emoji(), b.Message(), b.Recommendations())
  }

  /** The body of the try block and its except clause. */
  function Predict(classify: Classifier, frame: Frame): (o: Outcome)
    ensures o.Shown? <==>
      classify(frame).Ok? && |classify(frame).value| >= 1 && |classify(frame).value[0]| >= 2
    ensures o.Shown? ==>
      o.assessment.score == classify(frame).value[0][1] * 100.0
      && InBand(o.assessment.score, o.assessment.band)
      && |o.assessment.recommendations| == 4
    ensures o.Shown? ==> o.assessment == Assess(Score(classify(frame).value[0][1]))
    ensures classify(frame).Err? ==> o == Failed(ErrorPrefix + classify(frame).error, ErrorHint)
    ensures o.Failed? ==>
      |ErrorPrefix| <= |o.error| && o.error[..|ErrorPrefix|] == ErrorPrefix && o.hint == ErrorHint
  {
    var r := match classify(frame)
      case Err(e) => Err(e)
      case Ok(proba) => PositiveProbability(proba);
    match r
    case Err(e) => Failed(ErrorPrefix + e, ErrorHint)
    case Ok(p1) => Shown(Assess(Score(p1)))
  }

  /** The whole pipeline for one submitted form: encode, build the record,
      classify, bucket. */
  function Submit(classify: Classifier, f: StudentForm): (o: Outcome)
    ensures o.Shown? <==>
      classify(BuildRecord(f)).Ok? && |classify(BuildRecord(f)).value| >= 1
      && |classify(BuildRecord(f)).value[0]| >= 2
    ensures o.Shown? ==>
      o.assessment == Assess(Score(classify(BuildRecord(f)).value[0][1]))
      && o.assessment.score == classify(BuildRecord(f)).value[0][1] * 100.0
      && InBand(o.assessment.score, o.assessment.band)
    ensures classify(BuildRecord(f)).Err? ==>
      o == Failed(ErrorPrefix + classify(BuildRecord(f)).error, ErrorHint)
    ensures o.Failed? ==>
      |ErrorPrefix| <= |o.error| && o.error[..|ErrorPrefix|] == ErrorPrefix && o.hint == ErrorHint
  {
    Predict(classify, BuildRecord(f))
  }

  /** For a probability in [0,1] the score stays in [0,100], so the top band
      is in effect [80,100]: a submission is "Very High Risk" exactly when
      the positive-class probability is at least 0.8. */
  lemma TopBandByProbability(p1: real)
    requires 0.0 <= p1 <= 1.0
    ensures 0.0 <= Score(p1) <= 100.0
    ensures Bucket(Score(p1)) == VeryHigh <==> 0.8 <= p1
  {
  }

  /** A higher positive-class probability never yields a lower band. */
  lemma BandMonotoneInProbability(p: real, q: real)
    requires p <= q
    ensures Bucket(Score(p)).Rank() <= Bucket(Score(q)).Rank()
  {
  }

  /** Worked example: whatever the other answers, a form with high academic
      pressure, the shortest sleep, the highest financial stress, suicidal
      thoughts and a family history is encoded as the schema says, and a
      classifier returning 0.85 for the positive class gives "Very High Risk"
      at 85. */
  lemma HighRiskScenario(f: StudentForm)
    requires f.academicPressure == 5.0 && f.sleepDuration == "Less than 5 hours"
    requires f.financialStress == 5 && f.suicidalThoughts == "Yes" && f.familyHistory == "Yes"
    ensures BuildRecord(f).row[Position(AcademicPressure)] == Real(5.0)
    ensures BuildRecord(f).row[Position(SleepDuration)] == Real(4.0)
    ensures BuildRecord(f).row[Position(FinancialStress)] == Int(5)
    ensures BuildRecord(f).row[Position(SuicidalThoughts)] == Int(1)
    ensures BuildRecord(f).row[Position(FamilyHistory)] == Int(1)
    ensures Submit(_ => Ok([[0.15, 0.85]]), f).Shown?
    ensures Submit(_ => Ok([[0.15, 0.85]]), f).assessment.riskLevel == "Very High Risk"
    ensures Submit(_ => Ok([[0.15, 0.85]]), f).assessment.score == 85.0
  {
  }

  /** Worked example: a classifier returning 0.15 for the positive class
      gives "Very Low Risk" at 15 with its four recommendations. */
  lemma LowRiskScenario(f: StudentForm)
    ensures Submit(_ => Ok([[0.85, 0.15]]), f).Shown?
    ensures Submit(_ => Ok([[0.85, 0.15]]), f).assessment.riskLevel == "Very Low Risk"
    ensures Submit(_ => Ok([[0.85, 0.15]]), f).assessment.score == 15.0
    ensures |Submit(_ => Ok([[0.85, 0.15]]), f).assessment.recommendations| == 4
  {
  }

  /** Worked example: a classifier that raises gives one error line and the
      hint, and nothing of a result panel. */
  lemma FailingClassifierScenario(f: StudentForm, e: string)
    ensures Submit(_ => Err(e), f) == Failed(ErrorPrefix + e, ErrorHint)
  {
  }
}
