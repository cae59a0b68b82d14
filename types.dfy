/** The records exchanged between the analysis service, the result view and the
    chat panel, as declared in types.ts. Fields that the declaration marks optional
    (`?:`) are `Option`s here. */
module Types {

  datatype Option<+T> = None | Some(value: T)

  /** Outcome of one call into the AI service: a value, or a failure carrying the
      thrown error's `message` ("" when the error had none). */
  datatype Outcome<+T> = Ok(value: T) | Failed(message: string)

  datatype ExtractedValue = ExtractedValue(parameter: string, value: string, unit: string, refRange: string)

  /** The five statuses the response schema allows for an indicator. */
  datatype IndicatorStatus = High | Low | Normal | SlightlyAbnormal | Unknown

  datatype Indicator = Indicator(parameter: string, status: IndicatorStatus)

  datatype Explanation = Explanation(parameter: string, text: string)

  datatype PatientInfo = PatientInfo(name: string, age: string, gender: string, reportDate: string, confidence: string)

  datatype Trend = Increase | Decrease | Stable | Unknown

  datatype ComparisonRow = ComparisonRow(parameter: string, oldValue: string, newValue: string, trend: Trend)

  datatype ScoreStatus = Improved | Declined | Stable | Unknown

  /** Scores are JavaScript numbers in the source; the model keeps them integral. */
  datatype HealthScore = HealthScore(currentScore: int, previousScore: Option<int>, difference: Option<int>, status: ScoreStatus)

  datatype AnalysisResult = AnalysisResult(
    documentType: string,
    patientInfo: PatientInfo,
    extractedValues: seq<ExtractedValue>,
    indicators: seq<Indicator>,
    simpleExplanations: seq<Explanation>,
    comparisonTable: Option<seq<ComparisonRow>>,
    comparisonSummary: Option<string>,
    healthScore: HealthScore,
    conclusion: Option<string>,
    wellnessSuggestions: seq<string>,
    doctorQuestions: seq<string>,
    summary: Option<string>)

  datatype Role = User | Model

  datatype ChatMessage = ChatMessage(role: Role, text: string)

  datatype AppStatus = Idle | Analyzing | Success | Error

  /** The string value each indicator status has in the parsed JSON. */
  function StatusText(s: IndicatorStatus): (t: string)
    ensures t != ""
  {
    match s
    case High => "High"
    case Low => "Low"
    case Normal => "Normal"
    case SlightlyAbnormal => "Slightly Abnormal"
    case Unknown => "Unknown"
  }

  /** Distinct statuses have distinct texts, so comparing texts compares statuses. */
  lemma StatusTextInjective(s: IndicatorStatus, s': IndicatorStatus)
    requires StatusText(s) == StatusText(s')
    ensures s == s'
  {
  }
}
