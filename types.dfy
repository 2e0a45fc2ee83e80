/** The records and enumerations of `types.ts`, with the string value each
    enumeration member carries, and the JSON values the analysis service returns. */
module Types {

  datatype Option<T> = None | Some(value: T)

  datatype Result<T> = Success(value: T) | Failure(error: string)

  function Min(a: int, b: int): int {
    if a <= b then a else b
  }

  // ---------------------------------------------------------------- enumerations

  datatype Gender = Male | Female | OtherGender

  function GenderLabel(g: Gender): string {
    match g
    case Male => "male"
    case Female => "female"
    case OtherGender => "other"
  }

  function GenderFromLabel(s: string): (r: Option<Gender>)
    ensures r.Some? ==> GenderLabel(r.value) == s
    ensures forall g :: GenderLabel(g) == s ==> r == Some(g)
  {
    if s == "male" then Some(Male)
    else if s == "female" then Some(Female)
    else if s == "other" then Some(OtherGender)
    else None
  }

  datatype SmokingStatus = NonSmoker | FormerSmoker | CurrentSmoker

  function SmokingLabel(x: SmokingStatus): string {
    match x
    case NonSmoker => "non-smoker"
    case FormerSmoker => "former smoker"
    case CurrentSmoker => "current smoker"
  }

  function SmokingFromLabel(s: string): (r: Option<SmokingStatus>)
    ensures r.Some? ==> SmokingLabel(r.value) == s
    ensures forall x :: SmokingLabel(x) == s ==> r == Some(x)
  {
    if s == "non-smoker" then Some(NonSmoker)
    else if s == "former smoker" then Some(FormerSmoker)
    else if s == "current smoker" then Some(CurrentSmoker)
    else None
  }

  datatype AlcoholConsumption = NoAlcohol | ModerateAlcohol | HeavyAlcohol

  function AlcoholLabel(x: AlcoholConsumption): string {
    match x
    case NoAlcohol => "none"
    case ModerateAlcohol => "moderate"
    case HeavyAlcohol => "heavy"
  }

  function AlcoholFromLabel(s: string): (r: Option<AlcoholConsumption>)
    ensures r.Some? ==> AlcoholLabel(r.value) == s
    ensures forall x :: AlcoholLabel(x) == s ==> r == Some(x)
  {
    if s == "none" then Some(NoAlcohol)
    else if s == "moderate" then Some(ModerateAlcohol)
    else if s == "heavy" then Some(HeavyAlcohol)
    else None
  }

  datatype ExerciseFrequency = NoExercise | Occasional | Regular

  function ExerciseLabel(x: ExerciseFrequency): string {
    match x
    case NoExercise => "none"
    case Occasional => "occasional"
    case Regular => "regular"
  }

  function ExerciseFromLabel(s: string): (r: Option<ExerciseFrequency>)
    ensures r.Some? ==> ExerciseLabel(r.value) == s
    ensures forall x :: ExerciseLabel(x) == s ==> r == Some(x)
  {
    if s == "none" then Some(NoExercise)
    else if s == "occasional" then Some(Occasional)
    else if s == "regular" then Some(Regular)
    else None
  }

  datatype DietQuality = Poor | Average | Healthy

  function DietLabel(x: DietQuality): string {
    match x
    case Poor => "poor"
    case Average => "average"
    case Healthy => "healthy"
  }

  function DietFromLabel(s: string): (r: Option<DietQuality>)
    ensures r.Some? ==> DietLabel(r.value) == s
    ensures forall x :: DietLabel(x) == s ==> r == Some(x)
  {
    if s == "poor" then Some(Poor)
    else if s == "average" then Some(Average)
    else if s == "healthy" then Some(Healthy)
    else None
  }

  datatype MLModel = LogisticRegression | RandomForest | NeuralNetwork | GradientBoosting

  function ModelLabel(m: MLModel): string {
    match m
    case LogisticRegression => "Logistic Regression"
    case RandomForest => "Random Forest"
    case NeuralNetwork => "Neural Network (Deep Learning)"
    case GradientBoosting => "XGBoost/Gradient Boosting"
  }

  function ModelFromLabel(s: string): (r: Option<MLModel>)
    ensures r.Some? ==> ModelLabel(r.value) == s
    ensures forall m :: ModelLabel(m) == s ==> r == Some(m)
  {
    if s == "Logistic Regression" then Some(LogisticRegression)
    else if s == "Random Forest" then Some(RandomForest)
    else if s == "Neural Network (Deep Learning)" then Some(NeuralNetwork)
    else if s == "XGBoost/Gradient Boosting" then Some(GradientBoosting)
    else None
  }

  datatype MLDataset = Nhanes2024 | WhoGlobal | UkBiobank | SyntheticAdvanced | CustomCsv

  function DatasetLabel(d: MLDataset): string {
    match d
    case Nhanes2024 => "NHANES 2024 (Clinical)"
    case WhoGlobal => "WHO Global Health Observatory"
    case UkBiobank => "UK Biobank (Genetic + Lifestyle)"
    case SyntheticAdvanced => "Synthetic Advanced Medical (v2.1)"
    case CustomCsv => "Custom CSV Upload"
  }

  function DatasetFromLabel(s: string): (r: Option<MLDataset>)
    ensures r.Some? ==> DatasetLabel(r.value) == s
    ensures forall d :: DatasetLabel(d) == s ==> r == Some(d)
  {
    if s == "NHANES 2024 (Clinical)" then Some(Nhanes2024)
    else if s == "WHO Global Health Observatory" then Some(WhoGlobal)
    else if s == "UK Biobank (Genetic + Lifestyle)" then Some(UkBiobank)
    else if s == "Synthetic Advanced Medical (v2.1)" then Some(SyntheticAdvanced)
    else if s == "Custom CSV Upload" then Some(CustomCsv)
    else None
  }

  // ---------------------------------------------------------------- records

  /** `DevSettings`. The optional strings are "" when absent: the source only ever
      tests them for truthiness, and `undefined` and "" are both falsy. */
  datatype DevSettings = DevSettings(
    dataset: MLDataset,
    customContext: string,
    customDatasetContent: string,
    customDatasetFileName: string,
    debugMode: bool)

  datatype UserHealthData = UserHealthData(
    age: real,
    gender: Gender,
    height: real,
    weight: real,
    smoking: SmokingStatus,
    alcohol: AlcoholConsumption,
    exercise: ExerciseFrequency,
    diet: DietQuality,
    familyHistory: bool,
    mlModel: MLModel,
    devSettings: DevSettings)

  datatype AuthUser = AuthUser(id: string, email: string, name: string)

  datatype SMARTGoal = SMARTGoal(
    id: string,
    title: string,
    metric: string,
    target: string,
    deadline: string,
    progress: int,
    completed: bool)

  datatype Role = User | Model

  datatype ChatMessage = ChatMessage(role: Role, text: string)

  // ---------------------------------------------------------------- numbers

  /** A JavaScript number as the BMI arithmetic can produce it: a finite value
      (without floating-point rounding), an infinity, or NaN. */
  datatype JsNumber = Finite(value: real) | PosInfinity | NegInfinity | NaN

  /** JavaScript's `n < bound`: false for NaN and positive infinity. */
  predicate Below(n: JsNumber, bound: real) {
    match n
    case Finite(x) => x < bound
    case NegInfinity => true
    case _ => false
  }

  // ---------------------------------------------------------------- the analysis

  /** A JSON value, as the service's reply text parses to. */
  datatype Json =
    | JNull
    | JBool(b: bool)
    | JNum(n: JsNumber)
    | JStr(s: string)
    | JArr(items: seq<Json>)
    | JObj(fields: map<string, Json>)

  /** `RiskAnalysis`: the parsed reply object. Nothing checks its shape, so it is any
      JSON object; the model reads only its `metrics` and `riskLevel` members. */
  type RiskAnalysis = map<string, Json>

  datatype RiskLevel = Low | Moderate | High

  /** The `riskLevel` member, when it holds one of the three levels. */
  function RiskLevelOf(a: RiskAnalysis): Option<RiskLevel> {
    if "riskLevel" !in a then None
    else match a["riskLevel"]
      case JStr(s) =>
        if s == "Low" then Some(Low)
        else if s == "Moderate" then Some(Moderate)
        else if s == "High" then Some(High)
        else None
      case _ => None
  }

  /** `RiskAnalysis.metrics` */
  datatype Metrics = Metrics(bmi: JsNumber, bmiCategory: string)

  /** Reads a `metrics` member back: an object with a number `bmi` and a string
      `bmiCategory`. */
  function DecodeMetrics(j: Json): Option<Metrics> {
    match j
    case JObj(f) =>
      if "bmi" in f && "bmiCategory" in f && f["bmi"].JNum? && f["bmiCategory"].JStr?
      then Some(Metrics(f["bmi"].n, f["bmiCategory"].s))
      else None
    case _ => None
  }

  /** `{ bmi, bmiCategory }` as a JSON object; it reads back as the same metrics. */
  function EncodeMetrics(m: Metrics): (j: Json)
    ensures DecodeMetrics(j) == Some(m)
    ensures j.JObj? && j.fields.Keys == {"bmi", "bmiCategory"}
  {
    JObj(map["bmi" := JNum(m.bmi), "bmiCategory" := JStr(m.bmiCategory)])
  }

  function MetricsOf(a: RiskAnalysis): Option<Metrics> {
    if "metrics" in a then DecodeMetrics(a["metrics"]) else None
  }

  datatype HistoryItem = HistoryItem(
    id: string,
    timestamp: int,
    analysis: RiskAnalysis,
    inputsSummary: string)

  /** Number-to-text conversions, which the model does not define: `show` is
      JavaScript's default conversion (as in a template literal), `fixed1` is
      `toFixed(1)`. */
  datatype NumberFormat = NumberFormat(show: real -> string, fixed1: JsNumber -> string)
}
