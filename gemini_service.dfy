/** `services/geminiService.ts`: the body-mass index and its category, the prompt
    sent to the analysis service, and the merge of the service's reply with the
    locally computed metrics. The service itself is a parameter. */
module GeminiService {
  import opened Types
  import opened Strings

  // ---------------------------------------------------------------- metrics

  /** weight (kg) over the square of the height in metres. A zero height divides
      by zero: positive infinity for a positive weight, negative infinity for a
      negative one, NaN for a zero weight. */
  function Bmi(weight: real, height: real): (bmi: JsNumber)
    ensures height != 0.0 ==> bmi.Finite? && bmi.value * ((height / 100.0) * (height / 100.0)) == weight
    ensures height != 0.0 && weight > 0.0 ==> bmi.Finite? && bmi.value > 0.0
    ensures height == 0.0 ==> (bmi == PosInfinity <==> weight > 0.0)
    ensures height == 0.0 ==> (bmi == NegInfinity <==> weight < 0.0)
    ensures height == 0.0 ==> (bmi == NaN <==> weight == 0.0)
  {
    var metres := height / 100.0;
    if metres != 0.0 then
      SquarePositive(metres);
      Finite(weight / (metres * metres))
    else if weight > 0.0 then PosInfinity
    else if weight < 0.0 then NegInfinity
    else NaN
  }

  lemma SquarePositive(x: real)
    requires x != 0.0
    ensures x * x > 0.0
  {
  }

  datatype BmiCategory = Underweight | Normal | Overweight | Obese

  function CategoryName(c: BmiCategory): string {
    match c
    case Underweight => "Underweight"
    case Normal => "Normal"
    case Overweight => "Overweight"
    case Obese => "Obese"
  }

  /** Position in the order Underweight < Normal < Overweight < Obese. */
  function CategoryRank(c: BmiCategory): nat {
    match c
    case Underweight => 0
    case Normal => 1
    case Overweight => 2
    case Obese => 3
  }

  /** The if/else chain: each category is a half-open interval of the BMI, as
      JavaScript's `<` decides it. */
  function Categorize(bmi: JsNumber): (c: BmiCategory)
    ensures c == Underweight <==> Below(bmi, 18.5)
    ensures c == Normal <==> !Below(bmi, 18.5) && Below(bmi, 25.0)
    ensures c == Overweight <==> !Below(bmi, 25.0) && Below(bmi, 30.0)
    ensures c == Obese <==> !Below(bmi, 30.0)
  {
    if Below(bmi, 18.5) then Underweight
    else if Below(bmi, 25.0) then Normal
    else if Below(bmi, 30.0) then Overweight
    else Obese
  }

  /** On finite values: under 18.5, from 18.5 below 25, from 25 below 30, 30 and up. */
  lemma CategorizeFinite(x: real)
    ensures Categorize(Finite(x)) == Underweight <==> x < 18.5
    ensures Categorize(Finite(x)) == Normal <==> 18.5 <= x < 25.0
    ensures Categorize(Finite(x)) == Overweight <==> 25.0 <= x < 30.0
    ensures Categorize(Finite(x)) == Obese <==> 30.0 <= x
  {
  }

  /** Every comparison with NaN is false, so the chain falls through to Obese; a
      zero height with a zero weight is reported as obese. */
  lemma CategorizeNaN()
    ensures Categorize(NaN) == Obese
    ensures Categorize(Bmi(0.0, 0.0)) == Obese
  {
  }

  /** A larger BMI never falls in an earlier category. */
  lemma CategorizeMonotone(b1: real, b2: real)
    requires b1 <= b2
    ensures CategoryRank(Categorize(Finite(b1))) <= CategoryRank(Categorize(Finite(b2)))
  {
  }

  /** Height 175 cm and weight 70 kg give a BMI of about 22.86: Normal. */
  lemma ScenarioNormalWeight()
    ensures Bmi(70.0, 175.0).Finite? && 22.8 < Bmi(70.0, 175.0).value < 22.9
    ensures Categorize(Bmi(70.0, 175.0)) == Normal
  {
  }

  /** `metrics: { bmi, bmiCategory }` as computed from the submitted profile. */
  function LocalMetrics(u: UserHealthData): (m: Metrics)
    ensures m.bmi == Bmi(u.weight, u.height)
    ensures m.bmiCategory == CategoryName(Categorize(m.bmi))
  {
    var bmi := Bmi(u.weight, u.height);
    Metrics(bmi, CategoryName(Categorize(bmi)))
  }

  // ---------------------------------------------------------------- the prompt

  predicate IsCustomDataset(d: DevSettings) {
    d.dataset == CustomCsv
  }

  const CustomDatasetName := "Provided Custom CSV"

  /** The "Simulation Dataset" value: a fixed text for the uploaded dataset, the
      dataset's label otherwise. */
  function DatasetLine(d: DevSettings): (r: string)
    ensures IsCustomDataset(d) ==> r == CustomDatasetName
    ensures !IsCustomDataset(d) ==> r == DatasetLabel(d.dataset)
  {
    if IsCustomDataset(d) then CustomDatasetName else DatasetLabel(d.dataset)
  }

  /** The dataset line tells every dataset apart. */
  lemma DatasetLineIdentifiesDataset(d1: DevSettings, d2: DevSettings)
    requires DatasetLine(d1) == DatasetLine(d2)
    ensures d1.dataset == d2.dataset
  {
  }

  /** The family-history answer: "Yes" exactly for a family history, "No" exactly
      without one. */
  function FamilyHistoryText(b: bool): (r: string)
    ensures r == "Yes" <==> b
    ensures r == "No" <==> !b
  {
    if b then "Yes" else "No"
  }

  const ContextLabel := "- Custom Training Context: "

  /** The custom-context line: present exactly when a context was given, and then
      the context verbatim after its label. */
  function ContextSection(d: DevSettings): (r: string)
    ensures r == [] <==> d.customContext == []
    ensures d.customContext != [] ==> |r| == |ContextLabel| + |d.customContext|
    ensures d.customContext != [] ==>
      r[..|ContextLabel|] == ContextLabel && r[|ContextLabel|..] == d.customContext
  {
    if d.customContext != [] then ContextLabel + d.customContext else ""
  }

  /** The character budget for the uploaded CSV. */
  const MaxCsvChars := 5000

  const CsvOpen := "\n- CUSTOM DATASET RAW CONTENT (CSV):\n--- START CSV ---\n"
  const TruncationNotice := " ... (truncated for token limits)"
  const CsvClose := "\n--- END CSV ---\n"

  /** `content.slice(0, 5000)`: the first min(5000, |content|) characters; the whole
      content exactly when it fits the budget. */
  function CsvPayload(content: string): (r: string)
    ensures |r| == Min(MaxCsvChars, |content|)
    ensures r <= content
    ensures r == content <==> |content| <= MaxCsvChars
  {
    content[..Min(MaxCsvChars, |content|)]
  }

  /** The CSV block: only for the custom dataset with a non-empty upload, and then
      the payload followed by the truncation notice, which is written whether or not
      anything was cut. */
  function CsvSection(d: DevSettings): (r: string)
    ensures r != [] <==> IsCustomDataset(d) && d.customDatasetContent != []
    ensures r != [] ==>
      r == CsvOpen + CsvPayload(d.customDatasetContent) + TruncationNotice + CsvClose
  {
    if IsCustomDataset(d) && d.customDatasetContent != [] then
      CsvOpen + CsvPayload(d.customDatasetContent) + TruncationNotice + CsvClose
    else ""
  }

  /** An 8,000-character upload embeds exactly its first 5,000 characters and the
      notice. */
  lemma ScenarioLongUpload(d: DevSettings)
    requires IsCustomDataset(d) && |d.customDatasetContent| == 8000
    ensures CsvSection(d) == CsvOpen + d.customDatasetContent[..5000] + TruncationNotice + CsvClose
  {
  }

  /** The instruction after the configuration: analyse the uploaded data, or
      simulate training on the named dataset. */
  function DatasetInstruction(d: DevSettings): (r: string)
    ensures IsCustomDataset(d) ==> r == AnalyzeUploadText
    ensures !IsCustomDataset(d) ==> r == TrainedOnText + DatasetLabel(d.dataset) + " dataset."
  {
    if IsCustomDataset(d) then AnalyzeUploadText
    else TrainedOnText + DatasetLabel(d.dataset) + " dataset."
  }

  const AnalyzeUploadText := "Analyze the correlations and patterns found in the CUSTOM DATASET RAW CONTENT above to inform the health risk assessment."
  const TrainedOnText := "Simulate the model as if it were trained on the "

  // The template's fixed text, passage by passage.
  const IntroText := "Perform a comprehensive health risk analysis.\nProfile:\n- Age: "
  const GenderText := "\n- Gender: "
  const BmiText := "\n- BMI: "
  const SmokingText := "\n- Smoking: "
  const AlcoholText := "\n- Alcohol: "
  const ExerciseText := "\n- Exercise: "
  const DietText := "\n- Diet: "
  const FamilyHistoryLabel := "\n- Family History: "
  const EngineText := "\n\nML ENGINE CONFIGURATION:\n- Algorithm: "
  const DatasetText := "- Simulation Dataset: "
  const SimulateText := "\nSimulate the prediction logic of the "
  const CalibrateText := "\nUse any provided Custom Training Context to calibrate weights.\n\nProvide:\n1. Overall riskScore (0-100) and riskLevel (Low/Moderate/High).\n2. Detailed summary explaining how the chosen model ("
  const RequestListText := ") and dataset arrived at these specific conclusions. Mention correlations found in the data.\n3. Specific dietPlan with doEat, avoid, meal plan, and 2 recipes.\n4. lifestyleScore (0-100).\n5. riskDimensions: An array of 5 objects {name, value} representing risk intensity in: Cardiovascular, Metabolic, Respiratory, Mental Health, and Physical Vitality.\n6. modelMetrics: A simulation of the model's performance on the validation set of the chosen dataset (accuracy, precision, recall, f1Score, all 0-1).\n7. healthComparison: A set of 4 comparison categories (Nutrition, Activity, Biological, Mental Resilience) showing userScore vs idealScore (all 0-100).\n8. Actionable recommendations.\n"

  function DatasetEntry(d: DevSettings): string {
    DatasetText + DatasetLine(d) + "\n"
  }

  /** The template as the list of its fixed passages and substitutions, in order. */
  function PromptParts(u: UserHealthData, fmt: NumberFormat, m: Metrics): (parts: seq<string>)
    ensures |parts| == 34
    ensures parts[22] == DatasetEntry(u.devSettings)
    ensures parts[23] == ContextSection(u.devSettings)
    ensures parts[25] == CsvSection(u.devSettings)
  {
    var d := u.devSettings;
    [ IntroText, fmt.show(u.age),
      GenderText, GenderLabel(u.gender),
      BmiText, fmt.fixed1(m.bmi), " (", m.bmiCategory, ")",
      SmokingText, SmokingLabel(u.smoking),
      AlcoholText, AlcoholLabel(u.alcohol),
      ExerciseText, ExerciseLabel(u.exercise),
      DietText, DietLabel(u.diet),
      FamilyHistoryLabel, FamilyHistoryText(u.familyHistory),
      EngineText, ModelLabel(u.mlModel), "\n",
      DatasetEntry(d),
      ContextSection(d), "\n",
      CsvSection(d), "\n",
      SimulateText, ModelLabel(u.mlModel), " model.\n",
      DatasetInstruction(d),
      CalibrateText, ModelLabel(u.mlModel), RequestListText ]
  }

  /** The parts written one after another. */
  function Concat(parts: seq<string>): string {
    if parts == [] then "" else parts[0] + Concat(parts[1..])
  }

  /** Every part of a concatenation occurs in it. */
  lemma {:induction false} ConcatContainsPart(parts: seq<string>, k: nat)
    requires k < |parts|
    ensures Contains(Concat(parts), parts[k])
  {
    var rest := Concat(parts[1..]);
    if k == 0 {
      ContainsMiddle([], parts[0], rest);
      assert [] + parts[0] + rest == Concat(parts);
    } else {
      ConcatContainsPart(parts[1..], k - 1);
      ContainsMiddle(parts[0], rest, []);
      assert parts[0] + rest + [] == Concat(parts);
      ContainsTransitive(Concat(parts), rest, parts[k]);
    }
  }

  /** The whole prompt, the passages written one after another (the template's
      layout whitespace is not reproduced). The dataset line, the custom-context
      section and the CSV block all reach it. */
  function Prompt(u: UserHealthData, fmt: NumberFormat, m: Metrics): (r: string)
    ensures Contains(r, DatasetEntry(u.devSettings))
    ensures Contains(r, ContextSection(u.devSettings))
    ensures Contains(r, CsvSection(u.devSettings))
  {
    var parts := PromptParts(u, fmt, m);
    ConcatContainsPart(parts, 22);
    ConcatContainsPart(parts, 23);
    ConcatContainsPart(parts, 25);
    Concat(parts)
  }

  // ---------------------------------------------------------------- the reply

  /** What the service call produced: its reply text, or a failure (the promise
      rejected). A reply without text is the empty string. */
  datatype Reply = Replied(text: string) | CallFailed

  /** `JSON.parse(response.text || "{}")`: an empty reply reads as the empty object;
      any other text goes to `parse`, which stands for `JSON.parse` followed by the
      object spread and yields None where `JSON.parse` throws. */
  function ParseReply(text: string, parse: string -> Option<RiskAnalysis>): (r: Option<RiskAnalysis>)
    ensures text == [] ==> r == Some(map[])
    ensures text != [] ==> r == parse(text)
  {
    if text == [] then Some(map[]) else parse(text)
  }

  /** `{ ...analysis, metrics: { bmi, bmiCategory } }`: every member of the reply is
      kept, except that `metrics` is always the local one. */
  function WithMetrics(reply: RiskAnalysis, m: Metrics): (r: RiskAnalysis)
    ensures MetricsOf(r) == Some(m)
    ensures r["metrics"] == EncodeMetrics(m)
    ensures r.Keys == reply.Keys + {"metrics"}
    ensures forall k :: k in reply && k != "metrics" ==> r[k] == reply[k]
  {
    reply["metrics" := EncodeMetrics(m)]
  }

  /** Nothing checks the reply's risk level: the merged analysis has whatever level
      the service sent. */
  lemma RiskLevelTakenFromReply(reply: RiskAnalysis, m: Metrics)
    ensures RiskLevelOf(WithMetrics(reply, m)) == RiskLevelOf(reply)
  {
  }

  /** `analyzeHealthRisk`: build the prompt, call the service, parse and merge. */
  function AnalyzeHealthRisk(
    u: UserHealthData,
    fmt: NumberFormat,
    service: string -> Reply,
    parse: string -> Option<RiskAnalysis>
  ): (r: Result<RiskAnalysis>)
    ensures var reply := service(Prompt(u, fmt, LocalMetrics(u)));
      r.Success? <==> reply.Replied? && ParseReply(reply.text, parse).Some?
    ensures var reply := service(Prompt(u, fmt, LocalMetrics(u)));
      r.Success? ==> r.value == WithMetrics(ParseReply(reply.text, parse).value, LocalMetrics(u))
    ensures r.Success? ==> MetricsOf(r.value) == Some(LocalMetrics(u))
    ensures var reply := service(Prompt(u, fmt, LocalMetrics(u)));
      reply == Replied([]) ==> r == Success(map["metrics" := EncodeMetrics(LocalMetrics(u))])
    ensures var reply := service(Prompt(u, fmt, LocalMetrics(u)));
      r.Success? ==> forall k :: k in ParseReply(reply.text, parse).value && k != "metrics" ==>
        k in r.value && r.value[k] == ParseReply(reply.text, parse).value[k]
  {
    var m := LocalMetrics(u);
    match service(Prompt(u, fmt, m))
    case CallFailed => Failure("the analysis service call failed")
    case Replied(text) =>
      match ParseReply(text, parse)
      case None => Failure("the reply is not JSON")
      case Some(analysis) => Success(WithMetrics(analysis, m))
  }
}
