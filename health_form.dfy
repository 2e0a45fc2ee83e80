/** `components/HealthForm.tsx`: the three-step wizard that collects the profile,
    routes each input's change into the form record (dotted names into
    `devSettings`), accepts a CSV upload and hands the record to the app. */
module HealthForm {
  import opened Types
  import opened Strings
  import GeminiService

  // ---------------------------------------------------------------- the record

  /** The form's starting record. */
  const InitialForm := UserHealthData(
    30.0, Male, 175.0, 70.0, NonSmoker, NoAlcohol, Occasional, Average, false, RandomForest,
    DevSettings(Nhanes2024, "", "", "", false))

  /** The starting record describes a normal-weight profile on a stock dataset, so
      the analysis prompt it produces carries neither a custom context nor a CSV
      block. */
  lemma InitialFormPrompt()
    ensures GeminiService.LocalMetrics(InitialForm).bmiCategory == "Normal"
    ensures GeminiService.DatasetLine(InitialForm.devSettings) == DatasetLabel(Nhanes2024)
    ensures GeminiService.ContextSection(InitialForm.devSettings) == []
    ensures GeminiService.CsvSection(InitialForm.devSettings) == []
  {
    GeminiService.ScenarioNormalWeight();
  }

  /** What an input carries to a field: text (a text box or a select), a number
      (a number box, after `parseFloat`) or a flag (a checkbox). */
  datatype FieldValue = Text(s: string) | Number(x: real) | Flag(b: bool)

  /** The top-level fields, as the inputs name them. */
  const TopFields: set<string> :=
    {"age", "gender", "height", "weight", "smoking", "alcohol", "exercise", "diet",
     "familyHistory", "mlModel"}

  /** The `devSettings` fields. */
  const DevFields: set<string> :=
    {"dataset", "customContext", "customDatasetContent", "customDatasetFileName", "debugMode"}

  /** The value a top-level field holds, as an input would carry it. */
  function TopGet(d: UserHealthData, name: string): Option<FieldValue> {
    if name == "age" then Some(Number(d.age))
    else if name == "gender" then Some(Text(GenderLabel(d.gender)))
    else if name == "height" then Some(Number(d.height))
    else if name == "weight" then Some(Number(d.weight))
    else if name == "smoking" then Some(Text(SmokingLabel(d.smoking)))
    else if name == "alcohol" then Some(Text(AlcoholLabel(d.alcohol)))
    else if name == "exercise" then Some(Text(ExerciseLabel(d.exercise)))
    else if name == "diet" then Some(Text(DietLabel(d.diet)))
    else if name == "familyHistory" then Some(Flag(d.familyHistory))
    else if name == "mlModel" then Some(Text(ModelLabel(d.mlModel)))
    else None
  }

  /** The value a `devSettings` field holds. */
  function DevGet(ds: DevSettings, field: string): Option<FieldValue> {
    if field == "dataset" then Some(Text(DatasetLabel(ds.dataset)))
    else if field == "customContext" then Some(Text(ds.customContext))
    else if field == "customDatasetContent" then Some(Text(ds.customDatasetContent))
    else if field == "customDatasetFileName" then Some(Text(ds.customDatasetFileName))
    else if field == "debugMode" then Some(Flag(ds.debugMode))
    else None
  }

  /** `v` is a value the typed record can hold in top-level field `name`. */
  predicate TopFits(name: string, v: FieldValue) {
    match v
    case Number(_) => name in {"age", "height", "weight"}
    case Flag(_) => name == "familyHistory"
    case Text(s) =>
      || (name == "gender" && GenderFromLabel(s).Some?)
      || (name == "smoking" && SmokingFromLabel(s).Some?)
      || (name == "alcohol" && AlcoholFromLabel(s).Some?)
      || (name == "exercise" && ExerciseFromLabel(s).Some?)
      || (name == "diet" && DietFromLabel(s).Some?)
      || (name == "mlModel" && ModelFromLabel(s).Some?)
  }

  /** `v` is a value the typed record can hold in `devSettings` field `field`. */
  predicate DevFits(field: string, v: FieldValue) {
    match v
    case Number(_) => false
    case Flag(_) => field == "debugMode"
    case Text(s) =>
      || (field == "dataset" && DatasetFromLabel(s).Some?)
      || field in {"customContext", "customDatasetContent", "customDatasetFileName"}
  }

  /** `{ ...prev, [name]: v }`: the named field takes the value, every other field
      keeps its own. */
  function TopSet(d: UserHealthData, name: string, v: FieldValue): (r: UserHealthData)
    ensures r.devSettings == d.devSettings
    ensures TopFits(name, v) ==> TopGet(r, name) == Some(v)
    ensures !TopFits(name, v) ==> r == d
    ensures forall other :: other != name ==> TopGet(r, other) == TopGet(d, other)
  {
    match v
    case Number(x) =>
      if name == "age" then d.(age := x)
      else if name == "height" then d.(height := x)
      else if name == "weight" then d.(weight := x)
      else d
    case Flag(b) =>
      if name == "familyHistory" then d.(familyHistory := b) else d
    case Text(s) =>
      if name == "gender" && GenderFromLabel(s).Some? then d.(gender := GenderFromLabel(s).value)
      else if name == "smoking" && SmokingFromLabel(s).Some? then d.(smoking := SmokingFromLabel(s).value)
      else if name == "alcohol" && AlcoholFromLabel(s).Some? then d.(alcohol := AlcoholFromLabel(s).value)
      else if name == "exercise" && ExerciseFromLabel(s).Some? then d.(exercise := ExerciseFromLabel(s).value)
      else if name == "diet" && DietFromLabel(s).Some? then d.(diet := DietFromLabel(s).value)
      else if name == "mlModel" && ModelFromLabel(s).Some? then d.(mlModel := ModelFromLabel(s).value)
      else d
  }

  /** `{ ...prev.devSettings, [field]: v }` */
  function DevSet(ds: DevSettings, field: string, v: FieldValue): (r: DevSettings)
    ensures DevFits(field, v) ==> DevGet(r, field) == Some(v)
    ensures !DevFits(field, v) ==> r == ds
    ensures forall other :: other != field ==> DevGet(r, other) == DevGet(ds, other)
  {
    match v
    case Number(_) => ds
    case Flag(b) => if field == "debugMode" then ds.(debugMode := b) else ds
    case Text(s) =>
      if field == "dataset" && DatasetFromLabel(s).Some? then ds.(dataset := DatasetFromLabel(s).value)
      else if field == "customContext" then ds.(customContext := s)
      else if field == "customDatasetContent" then ds.(customDatasetContent := s)
      else if field == "customDatasetFileName" then ds.(customDatasetFileName := s)
      else ds
  }

  /** The top-level fields determine the record apart from `devSettings`: two
      records that agree on every one of them and on `devSettings` are equal. So
      "every other field keeps its value" in `TopSet` means the whole record. */
  lemma TopFieldsDetermineRecord(a: UserHealthData, b: UserHealthData)
    requires forall name :: name in TopFields ==> TopGet(a, name) == TopGet(b, name)
    requires a.devSettings == b.devSettings
    ensures a == b
  {
    assert TopGet(a, "age") == TopGet(b, "age");
    assert TopGet(a, "gender") == TopGet(b, "gender");
    assert GenderFromLabel(GenderLabel(a.gender)) == Some(a.gender);
    assert TopGet(a, "height") == TopGet(b, "height");
    assert TopGet(a, "weight") == TopGet(b, "weight");
    assert TopGet(a, "smoking") == TopGet(b, "smoking");
    assert SmokingFromLabel(SmokingLabel(a.smoking)) == Some(a.smoking);
    assert TopGet(a, "alcohol") == TopGet(b, "alcohol");
    assert AlcoholFromLabel(AlcoholLabel(a.alcohol)) == Some(a.alcohol);
    assert TopGet(a, "exercise") == TopGet(b, "exercise");
    assert ExerciseFromLabel(ExerciseLabel(a.exercise)) == Some(a.exercise);
    assert TopGet(a, "diet") == TopGet(b, "diet");
    assert DietFromLabel(DietLabel(a.diet)) == Some(a.diet);
    assert TopGet(a, "familyHistory") == TopGet(b, "familyHistory");
    assert TopGet(a, "mlModel") == TopGet(b, "mlModel");
    assert ModelFromLabel(ModelLabel(a.mlModel)) == Some(a.mlModel);
  }

  /** The same for `devSettings` and its fields. */
  lemma DevFieldsDetermineSettings(a: DevSettings, b: DevSettings)
    requires forall field :: field in DevFields ==> DevGet(a, field) == DevGet(b, field)
    ensures a == b
  {
    assert DevGet(a, "dataset") == DevGet(b, "dataset");
    assert DatasetFromLabel(DatasetLabel(a.dataset)) == Some(a.dataset);
    assert DevGet(a, "customContext") == DevGet(b, "customContext");
    assert DevGet(a, "customDatasetContent") == DevGet(b, "customDatasetContent");
    assert DevGet(a, "customDatasetFileName") == DevGet(b, "customDatasetFileName");
    assert DevGet(a, "debugMode") == DevGet(b, "debugMode");
  }

  // ---------------------------------------------------------------- change events

  const DevPrefix := "devSettings."

  /** Where a change goes: a `devSettings` field, or a top-level field. */
  datatype Target = DevField(field: string) | TopField(name: string)

  /** `name.startsWith('devSettings.')`, then `name.split('.')[1]`: the text after
      the prefix up to the next dot. */
  function Route(name: string): (t: Target)
    ensures t.DevField? <==> StartsWith(name, DevPrefix)
    ensures t.TopField? ==> t.name == name
    ensures t.DevField? ==> '.' !in t.field && DevPrefix + t.field <= name
  {
    if StartsWith(name, DevPrefix) then
      var field := BeforeFirst(name[|DevPrefix|..], '.');
      assert name == DevPrefix + name[|DevPrefix|..];
      DevField(field)
    else TopField(name)
  }

  /** A dotted name routes to the field it names: the text after the prefix, up to
      a further dot if there is one. */
  lemma {:induction false} RouteDotted(field: string, rest: string)
    requires '.' !in field
    requires rest == [] || rest[0] == '.'
    ensures Route(DevPrefix + field + rest) == DevField(field)
  {
    var name := DevPrefix + field + rest;
    assert name[|DevPrefix|..] == field + rest;
    BeforeFirstOfPiece(field, rest, '.');
  }

  lemma {:induction false} BeforeFirstOfPiece(s: string, rest: string, sep: char)
    requires sep !in s
    requires rest == [] || rest[0] == sep
    ensures BeforeFirst(s + rest, sep) == s
    decreases |s|
  {
    if s == [] {
      assert s + rest == rest;
    } else {
      assert (s + rest)[1..] == s[1..] + rest;
      BeforeFirstOfPiece(s[1..], rest, sep);
    }
  }

  /** What kind of input raised the change. */
  datatype InputKind = Checkbox | NumberBox | OtherInput

  /** The parts of a change event `handleChange` reads. */
  datatype ChangeEvent = ChangeEvent(name: string, value: string, kind: InputKind, checked: bool)

  /** The value a dotted name stores: the checkbox state, or the raw text. Nothing
      is parsed as a number, whatever the input. */
  function DevValue(e: ChangeEvent): (v: FieldValue)
    ensures v.Flag? <==> e.kind == Checkbox
    ensures v.Flag? ==> v.b == e.checked
    ensures !v.Number?
    ensures v.Text? ==> v.s == e.value
  {
    if e.kind == Checkbox then Flag(e.checked) else Text(e.value)
  }

  /** The value a top-level name stores: the checkbox state, `parseFloat` of a
      number box's text, or the raw text. */
  function TopValue(e: ChangeEvent, parseFloat: string -> real): (v: FieldValue)
    ensures v.Flag? <==> e.kind == Checkbox
    ensures v.Number? <==> e.kind == NumberBox
    ensures v.Flag? ==> v.b == e.checked
    ensures v.Number? ==> v.x == parseFloat(e.value)
    ensures v.Text? ==> v.s == e.value
  {
    match e.kind
    case Checkbox => Flag(e.checked)
    case NumberBox => Number(parseFloat(e.value))
    case OtherInput => Text(e.value)
  }

  /** `handleChange`. A dotted name changes only that `devSettings` field; any
      other name changes only that top-level field and never `devSettings`. */
  function HandleChange(d: UserHealthData, e: ChangeEvent, parseFloat: string -> real): (r: UserHealthData)
    ensures Route(e.name).DevField? ==>
      && r.devSettings == DevSet(d.devSettings, Route(e.name).field, DevValue(e))
      && forall name :: TopGet(r, name) == TopGet(d, name)
    ensures Route(e.name).TopField? ==>
      && r.devSettings == d.devSettings
      && forall name :: name != e.name ==> TopGet(r, name) == TopGet(d, name)
    ensures Route(e.name).TopField? && TopFits(e.name, TopValue(e, parseFloat)) ==>
      TopGet(r, e.name) == Some(TopValue(e, parseFloat))
  {
    match Route(e.name)
    case DevField(field) =>
      var ds := DevSet(d.devSettings, field, DevValue(e));
      TopGetIgnoresDevSettings(d, ds);
      d.(devSettings := ds)
    case TopField(name) => TopSet(d, name, TopValue(e, parseFloat))
  }

  /** Replacing `devSettings` leaves every top-level field as it was. */
  lemma TopGetIgnoresDevSettings(d: UserHealthData, ds: DevSettings)
    ensures forall name :: TopGet(d.(devSettings := ds), name) == TopGet(d, name)
  {
    forall name ensures TopGet(d.(devSettings := ds), name) == TopGet(d, name) {
    }
  }

  /** Choosing another dataset in the developer options changes the dataset and
      nothing else in the record. */
  lemma SelectDataset(d: UserHealthData, ds: MLDataset, parseFloat: string -> real)
    ensures HandleChange(d, ChangeEvent(DevPrefix + "dataset", DatasetLabel(ds), OtherInput, false), parseFloat)
         == d.(devSettings := d.devSettings.(dataset := ds))
  {
    var e := ChangeEvent(DevPrefix + "dataset", DatasetLabel(ds), OtherInput, false);
    var expected := d.(devSettings := d.devSettings.(dataset := ds));
    RouteDatasetName();
    DatasetValueFits(d.devSettings, ds);
    var r := HandleChange(d, e, parseFloat);
    assert r.devSettings == expected.devSettings;
    TopGetIgnoresDevSettings(d, expected.devSettings);
    TopFieldsDetermineRecord(r, expected);
  }

  lemma RouteDatasetName()
    ensures Route(DevPrefix + "dataset") == DevField("dataset")
  {
    RouteDotted("dataset", []);
    assert DevPrefix + "dataset" + [] == DevPrefix + "dataset";
  }

  /** A dataset's label stored in `dataset` sets that dataset. */
  lemma DatasetValueFits(settings: DevSettings, ds: MLDataset)
    ensures DevSet(settings, "dataset", Text(DatasetLabel(ds))) == settings.(dataset := ds)
  {
    assert DatasetFromLabel(DatasetLabel(ds)) == Some(ds);
  }

  // ---------------------------------------------------------------- uploads

  /** A picked file, with the text the reader produced for it. */
  datatype UploadedFile = UploadedFile(name: string, mimeType: string, content: string)

  const CsvMimeType := "text/csv"
  const CsvSuffix := ".csv"

  /** The upload check: a CSV MIME type or a name ending in `.csv`. It rejects a
      file exactly when both fail. */
  predicate AcceptsUpload(f: UploadedFile)
  {
    f.mimeType == CsvMimeType || EndsWith(f.name, CsvSuffix)
  }

  /** Either test alone lets a file through; the name test looks at the last four
      characters only and is case-sensitive. */
  lemma UploadCheckCases(f: UploadedFile)
    ensures f.mimeType == CsvMimeType ==> AcceptsUpload(f)
    ensures |f.name| >= 4 && f.name[|f.name| - 4..] == CsvSuffix ==> AcceptsUpload(f)
    ensures !AcceptsUpload(f) <==>
      f.mimeType != CsvMimeType && (|f.name| < 4 || f.name[|f.name| - 4..] != CsvSuffix)
  {
  }

  /** A CSV named by its type alone, a `.csv` file of another type, and an
      upper-case `.CSV` file without the CSV type. */
  lemma ScenarioUploadCheck()
    ensures AcceptsUpload(UploadedFile("data.txt", CsvMimeType, ""))
    ensures AcceptsUpload(UploadedFile("data.csv", "application/vnd.ms-excel", ""))
    ensures !AcceptsUpload(UploadedFile("DATA.CSV", "application/vnd.ms-excel", ""))
  {
    assert "DATA.CSV"[4..] != CsvSuffix by {
      assert "DATA.CSV"[5] != CsvSuffix[1];
    }
  }

  /** The `onload` effect on `devSettings`: the custom dataset with the file's text
      and name; the calibration context and debug flag are kept. */
  function Loaded(ds: DevSettings, f: UploadedFile): (r: DevSettings)
    ensures forall field :: field !in {"dataset", "customDatasetContent", "customDatasetFileName"} ==>
      DevGet(r, field) == DevGet(ds, field)
    ensures r.dataset == CustomCsv && r.customDatasetContent == f.content
    ensures r.customDatasetFileName == f.name
  {
    ds.(dataset := CustomCsv, customDatasetContent := f.content, customDatasetFileName := f.name)
  }

  /** After an upload the analysis prompt carries a CSV block exactly when the file
      has text, and that block opens with the file's first characters. */
  lemma UploadReachesPrompt(ds: DevSettings, f: UploadedFile)
    ensures GeminiService.CsvSection(Loaded(ds, f)) != [] <==> f.content != []
    ensures f.content != [] ==>
      GeminiService.CsvSection(Loaded(ds, f))
        == GeminiService.CsvOpen + GeminiService.CsvPayload(f.content)
           + GeminiService.TruncationNotice + GeminiService.CsvClose
    ensures GeminiService.DatasetLine(Loaded(ds, f)) == GeminiService.CustomDatasetName
  {
  }

  // ---------------------------------------------------------------- steps

  const LastStep := 3

  /** `Math.min(prev + 1, 3)` */
  function NextStep(step: int): (r: int)
    ensures 1 <= step <= LastStep ==> 1 <= r <= LastStep
    ensures step < LastStep ==> r == step + 1
    ensures step >= LastStep ==> r == LastStep
  {
    Min(step + 1, LastStep)
  }

  /** `Math.max(prev - 1, 1)` */
  function PrevStep(step: int): (r: int)
    ensures 1 <= step <= LastStep ==> 1 <= r <= LastStep
    ensures step > 1 ==> r == step - 1
    ensures step <= 1 ==> r == 1
  {
    if step - 1 >= 1 then step - 1 else 1
  }

  /** Back undoes next below the last step, and next undoes back above the first. */
  lemma StepsUndo(step: int)
    ensures 1 <= step < LastStep ==> PrevStep(NextStep(step)) == step
    ensures 1 < step <= LastStep ==> NextStep(PrevStep(step)) == step
  {
  }

  /** The buttons under the form. `submitDisabled` only matters when the submit
      button is shown. */
  datatype Controls = Controls(showPrevious: bool, showContinue: bool, showSubmit: bool, submitDisabled: bool)

  function ControlsAt(step: int, isLoading: bool): (c: Controls)
    ensures c.showPrevious <==> step > 1
    ensures c.showSubmit <==> !c.showContinue
    ensures 1 <= step <= LastStep ==> (c.showSubmit <==> step == LastStep)
    ensures c.showSubmit ==> (c.submitDisabled <==> isLoading)
  {
    Controls(step > 1, step < LastStep, !(step < LastStep), isLoading)
  }

  // ---------------------------------------------------------------- the component

  class FormState {
    var step: int
    var showDevOptions: bool
    var formData: UserHealthData

    ghost predicate Valid()
      reads this
    {
      1 <= step <= LastStep
    }

    constructor ()
      ensures Valid() && step == 1 && !showDevOptions && formData == InitialForm
      ensures formData.age == 30.0 && formData.height == 175.0 && formData.weight == 70.0
      ensures formData.mlModel == RandomForest && formData.devSettings.dataset == Nhanes2024
      ensures formData.devSettings.customContext == [] && formData.devSettings.customDatasetContent == []
      ensures formData.devSettings.customDatasetFileName == []
    {
      step := 1;
      showDevOptions := false;
      formData := InitialForm;
    }

    /** `handleNext` */
    method Next()
      requires Valid()
      modifies this`step
      ensures Valid() && step == NextStep(old(step))
    {
      step := NextStep(step);
    }

    /** `handleBack` */
    method Back()
      requires Valid()
      modifies this`step
      ensures Valid() && step == PrevStep(old(step))
    {
      step := PrevStep(step);
    }

    /** The step tabs: there are exactly three of them. */
    method SelectTab(s: int)
      requires Valid()
      requires 1 <= s <= LastStep
      modifies this`step
      ensures Valid() && step == s
    {
      step := s;
    }

    /** The developer-settings disclosure. */
    method ToggleDevOptions()
      requires Valid()
      modifies this`showDevOptions
      ensures Valid() && showDevOptions == !old(showDevOptions)
    {
      showDevOptions := !showDevOptions;
    }

    /** An input's `onChange`. */
    method Change(e: ChangeEvent, parseFloat: string -> real)
      requires Valid()
      modifies this`formData
      ensures Valid() && formData == HandleChange(old(formData), e, parseFloat)
    {
      formData := HandleChange(formData, e, parseFloat);
    }

    /** `handleFileUpload` followed by the reader's `onload`: no file does nothing;
        a file that is not CSV raises the alert and changes nothing; a CSV file
        replaces the dataset settings as `Loaded` says. */
    method Upload(file: Option<UploadedFile>) returns (alerted: bool)
      requires Valid()
      modifies this`formData
      ensures Valid()
      ensures alerted <==> file.Some? && !AcceptsUpload(file.value)
      ensures file.Some? && AcceptsUpload(file.value) ==>
        formData == old(formData).(devSettings := Loaded(old(formData).devSettings, file.value))
      ensures !(file.Some? && AcceptsUpload(file.value)) ==> formData == old(formData)
    {
      alerted := false;
      if file.Some? {
        if !AcceptsUpload(file.value) {
          alerted := true;
          return;
        }
        formData := formData.(devSettings := Loaded(formData.devSettings, file.value));
      }
    }

    /** `handleSubmit`: the record as it stands goes to the app. */
    method Submit() returns (data: UserHealthData)
      requires Valid()
      ensures data == formData
    {
      data := formData;
    }
  }
}
