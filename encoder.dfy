/**
 Construction of the classifier's feature row from the nine form inputs.

 The row starts as fifteen zeros in the column order of `ModelFeatures` and
 is then overwritten one column per statement: seven numeric inputs are
 stored exactly as given (no scaling, no clamping, no lookup table), the
 overtime and business-travel choices become 0/1 flags by exact string
 match, and the six columns the form does not expose are pinned to fixed
 constants.  `FeatureRow` states the finished row column by column,
 `WrittenRow` replays the code's sequence of overwrites, a lemma shows the
 two agree, and `BuildSample` is the in-place construction proved against
 them.
 */
module Encoder {
  import opened Features

  /** The nine form inputs, in the order the prediction function receives them. */
  datatype Form = Form(
    age: int,
    overtime: string,
    monthlyIncome: real,
    yearsAtCompany: int,
    yearsInCurrentRole: int,
    jobSatisfaction: int,
    envSatisfaction: int,
    jobLevel: int,
    businessTravel: string)

  /** Names for the nine inputs, one per field of `Form`. */
  datatype Input =
    | AgeInput
    | OvertimeInput
    | MonthlyIncomeInput
    | YearsAtCompanyInput
    | YearsInCurrentRoleInput
    | JobSatisfactionInput
    | EnvSatisfactionInput
    | JobLevelInput
    | BusinessTravelInput

  /** The overtime choice that sets the `OverTime_Yes` flag. */
  const OvertimeYes: string := "Yes"

  /** The business-travel choice that sets the `BusinessTravel_Travel_Frequently` flag. */
  const TravelFrequently: string := "Travel_Frequently"

  /** The choices the form's business-travel dropdown offers. */
  const TravelChoices: seq<string> := ["Non-Travel", "Travel_Rarely", "Travel_Frequently"]

  /** A 0/1 flag that is set exactly when `value` is the string `category`; anything else clears it. */
  function OneHot(value: string, category: string): (r: real)
    ensures r == 0.0 || r == 1.0
    ensures r == 1.0 <==> value == category
  {
    if value == category then 1.0 else 0.0
  }

  /** The value the prediction code writes into column `c` for form `f`. */
  function Value(f: Form, c: Column): real
  {
    match c
    case Age => f.age as real
    case OverTimeYes => OneHot(f.overtime, OvertimeYes)
    case MonthlyIncome => f.monthlyIncome
    case YearsAtCompany => f.yearsAtCompany as real
    case YearsInCurrentRole => f.yearsInCurrentRole as real
    case JobSatisfaction => f.jobSatisfaction as real
    case EnvironmentSatisfaction => f.envSatisfaction as real
    case JobLevel => f.jobLevel as real
    case BusinessTravelTravelFrequently => OneHot(f.businessTravel, TravelFrequently)
    case StockOptionLevel => 0.0
    case YearsSinceLastPromotion => 0.0
    case PercentSalaryHike => 10.0
    case DailyRate => 500.0
    case JobRoleLaboratoryTechnician => 0.0
    case JobRoleHealthcareRepresentative => 0.0
  }

  /** The freshly allocated frame: one zero per column of `ModelFeatures`. */
  const ZeroRow: seq<real> := [0.0, 0.0, 0.0, 0.0, 0.0, 0.0, 0.0, 0.0, 0.0, 0.0, 0.0, 0.0, 0.0, 0.0, 0.0]

  /**
   The finished feature row, column by column: fifteen slots in the order of
   `ModelFeatures`, and the slot of every column holds that column's value.
   */
  function FeatureRow(f: Form): (row: seq<real>)
    ensures |row| == Width
    ensures forall c :: row[Position(c)] == Value(f, c)
  {
    seq(Width, k requires 0 <= k < Width => Value(f, ColumnAt(k)))
  }

  /**
   The row as the prediction code produces it: the zero row, overwritten one
   column at a time in the order the code writes the columns.
   */
  function WrittenRow(f: Form): (row: seq<real>)
    ensures |row| == Width
  {
    ZeroRow
      [Position(Age) := f.age as real]
      [Position(OverTimeYes) := OneHot(f.overtime, OvertimeYes)]
      [Position(MonthlyIncome) := f.monthlyIncome]
      [Position(YearsAtCompany) := f.yearsAtCompany as real]
      [Position(YearsInCurrentRole) := f.yearsInCurrentRole as real]
      [Position(JobSatisfaction) := f.jobSatisfaction as real]
      [Position(EnvironmentSatisfaction) := f.envSatisfaction as real]
      [Position(JobLevel) := f.jobLevel as real]
      [Position(BusinessTravelTravelFrequently) := OneHot(f.businessTravel, TravelFrequently)]
      [Position(StockOptionLevel) := 0.0]
      [Position(YearsSinceLastPromotion) := 0.0]
      [Position(PercentSalaryHike) := 10.0]
      [Position(DailyRate) := 500.0]
      [Position(JobRoleLaboratoryTechnician) := 0.0]
      [Position(JobRoleHealthcareRepresentative) := 0.0]
  }

  /** After all fifteen writes, the slot of column `c` holds that column's value. */
  lemma WrittenColumn(f: Form, c: Column)
    ensures WrittenRow(f)[Position(c)] == Value(f, c)
  {
    match c
    case StockOptionLevel =>
    case Age =>
    case EnvironmentSatisfaction =>
    case JobLevel =>
    case JobRoleLaboratoryTechnician =>
    case MonthlyIncome =>
    case YearsAtCompany =>
    case JobSatisfaction =>
    case YearsSinceLastPromotion =>
    case JobRoleHealthcareRepresentative =>
    case BusinessTravelTravelFrequently =>
    case PercentSalaryHike =>
    case YearsInCurrentRole =>
    case OverTimeYes =>
    case DailyRate =>
  }

  /**
   The writes cover every column and leave no initial zero that is not a
   column's own value: the written row is exactly the column-by-column row.
   */
  lemma WrittenRowIsFeatureRow(f: Form)
    ensures WrittenRow(f) == FeatureRow(f)
  {
    forall k | 0 <= k < Width
      ensures WrittenRow(f)[k] == FeatureRow(f)[k]
    {
      WrittenColumn(f, ColumnAt(k));
    }
  }

  /**
   Builds the row in place: a zero-filled array in the training column order,
   then one write per column, in the order the prediction code writes them.
   */
  method BuildSample(f: Form) returns (sample: array<real>)
    ensures fresh(sample)
    ensures sample.Length == Width
    ensures sample[..] == FeatureRow(f)
  {
    sample := new real[Width] [0.0, 0.0, 0.0, 0.0, 0.0, 0.0, 0.0, 0.0, 0.0, 0.0, 0.0, 0.0, 0.0, 0.0, 0.0];
    assert sample[..] == ZeroRow;

    sample[Position(Age)] := f.age as real;
    sample[Position(OverTimeYes)] := OneHot(f.overtime, OvertimeYes);
    sample[Position(MonthlyIncome)] := f.monthlyIncome;
    sample[Position(YearsAtCompany)] := f.yearsAtCompany as real;
    sample[Position(YearsInCurrentRole)] := f.yearsInCurrentRole as real;
    sample[Position(JobSatisfaction)] := f.jobSatisfaction as real;
    sample[Position(EnvironmentSatisfaction)] := f.envSatisfaction as real;
    sample[Position(JobLevel)] := f.jobLevel as real;
    sample[Position(BusinessTravelTravelFrequently)] := OneHot(f.businessTravel, TravelFrequently);

    sample[Position(StockOptionLevel)] := 0.0;
    sample[Position(YearsSinceLastPromotion)] := 0.0;
    sample[Position(PercentSalaryHike)] := 10.0;
    sample[Position(DailyRate)] := 500.0;
    sample[Position(JobRoleLaboratoryTechnician)] := 0.0;
    sample[Position(JobRoleHealthcareRepresentative)] := 0.0;

    assert sample[..] == WrittenRow(f);
    WrittenRowIsFeatureRow(f);
  }

  /** The input that column `c` is fed from, or None for a column pinned to a constant. */
  function Feeder(c: Column): Option<Input>
  {
    match c
    case Age => Some(AgeInput)
    case OverTimeYes => Some(OvertimeInput)
    case MonthlyIncome => Some(MonthlyIncomeInput)
    case YearsAtCompany => Some(YearsAtCompanyInput)
    case YearsInCurrentRole => Some(YearsInCurrentRoleInput)
    case JobSatisfaction => Some(JobSatisfactionInput)
    case EnvironmentSatisfaction => Some(EnvSatisfactionInput)
    case JobLevel => Some(JobLevelInput)
    case BusinessTravelTravelFrequently => Some(BusinessTravelInput)
    case _ => None
  }

  /** The column input `i` is written to; each input feeds exactly this one column. */
  function Target(i: Input): (c: Column)
    ensures Feeder(c) == Some(i)
    ensures forall d :: Feeder(d) == Some(i) ==> d == c
  {
    match i
    case AgeInput => Age
    case OvertimeInput => OverTimeYes
    case MonthlyIncomeInput => MonthlyIncome
    case YearsAtCompanyInput => YearsAtCompany
    case YearsInCurrentRoleInput => YearsInCurrentRole
    case JobSatisfactionInput => JobSatisfaction
    case EnvSatisfactionInput => EnvironmentSatisfaction
    case JobLevelInput => JobLevel
    case BusinessTravelInput => BusinessTravelTravelFrequently
  }

  /** Forms `f` and `g` carry the same value for input `i`. */
  predicate AgreeOn(f: Form, g: Form, i: Input)
  {
    match i
    case AgeInput => f.age == g.age
    case OvertimeInput => f.overtime == g.overtime
    case MonthlyIncomeInput => f.monthlyIncome == g.monthlyIncome
    case YearsAtCompanyInput => f.yearsAtCompany == g.yearsAtCompany
    case YearsInCurrentRoleInput => f.yearsInCurrentRole == g.yearsInCurrentRole
    case JobSatisfactionInput => f.jobSatisfaction == g.jobSatisfaction
    case EnvSatisfactionInput => f.envSatisfaction == g.envSatisfaction
    case JobLevelInput => f.jobLevel == g.jobLevel
    case BusinessTravelInput => f.businessTravel == g.businessTravel
  }

  /** The inputs whose value is stored in the row unchanged. */
  predicate PassedThrough(i: Input)
  {
    i != OvertimeInput && i != BusinessTravelInput
  }

  /** A column's value is determined by its feeding input alone; a pinned column by nothing. */
  lemma ValueDependsOnFeeder(f: Form, g: Form, c: Column)
    requires Feeder(c).None? || AgreeOn(f, g, Feeder(c).value)
    ensures Value(f, c) == Value(g, c)
  {
  }

  /**
   Changing one input while holding the other eight fixed leaves the other
   fourteen slots of the row unchanged.
   */
  lemma OnlyOwnSlot(f: Form, g: Form, i: Input)
    requires forall j :: j != i ==> AgreeOn(f, g, j)
    ensures forall k :: 0 <= k < Width && k != Position(Target(i)) ==> FeatureRow(f)[k] == FeatureRow(g)[k]
  {
    forall k | 0 <= k < Width && k != Position(Target(i))
      ensures FeatureRow(f)[k] == FeatureRow(g)[k]
    {
      var c := ColumnAt(k);
      if Feeder(c).Some? {
        assert Feeder(c).value != i;
        assert AgreeOn(f, g, Feeder(c).value);
      }
      ValueDependsOnFeeder(f, g, c);
    }
  }

  /**
   A numeric input reaches its slot unchanged, whatever its value: no
   scaling, no clamping and no lookup table stands between form and row.
   */
  lemma NumericPassThrough(f: Form)
    ensures FeatureRow(f)[1] == f.age as real
    ensures FeatureRow(f)[2] == f.envSatisfaction as real
    ensures FeatureRow(f)[3] == f.jobLevel as real
    ensures FeatureRow(f)[5] == f.monthlyIncome
    ensures FeatureRow(f)[6] == f.yearsAtCompany as real
    ensures FeatureRow(f)[7] == f.jobSatisfaction as real
    ensures FeatureRow(f)[12] == f.yearsInCurrentRole as real
  {
  }

  /**
   Two forms that differ in a passed-through input give rows that differ in
   that input's slot, so the slot is a faithful copy and nothing is merged.
   */
  lemma PassThroughDistinguishes(f: Form, g: Form, i: Input)
    requires PassedThrough(i)
    ensures AgreeOn(f, g, i) <==> FeatureRow(f)[Position(Target(i))] == FeatureRow(g)[Position(Target(i))]
  {
  }

  /**
   Slot 13 (OverTime_Yes) is 1 exactly when the overtime choice is "Yes";
   "No" and every other string give 0.
   */
  lemma OvertimeFlag(f: Form)
    ensures FeatureRow(f)[13] == 1.0 <==> f.overtime == "Yes"
    ensures f.overtime != "Yes" ==> FeatureRow(f)[13] == 0.0
    ensures f.overtime == "No" ==> FeatureRow(f)[13] == 0.0
  {
  }

  /**
   Slot 10 (BusinessTravel_Travel_Frequently) is 1 exactly when the travel
   choice is "Travel_Frequently"; the two other dropdown choices give 0.
   */
  lemma TravelFlag(f: Form)
    ensures FeatureRow(f)[10] == 1.0 <==> f.businessTravel == "Travel_Frequently"
    ensures f.businessTravel != "Travel_Frequently" ==> FeatureRow(f)[10] == 0.0
    ensures f.businessTravel in TravelChoices[..2] ==> FeatureRow(f)[10] == 0.0
  {
  }

  /** The six columns the form does not expose hold the same constants for every form. */
  lemma PinnedColumns(f: Form, g: Form)
    ensures FeatureRow(f)[0] == 0.0    // StockOptionLevel
    ensures FeatureRow(f)[4] == 0.0    // JobRole_Laboratory Technician
    ensures FeatureRow(f)[8] == 0.0    // YearsSinceLastPromotion
    ensures FeatureRow(f)[9] == 0.0    // JobRole_Healthcare Representative
    ensures FeatureRow(f)[11] == 10.0  // PercentSalaryHike
    ensures FeatureRow(f)[14] == 500.0 // DailyRate
    ensures forall c :: Feeder(c).None? ==> FeatureRow(f)[Position(c)] == FeatureRow(g)[Position(c)]
  {
  }

  /**
   A complete row for one concrete form: the monthly income of 55000 is
   stored as 55000, and "Travel_Rarely" leaves the travel flag at 0.
   */
  lemma ExampleRow()
    ensures FeatureRow(Form(30, "No", 55000.0, 5, 3, 3, 2, 2, "Travel_Rarely")) ==
            [0.0, 30.0, 2.0, 2.0, 0.0, 55000.0, 5.0, 3.0, 0.0, 0.0, 0.0, 10.0, 3.0, 0.0, 500.0]
  {
  }
}
