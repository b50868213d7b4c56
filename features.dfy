/**
 The column layout the attrition classifier was trained on: fifteen named
 columns in a fixed order.  The prediction code allocates a one-row frame
 whose columns follow `ModelFeatures` and then writes each column by name;
 here a column is a value of the enumeration `Column`, and its place in the
 row is `Position(c)`.  The lemmas tie the two views together: the names are
 pairwise distinct, positions and columns are in bijection, and looking a
 column's name up in `ModelFeatures` lands at exactly that column's position.
 */
module Features {

  datatype Option<T> = None | Some(value: T)

  /** Column names of the training frame, in training order. */
  const ModelFeatures: seq<string> := [
    "StockOptionLevel", "Age", "EnvironmentSatisfaction", "JobLevel",
    "JobRole_Laboratory Technician", "MonthlyIncome", "YearsAtCompany",
    "JobSatisfaction", "YearsSinceLastPromotion", "JobRole_Healthcare Representative",
    "BusinessTravel_Travel_Frequently", "PercentSalaryHike", "YearsInCurrentRole",
    "OverTime_Yes", "DailyRate"
  ]

  /** Number of slots in a feature row. */
  const Width: nat := 15

  /** The fifteen columns of the feature row. */
  datatype Column =
    | StockOptionLevel
    | Age
    | EnvironmentSatisfaction
    | JobLevel
    | JobRoleLaboratoryTechnician
    | MonthlyIncome
    | YearsAtCompany
    | JobSatisfaction
    | YearsSinceLastPromotion
    | JobRoleHealthcareRepresentative
    | BusinessTravelTravelFrequently
    | PercentSalaryHike
    | YearsInCurrentRole
    | OverTimeYes
    | DailyRate

  /** The column's name in the training frame, spelled as the frame spells it. */
  function Name(c: Column): string
  {
    match c
    case StockOptionLevel => "StockOptionLevel"
    case Age => "Age"
    case EnvironmentSatisfaction => "EnvironmentSatisfaction"
    case JobLevel => "JobLevel"
    case JobRoleLaboratoryTechnician => "JobRole_Laboratory Technician"
    case MonthlyIncome => "MonthlyIncome"
    case YearsAtCompany => "YearsAtCompany"
    case JobSatisfaction => "JobSatisfaction"
    case YearsSinceLastPromotion => "YearsSinceLastPromotion"
    case JobRoleHealthcareRepresentative => "JobRole_Healthcare Representative"
    case BusinessTravelTravelFrequently => "BusinessTravel_Travel_Frequently"
    case PercentSalaryHike => "PercentSalaryHike"
    case YearsInCurrentRole => "YearsInCurrentRole"
    case OverTimeYes => "OverTime_Yes"
    case DailyRate => "DailyRate"
  }

  /** The slot of column `c` in a feature row: the slot whose training name is `Name(c)`. */
  function Position(c: Column): (k: nat)
    ensures k < Width
  {
    match c
    case StockOptionLevel => 0
    case Age => 1
    case EnvironmentSatisfaction => 2
    case JobLevel => 3
    case JobRoleLaboratoryTechnician => 4
    case MonthlyIncome => 5
    case YearsAtCompany => 6
    case JobSatisfaction => 7
    case YearsSinceLastPromotion => 8
    case JobRoleHealthcareRepresentative => 9
    case BusinessTravelTravelFrequently => 10
    case PercentSalaryHike => 11
    case YearsInCurrentRole => 12
    case OverTimeYes => 13
    case DailyRate => 14
  }

  /** The column stored in slot `k`; the inverse of `Position`. */
  function ColumnAt(k: nat): (c: Column)
    requires k < Width
    ensures Position(c) == k
  {
    if k == 0 then StockOptionLevel
    else if k == 1 then Age
    else if k == 2 then EnvironmentSatisfaction
    else if k == 3 then JobLevel
    else if k == 4 then JobRoleLaboratoryTechnician
    else if k == 5 then MonthlyIncome
    else if k == 6 then YearsAtCompany
    else if k == 7 then JobSatisfaction
    else if k == 8 then YearsSinceLastPromotion
    else if k == 9 then JobRoleHealthcareRepresentative
    else if k == 10 then BusinessTravelTravelFrequently
    else if k == 11 then PercentSalaryHike
    else if k == 12 then YearsInCurrentRole
    else if k == 13 then OverTimeYes
    else DailyRate
  }

  /** The slot of column `c` is the slot the training frame names `Name(c)`. */
  lemma PositionNamed(c: Column)
    ensures |ModelFeatures| == Width
    ensures ModelFeatures[Position(c)] == Name(c)
  {
  }

  /** Every element of `s` occurs in it once. */
  predicate Distinct(s: seq<string>)
  {
    forall i, j :: 0 <= i < j < |s| ==> s[i] != s[j]
  }

  /** The first position of `name` in `s`, or None when `name` is not a column of `s`. */
  function IndexOf(s: seq<string>, name: string): (r: Option<nat>)
    ensures r.None? <==> name !in s
    ensures r.Some? ==> r.value < |s| && s[r.value] == name && name !in s[..r.value]
  {
    if |s| == 0 then None
    else if s[0] == name then Some(0)
    else
      match IndexOf(s[1..], name)
      case None => None
      case Some(k) => Some(k + 1)
  }

  /** The training frame has no repeated column name. */
  lemma ModelFeaturesDistinct()
    ensures |ModelFeatures| == Width
    ensures Distinct(ModelFeatures)
  {
  }

  /** In a sequence without repeats, the first position of an element is its only position. */
  lemma IndexOfDistinct(s: seq<string>, k: nat)
    requires Distinct(s)
    requires k < |s|
    ensures IndexOf(s, s[k]) == Some(k)
  {
    var r := IndexOf(s, s[k]);
    assert s[r.value] == s[k];
  }

  /**
   Writing a column of the frame by name reaches exactly one slot: the name of
   `c` occurs in the training frame only at `Position(c)`.
   */
  lemma NameSelectsPosition(c: Column)
    ensures IndexOf(ModelFeatures, Name(c)) == Some(Position(c))
    ensures forall k :: 0 <= k < Width && ModelFeatures[k] == Name(c) ==> k == Position(c)
  {
    ModelFeaturesDistinct();
    PositionNamed(c);
    IndexOfDistinct(ModelFeatures, Position(c));
  }

  /** Different columns have different names and different slots. */
  lemma PositionInjective(c: Column, d: Column)
    requires c != d
    ensures Position(c) != Position(d)
    ensures Name(c) != Name(d)
  {
    ModelFeaturesDistinct();
    PositionNamed(c);
    PositionNamed(d);
  }

  /** Every slot of the row belongs to exactly one column. */
  lemma PositionBijective(c: Column, k: nat)
    requires k < Width
    ensures Position(c) == k <==> c == ColumnAt(k)
  {
    if c != ColumnAt(k) {
      PositionInjective(c, ColumnAt(k));
    }
  }
}
