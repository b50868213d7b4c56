# Employee-attrition prediction: feature-row construction

This project models the one piece of logic in a small attrition-prediction
demo. A web form collects nine employee attributes. The function
`predict_attrition` turns them into a one-row table with the fifteen columns
the trained random-forest classifier expects, asks the classifier for a
prediction, and maps the answer to one of two display strings.

The model has three modules:

- `Features` (`features.dfy`): the fixed list `model_features` of fifteen
  column names. Each column is a value of the enumeration `Column`, and
  `Position(c)` is its slot. The lemmas show that the names are pairwise
  distinct and that positions and columns are in bijection. They also show
  that looking a column's name up in the list (what writing `sample['Age']`
  does) reaches exactly one slot: that column's position.
- `Encoder` (`encoder.dfy`): the nine inputs as a record `Form`.
  - `Value(f, c)` is the value written into column `c`: one of the seven
    numeric inputs copied unchanged, a 0/1 flag from an exact string match
    (`OneHot`), or one of the six fixed constants.
  - `FeatureRow` is the finished row, given column by column.
  - `WrittenRow` replays the code's fifteen overwrites of an all-zero row; a
    lemma proves the two rows are equal.
  - `BuildSample` fills an `array<real>` in place, one write per statement as
    the code does, and is proved to produce `FeatureRow`.
  - Lemmas state the pass-through, flag, constant and "each input affects
    only its own slot" properties.
- `Prediction` (`prediction.dfy`): the classifier is an opaque function
  `seq<real> -> int` passed in as a parameter. `Interpret` maps 1 to
  `"Yes (ลาออก)"` and every other answer to `"No (ไม่ลาออก)"`.
  `PredictAttrition` builds the row, scores it and returns the string.

What the code does not do, and the model therefore does not do either:

- The code does not rescale or clamp the monthly income; it stores the value
  exactly as entered (`app.py:22`). `NumericPassThrough` and `ExampleRow`
  state this: in the example, an income of 55000 stays 55000.
- The code has no label-to-number lookup tables and no unknown-category
  error. Satisfaction and job level come from integer sliders and are stored
  directly (`app.py:25-27`), so there is no error path to model.
- The code has no model-unavailable path: `predict_attrition` calls the
  loaded classifier unconditionally (`app.py:37`).
- The two job-role columns are spelled with a space,
  `JobRole_Laboratory Technician` and `JobRole_Healthcare Representative`
  (`app.py:9-10`), and the model uses these spellings.

Numbers: the slider inputs (age, years at company, years in current role,
the two satisfaction levels, job level) are `int`, since the sliders step by
1. The monthly income is `real`, since the number field is not restricted to
whole numbers. Row slots are `real`.

## Model

| member | source | states |
|---|---|---|
| `Features.Position` | app.py:7-13 | every column has a slot below 15, the width of the row |
| `Features.PositionNamed` | app.py:7-13 | the list has 15 names, and the name at a column's slot is that column's training name |
| `Features.ModelFeaturesDistinct` | app.py:7-13 | the 15 column names are pairwise distinct |
| `Features.ColumnAt` | app.py:7-13 | every slot 0..14 belongs to a column whose position is that slot |
| `Features.PositionInjective` | app.py:7-13 | different columns have different slots and different names |
| `Features.PositionBijective` | app.py:7-13 | a column sits at slot k exactly when it is the column stored at slot k |
| `Features.IndexOf` | app.py:18-35 | name lookup in a column list: None exactly when the name is absent, otherwise a position holding the name with no earlier occurrence |
| `Features.IndexOfDistinct` | app.py:18-35 | in a list without repeats, looking up the element at k gives k |
| `Features.NameSelectsPosition` | app.py:18-35 | writing a column by name reaches exactly one slot, the column's position; no other slot carries that name |
| `Encoder.OneHot` | app.py:21 | the flag is 0 or 1, and it is 1 exactly when the value equals the category string |
| `Encoder.FeatureRow` | app.py:18-35 | the row has 15 slots, and the slot of every column holds that column's value |
| `Encoder.WrittenRow` | app.py:18-35 | the zero row overwritten column by column in the code's order; 15 slots |
| `Encoder.WrittenColumn` | app.py:18-35 | after the fifteen overwrites of the zero row, each column's slot holds its own value, whatever was written earlier |
| `Encoder.WrittenRowIsFeatureRow` | app.py:18-35 | the sequence of overwrites yields exactly the column-by-column row: every slot is written and no stray zero survives |
| `Encoder.BuildSample` | app.py:18-35 | a fresh 15-slot array, zero-filled and then written one column per statement, ends up holding exactly `FeatureRow(f)` |
| `Encoder.Target` | app.py:20-28 | each of the nine inputs feeds one column, and no other column is fed from it |
| `Encoder.ValueDependsOnFeeder` | app.py:20-35 | a column's value depends only on its own input, and a pinned column's value on no input at all |
| `Encoder.OnlyOwnSlot` | app.py:18-35 | changing one input while holding the other eight fixed leaves the other 14 slots identical |
| `Encoder.NumericPassThrough` | app.py:20-27 | age, environment satisfaction, job level, monthly income, years at company, job satisfaction and years in current role reach slots 1, 2, 3, 5, 6, 7 and 12 unchanged, with no scaling or clamping, for every value |
| `Encoder.PassThroughDistinguishes` | app.py:20-27 | for a numeric input, two forms agree on it exactly when their rows agree in its slot |
| `Encoder.OvertimeFlag` | app.py:21 | slot 13 is 1 exactly when overtime is "Yes"; "No" and every other string give 0 |
| `Encoder.TravelFlag` | app.py:28 | slot 10 is 1 exactly when business travel is "Travel_Frequently"; "Non-Travel", "Travel_Rarely" and every other string give 0 |
| `Encoder.PinnedColumns` | app.py:30-35 | slots 0, 4, 8, 9, 11 and 14 hold 0, 0, 0, 0, 10 and 500 for every form, and the constant columns never differ between two forms |
| `Encoder.ExampleRow` | app.py:18-35 | age 30, overtime "No", income 55000, 5 years, 3 years, satisfaction 3 and 2, level 2, "Travel_Rarely" give the row [0, 30, 2, 2, 0, 55000, 5, 3, 0, 0, 0, 10, 3, 0, 500] |
| `Prediction.Interpret` | app.py:38 | the answer is one of the two display strings, and it is the "Yes" string exactly when the classifier returned 1 |
| `Prediction.PredictAttrition` | app.py:15-38 | the result is the display string for the classifier's answer on `FeatureRow(f)`; it is "Yes (ลาออก)" exactly when that answer is 1. The result is a function of the form and the classifier alone, so identical inputs give identical results |
| `Prediction.UnmatchedChoicesIndistinguishable` | app.py:20-38 | forms that differ only in category strings that fail to match their flag (such as "Non-Travel" and "Travel_Rarely") give the same row and the same answer |
| `Prediction.RowSeparatesForms` | app.py:20-28 | equal rows imply equal numeric inputs and the same match or mismatch of both category flags |

## Left out

- Loading the classifier from its file with `joblib` (`app.py:5`) is file I/O and deserialisation. It is not modelled.
- The random-forest classifier is opaque library code. It is the parameter `classify: seq<real> -> int`, which returns the prediction for the single row (the `[0]` of `predict(sample)[0]`). The model assumes the labels are integers. A float label 1.0 or a bool `True` would still equal 1; string labels would never equal it.
- The pandas DataFrame is replaced by a fixed 15-slot array indexed by `Position`. The model does not cover dtype changes, the index, or pandas adding a new column when an unknown name is written. Every name the code writes is in the list (`NameSelectsPosition`), so that last case cannot happen.
- The Gradio user interface and its launch (`app.py:40-70`) are not modelled. The core does not check the slider bounds (18-60, 0-40, 0-20, 1-4, 1-5) or the `minimum=0` on income, so the model does not assume them: every lemma holds for all values.
- `None` inputs are not modelled. An unselected dropdown passes `None` instead of a string; it would compare unequal to "Yes" and "Travel_Frequently", like any other non-matching string. An empty number field (`app.py:46`) may pass `None` as the monthly income, which the `real` field of `Form` cannot hold; the code would then store a missing value in the row.
- Floating-point behaviour of slider and number values is not modelled. Slider values are `int` and the income is an exact `real`.
- An exception raised while the classifier runs simply propagates out of `predict_attrition`; the model does not cover it.

## Findings

No discrepancy in the code was found.
