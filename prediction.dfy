/**
 The prediction step: the finished feature row goes to the trained
 classifier, and the classifier's answer becomes one of two display
 strings.  The classifier is an opaque function of the row, passed in as a
 parameter.
 */
module Prediction {
  import opened Features
  import opened Encoder

  /** Shown when the classifier predicts that the employee leaves. */
  const LeaveLabel: string := "Yes (ลาออก)"

  /** Shown for every other answer of the classifier. */
  const StayLabel: string := "No (ไม่ลาออก)"

  /** The display string for a classifier answer: 1 means "leaves", anything else "stays". */
  function Interpret(pred: int): (s: string)
    ensures s == LeaveLabel || s == StayLabel
    ensures s == LeaveLabel <==> pred == 1
    ensures s == StayLabel <==> pred != 1
  {
    if pred == 1 then LeaveLabel else StayLabel
  }

  /** The answer the prediction gives for form `f` under classifier `classify`. */
  function Verdict(f: Form, classify: seq<real> -> int): string
  {
    Interpret(classify(FeatureRow(f)))
  }

  /**
   Builds the row in place, scores it and maps the score to its display
   string.  The result depends on nothing but the form and the classifier.
   */
  method PredictAttrition(f: Form, classify: seq<real> -> int) returns (result: string)
    ensures result == Verdict(f, classify)
    ensures result == LeaveLabel <==> classify(FeatureRow(f)) == 1
    ensures result == StayLabel <==> classify(FeatureRow(f)) != 1
  {
    var sample := BuildSample(f);
    var pred := classify(sample[..]);
    result := Interpret(pred);
  }

  /**
   The classifier cannot tell apart two forms that differ only in category
   choices neither of which matches its flag: "Non-Travel" and
   "Travel_Rarely" give the same answer, and so do "No" and any
   unrecognised overtime string.
   */
  lemma UnmatchedChoicesIndistinguishable(f: Form, g: Form, classify: seq<real> -> int)
    requires forall j :: j != OvertimeInput && j != BusinessTravelInput ==> AgreeOn(f, g, j)
    requires (f.overtime == OvertimeYes) == (g.overtime == OvertimeYes)
    requires (f.businessTravel == TravelFrequently) == (g.businessTravel == TravelFrequently)
    ensures FeatureRow(f) == FeatureRow(g)
    ensures Verdict(f, classify) == Verdict(g, classify)
  {
    forall k | 0 <= k < Width
      ensures FeatureRow(f)[k] == FeatureRow(g)[k]
    {
      var c := ColumnAt(k);
      if Feeder(c).Some? && Feeder(c).value != OvertimeInput && Feeder(c).value != BusinessTravelInput {
        assert AgreeOn(f, g, Feeder(c).value);
      }
    }
  }

  /**
   Conversely, forms that differ in a passed-through input, or in whether a
   category choice matches its flag, give different rows, so the classifier
   sees every such difference.
   */
  lemma RowSeparatesForms(f: Form, g: Form)
    requires FeatureRow(f) == FeatureRow(g)
    ensures forall j :: PassedThrough(j) ==> AgreeOn(f, g, j)
    ensures (f.overtime == OvertimeYes) == (g.overtime == OvertimeYes)
    ensures (f.businessTravel == TravelFrequently) == (g.businessTravel == TravelFrequently)
  {
    forall j | PassedThrough(j)
      ensures AgreeOn(f, g, j)
    {
      PassThroughDistinguishes(f, g, j);
    }
    assert Value(f, OverTimeYes) == Value(g, OverTimeYes);
    assert Value(f, BusinessTravelTravelFrequently) == Value(g, BusinessTravelTravelFrequently);
  }
}
