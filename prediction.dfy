/** The step from the classifier's output to a condition label: the index of
    the largest score in the first row (`np.argmax(prediction, axis=1)[0]`)
    and the table lookup with a default (`CONDITION_LABELS.get`). Scores are
    integers here; only their order matters. */
module Prediction {
  import opened Wrappers

  /** The position of the largest score, scanning left to right and replacing
      the best so far only on a strictly larger score, so the earliest of
      several equal maxima wins. */
  function ArgMax(row: seq<int>): (i: nat)
    requires |row| > 0
    ensures i < |row|
    ensures forall k | 0 <= k < |row| :: row[k] <= row[i]
    ensures forall k | 0 <= k < i :: row[k] < row[i]
  {
    if |row| == 1 then 0
    else
      var best := ArgMax(row[..|row| - 1]);
      if row[|row| - 1] > row[best] then |row| - 1 else best
  }

  /** The three properties of ArgMax pin the index down: any index that holds
      a maximum and has only smaller scores before it is the same index. */
  lemma ArgMaxUnique(row: seq<int>, j: nat)
    requires j < |row|
    requires forall k | 0 <= k < |row| :: row[k] <= row[j]
    requires forall k | 0 <= k < j :: row[k] < row[j]
    ensures ArgMax(row) == j
  {
  }

  /** Equal top scores: the lower index is chosen. */
  lemma ArgMaxTieGoesToLowest(row: seq<int>, a: nat, b: nat)
    requires a < b < |row| && row[a] == row[b]
    requires forall k | 0 <= k < |row| :: row[k] <= row[a]
    ensures ArgMax(row) <= a
  {
  }

  /** `np.argmax(prediction, axis=1)[0]`: None where numpy raises, that is
      when there is no row or the first row is empty. */
  function PredictClass(prediction: seq<seq<int>>): (r: Option<nat>)
    ensures r.Some? <==> |prediction| > 0 && |prediction[0]| > 0
    ensures r.Some? ==> r.value < |prediction[0]|
    ensures r.Some? ==> forall k | 0 <= k < |prediction[0]| :: prediction[0][k] <= prediction[0][r.value]
    ensures r.Some? ==> forall k | 0 <= k < r.value :: prediction[0][k] < prediction[0][r.value]
  {
    if |prediction| == 0 || |prediction[0]| == 0 then None else Some(ArgMax(prediction[0]))
  }

  /** Only the first row is looked at: later rows never change the class. */
  lemma PredictClassIgnoresLaterRows(first: seq<int>, rest: seq<seq<int>>, other: seq<seq<int>>)
    ensures PredictClass([first] + rest) == PredictClass([first] + other)
  {
    assert ([first] + rest)[0] == first == ([first] + other)[0];
  }

  // ---------------------------------------------------------------------
  // CONDITION_LABELS.get(predicted_condition, "Unknown Condition")
  // ---------------------------------------------------------------------

  const MildDementia: string := "Mild Dementia"
  const ModerateDementia: string := "Moderate Dementia"
  const NoDementia: string := "No Dementia"
  const VeryMildDementia: string := "Very Mild Dementia"
  const UnknownCondition: string := "Unknown Condition"

  const ConditionLabels: map<int, string> :=
    map[0 := MildDementia, 1 := ModerateDementia, 2 := NoDementia, 3 := VeryMildDementia]

  /** The label shown for a class index: the table entry, or the default for
      an index the table does not hold. */
  function ConditionLabel(index: int): (shown: string)
    ensures shown in {MildDementia, ModerateDementia, NoDementia, VeryMildDementia, UnknownCondition}
    ensures shown == UnknownCondition <==> !(0 <= index <= 3)
  {
    if index in ConditionLabels then ConditionLabels[index] else UnknownCondition
  }

  /** The table itself, entry by entry. */
  lemma ConditionLabelTable()
    ensures ConditionLabel(0) == "Mild Dementia"
    ensures ConditionLabel(1) == "Moderate Dementia"
    ensures ConditionLabel(2) == "No Dementia"
    ensures ConditionLabel(3) == "Very Mild Dementia"
    ensures ConditionLabel(99) == "Unknown Condition" && ConditionLabel(-1) == "Unknown Condition"
  {
  }

  /** "No Dementia" comes from index 2 and from no other index. */
  lemma NoDementiaOnlyForIndexTwo(index: int)
    ensures ConditionLabel(index) == NoDementia <==> index == 2
  {
    if index == 0 || index == 1 || index == 3 {
      assert |ConditionLabel(index)| != |NoDementia|;
    } else if index != 2 {
      assert |UnknownCondition| != |NoDementia|;
    }
  }

  /** Distinct classes get distinct labels. */
  lemma ConditionLabelInjective(i: int, j: int)
    requires 0 <= i <= 3 && 0 <= j <= 3 && i != j
    ensures ConditionLabel(i) != ConditionLabel(j)
  {
    assert |MildDementia| == 13 && |ModerateDementia| == 17 && |NoDementia| == 11 && |VeryMildDementia| == 18;
  }

  /** A classifier with four outputs always yields one of the four clinical
      labels, never the default. */
  lemma FourScoresGiveKnownLabel(prediction: seq<seq<int>>)
    requires |prediction| > 0 && |prediction[0]| == 4
    ensures PredictClass(prediction).Some?
    ensures ConditionLabel(PredictClass(prediction).value) != UnknownCondition
  {
  }
}
