/** How the normalizer's labels relate to the labels of the layout: every
    cell's own label is a fixed point of the normalizer, so each cell is lit by
    the identifier that spells its label. */
module LayoutCoverage {
  import opened JsString
  import opened KeyNames
  import opened KeyboardLayout

  /** A label the normalizer maps to itself for one of three reasons: it is
      one character that is neither a space nor a lower-case letter, it is a
      longer name that is not renamed, or it is "Meta". */
  predicate SelfLabel(x: string) {
    (|x| == 1 && x != " " && !IsLowerAscii(x[0])) || (|x| > 1 && !IsRenamed(x)) || x == "Meta"
  }

  lemma SelfLabelFixed(x: string)
    requires SelfLabel(x)
    ensures NormalizeKey(x) == x
  {
    if |x| == 1 && x != " " && !IsLowerAscii(x[0]) {
      assert x == [x[0]];
      NormalizeSingleChar(x[0]);
    }
  }

  /** Every label of one row is a SelfLabel; one lemma per row keeps each
      proof small. */
  lemma FunctionRowSelfLabelled(name: string)
    requires name in FunctionRow
    ensures SelfLabel(name)
  {
  }

  lemma NumberRowSelfLabelled(name: string)
    requires name in NumberRow
    ensures SelfLabel(name)
  {
  }

  lemma TopRowSelfLabelled(name: string)
    requires name in TopRow
    ensures SelfLabel(name)
  {
  }

  lemma HomeRowSelfLabelled(name: string)
    requires name in HomeRow
    ensures SelfLabel(name)
  {
  }

  lemma BottomRowSelfLabelled(name: string)
    requires name in BottomRow
    ensures SelfLabel(name)
  {
  }

  lemma ModifierRowSelfLabelled(name: string)
    requires name in ModifierRow
    ensures SelfLabel(name)
  {
  }

  /** Every label of the layout normalizes to itself. */
  lemma LayoutLabelsAreFixedPoints(name: string)
    requires InLayout(name)
    ensures NormalizeKey(name) == name
  {
    var row :| row in Layout && name in row;
    if row == FunctionRow {
      FunctionRowSelfLabelled(name);
    } else if row == NumberRow {
      NumberRowSelfLabelled(name);
    } else if row == TopRow {
      TopRowSelfLabelled(name);
    } else if row == HomeRow {
      HomeRowSelfLabelled(name);
    } else if row == BottomRow {
      BottomRowSelfLabelled(name);
    } else {
      ModifierRowSelfLabelled(name);
    }
    SelfLabelFixed(name);
  }
}
