/** The key normalizer: maps the `key` identifier a browser reports in a
    keyboard event to the label the on-screen layout uses for that key. */
module KeyNames {
  import opened JsString

  /** The four arrow identifiers, which lose their "Arrow" prefix. */
  const ArrowKeys: set<string> := {"ArrowUp", "ArrowDown", "ArrowLeft", "ArrowRight"}

  /** The multi-character labels that renamed identifiers map to. */
  const FixedLabels: set<string> := {"Space", "Ctrl", "Meta", "Menu", "Up", "Down", "Left", "Right"}

  /** The identifiers given a label of their own, matched in this order before
      the single-character rule. */
  predicate IsRenamed(key: string) {
    key == " " || key == "Control" || key == "Meta" || key == "OS" ||
    key == "ContextMenu" || key in ArrowKeys
  }

  /** normalizeKey: a switch over the renamed identifiers; anything else is
      uppercased when it is a single character and returned unchanged when it
      is not. */
  function NormalizeKey(key: string): (r: string)
    ensures r == [] <==> key == []
    ensures |key| == 1 && key != " " ==> |r| == 1 && !IsLowerAscii(r[0])
  {
    if key == " " then "Space"
    else if key == "Control" then "Ctrl"
    else if key == "Meta" || key == "OS" then "Meta"
    else if key == "ContextMenu" then "Menu"
    else if key in ArrowKeys then ReplaceFirst(key, "Arrow", "")
    else if |key| == 1 then ToUpperCase(key)
    else key
  }

  /** The renamed identifiers other than the arrows. */
  lemma NormalizeNamedKeys()
    ensures NormalizeKey(" ") == "Space"
    ensures NormalizeKey("Control") == "Ctrl"
    ensures NormalizeKey("Meta") == "Meta" && NormalizeKey("OS") == "Meta"
    ensures NormalizeKey("ContextMenu") == "Menu"
  {
  }

  /** An arrow identifier is "Arrow" followed by a direction, and its label is
      that direction: "Up", "Down", "Left" or "Right". */
  lemma NormalizeArrow(key: string)
    requires key in ArrowKeys
    ensures key[..5] == "Arrow"
    ensures NormalizeKey(key) == key[5..]
    ensures NormalizeKey(key) in {"Up", "Down", "Left", "Right"}
  {
    assert "Arrow" <= key;
    RemovePrefix(key, "Arrow");
  }

  /** Any other single character becomes its upper-case form, still one
      character long and never a lower-case letter. */
  lemma NormalizeSingleChar(c: char)
    requires c != ' '
    ensures NormalizeKey([c]) == [UpperChar(c)]
    ensures !IsLowerAscii(NormalizeKey([c])[0])
  {
    assert [c] !in ArrowKeys;
  }

  /** Any other identifier of more (or fewer) than one character passes through
      unchanged; "Escape", for one, stays "Escape". */
  lemma NormalizePassThrough(key: string)
    requires !IsRenamed(key) && |key| != 1
    ensures NormalizeKey(key) == key
  {
  }

  /** Every label is a fixed multi-character name, a single character that is
      not a lower-case letter, or the identifier itself when that identifier is
      neither renamed nor one character long. */
  lemma NormalizeOutputShape(key: string)
    ensures var r := NormalizeKey(key);
      r in FixedLabels ||
      (|r| == 1 && !IsLowerAscii(r[0])) ||
      (r == key && !IsRenamed(key) && |key| != 1)
  {
    if key in ArrowKeys {
      NormalizeArrow(key);
    } else if !IsRenamed(key) && |key| == 1 {
      NormalizeSingleChar(key[0]);
      assert key == [key[0]];
    }
  }

  /** The fixed multi-character labels are neither renamed nor one character
      long, so each one normalizes to itself. */
  lemma FixedLabelsAreFixedPoints(name: string)
    requires name in FixedLabels
    ensures NormalizeKey(name) == name
  {
    if name != "Meta" {
      assert !IsRenamed(name) && |name| != 1;
    }
  }

  /** Normalizing a label again changes nothing. */
  lemma NormalizeIdempotent(key: string)
    ensures NormalizeKey(NormalizeKey(key)) == NormalizeKey(key)
  {
    var r := NormalizeKey(key);
    NormalizeOutputShape(key);
    if r in FixedLabels {
      FixedLabelsAreFixedPoints(r);
    } else if |r| == 1 && !IsLowerAscii(r[0]) {
      assert r == [r[0]];
      NormalizeSingleChar(r[0]);
    }
  }
}
