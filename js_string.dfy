/** The two JavaScript string operations the key normalizer relies on:
    `String.prototype.toUpperCase` (restricted to ASCII letters) and
    `String.prototype.replace` with a string pattern, which replaces only the
    first occurrence. */
module JsString {

  datatype Option<T> = None | Some(value: T)

  predicate IsLowerAscii(c: char) {
    'a' <= c <= 'z'
  }

  /** ASCII case mapping of one character; every non-letter is unchanged. */
  function UpperChar(c: char): (u: char)
    ensures !IsLowerAscii(u)
    ensures IsLowerAscii(c) ==> u as int == c as int - 32
    ensures !IsLowerAscii(c) ==> u == c
  {
    if IsLowerAscii(c) then (c as int - 32) as char else c
  }

  /** `s.toUpperCase()` for ASCII: maps every character through UpperChar. */
  function ToUpperCase(s: string): (r: string)
    ensures |r| == |s|
    ensures forall i :: 0 <= i < |s| ==> r[i] == UpperChar(s[i])
  {
    if s == [] then [] else [UpperChar(s[0])] + ToUpperCase(s[1..])
  }

  /** `pat` occurs in `s` starting at index k. */
  predicate OccursAt(s: string, pat: string, k: nat) {
    k + |pat| <= |s| && s[k..k + |pat|] == pat
  }

  /** `s.indexOf(pat)`: the first index at which `pat` occurs, if any. */
  function IndexOf(s: string, pat: string): (r: Option<nat>)
    ensures r.Some? ==> OccursAt(s, pat, r.value)
    ensures r.Some? ==> forall k: nat :: k < r.value ==> !OccursAt(s, pat, k)
    ensures r.None? ==> forall k: nat :: !OccursAt(s, pat, k)
    decreases |s|
  {
    if |pat| > |s| then None
    else if pat <= s then Some(0)
    else
      match IndexOf(s[1..], pat)
      case None =>
        assert forall k: nat :: !OccursAt(s, pat, k) by {
          forall k: nat
            ensures !OccursAt(s, pat, k)
          {
            if k == 0 { ShiftOccurrence(s, pat, 0); } else { ShiftOccurrence(s, pat, k - 1); }
          }
        }
        None
      case Some(i) =>
        assert OccursAt(s, pat, i + 1) by { ShiftOccurrence(s, pat, i); }
        assert forall k: nat :: k < i + 1 ==> !OccursAt(s, pat, k) by {
          forall k: nat | k < i + 1
            ensures !OccursAt(s, pat, k)
          {
            if k == 0 { ShiftOccurrence(s, pat, 0); } else { ShiftOccurrence(s, pat, k - 1); }
          }
        }
        Some(i + 1)
  }

  /** An occurrence in `s` at k + 1 is an occurrence in `s[1..]` at k, and
      the occurrence at 0 is exactly the prefix test. */
  lemma ShiftOccurrence(s: string, pat: string, k: nat)
    requires s != []
    ensures OccursAt(s, pat, k + 1) <==> OccursAt(s[1..], pat, k)
    ensures OccursAt(s, pat, 0) <==> pat <= s
  {
    if k + 1 + |pat| <= |s| {
      var tail := s[1..];
      assert tail[k..k + |pat|] == s[k + 1..k + 1 + |pat|];
    }
    if |pat| <= |s| {
      assert s[0..|pat|] == s[..|pat|];
    }
  }

  /** `s.replace(pat, rep)` for a string pattern and a replacement holding no
      `$` pattern: only the first occurrence is replaced; without an
      occurrence the string is returned unchanged. */
  function ReplaceFirst(s: string, pat: string, rep: string): (r: string)
    ensures (forall k: nat :: !OccursAt(s, pat, k)) ==> r == s
    ensures forall k: nat :: OccursAt(s, pat, k) && (forall k': nat :: k' < k ==> !OccursAt(s, pat, k')) ==>
      r == s[..k] + rep + s[k + |pat|..]
  {
    match IndexOf(s, pat)
    case None => s
    case Some(i) =>
      assert forall k: nat :: OccursAt(s, pat, k) && (forall k': nat :: k' < k ==> !OccursAt(s, pat, k')) ==> k == i;
      s[..i] + rep + s[i + |pat|..]
  }

  /** Removing a pattern that is a prefix of `s` leaves the rest of `s`. */
  lemma RemovePrefix(s: string, pat: string)
    requires pat <= s
    ensures ReplaceFirst(s, pat, "") == s[|pat|..]
  {
    assert OccursAt(s, pat, 0) by {
      assert s[0..|pat|] == s[..|pat|];
    }
    var i := IndexOf(s, pat).value;
    assert i == 0;
  }
}
