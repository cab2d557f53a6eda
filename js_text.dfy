/** The small parts of JavaScript string semantics that the route handler
    relies on: `String.prototype.trim`, truthiness of an optional string, and
    what a template literal `${v}` renders for an optional string. */
module JsText {
  import opened Wrappers

  /** The characters `trim` strips: the ECMAScript WhiteSpace and
      LineTerminator code points (section 12.2 and 12.3 of ECMA-262). */
  predicate IsWhiteSpace(c: char)
  {
    c == '\t' || c == '\n' || c == '\U{000B}' || c == '\U{000C}' || c == '\r'
    || c == ' ' || c == '\U{00A0}' || c == '\U{1680}'
    || ('\U{2000}' <= c <= '\U{200A}')
    || c == '\U{2028}' || c == '\U{2029}' || c == '\U{202F}' || c == '\U{205F}'
    || c == '\U{3000}' || c == '\U{FEFF}'
  }

  /** Every character of `s` is whitespace (`s` is blank). */
  predicate AllSpace(s: string)
  {
    forall k :: 0 <= k < |s| ==> IsWhiteSpace(s[k])
  }

  /** `s` neither starts nor ends with whitespace. */
  predicate Trimmed(s: string)
  {
    s == [] || (!IsWhiteSpace(s[0]) && !IsWhiteSpace(s[|s| - 1]))
  }

  /** The reference meaning of trimming: `r` is a contiguous slice `s[i..j]`
      of `s`, everything cut away on either side is whitespace, and `r` itself
      has no whitespace at either end. */
  ghost predicate IsTrimOf(s: string, r: string)
  {
    exists i, j :: 0 <= i <= j <= |s| && r == s[i..j]
      && AllSpace(s[..i]) && AllSpace(s[j..]) && Trimmed(r)
  }

  /** Number of whitespace characters at the start of `s`. */
  function LeadingSpace(s: string): (n: nat)
    ensures n <= |s|
    ensures forall k :: 0 <= k < n ==> IsWhiteSpace(s[k])
    ensures n < |s| ==> !IsWhiteSpace(s[n])
  {
    if |s| == 0 || !IsWhiteSpace(s[0]) then 0 else 1 + LeadingSpace(s[1..])
  }

  /** Number of whitespace characters at the end of `s`. */
  function TrailingSpace(s: string): (n: nat)
    ensures n <= |s|
    ensures forall k :: |s| - n <= k < |s| ==> IsWhiteSpace(s[k])
    ensures n < |s| ==> !IsWhiteSpace(s[|s| - 1 - n])
  {
    if |s| == 0 || !IsWhiteSpace(s[|s| - 1]) then 0 else 1 + TrailingSpace(s[..|s| - 1])
  }

  /** `String.prototype.trim`: strip whitespace from both ends. */
  function Trim(s: string): (r: string)
    ensures IsTrimOf(s, r)
  {
    var i := LeadingSpace(s);
    var j := |s| - TrailingSpace(s[i..]);
    assert AllSpace(s[j..]) by {
      forall k | 0 <= k < |s| - j ensures IsWhiteSpace(s[j..][k]) {
        assert s[j..][k] == s[i..][j - i + k];
      }
    }
    assert i < j ==> s[j - 1] == s[i..][|s[i..]| - 1 - TrailingSpace(s[i..])];
    s[i..j]
  }

  /** The whitespace run at the start of `s` ends at the first non-whitespace
      character, so it is fixed by that position. */
  lemma LeadingSpaceAt(s: string, i: nat)
    requires i <= |s| && AllSpace(s[..i]) && (i < |s| ==> !IsWhiteSpace(s[i]))
    ensures LeadingSpace(s) == i
  {
    assert forall k :: 0 <= k < i ==> s[..i][k] == s[k];
  }

  /** The whitespace run at the end of `s` starts after the last non-whitespace
      character, so it is fixed by that position. */
  lemma TrailingSpaceAt(s: string, j: nat)
    requires j <= |s| && AllSpace(s[j..]) && (0 < j ==> !IsWhiteSpace(s[j - 1]))
    ensures TrailingSpace(s) == |s| - j
  {
    assert forall k :: j <= k < |s| ==> s[j..][k - j] == s[k];
  }

  /** A blank string is all cut away. */
  lemma BlankTrimsToEmpty(s: string)
    requires AllSpace(s)
    ensures Trim(s) == []
  {
    LeadingSpaceAt(s, |s|);
    assert s[..|s|] == s;
  }

  /** Cutting whitespace from both sides of a string until nothing is left
      means the string was blank. */
  lemma CutAllIsBlank(s: string, i: nat)
    requires i <= |s| && AllSpace(s[..i]) && AllSpace(s[i..])
    ensures AllSpace(s)
  {
    assert forall k :: 0 <= k < i ==> s[..i][k] == s[k];
    assert forall k :: i <= k < |s| ==> s[i..][k - i] == s[k];
  }

  /** A non-empty trimmed slice with whitespace cut away on both sides is
      the result of `Trim`. */
  lemma NonEmptySliceIsTrim(s: string, i: nat, j: nat)
    requires i < j <= |s| && AllSpace(s[..i]) && AllSpace(s[j..]) && Trimmed(s[i..j])
    ensures Trim(s) == s[i..j]
  {
    assert s[i..j][0] == s[i] && s[i..j][j - i - 1] == s[j - 1];
    LeadingSpaceAt(s, i);
    var t := s[i..];
    assert t[j - i..] == s[j..];
    assert t[j - i - 1] == s[j - 1];
    TrailingSpaceAt(t, j - i);
  }

  /** Trimming has exactly one possible outcome: any `r` meeting the reference
      meaning is the result of `Trim`, and `Trim`'s result meets it. */
  lemma TrimUnique(s: string, r: string)
    ensures IsTrimOf(s, r) <==> r == Trim(s)
  {
    if IsTrimOf(s, r) {
      var i, j :| 0 <= i <= j <= |s| && r == s[i..j]
        && AllSpace(s[..i]) && AllSpace(s[j..]) && Trimmed(r);
      if i == j {
        CutAllIsBlank(s, i);
        BlankTrimsToEmpty(s);
      } else {
        NonEmptySliceIsTrim(s, i, j);
      }
    }
  }

  /** Trimming twice changes nothing more. */
  lemma TrimIdempotent(s: string)
    ensures Trim(Trim(s)) == Trim(s)
  {
    var r := Trim(s);
    assert r[..0] == [] && r[|r|..] == [] && r[0..|r|] == r;
    assert IsTrimOf(r, r);
    TrimUnique(r, r);
  }

  /** A string trims to the empty string exactly when it is blank. */
  lemma TrimEmptyIffBlank(s: string)
    ensures Trim(s) == [] <==> AllSpace(s)
  {
    if AllSpace(s) {
      BlankTrimsToEmpty(s);
    }
    var r := Trim(s);
    if r == [] {
      var i, j :| 0 <= i <= j <= |s| && r == s[i..j]
        && AllSpace(s[..i]) && AllSpace(s[j..]) && Trimmed(r);
      CutAllIsBlank(s, i);
    }
  }

  /** JavaScript truthiness of an optional string: `undefined` and `""` are falsy. */
  predicate Truthy(v: Option<string>)
  {
    v.Some? && v.value != ""
  }

  /** What a template literal `${v}` renders for an optional string. */
  function Interpolate(v: Option<string>): (r: string)
    ensures v.Some? ==> r == v.value
    ensures v.None? ==> r == "undefined"
  {
    match v
    case None => "undefined"
    case Some(s) => s
  }
}
