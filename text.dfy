/** The string operations the front end relies on: `String.prototype.trim`,
    `toLowerCase` and `split(sep).pop()`. */
module Text {

  /** The characters `trim` removes and the regular expression class `\s`
      matches, restricted to the common ones (see README, Left out). */
  predicate IsSpace(c: char) {
    c == ' ' || c == '\t' || c == '\n' || c == '\r' || c == '\U{0B}' || c == '\U{0C}'
    || c == '\U{A0}' || c == '\U{2028}' || c == '\U{2029}' || c == '\U{FEFF}'
  }

  /** `trimStart`: drops the leading white space. */
  function TrimStart(s: string): (r: string)
    ensures |r| <= |s| && r == s[|s| - |r|..]
    ensures r == [] || !IsSpace(r[0])
    ensures forall i :: 0 <= i < |s| - |r| ==> IsSpace(s[i])
  {
    if s != [] && IsSpace(s[0]) then
      var r := TrimStart(s[1..]);
      assert forall i :: 1 <= i < |s| - |r| ==> s[i] == s[1..][i - 1];
      r
    else s
  }

  /** `trimEnd`: drops the trailing white space. */
  function TrimEnd(s: string): (r: string)
    ensures |r| <= |s| && r == s[..|r|]
    ensures r == [] || !IsSpace(r[|r| - 1])
    ensures forall i :: |r| <= i < |s| ==> IsSpace(s[i])
  {
    if s != [] && IsSpace(s[|s| - 1]) then
      var r := TrimEnd(s[..|s| - 1]);
      assert forall i :: |r| <= i < |s| - 1 ==> s[i] == s[..|s| - 1][i];
      r
    else s
  }

  /** `trim`. */
  function Trim(s: string): (r: string)
    ensures |r| <= |s|
  {
    TrimEnd(TrimStart(s))
  }

  /** The JavaScript test `!s.trim()` (equivalently `s.trim() === ""`). */
  predicate Blank(s: string) {
    Trim(s) == []
  }

  /** A string trims to nothing exactly when every character is white space. */
  lemma BlankIffAllSpace(s: string)
    ensures Blank(s) <==> forall i :: 0 <= i < |s| ==> IsSpace(s[i])
  {
    var t := TrimStart(s);
    if Blank(s) {
      forall i | 0 <= i < |s| ensures IsSpace(s[i]) {
        if i >= |s| - |t| {
          assert t[i - (|s| - |t|)] == s[i];
        }
      }
    } else {
      var r := Trim(s);
      assert r[0] == t[0] == s[|s| - |t|];
      assert !IsSpace(r[0]);
    }
  }

  /** Trimming twice is trimming once: every value the front end trims before
      sending is a fixed point of `Trim`. */
  lemma TrimIdempotent(s: string)
    ensures Trim(Trim(s)) == Trim(s)
  {
    var r := Trim(s);
    TrimIsTrimmed(s);
    if r != [] {
      assert !IsSpace(r[0]) && !IsSpace(r[|r| - 1]);
      assert TrimStart(r) == r;
      assert TrimEnd(r) == r;
    }
  }

  /** A string is trimmed when it neither starts nor ends with white space. */
  predicate Trimmed(s: string) {
    s == [] || (!IsSpace(s[0]) && !IsSpace(s[|s| - 1]))
  }

  lemma TrimIsTrimmed(s: string)
    ensures Trimmed(Trim(s))
  {
    var t := TrimStart(s);
    var r := TrimEnd(t);
    if r != [] {
      assert r[0] == t[0];
    }
  }

  /** `toLowerCase` on one character (ASCII letters only, see README). */
  function LowerChar(c: char): (r: char)
    ensures 'A' <= c <= 'Z' ==> 'a' <= r <= 'z'
    ensures !('A' <= c <= 'Z') ==> r == c
  {
    if 'A' <= c <= 'Z' then (c as int + 32) as char else c
  }

  /** `toLowerCase`. */
  function ToLower(s: string): (r: string)
    ensures |r| == |s|
    ensures forall i :: 0 <= i < |s| ==> r[i] == LowerChar(s[i])
  {
    seq(|s|, i requires 0 <= i < |s| => LowerChar(s[i]))
  }

  /** `s.split(sep).pop()`: the text after the last `sep`, or all of `s`
      when `sep` does not occur. */
  function LastSegment(s: string, sep: char): (r: string)
    ensures |r| <= |s| && r == s[|s| - |r|..]
    ensures sep !in r
    ensures |r| < |s| ==> s[|s| - |r| - 1] == sep
  {
    if s == [] then []
    else if s[|s| - 1] == sep then []
    else LastSegment(s[..|s| - 1], sep) + [s[|s| - 1]]
  }

  /** Lower-casing does not move the separator `'.'`, so taking the extension
      and lower-casing it commute. */
  lemma {:induction false} LastSegmentToLower(s: string)
    ensures LastSegment(ToLower(s), '.') == ToLower(LastSegment(s, '.'))
  {
    if s != [] {
      var init, last := s[..|s| - 1], s[|s| - 1];
      var low := ToLower(s);
      assert low[..|s| - 1] == ToLower(init);
      assert low[|s| - 1] == LowerChar(last);
      if last != '.' {
        LastSegmentToLower(init);
        calc {
          LastSegment(low, '.');
          LastSegment(ToLower(init), '.') + [LowerChar(last)];
          ToLower(LastSegment(init, '.')) + [LowerChar(last)];
          { LowerAppend(LastSegment(init, '.'), last); }
          ToLower(LastSegment(init, '.') + [last]);
        }
      }
    }
  }

  lemma LowerAppend(s: string, c: char)
    ensures ToLower(s + [c]) == ToLower(s) + [LowerChar(c)]
  {
  }

  /** Lower-casing twice is lower-casing once. */
  lemma ToLowerIdempotent(s: string)
    ensures ToLower(ToLower(s)) == ToLower(s)
  {
  }

  /** A lower-cased string has no upper-case ASCII letter. */
  lemma ToLowerHasNoUpper(s: string)
    ensures forall i :: 0 <= i < |s| ==> !('A' <= ToLower(s)[i] <= 'Z')
  {
  }
}
