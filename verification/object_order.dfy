/** The counter recovered from an object ID of the form `type#n`. */
module ObjectOrder {
  import opened Decimals

  /** The number of digits at the end of a text. */
  function TrailingDigits(s: string): (n: nat)
    ensures n <= |s| && AllDigits(s[|s| - n..])
    ensures n < |s| ==> !IsDigit(s[|s| - n - 1])
  {
    if s == "" || !IsDigit(s[|s| - 1]) then 0
    else
      var n := TrailingDigits(s[..|s| - 1]);
      OneMoreDigit(s, n);
      n + 1
  }

  lemma OneMoreDigit(s: string, n: nat)
    requires n < |s| && IsDigit(s[|s| - 1]) && AllDigits(s[..|s| - 1][|s| - 1 - n..])
    ensures AllDigits(s[|s| - (n + 1)..])
  {
    var digits := s[|s| - (n + 1)..];
    forall i | 0 <= i < |digits| ensures IsDigit(digits[i]) {
      if i < n { assert IsDigit(s[..|s| - 1][|s| - 1 - n..][i]); }
    }
  }

  /** `_object_seq`: the value of the digits after a `#` at the very end, else 0. */
  function ObjectSeq(id: string): nat {
    var n := TrailingDigits(id);
    if 0 < n < |id| && id[|id| - n - 1] == '#' then Value(id[|id| - n..]) else 0
  }

  /** The text ends with `#` and the given digits: a match of the pattern `#\d+$`. */
  ghost predicate Matches(id: string, stem: string, digits: string) {
    digits != "" && AllDigits(digits) && id == stem + "#" + digits
  }

  /** A match fixes the counter, whatever precedes it: stems may contain `#` and digits. */
  lemma ObjectSeqOfMatch(id: string, stem: string, digits: string)
    requires Matches(id, stem, digits)
    ensures ObjectSeq(id) == Value(digits)
  {
    hide TrailingDigits, Value;
    var d := |digits|;
    assert id[|stem|] == '#' && id[|id| - d..] == digits;
    TrailingDigitsAre(id, d);
  }

  lemma TrailingDigitsAre(s: string, d: nat)
    requires d < |s| && AllDigits(s[|s| - d..]) && !IsDigit(s[|s| - d - 1])
    ensures TrailingDigits(s) == d
  {
    hide AllDigits, IsDigit, TrailingDigits;
    var n := TrailingDigits(s);
    if n < d {
      DigitAt(s, d, |s| - n - 1);
    } else if n > d {
      DigitAt(s, n, |s| - d - 1);
    }
  }

  lemma DigitAt(s: string, n: nat, j: nat)
    requires n <= |s| && AllDigits(s[|s| - n..]) && |s| - n <= j < |s|
    ensures IsDigit(s[j])
  {
    assert s[|s| - n..][j - (|s| - n)] == s[j];
  }

  /** Without a match the counter is 0. */
  lemma ObjectSeqWithoutMatch(id: string)
    requires forall stem, digits :: !Matches(id, stem, digits)
    ensures ObjectSeq(id) == 0
  {
    var n := TrailingDigits(id);
    if 0 < n < |id| && id[|id| - n - 1] == '#' {
      assert id == id[..|id| - n - 1] + "#" + id[|id| - n..];
      assert Matches(id, id[..|id| - n - 1], id[|id| - n..]);
    }
  }

  function FrameworkId(kind: string, n: nat): string { kind + "#" + Print(n) }

  /** The framework's counter is recovered from every ID it assigns. */
  lemma ObjectSeqOfFrameworkId(kind: string, n: nat)
    ensures ObjectSeq(FrameworkId(kind, n)) == n
  {
    PrintValue(n);
    ObjectSeqOfMatch(FrameworkId(kind, n), kind, Print(n));
  }
}
