/** The two string tests the source leans on: `str.strip()` and "blank". */
module PyText {
  /** The ASCII characters Python's `str.strip()` removes. */
  predicate IsSpace(c: char) {
    c == ' ' || '\t' <= c <= '\r' || c == '\U{1c}' || c == '\U{1d}' || c == '\U{1e}' || c == '\U{1f}'
  }

  predicate Blank(s: string) {
    forall i :: 0 <= i < |s| ==> IsSpace(s[i])
  }

  /** How many white-space characters `s` starts with. */
  function LeadingSpaces(s: string): (n: nat)
    ensures n <= |s|
    ensures forall i :: 0 <= i < n ==> IsSpace(s[i])
    ensures n < |s| ==> !IsSpace(s[n])
  {
    if s == "" || !IsSpace(s[0]) then 0 else 1 + LeadingSpaces(s[1..])
  }

  /** How many characters remain of `s` without its trailing white space. */
  function TrimmedLength(s: string): (n: nat)
    ensures n <= |s|
    ensures forall i :: n <= i < |s| ==> IsSpace(s[i])
    ensures n > 0 ==> !IsSpace(s[n - 1])
  {
    if s == "" || !IsSpace(s[|s| - 1]) then |s| else TrimmedLength(s[..|s| - 1])
  }

  /** `s.strip()`: empty exactly for a blank text, and no white space at either end. */
  function Strip(s: string): (r: string)
    ensures r != "" ==> !IsSpace(r[0]) && !IsSpace(r[|r| - 1])
    ensures r == "" <==> Blank(s)
  {
    var from, to := LeadingSpaces(s), TrimmedLength(s);
    if from < to then s[from..to] else ""
  }

  predicate Trimmed(s: string) {
    s != "" ==> !IsSpace(s[0]) && !IsSpace(s[|s| - 1])
  }

  /** Only white space goes, and only at the ends: what is between two blank texts
      is what is left of the whole, */
  lemma StripIs(a: string, middle: string, b: string)
    requires Blank(a) && Blank(b) && Trimmed(middle)
    ensures Strip(a + middle + b) == middle
  {
    var s := a + middle + b;
    if middle == "" {
      assert Blank(s);
    } else {
      assert s[|a|] == middle[0] && s[|a| + |middle| - 1] == middle[|middle| - 1];
      assert forall i :: 0 <= i < |a| ==> s[i] == a[i];
      assert forall i :: |a| + |middle| <= i < |s| ==> s[i] == b[i - |a| - |middle|];
      assert LeadingSpaces(s) == |a| && TrimmedLength(s) == |a| + |middle|;
      assert s[|a|..|a| + |middle|] == middle;
    }
  }

  /** and every text is of that form. */
  lemma StripKeeps(s: string) returns (a: string, b: string)
    ensures Blank(a) && Blank(b) && Trimmed(Strip(s)) && s == a + Strip(s) + b
  {
    if Strip(s) == "" {
      a, b := s, "";
    } else {
      a, b := s[..LeadingSpaces(s)], s[TrimmedLength(s)..];
    }
  }

  /** Text without white space at its ends is left alone. */
  lemma TrimmedStays(s: string)
    requires Trimmed(s)
    ensures Strip(s) == s
  {
    StripIs("", s, "");
    assert "" + s + "" == s;
  }
}
