/** Text handling shared by the bot engine, the config validators and the builder:
    trimming, ASCII case folding, decimal numerals, substring search. */
module Text {

  /** The ASCII characters both `str.strip()` and the validators strip. */
  const SPACES: set<char> := {' ', '\t', '\n', '\r', '\U{0B}', '\U{0C}'}

  predicate IsSpace(c: char) { c in SPACES }

  // --- trimming ---------------------------------------------------------------

  /** No character of `cs` stands at either end of `s`. */
  predicate Trimmed(s: string, cs: set<char>) {
    s == "" || (s[0] !in cs && s[|s| - 1] !in cs)
  }

  function TrimLeft(s: string, cs: set<char>): string {
    if s != "" && s[0] in cs then TrimLeft(s[1..], cs) else s
  }

  function TrimRight(s: string, cs: set<char>): string {
    if s != "" && s[|s| - 1] in cs then TrimRight(s[..|s| - 1], cs) else s
  }

  /** `s.strip(cs)`. */
  function Trim(s: string, cs: set<char>): string {
    TrimRight(TrimLeft(s, cs), cs)
  }

  /** `s.strip()`. */
  function Strip(s: string): string { Trim(s, SPACES) }

  predicate Stripped(s: string) { Trimmed(s, SPACES) }

  /** `s` is made of characters of `cs` only. */
  predicate MadeOf(s: string, cs: set<char>) { forall i :: 0 <= i < |s| ==> s[i] in cs }

  lemma {:induction false} TrimLeftIsSuffix(s: string, cs: set<char>) returns (i: nat)
    ensures i <= |s| && TrimLeft(s, cs) == s[i..] && MadeOf(s[..i], cs)
    ensures i < |s| ==> s[i] !in cs
  {
    if s != "" && s[0] in cs {
      var k := TrimLeftIsSuffix(s[1..], cs);
      i := k + 1;
      assert s[1..][k..] == s[i..];
      forall j | 0 <= j < |s[..i]| ensures s[..i][j] in cs {
        if j > 0 { assert s[..i][j] == s[1..][..k][j - 1]; }
      }
    } else {
      i := 0;
    }
  }

  lemma {:induction false} TrimRightIsPrefix(s: string, cs: set<char>) returns (j: nat)
    ensures j <= |s| && TrimRight(s, cs) == s[..j] && MadeOf(s[j..], cs)
    ensures j > 0 ==> s[j - 1] !in cs
  {
    if s != "" && s[|s| - 1] in cs {
      var t := s[..|s| - 1];
      j := TrimRightIsPrefix(t, cs);
      assert t[..j] == s[..j];
      forall k | 0 <= k < |s[j..]| ensures s[j..][k] in cs {
        if j + k < |t| { assert s[j..][k] == t[j..][k]; }
      }
    } else {
      j := |s|;
    }
  }

  /** Trimming leaves the slice between the first and the last character that is
      not trimmed away; nothing is left exactly when there is no such character. */
  lemma TrimIsSlice(s: string, cs: set<char>) returns (i: nat, j: nat)
    ensures i <= j <= |s| && Trim(s, cs) == s[i..j] && MadeOf(s[..i], cs) && MadeOf(s[j..], cs)
    ensures Trimmed(Trim(s, cs), cs)
    ensures Trim(s, cs) == "" <==> MadeOf(s, cs)
  {
    i := TrimLeftIsSuffix(s, cs);
    var t := s[i..];
    var k := TrimRightIsPrefix(t, cs);
    j := i + k;
    assert t[..k] == s[i..j];
    assert i < |s| ==> t[0] == s[i];
    assert i == |s| ==> s[..i] == s;
    assert k == 0 ==> t[k..] == t;
    assert t[k..] == s[j..];
  }

  lemma TrimmedIsFixed(s: string, cs: set<char>)
    requires Trimmed(s, cs)
    ensures Trim(s, cs) == s
  {
  }

  lemma StrippedIsFixed(s: string)
    requires Stripped(s)
    ensures Strip(s) == s
  {
    TrimmedIsFixed(s, SPACES);
  }

  lemma StripIsStripped(s: string)
    ensures Stripped(Strip(s)) && Strip(Strip(s)) == Strip(s)
    ensures |Strip(s)| <= |s|
  {
    var i, j := TrimIsSlice(s, SPACES);
    TrimmedIsFixed(Strip(s), SPACES);
  }

  // --- case folding -----------------------------------------------------------

  function LowerChar(c: char): char {
    if 'A' <= c <= 'Z' then (c as int - 'A' as int + 'a' as int) as char else c
  }

  function Lower(s: string): string {
    if s == "" then "" else [LowerChar(s[0])] + Lower(s[1..])
  }

  lemma {:induction false} LowerAt(s: string)
    ensures |Lower(s)| == |s|
    ensures forall i :: 0 <= i < |s| ==> Lower(s)[i] == LowerChar(s[i])
  {
    if s != "" { LowerAt(s[1..]); }
  }

  // --- numerals ---------------------------------------------------------------

  predicate IsDigit(c: char) { '0' <= c <= '9' }

  /** `s.isdigit()` on ASCII text: at least one character, all of them digits. */
  predicate AllDigits(s: string) { s != "" && forall i :: 0 <= i < |s| ==> IsDigit(s[i]) }

  /** The decimal numeral of `n`, without leading zeros. */
  function Decimal(n: nat): string {
    (if n < 10 then "" else Decimal(n / 10)) + [('0' as int + n % 10) as char]
  }

  /** `int(s)` of a digit string. */
  function ParseNat(s: string): nat
    requires forall i :: 0 <= i < |s| ==> IsDigit(s[i])
  {
    if s == "" then 0
    else
      assert IsDigit(s[|s| - 1]);
      ParseNat(s[..|s| - 1]) * 10 + (s[|s| - 1] as int - '0' as int)
  }

  /** A printed numeral is a digit string, and reading it gives the number back. */
  lemma {:induction false} ParseDecimal(n: nat)
    ensures AllDigits(Decimal(n)) && ParseNat(Decimal(n)) == n
  {
    var front := if n < 10 then "" else Decimal(n / 10);
    if n >= 10 { ParseDecimal(n / 10); }
    assert Decimal(n)[..|Decimal(n)| - 1] == front;
    assert ParseNat(front) == n / 10;
  }

  lemma DecimalInjective(m: nat, n: nat)
    requires Decimal(m) == Decimal(n)
    ensures m == n
  {
    ParseDecimal(m);
    ParseDecimal(n);
  }

  lemma DigitsAreStripped(s: string)
    requires AllDigits(s)
    ensures Stripped(s)
  {
  }

  /** `re.sub(r"\D", "", s)`. */
  function OnlyDigits(s: string): string {
    if s == "" then ""
    else (if IsDigit(s[0]) then [s[0]] else "") + OnlyDigits(s[1..])
  }

  lemma {:induction false} OnlyDigitsAreDigits(s: string)
    ensures forall i :: 0 <= i < |OnlyDigits(s)| ==> IsDigit(OnlyDigits(s)[i])
    ensures (forall i :: 0 <= i < |s| ==> IsDigit(s[i])) ==> OnlyDigits(s) == s
  {
    if s != "" { OnlyDigitsAreDigits(s[1..]); }
  }

  // --- search and assembly ----------------------------------------------------

  /** `needle in hay`. */
  predicate Contains(hay: string, needle: string) {
    exists i :: 0 <= i <= |hay| && needle <= hay[i..]
  }

  /** `s.replace(old, new)`. */
  function ReplaceAll(s: string, pat: string, with: string): string
    requires pat != ""
  {
    if s == "" then ""
    else if pat <= s then with + ReplaceAll(s[|pat|..], pat, with)
    else [s[0]] + ReplaceAll(s[1..], pat, with)
  }

  /** `sep.join(parts)`. */
  function Join(parts: seq<string>, sep: string): string {
    if parts == [] then ""
    else if |parts| == 1 then parts[0]
    else parts[0] + sep + Join(parts[1..], sep)
  }

  lemma Inside(a: string, x: string, b: string)
    ensures Contains(a + x + b, x)
  {
    assert (a + x + b)[|a|..] == x + b;
  }

  lemma InsideOf(a: string, mid: string, b: string, needle: string)
    requires Contains(mid, needle)
    ensures Contains(a + mid + b, needle)
  {
    var i :| 0 <= i <= |mid| && needle <= mid[i..];
    assert (a + mid + b)[|a| + i..] == mid[i..] + b;
  }

  /** What is joined is in the joined text. */
  lemma {:induction false} JoinedIsInside(parts: seq<string>, sep: string, i: nat)
    requires i < |parts|
    ensures Contains(Join(parts, sep), parts[i])
  {
    if |parts| == 1 {
      Inside("", parts[0], "");
      assert "" + parts[0] + "" == parts[0];
    } else if i == 0 {
      Inside("", parts[0], sep + Join(parts[1..], sep));
      assert "" + parts[0] + (sep + Join(parts[1..], sep)) == Join(parts, sep);
    } else {
      JoinedIsInside(parts[1..], sep, i - 1);
      InsideOf(parts[0] + sep, Join(parts[1..], sep), "", parts[i]);
      assert parts[0] + sep + Join(parts[1..], sep) + "" == Join(parts, sep);
    }
  }

  /** A joined text begins as its first part and ends as its last. */
  lemma {:induction false} JoinEnds(parts: seq<string>, sep: string)
    requires parts != [] && parts[0] != "" && parts[|parts| - 1] != ""
    requires forall i :: 0 <= i < |parts| ==> parts[i] != ""
    ensures Join(parts, sep) != "" && Join(parts, sep)[0] == parts[0][0]
    ensures Join(parts, sep)[|Join(parts, sep)| - 1] == parts[|parts| - 1][|parts[|parts| - 1]| - 1]
  {
    if |parts| > 1 {
      JoinEnds(parts[1..], sep);
    }
  }

  lemma ReplaceStep(s: string, pat: string, with: string)
    requires pat != "" && s != ""
    ensures ReplaceAll(s, pat, with) ==
      if pat <= s then with + ReplaceAll(s[|pat|..], pat, with) else [s[0]] + ReplaceAll(s[1..], pat, with)
  {
  }

  /** The pattern does not stand at any of the first k positions. */
  predicate NoneBefore(s: string, pat: string, k: nat)
    requires k <= |s|
  {
    forall i :: 0 <= i < k ==> !(pat <= s[i..])
  }

  lemma NoneBeforeRest(s: string, pat: string, k: nat)
    requires 0 < k <= |s| && NoneBefore(s, pat, k)
    ensures !(pat <= s) && NoneBefore(s[1..], pat, k - 1)
  {
    assert s[0..] == s;
    forall i | 0 <= i < k - 1 ensures !(pat <= s[1..][i..]) {
      assert s[1..][i..] == s[i + 1..];
    }
  }

  lemma {:induction false} ReplacesAt(s: string, k: nat, pat: string, with: string)
    requires pat != "" && k < |s| && pat <= s[k..] && NoneBefore(s, pat, k)
    ensures ReplaceAll(s, pat, with) == s[..k] + with + ReplaceAll(s[k..][|pat|..], pat, with)
  {
    hide ReplaceAll, NoneBefore;
    ReplaceStep(s, pat, with);
    if k == 0 {
      assert s[k..] == s && s[..k] + with == with;
    } else {
      var rest := s[1..];
      NoneBeforeRest(s, pat, k);
      assert rest[k - 1..] == s[k..];
      ReplacesAt(rest, k - 1, pat, with);
      assert [s[0]] + rest[..k - 1] == s[..k];
      var tail := ReplaceAll(s[k..][|pat|..], pat, with);
      assert [s[0]] + (rest[..k - 1] + with + tail) == [s[0]] + rest[..k - 1] + with + tail;
    }
  }

  /** The leftmost occurrence is replaced, and the rest after it in the same way. */
  lemma ReplacesLeftmost(a: string, rest: string, pat: string, with: string)
    requires pat != "" && forall i :: 0 <= i < |a| ==> !(pat <= (a + pat + rest)[i..])
    ensures ReplaceAll(a + pat + rest, pat, with) == a + with + ReplaceAll(rest, pat, with)
  {
    hide ReplaceAll;
    var s := a + pat + rest;
    assert s[|a|..] == pat + rest && s[..|a|] == a;
    assert (pat + rest)[|pat|..] == rest;
    ReplacesAt(s, |a|, pat, with);
  }

  /** Where there is nothing to replace nothing changes. */
  lemma {:induction false} ReplacesNothing(s: string, pat: string, with: string)
    requires pat != "" && !Contains(s, pat)
    ensures ReplaceAll(s, pat, with) == s
  {
    if s != "" {
      assert !(pat <= s[0..]) && s[0..] == s;
      forall i | 0 <= i <= |s[1..]| ensures !(pat <= s[1..][i..]) {
        assert s[1..][i..] == s[i + 1..];
      }
      ReplacesNothing(s[1..], pat, with);
    }
  }

  /** Digits are taken out in their order, and everything else left behind. */
  lemma {:induction false} OnlyDigitsJoin(a: string, b: string)
    ensures OnlyDigits(a + b) == OnlyDigits(a) + OnlyDigits(b)
  {
    hide OnlyDigits;
    if a == "" {
      assert a + b == b;
      NoDigits();
    } else {
      OnlyDigitsJoin(a[1..], b);
      assert (a + b)[0] == a[0] && (a + b)[1..] == a[1..] + b;
      FirstDigit(a);
      FirstDigit(a + b);
    }
  }

  lemma NoDigits()
    ensures OnlyDigits("") == ""
  {
  }

  lemma FirstDigit(s: string)
    requires s != ""
    ensures OnlyDigits(s) == (if IsDigit(s[0]) then [s[0]] else "") + OnlyDigits(s[1..])
  {
  }
}
