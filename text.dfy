/** String helpers standing in for `toLowerCase`, `includes`, `trim`,
    `Array.prototype.join` and integer-to-text conversion. Lower-casing and
    trimming cover ASCII only. */
module Text {

  predicate IsUpper(c: char) { 'A' <= c <= 'Z' }

  /** `toLowerCase` on one ASCII character. */
  function LowerChar(c: char): (r: char)
    ensures IsUpper(c) ==> r as int == c as int + 32
    ensures !IsUpper(c) ==> r == c
    ensures !IsUpper(r)
  {
    if IsUpper(c) then (c as int + 32) as char else c
  }

  /** `toLowerCase` on a string: same length, each character lower-cased. */
  function Lower(s: string): (r: string)
    ensures |r| == |s|
    ensures forall i :: 0 <= i < |s| ==> r[i] == LowerChar(s[i])
  {
    if s == [] then [] else [LowerChar(s[0])] + Lower(s[1..])
  }

  /** Lower-casing twice is lower-casing once. */
  lemma LowerIdempotent(s: string)
    ensures Lower(Lower(s)) == Lower(s)
  {
    assert forall i :: 0 <= i < |s| ==> Lower(Lower(s))[i] == Lower(s)[i];
  }

  /** `sub` occurs in `s` starting at index `i`. */
  predicate OccursAt(s: string, sub: string, i: nat)
  {
    i + |sub| <= |s| && s[i..i + |sub|] == sub
  }

  /** `s.includes(sub)`: `sub` occurs in `s` at some position. */
  predicate Contains(s: string, sub: string): (b: bool)
    ensures b ==> |sub| <= |s|
  {
    exists i: nat :: i <= |s| && OccursAt(s, sub, i)
  }

  /** Every string includes the empty string, and includes itself. */
  lemma ContainsTrivial(s: string)
    ensures Contains(s, "")
    ensures Contains(s, s)
  {
    assert OccursAt(s, "", 0);
    assert OccursAt(s, s, 0);
  }

  /** An occurrence, character by character. */
  lemma OccursAtByChars(s: string, sub: string, i: nat)
    requires i + |sub| <= |s|
    requires forall j :: 0 <= j < |sub| ==> s[i + j] == sub[j]
    ensures OccursAt(s, sub, i)
  {
    forall j | 0 <= j < |sub| ensures s[i..i + |sub|][j] == sub[j] {
      assert s[i..i + |sub|][j] == s[i + j];
    }
  }

  /** Lower-casing keeps an occurrence of a text that has no capitals. */
  lemma LowerKeepsOccurrence(s: string, sub: string, i: nat)
    requires OccursAt(s, sub, i)
    requires forall j :: 0 <= j < |sub| ==> !IsUpper(sub[j])
    ensures OccursAt(Lower(s), sub, i)
  {
    var l := Lower(s);
    forall j | 0 <= j < |sub| ensures l[i..i + |sub|][j] == sub[j] {
      assert s[i..i + |sub|][j] == s[i + j];
    }
  }

  /** A lower-case letter appears in the lower-cased text only where the
      text had it in either case. */
  lemma LowerLacksLetter(s: string, c: char)
    requires 'a' <= c <= 'z'
    requires c !in s && (c as int - 32) as char !in s
    ensures c !in Lower(s)
  {
    var l := Lower(s);
    forall i | 0 <= i < |l| ensures l[i] != c {
      assert l[i] == LowerChar(s[i]);
    }
  }

  /** The white-space characters `trim` removes (ASCII subset). */
  predicate IsSpace(c: char)
  {
    c == ' ' || c == '\t' || c == '\n' || c == '\r' || c == '\U{000B}' || c == '\U{000C}'
  }

  /** The first index from `i` on that does not hold white space, or the
      length when there is none. */
  function SkipSpace(s: string, i: nat): (k: nat)
    requires i <= |s|
    ensures i <= k <= |s|
    ensures forall j :: i <= j < k ==> IsSpace(s[j])
    ensures k == |s| || !IsSpace(s[k])
    decreases |s| - i
  {
    if i < |s| && IsSpace(s[i]) then SkipSpace(s, i + 1) else i
  }

  /** Walking back from `j` towards `lo`: the end of the last character
      before `j` that is not white space, or `lo` when there is none. */
  function SkipSpaceBack(s: string, lo: nat, j: nat): (k: nat)
    requires lo <= j <= |s|
    ensures lo <= k <= j
    ensures forall i :: k <= i < j ==> IsSpace(s[i])
    ensures k == lo || !IsSpace(s[k - 1])
  {
    if lo < j && IsSpace(s[j - 1]) then SkipSpaceBack(s, lo, j - 1) else j
  }

  /** `String.prototype.trim`: the longest infix with no white space at
      either end, everything cut off being white space. */
  function Trim(s: string): (r: string)
    ensures exists k: nat ::
      && k <= |s| && OccursAt(s, r, k)
      && (forall i :: 0 <= i < k ==> IsSpace(s[i]))
      && (forall i :: k + |r| <= i < |s| ==> IsSpace(s[i]))
    ensures r == [] || (!IsSpace(r[0]) && !IsSpace(r[|r| - 1]))
    ensures r == [] <==> forall i :: 0 <= i < |s| ==> IsSpace(s[i])
  {
    var start := SkipSpace(s, 0);
    var end := SkipSpaceBack(s, start, |s|);
    assert OccursAt(s, s[start..end], start);
    s[start..end]
  }

  /** The summed lengths of some texts. */
  function TotalLength(items: seq<string>): nat
  {
    if items == [] then 0 else |items[0]| + TotalLength(items[1..])
  }

  /** `Array.prototype.join(sep)`: the items in order, `sep` between
      neighbours. The result is as long as the items plus one separator
      between each two of them, and starts with the first item. */
  function Join(items: seq<string>, sep: string): (r: string)
    ensures |r| == TotalLength(items) + (if items == [] then 0 else (|items| - 1) * |sep|)
    ensures |items| >= 1 ==> |items[0]| <= |r| && r[..|items[0]|] == items[0]
    ensures |items| == 1 ==> r == items[0]
  {
    if items == [] then ""
    else if |items| == 1 then items[0]
    else
      var r := items[0] + sep + Join(items[1..], sep);
      assert r[..|items[0]|] == items[0];
      r
  }

  /** The number a string of decimal digits denotes, most significant
      first. */
  function DecimalValue(s: string): int
    decreases |s|
  {
    if s == [] then 0 else DecimalValue(s[..|s| - 1]) * 10 + (s[|s| - 1] as int - '0' as int)
  }

  predicate IsDigit(c: char) { '0' <= c <= '9' }

  /** The decimal digits of a natural number, most significant first, no
      leading zeros; reading them back gives the number. */
  function NatToString(n: nat): (r: string)
    ensures |r| >= 1
    ensures forall i :: 0 <= i < |r| ==> IsDigit(r[i])
    ensures |r| > 1 ==> r[0] != '0'
    ensures DecimalValue(r) == n
  {
    var d := ['0' + (n % 10) as char];
    if n < 10 then d
    else
      var r := NatToString(n / 10) + d;
      assert r[..|r| - 1] == NatToString(n / 10);
      r
  }

  /** An integer as JavaScript writes it in a template literal: a minus
      sign exactly for a negative number, then the decimal digits of its
      magnitude without leading zeros. */
  function IntToString(n: int): (r: string)
    ensures |r| >= 1
    ensures r[0] == '-' <==> n < 0
    ensures n >= 0 ==> (forall i :: 0 <= i < |r| ==> IsDigit(r[i])) && DecimalValue(r) == n
    ensures n < 0 ==> |r| >= 2 && (forall i :: 1 <= i < |r| ==> IsDigit(r[i])) && DecimalValue(r[1..]) == -n
    ensures |r| > 1 ==> r[0] != '0' && (r[0] == '-' ==> r[1] != '0')
  {
    if n < 0 then
      var r := "-" + NatToString(-n);
      assert r[1..] == NatToString(-n);
      r
    else NatToString(n)
  }
}
