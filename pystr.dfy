/**
 * The few Python `str` operations the experiment-name rules are built from:
 * `sub in s`, `s.split(sep)[0]`, `s.split(sep)[-1]`, `s.rsplit(sep, 1)[0]`,
 * `f"{n}"` for an int and `int(s)` restricted to ASCII text.
 */
module PyStr {
  import opened Wrappers

  /** `sub` occurs in `s` starting at index `i`. */
  predicate OccursAt(s: string, sub: string, i: nat)
  {
    i + |sub| <= |s| && s[i..i + |sub|] == sub
  }

  /** `s.find(sub, start)`: the first occurrence at or after `start`. */
  function FindFrom(s: string, sub: string, start: nat): (r: Option<nat>)
    ensures r.Some? ==> start <= r.value && OccursAt(s, sub, r.value)
    ensures r.Some? ==> forall j | start <= j < r.value :: !OccursAt(s, sub, j)
    ensures r.None? ==> forall j: nat | start <= j :: !OccursAt(s, sub, j)
    decreases |s| - start
  {
    if start + |sub| > |s| then None
    else if s[start..start + |sub|] == sub then Some(start)
    else FindFrom(s, sub, start + 1)
  }

  /** `s.find(sub)`. */
  function Find(s: string, sub: string): Option<nat>
  {
    FindFrom(s, sub, 0)
  }

  /** `sub in s`. */
  predicate Contains(s: string, sub: string)
  {
    Find(s, sub).Some?
  }

  lemma ContainsAt(s: string, sub: string, i: nat)
    requires OccursAt(s, sub, i)
    ensures Contains(s, sub)
  {
  }

  lemma NotContains(s: string, sub: string)
    requires forall j: nat :: !OccursAt(s, sub, j)
    ensures !Contains(s, sub)
  {
  }

  /** A string built around `sub` holds it. */
  lemma ContainsMiddle(a: string, sub: string, b: string)
    ensures Contains(a + sub + b, sub)
  {
    assert (a + sub + b)[|a|..|a| + |sub|] == sub;
    ContainsAt(a + sub + b, sub, |a|);
  }

  /** A string holding `longer` also holds every prefix of it. */
  lemma ContainsPrefixOf(s: string, sub: string, longer: string)
    requires sub <= longer && Contains(s, longer)
    ensures Contains(s, sub)
  {
    var i := Find(s, longer).value;
    assert s[i..i + |sub|] == s[i..i + |longer|][..|sub|];
    ContainsAt(s, sub, i);
  }

  /** An occurrence inside a prefix is an occurrence in the whole string. */
  lemma OccursInPrefix(s: string, t: string, sub: string, j: nat)
    requires t <= s && OccursAt(t, sub, j)
    ensures OccursAt(s, sub, j)
  {
    assert t[j..j + |sub|] == s[j..j + |sub|];
  }

  /** The greatest occurrence below `k`. */
  function RFindBelow(s: string, sub: string, k: nat): (r: Option<nat>)
    ensures r.Some? ==> r.value < k && OccursAt(s, sub, r.value)
    ensures r.Some? ==> forall j | r.value < j < k :: !OccursAt(s, sub, j)
    ensures r.None? ==> forall j: nat | j < k :: !OccursAt(s, sub, j)
    decreases k
  {
    if k == 0 then None
    else if OccursAt(s, sub, k - 1) then Some(k - 1)
    else RFindBelow(s, sub, k - 1)
  }

  /** `s.rfind(sub)`: the last occurrence. */
  function RFind(s: string, sub: string): (r: Option<nat>)
    ensures r.Some? ==> OccursAt(s, sub, r.value)
    ensures r.Some? ==> forall j: nat | r.value < j :: !OccursAt(s, sub, j)
    ensures r.None? ==> forall j: nat :: !OccursAt(s, sub, j)
  {
    RFindBelow(s, sub, |s| + 1)
  }

  /** `s.split(sep)[0]`: the text before the first `sep`, or all of `s`. */
  function SplitHead(s: string, sep: string): (r: string)
    requires |sep| > 0
    ensures r <= s
    ensures !Contains(r, sep)
    ensures Contains(s, sep) <==> OccursAt(s, sep, |r|)
    ensures !Contains(s, sep) ==> r == s
  {
    match Find(s, sep)
    case None => s
    case Some(i) =>
      var r := s[..i];
      forall j: nat ensures !OccursAt(r, sep, j) {
        if OccursAt(r, sep, j) {
          OccursInPrefix(s, r, sep, j);
        }
      }
      NotContains(r, sep);
      r
  }

  /**
   * `s.split(sep)[-1]`: Python's split scans left to right, so the last piece is
   * what is left after repeatedly cutting at the first occurrence.
   */
  function SplitTail(s: string, sep: string): (r: string)
    requires |sep| > 0
    ensures |r| <= |s| && r == s[|s| - |r|..]
    ensures !Contains(r, sep)
    ensures !Contains(s, sep) ==> r == s
    ensures Contains(s, sep) ==> |r| <= |s| - |sep|
    decreases |s|
  {
    var f := Find(s, sep);
    if f.None? then s
    else
      var i := f.value;
      var rest := s[i + |sep|..];
      var r := SplitTail(rest, sep);
      SuffixOfRest(s, i + |sep|, r);
      r
  }

  /** A suffix of what follows position `k` is a suffix of the whole. */
  lemma SuffixOfRest(s: string, k: nat, r: string)
    requires k <= |s| && |r| <= |s| - k && r == s[k..][|s| - k - |r|..]
    ensures |r| <= |s| - k && r == s[|s| - |r|..]
  {
  }

  /** `s.rsplit(sep, 1)[0]`: the text before the last `sep`, or all of `s`. */
  function RSplitHead(s: string, sep: string): (r: string)
    requires |sep| > 0
    ensures r <= s
    ensures !Contains(s, sep) ==> r == s
    ensures Contains(s, sep) ==> OccursAt(s, sep, |r|) && forall j: nat | |r| < j :: !OccursAt(s, sep, j)
  {
    match RFind(s, sep)
    case None =>
      NotContains(s, sep);
      s
    case Some(i) =>
      ContainsAt(s, sep, i);
      s[..i]
  }

  // ---------------------------------------------------------------------------
  // Facts about how these behave on names built as `prefix + marker + suffix`.

  /** No proper suffix of `sep` is also a prefix of it: two occurrences never overlap. */
  predicate BorderFree(sep: string)
  {
    forall k | 0 < k < |sep| :: sep[k..] != sep[..|sep| - k]
  }

  /** Two overlapping occurrences of `sep` exhibit a border of `sep`. */
  lemma OverlapIsBorder(s: string, sep: string, i: nat, j: nat)
    requires OccursAt(s, sep, i) && OccursAt(s, sep, j) && i < j
    ensures j < i + |sep| ==> sep[j - i..] == sep[..|sep| - (j - i)]
  {
    if j < i + |sep| {
      var k := j - i;
      assert s[i..i + |sep|][k..] == s[j..j + |sep|][..|sep| - k];
    }
  }

  lemma NoCloseOccurrences(s: string, sep: string, i: nat, j: nat)
    requires BorderFree(sep)
    requires OccursAt(s, sep, i) && OccursAt(s, sep, j) && i < j
    ensures i + |sep| <= j
  {
    OverlapIsBorder(s, sep, i, j);
  }

  /** A separator whose first character does not recur in it has no border. */
  lemma BorderFreeByFirst(sep: string)
    requires |sep| > 0 && forall k | 0 < k < |sep| :: sep[k] != sep[0]
    ensures BorderFree(sep)
  {
    forall k | 0 < k < |sep| ensures sep[k..] != sep[..|sep| - k] {
      assert sep[k..][0] == sep[k];
    }
  }

  /** When the last character of `sub` never appears in `b`, `sub in a + b` is `sub in a`. */
  lemma ContainsBeforeSuffix(a: string, b: string, sub: string)
    requires |sub| > 0
    requires forall i | 0 <= i < |b| :: b[i] != sub[|sub| - 1]
    ensures Contains(a + b, sub) <==> Contains(a, sub)
  {
    var s := a + b;
    if Contains(a, sub) {
      var j := Find(a, sub).value;
      OccursInPrefix(s, a, sub, j);
      ContainsAt(s, sub, j);
    }
    if Contains(s, sub) {
      var j := Find(s, sub).value;
      var last := j + |sub| - 1;
      assert s[last] == sub[|sub| - 1] by {
        assert s[j..j + |sub|][|sub| - 1] == s[last];
      }
      assert last < |a|;
      assert s[j..j + |sub|] == a[j..j + |sub|];
      ContainsAt(a, sub, j);
    }
  }

  /** An occurrence in `a + b` none of whose characters of `b` appear in `sub` lies in `a`. */
  lemma NoOccurrenceAcross(a: string, b: string, sub: string)
    requires |sub| > 0
    requires !Contains(a, sub)
    requires forall i | 0 <= i < |b| :: b[i] !in sub
    ensures !Contains(a + b, sub)
  {
    var s := a + b;
    forall j: nat ensures !OccursAt(s, sub, j) {
      if j + |sub| <= |a| {
        assert s[j..j + |sub|] == a[j..j + |sub|];
        assert !OccursAt(a, sub, j);
      } else if j + |sub| <= |s| {
        var p := if j >= |a| then j else |a|;
        assert s[p] == b[p - |a|];
        assert s[j..j + |sub|][p - j] !in sub;
        assert sub[p - j] in sub;
      }
    }
    NotContains(s, sub);
  }

  /** Splitting `x + sep + d` on `sep` and keeping the last piece gives `d`. */
  lemma {:induction false} SplitTailMarker(x: string, sep: string, d: string)
    requires |sep| > 0 && BorderFree(sep)
    requires !Contains(d, sep)
    ensures SplitTail(x + sep + d, sep) == d
    decreases |x|
  {
    var s := x + sep + d;
    var i := FirstCut(x, sep, d);
    var rest := SplitTailStep(s, sep);
    if i < |x| {
      var x' := x[i + |sep|..];
      DropPrefixPart(x, sep, d, i + |sep|);
      assert rest == x' + sep + d;
      SplitTailMarker(x', sep, d);
    } else {
      assert rest == d;
    }
  }

  /** The first `sep` in `x + sep + d` is the marker or ends inside `x`. */
  lemma FirstCut(x: string, sep: string, d: string) returns (i: nat)
    requires |sep| > 0 && BorderFree(sep)
    ensures Contains(x + sep + d, sep) && i == Find(x + sep + d, sep).value
    ensures i == |x| || i + |sep| <= |x|
  {
    var s := x + sep + d;
    assert OccursAt(s, sep, |x|) by { assert s[|x|..|x| + |sep|] == sep; }
    i := Find(s, sep).value;
    if i < |x| {
      NoCloseOccurrences(s, sep, i, |x|);
    }
  }

  lemma DropPrefixPart(x: string, sep: string, d: string, k: nat)
    requires k <= |x|
    ensures (x + sep + d)[k..] == x[k..] + sep + d
  {
  }

  /** What follows the first `sep` is split the same way as the whole string. */
  lemma SplitTailStep(s: string, sep: string) returns (rest: string)
    requires |sep| > 0 && Contains(s, sep)
    ensures Find(s, sep).value + |sep| <= |s|
    ensures rest == s[Find(s, sep).value + |sep|..]
    ensures SplitTail(s, sep) == SplitTail(rest, sep)
  {
    rest := s[Find(s, sep).value + |sep|..];
  }

  /**
   * For a separator without a border (such as `"seed"`, `"gamma"`, `"_seed"` or
   * `"_"`), `s.split(sep)[-1]` is exactly the text after the last occurrence.
   */
  lemma SplitTailAfterLast(s: string, sep: string)
    requires |sep| > 0 && BorderFree(sep) && Contains(s, sep)
    ensures RFind(s, sep).Some? && RFind(s, sep).value + |sep| <= |s|
    ensures SplitTail(s, sep) == s[RFind(s, sep).value + |sep|..]
  {
    assert OccursAt(s, sep, Find(s, sep).value);
    var q := RFind(s, sep).value;
    var x, d := s[..q], s[q + |sep|..];
    assert s == x + sep + d;
    forall j: nat ensures !OccursAt(d, sep, j) {
      if OccursAt(d, sep, j) {
        ShiftOccurrence(s, q + |sep|, sep, j);
      }
    }
    NotContains(d, sep);
    SplitTailMarker(x, sep, d);
  }

  /** An occurrence in what follows position `k` is an occurrence in the whole. */
  lemma ShiftOccurrence(s: string, k: nat, sub: string, j: nat)
    requires k <= |s| && OccursAt(s[k..], sub, j)
    ensures OccursAt(s, sub, k + j)
  {
    assert s[k..][j..j + |sub|] == s[k + j..k + j + |sub|];
  }

  /** Splitting `g + sep + d` on `sep` and keeping the first piece gives `g`. */
  lemma SplitHeadMarker(g: string, sep: string, d: string)
    requires |sep| > 0 && BorderFree(sep)
    requires !Contains(g, sep)
    ensures SplitHead(g + sep + d, sep) == g
  {
    var s := g + sep + d;
    assert OccursAt(s, sep, |g|) by { assert s[|g|..|g| + |sep|] == sep; }
    var i := Find(s, sep).value;
    if i < |g| {
      if i + |sep| <= |g| {
        assert s[i..i + |sep|] == g[i..i + |sep|];
        ContainsAt(g, sep, i);
      } else {
        NoCloseOccurrences(s, sep, i, |g|);
      }
    }
    assert i == |g|;
  }

  /** Cutting `e + sep + d` before its last `sep` gives `e`. */
  lemma RSplitHeadMarker(e: string, sep: string, d: string)
    requires |sep| > 0 && BorderFree(sep)
    requires !Contains(d, sep)
    ensures RSplitHead(e + sep + d, sep) == e
  {
    var s := e + sep + d;
    assert OccursAt(s, sep, |e|) by { assert s[|e|..|e| + |sep|] == sep; }
    ContainsAt(s, sep, |e|);
    var i := RFind(s, sep).value;
    if i > |e| {
      if i < |e| + |sep| {
        NoCloseOccurrences(s, sep, |e|, i);
      } else {
        assert s[i..i + |sep|] == d[i - |e| - |sep|..i - |e|];
        ContainsAt(d, sep, i - |e| - |sep|);
      }
    }
  }

  // ---------------------------------------------------------------------------
  // Integers as text.

  predicate IsDigit(c: char)
  {
    '0' <= c <= '9'
  }

  function DigitChar(d: nat): (c: char)
    requires d < 10
    ensures IsDigit(c) && c as int - '0' as int == d
  {
    ('0' as int + d) as char
  }

  /** `str(n)` for a non-negative int: decimal digits, no leading zeros. */
  function NatToString(n: nat): (s: string)
    ensures |s| > 0
    ensures forall i | 0 <= i < |s| :: IsDigit(s[i])
    decreases n
  {
    if n < 10 then [DigitChar(n)] else NatToString(n / 10) + [DigitChar(n % 10)]
  }

  /** `f"{n}"` for an int. */
  function IntToString(n: int): string
  {
    if n < 0 then "-" + NatToString(-n) else NatToString(n)
  }

  /** The characters `str.strip()` removes from ASCII text. */
  predicate IsSpace(c: char)
  {
    c == ' ' || c == '\t' || c == '\n' || c == '\r' || c == '\U{B}' || c == '\U{C}'
    || ('\U{1C}' <= c <= '\U{1F}')
  }

  function StripLeft(s: string): string
    decreases |s|
  {
    if s != [] && IsSpace(s[0]) then StripLeft(s[1..]) else s
  }

  function StripRight(s: string): string
    decreases |s|
  {
    if s != [] && IsSpace(s[|s| - 1]) then StripRight(s[..|s| - 1]) else s
  }

  /** Digits with single underscores between them, as `int()` accepts: `1_000`. */
  predicate IsDigitGroups(s: string)
  {
    && |s| > 0 && IsDigit(s[0]) && IsDigit(s[|s| - 1])
    && (forall i | 0 <= i < |s| :: IsDigit(s[i]) || s[i] == '_')
    && (forall i | 0 <= i < |s| - 1 :: !(s[i] == '_' && s[i + 1] == '_'))
  }

  function DigitsOnly(s: string): string
    decreases |s|
  {
    if s == [] then [] else DigitsOnly(s[..|s| - 1]) + (if s[|s| - 1] == '_' then [] else [s[|s| - 1]])
  }

  /** Value of a decimal digit string, most significant digit first. */
  function DigitsValue(s: string): nat
    decreases |s|
  {
    if s == [] then 0
    else
      var d := s[|s| - 1] as int - '0' as int;
      DigitsValue(s[..|s| - 1]) * 10 + (if 0 <= d < 10 then d else 0)
  }

  /** `int(s)` on ASCII text: `None` where Python raises `ValueError`. */
  function ParseInt(s: string): Option<int>
  {
    var t := StripRight(StripLeft(s));
    if |t| > 0 && (t[0] == '-' || t[0] == '+') then
      var body := t[1..];
      if IsDigitGroups(body) then
        var v: int := DigitsValue(DigitsOnly(body));
        Some(if t[0] == '-' then -v else v)
      else None
    else if IsDigitGroups(t) then Some(DigitsValue(DigitsOnly(t)) as int)
    else None
  }

  lemma {:induction false} DigitsOnlyOfDigits(s: string)
    requires forall i | 0 <= i < |s| :: IsDigit(s[i])
    ensures DigitsOnly(s) == s
  {
    if s != [] {
      DigitsOnlyOfDigits(s[..|s| - 1]);
    }
  }

  lemma {:induction false} DigitsValueOfNat(n: nat)
    ensures DigitsValue(NatToString(n)) == n
    decreases n
  {
    var s := NatToString(n);
    if n >= 10 {
      DigitsValueOfNat(n / 10);
      assert s[..|s| - 1] == NatToString(n / 10);
    }
  }

  lemma StripDigits(s: string)
    requires |s| > 0 && !IsSpace(s[0]) && !IsSpace(s[|s| - 1])
    ensures StripRight(StripLeft(s)) == s
  {
  }

  /** The decimal text of a natural number is one group of digits. */
  lemma DigitGroupsOfNat(m: nat)
    ensures IsDigitGroups(NatToString(m))
    ensures DigitsValue(DigitsOnly(NatToString(m))) == m
  {
    var digits := NatToString(m);
    assert forall i | 0 <= i < |digits| - 1 :: digits[i] != '_';
    DigitsOnlyOfDigits(digits);
    DigitsValueOfNat(m);
  }

  lemma ParseNatString(m: nat)
    ensures ParseInt(NatToString(m)) == Some(m)
  {
    var digits := NatToString(m);
    StripDigits(digits);
    DigitGroupsOfNat(m);
    assert IsDigit(digits[0]);
  }

  lemma ParseNegatedString(m: nat)
    ensures ParseInt("-" + NatToString(m)) == Some(-(m as int))
  {
    DigitGroupsOfNat(m);
    NegatedDigits(NatToString(m), m);
  }

  lemma NegatedDigits(digits: string, v: nat)
    requires IsDigitGroups(digits) && DigitsValue(DigitsOnly(digits)) == v
    ensures ParseInt("-" + digits) == Some(-(v as int))
  {
    var s := "-" + digits;
    assert s[0] == '-' && s[|s| - 1] == digits[|digits| - 1];
    StripDigits(s);
    assert s[1..] == digits;
    ParseSigned(s, v);
  }

  /** A stripped text of a `-` and one group of digits reads as the negated value of the digits. */
  lemma ParseSigned(s: string, v: nat)
    requires |s| > 0 && s[0] == '-' && StripRight(StripLeft(s)) == s
    requires IsDigitGroups(s[1..]) && DigitsValue(DigitsOnly(s[1..])) == v
    ensures ParseInt(s) == Some(-(v as int))
  {
    var t := StripRight(StripLeft(s));
    assert |t| > 0 && t[0] == '-' && t[1..] == s[1..];
    var w: int := DigitsValue(DigitsOnly(t[1..]));
    assert w == v;
  }

  /** Reading back the decimal text of an int gives the int: `int(f"{n}") == n`. */
  lemma ParseIntOfIntToString(n: int)
    ensures ParseInt(IntToString(n)) == Some(n)
  {
    var m: nat := if n < 0 then -n else n;
    if n < 0 {
      assert IntToString(n) == "-" + NatToString(m);
      ParseNegatedString(m);
    } else {
      assert IntToString(n) == NatToString(m);
      ParseNatString(m);
    }
  }

  /** The decimal text of an int holds only digits and `-`. */
  lemma IntToStringChars(n: int)
    ensures forall i | 0 <= i < |IntToString(n)| :: IsDigit(IntToString(n)[i]) || IntToString(n)[i] == '-'
  {
  }
}
