/**
 * The number extractor of the natural-language amount parser: Python's
 * `re.findall(r'\$?(\d+(?:,\d{3})*(?:\.\d{2})?)', query)`, each match with its commas
 * removed and converted with `float()`, written as a left-to-right scanner.
 *
 * Every part after `\d+` is optional, so the regex engine's first (greedy) choice always
 * succeeds: a match is the longest digit run, then as many `,ddd` groups as follow, then one
 * `.dd` if it follows. A `$` not followed by a digit starts no match.
 */
module AmountText {

  predicate IsDigit(c: char)
  {
    '0' <= c <= '9'
  }

  /** Some character of `s` is a digit. */
  predicate HasDigit(s: string)
  {
    exists i :: 0 <= i < |s| && IsDigit(s[i])
  }

  function DigitValue(c: char): nat
    requires IsDigit(c)
  {
    c as int - '0' as int
  }

  /** The length of `\d+` taken greedily at the start of `s` (0 when `s` starts with no digit). */
  function DigitRun(s: string): (n: nat)
    ensures n <= |s|
  {
    if s != [] && IsDigit(s[0]) then 1 + DigitRun(s[1..]) else 0
  }

  /** The length of `(?:,\d{3})*` taken greedily at the start of `s`. */
  function GroupsLength(s: string): (n: nat)
    ensures n <= |s|
  {
    if |s| >= 4 && s[0] == ',' && IsDigit(s[1]) && IsDigit(s[2]) && IsDigit(s[3])
    then 4 + GroupsLength(s[4..])
    else 0
  }

  /** The length of `(?:\.\d{2})?` at the start of `s`. */
  function CentsLength(s: string): (n: nat)
    ensures n <= |s|
  {
    if |s| >= 3 && s[0] == '.' && IsDigit(s[1]) && IsDigit(s[2]) then 3 else 0
  }

  /** The length of the match that starts with the digit at the start of `s`. */
  function TokenLength(s: string): (n: nat)
    requires s != [] && IsDigit(s[0])
    ensures 1 <= n <= |s|
  {
    var whole := DigitRun(s);
    var grouped := whole + GroupsLength(s[whole..]);
    grouped + CentsLength(s[grouped..])
  }

  /** The decimal value of the digits of `s`, commas skipped (`int(s.replace(',', ''))`). */
  function DigitsValue(s: string): nat
  {
    if s == [] then 0
    else if IsDigit(s[|s| - 1]) then 10 * DigitsValue(s[..|s| - 1]) + DigitValue(s[|s| - 1])
    else DigitsValue(s[..|s| - 1])
  }

  /** `float(t.replace(',', ''))` for a matched token `t`: whole part, and cents when `t` ends in `.dd`. */
  function TokenValue(t: string): real
  {
    if |t| >= 3 && t[|t| - 3] == '.'
    then DigitsValue(t[..|t| - 3]) as real + DigitsValue(t[|t| - 2..]) as real / 100.0
    else DigitsValue(t) as real
  }

  /** The amounts mentioned in `s`, left to right. */
  function Amounts(s: string): (r: seq<real>)
    ensures forall x :: x in r ==> x >= 0.0
    decreases |s|
  {
    if s == [] then []
    else
      var start := if s[0] == '$' && |s| >= 2 && IsDigit(s[1]) then 1 else 0;
      if IsDigit(s[start]) then
        var rest := s[start..];
        var n := TokenLength(rest);
        [TokenValue(rest[..n])] + Amounts(rest[n..])
      else Amounts(s[1..])
  }

  /** The query mentions an amount exactly when it contains a digit. */
  lemma {:induction false} AmountsIffDigit(s: string)
    ensures Amounts(s) != [] <==> HasDigit(s)
    decreases |s|
  {
    if s == [] {
    } else {
      var start := if s[0] == '$' && |s| >= 2 && IsDigit(s[1]) then 1 else 0;
      if IsDigit(s[start]) {
        assert IsDigit(s[start]);
      } else {
        assert !IsDigit(s[0]);
        AmountsIffDigit(s[1..]);
        if HasDigit(s) {
          var i :| 0 <= i < |s| && IsDigit(s[i]);
          assert s[1..][i - 1] == s[i];
        }
        if HasDigit(s[1..]) {
          var i :| 0 <= i < |s[1..]| && IsDigit(s[1..][i]);
          assert s[i + 1] == s[1..][i];
        }
      }
    }
  }

  /** The digit character for `d < 10`. */
  function DigitChar(d: nat): (c: char)
    requires d < 10
    ensures IsDigit(c) && DigitValue(c) == d
  {
    ('0' as int + d) as char
  }

  /** `str(n)`: the decimal numeral of `n`, without leading zeros. */
  function Numeral(n: nat): (s: string)
    ensures |s| > 0
    ensures forall i :: 0 <= i < |s| ==> IsDigit(s[i])
  {
    if n < 10 then [DigitChar(n)] else Numeral(n / 10) + [DigitChar(n % 10)]
  }

  /** The three digits of `k < 1000`, zero-padded, after a comma: `f",{k:03d}"`. */
  function Triple(k: nat): string
    requires k < 1000
  {
    [',', DigitChar(k / 100), DigitChar(k / 10 % 10), DigitChar(k % 10)]
  }

  /** `f"{n:,}"`: the numeral of `n` with a comma before every group of three digits. */
  function Grouped(n: nat): string
  {
    if n < 1000 then Numeral(n) else Grouped(n / 1000) + Triple(n % 1000)
  }

  /** The thousands groups of `Grouped(n)`, after its leading one to three digits. */
  function GroupTail(n: nat): string
  {
    if n < 1000 then [] else GroupTail(n / 1000) + Triple(n % 1000)
  }

  /** The leading group of `Grouped(n)`. */
  function LeadGroup(n: nat): nat
  {
    if n < 1000 then n else LeadGroup(n / 1000)
  }

  /** A string made of `,ddd` blocks only. */
  predicate IsGroups(t: string)
    decreases |t|
  {
    t == [] || (|t| >= 4 && t[0] == ',' && IsDigit(t[1]) && IsDigit(t[2]) && IsDigit(t[3]) && IsGroups(t[4..]))
  }

  /** `s` does not continue a number: it does not start with a digit, a comma or a point. */
  predicate EndsNumber(s: string)
  {
    s == [] || (!IsDigit(s[0]) && s[0] != ',' && s[0] != '.')
  }

  lemma {:induction false} GroupedSplits(n: nat)
    ensures Grouped(n) == Numeral(LeadGroup(n)) + GroupTail(n)
    ensures IsGroups(GroupTail(n))
  {
    if n >= 1000 {
      GroupedSplits(n / 1000);
      TripleIsGroup(n % 1000);
      GroupsAppend(GroupTail(n / 1000), Triple(n % 1000));
    }
  }

  lemma TripleIsGroup(k: nat)
    requires k < 1000
    ensures IsGroups(Triple(k))
  {
    assert Triple(k)[4..] == [];
  }

  /** Blocks of `,ddd` followed by more such blocks are still such blocks. */
  lemma {:induction false} GroupsAppend(t: string, b: string)
    requires IsGroups(t) && IsGroups(b)
    ensures IsGroups(t + b)
    decreases |t|
  {
    if t == [] {
      assert t + b == b;
    } else {
      assert (t + b)[4..] == t[4..] + b;
      GroupsAppend(t[4..], b);
    }
  }

  lemma {:induction false} DigitRunOfDigits(d: string, s: string)
    requires forall i :: 0 <= i < |d| ==> IsDigit(d[i])
    requires s == [] || !IsDigit(s[0])
    ensures DigitRun(d + s) == |d|
  {
    if d == [] {
      assert d + s == s;
    } else {
      assert (d + s)[1..] == d[1..] + s;
      DigitRunOfDigits(d[1..], s);
    }
  }

  lemma {:induction false} GroupsLengthOfGroups(t: string, s: string)
    requires IsGroups(t)
    requires s == [] || s[0] != ','
    ensures GroupsLength(t + s) == |t|
  {
    if t == [] {
      assert t + s == s;
    } else {
      var t' := t[4..];
      assert (t + s)[4..] == t' + s;
      GroupsLengthOfGroups(t', s);
    }
  }

  lemma {:induction false} DigitsValueOfNumeral(n: nat)
    ensures DigitsValue(Numeral(n)) == n
  {
    if n >= 10 {
      var s := Numeral(n);
      assert s[..|s| - 1] == Numeral(n / 10);
      DigitsValueOfNumeral(n / 10);
    }
  }

  /** Appending a digit shifts the value one place left and adds the digit. */
  lemma DigitsValueAppendDigit(g: string, d: nat)
    requires d < 10
    ensures DigitsValue(g + [DigitChar(d)]) == 10 * DigitsValue(g) + d
  {
    var s := g + [DigitChar(d)];
    assert s[..|s| - 1] == g;
  }

  /** A comma does not change the value. */
  lemma DigitsValueAppendComma(g: string)
    ensures DigitsValue(g + [',']) == DigitsValue(g)
  {
    var s := g + [','];
    assert s[..|s| - 1] == g;
  }

  /** Appending a `,ddd` group multiplies the value so far by a thousand and adds the group. */
  lemma DigitsValueAppendTriple(g: string, k: nat)
    requires k < 1000
    ensures DigitsValue(g + Triple(k)) == 1000 * DigitsValue(g) + k
  {
    var a, b, c := k / 100, k / 10 % 10, k % 10;
    var s0 := g + [','];
    var s1 := s0 + [DigitChar(a)];
    var s2 := s1 + [DigitChar(b)];
    var s3 := s2 + [DigitChar(c)];
    assert g + Triple(k) == s3;
    DigitsValueAppendComma(g);
    DigitsValueAppendDigit(s0, a);
    DigitsValueAppendDigit(s1, b);
    DigitsValueAppendDigit(s2, c);
    ThreeDigits(k);
  }

  /** `k < 1000` is its hundreds, tens and units digits. */
  lemma ThreeDigits(k: nat)
    requires k < 1000
    ensures k == 100 * (k / 100) + 10 * (k / 10 % 10) + k % 10
  {
    var q := k / 10;
    assert k == 10 * q + k % 10;
    assert q == 10 * (q / 10) + q % 10;
    assert q / 10 == k / 100;
  }

  lemma {:induction false} DigitsValueOfGrouped(n: nat)
    ensures DigitsValue(Grouped(n)) == n
  {
    if n < 1000 {
      DigitsValueOfNumeral(n);
    } else {
      DigitsValueOfGrouped(n / 1000);
      DigitsValueAppendTriple(Grouped(n / 1000), n % 1000);
    }
  }

  /** The match is the digit run, then the `,ddd` blocks, when no `.dd` follows them. */
  lemma TokenLengthSplit(t: string, whole: nat, groups: nat)
    requires t != [] && IsDigit(t[0])
    requires DigitRun(t) == whole && whole + groups <= |t|
    requires GroupsLength(t[whole..]) == groups && EndsNumber(t[whole + groups..])
    ensures TokenLength(t) == whole + groups
  {
  }

  lemma Associative(a: string, b: string, c: string)
    ensures a + b + c == a + (b + c)
  {
  }

  /** The match that starts with a digit run and `,ddd` blocks, followed by `s`, is exactly those. */
  lemma TokenLengthOfParts(lead: string, tail: string, s: string)
    requires lead != [] && forall i :: 0 <= i < |lead| ==> IsDigit(lead[i])
    requires IsGroups(tail) && EndsNumber(s)
    ensures lead + tail + s != [] && IsDigit((lead + tail + s)[0])
    ensures TokenLength(lead + tail + s) == |lead| + |tail|
  {
    var r := tail + s;
    var t := lead + tail + s;
    Associative(lead, tail, s);
    assert t[0] == lead[0];
    assert r == [] || !IsDigit(r[0]) by {
      if tail != [] { assert r[0] == tail[0] == ','; }
    }
    DigitRunOfDigits(lead, r);
    GroupsLengthOfGroups(tail, s);
    assert t[|lead|..] == r;
    assert t[|lead| + |tail|..] == s;
    TokenLengthSplit(t, |lead|, |tail|);
  }

  /** The match that starts a grouped numeral followed by `s` is the whole numeral. */
  lemma TokenLengthOfGrouped(n: nat, s: string)
    requires EndsNumber(s)
    ensures Grouped(n) + s != [] && IsDigit((Grouped(n) + s)[0])
    ensures TokenLength(Grouped(n) + s) == |Grouped(n)|
  {
    GroupedSplits(n);
    TokenLengthOfParts(Numeral(LeadGroup(n)), GroupTail(n), s);
  }

  /** A grouped numeral is read as its whole value: it has no cents part. */
  lemma {:induction false} TokenValueOfGrouped(n: nat)
    ensures TokenValue(Grouped(n)) == n as real
  {
    GroupedSplits(n);
    var lead, tail := Numeral(LeadGroup(n)), GroupTail(n);
    var g := Grouped(n);
    assert !(|g| >= 3 && g[|g| - 3] == '.') by {
      if |g| >= 3 {
        var i := |g| - 3;
        if i < |lead| {
          assert g[i] == lead[i];
        } else {
          assert g[i] == tail[i - |lead|];
          assert (i - |lead|) % 4 == 0 || IsDigit(tail[i - |lead|]);
        }
      }
    }
    DigitsValueOfGrouped(n);
  }

  /** An amount written with thousands separators, followed by text that does not continue
      it, is read back exactly: `re.findall` sees the whole numeral and nothing else. */
  lemma {:induction false} AmountsOfGrouped(n: nat, s: string)
    requires EndsNumber(s)
    ensures Amounts(Grouped(n) + s) == [n as real] + Amounts(s)
  {
    var g := Grouped(n);
    var t := g + s;
    TokenLengthOfGrouped(n, s);
    assert t[0..] == t;
    assert t[..|g|] == g;
    assert t[|g|..] == s;
    TokenValueOfGrouped(n);
  }

  /** An amount written without separators (`str(n)`), followed by text that does not continue
      it, is read back exactly. */
  lemma AmountsOfNumeral(n: nat, s: string)
    requires EndsNumber(s)
    ensures Amounts(Numeral(n) + s) == [n as real] + Amounts(s)
  {
    var g := Numeral(n);
    var t := g + s;
    assert g + [] == g;
    assert IsGroups([]);
    TokenLengthOfParts(g, [], s);
    assert t[0..] == t;
    assert t[..|g|] == g;
    assert t[|g|..] == s;
    assert !(|g| >= 3 && g[|g| - 3] == '.') by {
      if |g| >= 3 {
        assert IsDigit(g[|g| - 3]);
      }
    }
    DigitsValueOfNumeral(n);
  }

  /** The cents part `f".{c:02d}"` for `c < 100`. */
  function Cents(c: nat): (t: string)
    requires c < 100
    ensures |t| == 3 && t[0] == '.' && IsDigit(t[1]) && IsDigit(t[2])
  {
    ['.', DigitChar(c / 10), DigitChar(c % 10)]
  }

  /** Two digits after the point spell their value. */
  lemma DigitsValueOfCents(c: nat)
    requires c < 100
    ensures DigitsValue(Cents(c)[1..]) == c
  {
    var d1, d2 := DigitChar(c / 10), DigitChar(c % 10);
    assert Cents(c)[1..] == [] + [d1] + [d2];
    DigitsValueAppendDigit([], c / 10);
    DigitsValueAppendDigit([] + [d1], c % 10);
  }

  /** Before text that continues it with neither a digit nor a `,ddd` group, the digit run and
      the groups of a grouped numeral are exactly that numeral. */
  lemma GroupedWhole(n: nat, r: string)
    requires r == [] || (!IsDigit(r[0]) && r[0] != ',')
    ensures Grouped(n) + r != [] && IsDigit((Grouped(n) + r)[0])
    ensures var t := Grouped(n) + r;
      DigitRun(t) <= |t| && DigitRun(t) + GroupsLength(t[DigitRun(t)..]) == |Grouped(n)|
  {
    GroupedSplits(n);
    var lead, tail := Numeral(LeadGroup(n)), GroupTail(n);
    var t := Grouped(n) + r;
    assert t == lead + (tail + r);
    assert t[0] == lead[0];
    assert tail + r == [] || !IsDigit((tail + r)[0]) by {
      if tail != [] { assert (tail + r)[0] == tail[0] == ','; }
    }
    DigitRunOfDigits(lead, tail + r);
    GroupsLengthOfGroups(tail, r);
    assert t[|lead|..] == tail + r;
  }

  /** The match that starts a grouped numeral with cents is the numeral and its three cents characters. */
  lemma TokenLengthOfCents(n: nat, c: nat, s: string)
    requires c < 100
    ensures Grouped(n) + Cents(c) + s != [] && IsDigit((Grouped(n) + Cents(c) + s)[0])
    ensures TokenLength(Grouped(n) + Cents(c) + s) == |Grouped(n)| + 3
  {
    var g, r := Grouped(n), Cents(c) + s;
    assert g + Cents(c) + s == g + r;
    GroupedWhole(n, r);
    assert (g + r)[|g|..] == r;
    assert r[..3] == Cents(c);
  }

  /** A grouped numeral with cents is read as its whole value plus the cents as hundredths. */
  lemma TokenValueOfCents(n: nat, c: nat)
    requires c < 100
    ensures TokenValue(Grouped(n) + Cents(c)) == n as real + c as real / 100.0
  {
    var g, u := Grouped(n), Grouped(n) + Cents(c);
    assert u[|u| - 3] == '.';
    assert u[..|u| - 3] == g;
    assert u[|u| - 2..] == Cents(c)[1..];
    DigitsValueOfGrouped(n);
    DigitsValueOfCents(c);
  }

  /** When the match at a digit is exactly `u`, the scanner yields `u`'s value and goes on after it. */
  lemma AmountsStep(u: string, s: string)
    requires u != [] && IsDigit(u[0])
    requires TokenLength(u + s) == |u|
    ensures Amounts(u + s) == [TokenValue(u)] + Amounts(s)
  {
    var t := u + s;
    assert t[0] == u[0];
    assert t[0..] == t;
    assert t[..|u|] == u;
    assert t[|u|..] == s;
  }

  /** A grouped amount with cents is read as the whole value plus the cents as hundredths,
      and scanning goes on right after the two cents digits. */
  lemma AmountsOfCents(n: nat, c: nat, s: string)
    requires c < 100
    ensures Amounts(Grouped(n) + Cents(c) + s) == [n as real + c as real / 100.0] + Amounts(s)
  {
    var u := Grouped(n) + Cents(c);
    TokenLengthOfCents(n, c, s);
    assert u[0] == (Grouped(n) + Cents(c) + s)[0];
    AmountsStep(u, s);
    TokenValueOfCents(n, c);
  }

  /** A `$` right before a digit is matched and dropped. */
  lemma AmountsAfterDollar(r: string)
    requires r != [] && IsDigit(r[0])
    ensures Amounts("$" + r) == Amounts(r)
  {
    var t := "$" + r;
    assert t[1..] == r && t[1] == r[0];
    assert r[0..] == r;
  }

  /** The same amount after a dollar sign: `$` is matched and dropped. */
  lemma AmountsOfDollars(n: nat, s: string)
    requires EndsNumber(s)
    ensures Amounts("$" + Grouped(n) + s) == [n as real] + Amounts(s)
  {
    TokenLengthOfGrouped(n, s);
    assert "$" + Grouped(n) + s == "$" + (Grouped(n) + s);
    AmountsAfterDollar(Grouped(n) + s);
    AmountsOfGrouped(n, s);
  }

  /** `w` holds no digit and no dollar sign. */
  predicate Plain(w: string)
  {
    forall i :: 0 <= i < |w| ==> !IsDigit(w[i]) && w[i] != '$'
  }

  /** Text without digits or dollar signs contributes no amount. */
  lemma {:induction false} AmountsSkipText(w: string, s: string)
    requires Plain(w)
    ensures Amounts(w + s) == Amounts(s)
  {
    if w != [] {
      assert (w + s)[1..] == w[1..] + s;
      AmountsSkipText(w[1..], s);
    } else {
      assert w + s == s;
    }
  }
}
