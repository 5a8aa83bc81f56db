/**
 * The parts of Ruby's String and Integer behaviour that the configuration
 * resolver and the pull-request command rely on: String#strip on prompted
 * answers, Integer#to_s when an id is written to git config, String#to_i when
 * the story id is read back, String#<=> behind sort_by on project names, and
 * String#=~ with a pattern that is a plain literal.
 */
module RubyString {
  import opened Wrappers

  // ---------------------------------------------------------------------------
  // String#strip

  /** The characters String#strip removes: NUL, tab, line feed, vertical tab,
      form feed, carriage return and space. */
  predicate IsStripSpace(c: char) {
    c == '\0' || c == '\t' || c == '\n' || c == '\U{000B}' || c == '\U{000C}' || c == '\r' || c == ' '
  }

  predicate AllStripSpace(s: string) {
    forall i :: 0 <= i < |s| ==> IsStripSpace(s[i])
  }

  /** String#lstrip: the suffix left after the leading whitespace. */
  function LStrip(s: string): (r: string)
    ensures |r| <= |s| && r == s[|s| - |r|..]
    ensures AllStripSpace(s[..|s| - |r|])
    ensures r == [] || !IsStripSpace(r[0])
  {
    if s != [] && IsStripSpace(s[0]) then
      var t := s[1..];
      var r := LStrip(t);
      assert r == s[|s| - |r|..] by {
        assert t[|t| - |r|..] == s[|s| - |r|..];
      }
      SpaceBefore(s[0], t, |t| - |r|);
      assert s == [s[0]] + t;
      r
    else
      s
  }

  /** Whitespace put in front of a whitespace prefix gives a whitespace
      prefix one longer. */
  lemma SpaceBefore(c: char, t: string, n: nat)
    requires IsStripSpace(c) && n <= |t| && AllStripSpace(t[..n])
    ensures AllStripSpace(([c] + t)[..n + 1])
  {
    assert ([c] + t)[..n + 1] == [c] + t[..n];
  }

  /** String#rstrip: the prefix left before the trailing whitespace. */
  function RStrip(s: string): (r: string)
    ensures |r| <= |s| && r == s[..|r|]
    ensures AllStripSpace(s[|r|..])
    ensures r == [] || !IsStripSpace(r[|r| - 1])
  {
    if s != [] && IsStripSpace(s[|s| - 1]) then
      var r := RStrip(s[..|s| - 1]);
      assert s[|r|..] == s[..|s| - 1][|r|..] + [s[|s| - 1]];
      r
    else
      s
  }

  /** String#strip: the answer to a prompt with whitespace removed at both
      ends. */
  function Strip(s: string): (r: string)
    ensures r == [] || (!IsStripSpace(r[0]) && !IsStripSpace(r[|r| - 1]))
  {
    RStrip(LStrip(s))
  }

  /** What strip removes is whitespace only: the input is some whitespace,
      then the stripped answer, then some more whitespace. */
  lemma StripCutsOnlySpace(s: string)
    ensures exists pre, post :: s == pre + Strip(s) + post && AllStripSpace(pre) && AllStripSpace(post)
  {
    var l := LStrip(s);
    var k, r := |s| - |l|, RStrip(l);
    ThreePieces(s, l, r, k);
    assert s == s[..k] + Strip(s) + l[|r|..];
  }

  /** s cut at k, with a prefix r of the rest l cut off in turn. */
  lemma ThreePieces(s: string, l: string, r: string, k: nat)
    requires k <= |s| && l == s[k..] && |r| <= |l| && r == l[..|r|]
    ensures s == s[..k] + r + l[|r|..]
  {
    assert s == s[..k] + l;
    assert l == r + l[|r|..];
  }

  /** The answer strips to "" exactly when it is all whitespace. */
  lemma StripEmptyIff(s: string)
    ensures Strip(s) == [] <==> AllStripSpace(s)
  {
    var l := LStrip(s);
    var k := |s| - |l|;
    assert AllStripSpace(s[..k]);
    if Strip(s) == [] {
      assert AllStripSpace(l[0..]);
      assert s == s[..k] + l;
    } else {
      var r := Strip(s);
      assert r[0] == l[0] && l[0] == s[k];
      assert !IsStripSpace(s[k]);
    }
  }

  lemma StripIdempotent(s: string)
    ensures Strip(Strip(s)) == Strip(s)
  {
  }

  /** Text with no whitespace at either end is left as it is. */
  lemma StripKeepsTrimmed(s: string)
    requires s == [] || (!IsStripSpace(s[0]) && !IsStripSpace(s[|s| - 1]))
    ensures Strip(s) == s
  {
  }

  // ---------------------------------------------------------------------------
  // Integer#to_s for the non-negative ids of the tracker

  predicate IsDigit(c: char) {
    '0' <= c <= '9'
  }

  predicate AllDigits(s: string) {
    forall i :: 0 <= i < |s| ==> IsDigit(s[i])
  }

  function DigitValue(c: char): nat
    requires IsDigit(c)
  {
    c as int - '0' as int
  }

  function DigitChar(d: nat): (c: char)
    requires d < 10
    ensures IsDigit(c) && DigitValue(c) == d
  {
    ('0' as int + d) as char
  }

  /** Integer#to_s: the decimal numeral of n, digits only, never empty, with
      no leading zero except for 0 itself. */
  function Decimal(n: nat): (r: string)
    ensures |r| > 0 && AllDigits(r)
    ensures r[0] == '0' <==> n == 0
    ensures n == 0 ==> r == "0"
  {
    if n < 10 then [DigitChar(n)] else Decimal(n / 10) + [DigitChar(n % 10)]
  }

  /** The value of a run of decimal digits, most significant first. */
  function DigitsValue(ds: string): nat
    requires AllDigits(ds)
  {
    if ds == [] then 0 else DigitsValue(ds[..|ds| - 1]) * 10 + DigitValue(ds[|ds| - 1])
  }

  lemma {:induction false} DecimalValue(n: nat)
    ensures DigitsValue(Decimal(n)) == n
  {
    if n >= 10 {
      var d := Decimal(n / 10);
      assert (d + [DigitChar(n % 10)])[..|d|] == d;
      DecimalValue(n / 10);
    }
  }

  // ---------------------------------------------------------------------------
  // String#to_i (base 10)

  /** The characters String#to_i skips before the number: space, tab, line
      feed, vertical tab, form feed and carriage return (not NUL). */
  predicate IsLeadingSpace(c: char) {
    c == '\t' || c == '\n' || c == '\U{000B}' || c == '\U{000C}' || c == '\r' || c == ' '
  }

  /** The text after the whitespace to_i skips: a suffix, everything before
      it is skippable whitespace, and it does not start with such whitespace. */
  function SkipLeadingSpace(s: string): (r: string)
    ensures |r| <= |s| && r == s[|s| - |r|..]
    ensures forall i :: 0 <= i < |s| - |r| ==> IsLeadingSpace(s[i])
    ensures r == [] || !IsLeadingSpace(r[0])
  {
    if s != [] && IsLeadingSpace(s[0]) then
      var r := SkipLeadingSpace(s[1..]);
      assert forall i :: 1 <= i < |s| - |r| ==> s[i] == s[1..][i - 1];
      r
    else s
  }

  /** w has the shape to_i accepts for a numeral: a digit, then digits, each
      possibly after one underscore (or w is empty). */
  predicate IsNumeral(w: string) {
    w == [] || (IsDigit(w[0]) && forall i :: 0 < i < |w| ==> DigitOrJoin(w, i))
  }

  /** w[i] is a digit, or a single underscore with a digit after it. */
  predicate DigitOrJoin(w: string, i: int)
    requires 0 <= i < |w|
  {
    IsDigit(w[i]) || (w[i] == '_' && i + 1 < |w| && IsDigit(w[i + 1]))
  }

  /** w with its underscores removed. */
  function WithoutUnderscores(w: string): string {
    if w == [] then [] else (if w[0] == '_' then [] else [w[0]]) + WithoutUnderscores(w[1..])
  }

  lemma UnderscoresAfter(c: char, w: string)
    ensures WithoutUnderscores([c] + w) == (if c == '_' then [] else [c]) + WithoutUnderscores(w)
  {
    assert ([c] + w)[1..] == w;
  }

  /** A digit, an optional underscore and a numeral starting with a digit make
      a numeral. */
  lemma NumeralCharAt(w: string, j: int)
    requires IsNumeral(w) && 0 <= j < |w|
    ensures IsDigit(w[j]) || (j > 0 && w[j] == '_' && j + 1 < |w| && IsDigit(w[j + 1]))
  {
    assert w != [];
    if j > 0 {
      assert DigitOrJoin(w, j);
    }
  }

  lemma NumeralAfter(d: char, sep: string, w: string)
    requires IsDigit(d) && (sep == [] || sep == ['_']) && IsNumeral(w) && w != []
    ensures IsNumeral([d] + sep + w)
  {
    var v := [d] + sep + w;
    forall i | 0 < i < |v|
      ensures DigitOrJoin(v, i)
    {
      if i < 1 + |sep| {
        assert sep == ['_'] && i == 1;
        assert v[i] == '_' && v[i + 1] == w[0];
        NumeralCharAt(w, 0);
      } else {
        var j := i - 1 - |sep|;
        assert v[i] == w[j];
        if j + 1 < |w| {
          assert v[i + 1] == w[j + 1];
        }
        NumeralCharAt(w, j);
      }
    }
  }

  /** The length of the numeral to_i reads at the start of u: the longest
      prefix that is a numeral. It ends at the end of u, or at a character
      that is neither a digit nor an underscore followed by a digit. */
  function NumeralEnd(u: string): (n: nat)
    ensures n <= |u| && IsNumeral(u[..n])
    ensures n == 0 <==> (u == [] || !IsDigit(u[0]))
    ensures n < |u| ==> !IsDigit(u[n]) && (n == 0 || !(u[n] == '_' && n + 1 < |u| && IsDigit(u[n + 1])))
  {
    if u == [] || !IsDigit(u[0]) then 0
    else if |u| >= 3 && u[1] == '_' && IsDigit(u[2]) then
      var m := NumeralEnd(u[2..]);
      assert u[..2 + m] == [u[0]] + ['_'] + u[2..][..m];
      NumeralAfter(u[0], ['_'], u[2..][..m]);
      2 + m
    else
      var m := NumeralEnd(u[1..]);
      assert u[..1 + m] == [u[0]] + [] + u[1..][..m];
      if m > 0 then
        NumeralAfter(u[0], [], u[1..][..m]);
        1 + m
      else
        assert u[..1] == [u[0]];
        1 + m
  }

  /** The digits to_i reads at the start of u. */
  function DigitRun(u: string): (ds: string)
    ensures AllDigits(ds) && |ds| <= |u|
    ensures ds == [] <==> (u == [] || !IsDigit(u[0]))
  {
    if u == [] || !IsDigit(u[0]) then []
    else if |u| >= 3 && u[1] == '_' && IsDigit(u[2]) then [u[0]] + DigitRun(u[2..])
    else [u[0]] + DigitRun(u[1..])
  }

  /** The digits to_i reads are those of the leading numeral, without its
      underscores. */
  lemma {:induction false} DigitRunIsNumeral(u: string)
    ensures DigitRun(u) == WithoutUnderscores(u[..NumeralEnd(u)])
  {
    if u == [] || !IsDigit(u[0]) {
      assert u[..NumeralEnd(u)] == [];
    } else if |u| >= 3 && u[1] == '_' && IsDigit(u[2]) {
      var rest := u[2..];
      var m := NumeralEnd(rest);
      assert NumeralEnd(u) == 2 + m;
      calc {
        WithoutUnderscores(u[..NumeralEnd(u)]);
        == { assert u[..NumeralEnd(u)] == [u[0]] + (['_'] + rest[..m]); }
        WithoutUnderscores([u[0]] + (['_'] + rest[..m]));
        == { UnderscoresAfter(u[0], ['_'] + rest[..m]); UnderscoresAfter('_', rest[..m]); }
        [u[0]] + WithoutUnderscores(rest[..m]);
        == { DigitRunIsNumeral(rest); }
        [u[0]] + DigitRun(rest);
      }
    } else {
      var rest := u[1..];
      var m := NumeralEnd(rest);
      assert NumeralEnd(u) == 1 + m;
      calc {
        WithoutUnderscores(u[..NumeralEnd(u)]);
        == { assert u[..NumeralEnd(u)] == [u[0]] + rest[..m]; }
        WithoutUnderscores([u[0]] + rest[..m]);
        == { UnderscoresAfter(u[0], rest[..m]); }
        [u[0]] + WithoutUnderscores(rest[..m]);
        == { DigitRunIsNumeral(rest); }
        [u[0]] + DigitRun(rest);
      }
    }
  }

  /** The magnitude after the sign: an optional "0d" radix prefix, then the
      digit run; anything unparseable reads as 0. */
  function Magnitude(t: string): nat {
    var u := if |t| >= 2 && t[0] == '0' && (t[1] == 'd' || t[1] == 'D') then t[2..] else t;
    DigitsValue(DigitRun(u))
  }

  /** String#to_i: leading whitespace, one optional sign, then the longest
      numeral; a string with no numeral there reads as 0 instead of failing. */
  function ToI(s: string): int {
    var t := SkipLeadingSpace(s);
    if t != [] && t[0] == '-' then -(Magnitude(t[1..]) as int)
    else if t != [] && t[0] == '+' then Magnitude(t[1..])
    else Magnitude(t)
  }

  /** A run of digits followed by text that cannot continue a numeral is read
      in full. */
  lemma {:induction false} DigitRunOfDigits(u: string, t: string)
    requires AllDigits(u) && (t == [] || (!IsDigit(t[0]) && t[0] != '_'))
    ensures DigitRun(u + t) == u
  {
    if u != [] {
      assert (u + t)[1..] == u[1..] + t;
      DigitRunOfDigits(u[1..], t);
      assert u == [u[0]] + u[1..];
    } else {
      assert u + t == t;
    }
  }

  /** Writing a non-negative id with to_s and reading it back with to_i gives
      the id back. */
  lemma DecimalToI(n: nat)
    ensures ToI(Decimal(n)) == n
  {
    var d := Decimal(n);
    assert IsDigit(d[0]);
    assert SkipLeadingSpace(d) == d;
    assert |d| >= 2 ==> IsDigit(d[1]);
    assert ToI(d) == DigitsValue(DigitRun(d));
    DigitRunOfDigits(d, []);
    assert d + [] == d;
    DecimalValue(n);
  }

  /** Distinct ids have distinct numerals. */
  lemma DecimalInjective(m: nat, n: nat)
    requires Decimal(m) == Decimal(n)
    ensures m == n
  {
    DecimalToI(m);
    DecimalToI(n);
  }

  /** An unset value reads as 0, and so does any text where no digit follows
      the leading whitespace and the optional sign. */
  lemma ToIWithoutNumeral(s: string)
    requires var t := SkipLeadingSpace(s);
      var m := if t != [] && (t[0] == '-' || t[0] == '+') then t[1..] else t;
      m == [] || !IsDigit(m[0])
    ensures ToI(s) == 0
  {
  }

  /** An id followed by text that cannot continue the numeral reads as the id:
      to_i takes the leading numeral and ignores the rest. The id is positive
      so that a leading "0" followed by "d" is not read as a radix prefix. */
  lemma ToILeadingNumeral(n: nat, t: string)
    requires n > 0 && (t == [] || (!IsDigit(t[0]) && t[0] != '_'))
    ensures ToI(Decimal(n) + t) == n
  {
    var d := Decimal(n);
    var s := d + t;
    assert s[0] == d[0] && IsDigit(s[0]);
    assert SkipLeadingSpace(s) == s;
    assert s[0] != '0';
    assert ToI(s) == DigitsValue(DigitRun(s));
    DigitRunOfDigits(d, t);
    DecimalValue(n);
  }

  // ---------------------------------------------------------------------------
  // String#<=>, as used by sort_by

  /** a <=> b is not 1: a is a prefix of b, or a has the smaller character at
      the first position where they differ. */
  predicate NameLe(a: string, b: string) {
    if a == [] then true
    else if b == [] then false
    else if a[0] != b[0] then a[0] < b[0]
    else NameLe(a[1..], b[1..])
  }

  lemma {:induction false} NameLeTotal(a: string, b: string)
    ensures NameLe(a, b) || NameLe(b, a)
  {
    if a != [] && b != [] && a[0] == b[0] {
      NameLeTotal(a[1..], b[1..]);
    }
  }

  lemma {:induction false} NameLeTransitive(a: string, b: string, c: string)
    requires NameLe(a, b) && NameLe(b, c)
    ensures NameLe(a, c)
  {
    if a != [] && b != [] && c != [] && a[0] == b[0] && b[0] == c[0] {
      NameLeTransitive(a[1..], b[1..], c[1..]);
    }
  }

  lemma {:induction false} NameLeAntisymmetric(a: string, b: string)
    requires NameLe(a, b) && NameLe(b, a)
    ensures a == b
  {
    if a != [] && b != [] {
      NameLeAntisymmetric(a[1..], b[1..]);
      assert a == [a[0]] + a[1..];
      assert b == [b[0]] + b[1..];
    }
  }

  // ---------------------------------------------------------------------------
  // String#=~ with a literal pattern

  /** p occurs in s starting at index i. */
  predicate OccursAt(s: string, p: string, i: nat) {
    i + |p| <= |s| && s[i..i + |p|] == p
  }

  /** s =~ /p/ for a pattern p without special characters: the index of the
      first occurrence of p in s, or nil when there is none. */
  function MatchIndex(s: string, p: string): (r: Option<nat>)
    ensures r.Some? ==> OccursAt(s, p, r.value)
    ensures r.Some? ==> forall i: nat :: i < r.value ==> !OccursAt(s, p, i)
    ensures r.None? ==> forall i: nat :: !OccursAt(s, p, i)
    decreases |s|
  {
    if OccursAt(s, p, 0) then Some(0)
    else if s == [] then None
    else
      var rest := MatchIndex(s[1..], p);
      assert forall i: nat :: 1 <= i ==> (OccursAt(s, p, i) <==> OccursAt(s[1..], p, i - 1));
      match rest
      case Some(k) => Some(k + 1)
      case None => None
  }
}
