/** Strings as the Rust sources see them: code-point order, `trim`, and zero-padded decimals. */
module Text {

  /** The strict order of Rust's `str::cmp` (byte order of UTF-8 is code-point order). */
  predicate Less(a: string, b: string) {
    b != [] && (a == [] || a[0] < b[0] || (a[0] == b[0] && Less(a[1..], b[1..])))
  }

  lemma {:induction false} LessTotal(a: string, b: string)
    ensures !Less(a, a)
    ensures Less(a, b) || a == b || Less(b, a)
    ensures !(Less(a, b) && Less(b, a))
  {
    if a != [] {
      LessTotal(a[1..], a[1..]);
      if b != [] {
        LessTotal(a[1..], b[1..]);
        assert a == [a[0]] + a[1..] && b == [b[0]] + b[1..];
      }
    }
  }

  lemma {:induction false} LessTransitive(a: string, b: string, c: string)
    requires Less(a, b) && Less(b, c)
    ensures Less(a, c)
  {
    if a != [] && a[0] == b[0] == c[0] {
      LessTransitive(a[1..], b[1..], c[1..]);
    }
  }

  /** `a` and `b` agree up to `k`, where `a` ends first or has the smaller character. */
  ghost predicate DiffersAt(a: string, b: string, k: nat) {
    && k <= |a| && k < |b| && a[..k] == b[..k]
    && (k == |a| || a[k] < b[k])
  }

  lemma AgreeAtFirst(a: string, b: string, k: nat)
    requires DiffersAt(a, b, k) && a != []
    ensures k > 0 ==> a[0] == b[0]
  {
    if k > 0 { assert a[..k][0] == b[..k][0]; }
  }

  /** The order is lexicographic. */
  lemma {:induction false} LessExactly(a: string, b: string)
    ensures Less(a, b) <==> exists k: nat :: DiffersAt(a, b, k)
  {
    if a == [] {
      if b != [] { assert DiffersAt(a, b, 0); }
    } else if b != [] && a[0] != b[0] {
      if a[0] < b[0] { assert DiffersAt(a, b, 0); }
      forall k: nat | DiffersAt(a, b, k) ensures k == 0 { AgreeAtFirst(a, b, k); }
    } else if b != [] {
      LessExactly(a[1..], b[1..]);
      if k: nat :| DiffersAt(a[1..], b[1..], k) {
        assert a[..k + 1] == [a[0]] + a[1..][..k] && b[..k + 1] == [b[0]] + b[1..][..k];
        assert DiffersAt(a, b, k + 1);
      }
      if k: nat :| DiffersAt(a, b, k) {
        assert k > 0;
        assert a[1..][..k - 1] == a[..k][1..] && b[1..][..k - 1] == b[..k][1..];
        assert DiffersAt(a[1..], b[1..], k - 1);
      }
    }
  }

  /** Unicode White_Space, the set behind `char::is_whitespace`. */
  predicate IsWhitespace(c: char) {
    var n := c as int;
    9 <= n <= 13 || n == 0x20 || n == 0x85 || n == 0xA0 || n == 0x1680 || 0x2000 <= n <= 0x200A
    || n == 0x2028 || n == 0x2029 || n == 0x202F || n == 0x205F || n == 0x3000
  }

  function TrimStart(s: string): string {
    if s != [] && IsWhitespace(s[0]) then TrimStart(s[1..]) else s
  }

  function TrimEnd(s: string): string {
    if s != [] && IsWhitespace(s[|s| - 1]) then TrimEnd(s[..|s| - 1]) else s
  }

  function Trim(s: string): string { TrimEnd(TrimStart(s)) }

  predicate Trimmed(s: string) {
    s == [] || (!IsWhitespace(s[0]) && !IsWhitespace(s[|s| - 1]))
  }

  lemma TrimStartShape(s: string)
    ensures TrimStart(s) == [] || !IsWhitespace(TrimStart(s)[0])
    ensures TrimStart(s) == [] || (s != [] && TrimStart(s)[|TrimStart(s)| - 1] == s[|s| - 1])
  {}

  lemma TrimEndShape(s: string)
    ensures TrimEnd(s) <= s
    ensures TrimEnd(s) == [] || !IsWhitespace(TrimEnd(s)[|TrimEnd(s)| - 1])
    ensures s != [] && !IsWhitespace(s[0]) ==> TrimEnd(s) != []
  {}

  /** `trim` removes exactly the outer whitespace: its result is trimmed, and trimmed text is left alone. */
  lemma TrimLaws(s: string)
    ensures Trimmed(Trim(s))
    ensures Trimmed(s) <==> Trim(s) == s
  {
    TrimStartShape(s);
    TrimEndShape(TrimStart(s));
  }

  ghost predicate Blank(s: string) { forall i :: 0 <= i < |s| ==> IsWhitespace(s[i]) }

  lemma {:induction false} TrimStartCuts(s: string) returns (i: nat)
    ensures i <= |s| && TrimStart(s) == s[i..] && Blank(s[..i])
  {
    i := 0;
    if s != [] && IsWhitespace(s[0]) {
      var k := TrimStartCuts(s[1..]);
      i := k + 1;
      assert s[1..][k..] == s[i..] && s[..i] == [s[0]] + s[1..][..k];
    }
  }

  lemma {:induction false} TrimEndCuts(s: string) returns (j: nat)
    ensures j <= |s| && TrimEnd(s) == s[..j] && Blank(s[j..])
  {
    j := |s|;
    if s != [] && IsWhitespace(s[|s| - 1]) {
      var most := s[..|s| - 1];
      j := TrimEndCuts(most);
      assert most[..j] == s[..j] && s[j..] == most[j..] + [s[|s| - 1]];
    }
  }

  /** What is left is what stood between blank ends. */
  lemma TrimCuts(s: string) returns (before: string, after: string)
    ensures s == before + Trim(s) + after && Blank(before) && Blank(after)
  {
    var i := TrimStartCuts(s);
    var j := TrimEndCuts(s[i..]);
    before, after := s[..i], s[i..][j..];
  }

  // ---- decimals ---------------------------------------------------------------------------

  function Digit(d: nat): char
    requires d < 10
  {
    '0' + d as char
  }

  function Decimal(n: nat): string
    ensures Decimal(n) != []
  {
    if n < 10 then [Digit(n)] else Decimal(n / 10) + [Digit(n % 10)]
  }

  /** `format!("{:0w$}", n)`. */
  function ZeroPad(n: nat, width: nat): string {
    Zeros(width - |Decimal(n)|) + Decimal(n)
  }

  function Zeros(k: int): string { seq(if k < 0 then 0 else k, i => '0') }

  predicate IsDigit(c: char) { '0' <= c <= '9' }

  ghost predicate AllDigits(s: string) { forall i :: 0 <= i < |s| ==> IsDigit(s[i]) }

  /** The number a digit string denotes; the left inverse of the formatters. */
  ghost function Value(s: string): int {
    if s == [] then 0 else 10 * Value(s[..|s| - 1]) + (s[|s| - 1] as int - '0' as int)
  }

  lemma {:induction false} ValueDecimal(n: nat)
    ensures Value(Decimal(n)) == n
    ensures AllDigits(Decimal(n))
  {
    if n >= 10 {
      ValueDecimal(n / 10);
      assert Decimal(n)[..|Decimal(n)| - 1] == Decimal(n / 10);
    } else {
      assert Decimal(n)[..0] == [];
    }
  }

  lemma {:induction false} ValueZeros(k: nat, s: string)
    ensures Value(Zeros(k) + s) == Value(s)
    decreases |s|, k
  {
    var t := Zeros(k) + s;
    if s != [] {
      assert t[..|t| - 1] == Zeros(k) + s[..|s| - 1];
      ValueZeros(k, s[..|s| - 1]);
    } else if k > 0 {
      assert t[..|t| - 1] == Zeros(k - 1) + s;
      ValueZeros(k - 1, s);
    }
  }

  lemma PaddedDigits(n: nat, width: nat)
    ensures Value(ZeroPad(n, width)) == n
    ensures ZeroPad(n, width) != []
    ensures AllDigits(ZeroPad(n, width))
  {
    ValueDecimal(n);
    var k := width - |Decimal(n)|;
    ValueZeros(if k < 0 then 0 else k, Decimal(n));
  }

  lemma {:induction false} DecimalStarts(n: nat)
    ensures n > 0 ==> Decimal(n)[0] != '0'
    ensures n < 10 ==> |Decimal(n)| == 1
  {
    if n >= 10 { DecimalStarts(n / 10); }
  }

  /** The padding reaches the width and goes no further: a longer number starts with its first digit. */
  lemma PaddedWidth(n: nat, width: nat)
    requires width > 0
    ensures |ZeroPad(n, width)| >= width
    ensures |ZeroPad(n, width)| > width ==> ZeroPad(n, width)[0] != '0'
  {
    DecimalStarts(n);
  }

  /** A dash cannot fall inside a run of digits, so the last dash of both readings is the same one. */
  lemma LastDash(p: string, x: string, q: string, y: string)
    requires p + "-" + x == q + "-" + y && AllDigits(x)
    ensures |q| <= |p|
  {
    var s := p + "-" + x;
    assert s[|q|] == (q + "-" + y)[|q|] == '-';
  }

  /** An id built as `<anything>-<padded number>` determines the number, whatever the prefixes are. */
  lemma NumberedIdsInjective(p: string, m: nat, q: string, n: nat, width: nat)
    requires p + "-" + ZeroPad(m, width) == q + "-" + ZeroPad(n, width)
    ensures m == n && p == q
  {
    var x, y := ZeroPad(m, width), ZeroPad(n, width);
    PaddedDigits(m, width);
    PaddedDigits(n, width);
    LastDash(p, x, q, y);
    LastDash(q, y, p, x);
    var s := p + "-" + x;
    assert p == s[..|p|] && q == s[..|q|];
    assert x == s[|p| + 1..] && y == s[|q| + 1..];
  }

  // ---- sorted keys, the iteration order of a BTreeMap ----------------------------------------

  ghost predicate IsLeast(k: string, ks: set<string>) {
    k in ks && forall x :: x in ks && x != k ==> Less(k, x)
  }

  lemma {:induction false} LeastExists(ks: set<string>)
    requires ks != {}
    ensures exists k :: IsLeast(k, ks)
  {
    var k :| k in ks;
    if ks == {k} {
      assert IsLeast(k, ks);
    } else {
      assert ks - {k} != {};
      LeastExists(ks - {k});
      var r :| IsLeast(r, ks - {k});
      LessTotal(k, r);
      if Less(r, k) {
        assert IsLeast(r, ks);
      } else {
        forall x | x in ks && x != k ensures Less(k, x) {
          if x != r { LessTransitive(k, r, x); }
        }
        assert IsLeast(k, ks);
      }
    }
  }

  lemma LeastUnique(ks: set<string>)
    ensures forall a, b :: IsLeast(a, ks) && IsLeast(b, ks) ==> a == b
  {
    forall a, b | IsLeast(a, ks) && IsLeast(b, ks) ensures a == b {
      LessTotal(a, b);
    }
  }

  ghost function Sorted(ks: set<string>): (r: seq<string>)
    ensures forall x :: x in r <==> x in ks
    ensures |r| == |ks|
  {
    if ks == {} then [] else
      LeastExists(ks);
      var k :| IsLeast(k, ks);
      [k] + Sorted(ks - {k})
  }

  lemma SortedStep(ks: set<string>, k: string)
    requires IsLeast(k, ks)
    ensures Sorted(ks) == [k] + Sorted(ks - {k})
  {
    LeastUnique(ks);
  }

  ghost predicate Rises(r: seq<string>) { forall i, j :: 0 <= i < j < |r| ==> Less(r[i], r[j]) }

  lemma RisesFrom(k: string, rest: seq<string>)
    requires Rises(rest) && forall x :: x in rest ==> Less(k, x)
    ensures Rises([k] + rest)
  {
    hide Less;
  }

  lemma {:induction false} SortedRises(ks: set<string>)
    ensures Rises(Sorted(ks))
  {
    if ks == {} {
      assert Sorted(ks) == [];
    } else {
      hide Rises, Sorted, Less;
      LeastExists(ks);
      var k :| IsLeast(k, ks);
      SortedStep(ks, k);
      SortedRises(ks - {k});
      RisesFrom(k, Sorted(ks - {k}));
    }
  }
}
