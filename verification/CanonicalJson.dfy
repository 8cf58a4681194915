/** The canonical JSON pieces: each piece of text ends where it says it ends and determines the value it renders. */
module CanonicalJson {
  import opened Text

  // ---- escaping ----------------------------------------------------------------------------

  function EscapeChar(c: char): string {
    if c == '\\' then "\\\\"
    else if c == '\"' then "\\\""
    else if c == '\n' then "\\n"
    else if c == '\r' then "\\r"
    else if c == '\t' then "\\t"
    else [c]
  }

  function Escape(s: string): string {
    if s == [] then [] else EscapeChar(s[0]) + Escape(s[1..])
  }

  lemma {:induction false} EscapeAppend(s: string, c: char)
    ensures Escape(s + [c]) == Escape(s) + EscapeChar(c)
  {
    if s == [] {
      assert (s + [c])[1..] == [];
    } else {
      EscapeAppend(s[1..], c);
      assert (s + [c])[1..] == s[1..] + [c];
    }
  }

  method JsonEscape(value: string) returns (out: string)
    ensures out == Escape(value)
  {
    out := [];
    for i := 0 to |value|
      invariant out == Escape(value[..i])
    {
      EscapeAppend(value[..i], value[i]);
      assert value[..i + 1] == value[..i] + [value[i]];
      var ch := value[i];
      match ch {
        case '\\' => out := out + "\\\\";
        case '\"' => out := out + "\\\"";
        case '\n' => out := out + "\\n";
        case '\r' => out := out + "\\r";
        case '\t' => out := out + "\\t";
        case _ => out := out + [ch];
      }
    }
    assert value[..|value|] == value;
  }

  function Unescaped(c: char): char {
    if c == 'n' then '\n' else if c == 'r' then '\r' else if c == 't' then '\t' else c
  }

  /** The reader of escaped text. */
  function Unescape(t: string): string {
    if t == [] then []
    else if t[0] == '\\' && |t| > 1 then [Unescaped(t[1])] + Unescape(t[2..])
    else [t[0]] + Unescape(t[1..])
  }

  lemma {:induction false} EscapeRoundTrip(s: string)
    ensures Unescape(Escape(s)) == s
  {
    if s != [] {
      var e, rest := EscapeChar(s[0]), Escape(s[1..]);
      EscapeRoundTrip(s[1..]);
      assert (e + rest)[|e|..] == rest && (e + rest)[0] == e[0] && (|e| == 2 ==> (e + rest)[1] == e[1]);
      assert Unescape(e + rest) == [s[0]] + Unescape(rest);
      assert s == [s[0]] + s[1..];
    }
  }

  function Quoted(s: string): string { "\"" + Escape(s) + "\"" }

  lemma EscapeCharPrefix(c: char, d: char, x: string, y: string)
    requires EscapeChar(c) + x == EscapeChar(d) + y
    ensures c == d && x == y
  {
    var u, v := EscapeChar(c) + x, EscapeChar(d) + y;
    assert u[0] == v[0];
    if |EscapeChar(c)| == 2 || |EscapeChar(d)| == 2 {
      assert u[0] == '\\' && |EscapeChar(c)| == 2 && |EscapeChar(d)| == 2;
      assert u[1] == EscapeChar(c)[1] && v[1] == EscapeChar(d)[1];
    }
    assert x == u[|EscapeChar(c)|..] && y == v[|EscapeChar(d)|..];
  }

  lemma QuoteFirst(s: string, x: string)
    ensures Closed(s, x)[0] == '\"' <==> s == []
  {
    if s != [] { assert Closed(s, x)[0] == EscapeChar(s[0])[0]; }
  }

  function Closed(s: string, x: string): string { Escape(s) + "\"" + x }

  lemma ClosedStep(s: string, x: string)
    ensures s == [] ==> Closed(s, x) == "\"" + x
    ensures s != [] ==> Closed(s, x) == EscapeChar(s[0]) + Closed(s[1..], x)
  {}

  /** Escaped text never runs past its closing quote, and determines what was escaped. */
  lemma {:induction false} EscapeDelimited(a: string, b: string, x: string, y: string)
    requires Closed(a, x) == Closed(b, y)
    ensures a == b && x == y
    decreases |a|
  {
    QuoteFirst(a, x);
    QuoteFirst(b, y);
    ClosedStep(a, x);
    ClosedStep(b, y);
    hide Closed, EscapeChar;
    if a == [] {
      assert x == Closed(a, x)[1..] && y == Closed(b, y)[1..];
    } else {
      EscapeCharPrefix(a[0], b[0], Closed(a[1..], x), Closed(b[1..], y));
      EscapeDelimited(a[1..], b[1..], x, y);
      assert a == [a[0]] + a[1..] && b == [b[0]] + b[1..];
    }
  }

  lemma QuotedDelimited(a: string, b: string, x: string, y: string)
    requires Quoted(a) + x == Quoted(b) + y
    ensures a == b && x == y
  {
    var u, v := Quoted(a) + x, Quoted(b) + y;
    assert u[1..] == Closed(a, x) && v[1..] == Closed(b, y);
    EscapeDelimited(a, b, x, y);
  }

  // ---- lists and maps ------------------------------------------------------------------------

  /** A map entry, or a bare list element when there is no value. */
  datatype Item = Element(text: string) | Entry(key: string, value: string)

  function ItemText(i: Item): string {
    match i
    case Element(s) => Quoted(s)
    case Entry(k, v) => Quoted(k) + ":" + Quoted(v)
  }

  function Join(items: seq<Item>): string {
    if items == [] then ""
    else if |items| == 1 then ItemText(items[0])
    else ItemText(items[0]) + "," + Join(items[1..])
  }

  lemma {:induction false} JoinAppend(items: seq<Item>, i: Item)
    ensures Join(items + [i]) == if items == [] then ItemText(i) else Join(items) + "," + ItemText(i)
  {
    var all := items + [i];
    if items != [] {
      assert all[1..] == items[1..] + [i] && all[0] == items[0];
      JoinAppend(items[1..], i);
      if |items| == 1 { assert items[1..] == []; }
    }
  }

  ghost function Elements(values: seq<string>): seq<Item> {
    seq(|values|, i requires 0 <= i < |values| => Element(values[i]))
  }

  ghost function Entries(m: map<string, string>): seq<Item> {
    var ks := Sorted(m.Keys);
    seq(|ks|, i requires 0 <= i < |ks| => assert ks[i] in ks; Entry(ks[i], m[ks[i]]))
  }

  ghost function ListText(values: seq<string>): string { "[" + Join(Elements(values)) + "]" }

  ghost function MapText(m: map<string, string>): string { "{" + Join(Entries(m)) + "}" }

  method StringVecJson(values: seq<string>) returns (out: string)
    ensures out == ListText(values)
  {
    var body := "";
    for i := 0 to |values|
      invariant body == Join(Elements(values[..i]))
    {
      assert Elements(values[..i + 1]) == Elements(values[..i]) + [Element(values[i])];
      JoinAppend(Elements(values[..i]), Element(values[i]));
      var text := JsonEscape(values[i]);
      body := if i == 0 then "\"" + text + "\"" else body + "," + ("\"" + text + "\"");
    }
    assert values[..|values|] == values;
    out := "[" + body + "]";
  }

  lemma JoinNone()
    ensures Join([]) == ""
  {}

  /** `keys` is the iteration order of the sorted map. */
  method StringMapJson(m: map<string, string>, keys: seq<string>) returns (out: string)
    requires keys == Sorted(m.Keys)
    ensures out == MapText(m)
  {
    hide Escape, Join, Sorted;
    var body := "";
    JoinNone();
    for i := 0 to |keys|
      invariant body == Join(Entries(m)[..i])
    {
      var k := keys[i];
      assert k in keys;
      assert Entries(m)[..i + 1] == Entries(m)[..i] + [Entry(k, m[k])];
      JoinAppend(Entries(m)[..i], Entry(k, m[k]));
      var key := JsonEscape(k);
      var value := JsonEscape(m[k]);
      var part := "\"" + key + "\":\"" + value + "\"";
      assert part == ItemText(Entry(k, m[k]));
      body := if i == 0 then part else body + "," + part;
    }
    assert Entries(m)[..|keys|] == Entries(m);
    out := "{" + body + "}";
  }

  ghost predicate SameKind(a: Item, b: Item) { a.Element? <==> b.Element? }

  /** What follows the key of an entry. */
  function AfterKey(v: string, x: string): string { ":" + (Quoted(v) + x) }

  lemma EntryOpens(k: string, v: string, x: string)
    ensures ItemText(Entry(k, v)) + x == Quoted(k) + AfterKey(v, x)
    ensures AfterKey(v, x)[1..] == Quoted(v) + x
  {
    hide Quoted;
  }

  lemma ItemDelimited(a: Item, b: Item, x: string, y: string)
    requires SameKind(a, b) && ItemText(a) + x == ItemText(b) + y
    ensures a == b && x == y
  {
    hide Quoted;
    match a
    case Element(s) => QuotedDelimited(s, b.text, x, y);
    case Entry(k, v) =>
      var u, w := AfterKey(v, x), AfterKey(b.value, y);
      EntryOpens(k, v, x);
      EntryOpens(b.key, b.value, y);
      hide ItemText;
      QuotedDelimited(k, b.key, u, w);
      assert u[1..] == w[1..];
      QuotedDelimited(v, b.value, x, y);
  }

  /** A run of items up to its closing bracket, and what follows. */
  function Bracketed(p: seq<Item>, close: char, x: string): string { Join(p) + [close] + x }

  /** What follows the first item of a run. */
  function Rest(p: seq<Item>, close: char, x: string): string
    requires p != []
  {
    if |p| == 1 then [close] + x else "," + Bracketed(p[1..], close, x)
  }

  lemma BracketedStep(p: seq<Item>, close: char, x: string)
    ensures p == [] ==> Bracketed(p, close, x) == [close] + x
    ensures p != [] ==> Bracketed(p, close, x) == ItemText(p[0]) + Rest(p, close, x)
  {
    hide ItemText;
    if |p| > 1 { Regroup(ItemText(p[0]), Join(p[1..]), [close], x); }
  }

  lemma Regroup(a: string, b: string, c: string, x: string)
    ensures a + "," + b + c + x == a + ("," + (b + c + x))
  {}

  lemma BracketedFirst(p: seq<Item>, close: char, x: string)
    requires close == ']' || close == '}'
    ensures Bracketed(p, close, x)[0] == close <==> p == []
  {
    if p != [] { assert Bracketed(p, close, x)[0] == ItemText(p[0])[0] == '\"'; }
  }

  lemma RestDetermines(p: seq<Item>, q: seq<Item>, close: char, x: string, y: string)
    requires p != [] && q != [] && close != ',' && Rest(p, close, x) == Rest(q, close, y)
    ensures |p| == 1 <==> |q| == 1
    ensures |p| == 1 ==> x == y
    ensures |p| > 1 ==> Bracketed(p[1..], close, x) == Bracketed(q[1..], close, y)
  {
    hide Bracketed;
    var u, v := Rest(p, close, x), Rest(q, close, y);
    assert u[0] == (if |p| == 1 then close else ',') && v[0] == (if |q| == 1 then close else ',');
    if |p| == 1 {
      assert x == u[1..] && y == v[1..];
    } else {
      assert u[1..] == Bracketed(p[1..], close, x) && v[1..] == Bracketed(q[1..], close, y);
    }
  }

  /** A comma-separated run up to a closing bracket determines its items. */
  lemma {:induction false} JoinDelimited(p: seq<Item>, q: seq<Item>, close: char, x: string, y: string)
    requires close == ']' || close == '}'
    requires forall i, j :: 0 <= i < |p| && 0 <= j < |q| ==> SameKind(p[i], q[j])
    requires Bracketed(p, close, x) == Bracketed(q, close, y)
    ensures p == q && x == y
    decreases |p|
  {
    hide ItemText, Bracketed, Rest, SameKind;
    BracketedFirst(p, close, x);
    BracketedFirst(q, close, y);
    BracketedStep(p, close, x);
    BracketedStep(q, close, y);
    if p == [] {
      assert x == ([close] + x)[1..] && y == ([close] + y)[1..];
    } else {
      ItemDelimited(p[0], q[0], Rest(p, close, x), Rest(q, close, y));
      RestDetermines(p, q, close, x, y);
      if |p| > 1 { JoinDelimited(p[1..], q[1..], close, x, y); }
      assert p == [p[0]] + p[1..] && q == [q[0]] + q[1..];
    }
  }

  lemma ListDelimited(a: seq<string>, b: seq<string>, x: string, y: string)
    requires ListText(a) + x == ListText(b) + y
    ensures a == b && x == y
  {
    hide Join;
    var p, q := Elements(a), Elements(b);
    assert (ListText(a) + x)[1..] == Bracketed(p, ']', x) && (ListText(b) + y)[1..] == Bracketed(q, ']', y);
    JoinDelimited(p, q, ']', x, y);
    assert |a| == |p| && |b| == |q|;
    assert forall i :: 0 <= i < |a| ==> p[i] == Element(a[i]) && q[i] == Element(b[i]);
  }

  lemma EntriesDetermine(m: map<string, string>, n: map<string, string>)
    requires Entries(m) == Entries(n)
    ensures m == n
  {
    var ks, ls := Sorted(m.Keys), Sorted(n.Keys);
    hide Sorted;
    assert |ks| == |Entries(m)| == |Entries(n)| == |ls|;
    forall i | 0 <= i < |ks| ensures ks[i] == ls[i] && ks[i] in m && ls[i] in n && m[ks[i]] == n[ls[i]] {
      assert ks[i] in ks && ls[i] in ls;
      assert Entries(m)[i] == Entry(ks[i], m[ks[i]]) && Entries(n)[i] == Entry(ls[i], n[ls[i]]);
    }
    assert ks == ls;
    forall k | k in m.Keys ensures k in n && m[k] == n[k] {
      assert k in ks;
      var i :| 0 <= i < |ks| && ks[i] == k;
    }
    forall k | k in n.Keys ensures k in m { assert k in ls; }
  }

  lemma MapDelimited(m: map<string, string>, n: map<string, string>, x: string, y: string)
    requires MapText(m) + x == MapText(n) + y
    ensures m == n && x == y
  {
    hide Join, Entries, Bracketed;
    var p, q := Entries(m), Entries(n);
    MapTextOpens(m, x);
    MapTextOpens(n, y);
    AllEntries(m);
    AllEntries(n);
    JoinDelimited(p, q, '}', x, y);
    EntriesDetermine(m, n);
  }

  lemma MapTextOpens(m: map<string, string>, x: string)
    ensures (MapText(m) + x)[1..] == Bracketed(Entries(m), '}', x)
  {
    hide Join, Entries;
  }

  lemma AllEntries(m: map<string, string>)
    ensures forall i :: 0 <= i < |Entries(m)| ==> Entries(m)[i].Entry?
  {}

  // ---- numbers and flags -----------------------------------------------------------------------

  function Signed(n: int): string { if n < 0 then "-" + Decimal(-n) else Decimal(n) }

  lemma SignedShape(n: int)
    ensures ',' !in Signed(n) && Signed(n) != []
    ensures Signed(n)[0] == '-' <==> n < 0
    ensures n == if n < 0 then -Value(Signed(n)[1..]) else Value(Signed(n))
  {
    ValueDecimal(if n < 0 then -n else n);
    if n < 0 { assert Signed(n)[1..] == Decimal(-n); }
  }

  lemma FirstComma(p: string, x: string, q: string, y: string)
    requires p + "," + x == q + "," + y && ',' !in p
    ensures |p| <= |q|
  {
    var s := p + "," + x;
    assert s[|q|] == (q + "," + y)[|q|] == ',';
  }

  lemma NumberDelimited(a: int, b: int, x: string, y: string)
    requires Signed(a) + "," + x == Signed(b) + "," + y
    ensures a == b && x == y
  {
    SignedShape(a);
    SignedShape(b);
    var p, q := Signed(a), Signed(b);
    hide Signed;
    FirstComma(p, x, q, y);
    FirstComma(q, y, p, x);
    var s, t := p + "," + x, q + "," + y;
    assert p == s[..|p|] && q == t[..|q|] && x == s[|p| + 1..] && y == t[|q| + 1..];
  }

  function Bool(b: bool): string { if b then "true" else "false" }

  lemma BoolDelimited(a: bool, b: bool, x: string, y: string)
    requires Bool(a) + x == Bool(b) + y
    ensures a == b && x == y
  {
    var u, v := Bool(a) + x, Bool(b) + y;
    assert u[0] == Bool(a)[0] && v[0] == Bool(b)[0];
    assert x == u[|Bool(a)|..] && y == v[|Bool(b)|..];
  }

  /** How numbers and flags read. */
  lemma ScalarsRead(n: nat)
    ensures Signed(n) == Decimal(n) && (n > 0 ==> Signed(0 - n) == "-" + Decimal(n))
    ensures Bool(true) == "true" && Bool(false) == "false"
  {}
}
