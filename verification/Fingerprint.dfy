/**
 * The canonical form of a request (src/orders/orders.service.ts:21-35). The
 * hash of its text is taken to be injective, so requests have equal
 * fingerprints exactly when these values are equal.
 */
module Fingerprint {
  /** Identifiers are numbers here: 24 lower-case hexadecimal digits compare like the numbers they denote. */
  datatype Line = Line(product: nat, quantity: nat)

  datatype Request = Request(customer: nat, shippingAddress: string, items: seq<Line>)

  datatype Canonical = Canonical(customer: nat, shippingAddress: string, items: seq<Line>)

  /** White space and line terminators as ECMAScript's trim understands them. */
  predicate IsSpace(c: char) {
    || c == '\t' || c == '\n' || c == '\U{0B}' || c == '\U{0C}' || c == '\r' || c == ' ' || c == '\U{A0}'
        || c == '\U{1680}'
    || '\U{2000}' <= c <= '\U{200A}' || c == '\U{2028}' || c == '\U{2029}' || c == '\U{202F}' || c == '\U{205F}'
    || c == '\U{3000}' || c == '\U{FEFF}'
  }

  predicate AllSpace(s: string) {
    forall i :: 0 <= i < |s| ==> IsSpace(s[i])
  }

  function TrimStart(s: string): string {
    if s != [] && IsSpace(s[0]) then TrimStart(s[1..]) else s
  }

  function TrimEnd(s: string): string {
    if s != [] && IsSpace(s[|s| - 1]) then TrimEnd(s[..|s| - 1]) else s
  }

  function Trim(s: string): string {
    TrimEnd(TrimStart(s))
  }

  /** Neither begins nor ends with white space. */
  predicate Tight(s: string) {
    s == [] || (!IsSpace(s[0]) && !IsSpace(s[|s| - 1]))
  }

  /** Puts a line before all lines of greater or equal product. */
  function Insert(line: Line, sorted: seq<Line>): seq<Line> {
    if sorted == [] || line.product <= sorted[0].product then [line] + sorted
    else [sorted[0]] + Insert(line, sorted[1..])
  }

  /** A stable sort by product. */
  function SortByProduct(items: seq<Line>): seq<Line> {
    if items == [] then [] else Insert(items[0], SortByProduct(items[1..]))
  }

  function Canonicalize(r: Request): Canonical {
    Canonical(r.customer, Trim(r.shippingAddress), SortByProduct(r.items))
  }

  // ---------------------------------------------------------------- trimming

  lemma {:induction false} TrimStartSplits(s: string) returns (before: string)
    ensures AllSpace(before) && s == before + TrimStart(s)
    ensures TrimStart(s) == [] || !IsSpace(TrimStart(s)[0])
  {
    before := [];
    if s != [] && IsSpace(s[0]) {
      var rest := TrimStartSplits(s[1..]);
      before := [s[0]] + rest;
    }
  }

  lemma {:induction false} TrimEndSplits(s: string) returns (after: string)
    ensures AllSpace(after) && s == TrimEnd(s) + after
    ensures TrimEnd(s) == [] || !IsSpace(TrimEnd(s)[|TrimEnd(s)| - 1])
  {
    after := [];
    if s != [] && IsSpace(s[|s| - 1]) {
      var rest := TrimEndSplits(s[..|s| - 1]);
      after := rest + [s[|s| - 1]];
    }
  }

  lemma {:induction false} TrimStartSkips(before: string, s: string)
    requires AllSpace(before)
    ensures TrimStart(before + s) == TrimStart(s)
  {
    if before == [] {
      assert before + s == s;
    } else {
      assert (before + s)[1..] == before[1..] + s;
      TrimStartSkips(before[1..], s);
    }
  }

  lemma {:induction false} TrimEndSkips(s: string, after: string)
    requires AllSpace(after)
    ensures TrimEnd(s + after) == TrimEnd(s)
  {
    if after == [] {
      assert s + after == s;
    } else {
      assert (s + after)[..|s + after| - 1] == s + after[..|after| - 1];
      TrimEndSkips(s, after[..|after| - 1]);
    }
  }

  lemma TrimTight(s: string)
    requires Tight(s)
    ensures Trim(s) == s
  {
  }

  /** The trimmed text is the one tight text that becomes the original by putting white space around it. */
  lemma TrimIff(s: string, core: string)
    ensures Trim(s) == core <==>
            Tight(core) && exists before, after :: AllSpace(before) && AllSpace(after) && s == before + core + after
  {
    var before := TrimStartSplits(s);
    var after := TrimEndSplits(TrimStart(s));
    assert s == before + Trim(s) + after;
    assert Tight(Trim(s));
    if Tight(core) && exists b, a :: AllSpace(b) && AllSpace(a) && s == b + core + a {
      var b, a :| AllSpace(b) && AllSpace(a) && s == b + core + a;
      assert s == b + (core + a);
      TrimStartSkips(b, core + a);
      if core == [] {
        assert core + a == a == a + [];
        TrimStartSkips(a, []);
      } else {
        assert TrimStart(core + a) == core + a;
        TrimEndSkips(core, a);
        TrimTight(core);
      }
    }
  }

  /** Letters, digits and punctuation of ASCII. */
  predicate IsInk(c: char) {
    '!' <= c <= '~'
  }

  /** Blanks, tabs and line breaks are white space, and nothing that leaves ink is. */
  lemma InkIsNoSpace(c: char)
    ensures c == ' ' || c == '\t' || c == '\n' || c == '\r' || c == '\U{A0}' ==> IsSpace(c)
    ensures IsInk(c) ==> !IsSpace(c)
  {
  }

  lemma InkIsInside(before: string, core: string, after: string, k: nat)
    requires AllSpace(before) && AllSpace(after)
    requires k < |before + core + after| && IsInk((before + core + after)[k])
    ensures |before| <= k < |before| + |core|
    ensures var s, end := before + core + after, |before| + |core|;
            s[..|before|] == before && s[|before|..end] == core && s[end..] == after
  {
    var c := (before + core + after)[k];
    assert k < |before| ==> c in before;
    assert |before| + |core| <= k ==> c in after;
  }

  /** Trimming keeps everything from the first to the last character that leaves ink, in place. */
  lemma TrimKeepsInk(s: string, k: nat) returns (start: nat, end: nat)
    requires k < |s| && IsInk(s[k])
    ensures start <= k < end <= |s| && Trim(s) == s[start..end]
    ensures AllSpace(s[..start]) && AllSpace(s[end..])
  {
    var before := TrimStartSplits(s);
    var after := TrimEndSplits(TrimStart(s));
    assert s == before + (Trim(s) + after) == before + Trim(s) + after;
    start, end := |before|, |before| + |Trim(s)|;
    InkIsInside(before, Trim(s), after, k);
  }

  // ---------------------------------------------------------------- sorting

  predicate Ascending(s: seq<Line>) {
    forall i, j :: 0 <= i < j < |s| ==> s[i].product <= s[j].product
  }

  /** What validation of the request body demands (src/orders/dto/create-order.dto.ts:36-43). */
  predicate DistinctProducts(s: seq<Line>) {
    forall i, j :: 0 <= i < j < |s| ==> s[i].product != s[j].product
  }

  lemma {:induction false} InsertSorts(line: Line, sorted: seq<Line>)
    requires Ascending(sorted)
    ensures Ascending(Insert(line, sorted)) && multiset(Insert(line, sorted)) == multiset{line} + multiset(sorted)
    ensures Insert(line, sorted) != []
    ensures Insert(line, sorted)[0] == line || (sorted != [] && Insert(line, sorted)[0] == sorted[0])
  {
    if sorted != [] && line.product > sorted[0].product {
      InsertSorts(line, sorted[1..]);
      assert sorted == [sorted[0]] + sorted[1..];
    }
  }

  lemma {:induction false} SortSorts(items: seq<Line>)
    ensures Ascending(SortByProduct(items)) && multiset(SortByProduct(items)) == multiset(items)
  {
    if items != [] {
      SortSorts(items[1..]);
      InsertSorts(items[0], SortByProduct(items[1..]));
      assert items == [items[0]] + items[1..];
    }
  }

  lemma {:induction false} DistinctIsPerLine(s: seq<Line>, t: seq<Line>)
    requires multiset(s) == multiset(t) && DistinctProducts(s)
    ensures DistinctProducts(t)
  {
    forall i, j | 0 <= i < j < |t| ensures t[i].product != t[j].product {
      if t[i].product == t[j].product {
        assert t[i] in multiset(s) && t[j] in multiset(s);
        var a :| 0 <= a < |s| && s[a] == t[i];
        var b :| 0 <= b < |s| && s[b] == t[j];
        assert a == b;
        TwiceIn(t, i, j);
        OnceIn(s, a);
      }
    }
  }

  lemma TwiceIn(t: seq<Line>, i: nat, j: nat)
    requires i < j < |t| && t[i] == t[j]
    ensures multiset(t)[t[i]] >= 2
  {
    assert t == t[..i] + [t[i]] + t[i + 1..j] + [t[j]] + t[j + 1..];
  }

  lemma OnceIn(s: seq<Line>, a: nat)
    requires a < |s| && DistinctProducts(s)
    ensures multiset(s)[s[a]] == 1
  {
    assert s == s[..a] + [s[a]] + s[a + 1..];
    assert s[a] !in s[..a] && s[a] !in s[a + 1..];
  }

  lemma SameLeast(s: seq<Line>, t: seq<Line>)
    requires Ascending(s) && Ascending(t) && DistinctProducts(s) && multiset(s) == multiset(t) && s != []
    ensures t != [] && s[0] == t[0]
  {
    assert |multiset(s)| == |multiset(t)|;
    assert s[0] in multiset(t) && t[0] in multiset(s);
    var i :| 0 <= i < |t| && t[i] == s[0];
    var j :| 0 <= j < |s| && s[j] == t[0];
    assert t[0].product <= t[i].product && s[0].product <= s[j].product;
  }

  lemma TailMultiset(s: seq<Line>)
    requires s != []
    ensures multiset(s[1..]) == multiset(s) - multiset{s[0]}
  {
    assert s == [s[0]] + s[1..];
  }

  /** A list without repeated products has only one sorted arrangement. */
  lemma {:induction false} SortedIsUnique(s: seq<Line>, t: seq<Line>)
    requires Ascending(s) && Ascending(t) && DistinctProducts(s) && multiset(s) == multiset(t)
    ensures s == t
  {
    if s == [] {
      assert |multiset(t)| == 0;
    } else {
      SameLeast(s, t);
      TailMultiset(s);
      TailMultiset(t);
      SortedIsUnique(s[1..], t[1..]);
      assert s == [s[0]] + s[1..] && t == [t[0]] + t[1..];
    }
  }

  /** The same customer, the same address up to surrounding white space, and the same lines in any order. */
  predicate SameContent(a: Request, b: Request) {
    && a.customer == b.customer && Trim(a.shippingAddress) == Trim(b.shippingAddress)
    && multiset(a.items) == multiset(b.items)
  }

  /** Requests with distinct products have the same canonical form exactly when their content is the same. */
  lemma SameFingerprintIff(a: Request, b: Request)
    requires DistinctProducts(a.items)
    ensures Canonicalize(a) == Canonicalize(b) <==> SameContent(a, b)
  {
    SortSorts(a.items);
    SortSorts(b.items);
    if multiset(a.items) == multiset(b.items) {
      DistinctIsPerLine(a.items, SortByProduct(a.items));
      SortedIsUnique(SortByProduct(a.items), SortByProduct(b.items));
    }
  }

  /** With a repeated product the order of the lines shows, because the sort only looks at products. */
  lemma RepeatedProductsShowOrder()
    ensures var a, b := [Line(1, 1), Line(1, 2)], [Line(1, 2), Line(1, 1)];
            multiset(a) == multiset(b) && SortByProduct(a) != SortByProduct(b)
  {
    var a, b := [Line(1, 1), Line(1, 2)], [Line(1, 2), Line(1, 1)];
    assert a[1..] == [Line(1, 2)] && b[1..] == [Line(1, 1)] && a[1..][1..] == [] && b[1..][1..] == [];
    assert SortByProduct(a) == a && SortByProduct(b) == b;
  }
}
