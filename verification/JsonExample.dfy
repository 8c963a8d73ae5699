// The small JSON printer and parser of the Java example
// (java/examples/json/BatchIngestionExample.java).
//
// The printer writes keys and values without escaping, and the parser splits
// the text at every comma that is followed by optional white space and a quote.
// `RoundTripExactly` says for which maps the parser gives back what the
// printer was given: exactly those whose entries are all `Good`.
module JsonExample {
  import opened Common

  const LONG_MIN: int := -0x8000_0000_0000_0000
  const LONG_MAX: int := 0x7fff_ffff_ffff_ffff

  type Long = n: int | LONG_MIN <= n <= LONG_MAX

  datatype Value = Str(text: string) | Num(number: Long)

  datatype Entry = Entry(key: string, value: Value)

  // A parse either gives a map or ends in the exception of
  // `value.substring(1, 0)`.
  datatype Parsed = Parsed(result: map<string, Value>) | IndexOutOfBounds

  // ------------------------------------------------------------- java.lang

  // What the pattern `\s` matches.
  predicate IsSpace(c: char) {
    c == ' ' || c == '\t' || c == '\n' || c == '\r' || c as int == 0x0B || c as int == 0x0C
  }

  // String.trim() drops every character up to U+0020 from both ends.
  function TrimLeft(s: string): string {
    if s != "" && s[0] <= ' ' then TrimLeft(s[1..]) else s
  }

  function TrimRight(s: string): string {
    if s != "" && s[|s| - 1] <= ' ' then TrimRight(s[..|s| - 1]) else s
  }

  function Trim(s: string): string {
    TrimRight(TrimLeft(s))
  }

  function IndexOf(s: string, c: char): (i: nat)
    ensures i <= |s|
    ensures c !in s[..i]
    ensures i < |s| ==> s[i] == c
    ensures i < |s| <==> c in s
  {
    if s == "" || s[0] == c then 0 else 1 + IndexOf(s[1..], c)
  }

  function RemoveQuotes(s: string): (r: string)
    ensures '"' !in r
    ensures forall c :: c in r ==> c in s
  {
    if s == "" then ""
    else if s[0] == '"' then RemoveQuotes(s[1..])
    else [s[0]] + RemoveQuotes(s[1..])
  }

  function Digit(d: nat): char
    requires d < 10
  {
    '0' + d as char
  }

  function Decimal(n: nat): string {
    if n < 10 then [Digit(n)] else Decimal(n / 10) + [Digit(n % 10)]
  }

  function LongToString(n: int): string {
    if n < 0 then "-" + Decimal(-n) else Decimal(n)
  }

  function ParseDigits(s: string): Option<nat> {
    if s == "" then None
    else
      var c := s[|s| - 1];
      if !('0' <= c <= '9') then None
      else if |s| == 1 then Some(c as int - '0' as int)
      else match ParseDigits(s[..|s| - 1])
           case None => None
           case Some(n) => Some(10 * n + (c as int - '0' as int))
  }

  // Long.parseLong; None stands for NumberFormatException.
  function ParseLong(s: string): Option<Long> {
    if s == "" then None
    else
      var negative := s[0] == '-';
      match ParseDigits(if negative || s[0] == '+' then s[1..] else s)
      case None => None
      case Some(n) =>
        var v := if negative then 0 - n else n;
        if LONG_MIN <= v <= LONG_MAX then Some(v) else None
  }

  // ------------------------------------------------------- ,(?=\s*")

  // Does `\s*"` match at the start of s?
  predicate QuoteAhead(s: string) {
    s != "" && (s[0] == '"' || (IsSpace(s[0]) && QuoteAhead(s[1..])))
  }

  predicate CutsHere(s: string)
    requires s != ""
  {
    s[0] == ',' && QuoteAhead(s[1..])
  }

  predicate HasCut(s: string) {
    s != "" && (CutsHere(s) || HasCut(s[1..]))
  }

  // One more character in front of a text already split into `ps`.
  function Extend(c: char, cut: bool, ps: seq<string>): (r: seq<string>)
    requires |ps| > 0
    ensures |r| > 0
  {
    if cut then [""] + ps else [[c] + ps[0]] + ps[1..]
  }

  // content.split(",(?=\\s*\")"). A match is never at the very end, so there
  // is no trailing empty piece for Java to remove.
  function Split(s: string): (ps: seq<string>)
    ensures |ps| > 0
  {
    if s == "" then [""] else Extend(s[0], CutsHere(s), Split(s[1..]))
  }

  // --------------------------------------------------------------- printer

  function Bare(v: Value): string {
    match v
    case Str(t) => "\"" + t + "\""
    case Num(n) => LongToString(n)
  }

  function Render(e: Entry): string {
    "\"" + e.key + "\": " + Bare(e.value)
  }

  // The first n entries, separated by ", ".
  function Body(es: seq<Entry>, n: nat): string
    requires n <= |es|
  {
    if n == 0 then ""
    else if n == 1 then Render(es[0])
    else Body(es, n - 1) + ", " + Render(es[n - 1])
  }

  function Printed(es: seq<Entry>, n: nat): string
    requires n <= |es|
  {
    "{" + Body(es, n)
  }

  lemma PrintedGrows(es: seq<Entry>, n: nat)
    requires n < |es|
    ensures Printed(es, n + 1) ==
      (if n == 0 then Printed(es, n) else Printed(es, n) + ", ") + Render(es[n])
  {}

  function Print(es: seq<Entry>): string {
    Printed(es, |es|) + "}"
  }

  method RenderEntry(e: Entry) returns (entry: string)
    ensures entry == Render(e)
  {
    var value;
    match e.value {
      case Str(t) => value := "\"" + t + "\"";
      case Num(n) => value := LongToString(n);
    }
    entry := "\"" + e.key + "\": " + value;
  }

  // `es` is the map's entry set in whatever order it iterates.
  method ToJson(es: seq<Entry>) returns (sb: string)
    ensures sb == Print(es)
  {
    sb := "{";
    assert sb == Printed(es, 0);
    var first := true;
    var i := 0;
    while i < |es|
      invariant 0 <= i <= |es|
      invariant first == (i == 0)
      invariant sb == Printed(es, i)
    {
      PrintedGrows(es, i);
      if !first { sb := sb + ", "; }
      first := false;
      var entry := RenderEntry(es[i]);
      sb := sb + entry;
      i := i + 1;
    }
    sb := sb + "}";
  }

  // ---------------------------------------------------------------- parser

  function ReadValue(value: string): Option<Value> {
    if value != "" && value[0] == '"' && value[|value| - 1] == '"' then
      if |value| == 1 then None else Some(Str(value[1..|value| - 1]))
    else
      match ParseLong(value)
      case Some(n) => Some(Num(n))
      case None => Some(Str(value))
  }

  function PutPair(m: map<string, Value>, pair: string): Parsed {
    var colon := IndexOf(pair, ':');
    if colon == |pair| then Parsed(m)
    else
      var key := RemoveQuotes(Trim(pair[..colon]));
      match ReadValue(Trim(pair[colon + 1..]))
      case None => IndexOutOfBounds
      case Some(v) => Parsed(m[key := v])
  }

  function PutAll(m: map<string, Value>, pairs: seq<string>): Parsed
    decreases |pairs|
  {
    if pairs == [] then Parsed(m)
    else match PutPair(m, pairs[0])
         case IndexOutOfBounds => IndexOutOfBounds
         case Parsed(n) => PutAll(n, pairs[1..])
  }

  lemma PutAllStep(m: map<string, Value>, pairs: seq<string>, i: nat)
    requires i < |pairs|
    ensures var p := PutPair(m, pairs[i]);
      PutAll(m, pairs[i..]) == if p.Parsed? then PutAll(p.result, pairs[i + 1..]) else IndexOutOfBounds
  {
    assert pairs[i..][1..] == pairs[i + 1..];
  }

  function Content(json: string): string {
    var t := Trim(json);
    var u := if t != "" && t[0] == '{' then t[1..] else t;
    if u != "" && u[|u| - 1] == '}' then u[..|u| - 1] else u
  }

  function Parse(json: string): Parsed {
    PutAll(map[], Split(Content(json)))
  }

  // The body of the parser's loop.
  method ReadPair(m: map<string, Value>, pair: string) returns (r: Parsed)
    ensures r == PutPair(m, pair)
  {
    var colon := IndexOf(pair, ':');
    if colon == |pair| { return Parsed(m); }
    var key := RemoveQuotes(Trim(pair[..colon]));
    var value := Trim(pair[colon + 1..]);
    if value != "" && value[0] == '"' && value[|value| - 1] == '"' {
      if |value| == 1 { return IndexOutOfBounds; }
      r := Parsed(m[key := Str(value[1..|value| - 1])]);
    } else {
      match ParseLong(value) {
        case Some(n) => r := Parsed(m[key := Num(n)]);
        case None => r := Parsed(m[key := Str(value)]);
      }
    }
  }

  method ParseJson(json: string) returns (r: Parsed)
    ensures r == Parse(json)
  {
    var content := Trim(json);
    if content != "" && content[0] == '{' { content := content[1..]; }
    if content != "" && content[|content| - 1] == '}' { content := content[..|content| - 1]; }
    assert content == Content(json);
    var pairs := Split(content);
    assert pairs[0..] == pairs;
    r := Parsed(map[]);
    var i := 0;
    while i < |pairs|
      invariant 0 <= i <= |pairs| && r.Parsed?
      invariant Parse(json) == PutAll(r.result, pairs[i..])
    {
      PutAllStep(r.result, pairs, i);
      r := ReadPair(r.result, pairs[i]);
      if r.IndexOutOfBounds? { return; }
      i := i + 1;
    }
  }

  // ------------------------------------------------------- the round trip

  // The map that holds the first n entries.
  function ToMap(es: seq<Entry>, n: nat): map<string, Value>
    requires n <= |es|
  {
    if n == 0 then map[] else ToMap(es, n - 1)[es[n - 1].key := es[n - 1].value]
  }

  // The keys of a map are distinct.
  predicate Distinct(es: seq<Entry>) {
    forall i, j :: 0 <= i < j < |es| ==> es[i].key != es[j].key
  }

  // No quote or colon, and no comma, optional white space and then the
  // closing quote.
  predicate GoodKey(k: string) {
    '"' !in k && ':' !in k && !HasCut(k + "\"")
  }

  // No comma, optional white space and then a quote, closing quote included.
  predicate GoodValue(v: Value) {
    v.Str? ==> !HasCut(v.text + "\"")
  }

  predicate Good(e: Entry) {
    GoodKey(e.key) && GoodValue(e.value)
  }

  // ---- cuts

  lemma {:induction false} QuoteAheadOfPrefix(a: string, b: string)
    requires QuoteAhead(a)
    ensures QuoteAhead(a + b)
  {
    assert (a + b)[1..] == a[1..] + b;
    if a[0] != '"' { QuoteAheadOfPrefix(a[1..], b); }
  }

  // A character that is neither white space nor a quote stops the lookahead.
  lemma {:induction false} QuoteAheadStops(a: string, b: string)
    requires b != "" && b[0] != '"' && !IsSpace(b[0])
    ensures QuoteAhead(a + b) == QuoteAhead(a)
  {
    if a == "" {
      assert a + b == b;
    } else {
      assert (a + b)[1..] == a[1..] + b;
      QuoteAheadStops(a[1..], b);
    }
  }

  // So does a quote: what follows the first quote is never looked at.
  lemma {:induction false} QuoteAheadStopsAtQuote(a: string, b: string)
    ensures QuoteAhead(a + "\"" + b) == QuoteAhead(a + "\"")
  {
    if a == "" {
      assert a + "\"" + b == "\"" + b && a + "\"" == "\"";
    } else {
      assert (a + "\"" + b)[1..] == a[1..] + "\"" + b && (a + "\"")[1..] == a[1..] + "\"";
      QuoteAheadStopsAtQuote(a[1..], b);
    }
  }

  lemma {:induction false} SuffixHasCut(a: string, b: string)
    requires HasCut(b)
    ensures HasCut(a + b)
  {
    if a == "" {
      assert a + b == b;
    } else {
      SuffixHasCut(a[1..], b);
      assert (a + b)[1..] == a[1..] + b;
    }
  }

  lemma {:induction false} PrefixHasCut(a: string, b: string)
    requires HasCut(a)
    ensures HasCut(a + b)
  {
    assert (a + b)[1..] == a[1..] + b;
    if CutsHere(a) { QuoteAheadOfPrefix(a[1..], b); } else { PrefixHasCut(a[1..], b); }
  }

  // A part of a text without a cut has no cut.
  lemma PartHasNoCut(s: string, i: nat, j: nat)
    requires i <= j <= |s| && !HasCut(s)
    ensures !HasCut(s[i..j])
  {
    assert s == s[..i] + (s[i..j] + s[j..]);
    if HasCut(s[i..j]) {
      PrefixHasCut(s[i..j], s[j..]);
      SuffixHasCut(s[..i], s[i..j] + s[j..]);
    }
  }

  // Cuts of a text that goes on after a quote: those up to the quote, and
  // those after it.
  lemma {:induction false} CutsAroundQuote(a: string, b: string)
    ensures HasCut(a + "\"" + b) == (HasCut(a + "\"") || HasCut(b))
  {
    if a == "" {
      assert (a + "\"" + b)[1..] == b && (a + "\"")[1..] == "";
    } else {
      assert (a + "\"" + b)[1..] == a[1..] + "\"" + b && (a + "\"")[1..] == a[1..] + "\"";
      QuoteAheadStopsAtQuote(a[1..], b);
      CutsAroundQuote(a[1..], b);
    }
  }

  // ---- Split

  lemma {:induction false} SplitWithoutCut(s: string)
    requires !HasCut(s)
    ensures Split(s) == [s]
  {
    if s != "" {
      SplitWithoutCut(s[1..]);
      assert [s[0]] + s[1..] == s;
    }
  }

  lemma ExtendAppend(c: char, cut: bool, ps: seq<string>, qs: seq<string>)
    requires |ps| > 0
    ensures Extend(c, cut, ps + qs) == Extend(c, cut, ps) + qs
  {
    assert (ps + qs)[1..] == ps[1..] + qs;
    assert [[c] + ps[0]] + (ps[1..] + qs) == [[c] + ps[0]] + ps[1..] + qs;
    assert [""] + (ps + qs) == [""] + ps + qs;
  }

  lemma SplitCons(c: char, t: string)
    ensures Split([c] + t) == Extend(c, CutsHere([c] + t), Split(t))
    ensures CutsHere([c] + t) == (c == ',' && QuoteAhead(t))
  {
    assert ([c] + t)[1..] == t;
  }

  // A separating comma is where the text splits, whatever stands before it.
  lemma {:induction false} SplitAtComma(a: string, b: string)
    requires QuoteAhead(b)
    ensures Split(a + ("," + b)) == Split(a) + Split(b)
  {
    if a == "" {
      assert a + ("," + b) == "," + b && ("," + b)[1..] == b;
    } else {
      var c, t := a[0], a[1..];
      assert a == [c] + t && a + ("," + b) == [c] + (t + ("," + b));
      SplitCons(c, t);
      SplitCons(c, t + ("," + b));
      QuoteAheadStops(t, "," + b);
      SplitAtComma(t, b);
      ExtendAppend(c, CutsHere(a), Split(t), Split(b));
    }
  }

  lemma {:induction false} FirstPieceIsPrefix(s: string)
    ensures |Split(s)[0]| <= |s| && s[..|Split(s)[0]|] == Split(s)[0]
  {
    if s != "" && !CutsHere(s) { FirstPieceIsPrefix(s[1..]); }
  }

  lemma {:induction false} PiecesHaveNoCut(s: string)
    ensures forall p :: p in Split(s) ==> !HasCut(p)
  {
    if s != "" {
      PiecesHaveNoCut(s[1..]);
      var ps := Split(s[1..]);
      if !CutsHere(s) {
        var p := [s[0]] + ps[0];
        assert p[1..] == ps[0];
        assert !HasCut(ps[0]) by { assert ps[0] in ps; }
        FirstPieceIsPrefix(s[1..]);
        assert s[1..] == ps[0] + s[1..][|ps[0]|..];
        if CutsHere(p) { QuoteAheadOfPrefix(ps[0], s[1..][|ps[0]|..]); }
        assert forall q :: q in Split(s) ==> q == p || q in ps;
      }
    }
  }

  // ---- what the parser can and cannot give back

  lemma {:induction false} TrimLeftIsPart(s: string) returns (i: nat)
    ensures i <= |s| && TrimLeft(s) == s[i..]
    ensures forall k :: 0 <= k < i ==> s[k] <= ' '
    ensures i < |s| ==> s[i] > ' '
  {
    if s != "" && s[0] <= ' ' { i := TrimLeftIsPart(s[1..]); i := i + 1; } else { i := 0; }
  }

  lemma {:induction false} TrimRightIsPart(s: string) returns (j: nat)
    ensures j <= |s| && TrimRight(s) == s[..j]
    ensures forall k :: j <= k < |s| ==> s[k] <= ' '
    ensures j > 0 ==> s[j - 1] > ' '
  {
    if s != "" && s[|s| - 1] <= ' ' {
      j := TrimRightIsPart(s[..|s| - 1]);
      assert s[..|s| - 1][..j] == s[..j];
    } else {
      j := |s|;
    }
  }

  // trim() cuts off characters up to U+0020 and nothing else.
  lemma TrimIsPart(s: string) returns (i: nat, j: nat)
    ensures i <= j <= |s| && Trim(s) == s[i..j]
    ensures forall k :: 0 <= k < i || j <= k < |s| ==> s[k] <= ' '
    ensures i < j ==> s[i] > ' ' && s[j - 1] > ' '
  {
    i := TrimLeftIsPart(s);
    var t := s[i..];
    var k := TrimRightIsPart(t);
    j := i + k;
    assert t[..k] == s[i..j];
    assert forall m :: j <= m < |s| ==> s[m] == t[m - i];
  }

  // What stands between white space is what trim() gives.
  lemma TrimSurrounded(a: string, s: string, b: string)
    requires forall c :: c in a || c in b ==> c <= ' '
    requires s != "" && s[0] > ' ' && s[|s| - 1] > ' '
    ensures Trim(a + s + b) == s
  {
    var t := a + s + b;
    var i, j := TrimIsPart(t);
    assert t[|a|] == s[0] && t[|a| + |s| - 1] == s[|s| - 1];
    assert i <= |a| && j >= |a| + |s|;
    assert forall k :: 0 <= k < |a| ==> t[k] in a;
    assert forall k :: |a| + |s| <= k < |t| ==> t[k] == b[k - |a| - |s|] && t[k] in b;
    assert t[|a|..|a| + |s|] == s;
  }

  // A key the parser puts has no quote and no colon.
  predicate ReadableKey(k: string) {
    '"' !in k && ':' !in k
  }

  // A string the parser puts has no comma, white space and quote inside it.
  predicate ReadableValue(v: Value) {
    v.Str? ==> !HasCut(v.text)
  }

  predicate ReadableMap(m: map<string, Value>) {
    forall k :: k in m ==> ReadableKey(k) && ReadableValue(m[k])
  }

  lemma KeyIsReadable(s: string)
    requires ':' !in s
    ensures ReadableKey(RemoveQuotes(Trim(s)))
  {
    var i, j := TrimIsPart(s);
    assert ':' !in Trim(s);
  }

  lemma ValueIsReadable(s: string)
    requires !HasCut(s) && ReadValue(Trim(s)).Some?
    ensures ReadableValue(ReadValue(Trim(s)).value)
  {
    var i, j := TrimIsPart(s);
    PartHasNoCut(s, i, j);
    var value := Trim(s);
    if |value| > 1 { PartHasNoCut(value, 1, |value| - 1); }
  }

  lemma ReadableAfter(m: map<string, Value>, key: string, value: Value)
    requires ReadableMap(m) && ReadableKey(key) && ReadableValue(value)
    ensures ReadableMap(m[key := value])
  {
  }

  lemma PairIsReadable(pair: string, colon: nat)
    requires !HasCut(pair) && colon == IndexOf(pair, ':') < |pair| && ReadValue(Trim(pair[colon + 1..])).Some?
    ensures ReadableKey(RemoveQuotes(Trim(pair[..colon])))
    ensures ReadableValue(ReadValue(Trim(pair[colon + 1..])).value)
  {
    KeyIsReadable(pair[..colon]);
    RestHasNoCut(pair, colon + 1);
    ValueIsReadable(pair[colon + 1..]);
  }

  lemma RestHasNoCut(s: string, from: nat)
    requires !HasCut(s) && from <= |s|
    ensures !HasCut(s[from..])
  {
    PartHasNoCut(s, from, |s|);
    assert s[from..|s|] == s[from..];
  }

  lemma PutPairIsReadable(m: map<string, Value>, pair: string)
    requires ReadableMap(m) && !HasCut(pair)
    requires PutPair(m, pair).Parsed?
    ensures ReadableMap(PutPair(m, pair).result)
  {
    var colon := IndexOf(pair, ':');
    if colon < |pair| {
      PairIsReadable(pair, colon);
      ReadableAfter(m, RemoveQuotes(Trim(pair[..colon])), ReadValue(Trim(pair[colon + 1..])).value);
    }
  }

  lemma {:induction false} PutAllIsReadable(m: map<string, Value>, pairs: seq<string>)
    requires ReadableMap(m) && forall p :: p in pairs ==> !HasCut(p)
    requires PutAll(m, pairs).Parsed?
    ensures ReadableMap(PutAll(m, pairs).result)
    decreases |pairs|
  {
    if pairs != [] {
      PutPairIsReadable(m, pairs[0]);
      PutAllIsReadable(PutPair(m, pairs[0]).result, pairs[1..]);
    }
  }

  // Whatever text it reads, the parser puts only readable keys and values.
  lemma ParseIsReadable(json: string)
    requires Parse(json).Parsed?
    ensures ReadableMap(Parse(json).result)
  {
    PiecesHaveNoCut(Content(json));
    PutAllIsReadable(map[], Split(Content(json)));
  }

  // ---- numbers

  lemma {:induction false} DigitsReadBack(n: nat)
    ensures Decimal(n) != "" && ParseDigits(Decimal(n)) == Some(n)
    ensures forall c :: c in Decimal(n) ==> '0' <= c <= '9'
  {
    if n >= 10 {
      DigitsReadBack(n / 10);
      assert Decimal(n)[..|Decimal(n)| - 1] == Decimal(n / 10);
    }
  }

  lemma NegativeReadsBack(k: nat)
    requires 0 < k <= -LONG_MIN
    ensures ParseLong("-" + Decimal(k)) == Some(0 - k)
  {
    DigitsReadBack(k);
    assert ("-" + Decimal(k))[1..] == Decimal(k);
  }

  lemma NaturalReadsBack(k: nat)
    requires k <= LONG_MAX
    ensures ParseLong(Decimal(k)) == Some(k)
  {
    DigitsReadBack(k);
    assert Decimal(k)[0] in Decimal(k);
  }

  lemma NumberReadsBack(n: Long)
    ensures ParseLong(LongToString(n)) == Some(n)
    ensures LongToString(n) != "" && forall c :: c in LongToString(n) ==> c == '-' || '0' <= c <= '9'
  {
    var m: int := n;
    if m < 0 {
      NegativeReadsBack(-m);
      DigitsReadBack(-m);
    } else {
      NaturalReadsBack(m);
      DigitsReadBack(m);
    }
  }

  // Between white space, the parser reads back the value the printer wrote.
  lemma ValueReadsBack(v: Value)
    ensures ReadValue(Trim(" " + Bare(v))) == Some(v)
  {
    var b := Bare(v);
    match v {
      case Str(t) => assert b[1..|b| - 1] == t;
      case Num(n) =>
        NumberReadsBack(n);
        assert b[0] in b && b[|b| - 1] in b;
    }
    TrimSurrounded(" ", b, "");
    assert " " + b + "" == " " + b;
  }

  // ---- one entry

  lemma {:induction false} NoQuoteNoCut(s: string)
    requires '"' !in s
    ensures !QuoteAhead(s) && !HasCut(s)
  {
    if s != "" { NoQuoteNoCut(s[1..]); }
  }

  lemma {:induction false} SpacesBeforeQuote(w: string)
    requires QuoteAhead(w + "\"") && !QuoteAhead(w)
    ensures forall c :: c in w ==> IsSpace(c)
  {
    if w != "" {
      assert (w + "\"")[1..] == w[1..] + "\"";
      SpacesBeforeQuote(w[1..]);
    }
  }

  lemma {:induction false} QuoteAfterSpaces(w: string, b: string)
    requires forall c :: c in w ==> IsSpace(c)
    ensures QuoteAhead(w + "\"" + b) && !HasCut(w + "\"")
  {
    if w == "" {
      assert w + "\"" + b == "\"" + b && w + "\"" == "\"";
    } else {
      assert (w + "\"" + b)[1..] == w[1..] + "\"" + b && (w + "\"")[1..] == w[1..] + "\"";
      QuoteAfterSpaces(w[1..], b);
    }
  }

  // A text that only its closing quote makes cut ends in a comma and spaces.
  lemma {:induction false} ClosingCut(a: string) returns (x: string, w: string)
    requires !HasCut(a) && HasCut(a + "\"")
    ensures a == x + ("," + w) && !HasCut(x)
    ensures forall c :: c in w ==> IsSpace(c)
  {
    assert a != "" by { assert a == "" ==> a + "\"" == "\""; }
    assert (a + "\"")[1..] == a[1..] + "\"";
    if CutsHere(a + "\"") {
      x, w := "", a[1..];
      SpacesBeforeQuote(w);
    } else {
      var y;
      y, w := ClosingCut(a[1..]);
      x := [a[0]] + y;
      assert a == x + ("," + w);
      assert x == a[0..|x|];
      PartHasNoCut(a, 0, |x|);
    }
  }

  lemma {:induction false} PutAllAppend(m: map<string, Value>, ps: seq<string>, qs: seq<string>)
    ensures PutAll(m, ps + qs) ==
      match PutAll(m, ps) case Parsed(n) => PutAll(n, qs) case IndexOutOfBounds => IndexOutOfBounds
    decreases |ps|
  {
    if ps == [] {
      assert ps + qs == qs;
    } else {
      assert (ps + qs)[0] == ps[0] && (ps + qs)[1..] == ps[1..] + qs;
      if PutPair(m, ps[0]).Parsed? { PutAllAppend(PutPair(m, ps[0]).result, ps[1..], qs); }
    }
  }

  function Commas(s: string): nat {
    multiset(s)[',']
  }

  lemma CommasOfPart(s: string, i: nat, j: nat)
    requires i <= j <= |s|
    ensures Commas(s[i..j]) <= Commas(s)
  {
    assert s == s[..i] + (s[i..j] + s[j..]);
    assert multiset(s) == multiset(s[..i]) + (multiset(s[i..j]) + multiset(s[j..]));
  }

  // The parser adds no comma to a string.
  lemma ReadCommas(s: string)
    requires ReadValue(Trim(s)).Some? && ReadValue(Trim(s)).value.Str?
    ensures Commas(ReadValue(Trim(s)).value.text) <= Commas(s)
  {
    var i, j := TrimIsPart(s);
    CommasOfPart(s, i, j);
    var value := Trim(s);
    if |value| > 1 { CommasOfPart(value, 1, |value| - 1); }
  }

  lemma {:induction false} FirstColon(h: string, tail: string)
    requires ':' !in h
    ensures IndexOf(h + ":" + tail, ':') == |h|
  {
    if h == "" {
      assert h + ":" + tail == ":" + tail;
    } else {
      assert (h + ":" + tail)[1..] == h[1..] + ":" + tail;
      FirstColon(h[1..], tail);
    }
  }

  lemma PutsKey(m: map<string, Value>, h: string, tail: string)
    requires ':' !in h
    ensures PutPair(m, h + ":" + tail) ==
      match ReadValue(Trim(tail))
      case None => IndexOutOfBounds
      case Some(v) => Parsed(m[RemoveQuotes(Trim(h)) := v])
  {
    var pair := h + ":" + tail;
    FirstColon(h, tail);
    assert pair[..|h|] == h && pair[|h| + 1..] == tail;
  }

  lemma PutsNothing(m: map<string, Value>, p: string)
    requires ':' !in p
    ensures PutPair(m, p) == Parsed(m)
  {}

  lemma PutsOne(m: map<string, Value>, p: string)
    ensures PutAll(m, [p]) == PutPair(m, p)
  {
    assert [p][1..] == [];
  }

  // ---- an entry after its key has been opened

  // h is the text up to and including the key's closing quote.
  function Headed(h: string, v: Value): string {
    h + ":" + (" " + Bare(v))
  }

  lemma {:induction false} NoCommaNoCut(s: string)
    requires ',' !in s
    ensures !HasCut(s)
  {
    if s != "" { NoCommaNoCut(s[1..]); }
  }

  lemma BareCuts(v: Value)
    ensures HasCut(" " + Bare(v)) == !GoodValue(v)
  {
    match v {
      case Str(t) =>
        assert " " + Bare(v) == " " + "\"" + (t + "\"");
        CutsAroundQuote(" ", t + "\"");
        NoCommaNoCut(" " + "\"");
      case Num(n) =>
        NumberReadsBack(n);
        NoQuoteNoCut(" " + Bare(v));
    }
  }

  // A colon neither makes nor hides a cut when a closing quote stands before it.
  lemma HeadedCuts(g: string, tail: string)
    requires !HasCut(g + "\"")
    ensures HasCut(g + "\"" + ":" + tail) == HasCut(tail)
  {
    var b := ":" + tail;
    CutsAroundQuote(g, b);
    assert g + "\"" + ":" + tail == g + "\"" + b;
    assert b[1..] == tail;
  }

  lemma GoodValueEffect(m: map<string, Value>, g: string, v: Value)
    requires ':' !in g && !HasCut(g + "\"") && GoodValue(v)
    ensures PutAll(m, Split(Headed(g + "\"", v))) == Parsed(m[RemoveQuotes(Trim(g + "\"")) := v])
  {
    var h := g + "\"";
    BareCuts(v);
    HeadedCuts(g, " " + Bare(v));
    SplitWithoutCut(Headed(h, v));
    PutsOne(m, Headed(h, v));
    PutsKey(m, h, " " + Bare(v));
    ValueReadsBack(v);
  }

  lemma SplitsAtClosing(h: string, v: Value, x: string, w: string)
    requires v.Str? && v.text == x + ("," + w)
    ensures Headed(h, v) == h + ":" + (" \"" + x) + ("," + (w + "\""))
  {}

  lemma LosesComma(t: string, x: string, w: string)
    requires t == x + ("," + w) && ReadValue(Trim(" \"" + x)).Some?
    ensures ReadValue(Trim(" \"" + x)).value != Str(t)
  {
    var tail := " \"" + x;
    if ReadValue(Trim(tail)).value.Str? {
      ReadCommas(tail);
      assert multiset(tail) == multiset(" \"") + multiset(x);
      assert multiset(t) == multiset(x) + (multiset(",") + multiset(w));
    }
  }

  lemma CutOffValue(g: string, x: string)
    requires !HasCut(g + "\"") && !HasCut(x)
    ensures !HasCut(g + "\"" + ":" + (" \"" + x))
  {
    LeadCuts(" ", x);
    assert " \"" + x == " " + "\"" + x;
    HeadedCuts(g, " \"" + x);
  }

  // The piece up to the comma is all the parser takes from the entry.
  lemma ClosingPieces(m: map<string, Value>, left: string, w: string)
    requires !HasCut(left) && forall c :: c in w ==> IsSpace(c)
    ensures PutAll(m, Split(left + ("," + (w + "\"")))) == PutPair(m, left)
  {
    var right := w + "\"";
    assert QuoteAhead(right) && !HasCut(right) by {
      QuoteAfterSpaces(w, "");
      assert right + "" == right;
    }
    SplitAtComma(left, right);
    SplitWithoutCut(left);
    SplitWithoutCut(right);
    PutAllAppend(m, [left], [right]);
    PutsOne(m, left);
    if PutPair(m, left).Parsed? {
      PutsOne(PutPair(m, left).result, right);
      PutsNothing(PutPair(m, left).result, right);
    }
  }

  // A value that does not come back ends at its last comma, so either the
  // parser fails or what it puts has a comma less.
  lemma BadValueEffect(m: map<string, Value>, g: string, v: Value)
    requires ':' !in g && !HasCut(g + "\"") && !GoodValue(v) && ReadableValue(v)
    ensures var r := PutAll(m, Split(Headed(g + "\"", v)));
      var key := RemoveQuotes(Trim(g + "\""));
      r.Parsed? ==> key in r.result && r.result == m[key := r.result[key]] && r.result[key] != v
  {
    var h := g + "\"";
    var x, w := ClosingCut(v.text);
    SplitsAtClosing(h, v, x, w);
    CutOffValue(g, x);
    ClosingPieces(m, h + ":" + (" \"" + x), w);
    PutsKey(m, h, " \"" + x);
    if ReadValue(Trim(" \"" + x)).Some? { LosesComma(v.text, x, w); }
  }

  // ---- one entry

  // No quote or colon in the key, and no cut inside a string value: what is
  // left can only go wrong at a closing quote.
  predicate Plain(e: Entry) {
    ReadableKey(e.key) && ReadableValue(e.value)
  }

  lemma GoodIsPlain(e: Entry)
    requires Good(e)
    ensures Plain(e)
  {
    if e.value.Str? && HasCut(e.value.text) { PrefixHasCut(e.value.text, "\""); }
  }

  // The key under which the parser files an entry.
  function FiledUnder(k: string): string {
    if GoodKey(k) then k else ""
  }

  ghost predicate Files(m: map<string, Value>, r: Parsed, key: string, e: Entry) {
    && (GoodValue(e.value) ==> r == Parsed(m[key := e.value]))
    && (!GoodValue(e.value) && r.Parsed? ==>
          key in r.result && r.result == m[key := r.result[key]] && r.result[key] != e.value)
  }

  lemma HeadedEffect(m: map<string, Value>, g: string, e: Entry)
    requires ':' !in g && !HasCut(g + "\"") && ReadableValue(e.value)
    ensures Files(m, PutAll(m, Split(Headed(g + "\"", e.value))), RemoveQuotes(Trim(g + "\"")), e)
  {
    if GoodValue(e.value) { GoodValueEffect(m, g, e.value); } else { BadValueEffect(m, g, e.value); }
  }

  lemma {:induction false} RemoveQuotesIsIdentity(k: string)
    requires '"' !in k
    ensures RemoveQuotes(k) == k && RemoveQuotes(k + "\"") == k
  {
    if k != "" {
      assert (k + "\"")[1..] == k[1..] + "\"";
      RemoveQuotesIsIdentity(k[1..]);
    }
  }

  lemma LeadCuts(lead: string, k: string)
    requires lead == "" || lead == " "
    ensures HasCut(lead + "\"" + k) == HasCut(k)
  {
    CutsAroundQuote(lead, k);
    NoCommaNoCut(lead + "\"");
  }

  lemma KeyIsReadBack(lead: string, k: string)
    requires (lead == "" || lead == " ") && '"' !in k
    ensures RemoveQuotes(Trim(lead + "\"" + k + "\"")) == k
  {
    var quoted := "\"" + k + "\"";
    TrimSurrounded(lead, quoted, "");
    assert lead + "\"" + k + "\"" == lead + quoted + "";
    assert quoted[1..] == k + "\"";
    RemoveQuotesIsIdentity(k);
  }

  lemma RenderIsHeaded(lead: string, e: Entry)
    ensures lead + Render(e) == Headed(lead + "\"" + e.key + "\"", e.value)
  {}

  lemma RenderSplitsInKey(lead: string, e: Entry, x: string, w: string)
    requires e.key == x + ("," + w)
    ensures lead + Render(e) == lead + "\"" + x + ("," + Headed(w + "\"", e.value))
  {}

  lemma GoodKeyEffect(m: map<string, Value>, lead: string, e: Entry)
    requires lead == "" || lead == " "
    requires Plain(e) && GoodKey(e.key)
    ensures Files(m, PutAll(m, Split(lead + Render(e))), e.key, e)
  {
    var g := lead + "\"" + e.key;
    LeadCuts(lead, e.key + "\"");
    assert g + "\"" == lead + "\"" + (e.key + "\"");
    HeadedEffect(m, g, e);
    RenderIsHeaded(lead, e);
    KeyIsReadBack(lead, e.key);
  }

  lemma TrimSpaces(w: string)
    requires forall c :: c in w ==> IsSpace(c)
    ensures RemoveQuotes(Trim(w + "\"")) == ""
  {
    TrimSurrounded(w, "\"", "");
    assert w + "\"" + "" == w + "\"";
  }

  lemma BadKeyEffect(m: map<string, Value>, lead: string, e: Entry)
    requires lead == "" || lead == " "
    requires Plain(e) && !GoodKey(e.key)
    ensures Files(m, PutAll(m, Split(lead + Render(e))), "", e)
  {
    NoQuoteNoCut(e.key);
    var x, w := ClosingCut(e.key);
    var left, right := lead + "\"" + x, Headed(w + "\"", e.value);
    RenderSplitsInKey(lead, e, x, w);
    assert QuoteAhead(right) by {
      QuoteAfterSpaces(w, ":" + (" " + Bare(e.value)));
      assert right == w + "\"" + (":" + (" " + Bare(e.value)));
    }
    QuoteAfterSpaces(w, "");
    SplitAtComma(left, right);
    LeadCuts(lead, x);
    SplitWithoutCut(left);
    PutAllAppend(m, [left], Split(right));
    PutsOne(m, left);
    assert ':' !in x && ':' !in w;
    PutsNothing(m, left);
    HeadedEffect(m, w, e);
    TrimSpaces(w);
  }

  // ---- all entries

  function Pieces(es: seq<Entry>, n: nat): seq<string>
    requires n <= |es|
  {
    if n == 0 then []
    else Pieces(es, n - 1) + EntryPieces(es, n)
  }

  // The space of a separator stays with the entry that follows it.
  function Lead(n: nat): string {
    if n == 1 then "" else " "
  }

  function EntryPieces(es: seq<Entry>, n: nat): seq<string>
    requires 0 < n <= |es|
  {
    Split(Lead(n) + Render(es[n - 1]))
  }

  lemma SplitsAtSeparator(b: string, r: string)
    requires r != "" && r[0] == '"'
    ensures Split(b + ", " + r) == Split(b) + Split(" " + r)
  {
    assert QuoteAhead(" " + r) by { assert (" " + r)[1..] == r; }
    SplitAtComma(b, " " + r);
    assert b + ", " + r == b + ("," + (" " + r));
  }

  lemma RenderIsQuoted(e: Entry)
    ensures Render(e) != "" && Render(e)[0] == '"'
  {
  }

  lemma FirstSplits(es: seq<Entry>)
    requires es != []
    ensures Split(Body(es, 1)) == Pieces(es, 1)
  {
    assert "" + Render(es[0]) == Render(es[0]);
    assert Pieces(es, 0) + Split(Render(es[0])) == Split(Render(es[0]));
  }

  lemma {:induction false} BodySplits(es: seq<Entry>, n: nat)
    requires 0 < n <= |es|
    ensures Split(Body(es, n)) == Pieces(es, n)
  {
    if n == 1 {
      FirstSplits(es);
    } else {
      BodySplits(es, n - 1);
      RenderIsQuoted(es[n - 1]);
      SplitsAtSeparator(Body(es, n - 1), Render(es[n - 1]));
    }
  }

  lemma ContentInBraces(b: string, json: string)
    requires json == "{" + b + "}"
    ensures Content(json) == b
  {
    TrimSurrounded("", json, "");
    assert "" + json + "" == json;
    assert json[1..] == b + "}";
    assert (b + "}")[..|b|] == b;
  }

  lemma ContentOfPrint(es: seq<Entry>)
    ensures Content(Print(es)) == Body(es, |es|)
  {
    ContentInBraces(Body(es, |es|), Print(es));
  }

  lemma ParseOfPrint(es: seq<Entry>)
    ensures Parse(Print(es)) == Filing(es, |es|)
  {
    ContentOfPrint(es);
    if es == [] {
      PutsOne(map[], "");
    } else {
      BodySplits(es, |es|);
    }
  }

  // What the parser has after n entries, the entries all plain.
  ghost predicate Filed(es: seq<Entry>, n: nat, r: Parsed)
    requires n <= |es|
  {
    && ((forall i :: 0 <= i < n ==> Good(es[i])) ==> r == Parsed(ToMap(es, n)))
    && (r.Parsed? ==> forall k :: k in r.result ==> GoodKey(k))
    && (r.Parsed? && (forall i :: 0 <= i < n ==> GoodKey(es[i].key)) ==>
          forall i :: 0 <= i < n ==>
            && es[i].key in r.result
            && (r.result[es[i].key] == es[i].value <==> GoodValue(es[i].value)))
  }

  lemma EntryEffect(m: map<string, Value>, lead: string, e: Entry)
    requires (lead == "" || lead == " ") && Plain(e)
    ensures Files(m, PutAll(m, Split(lead + Render(e))), FiledUnder(e.key), e)
  {
    if GoodKey(e.key) { GoodKeyEffect(m, lead, e); } else { BadKeyEffect(m, lead, e); }
  }

  lemma FilesKeepsFiled(es: seq<Entry>, n: nat, m: map<string, Value>, r: Parsed)
    requires 0 < n <= |es| && Distinct(es)
    requires Filed(es, n - 1, Parsed(m))
    requires Files(m, r, FiledUnder(es[n - 1].key), es[n - 1])
    ensures Filed(es, n, r)
  {
    assert GoodKey("");
  }

  // `after` is `before` with the pieces of entry n - 1 put.
  lemma EntryKeepsFiled(es: seq<Entry>, n: nat, before: Parsed, after: Parsed)
    requires 0 < n <= |es| && Distinct(es) && Plain(es[n - 1])
    requires Filed(es, n - 1, before)
    requires before.Parsed? ==> after == PutAll(before.result, EntryPieces(es, n))
    requires before.IndexOutOfBounds? ==> after == IndexOutOfBounds
    ensures Filed(es, n, after)
  {
    if before.Parsed? {
      EntryEffect(before.result, Lead(n), es[n - 1]);
      FilesKeepsFiled(es, n, before.result, after);
    }
  }

  // What the parser has read after n entries.
  function Filing(es: seq<Entry>, n: nat): Parsed
    requires n <= |es|
  {
    PutAll(map[], Pieces(es, n))
  }

  lemma FilingGrows(es: seq<Entry>, n: nat)
    requires n <= |es|
    ensures n == 0 ==> Filing(es, n) == Parsed(map[])
    ensures n > 0 && Filing(es, n - 1).Parsed? ==>
              Filing(es, n) == PutAll(Filing(es, n - 1).result, EntryPieces(es, n))
    ensures n > 0 && Filing(es, n - 1).IndexOutOfBounds? ==> Filing(es, n) == IndexOutOfBounds
  {
    if n > 0 { PutAllAppend(map[], Pieces(es, n - 1), EntryPieces(es, n)); }
  }

  lemma NothingIsFiled(es: seq<Entry>)
    ensures Filed(es, 0, Filing(es, 0))
  {
    FilingGrows(es, 0);
  }

  predicate AllPlain(es: seq<Entry>, n: nat)
    requires n <= |es|
  {
    n == 0 || (Plain(es[n - 1]) && AllPlain(es, n - 1))
  }

  lemma {:induction false} EachIsPlain(es: seq<Entry>, n: nat)
    requires n <= |es| && forall i :: 0 <= i < n ==> Plain(es[i])
    ensures AllPlain(es, n)
  {
    if n > 0 { EachIsPlain(es, n - 1); }
  }

  lemma {:induction false} EntriesAreFiled(es: seq<Entry>, n: nat)
    requires n <= |es| && Distinct(es) && AllPlain(es, n)
    ensures Filed(es, n, Filing(es, n))
  {
    if n == 0 {
      NothingIsFiled(es);
    } else {
      EntriesAreFiled(es, n - 1);
      NextIsFiled(es, n);
    }
  }

  lemma NextIsFiled(es: seq<Entry>, n: nat)
    requires 0 < n <= |es| && Distinct(es) && Plain(es[n - 1])
    requires Filed(es, n - 1, Filing(es, n - 1))
    ensures Filed(es, n, Filing(es, n))
  {
    FilingGrows(es, n);
    EntryKeepsFiled(es, n, Filing(es, n - 1), Filing(es, n));
  }

  lemma {:induction false} MapHolds(es: seq<Entry>, n: nat, i: nat)
    requires i < n <= |es| && Distinct(es)
    ensures es[i].key in ToMap(es, n) && ToMap(es, n)[es[i].key] == es[i].value
  {
    if i < n - 1 { MapHolds(es, n - 1, i); }
  }

  // The parser gives back the map that was printed exactly when no key or
  // string value can be taken for the end of an entry.
  lemma RoundTripExactly(es: seq<Entry>)
    requires Distinct(es)
    ensures Parse(Print(es)) == Parsed(ToMap(es, |es|)) <==> forall i :: 0 <= i < |es| ==> Good(es[i])
  {
    var r := Parse(Print(es));
    if i :| 0 <= i < |es| && !Plain(es[i]) {
      GoodIsPlainFor(es[i]);
      MapHolds(es, |es|, i);
      if r.Parsed? { ParseIsReadable(Print(es)); }
    } else {
      ParseOfPrint(es);
      EachIsPlain(es, |es|);
      EntriesAreFiled(es, |es|);
      if i :| 0 <= i < |es| && !GoodKey(es[i].key) {
        MapHolds(es, |es|, i);
      } else if i :| 0 <= i < |es| && !GoodValue(es[i].value) {
        MapHolds(es, |es|, i);
      }
    }
  }

  lemma GoodIsPlainFor(e: Entry)
    ensures Good(e) ==> Plain(e)
  {
    if Good(e) { GoodIsPlain(e); }
  }
}
