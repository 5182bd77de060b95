/**
 * The canonical text behind a request fingerprint.
 *
 * A payload is a tree whose mappings and sets come in some iteration order.
 * `Canonicalize` builds the canonical JSON tree, `Write` is `json.dumps` with sorted
 * keys; the digest of the text is opaque. `Meaning` is the reference: the same payload
 * with every order that should not matter taken away.
 */
module Fingerprint {
  import opened Prelude
  import opened TextOrder

  type Path = seq<string>

  /** What the fingerprint turns into a text of its own. */
  datatype Format = DecimalFormat | UuidFormat | DatetimeFormat | DateFormat

  /** Mapping keys that are not strings are an error. */
  datatype Key = StrKey(text: string) | OtherKey

  datatype Entry = Entry(key: Key, value: Value)

  /**
   * `Rendered` is a value of one of the formats in its canonical text,
   * `Float` a finite float in its text, `Unsupported` anything the fingerprint
   * rejects, `Wrapped` a model or an enum member around its content.
   */
  datatype Value =
    | Null
    | Flag(flag: bool)
    | Whole(text: string)
    | Str(text: string)
    | Rendered(format: Format, text: string)
    | Float(text: string)
    | Unsupported
    | Wrapped(inner: Value)
    | Mapping(entries: seq<Entry>)
    | Sequence(items: seq<Value>)
    | Bag(items: seq<Value>)

  datatype Json =
    | JLiteral(text: string)
    | JString(text: string)
    | JArray(items: seq<Json>)
    | JObject(members: seq<Keyed<Json>>)

  // The writer.

  function Hex(n: int): string {
    if 0 <= n < 16 then ["0123456789abcdef"[n]] else "?"
  }

  function EscapeChar(c: char): string {
    if c == '"' then "\\\""
    else if c == '\\' then "\\\\"
    else if c == '\n' then "\\n"
    else if c == '\r' then "\\r"
    else if c == '\t' then "\\t"
    else if c as int == 8 then "\\b"
    else if c as int == 12 then "\\f"
    else if c as int < 32 then "\\u00" + Hex(c as int / 16) + Hex(c as int % 16)
    else [c]
  }

  function Escape(s: string): string {
    if s == "" then "" else EscapeChar(s[0]) + Escape(s[1..])
  }

  function Quote(s: string): string { "\"" + Escape(s) + "\"" }

  function Join(parts: seq<string>): string {
    if parts == [] then ""
    else if |parts| == 1 then parts[0]
    else parts[0] + "," + Join(parts[1..])
  }

  function MemberText(m: Keyed<string>): string { Quote(m.key) + ":" + m.item }

  function Write(j: Json): string {
    match j
    case JLiteral(text) => text
    case JString(text) => Quote(text)
    case JArray(items) => "[" + Join(seq(|items|, i requires 0 <= i < |items| => Write(items[i]))) + "]"
    case JObject(members) =>
      var texts := seq(|members|, i requires 0 <= i < |members| =>
                       Keyed(members[i].key, Write(members[i].item)));
      "{" + Join(Map(MemberText, Sort(texts))) + "}"
  }

  // Canonicalization.

  function Map<A, B>(f: A -> B, xs: seq<A>): (ys: seq<B>)
    ensures |ys| == |xs| && forall i | 0 <= i < |xs| :: ys[i] == f(xs[i])
  {
    seq(|xs|, i requires 0 <= i < |xs| => f(xs[i]))
  }

  /** All of them, or an error if any is an error. */
  function All<T>(xs: seq<Option<T>>): (r: Option<seq<T>>)
    ensures r.None? <==> exists i :: 0 <= i < |xs| && xs[i].None?
    ensures r.Some? ==> |r.value| == |xs|
                        && forall i | 0 <= i < |xs| :: xs[i] == Some(r.value[i])
  {
    if xs == [] then Some([])
    else if xs[0].None? then None
    else match All(xs[1..])
      case None => None
      case Some(rest) => Some([xs[0].value] + rest)
  }

  function KeyText(k: Key): string { if k.StrKey? then k.text else "" }

  function ByText(j: Json): Keyed<Json> { Keyed(Write(j), j) }

  function Item<T>(k: Keyed<T>): T { k.item }

  /** `sorted(items, key=json.dumps)`. */
  function SortedByText(items: seq<Json>): seq<Json> {
    Map(Item, Sort(Map(ByText, items)))
  }

  function Canonicalize(v: Value, path: Path, unordered: set<Path>): Option<Json>
    decreases v, 1
  {
    match v
    case Null => Some(JLiteral("null"))
    case Flag(flag) => Some(JLiteral(if flag then "true" else "false"))
    case Whole(text) => Some(JLiteral(text))
    case Float(text) => Some(JLiteral(text))
    case Str(text) => Some(JString(text))
    case Rendered(_, text) => Some(JString(text))
    case Unsupported => None
    case Wrapped(inner) => Canonicalize(inner, path, unordered)
    case Mapping(_) =>
      (match All(MemberTrees(v, path, unordered))
       case None => None
       case Some(ms) => Some(JObject(Sort(ms))))
    case Sequence(_) =>
      (match All(ItemTrees(v, path, unordered))
       case None => None
       case Some(js) => Some(JArray(if path in unordered then SortedByText(js) else js)))
    case Bag(_) =>
      (match All(ItemTrees(v, path, unordered))
       case None => None
       case Some(js) => Some(JArray(SortedByText(js))))
  }

  function MemberTrees(v: Value, path: Path, unordered: set<Path>): seq<Option<Keyed<Json>>>
    requires v.Mapping?
    decreases v, 0
  {
    seq(|v.entries|, i requires 0 <= i < |v.entries| =>
        CanonicalMember(v.entries[i].key,
                        Canonicalize(v.entries[i].value, path + [KeyText(v.entries[i].key)], unordered)))
  }

  function ItemTrees(v: Value, path: Path, unordered: set<Path>): seq<Option<Json>>
    requires v.Sequence? || v.Bag?
    decreases v, 0
  {
    seq(|v.items|, i requires 0 <= i < |v.items| =>
        Canonicalize(v.items[i], path + [Slot(v)], unordered))
  }

  /** The path step into a collection. */
  function Slot(v: Value): string { if v.Bag? then "{}" else "[]" }

  function CanonicalMember(k: Key, j: Option<Json>): Option<Keyed<Json>> {
    if k.OtherKey? || j.None? then None else Some(Keyed(k.text, j.value))
  }

  function Text(j: Option<Json>): Option<string> {
    match j
    case None => None
    case Some(x) => Some(Write(x))
  }

  /** The text that is hashed, or an error. */
  function CanonicalText(v: Value, path: Path, unordered: set<Path>): Option<string> {
    Text(Canonicalize(v, path, unordered))
  }

  // What a payload means.

  datatype Meaning =
    | MLiteral(text: string)
    | MText(text: string)
    | MRendered(format: Format, text: string)
    | MObject(members: multiset<Keyed<Meaning>>)
    | MList(items: seq<Meaning>)
    | MBag(bag: multiset<Meaning>)

  function MeaningMember(k: Key, m: Option<Meaning>): Option<Keyed<Meaning>> {
    if k.OtherKey? || m.None? then None else Some(Keyed(k.text, m.value))
  }

  /** Mappings, sets and the lists at declared unordered paths have no order. */
  function MeaningOf(v: Value, path: Path, unordered: set<Path>): Option<Meaning>
    decreases v, 1
  {
    match v
    case Null => Some(MLiteral("null"))
    case Flag(flag) => Some(MLiteral(if flag then "true" else "false"))
    case Whole(text) => Some(MLiteral(text))
    case Float(text) => Some(MLiteral(text))
    case Str(text) => Some(MText(text))
    case Rendered(format, text) => Some(MRendered(format, text))
    case Unsupported => None
    case Wrapped(inner) => MeaningOf(inner, path, unordered)
    case Mapping(_) =>
      (match All(MemberMeanings(v, path, unordered))
       case None => None
       case Some(ms) => Some(MObject(multiset(ms))))
    case Sequence(_) =>
      (match All(ItemMeanings(v, path, unordered))
       case None => None
       case Some(ms) => Some(if path in unordered then MBag(multiset(ms)) else MList(ms)))
    case Bag(_) =>
      (match All(ItemMeanings(v, path, unordered))
       case None => None
       case Some(ms) => Some(MBag(multiset(ms))))
  }

  function MemberMeanings(v: Value, path: Path, unordered: set<Path>): seq<Option<Keyed<Meaning>>>
    requires v.Mapping?
    decreases v, 0
  {
    seq(|v.entries|, i requires 0 <= i < |v.entries| =>
        MeaningMember(v.entries[i].key,
                      MeaningOf(v.entries[i].value, path + [KeyText(v.entries[i].key)], unordered)))
  }

  function ItemMeanings(v: Value, path: Path, unordered: set<Path>): seq<Option<Meaning>>
    requires v.Sequence? || v.Bag?
    decreases v, 0
  {
    seq(|v.items|, i requires 0 <= i < |v.items| =>
        MeaningOf(v.items[i], path + [Slot(v)], unordered))
  }

  /** A number's text is a nonempty run of these. */
  predicate NumeralChar(c: char) { '0' <= c <= '9' || c in "+-.e" }

  predicate Numeral(s: string) { s != "" && forall i | 0 <= i < |s| :: NumeralChar(s[i]) }

  /** Numbers print as numerals, and the string keys of one mapping are distinct. */
  ghost predicate WellFormed(v: Value) {
    match v
    case Whole(text) => Numeral(text)
    case Float(text) => Numeral(text)
    case Wrapped(inner) => WellFormed(inner)
    case Mapping(entries) =>
      && (forall i, j | 0 <= i < j < |entries| && entries[i].key.StrKey? ::
            entries[i].key != entries[j].key)
      && (forall i | 0 <= i < |entries| :: WellFormed(entries[i].value))
    case Sequence(items) => forall i | 0 <= i < |items| :: WellFormed(items[i])
    case Bag(items) => forall i | 0 <= i < |items| :: WellFormed(items[i])
    case _ => true
  }

  /** Where one schema has sets, and where it has values of a format rather than strings. */
  datatype Schema = Schema(sets: set<Path>, formats: map<Path, Format>)

  /** Every place holds what the schema says, or something no text of which can be mistaken for it. */
  ghost predicate Shaped(v: Value, path: Path, schema: Schema) {
    match v
    case Str(_) => path !in schema.formats
    case Rendered(format, _) => path in schema.formats && schema.formats[path] == format
    case Wrapped(inner) => Shaped(inner, path, schema)
    case Mapping(entries) =>
      forall i | 0 <= i < |entries| ::
        Shaped(entries[i].value, path + [KeyText(entries[i].key)], schema)
    case Sequence(items) =>
      path !in schema.sets
      && forall i | 0 <= i < |items| :: Shaped(items[i], path + ["[]"], schema)
    case Bag(items) =>
      path in schema.sets
      && forall i | 0 <= i < |items| :: Shaped(items[i], path + ["{}"], schema)
    case _ => true
  }

  // The writer is unambiguous on canonical trees.

  predicate LiteralChar(c: char) { NumeralChar(c) || 'a' <= c <= 'z' }

  ghost predicate Canonical(j: Json) {
    match j
    case JLiteral(text) => text != "" && forall i | 0 <= i < |text| :: LiteralChar(text[i])
    case JString(_) => true
    case JArray(items) => forall i | 0 <= i < |items| :: Canonical(items[i])
    case JObject(members) =>
      && Sorted(Keys(members))
      && (forall i | 0 <= i < |members| :: Canonical(members[i].item))
  }

  /** What may follow a value: nothing, or a delimiter. */
  predicate Delimited(s: string) { s == "" || s[0] in ",]}" }

  /** Neither text continues the other. */
  ghost predicate Apart(p: string, q: string) {
    forall u, v | Delimited(u) && Delimited(v) && p + u == q + v :: p == q
  }

  predicate Opens(p: string) { p != "" && p[0] !in ",]}" }

  predicate Closes(s: string) { s != "" && s[0] in "]}" }

  function Rest(parts: seq<string>): string
    requires parts != []
  {
    if |parts| == 1 then "" else "," + Join(parts[1..])
  }

  lemma JoinSplits(parts: seq<string>, s: string)
    requires parts != [] && Closes(s)
    ensures Join(parts) + s == parts[0] + (Rest(parts) + s)
    ensures Delimited(Rest(parts) + s)
    ensures |parts| > 1 ==> Rest(parts) + s == "," + (Join(parts[1..]) + s)
    ensures |parts| == 1 ==> Rest(parts) + s == s
  {
    if |parts| > 1 {
      Associate(",", Join(parts[1..]), s);
      assert (Rest(parts) + s)[0] == ',';
    } else {
      assert "" + s == s;
    }
    assert Join(parts) == parts[0] + Rest(parts) by {
      if |parts| > 1 {
        Associate(parts[0], ",", Join(parts[1..]));
      }
    }
    Associate(parts[0], Rest(parts), s);
  }

  lemma Associate(a: string, b: string, c: string)
    ensures (a + b) + c == a + (b + c)
  {
  }

  lemma CutPrefix(p: string, u: string, v: string)
    requires p + u == p + v
    ensures u == v
  {
    assert u == (p + u)[|p|..];
    assert v == (p + v)[|p|..];
  }

  /** The first part is the same, and so is what follows it. */
  lemma JoinHeads(ps: seq<string>, qs: seq<string>, s: string, t: string)
    requires ps != [] && qs != [] && Apart(ps[0], qs[0])
    requires Closes(s) && Closes(t) && Join(ps) + s == Join(qs) + t
    ensures ps[0] == qs[0] && (|ps| == 1 <==> |qs| == 1)
    ensures |ps| > 1 ==> Join(ps[1..]) + s == Join(qs[1..]) + t
  {
    JoinSplits(ps, s);
    JoinSplits(qs, t);
    CutPrefix(ps[0], Rest(ps) + s, Rest(qs) + t);
    if |ps| > 1 && |qs| > 1 {
      CutPrefix(",", Join(ps[1..]) + s, Join(qs[1..]) + t);
    } else {
      assert (Rest(ps) + s)[0] == (Rest(qs) + t)[0];
    }
  }

  lemma JoinStart(ps: seq<string>, s: string)
    requires Closes(s) && forall i | 0 <= i < |ps| :: Opens(ps[i])
    ensures Join(ps) + s != "" && (Closes(Join(ps) + s) <==> ps == [])
  {
    if ps == [] {
      assert Join(ps) + s == s;
    } else {
      JoinSplits(ps, s);
      assert (Join(ps) + s)[0] == ps[0][0];
    }
  }

  lemma {:induction false} JoinUnambiguous(ps: seq<string>, qs: seq<string>, s: string, t: string)
    requires forall i | 0 <= i < |ps| :: Opens(ps[i])
    requires forall i | 0 <= i < |qs| :: Opens(qs[i])
    requires forall i, j | 0 <= i < |ps| && 0 <= j < |qs| :: Apart(ps[i], qs[j])
    requires Closes(s) && Closes(t) && Join(ps) + s == Join(qs) + t
    ensures ps == qs
    decreases |ps|
  {
    JoinStart(ps, s);
    JoinStart(qs, t);
    if ps != [] {
      JoinHeads(ps, qs, s, t);
      if |ps| > 1 {
        JoinUnambiguous(ps[1..], qs[1..], s, t);
      }
      assert ps == [ps[0]] + ps[1..] && qs == [qs[0]] + qs[1..];
    }
  }

  lemma EscapeCharUnambiguous(c: char, d: char, s: string, t: string)
    requires EscapeChar(c) + s == EscapeChar(d) + t
    ensures c == d
  {
    var e, f := EscapeChar(c), EscapeChar(d);
    assert (e + s)[0] == e[0] && (f + t)[0] == f[0];
    if e[0] == '\\' {
      assert (e + s)[1] == e[1] && (f + t)[1] == f[1];
      if e[1] == 'u' {
        assert (e + s)[4] == e[4] && (f + t)[4] == f[4];
        assert (e + s)[5] == e[5] && (f + t)[5] == f[5];
        HexInjective(c as int / 16, d as int / 16);
        HexInjective(c as int % 16, d as int % 16);
      }
    }
  }

  lemma HexInjective(m: int, n: int)
    requires 0 <= m < 16 && 0 <= n < 16 && Hex(m) == Hex(n)
    ensures m == n
  {
    assert "0123456789abcdef"[m] == "0123456789abcdef"[n];
  }

  // A reader of JSON strings, as section 7 of RFC 8259 has them.

  function HexValue(c: char): int {
    if '0' <= c <= '9' then c as int - '0' as int
    else if 'a' <= c <= 'f' then c as int - 'a' as int + 10
    else if 'A' <= c <= 'F' then c as int - 'A' as int + 10
    else -1
  }

  function Escaped(c: char): Option<char> {
    match c
    case '"' => Some('"')
    case '\\' => Some('\\')
    case '/' => Some('/')
    case 'b' => Some(8 as char)
    case 'f' => Some(12 as char)
    case 'n' => Some('\n')
    case 'r' => Some('\r')
    case 't' => Some('\t')
    case _ => None
  }

  /** The character of four hexadecimal digits, below the surrogates. */
  function CodePoint(s: string): Option<char>
    requires |s| == 4
  {
    var a, b, c, d := HexValue(s[0]), HexValue(s[1]), HexValue(s[2]), HexValue(s[3]);
    var code := a * 4096 + b * 256 + c * 16 + d;
    if a < 0 || b < 0 || c < 0 || d < 0 || code >= 0xD800 then None else Some(code as char)
  }

  function Prepend(c: Option<char>, rest: Option<string>): Option<string> {
    if c.None? || rest.None? then None else Some([c.value] + rest.value)
  }

  function Unescape(s: string): Option<string> {
    if s == "" then Some("")
    else if s[0] == '"' || s[0] as int < 32 then None
    else if s[0] != '\\' then Prepend(Some(s[0]), Unescape(s[1..]))
    else if |s| >= 2 && s[1] != 'u' then Prepend(Escaped(s[1]), Unescape(s[2..]))
    else if |s| >= 6 then Prepend(CodePoint(s[2..6]), Unescape(s[6..]))
    else None
  }

  lemma UnescapeChar(c: char, rest: string)
    ensures Unescape(EscapeChar(c) + rest) == Prepend(Some(c), Unescape(rest))
  {
    var e := EscapeChar(c);
    var s := e + rest;
    assert s[|e|..] == rest;
    assert forall i | 0 <= i < |e| :: s[i] == e[i];
    if |e| == 6 {
      HexReads(c as int / 16);
      HexReads(c as int % 16);
      assert s[2..6] == ['0', '0', e[4], e[5]];
    }
  }

  lemma HexReads(n: int)
    requires 0 <= n < 16
    ensures |Hex(n)| == 1 && HexValue(Hex(n)[0]) == n
  {
  }

  /** What the writer quotes, a reader of JSON strings reads back. */
  lemma {:induction false} EscapeRoundTrip(s: string)
    ensures Unescape(Escape(s)) == Some(s)
  {
    if s != "" {
      UnescapeChar(s[0], Escape(s[1..]));
      EscapeRoundTrip(s[1..]);
      assert s == [s[0]] + s[1..];
    }
  }

  lemma {:induction false} QuoteUnambiguous(x: string, y: string, s: string, t: string)
    requires Escape(x) + ("\"" + s) == Escape(y) + ("\"" + t)
    ensures x == y
  {
    if x != "" { EscapeSplits(x, "\"" + s); }
    if y != "" { EscapeSplits(y, "\"" + t); }
    if x != "" && y != "" {
      EscapeCharUnambiguous(x[0], y[0], Escape(x[1..]) + ("\"" + s), Escape(y[1..]) + ("\"" + t));
      CutPrefix(EscapeChar(x[0]), Escape(x[1..]) + ("\"" + s), Escape(y[1..]) + ("\"" + t));
      QuoteUnambiguous(x[1..], y[1..], s, t);
      assert x == [x[0]] + x[1..] && y == [y[0]] + y[1..];
    } else {
      assert x == "" ==> (Escape(x) + ("\"" + s))[0] == '"';
      assert y == "" ==> (Escape(y) + ("\"" + t))[0] == '"';
    }
  }

  lemma EscapeSplits(x: string, s: string)
    requires x != ""
    ensures Escape(x) + s == EscapeChar(x[0]) + (Escape(x[1..]) + s)
    ensures (Escape(x) + s)[0] != '"'
  {
    Associate(EscapeChar(x[0]), Escape(x[1..]), s);
    assert (Escape(x) + s)[0] == EscapeChar(x[0])[0];
  }

  function Texts(items: seq<Json>): seq<string> {
    seq(|items|, i requires 0 <= i < |items| => Write(items[i]))
  }

  function MemberTexts(members: seq<Keyed<Json>>): seq<string> {
    seq(|members|, i requires 0 <= i < |members| => MemberText(Keyed(members[i].key, Write(members[i].item))))
  }

  /** The writer's own sort changes nothing in a canonical object. */
  lemma WriteSortedObject(members: seq<Keyed<Json>>)
    requires Sorted(Keys(members))
    ensures Write(JObject(members)) == "{" + Join(MemberTexts(members)) + "}"
  {
    var texts := seq(|members|, i requires 0 <= i < |members| =>
                     Keyed(members[i].key, Write(members[i].item)));
    assert Write(JObject(members)) == "{" + Join(Map(MemberText, Sort(texts))) + "}";
    assert Sort(texts) == texts by {
      assert Keys(texts) == Keys(members);
      SortKeepsSorted(texts);
    }
    assert Map(MemberText, texts) == MemberTexts(members);
  }

  lemma WriteOpens(j: Json)
    requires Canonical(j)
    ensures Opens(Write(j))
    ensures j.JString? <==> Write(j)[0] == '"'
    ensures j.JArray? <==> Write(j)[0] == '['
    ensures j.JObject? <==> Write(j)[0] == '{'
  {
  }

  lemma {:induction false} WriteUnambiguous(a: Json, b: Json)
    requires Canonical(a) && Canonical(b)
    ensures Apart(Write(a), Write(b))
    ensures Write(a) == Write(b) ==> a == b
    decreases a, 1
  {
    assert Apart(Write(a), Write(b)) && (Write(a) == Write(b) ==> a == b) by {
      forall u, v | Delimited(u) && Delimited(v) && Write(a) + u == Write(b) + v
        ensures a == b
      {
        WriteDecides(a, b, u, v);
      }
      assert Write(a) == Write(b) ==> Write(a) + "" == Write(b) + "";
    }
  }

  lemma {:induction false} WriteDecides(a: Json, b: Json, u: string, v: string)
    requires Canonical(a) && Canonical(b)
    requires Delimited(u) && Delimited(v) && Write(a) + u == Write(b) + v
    ensures a == b
    decreases a, 0
  {
    WriteOpens(a);
    WriteOpens(b);
    assert (Write(a) + u)[0] == Write(a)[0] && (Write(b) + v)[0] == Write(b)[0];
    match a
    case JLiteral(_) => LiteralsDecide(a.text, b.text, u, v);
    case JString(x) =>
      Enclosed("\"", Escape(x), "\"", u);
      Enclosed("\"", Escape(b.text), "\"", v);
      CutPrefix("\"", Escape(x) + ("\"" + u), Escape(b.text) + ("\"" + v));
      QuoteUnambiguous(x, b.text, u, v);
    case JArray(xs) =>
      forall i, j | 0 <= i < |xs| && 0 <= j < |b.items|
        ensures Apart(Write(xs[i]), Write(b.items[j]))
        ensures Write(xs[i]) == Write(b.items[j]) ==> xs[i] == b.items[j]
      {
        WriteUnambiguous(xs[i], b.items[j]);
      }
      ArraysDecide(xs, b.items, u, v);
    case JObject(ms) =>
      forall i, j | 0 <= i < |ms| && 0 <= j < |b.members|
        ensures Apart(Write(ms[i].item), Write(b.members[j].item))
        ensures Write(ms[i].item) == Write(b.members[j].item) ==> ms[i].item == b.members[j].item
      {
        WriteUnambiguous(ms[i].item, b.members[j].item);
      }
      ObjectsDecide(ms, b.members, u, v);
  }

  lemma Enclosed(open: string, body: string, close: string, u: string)
    ensures (open + body + close) + u == open + (body + (close + u))
  {
  }

  lemma LiteralsDecide(p: string, q: string, u: string, v: string)
    requires forall i | 0 <= i < |p| :: LiteralChar(p[i])
    requires forall i | 0 <= i < |q| :: LiteralChar(q[i])
    requires Delimited(u) && Delimited(v) && p + u == q + v
    ensures p == q
  {
    var whole := p + u;
    assert forall k | 0 <= k < |q| :: whole[k] == (q + v)[k] == q[k];
    assert forall k | 0 <= k < |p| :: whole[k] == p[k];
    assert |p| < |whole| ==> whole[|p|] == u[0];
    assert |q| < |whole| ==> whole[|q|] == (q + v)[|q|] == v[0];
    assert p == (p + u)[..|p|] && q == (q + v)[..|q|];
  }

  lemma ArraysDecide(xs: seq<Json>, ys: seq<Json>, u: string, v: string)
    requires forall i | 0 <= i < |xs| :: Canonical(xs[i])
    requires forall i | 0 <= i < |ys| :: Canonical(ys[i])
    requires forall i, j | 0 <= i < |xs| && 0 <= j < |ys| ::
               && Apart(Write(xs[i]), Write(ys[j]))
               && (Write(xs[i]) == Write(ys[j]) ==> xs[i] == ys[j])
    requires Write(JArray(xs)) + u == Write(JArray(ys)) + v
    ensures xs == ys
  {
    var ps, qs := Texts(xs), Texts(ys);
    assert Write(JArray(xs)) == "[" + Join(ps) + "]" && Write(JArray(ys)) == "[" + Join(qs) + "]";
    Enclosed("[", Join(ps), "]", u);
    Enclosed("[", Join(qs), "]", v);
    CutPrefix("[", Join(ps) + ("]" + u), Join(qs) + ("]" + v));
    forall i | 0 <= i < |ps| ensures Opens(ps[i]) { WriteOpens(xs[i]); }
    forall i | 0 <= i < |qs| ensures Opens(qs[i]) { WriteOpens(ys[i]); }
    JoinUnambiguous(ps, qs, "]" + u, "]" + v);
    assert |xs| == |ps| == |ys|;
    forall i | 0 <= i < |xs| ensures xs[i] == ys[i] { assert ps[i] == qs[i]; }
  }

  lemma MembersApart(m: Keyed<Json>, n: Keyed<Json>)
    requires Apart(Write(m.item), Write(n.item))
    requires Write(m.item) == Write(n.item) ==> m.item == n.item
    ensures Apart(MemberText(Keyed(m.key, Write(m.item))), MemberText(Keyed(n.key, Write(n.item))))
    ensures MemberText(Keyed(m.key, Write(m.item))) == MemberText(Keyed(n.key, Write(n.item))) ==> m == n
  {
    var p, q := MemberText(Keyed(m.key, Write(m.item))), MemberText(Keyed(n.key, Write(n.item)));
    forall u, v | Delimited(u) && Delimited(v) && p + u == q + v
      ensures m == n
    {
      MemberSplits(m.key, Write(m.item), u);
      MemberSplits(n.key, Write(n.item), v);
      CutPrefix("\"", Escape(m.key) + ("\"" + (":" + (Write(m.item) + u))),
                Escape(n.key) + ("\"" + (":" + (Write(n.item) + v))));
      QuoteUnambiguous(m.key, n.key, ":" + (Write(m.item) + u), ":" + (Write(n.item) + v));
      CutPrefix(Escape(m.key), "\"" + (":" + (Write(m.item) + u)), "\"" + (":" + (Write(n.item) + v)));
      CutPrefix("\"", ":" + (Write(m.item) + u), ":" + (Write(n.item) + v));
      CutPrefix(":", Write(m.item) + u, Write(n.item) + v);
    }
    assert p == q ==> p + "" == q + "";
  }

  lemma MemberSplits(key: string, text: string, u: string)
    ensures MemberText(Keyed(key, text)) + u == "\"" + (Escape(key) + ("\"" + (":" + (text + u))))
    ensures Opens(MemberText(Keyed(key, text)))
  {
    Enclosed("\"", Escape(key), "\"", ":" + (text + u));
    assert MemberText(Keyed(key, text)) + u == Quote(key) + (":" + (text + u));
    assert MemberText(Keyed(key, text))[0] == '"';
  }

  lemma ObjectsDecide(ms: seq<Keyed<Json>>, ns: seq<Keyed<Json>>, u: string, v: string)
    requires Sorted(Keys(ms)) && Sorted(Keys(ns))
    requires forall i, j | 0 <= i < |ms| && 0 <= j < |ns| ::
               && Apart(Write(ms[i].item), Write(ns[j].item))
               && (Write(ms[i].item) == Write(ns[j].item) ==> ms[i].item == ns[j].item)
    requires Write(JObject(ms)) + u == Write(JObject(ns)) + v
    ensures ms == ns
  {
    var ps, qs := MemberTexts(ms), MemberTexts(ns);
    WriteSortedObject(ms);
    WriteSortedObject(ns);
    Enclosed("{", Join(ps), "}", u);
    Enclosed("{", Join(qs), "}", v);
    CutPrefix("{", Join(ps) + ("}" + u), Join(qs) + ("}" + v));
    forall i | 0 <= i < |ps| ensures Opens(ps[i]) { MemberSplits(ms[i].key, Write(ms[i].item), ""); }
    forall i | 0 <= i < |qs| ensures Opens(qs[i]) { MemberSplits(ns[i].key, Write(ns[i].item), ""); }
    forall i, j | 0 <= i < |ps| && 0 <= j < |qs|
      ensures Apart(ps[i], qs[j]) && (ps[i] == qs[j] ==> ms[i] == ns[j])
    {
      MembersApart(ms[i], ns[j]);
    }
    JoinUnambiguous(ps, qs, "}" + u, "}" + v);
    assert |ms| == |ps| == |ns|;
    forall i | 0 <= i < |ms| ensures ms[i] == ns[i] { assert ps[i] == qs[i]; }
  }

  /** The compact form: no blanks, a comma between items, a colon after a key, keys in order. */
  lemma CompactForm(a: Json, b: Json, k: string, l: string)
    requires AtMost(k, l) && k != l
    ensures Write(JArray([])) == "[]" && Write(JObject([])) == "{}"
    ensures Write(JArray([a, b])) == "[" + Write(a) + "," + Write(b) + "]"
    ensures Write(JObject([Keyed(k, a), Keyed(l, b)]))
            == "{" + (Quote(k) + ":" + Write(a) + "," + (Quote(l) + ":" + Write(b))) + "}"
    ensures Write(JObject([Keyed(l, b), Keyed(k, a)])) == Write(JObject([Keyed(k, a), Keyed(l, b)]))
  {
    EmptyForms();
    ArrayOfTwo(a, b);
    ObjectOfTwo(a, b, k, l);
    ObjectForgetsOrder(a, b, k, l);
  }

  lemma EmptyForms()
    ensures Write(JArray([])) == "[]" && Write(JObject([])) == "{}"
  {
  }

  lemma ArrayOfTwo(a: Json, b: Json)
    ensures Write(JArray([a, b])) == "[" + Write(a) + "," + Write(b) + "]"
  {
    var parts := [Write(a), Write(b)];
    assert Texts([a, b]) == parts;
    assert parts[1..] == [Write(b)];
    assert Join(parts) == Write(a) + "," + Write(b);
    assert Write(JArray([a, b])) == "[" + Join(Texts([a, b])) + "]";
  }

  lemma ObjectOfTwo(a: Json, b: Json, k: string, l: string)
    requires AtMost(k, l)
    ensures Write(JObject([Keyed(k, a), Keyed(l, b)]))
            == "{" + (Quote(k) + ":" + Write(a) + "," + (Quote(l) + ":" + Write(b))) + "}"
  {
    var members := [Keyed(k, a), Keyed(l, b)];
    var m, n := MemberText(Keyed(k, Write(a))), MemberText(Keyed(l, Write(b)));
    WriteSortedObject(members);
    assert MemberTexts(members) == [m, n];
    assert [m, n][1..] == [n];
    assert Join([m, n]) == m + "," + n;
  }

  lemma ObjectForgetsOrder(a: Json, b: Json, k: string, l: string)
    requires k != l
    ensures Write(JObject([Keyed(l, b), Keyed(k, a)])) == Write(JObject([Keyed(k, a), Keyed(l, b)]))
  {
    var x, y := Keyed(k, Write(a)), Keyed(l, Write(b));
    SortForgetsOrder([x, y], [y, x]);
    WriteOfTwo(Keyed(k, a), Keyed(l, b));
    WriteOfTwo(Keyed(l, b), Keyed(k, a));
  }

  lemma WriteOfTwo(m: Keyed<Json>, n: Keyed<Json>)
    ensures Write(JObject([m, n]))
            == "{" + Join(Map(MemberText, Sort([Keyed(m.key, Write(m.item)), Keyed(n.key, Write(n.item))]))) + "}"
  {
    var members := [m, n];
    var texts := seq(|members|, i requires 0 <= i < |members| =>
                     Keyed(members[i].key, Write(members[i].item)));
    assert texts == [Keyed(m.key, Write(m.item)), Keyed(n.key, Write(n.item))];
  }

  // Sorting by text.

  function Without<T>(xs: seq<T>, k: nat): (r: seq<T>)
    requires k < |xs|
    ensures |r| == |xs| - 1
    ensures forall i | 0 <= i < |r| :: r[i] == xs[if i < k then i else i + 1]
  {
    xs[..k] + xs[k + 1..]
  }

  lemma WithoutRemovesOne<T>(xs: seq<T>, k: nat)
    requires k < |xs|
    ensures multiset(xs) == multiset(Without(xs, k)) + multiset{xs[k]}
  {
    assert xs == xs[..k] + [xs[k]] + xs[k + 1..];
  }

  /** Where equal elements have equal companions, equal bags have equal bags of companions. */
  lemma {:induction false} Transport<A, B>(a: seq<A>, b: seq<B>, c: seq<A>, d: seq<B>)
    requires |a| == |b| && |c| == |d| && multiset(a) == multiset(c)
    requires forall i, j | 0 <= i < |a| && 0 <= j < |c| && a[i] == c[j] :: b[i] == d[j]
    ensures multiset(b) == multiset(d)
    decreases |a|
  {
    assert |a| == |multiset(a)| == |multiset(c)| == |c|;
    if a == [] {
      assert b == [] && d == [];
    } else {
      assert a[0] in multiset(c);
      var k :| 0 <= k < |c| && c[k] == a[0];
      WithoutRemovesOne(a, 0);
      WithoutRemovesOne(b, 0);
      WithoutRemovesOne(c, k);
      WithoutRemovesOne(d, k);
      BagCancel(multiset(Without(a, 0)), multiset(Without(c, k)), a[0]);
      Transport(Without(a, 0), Without(b, 0), Without(c, k), Without(d, k));
    }
  }

  lemma BagCancel<A>(m: multiset<A>, n: multiset<A>, x: A)
    requires m + multiset{x} == n + multiset{x}
    ensures m == n
  {
    assert m == (m + multiset{x}) - multiset{x};
    assert n == (n + multiset{x}) - multiset{x};
  }

  lemma SortedByTextPermutes(js: seq<Json>)
    ensures multiset(SortedByText(js)) == multiset(js)
    ensures |SortedByText(js)| == |js|
  {
    var keyed := Map(ByText, js);
    SortPermutes(keyed);
    Transport(Sort(keyed), SortedByText(js), keyed, js);
  }

  lemma SortedByTextForgetsOrder(a: seq<Json>, b: seq<Json>)
    requires multiset(a) == multiset(b)
    requires forall i | 0 <= i < |a| :: Canonical(a[i])
    ensures SortedByText(a) == SortedByText(b)
  {
    var x, y := Map(ByText, a), Map(ByText, b);
    Transport(a, x, b, y);
    forall i, j | 0 <= i < |x| && 0 <= j < |x| && x[i].key == x[j].key
      ensures x[i] == x[j]
    {
      WriteUnambiguous(a[i], a[j]);
    }
    SortForgetsOrder(x, y);
  }

  lemma {:induction false} CanonicalizeIsCanonical(v: Value, path: Path, unordered: set<Path>)
    requires WellFormed(v) && Canonicalize(v, path, unordered).Some?
    ensures Canonical(Canonicalize(v, path, unordered).value)
    decreases v, 1
  {
    match v
    case Wrapped(inner) => CanonicalizeIsCanonical(inner, path, unordered);
    case Mapping(entries) =>
      var ms := All(MemberTrees(v, path, unordered)).value;
      forall i | 0 <= i < |ms|
        ensures Canonical(ms[i].item)
      {
        assert MemberTrees(v, path, unordered)[i] == Some(ms[i]);
        CanonicalizeIsCanonical(entries[i].value, path + [KeyText(entries[i].key)], unordered);
      }
      SortPermutes(ms);
      forall i | 0 <= i < |ms|
        ensures Canonical(Sort(ms)[i].item)
      {
        assert Sort(ms)[i] in multiset(Sort(ms));
        assert Sort(ms)[i] in ms;
      }
    case Sequence(_) => ItemsAreCanonical(v, path, unordered);
    case Bag(_) => ItemsAreCanonical(v, path, unordered);
    case _ =>
  }

  lemma {:induction false} ItemsAreCanonical(v: Value, path: Path, unordered: set<Path>)
    requires WellFormed(v) && (v.Sequence? || v.Bag?) && All(ItemTrees(v, path, unordered)).Some?
    ensures var js := All(ItemTrees(v, path, unordered)).value;
            && (forall i | 0 <= i < |js| :: Canonical(js[i]))
            && (forall i | 0 <= i < |SortedByText(js)| :: Canonical(SortedByText(js)[i]))
    decreases v, 0
  {
    var js := All(ItemTrees(v, path, unordered)).value;
    forall i | 0 <= i < |js|
      ensures Canonical(js[i])
    {
      assert ItemTrees(v, path, unordered)[i] == Some(js[i]);
      CanonicalizeIsCanonical(v.items[i], path + [Slot(v)], unordered);
    }
    SortedByTextPermutes(js);
    forall i | 0 <= i < |js|
      ensures Canonical(SortedByText(js)[i])
    {
      assert SortedByText(js)[i] in multiset(SortedByText(js));
      assert SortedByText(js)[i] in js;
    }
  }

  // The text decides the meaning and the meaning decides the text.

  lemma {:induction false} SameErrors(v: Value, path: Path, unordered: set<Path>)
    ensures Canonicalize(v, path, unordered).None? <==> MeaningOf(v, path, unordered).None?
    decreases v, 1
  {
    match v
    case Wrapped(inner) => SameErrors(inner, path, unordered);
    case Mapping(entries) =>
      var js, ms := MemberTrees(v, path, unordered), MemberMeanings(v, path, unordered);
      forall i | 0 <= i < |entries|
        ensures js[i].None? <==> ms[i].None?
      {
        SameErrors(entries[i].value, path + [KeyText(entries[i].key)], unordered);
      }
    case Sequence(_) => SameItemErrors(v, path, unordered);
    case Bag(_) => SameItemErrors(v, path, unordered);
    case _ =>
  }

  lemma {:induction false} SameItemErrors(v: Value, path: Path, unordered: set<Path>)
    requires v.Sequence? || v.Bag?
    ensures All(ItemTrees(v, path, unordered)).None? <==> All(ItemMeanings(v, path, unordered)).None?
    decreases v, 0
  {
    var js, ms := ItemTrees(v, path, unordered), ItemMeanings(v, path, unordered);
    forall i | 0 <= i < |v.items|
      ensures js[i].None? <==> ms[i].None?
    {
      SameErrors(v.items[i], path + [Slot(v)], unordered);
    }
  }

  lemma {:induction false} MeaningDecidesTree(v: Value, p: Path, w: Value, q: Path, unordered: set<Path>)
    requires WellFormed(v) && WellFormed(w)
    requires MeaningOf(v, p, unordered) == MeaningOf(w, q, unordered)
    requires MeaningOf(v, p, unordered).Some?
    ensures Canonicalize(v, p, unordered) == Canonicalize(w, q, unordered)
    decreases v, w, 1
  {
    SameErrors(v, p, unordered);
    SameErrors(w, q, unordered);
    if v.Wrapped? {
      MeaningDecidesTree(v.inner, p, w, q, unordered);
    } else if w.Wrapped? {
      MeaningDecidesTree(v, p, w.inner, q, unordered);
    } else if v.Mapping? {
      EntryTreesFollow(v, p, w, q, unordered);
      MappingTreesAgree(v, p, w, q, unordered);
    } else if v.Sequence? || v.Bag? {
      ItemTreesFollow(v, p, w, q, unordered);
      CollectionTreesAgree(v, p, w, q, unordered);
    }
  }

  /** Tree and meaning of one entry, in iteration order. */
  lemma EntryAt(v: Value, p: Path, unordered: set<Path>, i: nat)
    requires v.Mapping? && Canonicalize(v, p, unordered).Some? && MeaningOf(v, p, unordered).Some?
    requires i < |v.entries|
    ensures var js := All(MemberTrees(v, p, unordered)).value;
            var ms := All(MemberMeanings(v, p, unordered)).value;
            var e := v.entries[i];
            && |js| == |ms| == |v.entries|
            && e.key == StrKey(js[i].key) && js[i].key == ms[i].key
            && Canonicalize(e.value, p + [KeyText(e.key)], unordered) == Some(js[i].item)
            && MeaningOf(e.value, p + [KeyText(e.key)], unordered) == Some(ms[i].item)
  {
    assert MemberTrees(v, p, unordered)[i] == Some(All(MemberTrees(v, p, unordered)).value[i]);
    assert MemberMeanings(v, p, unordered)[i] == Some(All(MemberMeanings(v, p, unordered)).value[i]);
  }

  /** Tree and meaning of one item. */
  lemma ItemAt(v: Value, p: Path, unordered: set<Path>, i: nat)
    requires (v.Sequence? || v.Bag?) && i < |v.items|
    requires Canonicalize(v, p, unordered).Some? && MeaningOf(v, p, unordered).Some?
    ensures var js := All(ItemTrees(v, p, unordered)).value;
            var ms := All(ItemMeanings(v, p, unordered)).value;
            && |js| == |ms| == |v.items|
            && Canonicalize(v.items[i], p + [Slot(v)], unordered) == Some(js[i])
            && MeaningOf(v.items[i], p + [Slot(v)], unordered) == Some(ms[i])
  {
    assert ItemTrees(v, p, unordered)[i] == Some(All(ItemTrees(v, p, unordered)).value[i]);
    assert ItemMeanings(v, p, unordered)[i] == Some(All(ItemMeanings(v, p, unordered)).value[i]);
  }

  /** `b` holds the companions of `a`, and `d` those of `c`, in agreement. */
  ghost predicate Companions<A, B>(a: seq<A>, b: seq<B>, c: seq<A>, d: seq<B>) {
    && |a| == |b| && |c| == |d|
    && forall i, j | 0 <= i < |a| && 0 <= j < |c| && a[i] == c[j] :: b[i] == d[j]
  }

  lemma CompanionsFollow<A, B>(a: seq<A>, b: seq<B>, c: seq<A>, d: seq<B>)
    requires Companions(a, b, c, d)
    ensures a == c ==> b == d
    ensures multiset(a) == multiset(c) ==> multiset(b) == multiset(d)
  {
    if a == c {
      forall i | 0 <= i < |a| ensures b[i] == d[i] { assert a[i] == c[i]; }
    }
    if multiset(a) == multiset(c) {
      Transport(a, b, c, d);
    }
  }

  lemma {:induction false} EntryTreesFollow(v: Value, p: Path, w: Value, q: Path, unordered: set<Path>)
    requires WellFormed(v) && WellFormed(w) && v.Mapping? && w.Mapping?
    requires Canonicalize(v, p, unordered).Some? && Canonicalize(w, q, unordered).Some?
    requires MeaningOf(v, p, unordered).Some? && MeaningOf(w, q, unordered).Some?
    ensures Companions(All(MemberMeanings(v, p, unordered)).value, All(MemberTrees(v, p, unordered)).value,
                       All(MemberMeanings(w, q, unordered)).value, All(MemberTrees(w, q, unordered)).value)
    decreases v, w, 0
  {
    var js, ks := All(MemberTrees(v, p, unordered)).value, All(MemberTrees(w, q, unordered)).value;
    var ms, ns := All(MemberMeanings(v, p, unordered)).value, All(MemberMeanings(w, q, unordered)).value;
    forall i, j | 0 <= i < |ms| && 0 <= j < |ns| && ms[i] == ns[j]
      ensures js[i] == ks[j]
    {
      EntryAt(v, p, unordered, i);
      EntryAt(w, q, unordered, j);
      MeaningDecidesTree(v.entries[i].value, p + [KeyText(v.entries[i].key)],
                         w.entries[j].value, q + [KeyText(w.entries[j].key)], unordered);
    }
  }

  lemma {:induction false} ItemTreesFollow(v: Value, p: Path, w: Value, q: Path, unordered: set<Path>)
    requires WellFormed(v) && WellFormed(w) && (v.Sequence? || v.Bag?) && (w.Sequence? || w.Bag?)
    requires Canonicalize(v, p, unordered).Some? && Canonicalize(w, q, unordered).Some?
    requires MeaningOf(v, p, unordered).Some? && MeaningOf(w, q, unordered).Some?
    ensures Companions(All(ItemMeanings(v, p, unordered)).value, All(ItemTrees(v, p, unordered)).value,
                       All(ItemMeanings(w, q, unordered)).value, All(ItemTrees(w, q, unordered)).value)
    decreases v, w, 0
  {
    var js, ks := All(ItemTrees(v, p, unordered)).value, All(ItemTrees(w, q, unordered)).value;
    var ms, ns := All(ItemMeanings(v, p, unordered)).value, All(ItemMeanings(w, q, unordered)).value;
    forall i, j | 0 <= i < |ms| && 0 <= j < |ns| && ms[i] == ns[j]
      ensures js[i] == ks[j]
    {
      ItemAt(v, p, unordered, i);
      ItemAt(w, q, unordered, j);
      MeaningDecidesTree(v.items[i], p + [Slot(v)], w.items[j], q + [Slot(w)], unordered);
    }
  }

  lemma KeysDecideMembers(v: Value, p: Path, unordered: set<Path>)
    requires WellFormed(v) && v.Mapping?
    requires Canonicalize(v, p, unordered).Some? && MeaningOf(v, p, unordered).Some?
    ensures KeyDecides(All(MemberTrees(v, p, unordered)).value)
  {
    var js := All(MemberTrees(v, p, unordered)).value;
    forall i, j | 0 <= i < |js| && 0 <= j < |js| && js[i].key == js[j].key
      ensures js[i] == js[j]
    {
      EntryAt(v, p, unordered, i);
      EntryAt(v, p, unordered, j);
    }
  }

  lemma MappingTreesAgree(v: Value, p: Path, w: Value, q: Path, unordered: set<Path>)
    requires WellFormed(v) && v.Mapping? && w.Mapping?
    requires Canonicalize(v, p, unordered).Some? && Canonicalize(w, q, unordered).Some?
    requires MeaningOf(v, p, unordered) == MeaningOf(w, q, unordered)
    requires MeaningOf(v, p, unordered).Some?
    requires Companions(All(MemberMeanings(v, p, unordered)).value, All(MemberTrees(v, p, unordered)).value,
                        All(MemberMeanings(w, q, unordered)).value, All(MemberTrees(w, q, unordered)).value)
    ensures Canonicalize(v, p, unordered) == Canonicalize(w, q, unordered)
  {
    var js, ks := All(MemberTrees(v, p, unordered)).value, All(MemberTrees(w, q, unordered)).value;
    CompanionsFollow(All(MemberMeanings(v, p, unordered)).value, js,
                     All(MemberMeanings(w, q, unordered)).value, ks);
    KeysDecideMembers(v, p, unordered);
    SortForgetsOrder(js, ks);
  }

  /** A collection's tree and meaning, both in order or both without. */
  lemma CollectionUnfolds(v: Value, p: Path, unordered: set<Path>)
    requires v.Sequence? || v.Bag?
    requires Canonicalize(v, p, unordered).Some? && MeaningOf(v, p, unordered).Some?
    ensures var js := All(ItemTrees(v, p, unordered)).value;
            var ms := All(ItemMeanings(v, p, unordered)).value;
            if v.Bag? || p in unordered
            then Canonicalize(v, p, unordered) == Some(JArray(SortedByText(js)))
                 && MeaningOf(v, p, unordered) == Some(MBag(multiset(ms)))
            else Canonicalize(v, p, unordered) == Some(JArray(js))
                 && MeaningOf(v, p, unordered) == Some(MList(ms))
  {
  }

  lemma CollectionTreesAgree(v: Value, p: Path, w: Value, q: Path, unordered: set<Path>)
    requires WellFormed(v) && (v.Sequence? || v.Bag?) && (w.Sequence? || w.Bag?)
    requires Canonicalize(v, p, unordered).Some? && Canonicalize(w, q, unordered).Some?
    requires MeaningOf(v, p, unordered) == MeaningOf(w, q, unordered)
    requires MeaningOf(v, p, unordered).Some?
    requires Companions(All(ItemMeanings(v, p, unordered)).value, All(ItemTrees(v, p, unordered)).value,
                        All(ItemMeanings(w, q, unordered)).value, All(ItemTrees(w, q, unordered)).value)
    ensures Canonicalize(v, p, unordered) == Canonicalize(w, q, unordered)
  {
    var js, ks := All(ItemTrees(v, p, unordered)).value, All(ItemTrees(w, q, unordered)).value;
    CollectionUnfolds(v, p, unordered);
    CollectionUnfolds(w, q, unordered);
    CompanionsFollow(All(ItemMeanings(v, p, unordered)).value, js,
                     All(ItemMeanings(w, q, unordered)).value, ks);
    if v.Bag? || p in unordered {
      ItemsAreCanonical(v, p, unordered);
      SortedByTextForgetsOrder(js, ks);
    }
  }

  lemma {:induction false} TreeDecidesMeaning(
    v: Value, w: Value, p: Path, unordered: set<Path>, schema: Schema)
    requires Shaped(v, p, schema) && Shaped(w, p, schema)
    requires Canonicalize(v, p, unordered) == Canonicalize(w, p, unordered)
    requires Canonicalize(v, p, unordered).Some?
    ensures MeaningOf(v, p, unordered) == MeaningOf(w, p, unordered)
    decreases v, w, 1
  {
    SameErrors(v, p, unordered);
    SameErrors(w, p, unordered);
    if v.Wrapped? {
      TreeDecidesMeaning(v.inner, w, p, unordered, schema);
    } else if w.Wrapped? {
      TreeDecidesMeaning(v, w.inner, p, unordered, schema);
    } else if v.Mapping? {
      EntryMeaningsFollow(v, w, p, unordered, schema);
      MappingMeaningsAgree(v, w, p, unordered);
    } else if v.Sequence? || v.Bag? {
      ItemMeaningsFollow(v, w, p, unordered, schema);
      CollectionMeaningsAgree(v, w, p, unordered);
    }
  }

  lemma {:induction false} EntryMeaningsFollow(
    v: Value, w: Value, p: Path, unordered: set<Path>, schema: Schema)
    requires Shaped(v, p, schema) && Shaped(w, p, schema) && v.Mapping? && w.Mapping?
    requires Canonicalize(v, p, unordered).Some? && Canonicalize(w, p, unordered).Some?
    requires MeaningOf(v, p, unordered).Some? && MeaningOf(w, p, unordered).Some?
    ensures Companions(All(MemberTrees(v, p, unordered)).value, All(MemberMeanings(v, p, unordered)).value,
                       All(MemberTrees(w, p, unordered)).value, All(MemberMeanings(w, p, unordered)).value)
    decreases v, w, 0
  {
    var js, ks := All(MemberTrees(v, p, unordered)).value, All(MemberTrees(w, p, unordered)).value;
    var ms, ns := All(MemberMeanings(v, p, unordered)).value, All(MemberMeanings(w, p, unordered)).value;
    forall i, j | 0 <= i < |js| && 0 <= j < |ks| && js[i] == ks[j]
      ensures ms[i] == ns[j]
    {
      EntryAt(v, p, unordered, i);
      EntryAt(w, p, unordered, j);
      TreeDecidesMeaning(v.entries[i].value, w.entries[j].value,
                         p + [KeyText(v.entries[i].key)], unordered, schema);
    }
  }

  lemma {:induction false} ItemMeaningsFollow(
    v: Value, w: Value, p: Path, unordered: set<Path>, schema: Schema)
    requires Shaped(v, p, schema) && Shaped(w, p, schema)
    requires (v.Sequence? && w.Sequence?) || (v.Bag? && w.Bag?)
    requires Canonicalize(v, p, unordered).Some? && Canonicalize(w, p, unordered).Some?
    requires MeaningOf(v, p, unordered).Some? && MeaningOf(w, p, unordered).Some?
    ensures Companions(All(ItemTrees(v, p, unordered)).value, All(ItemMeanings(v, p, unordered)).value,
                       All(ItemTrees(w, p, unordered)).value, All(ItemMeanings(w, p, unordered)).value)
    decreases v, w, 0
  {
    var js, ks := All(ItemTrees(v, p, unordered)).value, All(ItemTrees(w, p, unordered)).value;
    var ms, ns := All(ItemMeanings(v, p, unordered)).value, All(ItemMeanings(w, p, unordered)).value;
    forall i, j | 0 <= i < |js| && 0 <= j < |ks| && js[i] == ks[j]
      ensures ms[i] == ns[j]
    {
      ItemAt(v, p, unordered, i);
      ItemAt(w, p, unordered, j);
      TreeDecidesMeaning(v.items[i], w.items[j], p + [Slot(v)], unordered, schema);
    }
  }

  lemma MappingMeaningsAgree(v: Value, w: Value, p: Path, unordered: set<Path>)
    requires v.Mapping? && w.Mapping?
    requires Canonicalize(v, p, unordered) == Canonicalize(w, p, unordered)
    requires Canonicalize(v, p, unordered).Some?
    requires MeaningOf(v, p, unordered).Some? && MeaningOf(w, p, unordered).Some?
    requires Companions(All(MemberTrees(v, p, unordered)).value, All(MemberMeanings(v, p, unordered)).value,
                        All(MemberTrees(w, p, unordered)).value, All(MemberMeanings(w, p, unordered)).value)
    ensures MeaningOf(v, p, unordered) == MeaningOf(w, p, unordered)
  {
    var js, ks := All(MemberTrees(v, p, unordered)).value, All(MemberTrees(w, p, unordered)).value;
    SortPermutes(js);
    SortPermutes(ks);
    CompanionsFollow(js, All(MemberMeanings(v, p, unordered)).value,
                     ks, All(MemberMeanings(w, p, unordered)).value);
  }

  lemma CollectionMeaningsAgree(v: Value, w: Value, p: Path, unordered: set<Path>)
    requires (v.Sequence? && w.Sequence?) || (v.Bag? && w.Bag?)
    requires Canonicalize(v, p, unordered) == Canonicalize(w, p, unordered)
    requires Canonicalize(v, p, unordered).Some?
    requires MeaningOf(v, p, unordered).Some? && MeaningOf(w, p, unordered).Some?
    requires Companions(All(ItemTrees(v, p, unordered)).value, All(ItemMeanings(v, p, unordered)).value,
                        All(ItemTrees(w, p, unordered)).value, All(ItemMeanings(w, p, unordered)).value)
    ensures MeaningOf(v, p, unordered) == MeaningOf(w, p, unordered)
  {
    var js, ks := All(ItemTrees(v, p, unordered)).value, All(ItemTrees(w, p, unordered)).value;
    CollectionUnfolds(v, p, unordered);
    CollectionUnfolds(w, p, unordered);
    SortedByTextPermutes(js);
    SortedByTextPermutes(ks);
    CompanionsFollow(js, All(ItemMeanings(v, p, unordered)).value,
                     ks, All(ItemMeanings(w, p, unordered)).value);
  }

  // Main results.

  lemma AllForgetsOrder<T>(xs: seq<Option<T>>, ys: seq<Option<T>>)
    requires multiset(xs) == multiset(ys)
    ensures All(xs).None? <==> All(ys).None?
    ensures All(xs).Some? ==> multiset(All(xs).value) == multiset(All(ys).value)
  {
    assert forall x :: x in multiset(xs) <==> x in multiset(ys);
    assert forall i | 0 <= i < |xs| :: xs[i] in multiset(ys);
    assert forall i | 0 <= i < |ys| :: ys[i] in multiset(xs);
    if All(xs).Some? && All(ys).Some? {
      Transport(xs, All(xs).value, ys, All(ys).value);
    }
  }

  lemma ReorderedEntries(v: Value, w: Value, path: Path, unordered: set<Path>)
    requires v.Mapping? && w.Mapping? && multiset(v.entries) == multiset(w.entries)
    ensures MeaningOf(v, path, unordered) == MeaningOf(w, path, unordered)
  {
    var ms, ns := MemberMeanings(v, path, unordered), MemberMeanings(w, path, unordered);
    assert multiset(ms) == multiset(ns) by { Transport(v.entries, ms, w.entries, ns); }
    AllForgetsOrder(ms, ns);
  }

  lemma ReorderedItems(v: Value, w: Value, path: Path, unordered: set<Path>)
    requires (v.Bag? && w.Bag?) || (v.Sequence? && w.Sequence? && path in unordered)
    requires multiset(v.items) == multiset(w.items)
    ensures MeaningOf(v, path, unordered) == MeaningOf(w, path, unordered)
  {
    var ms, ns := ItemMeanings(v, path, unordered), ItemMeanings(w, path, unordered);
    assert multiset(ms) == multiset(ns) by { Transport(v.items, ms, w.items, ns); }
    AllForgetsOrder(ms, ns);
  }

  /**
   * `w` is `v` with the entries of mappings, the items of sets and the items of lists
   * at declared paths in other orders, at every level.
   */
  ghost predicate Shuffled(v: Value, w: Value, path: Path, unordered: set<Path>)
    decreases v
  {
    match v
    case Wrapped(inner) => w.Wrapped? && Shuffled(inner, w.inner, path, unordered)
    case Mapping(es) =>
      w.Mapping? && exists zs: seq<Entry> ::
        && multiset(zs) == multiset(w.entries) && |zs| == |es|
        && forall i | 0 <= i < |es| ::
             && es[i].key == zs[i].key
             && Shuffled(es[i].value, zs[i].value, path + [KeyText(es[i].key)], unordered)
    case Sequence(xs) =>
      w.Sequence? && exists zs: seq<Value> ::
        && (if path in unordered then multiset(zs) == multiset(w.items) else zs == w.items)
        && |zs| == |xs|
        && forall i | 0 <= i < |xs| :: Shuffled(xs[i], zs[i], path + ["[]"], unordered)
    case Bag(xs) =>
      w.Bag? && exists zs: seq<Value> ::
        && multiset(zs) == multiset(w.items) && |zs| == |xs|
        && forall i | 0 <= i < |xs| :: Shuffled(xs[i], zs[i], path + ["{}"], unordered)
    case _ => v == w
  }

  lemma {:induction false} ShufflingKeepsMeaning(v: Value, w: Value, path: Path,
                                                 unordered: set<Path>)
    requires Shuffled(v, w, path, unordered)
    ensures MeaningOf(v, path, unordered) == MeaningOf(w, path, unordered)
    decreases v, 1
  {
    match v
    case Wrapped(inner) => ShufflingKeepsMeaning(inner, w.inner, path, unordered);
    case Mapping(es) =>
      var zs: seq<Entry> :|
        && multiset(zs) == multiset(w.entries) && |zs| == |es|
        && forall i | 0 <= i < |es| ::
             && es[i].key == zs[i].key
             && Shuffled(es[i].value, zs[i].value, path + [KeyText(es[i].key)], unordered);
      ShuffledEntries(v, zs, path, unordered);
      ReorderedEntries(Mapping(zs), w, path, unordered);
    case Sequence(xs) =>
      var zs: seq<Value> :|
        && (if path in unordered then multiset(zs) == multiset(w.items) else zs == w.items)
        && |zs| == |xs|
        && forall i | 0 <= i < |xs| :: Shuffled(xs[i], zs[i], path + ["[]"], unordered);
      ShuffledItems(v, Sequence(zs), path, unordered);
      if path in unordered {
        ReorderedItems(Sequence(zs), w, path, unordered);
      }
    case Bag(xs) =>
      var zs: seq<Value> :|
        && multiset(zs) == multiset(w.items) && |zs| == |xs|
        && forall i | 0 <= i < |xs| :: Shuffled(xs[i], zs[i], path + ["{}"], unordered);
      ShuffledItems(v, Bag(zs), path, unordered);
      ReorderedItems(Bag(zs), w, path, unordered);
    case _ =>
  }

  lemma {:induction false} ShuffledEntries(v: Value, zs: seq<Entry>, path: Path, unordered: set<Path>)
    requires v.Mapping? && |zs| == |v.entries|
    requires forall i | 0 <= i < |zs| ::
               && v.entries[i].key == zs[i].key
               && Shuffled(v.entries[i].value, zs[i].value, path + [KeyText(zs[i].key)], unordered)
    ensures MeaningOf(v, path, unordered) == MeaningOf(Mapping(zs), path, unordered)
    decreases v, 0
  {
    var z := Mapping(zs);
    forall i | 0 <= i < |zs|
      ensures MemberMeanings(v, path, unordered)[i] == MemberMeanings(z, path, unordered)[i]
    {
      ShufflingKeepsMeaning(v.entries[i].value, zs[i].value, path + [KeyText(zs[i].key)], unordered);
    }
    assert MemberMeanings(v, path, unordered) == MemberMeanings(z, path, unordered);
  }

  lemma {:induction false} ShuffledItems(v: Value, z: Value, path: Path, unordered: set<Path>)
    requires (v.Bag? && z.Bag?) || (v.Sequence? && z.Sequence?)
    requires |v.items| == |z.items|
    requires forall i | 0 <= i < |v.items| ::
               Shuffled(v.items[i], z.items[i], path + [Slot(v)], unordered)
    ensures MeaningOf(v, path, unordered) == MeaningOf(z, path, unordered)
    decreases v, 0
  {
    forall i | 0 <= i < |v.items|
      ensures ItemMeanings(v, path, unordered)[i] == ItemMeanings(z, path, unordered)[i]
    {
      ShufflingKeepsMeaning(v.items[i], z.items[i], path + [Slot(v)], unordered);
    }
    assert ItemMeanings(v, path, unordered) == ItemMeanings(z, path, unordered);
  }

  /** A payload shuffled at every level has the same text. */
  lemma ShufflingNeverShows(v: Value, w: Value, unordered: set<Path>)
    requires WellFormed(v) && WellFormed(w) && Shuffled(v, w, [], unordered)
    ensures CanonicalText(v, [], unordered) == CanonicalText(w, [], unordered)
  {
    ShufflingKeepsMeaning(v, w, [], unordered);
    OrderNeverShows(v, w, unordered);
  }

  /** No iteration order of a mapping or a set, and no order at a declared path, shows. */
  lemma OrderNeverShows(v: Value, w: Value, unordered: set<Path>)
    requires WellFormed(v) && WellFormed(w)
    requires MeaningOf(v, [], unordered) == MeaningOf(w, [], unordered)
    ensures CanonicalText(v, [], unordered) == CanonicalText(w, [], unordered)
  {
    SameErrors(v, [], unordered);
    SameErrors(w, [], unordered);
    if MeaningOf(v, [], unordered).Some? {
      MeaningDecidesTree(v, [], w, [], unordered);
    }
  }

  /** And nothing else is lost: two requests of one schema share a text only if they mean the same. */
  lemma TextDecidesMeaning(v: Value, w: Value, unordered: set<Path>, schema: Schema)
    requires WellFormed(v) && WellFormed(w) && Shaped(v, [], schema) && Shaped(w, [], schema)
    ensures CanonicalText(v, [], unordered) == CanonicalText(w, [], unordered)
       <==> MeaningOf(v, [], unordered) == MeaningOf(w, [], unordered)
  {
    SameErrors(v, [], unordered);
    SameErrors(w, [], unordered);
    var a, b := Canonicalize(v, [], unordered), Canonicalize(w, [], unordered);
    if CanonicalText(v, [], unordered) == CanonicalText(w, [], unordered) && a.Some? {
      CanonicalizeIsCanonical(v, [], unordered);
      CanonicalizeIsCanonical(w, [], unordered);
      WriteUnambiguous(a.value, b.value);
      TreeDecidesMeaning(v, w, [], unordered, schema);
    }
    if MeaningOf(v, [], unordered) == MeaningOf(w, [], unordered) {
      OrderNeverShows(v, w, unordered);
    }
  }

  /** Without one schema a set and an ordered list of the same item share a text. */
  lemma SetAndListCollide(x: string)
    ensures CanonicalText(Bag([Str(x)]), [], {}) == CanonicalText(Sequence([Str(x)]), [], {})
    ensures MeaningOf(Bag([Str(x)]), [], {}) != MeaningOf(Sequence([Str(x)]), [], {})
  {
    var v, w := Bag([Str(x)]), Sequence([Str(x)]);
    assert ItemTrees(v, [], {}) == [Some(JString(x))];
    assert ItemTrees(w, [], {}) == [Some(JString(x))];
    var js := All([Some(JString(x))]).value;
    assert js == [JString(x)];
    SortedByTextPermutes(js);
    assert SortedByText(js)[0] in multiset(SortedByText(js));
    assert SortedByText(js) == js;
    SameErrors(v, [], {});
    SameErrors(w, [], {});
    CollectionUnfolds(v, [], {});
    CollectionUnfolds(w, [], {});
  }

  /** Nor does the text tell a decimal, UUID or date from a string that spells it. */
  lemma FormatAndStringCollide(format: Format, x: string)
    ensures CanonicalText(Rendered(format, x), [], {}) == CanonicalText(Str(x), [], {})
    ensures MeaningOf(Rendered(format, x), [], {}) != MeaningOf(Str(x), [], {})
  {
  }
}
