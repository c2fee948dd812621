/** The serialiser the server installs as `JSON.stringify`: null, booleans, integers, arrays, plain
    objects and strings, with the separators `", "` and `": "` and the string escaping of `escMap`,
    `escFunc` and `escRE`. */
module Serialiser {
  import opened Wrappers
  import opened JsValues

  /** The characters `escRE` matches: quote, backslash, U+0000 to U+001F, U+2028 and U+2029. */
  predicate Escaped(c: char) {
    c == '"' || c == '\\' || c as int < 0x20 || c == '\U{2028}' || c == '\U{2029}'
  }

  /** The characters a serialised text never holds raw: the controls and the two line separators. */
  predicate Control(c: char) {
    c as int < 0x20 || c == '\U{2028}' || c == '\U{2029}'
  }

  predicate Clean(t: string) {
    forall i :: 0 <= i < |t| ==> !Control(t[i])
  }

  /** The `escMap` table. */
  function EscMap(c: char): Option<string> {
    if c == '"' then Some("\\\"")
    else if c == '\\' then Some("\\\\")
    else if c == '\U{0008}' then Some("\\b")
    else if c == '\U{000C}' then Some("\\f")
    else if c == '\n' then Some("\\n")
    else if c == '\r' then Some("\\r")
    else if c == '\t' then Some("\\t")
    else None
  }

  function HexChar(d: int): char
    requires 0 <= d < 16
  {
    if d < 10 then (48 + d) as char else (87 + d) as char
  }

  /** `Number.prototype.toString(16)` for a natural number: lowercase digits, most significant first. */
  function Hex(n: nat): (s: string)
    ensures |s| >= 1
    decreases n
  {
    if n < 16 then [HexChar(n)] else Hex(n / 16) + [HexChar(n % 16)]
  }

  /** `escFunc`: the `escMap` entry, or `\u` followed by `(code + 0x10000).toString(16).substr(1)`. */
  function EscFunc(c: char): string {
    match EscMap(c)
    case Some(e) => e
    case None => "\\u" + Hex(c as int + 0x10000)[1..]
  }

  /** `s.replace(escRE, escFunc)`. */
  function Escape(s: string): string {
    if s == [] then []
    else (if Escaped(s[0]) then EscFunc(s[0]) else [s[0]]) + Escape(s[1..])
  }

  /** The serialisation of a string: quotes around its escaped text. */
  function Quote(s: string): string {
    "\"" + Escape(s) + "\""
  }

  /** `Array.prototype.join(sep)` over strings. */
  function Join(parts: seq<string>, sep: string): string {
    if parts == [] then ""
    else if |parts| == 1 then parts[0]
    else parts[0] + sep + Join(parts[1..], sep)
  }

  /** `stringify(value)`. Undefined serialises like null; `Other` values go through their `toString`
      text and the string escaping. */
  function Stringify(v: Value): string
    decreases v
  {
    match v
    case Undefined => "null"
    case Null => "null"
    case Number(n) => Decimal(n)
    case Bool(b) => if b then "true" else "false"
    case Array(items) => "[" + Join(StringifyItems(items), ", ") + "]"
    case Object(members) => "{" + Join(MemberTexts(members), ", ") + "}"
    case Str(s) => Quote(s)
    case Other(text) => Quote(text)
  }

  /** The serialisation of each array element, in order. */
  function StringifyItems(items: seq<Value>): seq<string>
    decreases items
  {
    if items == [] then [] else [Stringify(items[0])] + StringifyItems(items[1..])
  }

  /** The `stringify(k) + ": " + stringify(value[k])` item of each own property, in order. */
  function MemberTexts(members: seq<Member>): seq<string>
    decreases members
  {
    if members == [] then []
    else [Quote(members[0].key) + ": " + Stringify(members[0].value)] + MemberTexts(members[1..])
  }

  lemma {:induction false} StringifyItemsSnoc(items: seq<Value>, v: Value)
    ensures StringifyItems(items + [v]) == StringifyItems(items) + [Stringify(v)]
  {
    if items != [] {
      assert (items + [v])[1..] == items[1..] + [v];
      StringifyItemsSnoc(items[1..], v);
    }
  }

  lemma {:induction false} MemberTextsSnoc(members: seq<Member>, m: Member)
    ensures MemberTexts(members + [m]) == MemberTexts(members) + [Quote(m.key) + ": " + Stringify(m.value)]
  {
    if members != [] {
      assert (members + [m])[1..] == members[1..] + [m];
      MemberTextsSnoc(members[1..], m);
    }
  }

  /** Joining one more part adds the separator and that part. */
  lemma {:induction false} JoinSnoc(parts: seq<string>, p: string, sep: string)
    ensures Join(parts + [p], sep) == if parts == [] then p else Join(parts, sep) + sep + p
  {
    if |parts| > 1 {
      assert (parts + [p])[1..] == parts[1..] + [p];
      JoinSnoc(parts[1..], p, sep);
    }
  }

  /** The serialiser as the source writes it: the array branch appends to `res` in a `for` loop and
      the object branch pushes one item per own property into `tmp`, which is then joined. */
  method StringifyValue(v: Value) returns (s: string)
    ensures s == Stringify(v)
    decreases v
  {
    match v {
      case Undefined =>
        s := "null";
      case Null =>
        s := "null";
      case Number(n) =>
        s := Decimal(n);
      case Bool(b) =>
        s := if b then "true" else "false";
      case Array(items) =>
        s := StringifyArray(items);
      case Object(members) =>
        s := StringifyObject(members);
      case Str(text) =>
        s := Quote(text);
      case Other(text) =>
        s := Quote(text);
    }
  }

  /** The array branch of `stringify`. */
  method StringifyArray(items: seq<Value>) returns (s: string)
    ensures s == Stringify(Array(items))
    decreases items
  {
    var res := "[";
    for i := 0 to |items|
      invariant res == "[" + Join(StringifyItems(items[..i]), ", ")
    {
      var element := StringifyValue(items[i]);
      StringifyItemsSnoc(items[..i], items[i]);
      assert items[..i + 1] == items[..i] + [items[i]];
      JoinSnoc(StringifyItems(items[..i]), element, ", ");
      res := res + (if i > 0 then ", " else "") + element;
    }
    assert items[..|items|] == items;
    s := res + "]";
  }

  /** The plain-object branch of `stringify`. */
  method StringifyObject(members: seq<Member>) returns (s: string)
    ensures s == Stringify(Object(members))
    decreases members
  {
    var tmp: seq<string> := [];
    for i := 0 to |members|
      invariant tmp == MemberTexts(members[..i])
    {
      var key := Quote(members[i].key);
      var value := StringifyValue(members[i].value);
      MemberTextsSnoc(members[..i], members[i]);
      assert members[..i + 1] == members[..i] + [members[i]];
      tmp := tmp + [key + ": " + value];
    }
    assert members[..|members|] == members;
    s := "{" + Join(tmp, ", ") + "}";
  }

  /** An escaped character is never raw control text. */
  lemma EscFuncClean(c: char)
    requires Escaped(c)
    ensures Clean(EscFunc(c))
  {
    if EscMap(c).None? {
      HexClean(c as int + 0x10000);
    }
  }

  lemma {:induction false} HexClean(n: nat)
    ensures Clean(Hex(n))
    decreases n
  {
    if n >= 16 {
      HexClean(n / 16);
    }
  }

  /** Escaping leaves no control character and no line separator raw. */
  lemma {:induction false} EscapeClean(s: string)
    ensures Clean(Escape(s))
  {
    if s != [] {
      if Escaped(s[0]) {
        EscFuncClean(s[0]);
      }
      EscapeClean(s[1..]);
    }
  }

  lemma {:induction false} JoinClean(parts: seq<string>, sep: string)
    requires Clean(sep)
    requires forall i :: 0 <= i < |parts| ==> Clean(parts[i])
    ensures Clean(Join(parts, sep))
  {
    if |parts| > 1 {
      JoinClean(parts[1..], sep);
    }
  }

  /** A serialised value contains no raw control character, so it always fits on one output line. */
  lemma {:induction false} StringifyClean(v: Value)
    ensures Clean(Stringify(v))
    decreases v
  {
    match v
    case Array(items) =>
      StringifyItemsClean(items);
      JoinClean(StringifyItems(items), ", ");
    case Object(members) =>
      MemberTextsClean(members);
      JoinClean(MemberTexts(members), ", ");
    case Str(s) => EscapeClean(s);
    case Other(text) => EscapeClean(text);
    case _ =>
  }

  lemma {:induction false} StringifyItemsClean(items: seq<Value>)
    ensures |StringifyItems(items)| == |items|
    ensures forall i :: 0 <= i < |items| ==> Clean(StringifyItems(items)[i])
    decreases items
  {
    if items != [] {
      StringifyClean(items[0]);
      StringifyItemsClean(items[1..]);
    }
  }

  lemma {:induction false} MemberTextsClean(members: seq<Member>)
    ensures |MemberTexts(members)| == |members|
    ensures forall i :: 0 <= i < |members| ==> Clean(MemberTexts(members)[i])
    decreases members
  {
    if members != [] {
      EscapeClean(members[0].key);
      StringifyClean(members[0].value);
      MemberTextsClean(members[1..]);
    }
  }
}
