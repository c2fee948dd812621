/** What the serialiser preserves: the reference reader reads every serialised value back, up to
    the two kinds of value the serialiser cannot distinguish from others (undefined prints as null,
    an `Other` value prints as its string). */
module RoundTrip {
  import opened Wrappers
  import opened JsValues
  import opened Serialiser
  import opened JsonReader

  /** The value a reader recovers from the serialisation of `v`. */
  function Normalize(v: Value): Value
    decreases v
  {
    match v
    case Undefined => Null
    case Other(text) => Str(text)
    case Array(items) => Array(NormalizeItems(items))
    case Object(members) => Object(NormalizeMembers(members))
    case _ => v
  }

  function NormalizeItems(items: seq<Value>): seq<Value>
    decreases items
  {
    if items == [] then [] else [Normalize(items[0])] + NormalizeItems(items[1..])
  }

  function NormalizeMembers(members: seq<Member>): seq<Member>
    decreases members
  {
    if members == [] then []
    else [Member(members[0].key, Normalize(members[0].value))] + NormalizeMembers(members[1..])
  }

  /** A value made only of what JSON text can express: no undefined and no `Other` anywhere. */
  predicate Plain(v: Value)
    decreases v
  {
    match v
    case Undefined => false
    case Other(_) => false
    case Array(items) => forall i :: 0 <= i < |items| ==> Plain(items[i])
    case Object(members) => forall i :: 0 <= i < |members| ==> Plain(members[i].value)
    case _ => true
  }

  /** Text after a value that cannot extend a number. */
  predicate Delimited(rest: string) {
    rest == [] || !IsDigit(rest[0])
  }

  lemma {:induction false} DigitRunAll(d: string, rest: string)
    requires forall i :: 0 <= i < |d| ==> IsDigit(d[i])
    requires Delimited(rest)
    ensures DigitRun(d + rest) == |d|
  {
    if d != [] {
      assert (d + rest)[1..] == d[1..] + rest;
      DigitRunAll(d[1..], rest);
    }
  }

  lemma {:induction false} DigitsValueDecimal(n: nat)
    ensures DigitsValue(NatDecimal(n)) == n
    decreases n
  {
    var d := NatDecimal(n);
    if n < 10 {
      assert d[..0] == [];
    } else {
      assert d[..|d| - 1] == NatDecimal(n / 10);
      DigitsValueDecimal(n / 10);
    }
  }

  /** Integers read back exactly. */
  lemma ReadNumberDecimal(n: int, rest: string)
    requires Delimited(rest)
    ensures ReadNumber(Decimal(n) + rest) == Some((Number(n), rest))
  {
    var m: nat := if n < 0 then -n else n;
    var d := NatDecimal(m);
    DigitRunAll(d, rest);
    DigitsValueDecimal(m);
    assert (d + rest)[..|d|] == d;
    assert (d + rest)[|d|..] == rest;
    assert ReadNat(d + rest) == Some((m, rest));
    if n < 0 {
      assert Decimal(n) + rest == "-" + (d + rest);
      assert ("-" + (d + rest))[1..] == d + rest;
    }
  }

  /** `Number.prototype.toString(16)` of a number between 0x10000 and 0x1ffff: a `1` and four
      digits. */
  lemma HexFive(c: int)
    requires 0 <= c < 0x10000
    ensures Hex(c + 0x10000)
         == ['1', HexChar(c / 16 / 16 / 16), HexChar(c / 16 / 16 % 16), HexChar(c / 16 % 16), HexChar(c % 16)]
  {
    var q1 := c / 16;
    var q2 := q1 / 16;
    var q3 := q2 / 16;
    var n := c + 0x10000;
    assert n / 16 == 4096 + q1 && n % 16 == c % 16;
    assert (4096 + q1) / 16 == 256 + q2 && (4096 + q1) % 16 == q1 % 16;
    assert (256 + q2) / 16 == 16 + q3 && (256 + q2) % 16 == q2 % 16;
    assert (16 + q3) / 16 == 1 && (16 + q3) % 16 == q3;
    assert Hex(16 + q3) == Hex(1) + [HexChar(q3)];
    assert Hex(256 + q2) == Hex(16 + q3) + [HexChar(q2 % 16)];
    assert Hex(4096 + q1) == Hex(256 + q2) + [HexChar(q1 % 16)];
    assert Hex(n) == Hex(4096 + q1) + [HexChar(c % 16)];
  }

  lemma HexCharValue(d: int)
    requires 0 <= d < 16
    ensures IsHexDigit(HexChar(d)) && HexDigitValue(HexChar(d)) == d
  {
  }

  /** The `\u` escape of a character below U+10000 that is not a surrogate reads back as that
      character. */
  lemma ReadUnicodeEscape(c: char, rest: string)
    requires c as int < 0xD800
    ensures ReadEscape("u" + Hex(c as int + 0x10000)[1..] + rest) == Some((c, rest))
  {
    var code := c as int;
    var q1 := code / 16;
    var q2 := q1 / 16;
    var q3 := q2 / 16;
    HexFive(code);
    var digits := [HexChar(q3), HexChar(q2 % 16), HexChar(q1 % 16), HexChar(code % 16)];
    assert Hex(code + 0x10000)[1..] == digits;
    var s := "u" + digits + rest;
    HexCharValue(q3);
    HexCharValue(q2 % 16);
    HexCharValue(q1 % 16);
    HexCharValue(code % 16);
    assert s[1] == HexChar(q3) && s[2] == HexChar(q2 % 16);
    assert s[3] == HexChar(q1 % 16) && s[4] == HexChar(code % 16);
    assert ((q3 * 16 + q2 % 16) * 16 + q1 % 16) * 16 + code % 16 == code;
    assert s[5..] == rest;
  }

  /** Each escape `escFunc` produces is a backslash followed by text the reader decodes to the
      escaped character. */
  lemma ReadEscFunc(c: char, rest: string)
    requires Escaped(c)
    ensures |EscFunc(c)| >= 2 && EscFunc(c)[0] == '\\'
    ensures ReadEscape(EscFunc(c)[1..] + rest) == Some((c, rest))
  {
    if EscMap(c).None? {
      assert c as int < 0x20 || c == '\U{2028}' || c == '\U{2029}';
      ReadUnicodeEscape(c, rest);
      assert EscFunc(c)[1..] + rest == "u" + Hex(c as int + 0x10000)[1..] + rest;
    } else {
      var e := EscMap(c).value;
      assert |e| == 2 && e[0] == '\\';
      assert (e[1..] + rest)[1..] == rest;
    }
  }

  /** The text `escRE` and `escFunc` make of one character. */
  function Chunk(c: char): string {
    if Escaped(c) then EscFunc(c) else [c]
  }

  /** The reader decodes one chunk and goes on with what follows it. */
  lemma ReadStringChunk(c: char, tail: string, s: string, rest: string)
    requires ReadString(tail) == Some((s, rest))
    ensures ReadString(Chunk(c) + tail) == Some(([c] + s, rest))
  {
    if Escaped(c) {
      var e := EscFunc(c);
      ReadEscFunc(c, tail);
      assert (e + tail)[0] == '\\';
      assert (e + tail)[1..] == e[1..] + tail;
    } else {
      assert ([c] + tail)[1..] == tail;
    }
  }

  /** The reader recovers an escaped string exactly, up to its closing quote. */
  lemma {:induction false} ReadStringEscape(s: string, rest: string)
    ensures ReadString(Escape(s) + "\"" + rest) == Some((s, rest))
  {
    if s == [] {
      assert Escape(s) + "\"" + rest == "\"" + rest;
    } else {
      var tail := Escape(s[1..]) + "\"" + rest;
      ReadStringEscape(s[1..], rest);
      ReadStringChunk(s[0], tail, s[1..], rest);
      assert Escape(s) == Chunk(s[0]) + Escape(s[1..]);
      assert Escape(s) + "\"" + rest == Chunk(s[0]) + tail;
      assert [s[0]] + s[1..] == s;
    }
  }

  /** A serialisation starts with a character that is neither white space nor a closing bracket. */
  lemma StringifyStart(v: Value)
    ensures |Stringify(v)| > 0
    ensures !IsSpace(Stringify(v)[0]) && Stringify(v)[0] != ']' && Stringify(v)[0] != '}'
  {
  }

  lemma JoinStart(parts: seq<string>, sep: string)
    requires parts != [] && |parts[0]| > 0
    ensures |Join(parts, sep)| > 0 && Join(parts, sep)[0] == parts[0][0]
  {
  }

  lemma ReadValueSpace(s: string)
    ensures ReadValue(" " + s) == ReadValue(s)
  {
    assert (" " + s)[1..] == s;
  }

  lemma ReadItemsSpace(s: string)
    ensures ReadItems(" " + s) == ReadItems(s)
  {
    ReadValueSpace(s);
  }

  lemma ReadMembersSpace(s: string)
    ensures ReadMembers(" " + s) == ReadMembers(s)
  {
    assert (" " + s)[1..] == s;
  }

  lemma ReadValueWord(word: string, v: Value, rest: string)
    requires (word == "null" && v == Null) || (word == "true" && v == Bool(true)) || (word == "false" && v == Bool(false))
    ensures ReadValue(word + rest) == Some((v, rest))
  {
    assert (word + rest)[..|word|] == word;
    assert (word + rest)[|word|..] == rest;
  }

  lemma ReadValueNumber(n: int, rest: string)
    requires Delimited(rest)
    ensures ReadValue(Decimal(n) + rest) == Some((Number(n), rest))
  {
    ReadNumberDecimal(n, rest);
    assert (Decimal(n) + rest)[0] == Decimal(n)[0];
  }

  lemma ReadValueQuote(s: string, rest: string)
    ensures ReadValue(Quote(s) + rest) == Some((Str(s), rest))
  {
    ReadStringEscape(s, rest);
    assert (Quote(s) + rest)[1..] == Escape(s) + "\"" + rest;
  }

  lemma ReadValueBracket(x: string)
    ensures ReadValue("[" + x) == ReadArray(x)
  {
    assert ("[" + x)[1..] == x;
  }

  lemma ReadValueBrace(x: string)
    ensures ReadValue("{" + x) == ReadObject(x)
  {
    assert ("{" + x)[1..] == x;
  }

  lemma ReadArrayEmpty(rest: string)
    ensures ReadArray("]" + rest) == Some((Array([]), rest))
  {
    assert ("]" + rest)[1..] == rest;
  }

  lemma ReadArrayItems(x: string)
    requires x != [] && !IsSpace(x[0]) && x[0] != ']'
    ensures ReadArray(x) == match ReadItems(x) case None => None case Some((items, rest)) => Some((Array(items), rest))
  {
  }

  lemma ReadObjectEmpty(rest: string)
    ensures ReadObject("}" + rest) == Some((Object([]), rest))
  {
    assert ("}" + rest)[1..] == rest;
  }

  lemma ReadObjectMembers(x: string)
    requires x != [] && !IsSpace(x[0]) && x[0] != '}'
    ensures ReadObject(x) == match ReadMembers(x) case None => None case Some((ms, rest)) => Some((Object(ms), rest))
  {
  }

  lemma ReadItemsLast(s: string, v: Value, rest: string)
    requires ReadValue(s) == Some((v, "]" + rest))
    ensures ReadItems(s) == Some(([v], rest))
  {
    assert ("]" + rest)[1..] == rest;
  }

  lemma ReadItemsNext(s: string, v: Value, x: string)
    requires ReadValue(s) == Some((v, ", " + x))
    ensures ReadItems(s) == match ReadItems(x) case None => None case Some((vs, rest)) => Some(([v] + vs, rest))
  {
    assert (", " + x)[1..] == " " + x;
    ReadItemsSpace(x);
  }

  /** A quoted key followed by `c`: the opening quote, then the escaped key, its closing quote and `c`. */
  lemma QuoteThen(key: string, c: string)
    ensures (Quote(key) + c)[0] == '"'
    ensures (Quote(key) + c)[1..] == Escape(key) + "\"" + c
  {
  }

  lemma ColonThen(x: string)
    ensures (": " + x)[0] == ':' && (": " + x)[1..] == " " + x
  {
  }

  /** The first member of an object: its quoted key, the colon, and its value. */
  lemma ReadMemberHead(key: string, text: string, value: Value, after: string)
    requires ReadValue(text + after) == Some((value, after))
    requires after != [] && !IsSpace(after[0])
    ensures var c := ": " + (text + after);
            var s := Quote(key) + c;
            && SkipSpace(s) == s && s[0] == '"'
            && ReadString(s[1..]) == Some((key, c))
            && SkipSpace(c) == c && c[0] == ':'
            && ReadValue(c[1..]) == Some((value, after))
            && SkipSpace(after) == after
  {
    var c := ": " + (text + after);
    QuoteThen(key, c);
    ReadStringEscape(key, c);
    ColonThen(text + after);
    ReadValueSpace(text + after);
  }

  /** One member and what the reader does after it: close the object or read the next member. */
  lemma ReadMembersStep(key: string, text: string, value: Value, after: string)
    requires ReadValue(text + after) == Some((value, after))
    requires after != [] && !IsSpace(after[0])
    ensures ReadMembers(Quote(key) + (": " + (text + after)))
         == if after[0] == '}' then Some(([Member(key, value)], after[1..]))
            else if after[0] == ',' then
              match ReadMembers(after[1..]) case None => None case Some((ms, rest)) => Some(([Member(key, value)] + ms, rest))
            else None
  {
    ReadMemberHead(key, text, value, after);
  }

  lemma ReadMembersLast(key: string, text: string, value: Value, rest: string)
    requires ReadValue(text + ("}" + rest)) == Some((value, "}" + rest))
    ensures ReadMembers(Quote(key) + (": " + (text + ("}" + rest)))) == Some(([Member(key, value)], rest))
  {
    ReadMembersStep(key, text, value, "}" + rest);
    assert ("}" + rest)[1..] == rest;
  }

  lemma ReadMembersNext(key: string, text: string, value: Value, tail: string)
    requires ReadValue(text + (", " + tail)) == Some((value, ", " + tail))
    ensures ReadMembers(Quote(key) + (": " + (text + (", " + tail))))
         == match ReadMembers(tail) case None => None case Some((ms, rest)) => Some(([Member(key, value)] + ms, rest))
  {
    ReadMembersStep(key, text, value, ", " + tail);
    assert (", " + tail)[1..] == " " + tail;
    ReadMembersSpace(tail);
  }

  /** Reading back a serialised value gives the value, normalised, and leaves what followed it. */
  lemma {:induction false} ReadValueStringify(v: Value, rest: string)
    requires Delimited(rest)
    ensures ReadValue(Stringify(v) + rest) == Some((Normalize(v), rest))
    decreases v, 0
  {
    match v
    case Undefined => ReadValueWord("null", Null, rest);
    case Null => ReadValueWord("null", Null, rest);
    case Bool(b) =>
      if b { ReadValueWord("true", Bool(true), rest); } else { ReadValueWord("false", Bool(false), rest); }
    case Number(n) => ReadValueNumber(n, rest);
    case Str(s) => ReadValueQuote(s, rest);
    case Other(s) => ReadValueQuote(s, rest);
    case Array(items) => ReadArrayStringify(items, rest);
    case Object(members) => ReadObjectStringify(members, rest);
  }

  lemma {:induction false} ReadArrayStringify(items: seq<Value>, rest: string)
    ensures ReadValue(Stringify(Array(items)) + rest) == Some((Normalize(Array(items)), rest))
    decreases items, 1
  {
    var inner := Join(StringifyItems(items), ", ") + "]" + rest;
    assert Stringify(Array(items)) + rest == "[" + inner;
    ReadValueBracket(inner);
    if items == [] {
      assert inner == "]" + rest;
      ReadArrayEmpty(rest);
    } else {
      StringifyStart(items[0]);
      JoinStart(StringifyItems(items), ", ");
      ReadArrayItems(inner);
      ReadItemsStringify(items, rest);
    }
  }

  lemma {:induction false} ReadObjectStringify(members: seq<Member>, rest: string)
    ensures ReadValue(Stringify(Object(members)) + rest) == Some((Normalize(Object(members)), rest))
    decreases members, 2
  {
    var inner := Join(MemberTexts(members), ", ") + "}" + rest;
    assert Stringify(Object(members)) + rest == "{" + inner;
    ReadValueBrace(inner);
    if members == [] {
      assert inner == "}" + rest;
      ReadObjectEmpty(rest);
    } else {
      JoinStart(MemberTexts(members), ", ");
      ReadObjectMembers(inner);
      ReadMembersStringify(members, rest);
    }
  }

  lemma {:induction false} ReadItemsStringify(items: seq<Value>, rest: string)
    requires items != []
    ensures ReadItems(Join(StringifyItems(items), ", ") + "]" + rest) == Some((NormalizeItems(items), rest))
    decreases items, 0
  {
    var head := Stringify(items[0]);
    var parts := StringifyItems(items);
    assert parts[0] == head && parts[1..] == StringifyItems(items[1..]);
    assert NormalizeItems(items) == [Normalize(items[0])] + NormalizeItems(items[1..]);
    if |items| == 1 {
      assert items[1..] == [] && |parts| == 1;
      assert Join(parts, ", ") + "]" + rest == head + ("]" + rest);
      ReadValueStringify(items[0], "]" + rest);
      ReadItemsLast(head + ("]" + rest), Normalize(items[0]), rest);
      assert NormalizeItems(items) == [Normalize(items[0])];
    } else {
      var after := Join(StringifyItems(items[1..]), ", ") + "]" + rest;
      assert Join(parts, ", ") + "]" + rest == head + (", " + after);
      ReadValueStringify(items[0], ", " + after);
      ReadItemsNext(head + (", " + after), Normalize(items[0]), after);
      ReadItemsStringify(items[1..], rest);
    }
  }

  lemma RegroupLast(a: string, b: string, c: string, d: string, e: string)
    ensures a + b + c + d + e == a + (b + (c + (d + e)))
  {
  }

  lemma RegroupNext(a: string, b: string, c: string, d: string, j: string, e: string, f: string)
    ensures a + b + c + d + j + e + f == a + (b + (c + (d + (j + e + f))))
  {
  }

  /** The serialisation of an object's only member, with the closing brace and what follows. */
  lemma LastMemberText(members: seq<Member>, rest: string)
    requires |members| == 1
    ensures Join(MemberTexts(members), ", ") + "}" + rest
         == Quote(members[0].key) + (": " + (Stringify(members[0].value) + ("}" + rest)))
  {
    assert MemberTexts(members) == [Quote(members[0].key) + ": " + Stringify(members[0].value)];
    RegroupLast(Quote(members[0].key), ": ", Stringify(members[0].value), "}", rest);
  }

  /** The serialisation of an object's first member, the separator and the rest of the object. */
  lemma NextMemberText(members: seq<Member>, rest: string)
    requires |members| > 1
    ensures Join(MemberTexts(members), ", ") + "}" + rest
         == Quote(members[0].key) + (": " + (Stringify(members[0].value)
              + (", " + (Join(MemberTexts(members[1..]), ", ") + "}" + rest))))
  {
    var parts := MemberTexts(members);
    assert parts[0] == Quote(members[0].key) + ": " + Stringify(members[0].value);
    assert parts[1..] == MemberTexts(members[1..]);
    RegroupNext(Quote(members[0].key), ": ", Stringify(members[0].value), ", ", Join(parts[1..], ", "), "}", rest);
  }

  lemma {:induction false} ReadMembersStringify(members: seq<Member>, rest: string)
    requires members != []
    ensures ReadMembers(Join(MemberTexts(members), ", ") + "}" + rest) == Some((NormalizeMembers(members), rest))
    decreases members, 1
  {
    if |members| == 1 {
      ReadLastMemberStringify(members, rest);
    } else {
      ReadNextMemberStringify(members, rest);
    }
  }

  lemma {:induction false} ReadLastMemberStringify(members: seq<Member>, rest: string)
    requires |members| == 1
    ensures ReadMembers(Join(MemberTexts(members), ", ") + "}" + rest) == Some((NormalizeMembers(members), rest))
    decreases members, 0
  {
    var key := members[0].key;
    var value := members[0].value;
    LastMemberText(members, rest);
    assert NormalizeMembers(members) == [Member(key, Normalize(value))];
    ReadValueStringify(value, "}" + rest);
    ReadMembersLast(key, Stringify(value), Normalize(value), rest);
  }

  lemma {:induction false} ReadNextMemberStringify(members: seq<Member>, rest: string)
    requires |members| > 1
    ensures ReadMembers(Join(MemberTexts(members), ", ") + "}" + rest) == Some((NormalizeMembers(members), rest))
    decreases members, 0
  {
    var key := members[0].key;
    var value := members[0].value;
    var tail := Join(MemberTexts(members[1..]), ", ") + "}" + rest;
    NextMemberText(members, rest);
    assert NormalizeMembers(members) == [Member(key, Normalize(value))] + NormalizeMembers(members[1..]);
    ReadValueStringify(value, ", " + tail);
    ReadMembersNext(key, Stringify(value), Normalize(value), tail);
    ReadMembersStringify(members[1..], rest);
  }

  /** The reader recovers every serialised value, normalised. */
  lemma ReadStringify(v: Value)
    ensures Read(Stringify(v)) == Some(Normalize(v))
  {
    ReadValueStringify(v, []);
    assert Stringify(v) + [] == Stringify(v);
  }

  /** Normalising changes nothing in a value JSON text can express. */
  lemma {:induction false} NormalizePlain(v: Value)
    requires Plain(v)
    ensures Normalize(v) == v
    decreases v
  {
    match v
    case Array(items) => NormalizeItemsPlain(items);
    case Object(members) => NormalizeMembersPlain(members);
    case _ =>
  }

  lemma {:induction false} NormalizeItemsPlain(items: seq<Value>)
    requires forall i :: 0 <= i < |items| ==> Plain(items[i])
    ensures NormalizeItems(items) == items
    decreases items
  {
    if items != [] {
      NormalizePlain(items[0]);
      NormalizeItemsPlain(items[1..]);
    }
  }

  lemma {:induction false} NormalizeMembersPlain(members: seq<Member>)
    requires forall i :: 0 <= i < |members| ==> Plain(members[i].value)
    ensures NormalizeMembers(members) == members
    decreases members
  {
    if members != [] {
      NormalizePlain(members[0].value);
      NormalizeMembersPlain(members[1..]);
    }
  }

  /** For values JSON can express the serialiser is exactly invertible. */
  lemma ReadStringifyPlain(v: Value)
    requires Plain(v)
    ensures Read(Stringify(v)) == Some(v)
  {
    ReadStringify(v);
    NormalizePlain(v);
  }
}
