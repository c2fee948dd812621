/** Script values as the server sees them: what a decoded request line evaluates to, what a handler
    returns, and the response objects it builds before serialising them. */
module JsValues {
  import opened Wrappers

  /** A script value. Numbers are restricted to integers. `Other` stands for any value the serialiser
      does not recognise as null, boolean, number, array or plain object (a COM object, a date, a
      function): the serialiser prints those through their `toString` text, which `text` holds. */
  datatype Value =
    | Undefined
    | Null
    | Bool(b: bool)
    | Number(n: int)
    | Str(s: string)
    | Array(items: seq<Value>)
    | Object(members: seq<Member>)
    | Other(text: string)

  /** One own property of a plain object, in the object's enumeration order. */
  datatype Member = Member(key: string, value: Value)

  /** A thrown value: an `Error` instance with its `message`, or anything else thrown. */
  datatype Exception = Error(message: string) | Raised(thrown: Value)

  /** The decimal digit for 0..9. */
  function DigitChar(d: int): char
    requires 0 <= d < 10
  {
    (48 + d) as char
  }

  predicate IsDigit(c: char) {
    '0' <= c <= '9'
  }

  /** Decimal digits of a natural number, most significant first: never empty, and starting with
      `0` only for zero itself. */
  function NatDecimal(n: nat): (s: string)
    ensures |s| > 0 && forall i :: 0 <= i < |s| ==> IsDigit(s[i])
    ensures s[0] == '0' ==> n == 0
    decreases n
  {
    if n < 10 then [DigitChar(n)] else NatDecimal(n / 10) + [DigitChar(n % 10)]
  }

  /** `Number.prototype.toString()` for an integer. */
  function Decimal(n: int): string {
    if n < 0 then "-" + NatDecimal(-n) else NatDecimal(n)
  }

  /** The value of the first own property named `key`, or Undefined when there is none. */
  function Lookup(members: seq<Member>, key: string): Value
  {
    if members == [] then Undefined
    else if members[0].key == key then members[0].value
    else Lookup(members[1..], key)
  }

  predicate HasKey(members: seq<Member>, key: string) {
    exists i :: 0 <= i < |members| && members[i].key == key
  }

  /** A property read finds the first own property of that name, and Undefined when there is none. */
  lemma {:induction false} LookupFirst(members: seq<Member>, key: string)
    ensures HasKey(members, key) ==>
      exists i :: 0 <= i < |members| && members[i].key == key && Lookup(members, key) == members[i].value
        && forall j :: 0 <= j < i ==> members[j].key != key
    ensures !HasKey(members, key) ==> Lookup(members, key) == Undefined
  {
    if members != [] && members[0].key != key {
      LookupFirst(members[1..], key);
      if HasKey(members[1..], key) {
        var i :| 0 <= i < |members[1..]| && members[1..][i].key == key && Lookup(members[1..], key) == members[1..][i].value
          && forall j :: 0 <= j < i ==> members[1..][j].key != key;
        assert members[i + 1].key == key;
        assert forall j :: 0 <= j < i + 1 ==> members[j].key != key by {
          forall j | 0 <= j < i + 1 ensures members[j].key != key {
            if j > 0 { assert members[j] == members[1..][j - 1]; }
          }
        }
      }
      assert HasKey(members, key) ==> HasKey(members[1..], key) by {
        if HasKey(members, key) {
          var i :| 0 <= i < |members| && members[i].key == key;
          assert members[1..][i - 1] == members[i];
        }
      }
    } else if members != [] {
      assert members[0].key == key;
    }
  }

  /** `v[key]` for a key that is neither an array index nor `length`: None where the engine throws a
      TypeError (v is undefined or null), the own property of a plain object, and Undefined for every
      other kind of value. */
  function Get(v: Value, key: string): (r: Option<Value>)
    ensures r.None? <==> v.Undefined? || v.Null?
  {
    match v
    case Undefined => None
    case Null => None
    case Object(members) => Some(Lookup(members, key))
    case _ => Some(Undefined)
  }

  /** The assignment `obj[key] = value` on a plain object: an existing property keeps its place and
      takes the new value; a new property is added last. */
  function SetProperty(members: seq<Member>, key: string, value: Value): (r: seq<Member>)
    ensures Lookup(r, key) == value
    ensures forall k :: k != key ==> Lookup(r, k) == Lookup(members, k)
    ensures !HasKey(members, key) ==> r == members + [Member(key, value)]
    ensures HasKey(members, key) ==> |r| == |members|
  {
    if members == [] then [Member(key, value)]
    else if members[0].key == key then [Member(key, value)] + members[1..]
    else
      var rest := SetProperty(members[1..], key, value);
      assert !HasKey(members, key) ==> !HasKey(members[1..], key) by {
        if HasKey(members[1..], key) {
          var i :| 0 <= i < |members[1..]| && members[1..][i].key == key;
          assert members[i + 1].key == key;
        }
      }
      assert HasKey(members, key) ==> HasKey(members[1..], key) by {
        if HasKey(members, key) {
          var i :| 0 <= i < |members| && members[i].key == key;
          assert i > 0 && members[1..][i - 1].key == key;
        }
      }
      [members[0]] + rest
  }

  /** The methods every object literal inherits from `Object.prototype` in the script engine: a
      property read of one of these names on an object without such an own property finds the
      method. */
  predicate Inherited(name: string) {
    name == "constructor" || name == "hasOwnProperty" || name == "isPrototypeOf"
      || name == "propertyIsEnumerable" || name == "toLocaleString" || name == "toString"
      || name == "valueOf"
  }

  /** The conversion of a value to a property name (`String(v)`), used when a handle argument indexes
      the pool. */
  function ToPropertyKey(v: Value): string
  {
    match v
    case Undefined => "undefined"
    case Null => "null"
    case Bool(b) => if b then "true" else "false"
    case Number(n) => Decimal(n)
    case Str(s) => s
    case Array(items) => ElementKeys(items)
    case Object(_) => "[object Object]"
    case Other(text) => text
  }

  /** `Array.prototype.join(",")`, where undefined and null elements contribute nothing. */
  function ElementKeys(items: seq<Value>): string
  {
    if items == [] then ""
    else
      var first := if items[0].Undefined? || items[0].Null? then "" else ToPropertyKey(items[0]);
      if |items| == 1 then first else first + "," + ElementKeys(items[1..])
  }
}
