/**
 * JSON-like JavaScript values and the JavaScript operations the analysis code
 * applies to them: truthiness, `typeof`, property reads (which throw on null
 * and undefined), `Object.keys`, conversion to string and to number, property
 * assignment on a plain object, and JSON.stringify.
 */
module Json {
  import opened JsRuntime

  /** A JavaScript value as it can occur in a request body or in a derived row. */
  datatype Value =
    | Null
    | Undefined
    | Num(n: real)
    | NaN
    | Str(s: string)
    | Bool(b: bool)
    | Arr(items: seq<Value>)
    | Obj(members: seq<Member>)

  /** One own property of a plain object, in insertion order. */
  datatype Member = Member(key: string, val: Value)

  /** JavaScript truthiness: false, 0, NaN, "", null and undefined are falsy, everything else truthy. */
  predicate Truthy(v: Value)
  {
    match v
    case Null => false
    case Undefined => false
    case NaN => false
    case Num(n) => n != 0.0
    case Str(s) => s != ""
    case Bool(b) => b
    case Arr(_) => true
    case Obj(_) => true
  }

  /** The value of `a || b`. */
  function Or(a: Value, b: Value): Value
  {
    if Truthy(a) then a else b
  }

  /** The value of `typeof v`. */
  function TypeOf(v: Value): string
  {
    match v
    case Num(_) => "number"
    case NaN => "number"
    case Str(_) => "string"
    case Bool(_) => "boolean"
    case Undefined => "undefined"
    case _ => "object"
  }

  /** The values whose typeof is "object": null, arrays and plain objects. */
  predicate ObjectTyped(v: Value)
  {
    v.Null? || v.Arr? || v.Obj?
  }

  lemma TypeOfObject(v: Value)
    ensures TypeOf(v) == "object" <==> ObjectTyped(v)
  {
    assert "object"[0] == 'o';
  }

  /** `typeof v === 'number' && !isNaN(v)`, the numeric filter used throughout the tools. */
  predicate IsNumber(v: Value)
  {
    v.Num?
  }

  // ---------------------------------------------------------------------------
  // Plain objects as member lists

  /** The property `key` of an object's members: the member's value, or undefined when absent. */
  function Lookup(ms: seq<Member>, key: string): (r: Value)
  {
    if ms == [] then Undefined
    else if ms[0].key == key then ms[0].val
    else Lookup(ms[1..], key)
  }

  /** A defined lookup comes from a member with that key; a key no member carries reads as undefined. */
  lemma {:induction false} LookupFound(ms: seq<Member>, key: string)
    ensures Lookup(ms, key) != Undefined ==> exists i :: 0 <= i < |ms| && ms[i].key == key && ms[i].val == Lookup(ms, key)
    ensures (forall i :: 0 <= i < |ms| ==> ms[i].key != key) ==> Lookup(ms, key) == Undefined
  {
    if ms != [] && ms[0].key != key {
      LookupFound(ms[1..], key);
      if Lookup(ms, key) != Undefined {
        var i :| 0 <= i < |ms[1..]| && ms[1..][i].key == key && ms[1..][i].val == Lookup(ms, key);
        assert ms[i + 1] == ms[1..][i];
      }
      if forall i :: 0 <= i < |ms| ==> ms[i].key != key {
        assert forall i :: 0 <= i < |ms[1..]| ==> ms[1..][i] == ms[i + 1];
      }
    }
  }

  /**
   * The keys of an object's members, in order: Object.keys of a plain object
   * whose members are kept in property order (see Assign).
   */
  function KeysOf(ms: seq<Member>): (keys: seq<string>)
    ensures |keys| == |ms|
    ensures forall i :: 0 <= i < |ms| ==> keys[i] == ms[i].key
  {
    if ms == [] then [] else [ms[0].key] + KeysOf(ms[1..])
  }

  /**
   * JavaScript's property order: array-index keys first, in ascending numeric
   * order, then the other keys in insertion order.
   */
  ghost predicate PropertyOrder(keys: seq<string>)
  {
    RanksOrdered(Ranks(keys))
  }

  /** The array index of each key, `None` for the keys that are not indices. */
  function Ranks(keys: seq<string>): (r: seq<Option<nat>>)
    ensures |r| == |keys|
    ensures forall i :: 0 <= i < |keys| ==> r[i] == ArrayIndex(keys[i])
  {
    seq(|keys|, i requires 0 <= i < |keys| => ArrayIndex(keys[i]))
  }

  /** Indices come first and ascend; a non-index is never followed by an index. */
  ghost predicate RanksOrdered(r: seq<Option<nat>>)
  {
    forall a, b :: 0 <= a < b < |r| && r[b].Some? ==> r[a].Some? && r[a].value <= r[b].value
  }

  /** A new key goes before an existing one: it is an array index, and the other is not or is a larger one. */
  predicate GoesBefore(key: string, other: string)
  {
    ArrayIndex(key).Some? && (ArrayIndex(other).None? || ArrayIndex(key).value <= ArrayIndex(other).value)
  }

  /**
   * The members after `obj[key] = val`: an existing property keeps its place
   * and takes the new value; a new array-index property goes before the first
   * property that is not an index or is a larger one; any other new property
   * is added at the end.
   */
  function Assign(ms: seq<Member>, key: string, val: Value): seq<Member>
  {
    if ms == [] then [Member(key, val)]
    else if ms[0].key == key then [Member(key, val)] + ms[1..]
    else if key !in KeysOf(ms[1..]) && GoesBefore(key, ms[0].key) then [Member(key, val)] + ms
    else [ms[0]] + Assign(ms[1..], key, val)
  }

  /** Reading back an assigned property gives the assigned value; other properties are unchanged. */
  lemma {:induction false} LookupAssign(ms: seq<Member>, key: string, val: Value, other: string)
    ensures Lookup(Assign(ms, key, val), key) == val
    ensures other != key ==> Lookup(Assign(ms, key, val), other) == Lookup(ms, other)
  {
    if ms != [] && ms[0].key != key && !(key !in KeysOf(ms[1..]) && GoesBefore(key, ms[0].key)) {
      LookupAssign(ms[1..], key, val, other);
    }
  }

  /**
   * Assignment keeps the keys when the key exists; otherwise it adds exactly
   * that key, at the end when it is not an array index.
   */
  lemma KeysOfAssign(ms: seq<Member>, key: string, val: Value)
    ensures key in KeysOf(ms) ==> KeysOf(Assign(ms, key, val)) == KeysOf(ms)
    ensures key !in KeysOf(ms) ==> multiset(KeysOf(Assign(ms, key, val))) == multiset(KeysOf(ms)) + multiset{key}
    ensures key !in KeysOf(ms) && ArrayIndex(key).None? ==> KeysOf(Assign(ms, key, val)) == KeysOf(ms) + [key]
  {
    if key in KeysOf(ms) {
      AssignExistingKeys(ms, key, val);
    } else {
      AssignNewKeys(ms, key, val);
      if ArrayIndex(key).None? {
        AssignPlainKeys(ms, key, val);
      }
    }
  }

  lemma {:induction false} AssignExistingKeys(ms: seq<Member>, key: string, val: Value)
    requires key in KeysOf(ms)
    ensures KeysOf(Assign(ms, key, val)) == KeysOf(ms)
  {
    assert ms != [];
    if ms[0].key != key {
      assert KeysOf(ms) == [ms[0].key] + KeysOf(ms[1..]);
      assert key in KeysOf(ms[1..]);
      AssignExistingKeys(ms[1..], key, val);
    }
  }

  lemma {:induction false} AssignNewKeys(ms: seq<Member>, key: string, val: Value)
    requires key !in KeysOf(ms)
    ensures multiset(KeysOf(Assign(ms, key, val))) == multiset(KeysOf(ms)) + multiset{key}
  {
    if ms != [] {
      assert KeysOf(ms) == [ms[0].key] + KeysOf(ms[1..]);
      if !GoesBefore(key, ms[0].key) {
        AssignNewKeys(ms[1..], key, val);
        assert KeysOf(Assign(ms, key, val)) == [ms[0].key] + KeysOf(Assign(ms[1..], key, val));
      }
    }
  }

  lemma {:induction false} AssignPlainKeys(ms: seq<Member>, key: string, val: Value)
    requires key !in KeysOf(ms) && ArrayIndex(key).None?
    ensures KeysOf(Assign(ms, key, val)) == KeysOf(ms) + [key]
  {
    if ms != [] {
      assert KeysOf(ms) == [ms[0].key] + KeysOf(ms[1..]);
      AssignPlainKeys(ms[1..], key, val);
      assert KeysOf(Assign(ms, key, val)) == [ms[0].key] + KeysOf(Assign(ms[1..], key, val));
    }
  }

  /** After assignment the keys are the old ones and the assigned one. */
  lemma KeysOfAssignMembers(ms: seq<Member>, key: string, val: Value, k: string)
    ensures k in KeysOf(Assign(ms, key, val)) <==> k in KeysOf(ms) || k == key
  {
    KeysOfAssign(ms, key, val);
    assert k in KeysOf(Assign(ms, key, val)) <==> k in multiset(KeysOf(Assign(ms, key, val)));
    assert k in KeysOf(ms) <==> k in multiset(KeysOf(ms));
  }

  /** Assignment keeps the members in JavaScript's property order. */
  lemma {:induction false} AssignKeepsOrder(ms: seq<Member>, key: string, val: Value)
    requires PropertyOrder(KeysOf(ms))
    ensures PropertyOrder(KeysOf(Assign(ms, key, val)))
  {
    if ms == [] {
    } else if ms[0].key == key {
      AssignExistingKeys(ms, key, val);
    } else {
      var x := ArrayIndex(ms[0].key);
      var r := Ranks(KeysOf(ms[1..]));
      assert KeysOf(ms) == [ms[0].key] + KeysOf(ms[1..]);
      RanksOfCons(ms[0].key, KeysOf(ms[1..]));
      RanksUncons(x, r);
      if key !in KeysOf(ms[1..]) && GoesBefore(key, ms[0].key) {
        assert KeysOf(Assign(ms, key, val)) == [key] + KeysOf(ms);
        RanksOfCons(key, KeysOf(ms));
        RanksCons(ArrayIndex(key), [x] + r);
      } else {
        var rest := Assign(ms[1..], key, val);
        AssignKeepsOrder(ms[1..], key, val);
        assert KeysOf(Assign(ms, key, val)) == [ms[0].key] + KeysOf(rest);
        RanksOfCons(ms[0].key, KeysOf(rest));
        forall v | v in Ranks(KeysOf(rest)) && v.Some?
          ensures x.Some? && x.value <= v.value
        {
          RanksOfAssign(ms[1..], key, val, v);
          if v == ArrayIndex(key) && key in KeysOf(ms[1..]) {
            RanksHas(KeysOf(ms[1..]), key);
          }
        }
        RanksCons(x, Ranks(KeysOf(rest)));
      }
    }
  }

  lemma RanksOfCons(k: string, ks: seq<string>)
    ensures Ranks([k] + ks) == [ArrayIndex(k)] + Ranks(ks)
  {
  }

  lemma RanksHas(ks: seq<string>, k: string)
    requires k in ks
    ensures ArrayIndex(k) in Ranks(ks)
  {
    var i :| 0 <= i < |ks| && ks[i] == k;
    assert Ranks(ks)[i] == ArrayIndex(k);
  }

  /** Every rank after an assignment is the new key's or was there before. */
  lemma RanksOfAssign(ms: seq<Member>, key: string, val: Value, v: Option<nat>)
    requires v in Ranks(KeysOf(Assign(ms, key, val)))
    ensures v == ArrayIndex(key) || v in Ranks(KeysOf(ms))
  {
    var keys := KeysOf(Assign(ms, key, val));
    var i :| 0 <= i < |keys| && Ranks(keys)[i] == v;
    KeysOfAssignMembers(ms, key, val, keys[i]);
    if keys[i] != key {
      RanksHas(KeysOf(ms), keys[i]);
    }
  }

  /** Taking the first rank off an ordered sequence leaves it ordered and below the rest. */
  lemma RanksUncons(x: Option<nat>, r: seq<Option<nat>>)
    requires RanksOrdered([x] + r)
    ensures RanksOrdered(r)
    ensures forall v :: v in r && v.Some? ==> x.Some? && x.value <= v.value
  {
    forall a, b | 0 <= a < b < |r| && r[b].Some?
      ensures r[a].Some? && r[a].value <= r[b].value
    {
      assert ([x] + r)[a + 1] == r[a] && ([x] + r)[b + 1] == r[b];
    }
    forall v | v in r && v.Some?
      ensures x.Some? && x.value <= v.value
    {
      var b :| 0 <= b < |r| && r[b] == v;
      assert ([x] + r)[0] == x && ([x] + r)[b + 1] == v;
    }
  }

  /** A rank no larger than every later index may go in front. */
  lemma RanksCons(x: Option<nat>, r: seq<Option<nat>>)
    requires RanksOrdered(r)
    requires forall v :: v in r && v.Some? ==> x.Some? && x.value <= v.value
    ensures RanksOrdered([x] + r)
  {
    forall a, b | 0 <= a < b < |r| + 1 && ([x] + r)[b].Some?
      ensures ([x] + r)[a].Some? && ([x] + r)[a].value <= ([x] + r)[b].value
    {
      assert ([x] + r)[b] == r[b - 1];
      assert r[b - 1] in r;
      if a > 0 {
        assert ([x] + r)[a] == r[a - 1];
      }
    }
  }

  /** `obj["0"] = v` on `{ b: 1 }` lists "0" first, as JavaScript does. */
  lemma AssignIndexFirst(v: Value)
    ensures KeysOf(Assign([Member("b", Num(1.0))], "0", v)) == ["0", "b"]
  {
    assert ArrayIndex("0") == Some(0);
    assert ArrayIndex("b") == None by {
      assert !IsDigit("b"[0]);
    }
  }

  // ---------------------------------------------------------------------------
  // Array indices as property keys

  function DigitChar(d: nat): char
    requires d < 10
  {
    "0123456789"[d]
  }

  predicate IsDigit(c: char)
  {
    '0' <= c <= '9'
  }

  /** The decimal text of a natural number, as String(i) gives it. */
  function IndexKey(n: nat): (s: string)
    ensures |s| > 0
    ensures forall i :: 0 <= i < |s| ==> IsDigit(s[i])
  {
    if n < 10 then [DigitChar(n)] else IndexKey(n / 10) + [DigitChar(n % 10)]
  }

  function DecimalValue(s: string): nat
    requires forall i :: 0 <= i < |s| ==> IsDigit(s[i])
  {
    if s == [] then 0
    else
      assert IsDigit(s[|s| - 1]);
      DecimalValue(s[..|s| - 1]) * 10 + ((s[|s| - 1] as int) - ('0' as int))
  }

  /** The array index a property key denotes: canonical decimal text without leading zeros. */
  function ParseIndex(key: string): Option<nat>
  {
    if key != [] && (forall i :: 0 <= i < |key| ==> IsDigit(key[i])) && (key[0] != '0' || |key| == 1)
    then Some(DecimalValue(key))
    else None
  }

  /** The array index a key denotes for property ordering: canonical and below 2^32 - 1. */
  function ArrayIndex(key: string): (r: Option<nat>)
    ensures r.Some? ==> ParseIndex(key) == r
  {
    var p := ParseIndex(key);
    if p.Some? && p.value < 0xFFFF_FFFF then p else None
  }

  lemma {:induction false} DecimalValueOfIndexKey(n: nat)
    ensures DecimalValue(IndexKey(n)) == n
    ensures n >= 10 ==> IndexKey(n)[0] != '0'
    ensures n < 10 ==> |IndexKey(n)| == 1
  {
    if n >= 10 {
      DecimalValueOfIndexKey(n / 10);
      var s := IndexKey(n);
      assert s[..|s| - 1] == IndexKey(n / 10);
      assert s[0] == IndexKey(n / 10)[0];
    }
  }

  /** The text of index n is read back as index n, so distinct indices have distinct keys. */
  lemma ParseIndexKey(n: nat)
    ensures ParseIndex(IndexKey(n)) == Some(n)
  {
    DecimalValueOfIndexKey(n);
  }

  /** The element an array or string index key selects, if any. */
  function ElementAt(items: seq<Value>, key: string): Value
  {
    match ParseIndex(key)
    case Some(i) => if i < |items| then items[i] else Undefined
    case None => Undefined
  }

  function CharAt(s: string, key: string): Value
  {
    match ParseIndex(key)
    case Some(i) => if i < |s| then Str([s[i]]) else Undefined
    case None => Undefined
  }

  /** The own index keys of an array or string with n elements: "0", "1", ... */
  function IndexKeys(n: nat): (keys: seq<string>)
    ensures |keys| == n
    ensures forall i :: 0 <= i < n ==> keys[i] == IndexKey(i)
  {
    seq(n, i requires 0 <= i < n => IndexKey(i))
  }

  // ---------------------------------------------------------------------------
  // Property reads and Object.keys

  /** `v[key]`: throws a TypeError on null and undefined, reads own properties otherwise. */
  function Prop(v: Value, key: string): (r: Result<Value>)
    ensures r.Throw? <==> v.Null? || v.Undefined?
    ensures v.Obj? ==> r == Ok(Lookup(v.members, key))
  {
    match v
    case Null => Throw("Cannot read properties of null (reading '" + key + "')")
    case Undefined => Throw("Cannot read properties of undefined (reading '" + key + "')")
    case Obj(ms) => Ok(Lookup(ms, key))
    case Arr(items) => Ok(if key == "length" then Num(|items| as real) else ElementAt(items, key))
    case Str(s) => Ok(if key == "length" then Num(|s| as real) else CharAt(s, key))
    case _ => Ok(Undefined)
  }

  /** `v[i]` for a numeric index i: the same read with the key String(i). */
  function Index(v: Value, i: nat): Result<Value>
  {
    Prop(v, IndexKey(i))
  }

  /** Reading index i of an array gives its i-th element, or undefined past the end. */
  lemma IndexArr(items: seq<Value>, i: nat)
    ensures Index(Arr(items), i) == Ok(if i < |items| then items[i] else Undefined)
  {
    ParseIndexKey(i);
    assert IndexKey(i) != "length" by {
      assert IsDigit(IndexKey(i)[0]);
    }
  }

  /** `Object.keys(v)`. */
  function ObjectKeys(v: Value): (r: Result<seq<string>>)
    ensures r.Throw? <==> v.Null? || v.Undefined?
  {
    match v
    case Null => Throw("Cannot convert undefined or null to object")
    case Undefined => Throw("Cannot convert undefined or null to object")
    case Obj(ms) => Ok(KeysOf(ms))
    case Arr(items) => Ok(IndexKeys(|items|))
    case Str(s) => Ok(IndexKeys(|s|))
    case _ => Ok([])
  }

  // ---------------------------------------------------------------------------
  // Conversions

  /** String(v), also the key a value denotes when used as a property name or in a template literal. */
  function ToText(host: Host, v: Value): string
  {
    match v
    case Null => "null"
    case Undefined => "undefined"
    case Num(n) => host.numberText(n)
    case NaN => "NaN"
    case Str(s) => s
    case Bool(b) => if b then "true" else "false"
    case Arr(items) => JoinedText(host, items)
    case Obj(_) => "[object Object]"
  }

  /** Array.prototype.toString: the elements' texts joined by ",", null and undefined giving "". */
  function JoinedText(host: Host, items: seq<Value>): string
  {
    if items == [] then ""
    else
      var first := if items[0].Null? || items[0].Undefined? then "" else ToText(host, items[0]);
      if |items| == 1 then first else first + "," + JoinedText(host, items[1..])
  }

  /** Number(v), None standing for NaN. */
  function ToNumber(host: Host, v: Value): Option<real>
  {
    match v
    case Null => Some(0.0)
    case Undefined => None
    case Num(n) => Some(n)
    case NaN => None
    case Str(s) => host.parseNumber(s)
    case Bool(b) => Some(if b then 1.0 else 0.0)
    case Arr(items) => host.parseNumber(JoinedText(host, items))
    case Obj(_) => None
  }

  /** The global `isNaN(v)`, which first converts its argument to a number. */
  predicate LooseIsNaN(host: Host, v: Value)
  {
    ToNumber(host, v).None?
  }

  // ---------------------------------------------------------------------------
  // JSON.stringify

  function Hex(d: nat): char
    requires d < 16
  {
    "0123456789abcdef"[d]
  }

  /** The JSON escape of one character. */
  function EscapeChar(c: char): string
  {
    if c == '"' then "\\\""
    else if c == '\\' then "\\\\"
    else if c == '\n' then "\\n"
    else if c == '\r' then "\\r"
    else if c == '\t' then "\\t"
    else if c as int == 8 then "\\b"
    else if c as int == 12 then "\\f"
    else if (c as int) < 32 then "\\u00" + [Hex((c as int) / 16), Hex((c as int) % 16)]
    else [c]
  }

  function Escape(s: string): string
  {
    if s == [] then "" else EscapeChar(s[0]) + Escape(s[1..])
  }

  /** A character JSON.stringify writes as it is. */
  predicate Plain(c: char)
  {
    c != '"' && c != '\\' && c as int >= 32
  }

  /** A string of plain characters is its own escape. */
  lemma {:induction false} EscapePlain(s: string)
    requires forall i :: 0 <= i < |s| ==> Plain(s[i])
    ensures Escape(s) == s
  {
    if s != [] {
      EscapePlain(s[1..]);
      assert [s[0]] + s[1..] == s;
    }
  }

  function Quote(s: string): string
  {
    "\"" + Escape(s) + "\""
  }

  function Join(parts: seq<string>, sep: string): string
  {
    if parts == [] then ""
    else if |parts| == 1 then parts[0]
    else parts[0] + sep + Join(parts[1..], sep)
  }

  /**
   * JSON.stringify(v): None for a top-level undefined (JSON.stringify then
   * returns undefined), NaN written as null, undefined array elements written
   * as null and undefined object properties omitted.
   */
  function Stringify(host: Host, v: Value): (r: Option<string>)
    ensures r.None? <==> v.Undefined?
  {
    match v
    case Null => Some("null")
    case Undefined => None
    case Num(n) => Some(host.numberText(n))
    case NaN => Some("null")
    case Str(s) => Some(Quote(s))
    case Bool(b) => Some(if b then "true" else "false")
    case Arr(items) => Some("[" + Join(ItemTexts(host, items), ",") + "]")
    case Obj(ms) => Some("{" + Join(MemberTexts(host, ms), ",") + "}")
  }

  function ItemTexts(host: Host, items: seq<Value>): seq<string>
  {
    if items == [] then []
    else
      var t := match Stringify(host, items[0]) case Some(t) => t case None => "null";
      [t] + ItemTexts(host, items[1..])
  }

  function MemberTexts(host: Host, ms: seq<Member>): seq<string>
  {
    if ms == [] then []
    else
      match Stringify(host, ms[0].val)
      case Some(t) => [Quote(ms[0].key) + ":" + t] + MemberTexts(host, ms[1..])
      case None => MemberTexts(host, ms[1..])
  }
}
