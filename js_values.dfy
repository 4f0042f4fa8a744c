/** The JavaScript values the handlers see: JSON as `res.json()` parses it, `undefined`,
    numbers that may be NaN or infinite, property access that throws on `undefined` and
    `null`, and the JSON serialisation that `Response.json` applies to its argument. */
module JsValues {
  import opened Text

  datatype Option<+T> = None | Some(value: T)

  /** A JSON value. Numbers are exact reals: double rounding is not modelled. Objects keep
      their own properties only; the order of keys is not modelled. */
  datatype Json =
    | Null
    | Bool(b: bool)
    | Num(n: real)
    | Str(s: string)
    | Arr(items: seq<Json>)
    | Obj(fields: map<string, Json>)

  /** A value read out of parsed JSON: `undefined`, or a JSON value. */
  datatype Val = Undefined | Defined(json: Json)

  /** The outcome of code that may throw (a TypeError when reading a property of `undefined`
      or `null`, a RangeError from `Response.json`, a rejected `fetch`). Chained with `:-`,
      a throw skips the rest of the `try` block, as in the source. */
  datatype Got<+T> = Value(value: T) | Thrown {
    predicate IsFailure() { Thrown? }

    function PropagateFailure<U>(): Got<U> {
      Thrown
    }

    function Extract(): T
      requires Value?
    {
      value
    }
  }

  /** A JavaScript number. */
  datatype Number = NaN | Infinity(negative: bool) | Finite(r: real)

  /** `x <= 0`; every comparison with NaN is false. */
  predicate AtMostZero(x: Number) {
    match x
    case NaN => false
    case Infinity(negative) => negative
    case Finite(r) => r <= 0.0
  }

  /** `JSON.stringify` writes NaN and the infinities as `null`. */
  function NumberJson(x: Number): Json {
    if x.Finite? then Num(x.r) else Null
  }

  /** JavaScript truthiness of a string that may be absent (`null`): absent and `""` are falsy. */
  predicate Present(s: Option<string>) {
    s.Some? && s.value != ""
  }

  /** JavaScript truthiness of a value from JSON (JSON cannot hold NaN). */
  predicate Truthy(v: Val) {
    match v
    case Undefined => false
    case Defined(j) =>
      match j
      case Null => false
      case Bool(b) => b
      case Num(n) => n != 0.0
      case Str(s) => s != ""
      case Arr(_) => true
      case Obj(_) => true
  }

  /** `undefined` or `null`: reading a property of either throws. */
  predicate Nullish(v: Val) {
    v == Undefined || v == Defined(Null)
  }

  /** A canonical array index ("0", "1", ..., no leading zeros). */
  function ArrayIndex(name: string): Option<nat> {
    if name != [] && AllDigits(name) && (name == "0" || name[0] != '0')
    then Some(DigitsValue(name)) else None
  }

  /** `j[name]` for a value that is not `null`: an own property of an object, an element of
      an array, a character of a string, and `undefined` otherwise. Inherited members
      (methods, `length`) are not modelled: no handler reads one by name. The conversions
      to a string or a number look up `toString` and `valueOf`; see `ToPrimitiveThrows`. */
  function Member(j: Json, name: string): Val {
    match j
    case Obj(fields) => if name in fields then Defined(fields[name]) else Undefined
    case Arr(items) =>
      var k := ArrayIndex(name);
      if k.Some? && k.value < |items| then Defined(items[k.value]) else Undefined
    case Str(s) =>
      var k := ArrayIndex(name);
      if k.Some? && k.value < |s| then Defined(Str([s[k.value]])) else Undefined
    case _ => Undefined
  }

  /** `v[name]`: throws a TypeError when `v` is `undefined` or `null`. */
  function GetProp(v: Val, name: string): (r: Got<Val>)
    ensures r.Thrown? <==> Nullish(v)
  {
    if Nullish(v) then Thrown else Value(Member(v.json, name))
  }

  /** Reads the property path `v.p1.p2...`, throwing as soon as a step meets `undefined`
      or `null`. */
  function Follow(v: Val, path: seq<string>): Got<Val>
    decreases |path|
  {
    if path == [] then Value(v)
    else
      var w :- GetProp(v, path[0]);
      Follow(w, path[1..])
  }

  /** The value read at the end of a path, when reading it does not throw and gives a
      defined value. */
  predicate Yields(v: Val, path: seq<string>, j: Json) {
    Follow(v, path) == Value(Defined(j))
  }

  /** Adds a property to an object literal being serialised. A later property replaces
      an earlier one of the same name, and `JSON.stringify` drops properties whose value is
      `undefined`. */
  function Put(fields: map<string, Json>, name: string, v: Val): map<string, Json> {
    if v.Defined? then fields[name := v.json] else fields - {name}
  }

  /** The fields `JSON.stringify` writes for an object literal with these properties, in
      source order. */
  function Literal(props: seq<(string, Val)>): map<string, Json>
    decreases |props|
  {
    if props == [] then map[]
    else Put(Literal(props[..|props| - 1]), props[|props| - 1].0, props[|props| - 1].1)
  }

  /** The literal's property names are pairwise different, as in every literal here. */
  predicate DistinctNames(props: seq<(string, Val)>) {
    forall i, j :: 0 <= i < j < |props| ==> props[i].0 != props[j].0
  }

  /** One more property is one more `Put` on the fields written so far. */
  lemma LiteralSnoc(props: seq<(string, Val)>, name: string, v: Val)
    ensures Literal(props + [(name, v)]) == Put(Literal(props), name, v)
  {
    assert (props + [(name, v)])[..|props|] == props;
  }

  /** Every written field comes from a property with a defined value. */
  lemma {:induction false} LiteralKeys(props: seq<(string, Val)>)
    ensures forall k :: k in Literal(props) ==>
              exists i :: 0 <= i < |props| && props[i].0 == k && props[i].1.Defined?
    decreases |props|
  {
    if props != [] {
      var init := props[..|props| - 1];
      LiteralKeys(init);
      forall k | k in Literal(props)
        ensures exists i :: 0 <= i < |props| && props[i].0 == k && props[i].1.Defined?
      {
        if k in Literal(init) && k != props[|props| - 1].0 {
          var i :| 0 <= i < |init| && init[i].0 == k && init[i].1.Defined?;
          assert props[i] == init[i];
        }
      }
    }
  }

  /** A property with a name of its own is written exactly when its value is defined,
      and then holds that value. */
  lemma {:induction false} LiteralField(props: seq<(string, Val)>, i: int)
    requires 0 <= i < |props| && DistinctNames(props)
    ensures props[i].0 in Literal(props) <==> props[i].1.Defined?
    ensures props[i].0 in Literal(props) ==> Literal(props)[props[i].0] == props[i].1.json
    decreases |props|
  {
    var init := props[..|props| - 1];
    var last := props[|props| - 1];
    assert Literal(props) == Put(Literal(init), last.0, last.1);
    if i < |props| - 1 {
      assert init[i] == props[i];
      assert DistinctNames(init) by {
        forall a, b | 0 <= a < b < |init| ensures init[a].0 != init[b].0 {
          assert init[a] == props[a] && init[b] == props[b];
        }
      }
      assert props[i].0 != last.0;
      LiteralField(init, i);
    } else {
      LiteralKeys(init);
    }
  }

  /** The properties whose names are not dropped, in order. */
  function Without(props: seq<(string, Val)>, drop: set<string>): (r: seq<(string, Val)>)
    decreases |props|
  {
    if props == [] then []
    else
      var init := Without(props[..|props| - 1], drop);
      if props[|props| - 1].0 in drop then init else init + [props[|props| - 1]]
  }

  /** Dropping names from the written object is the same as leaving those properties out
      of the literal. */
  lemma {:induction false} LiteralWithout(props: seq<(string, Val)>, drop: set<string>)
    ensures Literal(props) - drop == Literal(Without(props, drop))
    decreases |props|
  {
    if props != [] {
      var init := props[..|props| - 1];
      var last := props[|props| - 1];
      LiteralWithout(init, drop);
      PutWithout(Literal(init), last.0, last.1, drop);
      if last.0 !in drop {
        LiteralSnoc(Without(init, drop), last.0, last.1);
      }
    }
  }

  /** Dropping names after a `Put` is dropping them before it, unless the put name is
      itself dropped. */
  lemma PutWithout(fields: map<string, Json>, name: string, v: Val, drop: set<string>)
    ensures Put(fields, name, v) - drop ==
            if name in drop then fields - drop else Put(fields - drop, name, v)
  {
    if v.Defined? && name in drop {
      assert fields[name := v.json] - drop == fields - drop;
    }
  }

  /** Whether `ToPrimitive` throws on `j`, as it does when `j` is used as a property key
      or divided. It tries `toString` and `valueOf`, in either order. A parsed value holds
      no function, so an own `toString` field cannot be called, and the inherited
      `valueOf` gives back the object itself: the conversion then throws a TypeError.
      Without an own `toString` an object converts through the inherited one. An array
      converts through `join`, which converts every element. */
  predicate ToPrimitiveThrows(j: Json)
    decreases j
  {
    match j
    case Obj(fields) => "toString" in fields
    case Arr(items) => exists k :: 0 <= k < |items| && ToPrimitiveThrows(items[k])
    case _ => false
  }

  /** Whether converting `v` to a string or a number throws. */
  predicate ConversionThrows(v: Val) {
    v.Defined? && ToPrimitiveThrows(v.json)
  }

  /** `ToPropertyKey(v)`, as `table[v]` computes it. It throws exactly when the conversion
      does. Otherwise `None` stands for a text that holds the decimal text of a number, so
      it contains a digit; no key of any table in this model contains a digit. */
  function KeyText(v: Val): (r: Got<Option<string>>)
    ensures r.Thrown? <==> ConversionThrows(v)
  {
    match v
    case Undefined => Value(Some("undefined"))
    case Defined(j) => JsonKeyText(j)
  }

  function JsonKeyText(j: Json): (r: Got<Option<string>>)
    ensures r.Thrown? <==> ToPrimitiveThrows(j)
    decreases j, 1
  {
    match j
    case Null => Value(Some("null"))
    case Bool(b) => Value(Some(if b then "true" else "false"))
    case Num(_) => Value(None)
    case Str(s) => Value(Some(s))
    case Arr(items) => JoinKeyText(j, 0)
    case Obj(fields) => if "toString" in fields then Thrown else Value(Some("[object Object]"))
  }

  /** `String(array)`, that is `array.join(",")` with `null` elements written as `""`,
      from element `i` on; it throws when converting any of those elements throws. */
  function JoinKeyText(j: Json, i: nat): (r: Got<Option<string>>)
    requires j.Arr? && i <= |j.items|
    ensures r.Thrown? <==> exists k :: i <= k < |j.items| && ToPrimitiveThrows(j.items[k])
    decreases j, 0, |j.items| - i
  {
    if i == |j.items| then Value(Some(""))
    else
      var item := j.items[i];
      var head := if item == Null then Value(Some("")) else JsonKeyText(item);
      var tail := JoinKeyText(j, i + 1);
      if head.Thrown? || tail.Thrown? then Thrown
      else if head.value.None? || tail.value.None? then Value(None)
      else if i + 1 == |j.items| then head
      else Value(Some(head.value.value + "," + tail.value.value))
  }
}
