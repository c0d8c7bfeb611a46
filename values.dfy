/** PHP values as json_decode produces them, with the two PHP constructs the
    WidePay client uses on them: isset on a property and foreach. */
module Values {

  datatype Option<+T> = None | Some(value: T)

  /** A decoded value. A JSON object becomes a PHP object whose properties keep
      their order; a JSON array becomes a PHP list. Floating-point numbers are
      not modelled. */
  datatype Value =
    | Null
    | Bool(b: bool)
    | Int(i: int)
    | Str(s: string)
    | List(items: seq<Value>)
    | Object(members: seq<(string, Value)>)

  /** PHP isset on something that may be missing: present and not null. */
  predicate Isset(v: Option<Value>)
    ensures Isset(v) ==> v.Some?
    ensures v == None || v == Some(Null) ==> !Isset(v)
  {
    v.Some? && v.value != Null
  }

  /** The first member called `name`, if any. */
  function Lookup(members: seq<(string, Value)>, name: string): (r: Option<Value>)
    ensures r.Some? <==> exists k :: 0 <= k < |members| && members[k].0 == name
    ensures r.Some? ==> exists k :: 0 <= k < |members| && members[k] == (name, r.value)
  {
    if members == [] then None
    else if members[0].0 == name then Some(members[0].1)
    else Lookup(members[1..], name)
  }

  /** `$v->name`: only an object has properties; on anything else the access
      yields nothing (PHP raises a notice and reads null). */
  function Property(v: Value, name: string): (r: Option<Value>)
    ensures r.Some? ==> v.Object?
  {
    match v
    case Object(members) => Lookup(members, name)
    case _ => None
  }

  /** What `foreach ($v as $x)` visits: the items of a list, the property
      values of an object, and nothing for a scalar (PHP warns and skips). */
  function Elements(v: Value): (r: seq<Value>)
    ensures v.List? ==> r == v.items
    ensures v.Object? ==> |r| == |v.members| && forall k :: 0 <= k < |r| ==> r[k] == v.members[k].1
    ensures !v.List? && !v.Object? ==> r == []
  {
    match v
    case List(items) => items
    case Object(members) => seq(|members|, k requires 0 <= k < |members| => members[k].1)
    case _ => []
  }
}
