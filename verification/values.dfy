/** JavaScript values as they cross the window-messaging channel and the
    provider's request surface, with the two JavaScript operations the
    bridge relies on: property access and truthiness. */
module Values {

  datatype Option<+T> = None | Some(value: T) {
    function GetOr(default: T): T {
      match this
      case Some(v) => v
      case None => default
    }
  }

  /** A structured-cloneable JavaScript value. Numbers are integers; the
      bridge never carries fractional numbers. */
  datatype Json =
    | Undefined
    | Null
    | Bool(b: bool)
    | Num(n: int)
    | BigInt(i: int)
    | Str(s: string)
    | Obj(fields: map<string, Json>)
    | Arr(items: seq<Json>)

  /** `null` and `undefined`: reading a property of these throws a TypeError. */
  predicate Nullish(v: Json) {
    v.Undefined? || v.Null?
  }

  /** `v.key` for a value that is not nullish: an own field of an object,
      and `undefined` for every other key or value. */
  function Get(v: Json, key: string): (r: Json)
    ensures v.Obj? && key in v.fields ==> r == v.fields[key]
    ensures !v.Obj? ==> r == Undefined
  {
    match v
    case Obj(fields) => if key in fields then fields[key] else Undefined
    case _ => Undefined
  }

  /** JavaScript truthiness (`if (v)`). */
  predicate Truthy(v: Json) {
    match v
    case Undefined => false
    case Null => false
    case Bool(b) => b
    case Num(n) => n != 0
    case BigInt(i) => i != 0
    case Str(s) => s != ""
    case Obj(_) => true
    case Arr(_) => true
  }

  /** Whether `JSON.stringify` accepts the value: it throws a TypeError on a
      BigInt anywhere inside. */
  predicate Serializable(v: Json) {
    match v
    case BigInt(_) => false
    case Obj(fields) => forall k :: k in fields ==> Serializable(fields[k])
    case Arr(items) => forall i :: 0 <= i < |items| ==> Serializable(items[i])
    case _ => true
  }

  /** `JSON.parse(JSON.stringify(v))` for a serialisable value held in an
      object member: members whose value is `undefined` are dropped, and
      `undefined` array elements come back as `null`. */
  function Reparsed(v: Json): (r: Json)
    requires Serializable(v)
    ensures Serializable(r)
    ensures v.Str? || v.Num? || v.Bool? || v.Null? || v.Undefined? ==> r == v
    ensures v.Obj? <==> r.Obj?
    ensures v.Obj? ==> forall k :: k in r.fields <==> k in v.fields && v.fields[k] != Undefined
  {
    match v
    case Obj(fields) =>
      Obj(map k | k in fields && fields[k] != Undefined :: Reparsed(fields[k]))
    case Arr(items) =>
      Arr(seq(|items|, i requires 0 <= i < |items| => if items[i] == Undefined then Null else Reparsed(items[i])))
    case _ => v
  }

  /** A stored single-member record reads back its member as reparsed: an
      `undefined` member is dropped, and reading it again gives `undefined`. */
  lemma ReparsedRecord(key: string, value: Json)
    requires Serializable(value)
    ensures Serializable(Record(key, value))
    ensures Get(Reparsed(Record(key, value)), key) == Reparsed(value)
    ensures Truthy(Reparsed(Record(key, value)))
  {
    var m := map[key := value];
    assert forall k :: k in m ==> m[k] == value;
  }

  /** Object literal with a single field, `{ key: value }`. */
  function Record(key: string, value: Json): (r: Json)
    ensures Get(r, key) == value && Truthy(r) && !Nullish(r)
  {
    Obj(map[key := value])
  }
}
