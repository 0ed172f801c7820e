/** Plain JavaScript data as it flows through the provider: attributes,
    descriptors and the cleaned responses of the remote API. */
module Json {
  import opened Results

  /** A plain value. An `undefined` property is modelled by the key being
      absent from its object; numbers are integers. */
  datatype Value =
    | Null
    | Bool(b: bool)
    | Num(n: int)
    | Str(s: string)
    | Arr(items: seq<Value>)
    | Obj(fields: map<string, Value>)

  /** JavaScript truthiness, as used by `if (attributes.sid)`. */
  predicate Truthy(v: Value) {
    match v
    case Null => false
    case Bool(b) => b
    case Num(n) => n != 0
    case Str(s) => s != ""
    case Arr(_) => true
    case Obj(_) => true
  }

  /** Property read `v.key`: fails on `null`, is `undefined` on every
      non-object and on an object without that key. */
  function Get(v: Value, key: string): Result<Option<Value>> {
    match v
    case Null => Err(TypeError)
    case Obj(m) => Ok(if key in m then Some(m[key]) else None)
    case _ => Ok(None)
  }

  /** The named properties of a value; a non-object has none. */
  function Fields(v: Value): map<string, Value> {
    if v.Obj? then v.fields else map[]
  }

  /** Deep equality in the manner of lodash `isEqual` on plain data:
      arrays compare element by element in order, objects compare by key
      set and per-key value, whatever the order the keys were written in. */
  predicate IsEqual(a: Value, b: Value)
    decreases a
  {
    match (a, b)
    case (Null, Null) => true
    case (Bool(x), Bool(y)) => x == y
    case (Num(x), Num(y)) => x == y
    case (Str(x), Str(y)) => x == y
    case (Arr(xs), Arr(ys)) =>
      |xs| == |ys| && forall i :: 0 <= i < |xs| ==> IsEqual(xs[i], ys[i])
    case (Obj(m), Obj(n)) =>
      m.Keys == n.Keys && forall k :: k in m ==> IsEqual(m[k], n[k])
    case _ => false
  }

  /** The recursive comparison coincides with structural equality of
      values, so it is reflexive, symmetric and blind to key order. */
  lemma {:induction false} IsEqualIsEquality(a: Value, b: Value)
    ensures IsEqual(a, b) <==> a == b
    decreases a
  {
    match (a, b)
    case (Arr(xs), Arr(ys)) =>
      if IsEqual(a, b) {
        forall i | 0 <= i < |xs| ensures xs[i] == ys[i] {
          IsEqualIsEquality(xs[i], ys[i]);
        }
        assert xs == ys;
      }
      if a == b {
        forall i | 0 <= i < |xs| ensures IsEqual(xs[i], ys[i]) {
          IsEqualIsEquality(xs[i], ys[i]);
        }
      }
    case (Obj(m), Obj(n)) =>
      if IsEqual(a, b) {
        forall k | k in m ensures m[k] == n[k] {
          IsEqualIsEquality(m[k], n[k]);
        }
        assert m == n;
      }
      if a == b {
        forall k | k in m ensures IsEqual(m[k], n[k]) {
          IsEqualIsEquality(m[k], n[k]);
        }
      }
    case _ =>
  }
}
