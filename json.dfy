/** The part of `serde_json::Value` the crate builds and inspects. */
module Json {
  import opened Wrappers

  /** An object is a list of fields in the order the crate writes them. This order is a modelling
      choice: whether serialised keys keep it or come out sorted depends on how serde_json is
      built, and every property here is stated through `Lookup`, which does not depend on it for
      objects without repeated keys. */
  datatype Value =
    | Null
    | Num(n: real)
    | Str(s: string)
    | Arr(items: seq<Value>)
    | Obj(fields: seq<(string, Value)>)

  /** The value of the first field named `key`, as `obj[key]` finds it in a well-formed object. */
  function Lookup(fields: seq<(string, Value)>, key: string): (r: Option<Value>)
    ensures r.Some? <==> exists i :: 0 <= i < |fields| && fields[i].0 == key
    ensures r.Some? ==>
      exists i :: 0 <= i < |fields| && fields[i] == (key, r.value) && forall j :: 0 <= j < i ==> fields[j].0 != key
  {
    if |fields| == 0 then None
    else if fields[0].0 == key then Some(fields[0].1)
    else Lookup(fields[1..], key)
  }

  /** The first field with the key is the one found. */
  lemma {:induction false} LookupFirst(fields: seq<(string, Value)>, key: string, k: nat)
    requires k < |fields| && fields[k].0 == key
    requires forall j :: 0 <= j < k ==> fields[j].0 != key
    ensures Lookup(fields, key) == Some(fields[k].1)
  {
    if k > 0 {
      LookupFirst(fields[1..], key, k - 1);
    }
  }

  /** A key missing from the leading fields is looked up in the rest. */
  lemma {:induction false} LookupInTail(head: seq<(string, Value)>, tail: seq<(string, Value)>, key: string)
    requires forall j :: 0 <= j < |head| ==> head[j].0 != key
    ensures Lookup(head + tail, key) == Lookup(tail, key)
    decreases |head|
  {
    if |head| > 0 {
      assert (head + tail)[1..] == head[1..] + tail;
      LookupInTail(head[1..], tail, key);
    } else {
      assert head + tail == tail;
    }
  }

  /** A JSON array of strings, `json!(v)` for a `Vec<String>`. */
  function Strings(names: seq<string>): (v: Value)
    ensures v.Arr? && |v.items| == |names|
    ensures forall i :: 0 <= i < |names| ==> v.items[i] == Str(names[i])
  {
    Arr(seq(|names|, i requires 0 <= i < |names| => Str(names[i])))
  }

  /** `json!(o)` for an `Option<String>`: `null` when absent. */
  function OptionalString(o: Option<string>): Value {
    match o
    case None => Null
    case Some(s) => Str(s)
  }
}
