/** JSON values as the manifests and the model configuration use them.
    Object members are an ordered list: serde writes struct fields in
    declaration order and Python dicts keep insertion order. */
module Json {
  import opened Wrappers

  datatype Value =
    | Null
    | Bool(b: bool)
    | Num(n: int)
    | Str(s: string)
    | Arr(items: seq<Value>)
    | Obj(members: seq<(string, Value)>)

  function Keys(members: seq<(string, Value)>): (ks: seq<string>)
    ensures |ks| == |members|
    ensures forall i :: 0 <= i < |members| ==> ks[i] == members[i].0
  {
    if members == [] then [] else [members[0].0] + Keys(members[1..])
  }

  /** The value of the first member called `key`. */
  function Lookup(members: seq<(string, Value)>, key: string): Option<Value> {
    if members == [] then None
    else if members[0].0 == key then Some(members[0].1)
    else Lookup(members[1..], key)
  }

  /** A lookup finds a value exactly when some member carries the key. */
  lemma {:induction false} LookupFound(members: seq<(string, Value)>, key: string)
    ensures Lookup(members, key).Some? <==> key in Keys(members)
  {
    if members != [] {
      LookupFound(members[1..], key);
      assert Keys(members) == [members[0].0] + Keys(members[1..]);
    }
  }

  /** The first member called `key` is the one found. */
  lemma {:induction false} LookupAt(ms: seq<(string, Value)>, key: string, i: nat)
    requires i < |ms| && ms[i].0 == key
    requires forall j :: 0 <= j < i ==> ms[j].0 != key
    ensures Lookup(ms, key) == Some(ms[i].1)
  {
    if i > 0 {
      LookupAt(ms[1..], key, i - 1);
    }
  }

  lemma {:induction false} LookupAbsent(ms: seq<(string, Value)>, key: string)
    requires forall j :: 0 <= j < |ms| ==> ms[j].0 != key
    ensures Lookup(ms, key) == None
  {
    if ms != [] {
      LookupAbsent(ms[1..], key);
    }
  }

  /** `Value::get`: a member of an object; any other value has none. */
  function Get(v: Value, key: string): Option<Value> {
    if v.Obj? then Lookup(v.members, key) else None
  }
}
