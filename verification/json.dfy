/** A JSON document as Go's encoder sees a struct: object members keep the
    order of the struct's fields and carry the names of their `json` tags. */
module Json {
  import opened Wrappers

  datatype Value =
    | Null
    | Bool(b: bool)
    | String(s: string)
    | Array(items: seq<Value>)
    | Object(members: seq<Member>)

  datatype Member = Member(key: string, value: Value)

  /** The member names of an object, in order. */
  function Keys(members: seq<Member>): (ks: seq<string>)
    ensures |ks| == |members|
    ensures forall i :: 0 <= i < |members| ==> ks[i] == members[i].key
  {
    seq(|members|, i requires 0 <= i < |members| => members[i].key)
  }

  /** The value of the first member named `key`. */
  function Lookup(members: seq<Member>, key: string): (r: Option<Value>)
    ensures r.Some? <==> key in Keys(members)
    decreases |members|
  {
    if |members| == 0 then None
    else if members[0].key == key then Some(members[0].value)
    else
      var r := Lookup(members[1..], key);
      assert Keys(members) == [members[0].key] + Keys(members[1..]);
      r
  }

  function GetString(members: seq<Member>, key: string): Option<string> {
    match Lookup(members, key)
    case Some(String(s)) => Some(s)
    case _ => None
  }

  function GetBool(members: seq<Member>, key: string): Option<bool> {
    match Lookup(members, key)
    case Some(Bool(b)) => Some(b)
    case _ => None
  }

  lemma LookupFirst(m: Member, rest: seq<Member>)
    ensures Lookup([m] + rest, m.key) == Some(m.value)
  {
  }

  lemma LookupSkip(m: Member, rest: seq<Member>, key: string)
    requires m.key != key
    ensures Lookup([m] + rest, key) == Lookup(rest, key)
  {
  }
}
