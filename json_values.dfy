/**
 * The shape of the JSON documents that `encoding/json` produces for the error
 * types: values as in section 3 of RFC 8259, with integer numbers only.
 * Members keep the order in which the Go struct declares its fields; the byte
 * encoding (escaping, white space) is not modelled.
 */
module JsonValues {
  import opened Wrappers

  datatype JsonValue =
    | JString(str: string)
    | JNumber(num: int)
    | JArray(items: seq<JsonValue>)
    | JObject(members: seq<Member>)

  datatype Member = Member(name: string, value: JsonValue)

  /** The value of the first member called `name`, if any. */
  function Get(members: seq<Member>, name: string): (r: Option<JsonValue>)
  {
    if members == [] then None
    else if members[0].name == name then Some(members[0].value)
    else Get(members[1..], name)
  }

  /** A name is found exactly when some member carries it, and what is found is that member's value. */
  lemma {:induction false} GetFinds(members: seq<Member>, name: string)
    ensures Get(members, name).None? <==> forall m :: m in members ==> m.name != name
    ensures Get(members, name).Some? ==> Member(name, Get(members, name).value) in members
  {
    if members != [] {
      GetFinds(members[1..], name);
      assert forall m :: m in members ==> m == members[0] || m in members[1..];
    }
  }

  /**
   * Section 4 of RFC 8259: the names within an object SHOULD be unique.
   */
  predicate UniqueNames(members: seq<Member>)
  {
    forall i, j :: 0 <= i < j < |members| ==> members[i].name != members[j].name
  }

  /** Two member lists without repeated names and with no name in common concatenate to one without repeats. */
  lemma UniqueConcat(a: seq<Member>, b: seq<Member>)
    requires UniqueNames(a) && UniqueNames(b)
    requires forall m, n :: m in a && n in b ==> m.name != n.name
    ensures UniqueNames(a + b)
  {
    forall i, k | 0 <= i < k < |a + b| ensures (a + b)[i].name != (a + b)[k].name {
      if k < |a| {
      } else if i >= |a| {
        assert (a + b)[i] == b[i - |a|] && (a + b)[k] == b[k - |a|];
      } else {
        assert (a + b)[i] in a && (a + b)[k] == b[k - |a|] && b[k - |a|] in b;
      }
    }
  }

  /** A member tagged `omitempty`: present only when its string is not empty. */
  function OmitEmpty(name: string, s: string): (r: seq<Member>)
    ensures Get(r, name) == if s == "" then None else Some(JString(s))
    ensures forall m :: m in r ==> m.name == name
  {
    if s == "" then [] else [Member(name, JString(s))]
  }

  lemma {:induction false} GetAppend(a: seq<Member>, b: seq<Member>, name: string)
    ensures Get(a + b, name) == if Get(a, name).Some? then Get(a, name) else Get(b, name)
  {
    if a != [] {
      assert (a + b)[1..] == a[1..] + b;
      GetAppend(a[1..], b, name);
    } else {
      assert a + b == b;
    }
  }

  /** Looking a name up skips a prefix of members that do not carry it. */
  lemma GetSkip(a: seq<Member>, b: seq<Member>, name: string)
    requires forall m :: m in a ==> m.name != name
    ensures Get(a + b, name) == Get(b, name)
  {
    GetFinds(a, name);
    GetAppend(a, b, name);
  }
}
