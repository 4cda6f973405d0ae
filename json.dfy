/** An abstract JSON value: what the rule sees of a parsed reading document.
    Parsing, copying and allocation are not modelled; a deep copy of a value
    is the value itself. */
module Json {

  datatype Option<+T> = None | Some(value: T)

  datatype Value =
    | Null
    | Bool(b: bool)
    | Number(n: real)      // any JSON number; read back as a double
    | String(s: string)
    | Array(items: seq<Value>)
    | Object(members: seq<Member>)

  /** One member of an object, in document order (names may repeat). */
  datatype Member = Member(name: string, value: Value)

  /** Member lookup by name, as a document's HasMember/operator[] see it:
      the first member with that name, if any. */
  function Find(members: seq<Member>, name: string): (r: Option<Value>)
    ensures r.None? ==> forall i :: 0 <= i < |members| ==> members[i].name != name
    ensures |members| > 0 && members[0].name == name ==> r == Some(members[0].value)
  {
    if |members| == 0 then None
    else if members[0].name == name then Some(members[0].value)
    else Find(members[1..], name)
  }

  /** Find answers None exactly when no member has the name, and otherwise
      the value of the first member that has it. */
  lemma {:induction false} FindFirst(members: seq<Member>, name: string)
    ensures Find(members, name).None? <==> forall i :: 0 <= i < |members| ==> members[i].name != name
    ensures Find(members, name).Some? ==>
      exists i :: 0 <= i < |members| && members[i] == Member(name, Find(members, name).value)
                  && forall j :: 0 <= j < i ==> members[j].name != name
  {
    if |members| > 0 && members[0].name != name {
      var rest := members[1..];
      FindFirst(rest, name);
      assert forall i :: 0 <= i < |rest| ==> rest[i] == members[i + 1];
      if Find(rest, name).Some? {
        var i :| 0 <= i < |rest| && rest[i] == Member(name, Find(rest, name).value)
                 && forall j :: 0 <= j < i ==> rest[j].name != name;
        assert members[i + 1] == Member(name, Find(members, name).value);
      }
    }
  }
}
