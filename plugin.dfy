/** The plugin entry points of plugin.cpp: the trigger list, the evaluation of
    one parsed reading document, and the reason text. */
module Plugin {
  import opened Averages
  import opened Json
  import opened Rule

  // ---------------------------------------------------------------- plugin_triggers

  /** The text returned for a null handle or a rule without triggers. */
  const NoTriggers: string := "{\"triggers\" : []}"

  /** The entry written for one trigger asset. */
  function Entry(asset: string): string
  {
    "{ \"asset\"  : \"" + asset + "\"" + " }"
  }

  /** An entry opens with the asset key, quotes the asset name verbatim and
      closes the object; so two different assets never share an entry. */
  lemma EntryNamesAsset(asset: string, other: string)
    ensures "{ \"asset\"  : \"" <= Entry(asset)
    ensures |Entry(asset)| == 14 + |asset| + 3 && Entry(asset)[14..14 + |asset|] == asset
    ensures Entry(asset)[14 + |asset|..] == "\" }"
    ensures Entry(asset) == Entry(other) ==> asset == other
  {
    if Entry(asset) == Entry(other) {
      assert Entry(other)[14..14 + |other|] == other;
    }
  }

  /** The entries of `assets`, separated by ", ", with no trailing separator. */
  function Entries(assets: seq<string>): (r: string)
    ensures r == "" <==> assets == []
  {
    if |assets| == 0 then ""
    else if |assets| == 1 then Entry(assets[0])
    else Entries(assets[..|assets| - 1]) + ", " + Entry(assets[|assets| - 1])
  }

  /** The trigger document for the trigger assets in key order. */
  function TriggersDoc(assets: seq<string>): (r: string)
    ensures assets == [] ==> r == NoTriggers
    ensures assets != [] ==> "{\"triggers\" : [ " <= r
    ensures assets != [] ==> |r| >= 4 && r[|r| - 4..] == " ] }"
  {
    if assets == [] then NoTriggers
    else "{\"triggers\" : [ " + Entries(assets) + " ] }"
  }

  /** Joining two non-empty lists of assets puts exactly one separator between
      their entries. */
  lemma {:induction false} EntriesAppend(a: seq<string>, b: seq<string>)
    requires a != [] && b != []
    ensures Entries(a + b) == Entries(a) + ", " + Entries(b)
    decreases |b|
  {
    var ab := a + b;
    if |b| == 1 {
      assert ab[..|ab| - 1] == a;
    } else {
      var b' := b[..|b| - 1];
      assert ab[..|ab| - 1] == a + b';
      assert b[..|b| - 1] == b';
      EntriesAppend(a, b');
    }
  }

  /** Each asset contributes its entry: the entries of n assets are the entry
      of the first, then ", " and the entry of each of the others. */
  lemma {:induction false} EntriesCons(asset: string, rest: seq<string>)
    requires rest != []
    ensures Entries([asset] + rest) == Entry(asset) + ", " + Entries(rest)
  {
    EntriesAppend([asset], rest);
  }

  /** The entries of one more asset: its entry, after a separator unless it is the first. */
  lemma EntriesStep(assets: seq<string>, i: nat)
    requires i < |assets|
    ensures Entries(assets[..i + 1]) == Entries(assets[..i]) + (if i == 0 then "" else ", ") + Entry(assets[i])
  {
    assert assets[..i + 1][..i] == assets[..i];
    if i == 0 {
      assert Entries(assets[..0]) + "" + Entry(assets[0]) == Entry(assets[0]);
    }
  }

  /** plugin_triggers: a null handle or a rule without triggers gives the empty
      list; otherwise one entry per trigger asset, in key order. */
  method PluginTriggers(handle: DeltaRule?) returns (ret: string)
    ensures handle == null ==> ret == NoTriggers
    ensures handle != null ==> ret == TriggersDoc(handle.triggers)
  {
    if handle == null {
      return NoTriggers;
    }
    if handle.triggers == [] {
      return NoTriggers;
    }
    var assets := handle.triggers;
    ret := "{\"triggers\" : [ ";
    var i := 0;
    while i < |assets|
      invariant 0 <= i <= |assets|
      invariant ret == "{\"triggers\" : [ " + Entries(assets[..i]) + (if 0 < i < |assets| then ", " else "")
    {
      EntriesStep(assets, i);
      ret := ret + Entry(assets[i]);
      assert ret == "{\"triggers\" : [ " + Entries(assets[..i + 1]);
      if i + 1 < |assets| {
        ret := ret + ", ";
      }
      i := i + 1;
    }
    assert assets[..i] == assets;
    ret := ret + " ] }";
  }

  // ---------------------------------------------------------------- plugin_eval

  /** One call of the structured evaluate: a datapoint name and its value. */
  datatype Call = Call(datapoint: string, value: Value)

  predicate AllNumeric(calls: seq<Call>)
  {
    forall i :: 0 <= i < |calls| ==> calls[i].value.Number?
  }

  /** Every chosen member of an asset's object has a numeric value. */
  predicate NumericWhereChosen(members: seq<Member>, chosen: string -> bool)
  {
    forall j :: 0 <= j < |members| && chosen(members[j].name) ==> members[j].value.Number?
  }

  /** What plugin_eval needs of a parsed document to read one trigger asset:
      if present, it is an object whose chosen datapoints, and the document's
      timestamp_<asset> member if any, are numbers. */
  predicate ReadableAsset(doc: seq<Member>, asset: string, chosen: string -> bool)
  {
    match Find(doc, asset)
    case None => true
    case Some(v) =>
      && v.Object?
      && NumericWhereChosen(v.members, chosen)
      && (Find(doc, "timestamp_" + asset).Some? ==> Find(doc, "timestamp_" + asset).value.Number?)
  }

  /** Every trigger asset of the document is readable. */
  predicate Readable(doc: seq<Member>, triggers: seq<string>, chosen: string -> bool)
  {
    forall i :: 0 <= i < |triggers| ==> ReadableAsset(doc, triggers[i], chosen)
  }

  /** The evaluate calls made for the members of one asset's object, in member order. */
  function ChosenCalls(members: seq<Member>, chosen: string -> bool): (r: seq<Call>)
    ensures |r| <= |members|
    ensures forall i :: 0 <= i < |r| ==> chosen(r[i].datapoint)
    ensures forall i :: 0 <= i < |r| ==> Member(r[i].datapoint, r[i].value) in members
    ensures NumericWhereChosen(members, chosen) ==> AllNumeric(r)
  {
    if members == [] then []
    else
      var m := members[|members| - 1];
      var init := members[..|members| - 1];
      var r := ChosenCalls(init, chosen);
      assert forall x :: x in init ==> x in members;
      r + MemberCalls(m, chosen)
  }

  /** The evaluate call made for one member: one if it is chosen, none otherwise. */
  function MemberCalls(m: Member, chosen: string -> bool): seq<Call>
  {
    if chosen(m.name) then [Call(m.name, m.value)] else []
  }

  /** The evaluate calls made for one trigger asset: none when the document
      lacks it. */
  function AssetCalls(doc: seq<Member>, asset: string, chosen: string -> bool): (r: seq<Call>)
    ensures Find(doc, asset).None? ==> r == []
    ensures forall i :: 0 <= i < |r| ==> chosen(r[i].datapoint)
    ensures ReadableAsset(doc, asset, chosen) ==> AllNumeric(r)
  {
    match Find(doc, asset)
    case Some(Object(members)) => ChosenCalls(members, chosen)
    case _ => []
  }

  /** The evaluate calls plugin_eval makes, trigger asset by trigger asset. */
  function Calls(triggers: seq<string>, doc: seq<Member>, chosen: string -> bool): (r: seq<Call>)
    ensures forall i :: 0 <= i < |r| ==> chosen(r[i].datapoint)
    ensures (forall i :: 0 <= i < |triggers| ==> Find(doc, triggers[i]).None?) ==> r == []
    ensures Readable(doc, triggers, chosen) ==> AllNumeric(r)
  {
    if triggers == [] then []
    else
      var init := triggers[..|triggers| - 1];
      assert forall i :: 0 <= i < |init| ==> init[i] == triggers[i];
      Calls(init, doc, chosen) + AssetCalls(doc, triggers[|triggers| - 1], chosen)
  }

  /** The structured evaluate applied to each call in turn: the OR of the
      results and the maps afterwards. Every call is made, also after a true. */
  function ObserveAll(o: Observations, calls: seq<Call>): (r: (bool, Observations))
    requires AllNumeric(calls)
    ensures o.lastValue.Keys <= r.1.lastValue.Keys
    ensures forall i :: 0 <= i < |calls| ==> calls[i].datapoint in r.1.lastValue
    ensures calls != [] ==> r.1.lastValue[calls[|calls| - 1].datapoint] == calls[|calls| - 1].value.n
    ensures r.0 ==> calls != []
  {
    if calls == [] then (false, o)
    else
      assert forall i :: 0 <= i < |calls| - 1 ==> calls[..|calls| - 1][i] == calls[i];
      var p := ObserveAll(o, calls[..|calls| - 1]);
      var q := Observe(p.1, calls[|calls| - 1].datapoint, calls[|calls| - 1].value);
      (p.0 || q.0, q.1)
  }

  /** How many of the calls are for `datapoint`. */
  function Count(calls: seq<Call>, datapoint: string): nat
  {
    if calls == [] then 0
    else Count(calls[..|calls| - 1], datapoint) + (if calls[|calls| - 1].datapoint == datapoint then 1 else 0)
  }

  /** How many members are named `name`. */
  function Named(members: seq<Member>, name: string): nat
  {
    if members == [] then 0
    else Named(members[..|members| - 1], name) + (if members[|members| - 1].name == name then 1 else 0)
  }

  /** How many members named `name` the objects of the trigger assets present
      in the document hold, together. */
  function NamedInAssets(triggers: seq<string>, doc: seq<Member>, name: string): nat
  {
    if triggers == [] then 0
    else
      NamedInAssets(triggers[..|triggers| - 1], doc, name)
      + match Find(doc, triggers[|triggers| - 1])
        case Some(Object(members)) => Named(members, name)
        case _ => 0
  }

  lemma {:induction false} CountAppend(a: seq<Call>, b: seq<Call>, d: string)
    ensures Count(a + b, d) == Count(a, d) + Count(b, d)
    decreases |b|
  {
    if b == [] {
      assert a + b == a;
    } else {
      assert (a + b)[..|a + b| - 1] == a + b[..|b| - 1];
      CountAppend(a, b[..|b| - 1], d);
    }
  }

  /** Each chosen datapoint is evaluated once per member with its name, and
      an unchosen one never. */
  lemma {:induction false} ChosenCallsCount(members: seq<Member>, chosen: string -> bool, d: string)
    ensures Count(ChosenCalls(members, chosen), d) == if chosen(d) then Named(members, d) else 0
  {
    if members != [] {
      var init, m := members[..|members| - 1], members[|members| - 1];
      ChosenCallsCount(init, chosen, d);
      CountAppend(ChosenCalls(init, chosen), MemberCalls(m, chosen), d);
      assert MemberCalls(m, chosen) == [] || MemberCalls(m, chosen)[..0] == [];
    }
  }

  /** Over the whole document, each chosen datapoint is evaluated once per
      member with its name in a present trigger asset's object. */
  lemma {:induction false} CallsCount(triggers: seq<string>, doc: seq<Member>, chosen: string -> bool, d: string)
    ensures Count(Calls(triggers, doc, chosen), d) == if chosen(d) then NamedInAssets(triggers, doc, d) else 0
  {
    if triggers != [] {
      var init, asset := triggers[..|triggers| - 1], triggers[|triggers| - 1];
      CallsCount(init, doc, chosen, d);
      CountAppend(Calls(init, doc, chosen), AssetCalls(doc, asset, chosen), d);
      match Find(doc, asset)
      case Some(Object(members)) => ChosenCallsCount(members, chosen, d);
      case _ =>
    }
  }

  /** The calls for one more member: those for the members before it, then its own. */
  lemma ChosenCallsStep(entries: seq<Member>, j: nat, chosen: string -> bool)
    requires j < |entries|
    ensures ChosenCalls(entries[..j + 1], chosen) == ChosenCalls(entries[..j], chosen) + MemberCalls(entries[j], chosen)
  {
    assert entries[..j + 1][..j] == entries[..j];
  }

  /** The calls for the first n members come first among all the calls. */
  lemma {:induction false} ChosenCallsPrefix(members: seq<Member>, chosen: string -> bool, n: nat)
    requires n <= |members|
    ensures ChosenCalls(members[..n], chosen) <= ChosenCalls(members, chosen)
  {
    if n == |members| {
      assert members[..n] == members;
    } else {
      var init := members[..|members| - 1];
      assert init[..n] == members[..n];
      ChosenCallsPrefix(init, chosen, n);
    }
  }

  /** Every chosen member is evaluated, in member order: after the calls for
      the members before it. */
  lemma ChosenCallsComplete(members: seq<Member>, chosen: string -> bool, j: nat)
    requires j < |members| && chosen(members[j].name)
    ensures ChosenCalls(members[..j], chosen) + [Call(members[j].name, members[j].value)] <= ChosenCalls(members, chosen)
    ensures Call(members[j].name, members[j].value) in ChosenCalls(members, chosen)
  {
    ChosenCallsPrefix(members, chosen, j + 1);
    ChosenCallsStep(members, j, chosen);
    var pre := ChosenCalls(members[..j], chosen) + [Call(members[j].name, members[j].value)];
    assert pre[|pre| - 1] == Call(members[j].name, members[j].value);
  }

  /** The calls for one more trigger asset: those for the assets before it, then its own. */
  lemma CallsStep(triggers: seq<string>, i: nat, doc: seq<Member>, chosen: string -> bool)
    requires i < |triggers|
    ensures Calls(triggers[..i + 1], doc, chosen) == Calls(triggers[..i], doc, chosen) + AssetCalls(doc, triggers[i], chosen)
  {
    assert triggers[..i + 1][..i] == triggers[..i];
  }

  /** The calls for the first n trigger assets come first among all the calls. */
  lemma {:induction false} CallsPrefix(triggers: seq<string>, doc: seq<Member>, chosen: string -> bool, n: nat)
    requires n <= |triggers|
    ensures Calls(triggers[..n], doc, chosen) <= Calls(triggers, doc, chosen)
  {
    if n == |triggers| {
      assert triggers[..n] == triggers;
    } else {
      var init := triggers[..|triggers| - 1];
      assert init[..n] == triggers[..n];
      CallsPrefix(init, doc, chosen, n);
    }
  }

  /** The calls for each trigger asset follow those of the assets before it. */
  lemma CallsOrder(triggers: seq<string>, doc: seq<Member>, chosen: string -> bool, i: nat)
    requires i < |triggers|
    ensures Calls(triggers[..i], doc, chosen) + AssetCalls(doc, triggers[i], chosen) <= Calls(triggers, doc, chosen)
  {
    CallsPrefix(triggers, doc, chosen, i + 1);
    CallsStep(triggers, i, doc, chosen);
  }

  /** Every chosen member of every trigger asset present in the document is evaluated. */
  lemma CallsComplete(triggers: seq<string>, doc: seq<Member>, chosen: string -> bool, i: nat, members: seq<Member>, j: nat)
    requires i < |triggers| && Find(doc, triggers[i]) == Some(Object(members))
    requires j < |members| && chosen(members[j].name)
    ensures Call(members[j].name, members[j].value) in Calls(triggers, doc, chosen)
  {
    CallsOrder(triggers, doc, chosen, i);
    ChosenCallsComplete(members, chosen, j);
    var before, own := Calls(triggers[..i], doc, chosen), ChosenCalls(members, chosen);
    var k :| 0 <= k < |own| && own[k] == Call(members[j].name, members[j].value);
    assert (before + own)[|before| + k] == own[k];
  }

  /** A batch of evaluate calls moves each datapoint forward one phase per call,
      up to the snapshot phase, and keeps the snapshots among the recorded
      datapoints. */
  lemma {:induction false} ObserveAllPhases(o: Observations, calls: seq<Call>)
    requires WellFormed(o) && AllNumeric(calls)
    ensures WellFormed(ObserveAll(o, calls).1)
    ensures forall d :: Phase(ObserveAll(o, calls).1, d) == Min(2, Phase(o, d) + Count(calls, d))
  {
    if calls != [] {
      var init, c := calls[..|calls| - 1], calls[|calls| - 1];
      ObserveAllPhases(o, init);
      ObservePhases(ObserveAll(o, init).1, c.datapoint, c.value);
    }
  }

  /** The OR of a batch of evaluate calls is true exactly when some datapoint
      has been seen, over all time, at least three times. */
  lemma {:induction false} ObserveAllTriggers(o: Observations, calls: seq<Call>)
    requires WellFormed(o) && AllNumeric(calls)
    ensures ObserveAll(o, calls).0 <==> exists d :: Phase(o, d) + Count(calls, d) >= 3
  {
    if calls != [] {
      var init, c := calls[..|calls| - 1], calls[|calls| - 1];
      ObserveAllTriggers(o, init);
      ObserveAllPhases(o, init);
      var p := ObserveAll(o, init);
      var q := Observe(p.1, c.datapoint, c.value);
      ObservePhases(p.1, c.datapoint, c.value);
      assert ObserveAll(o, calls) == (p.0 || q.0, q.1);
      assert forall d :: Count(calls, d) == Count(init, d) + (if d == c.datapoint then 1 else 0);
      if ObserveAll(o, calls).0 {
        if p.0 {
          var d :| Phase(o, d) + Count(init, d) >= 3;
          assert Phase(o, d) + Count(calls, d) >= 3;
        } else {
          assert Phase(o, c.datapoint) + Count(calls, c.datapoint) >= 3;
        }
      }
      if exists d :: Phase(o, d) + Count(calls, d) >= 3 {
        var d :| Phase(o, d) + Count(calls, d) >= 3;
        if d != c.datapoint {
          assert Phase(o, d) + Count(init, d) >= 3;
        }
      }
    }
  }

  /** What plugin_eval does to a datapoint, in terms of the document: a chosen
      datapoint moves one phase forward per member with its name in the
      objects of the present trigger assets; an unchosen one is untouched. */
  lemma DocumentPhases(o: Observations, triggers: seq<string>, doc: seq<Member>, chosen: string -> bool, d: string)
    requires WellFormed(o) && Readable(doc, triggers, chosen)
    ensures Phase(ObserveAll(o, Calls(triggers, doc, chosen)).1, d)
      == Min(2, Phase(o, d) + if chosen(d) then NamedInAssets(triggers, doc, d) else 0)
  {
    ObserveAllPhases(o, Calls(triggers, doc, chosen));
    CallsCount(triggers, doc, chosen, d);
  }

  /** plugin_eval returns true exactly when some chosen datapoint reaches its
      third reading, counting the members with its name in the document. */
  lemma DocumentTriggers(o: Observations, triggers: seq<string>, doc: seq<Member>, chosen: string -> bool)
    requires WellFormed(o) && Readable(doc, triggers, chosen)
    ensures ObserveAll(o, Calls(triggers, doc, chosen)).0
      <==> exists d :: chosen(d) && Phase(o, d) + NamedInAssets(triggers, doc, d) >= 3
  {
    var calls := Calls(triggers, doc, chosen);
    ObserveAllTriggers(o, calls);
    if ObserveAll(o, calls).0 {
      var d :| Phase(o, d) + Count(calls, d) >= 3;
      CallsCount(triggers, doc, chosen, d);
      assert chosen(d) && Phase(o, d) + NamedInAssets(triggers, doc, d) >= 3;
    }
    if exists d :: chosen(d) && Phase(o, d) + NamedInAssets(triggers, doc, d) >= 3 {
      var d :| chosen(d) && Phase(o, d) + NamedInAssets(triggers, doc, d) >= 3;
      CallsCount(triggers, doc, chosen, d);
      assert Phase(o, d) + Count(calls, d) >= 3;
    }
  }

  /** The asset is present in the document with a numeric timestamp_<asset> member. */
  predicate Stamped(doc: seq<Member>, asset: string)
  {
    Find(doc, asset).Some? && Find(doc, "timestamp_" + asset).Some? && Find(doc, "timestamp_" + asset).value.Number?
  }

  /** The evaluation timestamp after one trigger asset: its timestamp_<asset>
      number when the asset is present and has one, else unchanged. */
  function TimestampAfter(doc: seq<Member>, asset: string, before: real): (t: real)
    ensures !Stamped(doc, asset) ==> t == before
    ensures Stamped(doc, asset) ==> t == Find(doc, "timestamp_" + asset).value.n
  {
    if Find(doc, asset).None? then before
    else match Find(doc, "timestamp_" + asset)
      case Some(Number(n)) => n
      case _ => before
  }

  /** The evaluation timestamp after plugin_eval: the timestamp_<asset> number of
      the last trigger asset present with such a member, else unchanged. */
  function LastTimestamp(triggers: seq<string>, doc: seq<Member>, previous: real): (t: real)
    ensures (forall i :: 0 <= i < |triggers| ==> !Stamped(doc, triggers[i])) ==> t == previous
  {
    if triggers == [] then previous
    else
      var init := triggers[..|triggers| - 1];
      assert forall i :: 0 <= i < |init| ==> init[i] == triggers[i];
      TimestampAfter(doc, triggers[|triggers| - 1], LastTimestamp(init, doc, previous))
  }

  /** The timestamp after one more trigger asset: the timestamp before it, then its own. */
  lemma TimestampStep(triggers: seq<string>, i: nat, doc: seq<Member>, previous: real)
    requires i < |triggers|
    ensures LastTimestamp(triggers[..i + 1], doc, previous) == TimestampAfter(doc, triggers[i], LastTimestamp(triggers[..i], doc, previous))
  {
    assert triggers[..i + 1][..i] == triggers[..i];
  }

  /** The timestamp taken is that of the last trigger asset that is stamped:
      a later asset's number overwrites an earlier one's. */
  lemma {:induction false} LastTimestampIsLastStamped(triggers: seq<string>, doc: seq<Member>, previous: real, i: nat)
    requires i < |triggers| && Stamped(doc, triggers[i])
    requires forall k :: i < k < |triggers| ==> !Stamped(doc, triggers[k])
    ensures LastTimestamp(triggers, doc, previous) == Find(doc, "timestamp_" + triggers[i]).value.n
  {
    var n := |triggers| - 1;
    if i < n {
      var init := triggers[..n];
      assert !Stamped(doc, triggers[n]);
      assert forall k :: i < k < |init| ==> init[k] == triggers[k];
      LastTimestampIsLastStamped(init, doc, previous, i);
    }
  }

  /** Running two batches one after the other is running their concatenation. */
  lemma {:induction false} ObserveAllAppend(o: Observations, a: seq<Call>, b: seq<Call>)
    requires AllNumeric(a) && AllNumeric(b)
    ensures AllNumeric(a + b)
    ensures ObserveAll(o, a + b) ==
      var p := ObserveAll(o, a);
      var q := ObserveAll(p.1, b);
      (p.0 || q.0, q.1)
    decreases |b|
  {
    if b != [] {
      var b', c := b[..|b| - 1], b[|b| - 1];
      assert (a + b)[..|a + b| - 1] == a + b';
      ObserveAllAppend(o, a, b');
    } else {
      assert a + b == a;
    }
  }

  /** One member of an asset's object: evaluated when it is chosen. */
  method EvaluateMember(rule: DeltaRule, asset: string, m: Member, chosen: string -> bool) returns (r: bool)
    requires rule.Valid() && (chosen(m.name) ==> m.value.Number?)
    modifies rule
    ensures rule.Valid() && AllNumeric(MemberCalls(m, chosen))
    ensures rule.deltas == old(rule.deltas) && rule.Cfg() == old(rule.Cfg()) && rule.triggers == old(rule.triggers)
    ensures rule.state == old(rule.state) && rule.evalTimestamp == old(rule.evalTimestamp)
    ensures (r, rule.Observed()) == ObserveAll(old(rule.Observed()), MemberCalls(m, chosen))
  {
    if !chosen(m.name) {
      return false;
    }
    r := rule.EvaluateValue(asset, m.name, m.value);
    assert MemberCalls(m, chosen)[..0] == [];
  }

  /** The inner loop of plugin_eval over the members of one trigger asset's
      object: evaluates each chosen datapoint and ORs the results; every call
      is made, whatever the results before it. */
  method EvaluateAsset(rule: DeltaRule, asset: string, entries: seq<Member>, chosen: string -> bool) returns (any: bool)
    requires rule.Valid() && NumericWhereChosen(entries, chosen)
    modifies rule
    ensures rule.Valid()
    ensures rule.deltas == old(rule.deltas) && rule.Cfg() == old(rule.Cfg()) && rule.triggers == old(rule.triggers)
    ensures rule.state == old(rule.state) && rule.evalTimestamp == old(rule.evalTimestamp)
    ensures (any, rule.Observed()) == ObserveAll(old(rule.Observed()), ChosenCalls(entries, chosen))
  {
    ghost var o0 := rule.Observed();
    any := false;
    var j := 0;
    while j < |entries|
      invariant 0 <= j <= |entries|
      invariant rule.Valid()
      invariant rule.deltas == old(rule.deltas) && rule.Cfg() == old(rule.Cfg()) && rule.triggers == old(rule.triggers)
      invariant rule.state == old(rule.state) && rule.evalTimestamp == old(rule.evalTimestamp)
      invariant AllNumeric(ChosenCalls(entries[..j], chosen))
      invariant (any, rule.Observed()) == ObserveAll(o0, ChosenCalls(entries[..j], chosen))
    {
      ghost var done := ChosenCalls(entries[..j], chosen);
      ChosenCallsStep(entries, j, chosen);
      var r := EvaluateMember(rule, asset, entries[j], chosen);
      ObserveAllAppend(o0, done, MemberCalls(entries[j], chosen));
      any := any || r;
      j := j + 1;
    }
    assert entries[..j] == entries;
  }

  /** The body of plugin_eval's loop for one trigger asset: when the document
      holds the asset, its chosen datapoints are evaluated and the evaluation
      timestamp is taken from timestamp_<asset> if the document has it. */
  method EvaluateTrigger(rule: DeltaRule, doc: seq<Member>, asset: string, chosen: string -> bool) returns (any: bool)
    requires rule.Valid() && ReadableAsset(doc, asset, chosen)
    modifies rule
    ensures rule.Valid() && AllNumeric(AssetCalls(doc, asset, chosen))
    ensures rule.deltas == old(rule.deltas) && rule.Cfg() == old(rule.Cfg()) && rule.triggers == old(rule.triggers)
    ensures rule.state == old(rule.state)
    ensures (any, rule.Observed()) == ObserveAll(old(rule.Observed()), AssetCalls(doc, asset, chosen))
    ensures rule.evalTimestamp == TimestampAfter(doc, asset, old(rule.evalTimestamp))
  {
    var found := Find(doc, asset);
    if found.None? {
      return false;
    }
    var entries := found.value.members;
    any := EvaluateAsset(rule, asset, entries, chosen);
    var stamp := Find(doc, "timestamp_" + asset);
    if stamp.Some? {
      rule.SetEvalTimestamp(stamp.value.n);
    }
  }

  /** plugin_eval: an unparseable document (None) gives false and changes
      nothing. Otherwise every chosen datapoint of every trigger asset present
      in the document is evaluated, the result is the OR of those evaluations,
      the rule state is set to it and the timestamp is taken from the document. */
  method PluginEval(rule: DeltaRule, doc: Option<Value>, chosen: string -> bool) returns (eval: bool)
    requires rule.Valid()
    requires doc.Some? ==> doc.value.Object? && Readable(doc.value.members, rule.triggers, chosen)
    modifies rule
    ensures rule.Valid()
    ensures rule.deltas == old(rule.deltas) && rule.Cfg() == old(rule.Cfg()) && rule.triggers == old(rule.triggers)
    ensures doc.None? ==> !eval && rule.Observed() == old(rule.Observed())
    ensures doc.None? ==> rule.state == old(rule.state) && rule.evalTimestamp == old(rule.evalTimestamp)
    ensures doc.Some? ==>
      && (eval, rule.Observed()) == ObserveAll(old(rule.Observed()), Calls(rule.triggers, doc.value.members, chosen))
      && rule.state == eval
      && rule.evalTimestamp == LastTimestamp(rule.triggers, doc.value.members, old(rule.evalTimestamp))
  {
    if doc.None? {
      return false;
    }
    var members := doc.value.members;
    var triggers := rule.triggers;
    ghost var o0 := rule.Observed();
    ghost var t0 := rule.evalTimestamp;
    eval := false;
    var i := 0;
    while i < |triggers|
      invariant 0 <= i <= |triggers|
      invariant rule.Valid()
      invariant rule.deltas == old(rule.deltas) && rule.Cfg() == old(rule.Cfg()) && rule.triggers == triggers
      invariant AllNumeric(Calls(triggers[..i], members, chosen))
      invariant (eval, rule.Observed()) == ObserveAll(o0, Calls(triggers[..i], members, chosen))
      invariant rule.evalTimestamp == LastTimestamp(triggers[..i], members, t0)
    {
      ghost var done := Calls(triggers[..i], members, chosen);
      CallsStep(triggers, i, members, chosen);
      TimestampStep(triggers, i, members, t0);
      var any := EvaluateTrigger(rule, members, triggers[i], chosen);
      ObserveAllAppend(o0, done, AssetCalls(members, triggers[i], chosen));
      eval := eval || any;
      i := i + 1;
    }
    assert triggers[..i] == triggers;
    rule.SetState(eval);
  }

  /** When no trigger asset is present in the document, plugin_eval evaluates
      nothing, returns false and leaves what the rule has observed as it was. */
  lemma NoPresentAssetNoEvaluation(o: Observations, triggers: seq<string>, doc: seq<Member>, chosen: string -> bool)
    requires forall i :: 0 <= i < |triggers| ==> Find(doc, triggers[i]).None?
    ensures Calls(triggers, doc, chosen) == []
    ensures ObserveAll(o, Calls(triggers, doc, chosen)) == (false, o)
  {
  }

  // ---------------------------------------------------------------- plugin_reason

  /** The opening of the reason text, naming the rule state. */
  function ReasonHead(triggered: bool): string
  {
    "{ \"reason\": \"" + (if triggered then "triggered" else "cleared") + "\""
  }

  /** The reason text for a rule state, the assets text and UTC timestamp text
      of the base rule, and the evaluation timestamp. */
  function Reason(triggered: bool, assets: string, evalTimestamp: real, utc: string): (r: string)
    ensures ReasonHead(triggered) <= r
    ensures |r| >= 2 && r[|r| - 2..] == " }"
    ensures evalTimestamp == 0.0 ==> r == ReasonHead(triggered) + ", \"asset\": " + assets + " }"
    ensures evalTimestamp != 0.0 ==>
      r == ReasonHead(triggered) + ", \"asset\": " + assets + ", \"timestamp\": \"" + utc + "\"" + " }"
  {
    var ret := ReasonHead(triggered) + ", \"asset\": " + assets;
    var ret := if evalTimestamp != 0.0 then ret + ", \"timestamp\": \"" + utc + "\"" else ret;
    ret + " }"
  }

  /** The reason text tells the two rule states apart. */
  lemma ReasonNamesState(a: bool, b: bool, assets: string, evalTimestamp: real, utc: string)
    requires Reason(a, assets, evalTimestamp, utc) == Reason(b, assets, evalTimestamp, utc)
    ensures a == b
  {
  }

  /** plugin_reason for a rule: its state and evaluation timestamp decide the text. */
  function PluginReason(rule: DeltaRule, assets: string, utc: string): (r: string)
    reads rule
    ensures rule.state ==> "{ \"reason\": \"triggered\"" <= r
    ensures !rule.state ==> "{ \"reason\": \"cleared\"" <= r
  {
    Reason(rule.state, assets, rule.evalTimestamp, utc)
  }
}
