# Delta notification rule — a verified Dafny model

The delta rule is a notification rule plugin. For every datapoint of its
trigger asset it keeps a moving baseline, the "delta": a simple moving average
(SMA) or an exponential one (EMA) with a configurable factor. Its numeric
evaluate triggers when a reading's percentage deviation from that baseline
exceeds the configured threshold. The direction can be "Both", "Above Delta"
or "Below Delta". The plugin entry points list the trigger assets, evaluate a
reading document, and produce the reason text for the notification.

`plugin_eval` does not reach the numeric evaluate. It passes each reading
as a document value (plugin.cpp:204). That selects the structured overload
(delta.cpp:146), the only `evaluate` the header declares
(include/delta.h:37). The structured overload ignores the threshold, the
direction and the trackers. Through `plugin_eval`, a datapoint triggers on
its third reading and on every reading after that, whatever the values. The
deviation decision and the `Deltas` trackers (delta.cpp:90-144) are
modelled and proved in their own right, but no plugin entry point calls
them.

The model has four modules:

- `Json` (json.dfy): an abstract parsed document. It has member lookup by
  name, which finds the first member with that name, as `HasMember` and
  `operator[]` do.
- `Averages` (averages.dfy): the accumulator `Deltas`, a class whose
  `AddValue` and `SetDeltaType` update its fields in place. `AddValue` is
  proved against a value-level step function, `Step`. `SetDeltaType` is
  proved against a record update that changes the type and factor only. The
  lemmas about runs of steps cover these facts:
  - SMA keeps the arithmetic mean.
  - With SMA, or EMA with a factor of at least 1 (`Converges`), every
    baseline stays within the range of its readings. A negative EMA factor
    moves the baseline away from the reading: baseline 4, reading 6 and
    factor −2 give 3.
  - Repeated readings leave the baseline where it is.
- `Rule` (rule.dfy): the class `DeltaRule`. It holds configuration, one
  tracker per datapoint, the two maps of the structured evaluate, the
  trigger list, the rule state and the evaluation timestamp.
  - `Configure`, `EvaluateReal`, `EvaluateLong` and `EvaluateValue` change
    the object. Each is proved equal to a function on values:
    `Retyped`/`SetDeltaTypes`, `EvaluateNumber` and `Observe`.
  - Lemmas state what those functions mean: the trigger decision, the
    relative-jump reading of "Both", and the three phases of the structured
    evaluate.
- `Plugin` (plugin.dfy):
  - `plugin_triggers` is a loop building the trigger text, proved equal to
    `TriggersDoc`.
  - `plugin_eval` is a pair of nested loops. They are proved equal to
    running `Observe` over the calls the document selects. The result is
    their OR, and the rule state and timestamp are set accordingly.
  - `plugin_reason` is a pure function.

Modelling decisions:

- Readings are real numbers. IEEE-754 appears in one place only. When the
  baseline is exactly 0, the deviation is the infinity or NaN that the
  division produces (`Deviation`), and the three directions compare it as
  C++ does.
- The numeric evaluate requires `AveragingSound`: SMA, or EMA with a
  non-zero factor. With factor 0, `addValue` would divide by zero.
- The rule holds its trackers as values, in a `map<string, Tracker>`. Each
  update in place is the step that `Deltas.AddValue` and
  `Deltas.SetDeltaType` are proved to perform. No tracker pointer is ever
  shared or exposed, so nothing observable depends on their identity.
- The header declares `m_lastvalue` as a map of documents. The
  implementation uses it as a map of doubles, plus a second map `m_lv` of
  document snapshots. The model follows the implementation:
  `lastValue: map<string, real>` and `lastDocument: map<string, Value>`.
- A comment in plugin_eval says the result is true only if all assets
  returned true. The code ORs the results (`eval |=`). The model follows
  the code.
- The trigger map is modelled as its keys in key order, `triggers`.
  `configure` removes all triggers and adds the configured asset, so
  `Configure` leaves exactly `[asset]`.
- `chosenDatapoint` is a parameter `chosen: string -> bool`. The base
  rule's asset text and UTC timestamp text are string parameters of
  `PluginReason`. A document that fails to parse is `None`.
- New trackers are typed before their first reading. The source does it the
  other way round (see Findings).

## Model

| member | source | states |
|---|---|---|
| Json.Find | plugin.cpp:194-197 | a lookup that finds nothing means no member has the name; when the first member has the name, its value is found |
| Json.FindFirst | plugin.cpp:194-197 | a lookup by name fails exactly when no member has the name; otherwise it yields the value of the first member with that name |
| Averages.Min | include/delta.h:23 | the result is one of the two arguments and no larger than either |
| Averages.Divisor | include/delta.h:54-55 | SMA divides by the sample count; EMA divides by the count capped at the factor, so the factor once the count reaches it; the divisor is at least 1 for SMA or a factor of at least 1 |
| Averages.Fresh | include/delta.h:49 | a new tracker has baseline 0 and no samples |
| Averages.Step | include/delta.h:51-57 | one sample more, with type and factor kept; the baseline moves by (value − baseline)/divisor; a reading equal to the baseline leaves it; with divisor 1 the baseline becomes the reading |
| Averages.Run | include/delta.h:51-57 | after n readings the count has grown by n, and type and factor are unchanged |
| Averages.SmaStepTotal | include/delta.h:51-57 | in SMA mode one step adds the reading to baseline × count |
| Averages.SmaRunTotal | include/delta.h:51-57 | in SMA mode baseline × count grows by exactly the sum of the readings |
| Averages.SmaIsMean | include/delta.h:51-57 | in SMA mode a fresh tracker's baseline after n ≥ 1 readings is their arithmetic mean |
| Averages.StepBetween | include/delta.h:51-57 | with a divisor of at least 1, a step moves the baseline towards the reading without overshooting |
| Averages.RunWithin | include/delta.h:51-57 | once a tracker has seen a value, its baseline stays within any range containing its old baseline and every reading (SMA, or EMA with factor ≥ 1) |
| Averages.RepeatedValueKeepsBaseline | include/delta.h:51-57 | a run of identical readings leaves the baseline at that reading |
| Averages.Deltas.constructor | include/delta.h:49 | the new tracker has baseline 0 and no samples |
| Averages.Deltas.AddValue | include/delta.h:51-57 | the tracker's new state is `Step` of its old state |
| Averages.Deltas.Delta | include/delta.h:58 | returns the current baseline |
| Averages.Deltas.SetDeltaType | include/delta.h:59-63 | sets type and factor; baseline and count are untouched |
| Rule.DeviationOf | delta.cpp:120 | for a non-zero baseline, the percentage p with p × baseline = (value − baseline) × 100; for a zero baseline, +∞, −∞ or NaN by the sign of the reading |
| Rule.Triggered | delta.cpp:121-133 | "Both" compares \|p\|, "Above Delta" compares p and "Below Delta" compares −p against the threshold; +∞ triggers "Both" and "Above Delta", −∞ triggers "Both" and "Below Delta"; any other direction and NaN never trigger |
| Rule.BothIsAboveOrBelow | delta.cpp:121-133 | "Both" triggers exactly when "Above Delta" or "Below Delta" would |
| Rule.BothMeansRelativeJump | delta.cpp:120-124 | for a non-zero baseline B, "Both" triggers iff \|V − B\| × 100 > T × \|B\| |
| Rule.DirectionFollowsSign | delta.cpp:120-133 | with a positive baseline and a non-negative threshold, "Above Delta" fires only on a rise and "Below Delta" only on a fall |
| Rule.AveTypeOf | delta.cpp:64-72 | SMA exactly when deltaType is "Simple Moving Delta", else EMA |
| Rule.Retyped | delta.cpp:74-77 | the same datapoints, each with baseline and count kept and the new type and factor |
| Rule.SetDeltaTypes | delta.cpp:74-77 | the loop over the trackers yields `Retyped` of them |
| Rule.Seed | delta.cpp:110-117 | a new tracker has one sample and the rule's type and factor; its baseline is the reading when the divisor is 1 (a negative EMA factor scales it) |
| Rule.SeedAsWritten | delta.cpp:112-114 | addValue before setDeltaType: the first reading is divided by the divisor of the tracker's unset type and factor |
| Rule.SeedAsWrittenAgrees | delta.cpp:112-114 | when the unset fields give divisor 1, the as-written order creates the same tracker as `Seed` |
| Rule.SeedAsWrittenMissesReading | delta.cpp:112-114 | unset fields reading as EMA with factor −2 turn a first reading 4 into the baseline −2 |
| Rule.EvaluateNumberSpec | delta.cpp:106-144 | a first reading creates the tracker and does not trigger; a later one steps that tracker and decides on the deviation from the baseline held before; no other tracker changes; all trackers keep the rule's type and factor |
| Rule.EvaluateNumbers | delta.cpp:106-144 | repeated evaluation keeps every tracker typed by the rule and creates the datapoint's tracker |
| Rule.EvaluateNumber | delta.cpp:106-144 | afterwards the datapoint has a tracker and no tracker is lost; a first reading never triggers and starts a one-sample tracker; a later reading adds one sample to the datapoint's tracker; the other trackers are unchanged |
| Rule.RepeatedReadingsNeverTrigger | delta.cpp:106-144 | identical readings never trigger for a non-negative threshold in any direction (SMA, or EMA with factor ≥ 1); a zero reading gives NaN, which never triggers |
| Rule.Observe | delta.cpp:146-222 | the reading is always recorded; the snapshot is taken or replaced once the datapoint was seen before; a true result needs an existing snapshot |
| Rule.ObservePhases | delta.cpp:146-222 | each call moves its datapoint one phase forward (unseen, seen, snapshot), leaves other datapoints alone, and returns true exactly in the snapshot phase: false, false, then always true |
| Rule.DeltaRule.constructor | delta.cpp:32-34 | no trackers, nothing observed, no triggers |
| Rule.DeltaRule.Configure | delta.cpp:48-78 | triggers become [asset]; threshold, direction, type and factor are set; the trackers become `Retyped`; the observed maps, state and timestamp are unchanged |
| Rule.DeltaRule.SetState | plugin.cpp:218 | the state becomes the given outcome and nothing else changes |
| Rule.DeltaRule.SetEvalTimestamp | plugin.cpp:212 | the evaluation timestamp becomes the given one and nothing else changes |
| Rule.DeltaRule.EvaluateReal | delta.cpp:106-144 | result and trackers are those of `EvaluateNumber` on the old state; nothing else changes |
| Rule.DeltaRule.EvaluateLong | delta.cpp:90-93 | the same as evaluating the reading converted to a real |
| Rule.DeltaRule.EvaluateValue | delta.cpp:146-222 | result and observed maps are those of `Observe` on the old state; nothing else changes |
| Plugin.TriggersDoc | plugin.cpp:121-163 | no triggers give `{"triggers" : []}`; otherwise the text opens with `{"triggers" : [ ` and ends with ` ] }` |
| Plugin.EntryNamesAsset | plugin.cpp:148-149 | an entry opens with the asset key, holds the asset name verbatim and closes the object, so different assets give different entries |
| Plugin.Entries | plugin.cpp:144-155 | the entry list is empty exactly when there are no trigger assets |
| Plugin.EntriesAppend | plugin.cpp:145-157 | joining two non-empty asset lists puts exactly one ", " between their entries |
| Plugin.EntriesCons | plugin.cpp:145-157 | the entries are the first asset's entry, then ", " and the entries of the rest |
| Plugin.EntriesStep | plugin.cpp:145-157 | each further asset adds a separator (unless it is the first) and its entry |
| Plugin.PluginTriggers | plugin.cpp:121-163 | a null handle or an empty trigger list gives the empty list text; otherwise the text is `TriggersDoc` of the trigger assets |
| Plugin.ChosenCalls | plugin.cpp:199-206 | only chosen members are evaluated, each with its own name and value, and all numeric when the chosen members are |
| Plugin.ChosenCallsCount | plugin.cpp:199-206 | each chosen datapoint is evaluated once per member with its name, and an unchosen one never |
| Plugin.ChosenCallsPrefix | plugin.cpp:199-206 | the calls for the first n members come first among all the calls |
| Plugin.ChosenCallsComplete | plugin.cpp:199-206 | every chosen member is evaluated with its own value, right after the calls for the members before it |
| Plugin.AssetCalls | plugin.cpp:194-206 | an absent asset gives no call; every call is for a chosen datapoint; a readable asset gives numeric readings only |
| Plugin.Calls | plugin.cpp:190-206 | only chosen datapoints are evaluated; no present trigger asset means no call; a readable document gives only numeric readings |
| Plugin.CallsCount | plugin.cpp:190-206 | each chosen datapoint is evaluated once per member with its name in the objects of the present trigger assets, and an unchosen one never |
| Plugin.CallsPrefix | plugin.cpp:190-206 | the calls for the first n trigger assets come first among all the calls |
| Plugin.CallsOrder | plugin.cpp:190-206 | the calls for each trigger asset follow those for the assets before it |
| Plugin.CallsComplete | plugin.cpp:190-206 | every chosen member of every present trigger asset is evaluated with its own value |
| Plugin.ObserveAll | plugin.cpp:199-206 | every evaluated datapoint is recorded and none is dropped; the last call's reading is the one kept for its datapoint; a true result needs at least one call |
| Plugin.ObserveAllPhases | plugin.cpp:190-206 | a batch moves each datapoint forward one phase per call, up to the snapshot phase |
| Plugin.ObserveAllTriggers | plugin.cpp:190-206 | the OR of a batch is true exactly when some datapoint reaches its third reading in total |
| Plugin.ObserveAllAppend | plugin.cpp:190-206 | evaluating two batches in turn is evaluating their concatenation, and the results are ORed |
| Plugin.DocumentPhases | plugin.cpp:190-206 | a chosen datapoint moves one phase forward per member with its name in the present trigger assets, up to the snapshot phase; an unchosen one stays where it is |
| Plugin.DocumentTriggers | plugin.cpp:190-206 | the result is true exactly when some chosen datapoint reaches its third reading, counting the members with its name in the document |
| Plugin.NoPresentAssetNoEvaluation | plugin.cpp:190-206 | when no trigger asset is in the document nothing is evaluated and the result is false |
| Plugin.LastTimestamp | plugin.cpp:207-213 | without a present trigger asset that has a numeric timestamp_<asset> member, the timestamp is unchanged |
| Plugin.LastTimestampIsLastStamped | plugin.cpp:190-214 | the timestamp taken is the timestamp_<asset> number of the last trigger asset, in key order, that is present and has one |
| Plugin.TimestampAfter | plugin.cpp:207-213 | the timestamp_<asset> number is taken when the asset is present and that member is a number; otherwise the timestamp is unchanged |
| Plugin.EvaluateMember | plugin.cpp:202-205 | a chosen member is evaluated once, as `Observe` says; an unchosen one changes nothing |
| Plugin.EvaluateAsset | plugin.cpp:199-206 | every chosen member of the asset's object is evaluated in order, also after a true result; the result is the OR |
| Plugin.EvaluateTrigger | plugin.cpp:192-214 | an absent asset changes nothing; a present one has its chosen members evaluated and the timestamp taken as `TimestampAfter` says |
| Plugin.PluginEval | plugin.cpp:173-223 | an unparseable document gives false and changes nothing; otherwise the observed maps and result are those of running `Observe` over `Calls`, the state is set to the result, and the timestamp is `LastTimestamp` |
| Plugin.Reason | plugin.cpp:236-244 | the text opens with the state and ends with " }"; with a zero evaluation timestamp it is exactly the state and asset text; otherwise it is exactly that text followed by the quoted UTC timestamp |
| Plugin.ReasonNamesState | plugin.cpp:236-238 | the reason text tells a triggered rule from a cleared one |
| Plugin.PluginReason | plugin.cpp:230-247 | a triggered rule's reason opens with "triggered", a cleared one's with "cleared" |

## Left out

- Locking (`lockConfig`/`unlockConfig`, the configuration mutex) is not modelled, because the model is sequential.
- Logging (`Logger::warn`) is left out because it has no effect on results.
- Configuration plumbing (`ConfigCategory::getValue`, `strtol`) is left out. `Configure` takes the asset, threshold, direction, type text and factor as already-parsed values.
- Plugin lifecycle (`plugin_info`, `plugin_init`, `plugin_shutdown`, `plugin_reconfigure`) and the handle casts are left out.
- JSON parsing and copying (`Parse`, `CopyFrom`, allocators) are left out. A parsed document is a `Json.Value`, and a deep copy is the value itself.
- Memory ownership is not modelled. Trackers and replaced snapshots are never freed in the source. This has no effect on results.
- Base-rule internals (`addTrigger`, `removeTriggers`, `getTriggers`, `getFullState`, `getAssets`, `getUTCTimestamp`) are left out. Triggers are modelled as a sequence of asset names; the asset and UTC text are parameters.
- Floating point is not modelled except for a zero baseline. Readings and baselines are reals, so rounding, overflow to infinity and NaN readings are not represented.
- Rule.DeltaRule.EvaluateReal: requires `AveragingSound`, which excludes EMA with factor 0. In the source that divides by zero and stores an infinite or NaN baseline, which a real cannot hold.
- Averages.Deltas.AddValue: requires a non-zero divisor, for the same reason.
- Averages.Tracker: the sample count is an unbounded `nat`. The source's `int m_samples` overflow after 2^31 − 1 readings is not modelled.
- Rule.DeltaRule.EvaluateValue: requires a numeric reading. `GetDouble` on a non-number is a rapidjson assertion failure, not a result.
- Rule.DeltaRule.EvaluateValue: drops the two equality checks of the structured evaluate. They only log. The first applies `operator[]` to a snapshot that is a number, which rapidjson does not support.
- Plugin.PluginEval: requires the document to be an object, each present trigger asset to be an object, its chosen members to be numbers, and its timestamp member to be a number (`Readable`). These are rapidjson's preconditions for `HasMember`, member iteration and `GetDouble`.
- Plugin.PluginReason: reads the rule directly, with no null check, as the source does. The asset and UTC text are opaque strings.

## Findings

| source | as written | input that shows it | evidently intended | confidence | as-written member | corrected member |
|---|---|---|---|---|---|---|
| delta.cpp:112-114 | a new tracker's `addValue` runs before `setDeltaType`, so the first divisor uses the tracker's unset type and factor | unset fields reading as EMA with factor −2 and a first reading of 4: the baseline becomes −2 (factor 0 would divide by zero) | the rule's type and factor are set first, so the first reading becomes the baseline | low: depends on uninitialised memory; not executed | Rule.SeedAsWritten, Rule.SeedAsWrittenMissesReading | Rule.Seed (used by `EvaluateNumber`), Rule.SeedAsWrittenAgrees |
