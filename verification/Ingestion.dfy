/** Reconciling an ingestion resource: submit the task once, keep compaction and rules in step, and
    record in the status what was submitted. HTTP and API outcomes are inputs. */
module Ingestion {
  import opened Basics
  import opened DynamicConfig
  import opened JsonInclusion

  /** A list field as it is read back: missing, or present and possibly empty. */
  datatype Rules = Absent | Listed(items: seq<Json>)

  datatype Spec = Spec(native: Option<Document>, text: Document, compaction: Option<Document>, rules: Rules)

  /** `recorded` is the recorded ingestion spec, `None` for the empty string. */
  datatype Status = Status(taskId: string, recorded: Option<Json>, rules: Rules, condition: string)

  const CREATE_SUCCESS := "DruidIngestionControllerCreateSuccess"
  const CREATE_FAIL := "DruidIngestionControllerCreateFail"
  const UPDATE_SUCCESS := "DruidIngestionControllerUpdateSuccess"

  /** Body of the response to a task or supervisor submission. */
  datatype TaskReply = Unreadable | TaskReply(task: string, id: string)

  datatype Http = Http(
    taskFails: bool, taskStatus: int, taskReply: TaskReply,
    getFails: bool, compactionFails: bool, compactionStatus: int, compactionAfter: Document,
    rulesFail: bool, rulesStatus: int,
    specPatchFails: bool, compactionPatchFails: bool, rulesPatchFails: bool)

  datatype Post = TaskPost(spec: Json) | CompactionPost(config: Fields) | RulesPost(rules: seq<Json>)

  /** The stored status, the copy in memory, Druid's compaction configurations by data source, and the
      requests sent and status patches made so far. */
  datatype World = World(stored: Status, memory: Status, compaction: map<string, Document>, posts: seq<Post>,
        patches: nat)

  // Reading the spec

  /** The spec as a JSON value; the native form wins, `null` is kept, anything but an object is an error. */
  function SpecJson(spec: Spec): Option<Json> {
    var d := if spec.native.Some? then spec.native.value else spec.text;
    if d.Valid? && (d.json.Obj? || d.json.Null?) then Some(d.json) else None
  }

  function Member(j: Json, key: string): Option<Json> {
    if j.Obj? && key in j.fields then Some(j.fields[key]) else None
  }

  function DataSource(spec: Spec): Option<string> {
    if SpecJson(spec).None? then None else
      var inner := Member(SpecJson(spec).value, "spec");
      if inner.None? then None else
        var schema := Member(inner.value, "dataSchema");
        if schema.None? then None else
          var source := Member(schema.value, "dataSource");
          if source.None? || !source.value.Str? then None else Some(source.value.s)
  }

  /** The configured compaction with the data source filled in. */
  function DesiredCompaction(spec: Spec): Option<Fields> {
    if spec.compaction.None? then Some(map[]) else
      var fields := ParseFields(spec.compaction.value);
      if fields.None? || DataSource(spec).None? then None
      else Some(fields.value["dataSource" := Str(DataSource(spec).value)])
  }

  function RuleItems(r: Rules): seq<Json> { if r.Absent? then [] else r.items }

  /** Rules are objects; anything else, `null` included, is an error. */
  predicate RulesReadable(r: Rules) { forall x :: x in RuleItems(r) ==> x.Obj? }

  /** An empty list is not written to the status. */
  function StoredRules(r: Rules): Rules { if RuleItems(r) == [] then Absent else r }

  function TaskIdOf(r: TaskReply): (id: Option<string>)
    ensures id.Some? ==> id.value != ""
    ensures id.None? <==> r.Unreadable? || (r.task == "" && r.id == "")
    ensures id.Some? ==> id.value == if r.task != "" then r.task else r.id
  {
    match r
    case Unreadable => None
    case TaskReply(task, id) => if task != "" then Some(task) else if id != "" then Some(id) else None
  }

  // The pieces of a pass. `None` is an error, which ends the pass.

  /** Compaction is posted if it is configured and not already included; the result says whether it was. */
  function UpdateCompaction(spec: Spec, h: Http, w: World): (World, Option<bool>) {
    if spec.compaction.None? then (w, Some(false))
    else if DataSource(spec).None? || h.getFails then (w, None)
    else
      var source := DataSource(spec).value;
      var current := if source in w.compaction then w.compaction[source] else Valid(Obj(map[]));
      if DesiredCompaction(spec).None? || ParseFields(current).None? then (w, None)
      else
        var desired := DesiredCompaction(spec).value;
        if Includes(ParseFields(current).value, desired) then (w, Some(false))
        else
          var sent := w.(posts := w.posts + [CompactionPost(desired)],
            compaction := w.compaction[source := h.compactionAfter]);
          (sent, if h.compactionFails || h.compactionStatus != 200 then None else Some(true))
  }

  function UpdateRules(spec: Spec, h: Http, w: World): (World, Option<bool>) {
    if RuleItems(spec.rules) == [] then (w, Some(true))
    else if !RulesReadable(spec.rules) || DataSource(spec).None? then (w, None)
    else
      var sent := w.(posts := w.posts + [RulesPost(RuleItems(spec.rules))]);
      (sent, if h.rulesFail || h.rulesStatus != 200 then None else Some(true))
  }

  /** A status patch first reads the stored object into memory, then writes spec, rules and task id. */
  function PatchStatus(spec: Spec, taskId: string, condition: string, fails: bool, w: World): (World, bool) {
    if SpecJson(spec).None? || fails then (w, false)
    else
      var status := Status(taskId, SpecJson(spec), StoredRules(spec.rules), condition);
      (w.(memory := w.stored, stored := status, patches := w.patches + 1), true)
  }

  function PostTask(spec: Spec, w: World): World
    requires SpecJson(spec).Some?
  {
    w.(posts := w.posts + [TaskPost(SpecJson(spec).value)])
  }

  function Create(spec: Spec, h: Http, w: World): (World, bool)
    requires SpecJson(spec).Some?
  {
    var w1 := PostTask(spec, w);
    if h.taskFails then (w1, false) else
      var (w2, compactionOk) := UpdateCompaction(spec, h, w1);
      if compactionOk.None? then (w2, false) else
        var (w3, rulesOk) := UpdateRules(spec, h, w2);
        if rulesOk.None? || TaskIdOf(h.taskReply).None? then (w3, false) else
          var created := h.taskStatus == 200 && compactionOk.value && rulesOk.value;
          var condition := if created then CREATE_SUCCESS else CREATE_FAIL;
          PatchStatus(spec, TaskIdOf(h.taskReply).value, condition, h.specPatchFails, w3)
  }

  /** Resubmits a spec that differs from the recorded one. */
  function Resubmit(spec: Spec, h: Http, w: World): (World, bool)
    requires SpecJson(spec).Some?
  {
    if w.memory.recorded.None? then (w, false)
    else if w.memory.recorded == SpecJson(spec) then (w, true)
    else
      var w1 := PostTask(spec, w);
      if h.taskFails then (w1, false)
      else if h.taskStatus != 200 then (w1, true)
      else if TaskIdOf(h.taskReply).None? then (w1, false)
      else PatchStatus(spec, TaskIdOf(h.taskReply).value, UPDATE_SUCCESS, h.specPatchFails, w1)
  }

  function RefreshCompaction(spec: Spec, h: Http, w: World): (World, bool) {
    var (w1, posted) := UpdateCompaction(spec, h, w);
    if posted.None? then (w1, false)
    else if !posted.value then (w1, true)
    else PatchStatus(spec, w1.memory.taskId, UPDATE_SUCCESS, h.compactionPatchFails, w1)
  }

  function RefreshRules(spec: Spec, h: Http, w: World): (World, bool) {
    if w.memory.rules == spec.rules then (w, true) else
      var (w1, rulesOk) := UpdateRules(spec, h, w);
      if rulesOk.None? then (w1, false)
      else if !rulesOk.value then (w1, true)
      else PatchStatus(spec, w1.memory.taskId, UPDATE_SUCCESS, h.rulesPatchFails, w1)
  }

  function Refresh(spec: Spec, h: Http, w: World): (World, bool)
    requires SpecJson(spec).Some?
  {
    var (w1, ok1) := Resubmit(spec, h, w);
    if !ok1 then (w1, false) else
      var (w2, ok2) := RefreshCompaction(spec, h, w1);
      if !ok2 then (w2, false) else RefreshRules(spec, h, w2)
  }

  predicate Unrecorded(s: Status) { s.taskId == "" && s.recorded.None? }

  /** A pass works on a fresh copy of the stored resource. */
  function Pass(spec: Spec, h: Http, w0: World): (World, bool) {
    var w := w0.(memory := w0.stored);
    if SpecJson(spec).None? then (w, false)
    else if Unrecorded(w.memory) then Create(spec, h, w)
    else Refresh(spec, h, w)
  }

  // The pass as the controller runs it

  class Reconciler {
    var stored: Status
    var memory: Status
    var compaction: map<string, Document>
    var posts: seq<Post>
    var patches: nat

    function Now(): World
      reads this
    {
      World(stored, memory, compaction, posts, patches)
    }

    method UpdateCompactionOf(spec: Spec, h: Http) returns (posted: Option<bool>)
      modifies this`compaction, this`posts
      ensures (Now(), posted) == UpdateCompaction(spec, h, old(Now()))
      ensures posted == Some(false) ==> posts == old(posts) && compaction == old(compaction)
      ensures posted == Some(true) ==> |posts| == |old(posts)| + 1 && spec.compaction.Some?
    {
      if spec.compaction.None? { return Some(false); }
      var source := DataSource(spec);
      if source.None? { return None; }
      if h.getFails { return None; }
      var current := Valid(Obj(map[]));
      if source.value in compaction { current := compaction[source.value]; }
      var desired := DesiredCompaction(spec);
      if desired.None? { return None; }
      var fields := ParseFields(current);
      if fields.None? { return None; }
      var included := IncludesLoop(fields.value, desired.value);
      if included { return Some(false); }
      posts := posts + [CompactionPost(desired.value)];
      compaction := compaction[source.value := h.compactionAfter];
      if h.compactionFails { return None; }
      if h.compactionStatus == 200 { return Some(true); }
      return None;
    }

    method UpdateRulesOf(spec: Spec, h: Http) returns (ok: Option<bool>)
      modifies this`posts
      ensures (Now(), ok) == UpdateRules(spec, h, old(Now()))
      ensures RuleItems(spec.rules) == [] ==> posts == old(posts) && ok == Some(true)
      ensures RuleItems(spec.rules) != [] && ok.Some? ==> posts == old(posts) + [RulesPost(RuleItems(spec.rules))]
    {
      if RuleItems(spec.rules) == [] { return Some(true); }
      if !RulesReadable(spec.rules) { return None; }
      var source := DataSource(spec);
      if source.None? { return None; }
      posts := posts + [RulesPost(RuleItems(spec.rules))];
      if h.rulesFail { return None; }
      if h.rulesStatus == 200 { return Some(true); }
      return None;
    }

    method MakePatchStatus(spec: Spec, taskId: string, condition: string, fails: bool) returns (ok: bool)
      modifies this`stored, this`memory, this`patches
      ensures (Now(), ok) == PatchStatus(spec, taskId, condition, fails, old(Now()))
      ensures if ok then memory == old(stored) && stored.recorded == SpecJson(spec) && stored.taskId == taskId
              else stored == old(stored) && memory == old(memory)
    {
      var json := SpecJson(spec);
      if json.None? { return false; }
      if fails { return false; }
      memory := stored;
      stored := Status(taskId, json, StoredRules(spec.rules), condition);
      patches := patches + 1;
      return true;
    }

    method CreateTask(spec: Spec, json: Json, h: Http) returns (ok: bool)
      requires SpecJson(spec) == Some(json)
      modifies this
      ensures (Now(), ok) == Create(spec, h, old(Now()))
      ensures if ok then stored.taskId != "" && stored.recorded == Some(json) else stored == old(stored)
    {
      posts := posts + [TaskPost(json)];
      if h.taskFails { return false; }
      var compactionOk := UpdateCompactionOf(spec, h);
      if compactionOk.None? { return false; }
      var rulesOk := UpdateRulesOf(spec, h);
      if rulesOk.None? { return false; }
      var taskId := TaskIdOf(h.taskReply);
      if taskId.None? { return false; }
      if h.taskStatus == 200 && compactionOk.value && rulesOk.value {
        ok := MakePatchStatus(spec, taskId.value, CREATE_SUCCESS, h.specPatchFails);
      } else {
        ok := MakePatchStatus(spec, taskId.value, CREATE_FAIL, h.specPatchFails);
      }
    }

    method ResubmitTask(spec: Spec, json: Json, h: Http) returns (ok: bool)
      requires SpecJson(spec) == Some(json)
      modifies this
      ensures (Now(), ok) == Resubmit(spec, h, old(Now()))
      ensures old(memory).recorded == Some(json) ==> ok && Now() == old(Now())
      ensures old(memory).recorded.Some? && old(memory).recorded.value != json ==>
                posts == old(posts) + [TaskPost(json)]
    {
      if memory.recorded.None? { return false; }
      if memory.recorded != Some(json) {
        posts := posts + [TaskPost(json)];
        if h.taskFails { return false; }
        if h.taskStatus == 200 {
          var taskId := TaskIdOf(h.taskReply);
          if taskId.None? { return false; }
          ok := MakePatchStatus(spec, taskId.value, UPDATE_SUCCESS, h.specPatchFails);
          return;
        }
      }
      return true;
    }

    method CreateOrUpdate(spec: Spec, h: Http) returns (ok: bool)
      modifies this
      ensures (Now(), ok) == Pass(spec, h, old(Now()))
      ensures StatusOk(old(stored)) ==> StatusOk(stored)
    {
      if StatusOk(stored) { PassKeepsStatusOk(spec, h, Now()); }
      memory := stored;
      var json := SpecJson(spec);
      if json.None? { return false; }
      if memory.taskId == "" && memory.recorded.None? {
        ok := CreateTask(spec, json.value, h);
        return;
      }
      ok := ResubmitTask(spec, json.value, h);
      if !ok { return; }
      var posted := UpdateCompactionOf(spec, h);
      if posted.None? { return false; }
      if posted.value {
        ok := MakePatchStatus(spec, memory.taskId, UPDATE_SUCCESS, h.compactionPatchFails);
        if !ok { return; }
      }
      if memory.rules != spec.rules {
        var rulesOk := UpdateRulesOf(spec, h);
        if rulesOk.None? { return false; }
        if rulesOk.value {
          ok := MakePatchStatus(spec, memory.taskId, UPDATE_SUCCESS, h.rulesPatchFails);
          if !ok { return; }
        }
      }
      return true;
    }
  }

  // The status invariant

  /** The task id is empty exactly when the recorded spec is. */
  predicate StatusOk(s: Status) { s.taskId == "" <==> s.recorded.None? }

  predicate TaskPosted(before: seq<Post>, after: seq<Post>) {
    exists i :: |before| <= i < |after| && after[i].TaskPost?
  }

  lemma CompactionFrame(spec: Spec, h: Http, w: World)
    ensures var w' := UpdateCompaction(spec, h, w).0;
            && w'.stored == w.stored && w'.memory == w.memory && w'.patches == w.patches
            && w.posts <= w'.posts && !TaskPosted(w.posts, w'.posts)
  {
    hide Includes, DataSource, DesiredCompaction;
  }

  lemma RulesFrame(spec: Spec, h: Http, w: World)
    ensures var w' := UpdateRules(spec, h, w).0;
            && w'.stored == w.stored && w'.memory == w.memory && w'.patches == w.patches
            && w'.compaction == w.compaction
            && w.posts <= w'.posts && !TaskPosted(w.posts, w'.posts)
  {
    hide DataSource;
  }

  /** Every pass, with any spec and any errors, keeps the invariant; a recorded status is never taken
      back to an unrecorded one. */
  lemma PassKeepsStatusOk(spec: Spec, h: Http, w: World)
    requires StatusOk(w.stored)
    ensures var w' := Pass(spec, h, w).0;
            StatusOk(w'.stored) && (!Unrecorded(w.stored) ==> !Unrecorded(w'.stored))
  {
    hide Pass, CompactionAccepted, CompactionUnneeded, RulesSettled, Readable, GivenSpec, ReachesRules, RulesSeen;
    if Unrecorded(w.stored) { CreatedExactly(spec, h, w); } else { RefreshedExactly(spec, h, w); }
  }

  /** Passes with arbitrary specs and outcomes; between them only Druid's own configuration changes. */
  ghost predicate IsRun(specs: seq<Spec>, https: seq<Http>, states: seq<World>) {
    && |specs| == |https| && |states| == |specs| + 1
    && forall i :: 0 <= i < |specs| ==>
         var w := Pass(specs[i], https[i], states[i]).0;
         states[i + 1].stored == w.stored && states[i + 1].posts == w.posts && states[i + 1].patches == w.patches
  }

  lemma {:induction false} StatusOkAlongRun(specs: seq<Spec>, https: seq<Http>, states: seq<World>, i: nat)
    requires IsRun(specs, https, states) && i < |states| && StatusOk(states[0].stored)
    ensures StatusOk(states[i].stored)
  {
    if i > 0 {
      StatusOkAlongRun(specs, https, states, i - 1);
      PassKeepsStatusOk(specs[i - 1], https[i - 1], states[i - 1]);
    }
  }

  /** With the spec recorded, a pass posts no task and leaves the spec recorded. */
  lemma RecordedSpecNotReposted(spec: Spec, h: Http, w: World)
    requires StatusOk(w.stored) && w.stored.recorded.Some? && w.stored.recorded == SpecJson(spec)
    ensures var w' := Pass(spec, h, w).0;
            w'.stored.recorded == w.stored.recorded && w.posts <= w'.posts && !TaskPosted(w.posts, w'.posts)
  {
    hide SpecJson, StoredRules;
    var w0 := w.(memory := w.stored);
    CompactionFrame(spec, h, w0);
    var w1 := UpdateCompaction(spec, h, w0).0;
    var w2 := RefreshCompaction(spec, h, w0).0;
    assert w2.posts == w1.posts && w2.stored.recorded == w.stored.recorded;
    RulesFrame(spec, h, w2);
    hide UpdateCompaction, UpdateRules;
    NoTaskPostedTransitive(w.posts, w2.posts, UpdateRules(spec, h, w2).0.posts);
  }

  lemma NoTaskPostedTransitive(a: seq<Post>, b: seq<Post>, c: seq<Post>)
    requires a <= b <= c && !TaskPosted(a, b) && !TaskPosted(b, c)
    ensures !TaskPosted(a, c)
  {
    assert forall i :: |a| <= i < |b| ==> c[i] == b[i];
  }

  /** Once a spec is recorded, passes with a JSON-equal spec never submit it again. */
  lemma {:induction false} NeverResubmitted(specs: seq<Spec>, https: seq<Http>, states: seq<World>, i: nat, j: nat,
        json: Json)
    requires IsRun(specs, https, states) && i <= j < |states| && StatusOk(states[0].stored)
    requires states[i].stored.recorded == Some(json)
    requires forall k :: i <= k < j ==> SpecJson(specs[k]) == Some(json)
    ensures states[j].stored.recorded == Some(json)
    ensures states[i].posts <= states[j].posts && !TaskPosted(states[i].posts, states[j].posts)
    decreases j
  {
    if i < j {
      NeverResubmitted(specs, https, states, i, j - 1, json);
      StatusOkAlongRun(specs, https, states, j - 1);
      RecordedSpecNotReposted(specs[j - 1], https[j - 1], states[j - 1]);
      hide Pass, SpecJson;
      NoTaskPostedTransitive(states[i].posts, states[j - 1].posts, states[j].posts);
    }
  }

  // The create path

  /** Druid's compaction for the data source includes the configured one, if one is configured. */
  ghost predicate CompactionIncluded(spec: Spec, compaction: map<string, Document>) {
    spec.compaction.Some? ==>
      && DataSource(spec).Some? && DesiredCompaction(spec).Some?
      && DataSource(spec).value in compaction && ParseFields(compaction[DataSource(spec).value]).Some?
      && Includes(ParseFields(compaction[DataSource(spec).value]).value, DesiredCompaction(spec).value)
  }

  /** What Druid holds for the data source; nothing counts as an empty object. */
  function HeldCompaction(spec: Spec, w: World): Document
    requires DataSource(spec).Some?
  {
    if DataSource(spec).value in w.compaction then w.compaction[DataSource(spec).value] else Valid(Obj(map[]))
  }

  /** Compaction is configured, the data source is named, the GET succeeds and both documents parse. */
  predicate Comparable(spec: Spec, h: Http, w: World) {
    && spec.compaction.Some? && DataSource(spec).Some? && !h.getFails
    && ParseFields(spec.compaction.value).Some? && ParseFields(HeldCompaction(spec, w)).Some?
  }

  /** Every path of the configured compaction, with the data source filled in, is met by what Druid holds. */
  ghost predicate Covered(spec: Spec, h: Http, w: World)
    requires Comparable(spec, h, w)
  {
    var source := Str(DataSource(spec).value);
    Covers(Obj(ParseFields(HeldCompaction(spec, w)).value),
           Obj(ParseFields(spec.compaction.value).value["dataSource" := source]))
  }

  predicate CompactionAnswered(h: Http) { !h.compactionFails && h.compactionStatus == 200 }

  /** No compaction is configured, or it is already covered. */
  ghost predicate CompactionUnneeded(spec: Spec, h: Http, w: World) {
    spec.compaction.None? || (Comparable(spec, h, w) && Covered(spec, h, w))
  }

  /** Compaction is configured, not covered, and accepted. */
  ghost predicate CompactionAccepted(spec: Spec, h: Http, w: World) {
    Comparable(spec, h, w) && !Covered(spec, h, w) && CompactionAnswered(h)
  }

  /** The compaction call succeeds exactly if there is nothing to do or the POST is accepted, and it
      reports a change exactly in the second case. */
  lemma CompactionOutcome(spec: Spec, h: Http, w: World)
    ensures UpdateCompaction(spec, h, w).1 == Some(false) <==> CompactionUnneeded(spec, h, w)
    ensures UpdateCompaction(spec, h, w).1 == Some(true) <==> CompactionAccepted(spec, h, w)
  {
    hide DataSource, Includes, Covers;
    if Comparable(spec, h, w) {
      var source := Str(DataSource(spec).value);
      IncludesIsCovers(ParseFields(HeldCompaction(spec, w)).value,
                       ParseFields(spec.compaction.value).value["dataSource" := source]);
    }
  }

  predicate RulesSettled(spec: Spec, h: Http) {
    || RuleItems(spec.rules) == []
    || (RulesReadable(spec.rules) && DataSource(spec).Some? && !h.rulesFail && h.rulesStatus == 200)
  }

  /** An unrecorded status is recorded in exactly the passes whose submission is answered with a task
      id, whatever the response code, and in which configured compaction was already included or
      accepted and configured rules were accepted. */
  lemma RecordedExactlyWhen(spec: Spec, h: Http, w: World)
    requires Unrecorded(w.stored)
    ensures !Unrecorded(Pass(spec, h, w).0.stored) <==>
            && SpecJson(spec).Some? && !h.taskFails && TaskIdOf(h.taskReply).Some? && !h.specPatchFails
            && (CompactionUnneeded(spec, h, w) || CompactionAccepted(spec, h, w)) && RulesSettled(spec, h)
  {
    CompactionOutcome(spec, h, w);
    hide CompactionUnneeded, CompactionAccepted;
    if SpecJson(spec).Some? {
      var w0 := w.(memory := w.stored);
      var w1 := PostTask(spec, w0);
      CompactionIgnoresRest(spec, h, w, w1);
      CompactionFrame(spec, h, w1);
      var w2 := UpdateCompaction(spec, h, w1).0;
      RulesFrame(spec, h, w2);
      hide UpdateCompaction, SpecJson, DataSource;
    }
  }

  lemma CompactionIgnoresRest(spec: Spec, h: Http, w: World, x: World)
    requires w.compaction == x.compaction
    ensures UpdateCompaction(spec, h, w).1 == UpdateCompaction(spec, h, x).1
    ensures UpdateCompaction(spec, h, w).0.compaction == UpdateCompaction(spec, h, x).0.compaction
  {
    hide Includes, DataSource, DesiredCompaction;
  }

  /** The recorded condition says success exactly if the submission returned 200 and a compaction is
      configured that Druid did not yet cover. A resource without compaction, or with one that is
      already in place, is therefore recorded as failed. */
  lemma SuccessExactlyIfCompactionPosted(spec: Spec, h: Http, w: World)
    requires Unrecorded(w.stored) && !Unrecorded(Pass(spec, h, w).0.stored)
    ensures Pass(spec, h, w).0.stored.condition == CREATE_SUCCESS <==>
            h.taskStatus == 200 && Comparable(spec, h, w) && !Covered(spec, h, w)
    ensures Pass(spec, h, w).0.stored.condition in {CREATE_SUCCESS, CREATE_FAIL}
  {
    RecordedExactlyWhen(spec, h, w);
    CompactionOutcome(spec, h, w);
    hide Covered, Comparable;
    var w1 := PostTask(spec, w.(memory := w.stored));
    CompactionIgnoresRest(spec, h, w, w1);
    hide SpecJson, DataSource, DesiredCompaction, Includes;
    assert CREATE_FAIL[30] != CREATE_SUCCESS[30];
  }

  /** Druid keeps what it accepts. */
  ghost predicate KeepsCompaction(spec: Spec, h: Http) {
    spec.compaction.Some? && DesiredCompaction(spec).Some? && !h.compactionFails && h.compactionStatus == 200 ==>
      ParseFields(h.compactionAfter).Some? &&
        Includes(ParseFields(h.compactionAfter).value, DesiredCompaction(spec).value)
  }

  /** A compaction call without an error leaves the configured compaction included. */
  lemma SettledIsIncluded(spec: Spec, h: Http, w: World)
    requires KeepsCompaction(spec, h) && UpdateCompaction(spec, h, w).1.Some?
    ensures CompactionIncluded(spec, UpdateCompaction(spec, h, w).0.compaction) || NothingStored(spec, w)
  {
    hide Includes, DataSource, DesiredCompaction;
  }

  /** Druid stores nothing for the data source and the configured compaction asks for nothing. */
  ghost predicate NothingStored(spec: Spec, w: World) {
    && spec.compaction.Some? && DataSource(spec).Some? && DesiredCompaction(spec).Some?
    && DataSource(spec).value !in w.compaction && Includes(map[], DesiredCompaction(spec).value)
  }

  /** The desired compaction always names its data source, so it is never included in nothing. */
  lemma CompactionAsksForSomething(spec: Spec, w: World)
    ensures !NothingStored(spec, w)
  {
    if spec.compaction.Some? && DataSource(spec).Some? && DesiredCompaction(spec).Some? {
      assert "dataSource" in DesiredCompaction(spec).value;
    }
  }

  lemma IncludedIsSilent(spec: Spec, h: Http, w: World)
    requires CompactionIncluded(spec, w.compaction)
    ensures UpdateCompaction(spec, h, w).0 == w && UpdateCompaction(spec, h, w).1 != Some(true)
    ensures !h.getFails ==> UpdateCompaction(spec, h, w).1 == Some(false)
  {
    hide Includes, DataSource, DesiredCompaction;
  }

  /** The status records the spec, and Druid holds its compaction. */
  ghost predicate InStep(spec: Spec, w: World) {
    && SpecJson(spec).Some? && w.stored.recorded == SpecJson(spec) && w.stored.taskId != ""
    && w.stored.rules == StoredRules(spec.rules) && CompactionIncluded(spec, w.compaction)
  }

  /** A pass over such a status posts nothing, whatever fails. It patches the status exactly if the rules
      field is present and empty, which never equals what is stored, and no call fails before. */
  lemma InStepPass(spec: Spec, h: Http, w: World)
    requires InStep(spec, w)
    ensures var w' := Pass(spec, h, w).0;
            && InStep(spec, w') && w'.posts == w.posts && w'.compaction == w.compaction
            && (if spec.rules == Listed([]) && !h.rulesPatchFails && (spec.compaction.None? || !h.getFails)
                then w'.patches == w.patches + 1
                else w'.patches == w.patches && w'.stored == w.stored)
  {
    var y := w.(memory := w.stored);
    IncludedIsSilent(spec, h, y);
    IncludedAnswers(spec, h, y);
    hide UpdateCompaction, Create, SpecJson, DataSource, DesiredCompaction, CompactionIncluded;
    assert Resubmit(spec, h, y) == (y, true);
    assert Pass(spec, h, w) == Refresh(spec, h, y);
  }

  lemma IncludedAnswers(spec: Spec, h: Http, w: World)
    requires CompactionIncluded(spec, w.compaction)
    ensures UpdateCompaction(spec, h, w).1 == if spec.compaction.None? || !h.getFails then Some(false) else None
  {
    hide Includes, DataSource, DesiredCompaction;
  }

  /** A pass that records a created task puts the status in step. */
  lemma CreatedInStep(spec: Spec, h: Http, w: World)
    requires Unrecorded(w.stored) && !Unrecorded(Pass(spec, h, w).0.stored) && KeepsCompaction(spec, h)
    ensures InStep(spec, Pass(spec, h, w).0)
  {
    RecordedExactlyWhen(spec, h, w);
    CompactionOutcome(spec, h, w);
    hide CompactionUnneeded, CompactionAccepted;
    var x := PostTask(spec, w.(memory := w.stored));
    CompactionIgnoresRest(spec, h, w, x);
    SettledIsIncluded(spec, h, x);
    CompactionAsksForSomething(spec, x);
    CreatedStatus(spec, h, w);
    hide UpdateCompaction, Pass, SpecJson, DataSource, DesiredCompaction, CompactionIncluded;
  }

  /** After the pass that records a created task, the next pass with the same spec posts nothing. It
      patches no status either, except when the rules field is present and empty. */
  lemma QuietAfterCreate(spec: Spec, h1: Http, h2: Http, w: World)
    requires Unrecorded(w.stored) && !Unrecorded(Pass(spec, h1, w).0.stored)
    requires KeepsCompaction(spec, h1)
    requires !h2.getFails && !h2.rulesPatchFails
    ensures var w1 := Pass(spec, h1, w).0;
            var w2 := Pass(spec, h2, w1).0;
            && w2.posts == w1.posts && w2.compaction == w1.compaction
            && (w2.patches == w1.patches <==> spec.rules != Listed([]))
            && (w2.patches == w1.patches ==> w2.stored == w1.stored)
  {
    hide Pass, InStep;
    CreatedInStep(spec, h1, w);
    InStepPass(spec, h2, Pass(spec, h1, w).0);
  }

  /** And so it goes on: while the spec and Druid's compaction stay, no pass of a run posts anything, and
      with an empty rules list every pass without a failure patches the status again. */
  lemma {:induction false} QuietAlongRun(spec: Spec, specs: seq<Spec>, https: seq<Http>, states: seq<World>, i: nat)
    requires IsRun(specs, https, states) && i < |states| && InStep(spec, states[0])
    requires forall k :: 0 <= k < |specs| ==> specs[k] == spec
    requires forall k :: 0 <= k < |states| ==> CompactionIncluded(spec, states[k].compaction)
    ensures InStep(spec, states[i]) && states[i].posts == states[0].posts
    ensures i > 0 && !https[i - 1].getFails && !https[i - 1].rulesPatchFails ==>
              states[i].patches == states[i - 1].patches + if spec.rules == Listed([]) then 1 else 0
  {
    if i > 0 {
      QuietAlongRun(spec, specs, https, states, i - 1);
      InStepPass(spec, https[i - 1], states[i - 1]);
      hide Pass, CompactionIncluded, SpecJson;
      assert specs[i - 1] == spec;
    }
  }

  lemma CreatedStatus(spec: Spec, h: Http, w: World)
    requires Unrecorded(w.stored) && !Unrecorded(Pass(spec, h, w).0.stored)
    ensures SpecJson(spec).Some?
    ensures var w' := Pass(spec, h, w).0;
            && w'.stored.recorded == SpecJson(spec) && w'.stored.taskId != ""
            && w'.stored.rules == StoredRules(spec.rules)
            && w'.compaction == UpdateCompaction(spec, h, PostTask(spec, w.(memory := w.stored))).0.compaction
  {
    RecordedExactlyWhen(spec, h, w);
    var x1 := PostTask(spec, w.(memory := w.stored));
    CompactionIgnoresRest(spec, h, w, x1);
    CompactionFrame(spec, h, x1);
    RulesFrame(spec, h, UpdateCompaction(spec, h, x1).0);
    hide UpdateCompaction, SpecJson, DataSource;
  }

  // The update path records unaccepted specs

  /** A changed spec that Druid answers with an error code is recorded all the same in exactly the
      passes that go on to post compaction or, with different rules, to settle the rules. It is then
      never submitted again. */
  lemma RejectedSpecRecordedExactlyWhen(spec: Spec, h: Http, w: World)
    requires StatusOk(w.stored) && w.stored.recorded.Some?
    requires SpecJson(spec).Some? && w.stored.recorded != SpecJson(spec)
    requires !h.taskFails && h.taskStatus != 200
    ensures Pass(spec, h, w).0.stored.recorded == SpecJson(spec) <==>
            || (CompactionAccepted(spec, h, w) && !h.compactionPatchFails)
            || (&& CompactionUnneeded(spec, h, w) && w.stored.rules != spec.rules
                && RulesSettled(spec, h) && !h.rulesPatchFails)
  {
    CompactionOutcome(spec, h, w);
    hide CompactionUnneeded, CompactionAccepted;
    var x1 := PostTask(spec, w.(memory := w.stored));
    CompactionIgnoresRest(spec, h, w, x1);
    CompactionFrame(spec, h, x1);
    var x2 := UpdateCompaction(spec, h, x1).0;
    RulesFrame(spec, h, x2);
    var x3 := RefreshCompaction(spec, h, x1).0;
    RulesFrame(spec, h, x3);
    hide UpdateCompaction, SpecJson, DataSource;
  }

  // A whole pass, from the spec, the stored status and the answers

  /** The spec as the user gives it: the native form, or else the text. */
  function GivenSpec(spec: Spec): Document { if spec.native.Some? then spec.native.value else spec.text }

  /** The data source is the string at a fixed path of the spec. */
  lemma DataSourceIsAtPath(spec: Spec, name: string)
    ensures DataSource(spec) == Some(name) <==>
            && Readable(GivenSpec(spec))
            && At(GivenSpec(spec).json, ["spec", "dataSchema", "dataSource"]) == Some(Str(name))
  {
    var path := ["spec", "dataSchema", "dataSource"];
    assert path[1..] == ["dataSchema", "dataSource"] && path[1..][1..] == ["dataSource"] && path[1..][1..][1..] == [];
  }

  /** The spec can be read and is not the recorded one. */
  predicate Submits(spec: Spec, s: Status) {
    Readable(GivenSpec(spec)) && s.recorded != Some(GivenSpec(spec).json)
  }

  /** The submission is answered with 200 and a task id, and the patch that records it succeeds. */
  predicate SubmissionRecorded(h: Http) {
    !h.taskFails && h.taskStatus == 200 && TaskIdOf(h.taskReply).Some? && !h.specPatchFails
  }

  /** The pass comes to compaction: there was nothing to submit, or the submission was answered, and on the
      update path it was rejected or recorded. */
  predicate ReachesCompaction(spec: Spec, h: Http, s: Status) {
    && Readable(GivenSpec(spec))
    && (Submits(spec, s) ==> !h.taskFails && (Unrecorded(s) || h.taskStatus != 200 || SubmissionRecorded(h)))
  }

  /** A changed spec was submitted and recorded. */
  predicate Resubmitted(spec: Spec, h: Http, s: Status) {
    !Unrecorded(s) && Submits(spec, s) && SubmissionRecorded(h)
  }

  ghost predicate ReachesRules(spec: Spec, h: Http, w: World) {
    && ReachesCompaction(spec, h, w.stored)
    && (|| CompactionUnneeded(spec, h, w)
        || (CompactionAccepted(spec, h, w) && (Unrecorded(w.stored) || !h.compactionPatchFails)))
  }

  /** The rules the update path compares with: those in memory, which two patches before replace by what
      the first of them stored. */
  ghost function RulesSeen(spec: Spec, h: Http, w: World): Rules {
    if Resubmitted(spec, h, w.stored) && CompactionAccepted(spec, h, w) then StoredRules(spec.rules) else w.stored.rules
  }

  ghost predicate CompactionSent(spec: Spec, h: Http, w: World) {
    ReachesCompaction(spec, h, w.stored) && Comparable(spec, h, w) && !Covered(spec, h, w)
  }

  ghost predicate RulesSent(spec: Spec, h: Http, w: World) {
    && ReachesRules(spec, h, w) && (Unrecorded(w.stored) || RulesSeen(spec, h, w) != spec.rules)
    && spec.rules.Listed? && spec.rules.items != [] && (forall x :: x in spec.rules.items ==> x.Obj?)
    && DataSource(spec).Some?
  }

  /** The requests a pass sends, in order. */
  ghost function Sent(spec: Spec, h: Http, w: World): seq<Post> {
    (if Submits(spec, w.stored) then [TaskPost(GivenSpec(spec).json)] else []) +
    (if CompactionSent(spec, h, w)
     then [CompactionPost(ParseFields(spec.compaction.value).value["dataSource" := Str(DataSource(spec).value)])]
     else []) +
    (if RulesSent(spec, h, w) then [RulesPost(spec.rules.items)] else [])
  }

  lemma CompactionPosts(spec: Spec, h: Http, w: World)
    ensures UpdateCompaction(spec, h, w).0.posts == w.posts +
            if Comparable(spec, h, w) && !Covered(spec, h, w)
            then [CompactionPost(ParseFields(spec.compaction.value).value["dataSource" := Str(DataSource(spec).value)])]
            else []
  {
    hide DataSource, Includes, Covers;
    if Comparable(spec, h, w) {
      var source := Str(DataSource(spec).value);
      IncludesIsCovers(ParseFields(HeldCompaction(spec, w)).value,
                       ParseFields(spec.compaction.value).value["dataSource" := source]);
    }
  }

  lemma RulesPosts(spec: Spec, h: Http, w: World)
    ensures UpdateRules(spec, h, w).0.posts == w.posts +
            if && spec.rules.Listed? && spec.rules.items != [] && (forall x :: x in spec.rules.items ==> x.Obj?)
               && DataSource(spec).Some?
            then [RulesPost(spec.rules.items)] else []
    ensures UpdateRules(spec, h, w).1 == if RulesSettled(spec, h) then Some(true) else None
  {
    hide DataSource;
  }

  /** Compaction depends on nothing but the spec, the answers and what Druid holds. */
  lemma CompactionAlike(spec: Spec, h: Http, w: World, x: World)
    requires w.compaction == x.compaction
    ensures Comparable(spec, h, w) == Comparable(spec, h, x)
    ensures Comparable(spec, h, w) ==> Covered(spec, h, w) == Covered(spec, h, x)
    ensures CompactionUnneeded(spec, h, w) == CompactionUnneeded(spec, h, x)
    ensures CompactionAccepted(spec, h, w) == CompactionAccepted(spec, h, x)
    ensures !(CompactionUnneeded(spec, h, w) && CompactionAccepted(spec, h, w))
  {
    hide DataSource, Covers;
  }

  /** What the compaction part of the update path leaves behind. */
  lemma RefreshCompactionExactly(spec: Spec, h: Http, w: World)
    requires SpecJson(spec).Some?
    ensures var (w', ok) := RefreshCompaction(spec, h, w);
            var patched := CompactionAccepted(spec, h, w) && !h.compactionPatchFails;
            && (ok <==> CompactionUnneeded(spec, h, w) || patched)
            && w'.stored == (if patched then Recorded(spec, w.memory.taskId) else w.stored)
            && w'.memory == (if patched then w.stored else w.memory)
            && w'.patches == w.patches + (if patched then 1 else 0)
            && w'.posts == UpdateCompaction(spec, h, w).0.posts
            && w'.compaction == UpdateCompaction(spec, h, w).0.compaction
  {
    CompactionOutcome(spec, h, w);
    CompactionFrame(spec, h, w);
    hide UpdateCompaction, CompactionAccepted, CompactionUnneeded, SpecJson, StoredRules;
  }

  /** A status that records the spec under a task id, written on the update path. */
  function Recorded(spec: Spec, taskId: string): Status {
    Status(taskId, SpecJson(spec), StoredRules(spec.rules), UPDATE_SUCCESS)
  }

  lemma ReadSpec(spec: Spec)
    ensures SpecJson(spec) == if Readable(GivenSpec(spec)) then Some(GivenSpec(spec).json) else None
  {
  }

  lemma ResubmitExactly(spec: Spec, h: Http, w: World)
    requires SpecJson(spec).Some? && StatusOk(w.stored) && !Unrecorded(w.stored) && w.memory == w.stored
    ensures var (w', ok) := Resubmit(spec, h, w);
            var patched := Resubmitted(spec, h, w.stored);
            && (ok <==> ReachesCompaction(spec, h, w.stored))
            && w'.stored == (if patched then Recorded(spec, TaskIdOf(h.taskReply).value) else w.stored)
            && w'.memory == w.stored && w'.compaction == w.compaction
            && w'.patches == w.patches + (if patched then 1 else 0)
            && w'.posts == w.posts + if Submits(spec, w.stored) then [TaskPost(GivenSpec(spec).json)] else []
  {
    ReadSpec(spec);
    hide SpecJson, StoredRules, TaskIdOf, Readable, GivenSpec;
  }

  lemma RefreshRulesExactly(spec: Spec, h: Http, w: World)
    requires SpecJson(spec).Some?
    ensures var (w', ok) := RefreshRules(spec, h, w);
            var differ := w.memory.rules != spec.rules;
            var patched := differ && RulesSettled(spec, h) && !h.rulesPatchFails;
            && (ok <==> !differ || patched)
            && w'.stored == (if patched then Recorded(spec, w.memory.taskId) else w.stored)
            && w'.patches == w.patches + (if patched then 1 else 0)
            && w'.compaction == w.compaction
            && w'.posts == if differ then UpdateRules(spec, h, w).0.posts else w.posts
  {
    RulesFrame(spec, h, w);
    RulesPosts(spec, h, w);
    hide UpdateRules, SpecJson, StoredRules, RulesSettled;
  }

  /** The update path patches the status with a task id: that of the answer after a recorded submission
      alone or with both later patches, and otherwise the one that was stored before the pass, because
      each patch takes the id from a copy made before the patch preceding it. */
  function TaskIdAfter(spec: Spec, h: Http, s: Status, second: bool, third: bool): string {
    if Resubmitted(spec, h, s) && second == third then TaskIdOf(h.taskReply).value else s.taskId
  }

  /** The update path: which patches it makes, what it leaves in the status, and when it succeeds. */
  lemma RefreshedExactly(spec: Spec, h: Http, w: World)
    requires StatusOk(w.stored) && !Unrecorded(w.stored)
    ensures var (w', ok) := Pass(spec, h, w);
            var first := Resubmitted(spec, h, w.stored);
            var second := && ReachesCompaction(spec, h, w.stored) && CompactionAccepted(spec, h, w)
                          && !h.compactionPatchFails;
            var third := && ReachesRules(spec, h, w) && RulesSeen(spec, h, w) != spec.rules
                         && RulesSettled(spec, h) && !h.rulesPatchFails;
            && (ok <==> ReachesRules(spec, h, w) && (RulesSeen(spec, h, w) == spec.rules || third))
            && w'.patches == w.patches + (if first then 1 else 0) + (if second then 1 else 0) + (if third then 1 else 0)
            && w'.stored == if !first && !second && !third then w.stored
                            else Status(TaskIdAfter(spec, h, w.stored, second, third), Some(GivenSpec(spec).json),
                                        if RuleItems(spec.rules) == [] then Absent else spec.rules, UPDATE_SUCCESS)
  {
    ReadSpec(spec);
    hide Resubmit, RefreshCompaction, RefreshRules, CompactionAccepted, CompactionUnneeded, RulesSettled, TaskIdOf;
    hide Readable, GivenSpec, SpecJson;
    if SpecJson(spec).Some? {
      var w0 := w.(memory := w.stored);
      ResubmitExactly(spec, h, w0);
      var w1 := Resubmit(spec, h, w0).0;
      CompactionAlike(spec, h, w, w1);
      RefreshCompactionExactly(spec, h, w1);
      RefreshRulesExactly(spec, h, RefreshCompaction(spec, h, w1).0);
    }
  }

  /** Every pass sends exactly these requests, in this order. */
  lemma SendsExactly(spec: Spec, h: Http, w: World)
    requires StatusOk(w.stored)
    ensures Pass(spec, h, w).0.posts == w.posts + Sent(spec, h, w)
  {
    ReadSpec(spec);
    hide CompactionAccepted, CompactionUnneeded, RulesSettled, TaskIdOf, Readable, GivenSpec, SpecJson;
    if SpecJson(spec).Some? {
      if Unrecorded(w.stored) { CreateSends(spec, h, w); } else { RefreshSends(spec, h, w); }
    }
  }

  lemma CreateSends(spec: Spec, h: Http, w: World)
    requires Unrecorded(w.stored) && SpecJson(spec).Some?
    ensures Create(spec, h, w.(memory := w.stored)).0.posts == w.posts + Sent(spec, h, w)
  {
    ReadSpec(spec);
    var w1 := PostTask(spec, w.(memory := w.stored));
    CompactionAlike(spec, h, w, w1);
    CompactionOutcome(spec, h, w1);
    CompactionPosts(spec, h, w1);
    RulesPosts(spec, h, UpdateCompaction(spec, h, w1).0);
    hide UpdateCompaction, UpdateRules, CompactionAccepted, CompactionUnneeded, RulesSettled, TaskIdOf;
    hide Readable, GivenSpec, SpecJson, Comparable, Covered, RulesReadable, DataSource;
  }

  lemma RefreshSends(spec: Spec, h: Http, w: World)
    requires StatusOk(w.stored) && !Unrecorded(w.stored) && SpecJson(spec).Some?
    ensures Refresh(spec, h, w.(memory := w.stored)).0.posts == w.posts + Sent(spec, h, w)
  {
    ReadSpec(spec);
    hide Resubmit, RefreshCompaction, RefreshRules, UpdateCompaction, UpdateRules;
    hide CompactionAccepted, CompactionUnneeded, RulesSettled, TaskIdOf;
    hide Readable, GivenSpec, SpecJson, Comparable, Covered, RulesReadable, DataSource;
    var w0 := w.(memory := w.stored);
    ResubmitExactly(spec, h, w0);
    var w1 := Resubmit(spec, h, w0).0;
    CompactionAlike(spec, h, w, w1);
    RefreshCompactionExactly(spec, h, w1);
    CompactionPosts(spec, h, w1);
    var w2 := RefreshCompaction(spec, h, w1).0;
    RefreshRulesExactly(spec, h, w2);
    RulesPosts(spec, h, w2);
  }

  /** A task is submitted exactly if the spec can be read and is not the recorded one. The submission is
      the first request of the pass, carries the spec, and is the only one. If it is answered with 200 and a
      task id and the status can be patched, the new spec is the recorded one afterwards, and the answered
      id the stored one if no other patch follows. */
  lemma SubmittedExactly(spec: Spec, h: Http, w: World)
    requires StatusOk(w.stored)
    ensures var w' := Pass(spec, h, w).0;
            && w.posts <= w'.posts
            && (TaskPosted(w.posts, w'.posts) <==>
                Readable(GivenSpec(spec)) && w.stored.recorded != Some(GivenSpec(spec).json))
            && (TaskPosted(w.posts, w'.posts) ==> w'.posts[|w.posts|] == TaskPost(GivenSpec(spec).json))
            && (forall i :: |w.posts| < i < |w'.posts| ==> !w'.posts[i].TaskPost?)
            && (TaskPosted(w.posts, w'.posts) && !Unrecorded(w.stored) && SubmissionRecorded(h) ==>
                  && w'.stored.recorded == Some(GivenSpec(spec).json)
                  && (w'.patches == w.patches + 1 ==> w'.stored.taskId == TaskIdOf(h.taskReply).value))
  {
    SendsExactly(spec, h, w);
    if !Unrecorded(w.stored) { RefreshedExactly(spec, h, w); }
    var w' := Pass(spec, h, w).0;
    hide Pass, CompactionSent, RulesSent, ReachesRules, CompactionAccepted, RulesSettled, Readable, GivenSpec, TaskIdOf;
    if Submits(spec, w.stored) {
      assert w'.posts[|w.posts|] == TaskPost(GivenSpec(spec).json);
    }
  }

  /** The create path: a status is written exactly in these passes, with the answered id, the spec and the
      rules, and as a success exactly if the answer was 200 and compaction was accepted. */
  lemma CreatedExactly(spec: Spec, h: Http, w: World)
    requires Unrecorded(w.stored)
    ensures var (w', ok) := Pass(spec, h, w);
            var recorded := && Readable(GivenSpec(spec)) && !h.taskFails && TaskIdOf(h.taskReply).Some?
                            && !h.specPatchFails && ReachesRules(spec, h, w) && RulesSettled(spec, h);
            && (ok <==> recorded) && w'.patches == w.patches + (if recorded then 1 else 0)
            && w'.stored == if !recorded then w.stored
                            else Status(TaskIdOf(h.taskReply).value, Some(GivenSpec(spec).json),
                                        if RuleItems(spec.rules) == [] then Absent else spec.rules,
                                        if h.taskStatus == 200 && CompactionAccepted(spec, h, w)
                                        then CREATE_SUCCESS else CREATE_FAIL)
  {
    ReadSpec(spec);
    if SpecJson(spec).Some? {
      var w1 := PostTask(spec, w.(memory := w.stored));
      CompactionAlike(spec, h, w, w1);
      CompactionOutcome(spec, h, w1);
      CompactionFrame(spec, h, w1);
      var w2 := UpdateCompaction(spec, h, w1).0;
      RulesPosts(spec, h, w2);
      RulesFrame(spec, h, w2);
      hide UpdateCompaction, UpdateRules, CompactionAccepted, CompactionUnneeded, RulesSettled, TaskIdOf;
      hide Readable, GivenSpec, SpecJson;
    }
  }

  /** The request is about rules. */
  predicate RulesPosted(before: seq<Post>, after: seq<Post>) {
    exists i :: |before| <= i < |after| && after[i].RulesPost?
  }

  /** Changed rules get lost: a pass on the update path that comes to rules which differ from the recorded
      ones, and could post them, does not post them exactly if it has recorded a changed spec and a changed
      compaction just before. It has then recorded the rules as well, so they count as settled. */
  lemma RulesLostExactly(spec: Spec, h: Http, w: World)
    requires StatusOk(w.stored) && !Unrecorded(w.stored) && ReachesRules(spec, h, w)
    requires w.stored.rules != spec.rules && RuleItems(spec.rules) != []
    requires RulesReadable(spec.rules) && DataSource(spec).Some?
    ensures var w' := Pass(spec, h, w).0;
            && w.posts <= w'.posts
            && (!RulesPosted(w.posts, w'.posts) <==>
                Resubmitted(spec, h, w.stored) && CompactionAccepted(spec, h, w))
            && (!RulesPosted(w.posts, w'.posts) ==> w'.stored.rules == spec.rules && Pass(spec, h, w).1)
  {
    SendsExactly(spec, h, w);
    RefreshedExactly(spec, h, w);
    var w' := Pass(spec, h, w).0;
    hide Pass, CompactionSent, CompactionAccepted, CompactionUnneeded, RulesSettled, Readable, GivenSpec, TaskIdOf;
    hide DataSource, RulesReadable;
    var sent := Sent(spec, h, w);
    if RulesSent(spec, h, w) {
      assert w'.posts[|w'.posts| - 1] == RulesPost(RuleItems(spec.rules));
    } else {
      assert forall x :: x in sent ==> !x.RulesPost?;
      assert forall i :: |w.posts| <= i < |w'.posts| ==> w'.posts[i] in sent;
    }
  }

  lemma RefreshedCompaction(spec: Spec, h: Http, w: World)
    requires StatusOk(w.stored) && !Unrecorded(w.stored) && ReachesCompaction(spec, h, w.stored)
    ensures Pass(spec, h, w).0.compaction == UpdateCompaction(spec, h, w).0.compaction
  {
    ReadSpec(spec);
    var w0 := w.(memory := w.stored);
    hide Resubmit, RefreshCompaction, RefreshRules, UpdateCompaction, Readable, GivenSpec, SpecJson;
    ResubmitExactly(spec, h, w0);
    var w1 := Resubmit(spec, h, w0).0;
    CompactionIgnoresRest(spec, h, w, w1);
    RefreshCompactionExactly(spec, h, w1);
    RefreshRulesExactly(spec, h, RefreshCompaction(spec, h, w1).0);
  }

  /** They stay lost: the status is then in step with the spec, so no later pass with it posts anything. */
  lemma LostRulesStayLost(spec: Spec, h: Http, w: World)
    requires StatusOk(w.stored) && !Unrecorded(w.stored) && ReachesRules(spec, h, w)
    requires w.stored.rules != spec.rules && RuleItems(spec.rules) != []
    requires Resubmitted(spec, h, w.stored) && CompactionAccepted(spec, h, w) && KeepsCompaction(spec, h)
    ensures InStep(spec, Pass(spec, h, w).0)
  {
    ReadSpec(spec);
    RefreshedExactly(spec, h, w);
    RefreshedCompaction(spec, h, w);
    PassKeepsStatusOk(spec, h, w);
    CompactionOutcome(spec, h, w);
    SettledIsIncluded(spec, h, w);
    CompactionAsksForSomething(spec, w);
    hide Pass, UpdateCompaction, CompactionAccepted, CompactionUnneeded, RulesSettled, Readable, GivenSpec, SpecJson;
    hide TaskIdOf, CompactionIncluded, KeepsCompaction;
  }
}
