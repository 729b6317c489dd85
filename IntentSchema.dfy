/** `IntentPlan` and `AgentTask`: the router's plan, with the enumerated
    literal fields pydantic enforces. `RawIntentPlan` is the same record
    as decoded from JSON, before its literals are checked. */
module IntentSchema {
  import opened Wrappers

  datatype Intent = Analytics | Seo | Multi

  /** The agents a task may name; "multi" is an intent, not an agent. */
  datatype TaskAgent = AnalyticsTask | SeoTask

  datatype AgentTask = AgentTask(agent: TaskAgent, goal: string)

  datatype IntentPlan = IntentPlan(intent: Intent, requiresPropertyId: bool, tasks: seq<AgentTask>)

  datatype RawTask = RawTask(agent: string, goal: string)

  datatype RawIntentPlan = RawIntentPlan(intent: string, requiresPropertyId: bool, tasks: seq<RawTask>)

  /** The literal an intent is written as. */
  function IntentName(i: Intent): string {
    match i
    case Analytics => "analytics"
    case Seo => "seo"
    case Multi => "multi"
  }

  function AgentName(a: TaskAgent): string {
    match a
    case AnalyticsTask => "analytics"
    case SeoTask => "seo"
  }

  /** The `Literal["analytics", "seo", "multi"]` check. */
  function ParseIntent(s: string): (r: Option<Intent>)
    ensures r.Some? <==> s == "analytics" || s == "seo" || s == "multi"
    ensures r.Some? ==> IntentName(r.value) == s
  {
    if s == "analytics" then Some(Analytics)
    else if s == "seo" then Some(Seo)
    else if s == "multi" then Some(Multi)
    else None
  }

  /** The `Literal["analytics", "seo"]` check. */
  function ParseAgent(s: string): (r: Option<TaskAgent>)
    ensures r.Some? <==> s == "analytics" || s == "seo"
    ensures r.Some? ==> AgentName(r.value) == s
  {
    if s == "analytics" then Some(AnalyticsTask)
    else if s == "seo" then Some(SeoTask)
    else None
  }

  predicate ValidAgents(ts: seq<RawTask>) {
    forall i :: 0 <= i < |ts| ==> ParseAgent(ts[i].agent).Some?
  }

  /** Checks every task, keeping their order; one bad agent rejects all. */
  function ValidateTasks(ts: seq<RawTask>): (r: Option<seq<AgentTask>>)
    ensures r.Some? <==> ValidAgents(ts)
    ensures r.Some? ==> |r.value| == |ts|
    ensures r.Some? ==> forall i :: 0 <= i < |ts| ==>
      AgentName(r.value[i].agent) == ts[i].agent && r.value[i].goal == ts[i].goal
  {
    if ts == [] then Some([])
    else
      var head := ParseAgent(ts[0].agent);
      var rest := ValidateTasks(ts[1..]);
      if head.None? then
        None
      else if rest.None? then
        assert !ValidAgents(ts) by {
          var k :| 0 <= k < |ts[1..]| && ParseAgent(ts[1..][k].agent).None?;
          assert ParseAgent(ts[k + 1].agent).None?;
        }
        None
      else
        Some([AgentTask(head.value, ts[0].goal)] + rest.value)
  }

  /** `IntentPlan(**parsed)`: succeeds exactly when every literal is in range. */
  function Validate(raw: RawIntentPlan): (r: Option<IntentPlan>)
    ensures r.Some? <==> ParseIntent(raw.intent).Some? && ValidAgents(raw.tasks)
    ensures r.Some? ==> IntentName(r.value.intent) == raw.intent
    ensures r.Some? ==> r.value.requiresPropertyId == raw.requiresPropertyId
    ensures r.Some? ==> |r.value.tasks| == |raw.tasks|
  {
    match (ParseIntent(raw.intent), ValidateTasks(raw.tasks))
    case (Some(i), Some(ts)) => Some(IntentPlan(i, raw.requiresPropertyId, ts))
    case _ => None
  }

  function TaskToRaw(t: AgentTask): RawTask {
    RawTask(AgentName(t.agent), t.goal)
  }

  /** A plan written back out with its literal names (`plan.dict()`). */
  function ToRaw(p: IntentPlan): RawIntentPlan {
    RawIntentPlan(IntentName(p.intent), p.requiresPropertyId,
      seq(|p.tasks|, i requires 0 <= i < |p.tasks| => TaskToRaw(p.tasks[i])))
  }

  lemma IntentNameRoundTrip(i: Intent)
    ensures ParseIntent(IntentName(i)) == Some(i)
  {
  }

  lemma AgentNameRoundTrip(a: TaskAgent)
    ensures ParseAgent(AgentName(a)) == Some(a)
  {
  }

  /** Every plan survives being written out and validated again. */
  lemma ValidateToRaw(p: IntentPlan)
    ensures Validate(ToRaw(p)) == Some(p)
  {
    var raw := ToRaw(p);
    forall i | 0 <= i < |raw.tasks|
      ensures ParseAgent(raw.tasks[i].agent).Some?
    {
      AgentNameRoundTrip(p.tasks[i].agent);
    }
    IntentNameRoundTrip(p.intent);
    var ts := ValidateTasks(raw.tasks).value;
    forall i | 0 <= i < |p.tasks|
      ensures ts[i] == p.tasks[i]
    {
      assert raw.tasks[i] == TaskToRaw(p.tasks[i]);
      assert AgentName(ts[i].agent) == AgentName(p.tasks[i].agent);
      AgentNameRoundTrip(p.tasks[i].agent);
      AgentNameRoundTrip(ts[i].agent);
    }
    assert ts == p.tasks;
  }

  /** Validation loses nothing: a validated plan writes back to its input. */
  lemma ValidatedWritesBack(raw: RawIntentPlan)
    requires Validate(raw).Some?
    ensures ToRaw(Validate(raw).value) == raw
  {
    var p := Validate(raw).value;
    assert ToRaw(p).tasks == raw.tasks;
  }

  /** "multi" is a valid intent but not a valid task agent, so a task
      naming it fails validation. */
  lemma MultiIsNotAnAgent(raw: RawIntentPlan, i: nat)
    requires i < |raw.tasks| && raw.tasks[i].agent == "multi"
    ensures ParseIntent("multi") == Some(Multi)
    ensures Validate(raw) == None
  {
    assert ParseAgent(raw.tasks[i].agent) == None;
  }
}
