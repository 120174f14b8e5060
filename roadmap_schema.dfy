/** The roadmap schemas of src/Schema/roadmapSchema.js and what they guarantee about a parsed roadmap. */
module RoadmapSchema {
  import opened Wrappers
  import opened JsonValue
  import opened Zod

  const Statuses: seq<string> := ["pending", "in-progress", "completed"]
  const MilestoneTypes: seq<string> := ["course", "project", "certification"]

  function Str(): Schema { SString(AnyString) }
  function Num(): Schema { SNumber(None, None) }
  function Percent(): Schema { SNumber(Some(0.0), Some(100.0)) }
  function Status(): Schema { SDefault(SEnum(Statuses), Const(JStr("pending"))) }

  const MilestoneSchema: Schema := SObject([
    Field("id", Num()),
    Field("title", Str()),
    Field("type", SDefault(SOptional(SEnum(MilestoneTypes)), Const(JStr("course")))),
    Field("duration", Str()),
    Field("status", Status()),
    Field("provider", SOptional(Str()))])

  const PhaseSchema: Schema := SObject([
    Field("id", Num()),
    Field("title", Str()),
    Field("duration", Str()),
    Field("status", Status()),
    Field("progress", SDefault(Percent(), Const(JNum(0.0)))),
    Field("milestones", SDefault(SArray(MilestoneSchema), Const(JArr([]))))])

  const Roadmap: Schema := SObject([
    Field("title", Str()),
    Field("totalDuration", Str()),
    Field("completionRate", SDefault(Percent(), Const(JNum(0.0)))),
    Field("description", SOptional(Str())),
    Field("progress", SDefault(Percent(), Const(JNum(0.0)))),
    Field("startDate", Str()),
    Field("phases", SDefault(SArray(PhaseSchema), Const(JArr([])))),
    Field("email", SOptional(SString(Email))),
    Field("userId", SOptional(Str())),
    Field("ownerName", SOptional(Str()))])

  /** `RoadmapSchema.partial()`. */
  const RoadmapUpdate: Schema := Partial(Roadmap)

  /** The parsed object, when the value parses as `s`. */
  function Parsed(env: Env, s: Schema, m: map<string, Json>): Option<map<string, Json>> {
    var r := Parse(env, s, Some(JObj(m)));
    if r.Ok? && r.value.Some? && r.value.value.JObj? then Some(r.value.value.fields) else None
  }

  /** A roadmap without a title, a total duration or a start date is rejected. */
  lemma RoadmapRequiresFields(env: Env, m: map<string, Json>)
    requires "title" !in m || "totalDuration" !in m || "startDate" !in m
    ensures Parse(env, Roadmap, Some(JObj(m))) == Fail
  {
    if "title" !in m {
      ObjectMissingRequired(env, Roadmap, m, 0);
    } else if "totalDuration" !in m {
      ObjectMissingRequired(env, Roadmap, m, 1);
    } else {
      ObjectMissingRequired(env, Roadmap, m, 5);
    }
  }

  /** A percentage field, defaulted to 0: the output always holds it, within [0, 100], and 0 when the input lacked it. */
  lemma PercentField(env: Env, s: Schema, m: map<string, Json>, i: nat)
    requires s.SObject? && i < |s.fields| && FirstNamed(s.fields, i)
    requires s.fields[i].schema == SDefault(Percent(), Const(JNum(0.0)))
    requires Parse(env, s, Some(JObj(m))).Ok?
    ensures var out := Parse(env, s, Some(JObj(m))).value.value.fields;
      var k := s.fields[i].name;
      k in out && out[k].JNum? && 0.0 <= out[k].n <= 100.0
      && (k !in m ==> out[k] == JNum(0.0))
  {
    ObjectField(env, s, m, i);
  }

  /** A status field: the output always holds one of the three statuses, `pending` when the input lacked it. */
  lemma StatusField(env: Env, s: Schema, m: map<string, Json>, i: nat)
    requires s.SObject? && i < |s.fields| && FirstNamed(s.fields, i)
    requires s.fields[i].schema == Status()
    requires Parse(env, s, Some(JObj(m))).Ok?
    ensures var out := Parse(env, s, Some(JObj(m))).value.value.fields;
      var k := s.fields[i].name;
      k in out && out[k].JStr? && out[k].s in Statuses
      && (k !in m ==> out[k] == JStr("pending"))
  {
    ObjectField(env, s, m, i);
    assert "pending" in Statuses;
  }

  /** A list field defaulted to `[]`: the output always holds a list, `[]` when the input lacked it. */
  lemma ListField(env: Env, s: Schema, m: map<string, Json>, i: nat, elem: Schema)
    requires s.SObject? && i < |s.fields| && FirstNamed(s.fields, i)
    requires s.fields[i].schema == SDefault(SArray(elem), Const(JArr([])))
    requires Parse(env, s, Some(JObj(m))).Ok?
    ensures var out := Parse(env, s, Some(JObj(m))).value.value.fields;
      var k := s.fields[i].name;
      k in out && out[k].JArr? && (k !in m ==> out[k] == JArr([]))
  {
    ObjectField(env, s, m, i);
    DefaultedArray(env, elem, Lookup(m, s.fields[i].name));
  }

  /** A parsed roadmap has a completion rate in [0, 100], 0 when the input lacked one. */
  lemma RoadmapCompletionRate(env: Env, m: map<string, Json>)
    requires Parse(env, Roadmap, Some(JObj(m))).Ok?
    ensures var out := Parse(env, Roadmap, Some(JObj(m))).value.value.fields;
      && "completionRate" in out && out["completionRate"].JNum? && 0.0 <= out["completionRate"].n <= 100.0
      && ("completionRate" !in m ==> out["completionRate"] == JNum(0.0))
  {
    PercentField(env, Roadmap, m, 2);
  }

  /** A parsed roadmap has a progress in [0, 100], 0 when the input lacked one. */
  lemma RoadmapProgress(env: Env, m: map<string, Json>)
    requires Parse(env, Roadmap, Some(JObj(m))).Ok?
    ensures var out := Parse(env, Roadmap, Some(JObj(m))).value.value.fields;
      && "progress" in out && out["progress"].JNum? && 0.0 <= out["progress"].n <= 100.0
      && ("progress" !in m ==> out["progress"] == JNum(0.0))
  {
    PercentField(env, Roadmap, m, 4);
  }

  /** A parsed roadmap has a list of phases, `[]` when the input lacked one. */
  lemma RoadmapPhases(env: Env, m: map<string, Json>)
    requires Parse(env, Roadmap, Some(JObj(m))).Ok?
    ensures var out := Parse(env, Roadmap, Some(JObj(m))).value.value.fields;
      "phases" in out && out["phases"].JArr? && ("phases" !in m ==> out["phases"] == JArr([]))
  {
    ListField(env, Roadmap, m, 6, PhaseSchema);
  }

  /** A present owner email must pass the email check. */
  lemma RoadmapEmailChecked(env: Env, m: map<string, Json>)
    requires Parse(env, Roadmap, Some(JObj(m))).Ok? && "email" in m
    ensures m["email"].JStr? && env.isEmail(m["email"].s)
  {
    ObjectField(env, Roadmap, m, 7);
  }

  /** A phase requires an id, a title and a duration. */
  lemma PhaseRequiresFields(env: Env, m: map<string, Json>)
    requires "id" !in m || "title" !in m || "duration" !in m
    ensures Parse(env, PhaseSchema, Some(JObj(m))) == Fail
  {
    if "id" !in m {
      ObjectMissingRequired(env, PhaseSchema, m, 0);
    } else if "title" !in m {
      ObjectMissingRequired(env, PhaseSchema, m, 1);
    } else {
      ObjectMissingRequired(env, PhaseSchema, m, 2);
    }
  }

  /** A parsed phase has one of the three statuses, `pending` when the input lacked one. */
  lemma PhaseStatus(env: Env, m: map<string, Json>)
    requires Parse(env, PhaseSchema, Some(JObj(m))).Ok?
    ensures var out := Parse(env, PhaseSchema, Some(JObj(m))).value.value.fields;
      && "status" in out && out["status"].JStr? && out["status"].s in Statuses
      && ("status" !in m ==> out["status"] == JStr("pending"))
  {
    StatusField(env, PhaseSchema, m, 3);
  }

  /** A parsed phase has a progress in [0, 100], 0 when the input lacked one. */
  lemma PhaseProgress(env: Env, m: map<string, Json>)
    requires Parse(env, PhaseSchema, Some(JObj(m))).Ok?
    ensures var out := Parse(env, PhaseSchema, Some(JObj(m))).value.value.fields;
      && "progress" in out && out["progress"].JNum? && 0.0 <= out["progress"].n <= 100.0
      && ("progress" !in m ==> out["progress"] == JNum(0.0))
  {
    PercentField(env, PhaseSchema, m, 4);
  }

  /** A parsed phase has a list of milestones, `[]` when the input lacked one. */
  lemma PhaseMilestones(env: Env, m: map<string, Json>)
    requires Parse(env, PhaseSchema, Some(JObj(m))).Ok?
    ensures var out := Parse(env, PhaseSchema, Some(JObj(m))).value.value.fields;
      "milestones" in out && out["milestones"].JArr? && ("milestones" !in m ==> out["milestones"] == JArr([]))
  {
    ListField(env, PhaseSchema, m, 5, MilestoneSchema);
  }

  /** A parsed milestone has a type among its three, `course` when the input lacked one. */
  lemma MilestoneType(env: Env, m: map<string, Json>)
    requires Parse(env, MilestoneSchema, Some(JObj(m))).Ok?
    ensures var out := Parse(env, MilestoneSchema, Some(JObj(m))).value.value.fields;
      && "type" in out && out["type"].JStr? && out["type"].s in MilestoneTypes
      && ("type" !in m ==> out["type"] == JStr("course"))
  {
    ObjectField(env, MilestoneSchema, m, 2);
    assert "course" in MilestoneTypes;
  }

  /** A parsed milestone has one of the three statuses, `pending` when the input lacked one. */
  lemma MilestoneStatus(env: Env, m: map<string, Json>)
    requires Parse(env, MilestoneSchema, Some(JObj(m))).Ok?
    ensures var out := Parse(env, MilestoneSchema, Some(JObj(m))).value.value.fields;
      && "status" in out && out["status"].JStr? && out["status"].s in Statuses
      && ("status" !in m ==> out["status"] == JStr("pending"))
  {
    StatusField(env, MilestoneSchema, m, 4);
  }

  /**
   * The update schema makes every roadmap field optional: it accepts an empty
   * update, accepts every full roadmap, and fills in no default.
   */
  lemma UpdateIsPartial(env: Env, m: map<string, Json>)
    ensures forall i :: 0 <= i < |RoadmapUpdate.fields| ==> RoadmapUpdate.fields[i].schema.SOptional?
    ensures Parse(env, RoadmapUpdate, Some(JObj(map[]))) == Ok(Some(JObj(map[])))
    ensures Parse(env, Roadmap, Some(JObj(m))).Ok? ==> Parse(env, RoadmapUpdate, Some(JObj(m))).Ok?
    ensures Parse(env, RoadmapUpdate, Some(JObj(m))).Ok? ==>
      Parse(env, RoadmapUpdate, Some(JObj(m))).value.value.fields.Keys <= m.Keys
  {
    PartialAcceptsEmpty(env, Roadmap);
    if Parse(env, Roadmap, Some(JObj(m))).Ok? {
      PartialAcceptsMore(env, Roadmap, m);
    }
    if Parse(env, RoadmapUpdate, Some(JObj(m))).Ok? {
      PartialAppliesNoDefault(env, Roadmap, m);
    }
  }

  /** Neither schema declares `createdAt`, so a parsed roadmap or update never carries one. */
  lemma NoCreatedAt(env: Env, m: map<string, Json>)
    ensures Parsed(env, Roadmap, m).Some? ==> "createdAt" !in Parsed(env, Roadmap, m).value
    ensures Parsed(env, RoadmapUpdate, m).Some? ==> "createdAt" !in Parsed(env, RoadmapUpdate, m).value
  {
    assert forall i :: 0 <= i < |Roadmap.fields| ==> Roadmap.fields[i].name != "createdAt";
    assert !HasField(Roadmap.fields, "createdAt");
    assert forall i :: 0 <= i < |RoadmapUpdate.fields| ==> RoadmapUpdate.fields[i].name == Roadmap.fields[i].name;
    assert !HasField(RoadmapUpdate.fields, "createdAt");
  }
}
