/** The user profile schema of src/Schema/userSchema.js and what it guarantees about a parsed profile. */
module UserSchema {
  import opened Wrappers
  import opened JsonValue
  import opened Zod

  const Priorities: seq<string> := ["low", "medium", "high"]
  const ActivityTypes: seq<string> := ["course", "roadmap", "achievement", "skill", "certification"]
  const RecommendationTypes: seq<string> := ["course", "certification", "job", "skill", "project"]

  function Str(): Schema { SString(AnyString) }
  function OptStr(): Schema { SOptional(SString(AnyString)) }
  function OptNum(): Schema { SOptional(SNumber(None, None)) }
  function OptBool(): Schema { SOptional(SBool) }
  function OptUrl(): Schema { SOptional(SString(Url)) }

  const Education: Schema := SObject([
    Field("id", OptNum()), Field("school", OptStr()), Field("degree", OptStr()),
    Field("year", OptStr()), Field("gpa", OptStr())])

  const Experience: Schema := SObject([
    Field("id", OptNum()), Field("company", OptStr()), Field("position", OptStr()),
    Field("duration", OptStr()), Field("location", OptStr()), Field("description", OptStr())])

  const Skill: Schema := SObject([
    Field("name", OptStr()), Field("level", OptNum()), Field("category", OptStr())])

  const SocialLinks: Schema := SObject([
    Field("website", OptUrl()), Field("github", OptUrl()),
    Field("linkedin", OptUrl()), Field("twitter", OptUrl())])

  const Preferences: Schema := SObject([
    Field("emailNotifications", OptBool()), Field("pushNotifications", OptBool()),
    Field("weeklyReports", OptBool()), Field("jobAlerts", OptBool()),
    Field("skillRecommendations", OptBool())])

  const ResumeSuggestion: Schema := SObject([
    Field("type", OptStr()), Field("title", OptStr()), Field("description", OptStr()),
    Field("priority", SOptional(SEnum(Priorities)))])

  const ResumeAnalysis: Schema := SObject([
    Field("strengths", SOptional(SArray(Str()))), Field("weaknesses", SOptional(SArray(Str())))])

  const Resume: Schema := SObject([
    Field("score", OptNum()), Field("lastUpdated", OptStr()), Field("fileName", OptStr()),
    Field("url", OptUrl()), Field("publicId", OptStr()), Field("latex", OptStr()),
    Field("suggestions", SOptional(SArray(ResumeSuggestion))),
    Field("analysis", SOptional(ResumeAnalysis))])

  const Activity: Schema := SObject([
    Field("action", OptStr()), Field("item", OptStr()), Field("time", OptStr()),
    Field("type", SOptional(SEnum(ActivityTypes)))])

  const Milestone: Schema := SObject([
    Field("title", OptStr()), Field("deadline", OptStr()), Field("progress", OptNum()),
    Field("priority", SOptional(SEnum(Priorities))), Field("category", OptStr())])

  const Recommendation: Schema := SObject([
    Field("type", SOptional(SEnum(RecommendationTypes))), Field("title", OptStr()),
    Field("provider", OptStr()), Field("duration", OptStr()), Field("rating", OptNum()),
    Field("relevance", OptNum()), Field("url", OptStr())])

  const DashboardData: Schema := SObject([
    Field("skillsMastered", OptNum()), Field("careerScore", OptNum()),
    Field("coursesCompleted", OptNum()), Field("certifications", OptNum()),
    Field("profileCompleteness", OptNum()),
    Field("recentActivities", SOptional(SArray(SOptional(Activity)))),
    Field("upcomingMilestones", SOptional(SArray(SOptional(Milestone)))),
    Field("recommendations", SOptional(SArray(SOptional(Recommendation))))])

  const User: Schema := SObject([
    Field("name", Str()),
    Field("email", SString(Email)),
    Field("phone", Str()),
    Field("isActive", SDefault(SBool, Const(JBool(true)))),
    Field("createdAt", SDefault(SString(Datetime), Now)),
    Field("location", OptStr()), Field("title", OptStr()), Field("company", OptStr()), Field("bio", OptStr()),
    Field("education", SOptional(SArray(Education))),
    Field("experience", SOptional(SArray(Experience))),
    Field("skills", SOptional(SArray(Skill))),
    Field("social", SOptional(SocialLinks)),
    Field("preferences", SOptional(Preferences)),
    Field("resume", SOptional(Resume)),
    Field("dashboardData", SOptional(DashboardData))])

  /** The names of the fields a profile must carry or gets a default for. */
  const Demanded: set<string> := {"name", "email", "phone", "isActive", "createdAt"}

  /** A profile without a name, an email or a phone is rejected. */
  lemma UserRequiresFields(env: Env, m: map<string, Json>)
    requires "name" !in m || "email" !in m || "phone" !in m
    ensures Parse(env, User, Some(JObj(m))) == Fail
  {
    if "name" !in m {
      ObjectMissingRequired(env, User, m, 0);
    } else if "email" !in m {
      ObjectMissingRequired(env, User, m, 1);
    } else {
      ObjectMissingRequired(env, User, m, 2);
    }
  }

  /** A parsed profile carries an email that passes the email check. */
  lemma UserEmailChecked(env: Env, m: map<string, Json>)
    requires Parse(env, User, Some(JObj(m))).Ok?
    ensures "email" in m && m["email"].JStr? && env.isEmail(m["email"].s)
  {
    UserRequiresFieldsContra(env, m);
    assert User.fields[1] == Field("email", SString(Email));
    ObjectField(env, User, m, 1);
  }

  /** A flag defaulted to true: the output always holds a flag, true when the input lacked it. */
  lemma FlagField(env: Env, s: Schema, m: map<string, Json>, i: nat)
    requires s.SObject? && i < |s.fields| && FirstNamed(s.fields, i)
    requires s.fields[i].schema == SDefault(SBool, Const(JBool(true)))
    requires Parse(env, s, Some(JObj(m))).Ok?
    ensures var out := Parse(env, s, Some(JObj(m))).value.value.fields;
      var k := s.fields[i].name;
      k in out && out[k].JBool? && (k !in m ==> out[k] == JBool(true))
  {
    ObjectField(env, s, m, i);
  }

  /** A time defaulted to the clock: the output always holds a time passing the datetime check, the clock's when the input lacked it. */
  lemma TimeField(env: Env, s: Schema, m: map<string, Json>, i: nat)
    requires s.SObject? && i < |s.fields| && FirstNamed(s.fields, i)
    requires s.fields[i].schema == SDefault(SString(Datetime), Now)
    requires Parse(env, s, Some(JObj(m))).Ok?
    ensures var out := Parse(env, s, Some(JObj(m))).value.value.fields;
      var k := s.fields[i].name;
      k in out && out[k].JStr? && env.isDatetime(out[k].s) && (k !in m ==> out[k] == JStr(env.now))
  {
    ObjectField(env, s, m, i);
  }

  /** A parsed profile has an activity flag, true when the input lacked one. */
  lemma UserIsActiveDefault(env: Env, m: map<string, Json>)
    requires Parse(env, User, Some(JObj(m))).Ok?
    ensures var out := Parse(env, User, Some(JObj(m))).value.value.fields;
      "isActive" in out && out["isActive"].JBool? && ("isActive" !in m ==> out["isActive"] == JBool(true))
  {
    FlagField(env, User, m, 3);
  }

  /** A parsed profile has a creation time that passes the datetime check: the clock's time when the input lacked one. */
  lemma UserCreatedAtDefault(env: Env, m: map<string, Json>)
    requires Parse(env, User, Some(JObj(m))).Ok?
    ensures var out := Parse(env, User, Some(JObj(m))).value.value.fields;
      && "createdAt" in out && out["createdAt"].JStr? && env.isDatetime(out["createdAt"].s)
      && ("createdAt" !in m ==> out["createdAt"] == JStr(env.now))
  {
    TimeField(env, User, m, 4);
  }

  /** A parsed profile had all three required fields. */
  lemma UserRequiresFieldsContra(env: Env, m: map<string, Json>)
    requires Parse(env, User, Some(JObj(m))).Ok?
    ensures "name" in m && "email" in m && "phone" in m
  {
    if "name" !in m || "email" !in m || "phone" !in m {
      UserRequiresFields(env, m);
    }
  }

  /** Every other top-level field is optional. */
  lemma OtherFieldsOptional()
    ensures forall i :: 0 <= i < |User.fields| && User.fields[i].name !in Demanded ==> User.fields[i].schema.SOptional?
    ensures forall i :: 0 <= i < |User.fields| && User.fields[i].name in Demanded ==> !User.fields[i].schema.SOptional?
  {
  }

  /** A field declared `.optional()` over an enum holds, when present, one of the enum's options. */
  lemma OptionalEnumField(env: Env, s: Schema, m: map<string, Json>, i: nat, options: seq<string>)
    requires s.SObject? && i < |s.fields| && FirstNamed(s.fields, i)
    requires s.fields[i].schema == SOptional(SEnum(options))
    requires Parse(env, s, Some(JObj(m))).Ok? && s.fields[i].name in m
    ensures m[s.fields[i].name].JStr? && m[s.fields[i].name].s in options
  {
    ObjectField(env, s, m, i);
  }

  /** A field declared `.optional()` over a URL string passes, when present, the URL check. */
  lemma OptionalUrlField(env: Env, s: Schema, m: map<string, Json>, i: nat)
    requires s.SObject? && i < |s.fields| && FirstNamed(s.fields, i)
    requires s.fields[i].schema == OptUrl()
    requires Parse(env, s, Some(JObj(m))).Ok? && s.fields[i].name in m
    ensures m[s.fields[i].name].JStr? && env.isUrl(m[s.fields[i].name].s)
  {
    ObjectField(env, s, m, i);
  }

  /** Suggestion and milestone priorities are low, medium or high. */
  lemma PrioritiesAreEnumerated(env: Env, m: map<string, Json>)
    ensures Parse(env, ResumeSuggestion, Some(JObj(m))).Ok? && "priority" in m ==>
      m["priority"].JStr? && m["priority"].s in Priorities
    ensures Parse(env, Milestone, Some(JObj(m))).Ok? && "priority" in m ==>
      m["priority"].JStr? && m["priority"].s in Priorities
  {
    if Parse(env, ResumeSuggestion, Some(JObj(m))).Ok? && "priority" in m {
      OptionalEnumField(env, ResumeSuggestion, m, 3, Priorities);
    }
    if Parse(env, Milestone, Some(JObj(m))).Ok? && "priority" in m {
      OptionalEnumField(env, Milestone, m, 3, Priorities);
    }
  }

  /** Activity and recommendation types come from their own lists. */
  lemma TypesAreEnumerated(env: Env, m: map<string, Json>)
    ensures Parse(env, Activity, Some(JObj(m))).Ok? && "type" in m ==>
      m["type"].JStr? && m["type"].s in ActivityTypes
    ensures Parse(env, Recommendation, Some(JObj(m))).Ok? && "type" in m ==>
      m["type"].JStr? && m["type"].s in RecommendationTypes
  {
    if Parse(env, Activity, Some(JObj(m))).Ok? && "type" in m {
      OptionalEnumField(env, Activity, m, 3, ActivityTypes);
    }
    if Parse(env, Recommendation, Some(JObj(m))).Ok? && "type" in m {
      OptionalEnumField(env, Recommendation, m, 0, RecommendationTypes);
    }
  }

  /** Every present social link, and a present resume url, passes the URL check. */
  lemma LinksAreUrls(env: Env, m: map<string, Json>, k: string)
    ensures Parse(env, SocialLinks, Some(JObj(m))).Ok? && k in m && k in {"website", "github", "linkedin", "twitter"} ==>
      m[k].JStr? && env.isUrl(m[k].s)
    ensures Parse(env, Resume, Some(JObj(m))).Ok? && "url" in m ==> m["url"].JStr? && env.isUrl(m["url"].s)
  {
    if Parse(env, SocialLinks, Some(JObj(m))).Ok? && k in m && k in {"website", "github", "linkedin", "twitter"} {
      var i := if k == "website" then 0 else if k == "github" then 1 else if k == "linkedin" then 2 else 3;
      assert SocialLinks.fields[i].name == k;
      OptionalUrlField(env, SocialLinks, m, i);
    }
    if Parse(env, Resume, Some(JObj(m))).Ok? && "url" in m {
      OptionalUrlField(env, Resume, m, 3);
    }
  }
}
