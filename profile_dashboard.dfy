/**
 * The dashboard computations of src/controllers/profile.controller.js:
 * profile completeness, the mastered-skill count and career score, skill
 * progress, and the generated milestones and recommendations.
 *
 * They read a stored user through a typed view: text fields are strings or
 * absent, a skill has an optional name and an optional numeric level, and
 * the experience and education lists are seen through their lengths. A name
 * that is absent is the one value the handlers call a method on, so it is
 * the one source of a thrown `TypeError` (`None` results below).
 */
module ProfileDashboard {
  import opened Wrappers
  import opened Text
  import opened JsonValue

  datatype Skill = Skill(name: Option<string>, level: Option<real>)
  datatype Social = Social(github: Option<string>, linkedin: Option<string>)

  /** The `dashboardData` overrides a user document may carry. */
  datatype Stored = Stored(
    coursesCompleted: Option<Json>, certifications: Option<Json>, recentActivities: Option<Json>,
    upcomingMilestones: Option<Json>, recommendations: Option<Json>)

  datatype User = User(
    name: Option<string>, email: Option<string>, phone: Option<string>, location: Option<string>,
    title: Option<string>, company: Option<string>, bio: Option<string>,
    skills: Option<seq<Skill>>, experience: Option<nat>, education: Option<nat>,
    social: Option<Social>, dashboard: Option<Stored>)

  function Min(a: int, b: int): int {
    if a <= b then a else b
  }

  /** A string is truthy unless it is absent or empty. */
  predicate TruthyText(s: Option<string>) {
    s.Some? && s.value != ""
  }

  // ---------------------------------------------------------------------
  // calculateProfileCompleteness

  /** The seven text fields, in the order they are scored. */
  function TextFields(u: User): seq<Option<string>> {
    [u.name, u.email, u.phone, u.location, u.title, u.company, u.bio]
  }

  /** `field && field.trim()`. */
  predicate Filled(f: Option<string>) {
    f.Some? && Trim(f.value) != ""
  }

  function FilledCount(fs: seq<Option<string>>): (n: nat)
    ensures n <= |fs|
  {
    if fs == [] then 0 else FilledCount(fs[..|fs| - 1]) + (if Filled(fs[|fs| - 1]) then 1 else 0)
  }

  predicate HasSkills(u: User) { u.skills.Some? && |u.skills.value| > 0 }
  predicate HasExperience(u: User) { u.experience.Some? && u.experience.value > 0 }
  predicate HasEducation(u: User) { u.education.Some? && u.education.value > 0 }
  predicate HasSocial(u: User) {
    u.social.Some? && (TruthyText(u.social.value.github) || TruthyText(u.social.value.linkedin))
  }

  /** The points for the non-text parts of a profile. */
  function Bonus(u: User): nat {
    (if HasSkills(u) then 15 else 0) + (if HasExperience(u) then 15 else 0)
    + (if HasEducation(u) then 10 else 0) + (if HasSocial(u) then 10 else 0)
  }

  /** The completeness percentage: 10 per filled text field plus the bonuses, capped at 100. */
  function Completeness(u: User): nat {
    Min(100, 10 * FilledCount(TextFields(u)) + Bonus(u))
  }

  /** Counting one more field adds one exactly when it is filled. */
  lemma FilledCountStep(fs: seq<Option<string>>, i: nat)
    requires i < |fs|
    ensures FilledCount(fs[..i + 1]) == FilledCount(fs[..i]) + (if Filled(fs[i]) then 1 else 0)
  {
    assert fs[..i + 1][..i] == fs[..i];
  }

  /** `calculateProfileCompleteness`: the text fields are scored one by one in a loop. */
  method ProfileCompleteness(u: User) returns (c: nat)
    ensures c == Completeness(u)
  {
    var fields := TextFields(u);
    c := 0;
    for i := 0 to |fields|
      invariant c == 10 * FilledCount(fields[..i])
    {
      FilledCountStep(fields, i);
      if fields[i].Some? && Trim(fields[i].value) != "" {
        c := c + 10;
      }
    }
    assert fields[..|fields|] == fields;
    assert c == 10 * FilledCount(TextFields(u));
    if u.skills.Some? && |u.skills.value| > 0 { c := c + 15; }
    if u.experience.Some? && u.experience.value > 0 { c := c + 15; }
    if u.education.Some? && u.education.value > 0 { c := c + 10; }
    if u.social.Some? && (TruthyText(u.social.value.github) || TruthyText(u.social.value.linkedin)) { c := c + 10; }
    if c > 100 { c := 100; }
  }

  /** The capped score arithmetic: ten per field plus a bonus of `5 * k` points. */
  lemma ScoreBounds(n: nat, k: nat)
    requires k <= 10
    ensures Min(100, 10 * n + 5 * k) <= 100 && Min(100, 10 * n + 5 * k) % 5 == 0
    ensures Min(100, 10 * n + 5 * k) == 100 ==> n >= 5
    ensures n == 0 && k == 0 ==> Min(100, 10 * n + 5 * k) == 0
  {
    var t := 2 * n + k;
    assert 10 * n + 5 * k == 5 * t;
    if t > 20 {
      assert 2 * n > 10;
    }
  }

  /** Completeness is a percentage in steps of 5, and a full score needs at least five filled text fields. */
  lemma CompletenessBounds(u: User)
    ensures Completeness(u) <= 100 && Completeness(u) % 5 == 0
    ensures Completeness(u) == 100 ==> FilledCount(TextFields(u)) >= 5
    ensures FilledCount(TextFields(u)) == 0 && !HasSkills(u) && !HasExperience(u) && !HasEducation(u) && !HasSocial(u) ==>
      Completeness(u) == 0
  {
    var n := FilledCount(TextFields(u));
    var k := (if HasSkills(u) then 3 else 0) + (if HasExperience(u) then 3 else 0)
      + (if HasEducation(u) then 2 else 0) + (if HasSocial(u) then 2 else 0);
    assert Bonus(u) == 5 * k;
    ScoreBounds(n, k);
  }

  /** A field that holds only white space scores like an absent one. */
  lemma BlankFieldScoresNothing(s: string)
    requires IsBlank(s)
    ensures !Filled(Some(s)) && !Filled(None)
  {
  }

  // ---------------------------------------------------------------------
  // skillsMastered and careerScore

  /** The number of skills whose level is at least 80 (`skill.level >= 80`; an absent level compares false). */
  function Mastered(skills: seq<Skill>): (n: nat)
    ensures n <= |skills|
    ensures n == 0 <==> forall i :: 0 <= i < |skills| ==> !(skills[i].level.Some? && skills[i].level.value >= 80.0)
    ensures n == |skills| <==> forall i :: 0 <= i < |skills| ==> skills[i].level.Some? && skills[i].level.value >= 80.0
  {
    if skills == [] then 0
    else
      assert forall i :: 1 <= i < |skills| ==> skills[i] == skills[1..][i - 1];
      (if skills[0].level.Some? && skills[0].level.value >= 80.0 then 1 else 0) + Mastered(skills[1..])
  }

  /** `userData.skills?.filter(...).length || 0`. */
  function SkillsMastered(u: User): nat {
    if u.skills.Some? then Mastered(u.skills.value) else 0
  }

  /** The experience points: `experience?.length * 5 || 0`. */
  function ExperiencePoints(u: User): nat {
    if u.experience.Some? then 5 * u.experience.value else 0
  }

  /** `Math.round` for a non-negative value: halves round up. */
  function JsRound(x: real): int {
    (x + 0.5).Floor
  }

  /** The career score in integers: halving the completeness and rounding up is `(c + 1) / 2`. */
  function CareerScore(mastered: nat, completeness: nat, experiencePoints: nat): (r: nat)
    ensures r <= 100
  {
    Min(100, 10 * mastered + (completeness + 1) / 2 + experiencePoints)
  }

  /** The integer career score equals `Math.min(100, Math.round(10·mastered + completeness·0.5 + points))`. */
  lemma CareerScoreRounds(mastered: nat, completeness: nat, experiencePoints: nat)
    ensures CareerScore(mastered, completeness, experiencePoints) ==
      Min(100, JsRound((10 * mastered + experiencePoints) as real + completeness as real * 0.5))
  {
    var whole := 10 * mastered + experiencePoints;
    var half := (completeness + 1) / 2;
    var x := whole as real + completeness as real * 0.5 + 0.5;
    assert completeness == 2 * half || completeness == 2 * half - 1;
    if completeness == 2 * half {
      assert x == (whole + half) as real + 0.5;
    } else {
      assert x == (whole + half) as real;
    }
    assert x.Floor == whole + half;
  }

  // ---------------------------------------------------------------------
  // skillProgress

  /** One `skillProgress` entry; an absent `target` is the `NaN` of `undefined + 15`. */
  datatype Progress = Progress(name: Option<string>, level: Option<real>, target: Option<real>)

  /** `userData.skills?.map(...) || []`: each skill with a target 15 points above its level, capped at 100. */
  function SkillProgress(skills: Option<seq<Skill>>): (r: seq<Progress>)
    ensures skills.None? ==> r == []
    ensures skills.Some? ==> |r| == |skills.value|
    ensures skills.Some? ==> forall i :: 0 <= i < |r| ==>
      var s := skills.value[i];
      && r[i].name == s.name && r[i].level == s.level
      && (r[i].target.Some? <==> s.level.Some?)
      && (s.level.Some? ==> r[i].target.value <= 100.0)
      && (s.level.Some? && s.level.value <= 85.0 ==> r[i].target.value == s.level.value + 15.0)
      && (s.level.Some? && s.level.value >= 85.0 ==> r[i].target.value == 100.0)
  {
    if skills.None? then []
    else
      var ss := skills.value;
      seq(|ss|, i requires 0 <= i < |ss| =>
        Progress(ss[i].name, ss[i].level,
          if ss[i].level.Some? then Some(if ss[i].level.value + 15.0 <= 100.0 then ss[i].level.value + 15.0 else 100.0) else None))
  }

  // ---------------------------------------------------------------------
  // userSkills.some(...) and userSkills.find(...)

  /** The outcome of `some`: a match, none, or a `TypeError` from a nameless skill. */
  datatype Scan = Found | NotFound | Threw

  /** `s.name.toLowerCase().includes(kw)`. */
  predicate Mentions(s: Skill, kw: string) {
    s.name.Some? && Contains(Lower(s.name.value), kw)
  }

  /** `s.level < bound` when there is a bound; an absent level compares false. */
  predicate Below(s: Skill, bound: Option<real>) {
    bound.None? || (s.level.Some? && s.level.value < bound.value)
  }

  predicate Matches(s: Skill, kw: string, bound: Option<real>) {
    Mentions(s, kw) && Below(s, bound)
  }

  predicate NamedBefore(skills: seq<Skill>, i: int)
    requires 0 <= i <= |skills|
  {
    forall j :: 0 <= j < i ==> skills[j].name.Some?
  }

  /** No skill before position `i` matches. */
  predicate NoMatchBefore(skills: seq<Skill>, kw: string, bound: Option<real>, i: int)
    requires 0 <= i <= |skills|
  {
    forall j :: 0 <= j < i ==> !Matches(skills[j], kw, bound)
  }

  /** `skills.some(s => mentions(s, kw) && below(s, bound))`, which stops at the first match or the first nameless skill. */
  function ScanSkills(skills: seq<Skill>, kw: string, bound: Option<real>): Scan {
    if skills == [] then NotFound
    else if skills[0].name.None? then Threw
    else if Matches(skills[0], kw, bound) then Found
    else ScanSkills(skills[1..], kw, bound)
  }

  /** The scan finds a match exactly when some skill matches and every skill before it is named. */
  lemma {:induction false} ScanFoundMeaning(skills: seq<Skill>, kw: string, bound: Option<real>)
    ensures ScanSkills(skills, kw, bound) == Found <==>
      exists i :: 0 <= i < |skills| && Matches(skills[i], kw, bound) && NamedBefore(skills, i)
  {
    if skills != [] && skills[0].name.Some? && !Matches(skills[0], kw, bound) {
      var rest := skills[1..];
      ScanFoundMeaning(rest, kw, bound);
      if exists i :: 0 <= i < |skills| && Matches(skills[i], kw, bound) && NamedBefore(skills, i) {
        var i :| 0 <= i < |skills| && Matches(skills[i], kw, bound) && NamedBefore(skills, i);
        assert i > 0 && rest[i - 1] == skills[i];
        assert NamedBefore(rest, i - 1) by {
          forall j | 0 <= j < i - 1 ensures rest[j].name.Some? { assert rest[j] == skills[j + 1]; }
        }
      }
      if exists i :: 0 <= i < |rest| && Matches(rest[i], kw, bound) && NamedBefore(rest, i) {
        var i :| 0 <= i < |rest| && Matches(rest[i], kw, bound) && NamedBefore(rest, i);
        assert Matches(skills[i + 1], kw, bound);
        assert NamedBefore(skills, i + 1) by {
          forall j | 0 <= j < i + 1 ensures skills[j].name.Some? {
            if j > 0 { assert skills[j] == rest[j - 1]; }
          }
        }
      }
    } else if skills != [] && skills[0].name.Some? {
      assert Matches(skills[0], kw, bound) && NamedBefore(skills, 0);
    }
  }

  /** The scan throws exactly when a nameless skill comes before any match. */
  lemma {:induction false} ScanThrewMeaning(skills: seq<Skill>, kw: string, bound: Option<real>)
    ensures ScanSkills(skills, kw, bound) == Threw <==>
      exists i :: 0 <= i < |skills| && skills[i].name.None? && NoMatchBefore(skills, kw, bound, i)
  {
    if skills != [] && skills[0].name.Some? && !Matches(skills[0], kw, bound) {
      var rest := skills[1..];
      ScanThrewMeaning(rest, kw, bound);
      if exists i :: 0 <= i < |skills| && skills[i].name.None? && NoMatchBefore(skills, kw, bound, i) {
        var i :| 0 <= i < |skills| && skills[i].name.None? && NoMatchBefore(skills, kw, bound, i);
        assert i > 0 && rest[i - 1] == skills[i];
        assert NoMatchBefore(rest, kw, bound, i - 1) by {
          forall j | 0 <= j < i - 1 ensures !Matches(rest[j], kw, bound) { assert rest[j] == skills[j + 1]; }
        }
      }
      if exists i :: 0 <= i < |rest| && rest[i].name.None? && NoMatchBefore(rest, kw, bound, i) {
        var i :| 0 <= i < |rest| && rest[i].name.None? && NoMatchBefore(rest, kw, bound, i);
        assert skills[i + 1] == rest[i];
        assert NoMatchBefore(skills, kw, bound, i + 1) by {
          forall j | 0 <= j < i + 1 ensures !Matches(skills[j], kw, bound) {
            if j > 0 { assert skills[j] == rest[j - 1]; }
          }
        }
      }
    } else if skills != [] && skills[0].name.Some? {
      assert Matches(skills[0], kw, bound);
    } else if skills != [] {
      assert skills[0].name.None?;
    }
  }

  /**
   * The scan finds a match exactly when some skill matches and every skill
   * before it is named; it throws exactly when a nameless skill comes before
   * any match.
   */
  lemma ScanMeaning(skills: seq<Skill>, kw: string, bound: Option<real>)
    ensures ScanSkills(skills, kw, bound) == Found <==>
      exists i :: 0 <= i < |skills| && Matches(skills[i], kw, bound) && NamedBefore(skills, i)
    ensures ScanSkills(skills, kw, bound) == Threw <==>
      exists i :: 0 <= i < |skills| && skills[i].name.None? && NoMatchBefore(skills, kw, bound, i)
  {
    ScanFoundMeaning(skills, kw, bound);
    ScanThrewMeaning(skills, kw, bound);
  }

  /** `skills.find(s => mentions(s, kw))?.level`: the level of the first skill that mentions `kw`. */
  function FindLevel(skills: seq<Skill>, kw: string): Option<real> {
    if skills == [] then None
    else if Mentions(skills[0], kw) then skills[0].level
    else FindLevel(skills[1..], kw)
  }

  /**
   * After a successful scan, `find` meets a mentioning skill no later than the
   * scan's match, with only named skills before it, so it does not throw.
   */
  lemma {:induction false} FindAfterScan(skills: seq<Skill>, kw: string, bound: Option<real>)
    requires ScanSkills(skills, kw, bound) == Found
    ensures exists k ::
              0 <= k < |skills| && Mentions(skills[k], kw) && NamedBefore(skills, k) && FindLevel(skills, kw) == skills[k].level
  {
    if Mentions(skills[0], kw) {
      assert NamedBefore(skills, 0);
    } else {
      var rest := skills[1..];
      FindAfterScan(rest, kw, bound);
      var k :| 0 <= k < |rest| && Mentions(rest[k], kw) && NamedBefore(rest, k) && FindLevel(rest, kw) == rest[k].level;
      assert skills[k + 1] == rest[k];
      assert NamedBefore(skills, k + 1) by {
        forall j | 0 <= j < k + 1 ensures skills[j].name.Some? {
          if j > 0 { assert skills[j] == rest[j - 1]; }
        }
      }
    }
  }

  /** `level || fallback`: an absent or zero level gives the fallback. */
  function LevelOr(level: Option<real>, fallback: real): real {
    if level.Some? && level.value != 0.0 then level.value else fallback
  }

  /** `userData.title || "Developer"`. */
  function UserTitle(u: User): string {
    if TruthyText(u.title) then u.title.value else "Developer"
  }

  function UserSkills(u: User): seq<Skill> {
    if u.skills.Some? then u.skills.value else []
  }

  // ---------------------------------------------------------------------
  // generatePersonalizedMilestones

  datatype Milestone = Milestone(title: string, deadline: string, progress: real, priority: string, category: string)

  function ReactMilestone(progress: real): Milestone {
    Milestone("Master React Advanced Concepts", "2 weeks", progress, "high", "skill")
  }

  function ScriptMilestone(progress: real): Milestone {
    Milestone("Complete JavaScript ES6+ Mastery", "3 weeks", progress, "medium", "skill")
  }

  function PortfolioMilestone(userTitle: string): Milestone {
    Milestone(userTitle + " Portfolio Project", "6 weeks", 20.0, "high", "project")
  }

  const ReactBound: Option<real> := Some(80.0)
  const ScriptBound: Option<real> := Some(90.0)

  /** The React entry, when the scan for "react" finds a skill below 80. */
  function ReactEntry(skills: seq<Skill>): seq<Milestone> {
    if ScanSkills(skills, "react", ReactBound) == Found then [ReactMilestone(LevelOr(FindLevel(skills, "react"), 60.0))] else []
  }

  /** The JavaScript entry, when the scan for "javascript" finds a skill below 90. */
  function ScriptEntry(skills: seq<Skill>): seq<Milestone> {
    if ScanSkills(skills, "javascript", ScriptBound) == Found then [ScriptMilestone(LevelOr(FindLevel(skills, "javascript"), 70.0))] else []
  }

  /** The milestones generated for a user, or `None` when a scan throws. */
  function MilestonesOf(u: User): Option<seq<Milestone>> {
    var skills := UserSkills(u);
    if ScanSkills(skills, "react", ReactBound) == Threw || ScanSkills(skills, "javascript", ScriptBound) == Threw then None
    else
      var ms := ReactEntry(skills) + ScriptEntry(skills) + [PortfolioMilestone(UserTitle(u))];
      Some(ms[..Min(3, |ms|)])
  }

  /** `generatePersonalizedMilestones`: entries are pushed onto a list, which is then cut to three. */
  method GenerateMilestones(u: User) returns (r: Option<seq<Milestone>>)
    ensures r == MilestonesOf(u)
  {
    var milestones: seq<Milestone> := [];
    var skills := if u.skills.Some? then u.skills.value else [];
    var userTitle := if TruthyText(u.title) then u.title.value else "Developer";
    var react := ScanSkills(skills, "react", ReactBound);
    if react == Threw {
      return None;
    }
    if react == Found {
      milestones := milestones + [ReactMilestone(LevelOr(FindLevel(skills, "react"), 60.0))];
    }
    var script := ScanSkills(skills, "javascript", ScriptBound);
    if script == Threw {
      return None;
    }
    if script == Found {
      milestones := milestones + [ScriptMilestone(LevelOr(FindLevel(skills, "javascript"), 70.0))];
    }
    milestones := milestones + [PortfolioMilestone(userTitle)];
    assert milestones == ReactEntry(skills) + ScriptEntry(skills) + [PortfolioMilestone(userTitle)];
    r := Some(milestones[..Min(3, |milestones|)]);
  }

  /** At most three entries are ever generated, so the cut to three removes nothing. */
  lemma MilestonesUncut(u: User)
    requires MilestonesOf(u).Some?
    ensures var skills := UserSkills(u);
      MilestonesOf(u).value == ReactEntry(skills) + ScriptEntry(skills) + [PortfolioMilestone(UserTitle(u))]
  {
    var skills := UserSkills(u);
    var ms := ReactEntry(skills) + ScriptEntry(skills) + [PortfolioMilestone(UserTitle(u))];
    assert ms[..Min(3, |ms|)] == ms;
  }

  /**
   * The list is missing exactly when a scan throws; otherwise it has one to
   * three entries, the portfolio entry last and a skill entry first unless it
   * is alone.
   */
  lemma MilestonesOrder(u: User)
    ensures var skills := UserSkills(u);
      MilestonesOf(u).None? <==>
        ScanSkills(skills, "react", ReactBound) == Threw || ScanSkills(skills, "javascript", ScriptBound) == Threw
    ensures MilestonesOf(u).Some? ==>
      var ms := MilestonesOf(u).value;
      && 1 <= |ms| <= 3
      && ms[|ms| - 1] == PortfolioMilestone(UserTitle(u))
      && (ms[0].title == ReactMilestone(0.0).title || ms[0].title == ScriptMilestone(0.0).title || |ms| == 1)
  {
    if MilestonesOf(u).Some? {
      MilestonesUncut(u);
    }
  }

  /**
   * The React entry is there exactly when a skill mentioning "react" has a
   * level below 80 and no nameless skill comes before it.
   */
  lemma MilestonesReactEntry(u: User)
    requires MilestonesOf(u).Some?
    ensures var ms := MilestonesOf(u).value;
      var skills := UserSkills(u);
      (exists i :: 0 <= i < |ms| && ms[i].title == ReactMilestone(0.0).title) <==>
        exists i :: 0 <= i < |skills| && Matches(skills[i], "react", ReactBound) && NamedBefore(skills, i)
  {
    var skills := UserSkills(u);
    ScanMeaning(skills, "react", ReactBound);
    MilestonesUncut(u);
    var ms := MilestonesOf(u).value;
    PortfolioTitleDiffers(UserTitle(u));
    if ReactEntry(skills) != [] {
      assert ms[0].title == ReactMilestone(0.0).title;
    } else {
      assert ReactMilestone(0.0).title != ScriptMilestone(0.0).title;
      assert forall i :: 0 <= i < |ms| ==> ms[i] in ScriptEntry(skills) || ms[i] == PortfolioMilestone(UserTitle(u));
    }
  }

  /**
   * The JavaScript entry is there exactly when a skill mentioning
   * "javascript" has a level below 90 and no nameless skill comes before it.
   */
  lemma MilestonesScriptEntry(u: User)
    requires MilestonesOf(u).Some?
    ensures var ms := MilestonesOf(u).value;
      var skills := UserSkills(u);
      (exists i :: 0 <= i < |ms| && ms[i].title == ScriptMilestone(0.0).title) <==>
        exists i :: 0 <= i < |skills| && Matches(skills[i], "javascript", ScriptBound) && NamedBefore(skills, i)
  {
    var skills := UserSkills(u);
    ScanMeaning(skills, "javascript", ScriptBound);
    MilestonesUncut(u);
    var ms := MilestonesOf(u).value;
    PortfolioTitleDiffers(UserTitle(u));
    if ScriptEntry(skills) != [] {
      assert ms[|ReactEntry(skills)|].title == ScriptMilestone(0.0).title;
    } else {
      assert ReactMilestone(0.0).title != ScriptMilestone(0.0).title;
      assert forall i :: 0 <= i < |ms| ==> ms[i] in ReactEntry(skills) || ms[i] == PortfolioMilestone(UserTitle(u));
    }
  }

  /** The portfolio title ends in " Portfolio Project", which neither skill title does. */
  lemma PortfolioTitleDiffers(userTitle: string)
    ensures PortfolioMilestone(userTitle).title != ReactMilestone(0.0).title
    ensures PortfolioMilestone(userTitle).title != ScriptMilestone(0.0).title
  {
    var t := PortfolioMilestone(userTitle).title;
    assert t[|t| - 1] == 't' && t[|t| - 2] == 'c';
  }

  // ---------------------------------------------------------------------
  // generatePersonalizedRecommendations

  /** A recommendation; `rating` is held in tenths (4.8 is 48). */
  datatype Recommendation = Recommendation(
    kind: string, title: string, provider: string, duration: string, ratingTenths: nat, relevance: nat, url: string)

  function ReactCourse(): Recommendation {
    Recommendation("course", "Advanced React Patterns & Best Practices", "Tech Academy", "4 weeks", 48, 95, "#")
  }

  function ScriptCertification(): Recommendation {
    Recommendation("certification", "JavaScript Professional Certification", "Developer Institute", "6 weeks", 49, 90, "#")
  }

  function RecommendationsJob(userTitle: string): Recommendation {
    Recommendation("job", "Senior " + userTitle + " Position", "TechCorp", "Full-time", 45, 88, "#")
  }

  /** The course, when some named skill mentions "react". */
  function CourseEntry(skills: seq<Skill>): seq<Recommendation> {
    if ScanSkills(skills, "react", None) == Found then [ReactCourse()] else []
  }

  /** The certification, when some named skill mentions "javascript". */
  function CertificationEntry(skills: seq<Skill>): seq<Recommendation> {
    if ScanSkills(skills, "javascript", None) == Found then [ScriptCertification()] else []
  }

  /** The recommendations generated for a user, or `None` when a scan throws. */
  function RecommendationsOf(u: User): Option<seq<Recommendation>> {
    var skills := UserSkills(u);
    if ScanSkills(skills, "react", None) == Threw || ScanSkills(skills, "javascript", None) == Threw then None
    else
      var rs := CourseEntry(skills) + CertificationEntry(skills) + [RecommendationsJob(UserTitle(u))];
      Some(rs[..Min(3, |rs|)])
  }

  /** `generatePersonalizedRecommendations`: entries are pushed onto a list, which is then cut to three. */
  method GenerateRecommendations(u: User) returns (r: Option<seq<Recommendation>>)
    ensures r == RecommendationsOf(u)
  {
    var recommendations: seq<Recommendation> := [];
    var skills := if u.skills.Some? then u.skills.value else [];
    var userTitle := if TruthyText(u.title) then u.title.value else "Developer";
    var react := ScanSkills(skills, "react", None);
    if react == Threw {
      return None;
    }
    if react == Found {
      recommendations := recommendations + [ReactCourse()];
    }
    var script := ScanSkills(skills, "javascript", None);
    if script == Threw {
      return None;
    }
    if script == Found {
      recommendations := recommendations + [ScriptCertification()];
    }
    recommendations := recommendations + [RecommendationsJob(userTitle)];
    assert recommendations == CourseEntry(skills) + CertificationEntry(skills) + [RecommendationsJob(userTitle)];
    r := Some(recommendations[..Min(3, |recommendations|)]);
  }

  /** At most three entries are ever generated, so the cut to three removes nothing. */
  lemma RecommendationsUncut(u: User)
    requires RecommendationsOf(u).Some?
    ensures var skills := UserSkills(u);
      RecommendationsOf(u).value == CourseEntry(skills) + CertificationEntry(skills) + [RecommendationsJob(UserTitle(u))]
  {
    var skills := UserSkills(u);
    var rs := CourseEntry(skills) + CertificationEntry(skills) + [RecommendationsJob(UserTitle(u))];
    assert rs[..Min(3, |rs|)] == rs;
  }

  /** The list is missing exactly when a scan throws; otherwise it has one to three entries with the job last. */
  lemma RecommendationsOrder(u: User)
    ensures var skills := UserSkills(u);
      RecommendationsOf(u).None? <==>
        ScanSkills(skills, "react", None) == Threw || ScanSkills(skills, "javascript", None) == Threw
    ensures RecommendationsOf(u).Some? ==>
      var rs := RecommendationsOf(u).value;
      1 <= |rs| <= 3 && rs[|rs| - 1] == RecommendationsJob(UserTitle(u))
  {
    if RecommendationsOf(u).Some? {
      RecommendationsUncut(u);
    }
  }

  /** The course is recommended exactly when a skill mentions "react" and no nameless skill comes before it. */
  lemma RecommendsCourse(u: User)
    requires RecommendationsOf(u).Some?
    ensures var skills := UserSkills(u);
      ReactCourse() in RecommendationsOf(u).value <==>
        exists i :: 0 <= i < |skills| && Mentions(skills[i], "react") && NamedBefore(skills, i)
  {
    var skills := UserSkills(u);
    ScanMeaning(skills, "react", None);
    RecommendationsUncut(u);
    assert ReactCourse() != ScriptCertification() && ReactCourse() != RecommendationsJob(UserTitle(u));
    if CourseEntry(skills) != [] {
      assert RecommendationsOf(u).value[0] == ReactCourse();
    }
  }

  /** The certification is recommended exactly when a skill mentions "javascript" and no nameless skill comes before it. */
  lemma RecommendsCertification(u: User)
    requires RecommendationsOf(u).Some?
    ensures var skills := UserSkills(u);
      ScriptCertification() in RecommendationsOf(u).value <==>
        exists i :: 0 <= i < |skills| && Mentions(skills[i], "javascript") && NamedBefore(skills, i)
  {
    var skills := UserSkills(u);
    ScanMeaning(skills, "javascript", None);
    RecommendationsUncut(u);
    assert ReactCourse() != ScriptCertification() && ScriptCertification() != RecommendationsJob(UserTitle(u));
    if CertificationEntry(skills) != [] {
      assert RecommendationsOf(u).value[|CourseEntry(skills)|] == ScriptCertification();
    }
  }

  // ---------------------------------------------------------------------
  // The dashboard object

  datatype Activity = Activity(action: string, item: string, time: string, kind: string)

  /** A list that is either the stored override or the generated one. */
  datatype Listing<T> = StoredList(value: Json) | Generated(items: seq<T>)

  datatype Dashboard = Dashboard(
    skillsMastered: nat, careerScore: nat, coursesCompleted: Json, certifications: Json,
    profileCompleteness: nat, recentActivities: Listing<Activity>,
    upcomingMilestones: Listing<Milestone>, recommendations: Listing<Recommendation>,
    skillProgress: seq<Progress>)

  function DefaultActivities(u: User): seq<Activity> {
    [ Activity("Updated", "Profile Skills", "1 hour ago", "skill"),
      Activity("Completed", "JavaScript Assessment", "3 hours ago", "course"),
      Activity("Started", if TruthyText(u.title) then u.title.value + " Roadmap" else "Development Path", "1 day ago", "roadmap") ]
  }

  /** `userData.dashboardData?.k`. */
  function StoredField(u: User, pick: Stored -> Option<Json>): Option<Json> {
    if u.dashboard.Some? then pick(u.dashboard.value) else None
  }

  /**
   * The dashboard of `getDashboardData` for a found user, or `None` when a
   * list had to be generated and its generation threw (a 500). A stored,
   * truthy override is used as it is and its generator is never run.
   */
  method BuildDashboard(u: User) returns (r: Option<Dashboard>)
    ensures var storedMs := StoredField(u, (s: Stored) => s.upcomingMilestones);
      var storedRs := StoredField(u, (s: Stored) => s.recommendations);
      r.None? <==> (!Truthy(storedMs) && MilestonesOf(u).None?) || (!Truthy(storedRs) && RecommendationsOf(u).None?)
    ensures r.Some? ==>
      var d := r.value;
      && d.skillsMastered == SkillsMastered(u)
      && d.profileCompleteness == Completeness(u)
      && d.careerScore == CareerScore(SkillsMastered(u), Completeness(u), ExperiencePoints(u))
      && d.careerScore <= 100
      && d.coursesCompleted == Or(StoredField(u, (s: Stored) => s.coursesCompleted), Some(JNum(8.0))).value
      && d.certifications == Or(StoredField(u, (s: Stored) => s.certifications), Some(JNum(3.0))).value
      && (var stored := StoredField(u, (s: Stored) => s.recentActivities);
          d.recentActivities == if Truthy(stored) then StoredList(stored.value) else Generated(DefaultActivities(u)))
      && (var stored := StoredField(u, (s: Stored) => s.upcomingMilestones);
          d.upcomingMilestones == if Truthy(stored) then StoredList(stored.value) else Generated(MilestonesOf(u).value))
      && (var stored := StoredField(u, (s: Stored) => s.recommendations);
          d.recommendations == if Truthy(stored) then StoredList(stored.value) else Generated(RecommendationsOf(u).value))
      && d.skillProgress == SkillProgress(u.skills)
  {
    var mastered := SkillsMastered(u);
    var completeness := ProfileCompleteness(u);
    var score := CareerScore(mastered, completeness, ExperiencePoints(u));
    var courses := Or(StoredField(u, (s: Stored) => s.coursesCompleted), Some(JNum(8.0))).value;
    var certifications := Or(StoredField(u, (s: Stored) => s.certifications), Some(JNum(3.0))).value;
    var storedActs := StoredField(u, (s: Stored) => s.recentActivities);
    var activities := if Truthy(storedActs) then StoredList(storedActs.value) else Generated(DefaultActivities(u));
    var storedMs := StoredField(u, (s: Stored) => s.upcomingMilestones);
    var milestones: Listing<Milestone>;
    if Truthy(storedMs) {
      milestones := StoredList(storedMs.value);
    } else {
      var generated := GenerateMilestones(u);
      if generated.None? {
        return None;
      }
      milestones := Generated(generated.value);
    }
    var storedRs := StoredField(u, (s: Stored) => s.recommendations);
    var recommendations: Listing<Recommendation>;
    if Truthy(storedRs) {
      recommendations := StoredList(storedRs.value);
    } else {
      var generated := GenerateRecommendations(u);
      if generated.None? {
        return None;
      }
      recommendations := Generated(generated.value);
    }
    r := Some(Dashboard(mastered, score, courses, certifications, completeness, activities,
      milestones, recommendations, SkillProgress(u.skills)));
  }
}
