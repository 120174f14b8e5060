/**
 * The part of Zod's object validation the schemas of src/Schema use, as an
 * interpreter over a small schema language: strings (optionally checked as
 * email, URL or ISO datetime, which stay abstract predicates), numbers with
 * inclusive bounds, booleans, enums, arrays, objects (unknown keys are
 * stripped), `.optional()`, `.default()` and `.partial()`.
 */
module Zod {
  import opened Wrappers
  import opened JsonValue

  /** The string refinements Zod implements internally, plus the clock a computed default reads. */
  datatype Env = Env(isEmail: string -> bool, isUrl: string -> bool, isDatetime: string -> bool, now: string)

  datatype StrCheck = AnyString | Email | Url | Datetime

  datatype DefaultValue = Const(value: Json) | Now

  datatype Schema =
    | SString(check: StrCheck)
    | SNumber(min: Option<real>, max: Option<real>)
    | SBool
    | SEnum(options: seq<string>)
    | SArray(elem: Schema)
    | SObject(fields: seq<Field>)
    | SOptional(inner: Schema)
    | SDefault(inner: Schema, default: DefaultValue)

  datatype Field = Field(name: string, schema: Schema)

  /** The result of parsing one (possibly absent) value: a value, absence, or a validation failure. */
  datatype Outcome = Ok(value: Option<Json>) | Fail

  predicate CheckPasses(env: Env, c: StrCheck, x: string) {
    match c
    case AnyString => true
    case Email => env.isEmail(x)
    case Url => env.isUrl(x)
    case Datetime => env.isDatetime(x)
  }

  predicate InBounds(n: real, min: Option<real>, max: Option<real>) {
    (min.None? || min.value <= n) && (max.None? || n <= max.value)
  }

  function DefaultOf(env: Env, d: DefaultValue): Json {
    match d
    case Const(v) => v
    case Now => JStr(env.now)
  }

  /**
   * `schema.safeParse(v)`. A present value stays present; objects keep only
   * the schema's own keys.
   */
  function Parse(env: Env, s: Schema, v: Option<Json>): (r: Outcome)
    ensures v.Some? && r.Ok? ==> r.value.Some?
    ensures r.Ok? && r.value.Some? && r.value.value.JObj? && s.SObject? ==>
      forall k :: k in r.value.value.fields ==> HasField(s.fields, k)
    decreases s, 0
  {
    match s
    case SString(c) =>
      if v.Some? && v.value.JStr? && CheckPasses(env, c, v.value.s) then Ok(v) else Fail
    case SNumber(min, max) =>
      if v.Some? && v.value.JNum? && InBounds(v.value.n, min, max) then Ok(v) else Fail
    case SBool =>
      if v.Some? && v.value.JBool? then Ok(v) else Fail
    case SEnum(options) =>
      if v.Some? && v.value.JStr? && v.value.s in options then Ok(v) else Fail
    case SArray(elem) =>
      if v.Some? && v.value.JArr? then
        match ParseItems(env, elem, v.value.items)
        case Some(items) => Ok(Some(JArr(items)))
        case None => Fail
      else Fail
    case SObject(fields) =>
      if v.Some? && v.value.JObj? then
        match ParseFields(env, fields, v.value.fields)
        case Some(out) => Ok(Some(JObj(out)))
        case None => Fail
      else Fail
    case SOptional(inner) =>
      if v.None? then Ok(None) else Parse(env, inner, v)
    case SDefault(inner, d) =>
      if v.None? then Parse(env, inner, Some(DefaultOf(env, d))) else Parse(env, inner, v)
  }

  /** Every element must parse; the output holds the parsed elements in order. */
  function ParseItems(env: Env, elem: Schema, items: seq<Json>): (r: Option<seq<Json>>)
    ensures r.Some? ==> |r.value| == |items|
    decreases elem, |items| + 1
  {
    if items == [] then Some([])
    else
      match Parse(env, elem, Some(items[0]))
      case Ok(Some(x)) =>
        (match ParseItems(env, elem, items[1..])
         case Some(rest) => Some([x] + rest)
         case None => None)
      case _ => None
  }

  predicate HasField(fields: seq<Field>, k: string) {
    exists i :: 0 <= i < |fields| && fields[i].name == k
  }

  /** Each declared field is parsed from its key; absent results are left out, and keys the schema does not declare are dropped. */
  function ParseFields(env: Env, fields: seq<Field>, m: map<string, Json>): (r: Option<map<string, Json>>)
    ensures r.Some? ==> forall k :: k in r.value ==> HasField(fields, k)
    decreases fields, 0
  {
    if fields == [] then Some(map[])
    else
      var f := fields[0];
      match Parse(env, f.schema, Lookup(m, f.name))
      case Fail => None
      case Ok(o) =>
        match ParseFields(env, fields[1..], m)
        case None => None
        case Some(rest) =>
          assert forall k :: HasField(fields[1..], k) ==> HasField(fields, k) by {
            forall k | HasField(fields[1..], k) ensures HasField(fields, k) {
              var i :| 0 <= i < |fields[1..]| && fields[1..][i].name == k;
              assert fields[i + 1].name == k;
            }
          }
          assert HasField(fields, f.name) by { assert fields[0].name == f.name; }
          if o.Some? then Some(rest[f.name := o.value]) else Some(rest - {f.name})
  }

  /** `.partial()`: every field of an object becomes optional; anything else is unchanged. */
  function Partial(s: Schema): (r: Schema)
    ensures s.SObject? ==> r.SObject? && |r.fields| == |s.fields|
    ensures s.SObject? ==> forall i :: 0 <= i < |s.fields| ==>
      r.fields[i] == Field(s.fields[i].name, SOptional(s.fields[i].schema))
    ensures !s.SObject? ==> r == s
  {
    if s.SObject? then SObject(seq(|s.fields|, i requires 0 <= i < |s.fields| => Field(s.fields[i].name, SOptional(s.fields[i].schema))))
    else s
  }

  /** No field before the `i`th has its name (declared keys are unique in every schema here). */
  predicate FirstNamed(fields: seq<Field>, i: nat)
    requires i < |fields|
  {
    forall j :: 0 <= j < i ==> fields[j].name != fields[i].name
  }

  /** The schema of a field demands a value: it is neither optional nor defaulted. */
  predicate Required(s: Schema) {
    !s.SOptional? && !s.SDefault?
  }

  /** A demanding schema rejects an absent value. */
  lemma RequiredRejectsAbsent(env: Env, s: Schema)
    requires Required(s)
    ensures Parse(env, s, None) == Fail
  {
  }

  /**
   * What an object's parse says about one of its declared fields: if the
   * object parses, so does that field's value, and the output holds the
   * field's parsed value exactly when that value is present.
   */
  lemma {:induction false} FieldOutcome(env: Env, fields: seq<Field>, m: map<string, Json>, i: nat)
    requires i < |fields| && FirstNamed(fields, i)
    requires ParseFields(env, fields, m).Some?
    ensures Parse(env, fields[i].schema, Lookup(m, fields[i].name)).Ok?
    ensures var o := Parse(env, fields[i].schema, Lookup(m, fields[i].name)).value;
      var out := ParseFields(env, fields, m).value;
      (o.Some? ==> fields[i].name in out && out[fields[i].name] == o.value)
      && (o.None? ==> fields[i].name !in out)
    decreases fields
  {
    if i > 0 {
      assert FirstNamed(fields[1..], i - 1) by {
        forall j | 0 <= j < i - 1 ensures fields[1..][j].name != fields[1..][i - 1].name {
          assert fields[1..][j] == fields[j + 1] && fields[1..][i - 1] == fields[i];
        }
      }
      FieldOutcome(env, fields[1..], m, i - 1);
      assert fields[1..][i - 1] == fields[i];
      assert fields[0].name != fields[i].name;
    }
  }

  /** `FieldOutcome` for an object schema parsed from an object value. */
  lemma ObjectField(env: Env, s: Schema, m: map<string, Json>, i: nat)
    requires s.SObject? && i < |s.fields| && FirstNamed(s.fields, i)
    requires Parse(env, s, Some(JObj(m))).Ok?
    ensures Parse(env, s.fields[i].schema, Lookup(m, s.fields[i].name)).Ok?
    ensures var o := Parse(env, s.fields[i].schema, Lookup(m, s.fields[i].name)).value;
      var out := Parse(env, s, Some(JObj(m))).value.value;
      out.JObj?
      && (o.Some? ==> s.fields[i].name in out.fields && out.fields[s.fields[i].name] == o.value)
      && (o.None? ==> s.fields[i].name !in out.fields)
  {
    FieldOutcome(env, s.fields, m, i);
  }

  /** An object whose declared field fails to parse is rejected. */
  lemma {:induction false} FieldFailureRejects(env: Env, fields: seq<Field>, m: map<string, Json>, i: nat)
    requires i < |fields|
    requires Parse(env, fields[i].schema, Lookup(m, fields[i].name)) == Fail
    ensures ParseFields(env, fields, m).None?
    decreases fields
  {
    if i > 0 {
      FieldFailureRejects(env, fields[1..], m, i - 1);
      assert fields[1..][i - 1] == fields[i];
    }
  }

  /** An object missing a required field is rejected. */
  lemma MissingRequiredRejects(env: Env, fields: seq<Field>, m: map<string, Json>, i: nat)
    requires i < |fields| && Required(fields[i].schema) && fields[i].name !in m
    ensures ParseFields(env, fields, m).None?
  {
    RequiredRejectsAbsent(env, fields[i].schema);
    FieldFailureRejects(env, fields, m, i);
  }

  /** An object value missing a required field of an object schema is rejected. */
  lemma ObjectMissingRequired(env: Env, s: Schema, m: map<string, Json>, i: nat)
    requires s.SObject? && i < |s.fields| && Required(s.fields[i].schema) && s.fields[i].name !in m
    ensures Parse(env, s, Some(JObj(m))) == Fail
  {
    MissingRequiredRejects(env, s.fields, m, i);
  }

  /** An absent defaulted value is replaced by the default, which must itself be valid. */
  lemma DefaultApplies(env: Env, inner: Schema, d: DefaultValue)
    ensures Parse(env, SDefault(inner, d), None) == Parse(env, inner, Some(DefaultOf(env, d)))
  {
  }

  /** An array defaulted to `[]`: an accepted value is an array, the empty one when the value was absent. */
  lemma DefaultedArray(env: Env, elem: Schema, v: Option<Json>)
    requires Parse(env, SDefault(SArray(elem), Const(JArr([]))), v).Ok?
    ensures var o := Parse(env, SDefault(SArray(elem), Const(JArr([]))), v).value;
      o.Some? && o.value.JArr? && (v.None? ==> o.value == JArr([]))
  {
    if v.None? {
      assert ParseItems(env, elem, []) == Some([]);
    }
  }

  /** A value accepted through a bounded number schema is a number within its bounds. */
  lemma NumberWithinBounds(env: Env, s: Schema, v: Option<Json>)
    requires s.SNumber? || (s.SDefault? && s.inner.SNumber?) || (s.SOptional? && s.inner.SNumber?)
    requires Parse(env, s, v).Ok? && Parse(env, s, v).value.Some?
    ensures var n := if s.SNumber? then s else s.inner;
      Parse(env, s, v).value.value.JNum? && InBounds(Parse(env, s, v).value.value.n, n.min, n.max)
  {
  }

  /** A value accepted through an enum schema is one of its options. */
  lemma EnumWithinOptions(env: Env, s: Schema, v: Option<Json>)
    requires s.SEnum? || (s.SDefault? && s.inner.SEnum?) || (s.SOptional? && s.inner.SEnum?)
    requires Parse(env, s, v).Ok? && Parse(env, s, v).value.Some?
    ensures var e := if s.SEnum? then s else s.inner;
      Parse(env, s, v).value.value.JStr? && Parse(env, s, v).value.value.s in e.options
  {
  }

  /** A present string accepted through a checked string schema passes the check. */
  lemma CheckedStringPasses(env: Env, s: Schema, v: Option<Json>)
    requires s.SString? || (s.SOptional? && s.inner.SString?)
    requires Parse(env, s, v).Ok? && Parse(env, s, v).value.Some?
    ensures var c := if s.SString? then s.check else s.inner.check;
      v.Some? && v.value.JStr? && CheckPasses(env, c, v.value.s) && Parse(env, s, v).value == v
  {
  }

  /** The fields of a partial object schema accept whatever the full schema accepts. */
  lemma {:induction false} PartialFieldsAcceptMore(env: Env, fields: seq<Field>, pfields: seq<Field>, m: map<string, Json>)
    requires |pfields| == |fields|
    requires forall i :: 0 <= i < |fields| ==> pfields[i] == Field(fields[i].name, SOptional(fields[i].schema))
    requires ParseFields(env, fields, m).Some?
    ensures ParseFields(env, pfields, m).Some?
    decreases fields
  {
    if fields != [] {
      assert pfields[0] == Field(fields[0].name, SOptional(fields[0].schema));
      PartialFieldsAcceptMore(env, fields[1..], pfields[1..], m);
    }
  }

  /** Whatever the full schema accepts, its `.partial()` accepts. */
  lemma PartialAcceptsMore(env: Env, s: Schema, m: map<string, Json>)
    requires s.SObject?
    requires Parse(env, s, Some(JObj(m))).Ok?
    ensures Parse(env, Partial(s), Some(JObj(m))).Ok?
  {
    PartialFieldsAcceptMore(env, s.fields, Partial(s).fields, m);
  }

  /** The fields of a partial schema never add a key the input lacks: no default is applied. */
  lemma {:induction false} PartialFieldsAddNothing(env: Env, fields: seq<Field>, m: map<string, Json>)
    requires forall i :: 0 <= i < |fields| ==> fields[i].schema.SOptional?
    requires ParseFields(env, fields, m).Some?
    ensures ParseFields(env, fields, m).value.Keys <= m.Keys
    decreases fields
  {
    if fields != [] {
      PartialFieldsAddNothing(env, fields[1..], m);
    }
  }

  /** A partial object's output only has keys that were present in the input. */
  lemma PartialAppliesNoDefault(env: Env, s: Schema, m: map<string, Json>)
    requires s.SObject?
    requires Parse(env, Partial(s), Some(JObj(m))).Ok?
    ensures Parse(env, Partial(s), Some(JObj(m))).value.value.fields.Keys <= m.Keys
  {
    PartialFieldsAddNothing(env, Partial(s).fields, m);
  }

  /** A partial object schema accepts the empty object and produces it. */
  lemma {:induction false} PartialFieldsAcceptEmpty(env: Env, fields: seq<Field>)
    requires forall i :: 0 <= i < |fields| ==> fields[i].schema.SOptional?
    ensures ParseFields(env, fields, map[]) == Some(map[])
    decreases fields
  {
    if fields != [] {
      PartialFieldsAcceptEmpty(env, fields[1..]);
    }
  }

  lemma PartialAcceptsEmpty(env: Env, s: Schema)
    requires s.SObject?
    ensures Parse(env, Partial(s), Some(JObj(map[]))) == Ok(Some(JObj(map[])))
  {
    PartialFieldsAcceptEmpty(env, Partial(s).fields);
  }
}
