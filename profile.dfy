/**
 * The request handlers of src/controllers/profile.controller.js over an
 * in-memory `users` collection: `resolveEmail`, the checks of
 * `uploadResume`, and `getUser`, `updateProfile`, `uploadResume` and
 * `getResumeSource` as methods of the store. The clock is a parameter `now`,
 * PASETO verification is the function `verify`, and the Cloudinary upload is
 * the function `upload` from the public id to the service's answer.
 */
module Profile {
  import opened Wrappers
  import opened Text
  import opened Bytes
  import opened JsonValue
  import opened Zod
  import opened DocMerge
  import UserSchema
  import EmailKey
  import TokenValidation

  // ---------------------------------------------------------------------
  // resolveEmail

  /** The parts of a request `resolveEmail` reads. */
  datatype EmailSources = EmailSources(
    user: Option<Json>, body: Option<Json>, query: Option<Json>, params: Option<Json>, authorization: Option<string>)

  /** `x && x.email`: the `email` property of an object (its falsy value stands in when `x` is falsy). */
  function EmailOf(x: Option<Json>): Option<Json> {
    if x.Some? && x.value.JObj? && "email" in x.value.fields then Some(x.value.fields["email"]) else None
  }

  /** The email claim of the bearer token's verified payload; nothing without a token or when verification throws. */
  function TokenEmail(authorization: Option<string>, verify: string -> TokenValidation.VerifyResult): (r: Option<Json>)
    ensures TokenValidation.BearerToken(authorization).None? ==> r.None?
    ensures TokenValidation.BearerToken(authorization).Some? ==>
      var v := verify(TokenValidation.BearerToken(authorization).value);
      (v.VerifyError? ==> r.None?) && (v.Verified? ==> r == Lookup(v.payload, "email"))
  {
    match TokenValidation.BearerToken(authorization)
    case None => None
    case Some(token) =>
      match verify(token)
      case Verified(payload) => Lookup(payload, "email")
      case VerifyError(_, _) => None
  }

  /** Some request field gives an email. */
  predicate Given(req: EmailSources) {
    Truthy(EmailOf(req.user)) || Truthy(EmailOf(req.body)) || Truthy(EmailOf(req.query)) || Truthy(EmailOf(req.params))
  }

  /** `resolveEmail(req)`: the first truthy email among user, body, query and params, else the token's email. */
  function ResolveEmail(req: EmailSources, verify: string -> TokenValidation.VerifyResult): (r: Option<Json>)
    ensures Truthy(EmailOf(req.user)) ==> r == EmailOf(req.user)
    ensures !Truthy(EmailOf(req.user)) && Truthy(EmailOf(req.body)) ==> r == EmailOf(req.body)
    ensures !Truthy(EmailOf(req.user)) && !Truthy(EmailOf(req.body)) && Truthy(EmailOf(req.query)) ==>
      r == EmailOf(req.query)
    ensures (!Truthy(EmailOf(req.user)) && !Truthy(EmailOf(req.body)) && !Truthy(EmailOf(req.query))
      && Truthy(EmailOf(req.params))) ==> r == EmailOf(req.params)
    ensures !Given(req) ==> r == TokenEmail(req.authorization, verify)
  {
    var first := Or(Or(Or(EmailOf(req.user), EmailOf(req.body)), EmailOf(req.query)), EmailOf(req.params));
    if Truthy(first) then first else TokenEmail(req.authorization, verify)
  }

  /** When any request field gives an email, the token is never looked at, and the result is truthy. */
  lemma TokenOnlyAsFallback(req: EmailSources, v1: string -> TokenValidation.VerifyResult, v2: string -> TokenValidation.VerifyResult)
    requires Given(req)
    ensures ResolveEmail(req, v1) == ResolveEmail(req, v2)
    ensures Truthy(ResolveEmail(req, v1))
  {
  }

  /**
   * Only the token's validity and its email claim matter: unlike the token
   * middlewares, `resolveEmail` never compares the `secret_key` claim.
   */
  lemma SecretKeyNotConsulted(req: EmailSources, v1: string -> TokenValidation.VerifyResult, v2: string -> TokenValidation.VerifyResult)
    requires forall t :: v1(t).Verified? <==> v2(t).Verified?
    requires forall t :: v1(t).Verified? ==> Lookup(v1(t).payload, "email") == Lookup(v2(t).payload, "email")
    ensures ResolveEmail(req, v1) == ResolveEmail(req, v2)
  {
  }

  // ---------------------------------------------------------------------
  // The checks of uploadResume

  /** `req.file` as the upload middleware provides it. */
  datatype File = File(mimetype: string, originalname: string, buffer: Option<seq<byte>>)

  datatype UploadCheck = Pass(email: Json) | Refused(status: nat, error: string)

  /** The four refusals `uploadResume` makes before it looks up the user, in order. */
  function CheckUpload(email: Option<Json>, file: Option<File>): (r: UploadCheck)
    ensures r == Refused(400, "email is required") <==> !Truthy(email)
    ensures r == Refused(400, "resume file is required") <==> Truthy(email) && file.None?
    ensures r == Refused(400, "Only PDF resumes are allowed") <==>
      Truthy(email) && file.Some? && file.value.mimetype != "application/pdf"
    ensures r == Refused(400, "Uploaded file is not a valid PDF") <==>
      Truthy(email) && file.Some? && file.value.mimetype == "application/pdf"
      && !(file.value.buffer.Some? && HasPdfMagic(file.value.buffer.value))
    ensures r.Pass? <==>
      Truthy(email) && file.Some? && file.value.mimetype == "application/pdf"
      && file.value.buffer.Some? && HasPdfMagic(file.value.buffer.value)
    ensures r.Pass? ==> r.email == email.value
  {
    if !Truthy(email) then Refused(400, "email is required")
    else if file.None? then Refused(400, "resume file is required")
    else if file.value.mimetype != "application/pdf" then Refused(400, "Only PDF resumes are allowed")
    else if file.value.buffer.None? || !HasPdfMagic(file.value.buffer.value) then Refused(400, "Uploaded file is not a valid PDF")
    else Pass(email.value)
  }

  /** A PDF upload passes the checks exactly when its first four bytes read `%PDF` with the high bit cleared. */
  lemma PdfUploadPasses(email: Json, name: string, buffer: seq<byte>)
    requires Truthy(Some(email))
    ensures CheckUpload(Some(email), Some(File("application/pdf", name, Some(buffer)))).Pass? <==>
      |buffer| >= 4 && buffer[0] as int % 128 == 37 && buffer[1] as int % 128 == 80
      && buffer[2] as int % 128 == 68 && buffer[3] as int % 128 == 70
  {
    PdfMagicBytes(buffer);
  }

  // ---------------------------------------------------------------------
  // updateProfile's payload

  const MismatchError := "email in payload must match lookup email"

  /** The update `updateProfile` writes: the parsed payload without `createdAt`, stamped with `updatedAt`. */
  function StampedUpdate(parsed: Doc, now: string): (u: Doc)
    ensures "createdAt" !in u && "updatedAt" in u && u["updatedAt"] == JStr(now)
    ensures forall k :: k in parsed && k != "createdAt" && k != "updatedAt" ==> k in u && u[k] == parsed[k]
    ensures forall k :: k in u && k != "updatedAt" ==> k in parsed
  {
    (parsed - {"createdAt"})["updatedAt" := JStr(now)]
  }

  /** The payload's own `email`, once parsed, is the lookup email itself, so the mismatch refusal never happens. */
  lemma ParsedEmailIsLookupEmail(env: Env, body: Doc)
    requires "email" in body
    requires Parse(env, Partial(UserSchema.User), Some(JObj(body))).Ok?
    ensures var update := Parse(env, Partial(UserSchema.User), Some(JObj(body))).value.value.fields;
      "email" in update && update["email"] == body["email"] && !StrictlyDiffer(update["email"], body["email"])
  {
    var s := Partial(UserSchema.User);
    assert s.fields[0].name == "name" && s.fields[1] == Field("email", SOptional(SString(Email)));
    ObjectField(env, s, body, 1);
    CheckedStringPasses(env, SOptional(SString(Email)), Lookup(body, "email"));
  }

  /** A stored creation time survives every profile update, and the update's other keys are written. */
  lemma UpdateKeepsCreatedAt(stored: Doc, parsed: Doc, now: string)
    ensures var merged := MergeDoc(stored, StampedUpdate(parsed, now));
      && ("createdAt" in merged <==> "createdAt" in stored)
      && ("createdAt" in stored ==> merged["createdAt"] == stored["createdAt"])
      && merged["updatedAt"] == JStr(now)
  {
  }

  datatype Reply = Done(status: nat, data: Doc) | Text(status: nat, body: string) | Failed(status: nat, error: string)

  /** What Cloudinary answers for an upload: the secure url, the stored public id and the byte count. */
  datatype Uploaded = Uploaded(secureUrl: string, publicId: string, bytes: nat)

  /** `updatedResume`: the upload's url and id, the file name and time, and the LaTeX source when the body has a non-blank one. */
  function ResumeRecord(file: File, up: Uploaded, body: Option<Json>, now: string): (r: Doc)
    ensures "fileName" in r && "lastUpdated" in r && "url" in r && "publicId" in r
    ensures r["fileName"] == JStr(file.originalname) && r["lastUpdated"] == JStr(now)
    ensures r["url"] == JStr(up.secureUrl) && r["publicId"] == JStr(up.publicId)
    ensures "latex" in r <==> LatexGiven(body)
    ensures r.Keys <= {"fileName", "lastUpdated", "url", "publicId", "latex"}
  {
    var base := map["fileName" := JStr(file.originalname), "lastUpdated" := JStr(now),
                    "url" := JStr(up.secureUrl), "publicId" := JStr(up.publicId)];
    if LatexGiven(body) then base["latex" := body.value.fields["latex"]] else base
  }

  /** `req.body && typeof req.body.latex === 'string' && req.body.latex.trim()`. */
  predicate LatexGiven(body: Option<Json>) {
    body.Some? && body.value.JObj? && "latex" in body.value.fields
    && body.value.fields["latex"].JStr? && Trim(body.value.fields["latex"].s) != ""
  }

  /** `{ resume: updatedResume, updatedAt }`. */
  function ResumeUpdate(file: File, up: Uploaded, body: Option<Json>, now: string): Doc {
    map["resume" := JObj(ResumeRecord(file, up, body, now)), "updatedAt" := JStr(now)]
  }

  /**
   * The resume is merged into the stored one, so an upload without LaTeX
   * keeps the LaTeX source stored with an earlier resume.
   */
  lemma UploadKeepsEarlierLatex(stored: Doc, file: File, up: Uploaded, body: Option<Json>, now: string)
    requires "resume" in stored && stored["resume"].JObj? && "latex" in stored["resume"].fields
    requires !LatexGiven(body)
    ensures var merged := MergeDoc(stored, ResumeUpdate(file, up, body, now));
      merged["resume"].JObj? && "latex" in merged["resume"].fields
      && merged["resume"].fields["latex"] == stored["resume"].fields["latex"]
  {
    var update := ResumeUpdate(file, up, body, now);
    assert "latex" !in update["resume"].fields;
    MergeKeepsNested(stored, update, "resume", "latex");
  }

  /** `data?.resume?.latex` when it is a non-blank string. */
  function StoredLatex(d: Doc): Option<string> {
    if "resume" in d && d["resume"].JObj? && "latex" in d["resume"].fields
       && d["resume"].fields["latex"].JStr? && Trim(d["resume"].fields["latex"].s) != ""
    then Some(d["resume"].fields["latex"].s)
    else None
  }

  /** The message of the `TypeError` a non-string email raises at `toLowerCase`. */
  const NotStringError := "email.toLowerCase is not a function"

  /** The refusal `updateProfile` sends before it reads the store, if any. */
  method CheckUpdate(env: Env, body: Doc) returns (refusal: Option<Reply>)
    ensures var parsed := Parse(env, Partial(UserSchema.User), Some(JObj(body)));
      && (refusal == Some(Failed(400, "email is required")) <==> !Truthy(Lookup(body, "email")))
      && (refusal == Some(Failed(400, "Invalid payload")) <==> Truthy(Lookup(body, "email")) && parsed.Fail?)
      && (refusal == Some(Failed(400, MismatchError)) <==>
            Truthy(Lookup(body, "email")) && parsed.Ok?
            && "email" in parsed.value.value.fields && StrictlyDiffer(parsed.value.value.fields["email"], body["email"]))
      && (refusal.None? <==>
            Truthy(Lookup(body, "email")) && parsed.Ok?
            && !("email" in parsed.value.value.fields && StrictlyDiffer(parsed.value.value.fields["email"], body["email"])))
  {
    var email := Lookup(body, "email");
    if !Truthy(email) {
      return Some(Failed(400, "email is required"));
    }
    var parsed := Parse(env, Partial(UserSchema.User), Some(JObj(body)));
    if parsed.Fail? {
      return Some(Failed(400, "Invalid payload"));
    }
    var update := parsed.value.value.fields;
    if "email" in update && StrictlyDiffer(update["email"], email.value) {
      return Some(Failed(400, MismatchError));
    }
    return None;
  }

  class UserStore {
    var docs: map<string, Doc>

    constructor ()
      ensures docs == map[]
    {
      docs := map[];
    }

    /** The documents `where('email', '==', email)` matches. */
    function Holders(email: Json): set<string>
      reads this
    {
      set d | d in docs && Lookup(docs[d], "email") == Some(email)
    }

    /** `getUser`: 400 without an email, 404 when no user has it, else one matching user. */
    method GetUser(body: Doc) returns (r: Reply)
      ensures r == Failed(400, "email is required") <==> !Truthy(Lookup(body, "email"))
      ensures r == Failed(404, "User not found") <==> Truthy(Lookup(body, "email")) && Holders(body["email"]) == {}
      ensures r.Done? ==> exists d :: d in Holders(body["email"]) && r == Done(200, WithId(d, docs[d]))
      ensures Truthy(Lookup(body, "email")) && Holders(body["email"]) != {} ==> r.Done?
      ensures r.Done? || r.Failed?
    {
      var email := Lookup(body, "email");
      if !Truthy(email) {
        return Failed(400, "email is required");
      }
      var holders := Holders(email.value);
      if holders == {} {
        return Failed(404, "User not found");
      }
      var d :| d in holders;
      r := Done(200, WithId(d, docs[d]));
    }

    /**
     * `updateProfile`: 400 without an email or for an invalid payload (before
     * the store is read), 404 when no user has the email; otherwise the
     * stamped update is merged into one matching document.
     */
    method UpdateProfile(env: Env, body: Doc, now: string) returns (r: Reply)
      modifies this
      ensures var parsed := Parse(env, Partial(UserSchema.User), Some(JObj(body)));
        && (r == Failed(400, "email is required") <==> !Truthy(Lookup(body, "email")))
        && (r == Failed(400, "Invalid payload") <==> Truthy(Lookup(body, "email")) && parsed.Fail?)
        && (r == Failed(400, MismatchError) <==>
              Truthy(Lookup(body, "email")) && parsed.Ok?
              && "email" in parsed.value.value.fields && StrictlyDiffer(parsed.value.value.fields["email"], body["email"]))
        && (r == Failed(404, "User not found") <==>
              Truthy(Lookup(body, "email")) && parsed.Ok? && old(Holders(body["email"])) == {}
              && !("email" in parsed.value.value.fields && StrictlyDiffer(parsed.value.value.fields["email"], body["email"])))
      ensures r.Failed? ==> docs == old(docs)
      ensures r.Done? ==>
        var update := StampedUpdate(Parse(env, Partial(UserSchema.User), Some(JObj(body))).value.value.fields, now);
        exists d :: d in old(Holders(body["email"]))
          && docs == old(docs)[d := MergeDoc(old(docs)[d], update)]
          && r == Done(200, WithId(d, docs[d]))
      ensures var parsed := Parse(env, Partial(UserSchema.User), Some(JObj(body)));
        Truthy(Lookup(body, "email")) && parsed.Ok? && old(Holders(body["email"])) != {}
        && !("email" in parsed.value.value.fields && StrictlyDiffer(parsed.value.value.fields["email"], body["email"]))
        ==> r.Done?
      ensures r.Done? || r.Failed?
    {
      var refusal := CheckUpdate(env, body);
      if refusal.Some? {
        return refusal.value;
      }
      var email := body["email"];
      var stamped := StampedUpdate(Parse(env, Partial(UserSchema.User), Some(JObj(body))).value.value.fields, now);
      var holders := Holders(email);
      if holders == {} {
        return Failed(404, "User not found");
      }
      var d :| d in holders;
      docs := docs[d := MergeDoc(docs[d], stamped)];
      r := Done(200, WithId(d, docs[d]));
    }

    /**
     * `uploadResume` up to the store write: the four checks come first and
     * leave the store alone, then the user lookup, then the upload under the
     * key derived from the email, whose resume record is merged into the user.
     */
    method UploadResume(req: EmailSources, verify: string -> TokenValidation.VerifyResult, file: Option<File>,
                        now: string, upload: string -> Option<Uploaded>) returns (r: Reply)
      modifies this
      ensures var check := CheckUpload(ResolveEmail(req, verify), file);
        && (check.Refused? ==> r == Failed(check.status, check.error))
        && (check.Pass? && old(Holders(check.email)) == {} ==> r == Failed(404, "User not found"))
        && (check.Pass? && old(Holders(check.email)) != {} && !check.email.JStr? ==> r == Failed(500, NotStringError))
      ensures var check := CheckUpload(ResolveEmail(req, verify), file);
        check.Pass? && old(Holders(check.email)) != {} && check.email.JStr? ==>
          var up := upload(EmailKey.PublicId(check.email.s));
          && (up.None? || up.value.secureUrl == "" || up.value.bytes == 0 <==>
                r == Failed(500, "Failed to store resume on Cloudinary"))
          && (up.Some? && up.value.secureUrl != "" && up.value.bytes != 0 <==> r.Done?)
      ensures r.Failed? ==> docs == old(docs)
      ensures r.Done? ==>
        var email := ResolveEmail(req, verify).value;
        var up := upload(EmailKey.PublicId(email.s));
        && CheckUpload(ResolveEmail(req, verify), file).Pass? && email.JStr?
        && up.Some? && up.value.secureUrl != "" && up.value.bytes != 0
        && (exists d :: d in old(Holders(email))
              && docs == old(docs)[d := MergeDoc(old(docs)[d], ResumeUpdate(file.value, up.value, req.body, now))]
              && r == Done(200, WithId(d, docs[d])))
      ensures r.Done? || r.Failed?
    {
      var check := CheckUpload(ResolveEmail(req, verify), file);
      if check.Refused? {
        return Failed(check.status, check.error);
      }
      var holders := Holders(check.email);
      if holders == {} {
        return Failed(404, "User not found");
      }
      var d :| d in holders;
      if !check.email.JStr? {
        return Failed(500, NotStringError);
      }
      var publicId := EmailKey.PublicId(check.email.s);
      var up := upload(publicId);
      if up.None? || up.value.secureUrl == "" || up.value.bytes == 0 {
        return Failed(500, "Failed to store resume on Cloudinary");
      }
      docs := docs[d := MergeDoc(docs[d], ResumeUpdate(file.value, up.value, req.body, now))];
      r := Done(200, WithId(d, docs[d]));
    }

    /** `getResumeSource`: 400 without an email, 404 without a user or without a stored non-blank LaTeX source. */
    method ResumeSource(req: EmailSources, verify: string -> TokenValidation.VerifyResult) returns (r: Reply)
      ensures var email := ResolveEmail(req, verify);
        && (r == Failed(400, "email is required") <==> !Truthy(email))
        && (r == Failed(404, "User not found") <==> Truthy(email) && Holders(email.value) == {})
        && (r.Text? ==> r.status == 200 && exists d :: d in Holders(email.value) && StoredLatex(docs[d]) == Some(r.body))
        && (r == Failed(404, "No LaTeX source stored") ==>
              exists d :: d in Holders(email.value) && StoredLatex(docs[d]).None?)
      ensures var email := ResolveEmail(req, verify);
        Truthy(email) && Holders(email.value) != {} ==>
          && (r.Text? || r == Failed(404, "No LaTeX source stored"))
          && ((forall d :: d in Holders(email.value) ==> StoredLatex(docs[d]).Some?) ==> r.Text?)
          && ((forall d :: d in Holders(email.value) ==> StoredLatex(docs[d]).None?) ==>
                r == Failed(404, "No LaTeX source stored"))
      ensures r.Text? || r.Failed?
    {
      var email := ResolveEmail(req, verify);
      if !Truthy(email) {
        return Failed(400, "email is required");
      }
      var holders := Holders(email.value);
      if holders == {} {
        return Failed(404, "User not found");
      }
      var d :| d in holders;
      var latex := StoredLatex(docs[d]);
      if latex.Some? {
        return Text(200, latex.value);
      }
      r := Failed(404, "No LaTeX source stored");
    }
  }
}
