/**
 * The decision rules of the four middlewares in
 * src/middlewares/auth/tokenValidation.js. PASETO verification (with the
 * public key it loads) is the uninterpreted function `verify`; the `tokens`
 * collection is a map from document id to the stored token; the secrets are
 * the environment values, `None` when unset.
 */
module TokenValidation {
  import opened Wrappers
  import opened Text
  import opened JsonValue

  /** What `verify(token, key)` does: resolve to a payload or throw an error with a name and message. */
  datatype VerifyResult = Verified(payload: Doc) | VerifyError(name: string, message: string)

  /** `next()` is called, or the middleware answers with a status and message. */
  datatype Verdict = Next | Reject(status: nat, message: string)

  /** `tokenHeader && tokenHeader.split(' ')[1]`, when truthy. */
  function BearerToken(header: Option<string>): (t: Option<string>)
    ensures t.Some? ==> t.value != "" && ' ' !in t.value
    ensures t.Some? ==> header.Some? && |SplitOn(header.value, ' ')| >= 2 && t.value == SplitOn(header.value, ' ')[1]
  {
    if header.None? || header.value == "" then None
    else
      var fields := SplitOn(header.value, ' ');
      JoinSplitOn(header.value, ' ', "");
      if |fields| >= 2 && fields[1] != "" then Some(fields[1]) else None
  }

  /** `Bearer <token>`, and anything else after a further space, yields the token. */
  lemma BearerTokenOf(scheme: string, token: string, rest: string)
    requires ' ' !in scheme && ' ' !in token && token != ""
    requires rest == [] || rest[0] == ' '
    ensures BearerToken(Some(scheme + " " + token + rest)) == Some(token)
  {
    var h := scheme + " " + token + rest;
    assert h == scheme + (" " + token + rest);
    SplitOnSkipsRun(scheme, " " + token + rest, ' ', "");
    assert (" " + token + rest)[1..] == token + rest;
    SplitOnSkipsRun(token, rest, ' ', "");
    assert "" + scheme == scheme && "" + token == token;
    assert SplitOn(h, ' ') == [scheme] + SplitOnFrom(rest, ' ', token);
  }

  /** A header without a space has no second field, so no token. */
  lemma NoSpaceNoToken(header: string)
    requires ' ' !in header
    ensures BearerToken(Some(header)).None?
  {
    SplitOnSkipsRun(header, "", ' ', "");
    assert header + "" == header;
  }

  /** `payload.secret_key === key`; when the variable is unset, a payload without the claim matches too. */
  predicate SecretMatches(payload: Doc, key: Option<string>) {
    if key.None? then "secret_key" !in payload
    else "secret_key" in payload && payload["secret_key"] == JStr(key.value)
  }

  /** `if (!req.body) req.body = {}`. */
  function BodyOrEmpty(body: Option<Doc>): Doc {
    if body.Some? then body.value else map[]
  }

  /** The claims `tokenValidator` copies: `userid`, `email`, `id` as `userId`, `name`, `role`. */
  function UserClaims(b: Doc, p: Doc): (r: Doc)
    ensures Lookup(r, "userid") == Lookup(p, "userid") && Lookup(r, "email") == Lookup(p, "email")
    ensures Lookup(r, "name") == Lookup(p, "name") && Lookup(r, "role") == Lookup(p, "role")
    ensures Lookup(r, "userId") == Lookup(p, "id")
    ensures forall k :: k != "userid" && k != "email" && k != "userId" && k != "name" && k != "role" ==>
      Lookup(r, k) == Lookup(b, k)
  {
    SetField(SetField(SetField(SetField(SetField(b, "userid", Lookup(p, "userid")), "email", Lookup(p, "email")),
      "userId", Lookup(p, "id")), "name", Lookup(p, "name")), "role", Lookup(p, "role"))
  }

  /** The claims `admintokenValidator` copies: the same without `userid`. */
  function AdminClaims(b: Doc, p: Doc): (r: Doc)
    ensures Lookup(r, "email") == Lookup(p, "email")
    ensures Lookup(r, "name") == Lookup(p, "name") && Lookup(r, "role") == Lookup(p, "role")
    ensures Lookup(r, "userId") == Lookup(p, "id")
    ensures forall k :: k != "email" && k != "userId" && k != "name" && k != "role" ==> Lookup(r, k) == Lookup(b, k)
  {
    SetField(SetField(SetField(SetField(b, "email", Lookup(p, "email")), "userId", Lookup(p, "id")),
      "name", Lookup(p, "name")), "role", Lookup(p, "role"))
  }

  /** The claims the forgot-password middlewares copy: `email` and `name`. */
  function ForgotClaims(b: Doc, p: Doc): (r: Doc)
    ensures Lookup(r, "email") == Lookup(p, "email") && Lookup(r, "name") == Lookup(p, "name")
    ensures forall k :: k != "email" && k != "name" ==> Lookup(r, k) == Lookup(b, k)
  {
    SetField(SetField(b, "email", Lookup(p, "email")), "name", Lookup(p, "name"))
  }

  /** The request as the middlewares see it: the Authorization header and the body they write into. */
  class Req {
    const authorization: Option<string>
    var body: Option<Doc>

    constructor (authorization: Option<string>, body: Option<Doc>)
      ensures this.authorization == authorization && this.body == body
    {
      this.authorization := authorization;
      this.body := body;
    }
  }

  /** The `tokens` collection: document id to the token it records. */
  class TokenStore {
    var docs: map<string, string>

    constructor (docs: map<string, string>)
      ensures this.docs == docs
    {
      this.docs := docs;
    }
  }

  /** The documents that record `token`. */
  function Holders(docs: map<string, string>, token: string): set<string> {
    set d | d in docs && docs[d] == token
  }

  /** `tokenValidator`. */
  method TokenValidator(req: Req, verify: string -> VerifyResult, secretKey: Option<string>) returns (v: Verdict)
    modifies req
    ensures var t := BearerToken(req.authorization);
      && (t.None? ==> v == Reject(401, "Missing or invalid token.") && req.body == old(req.body))
      && (t.Some? && verify(t.value).VerifyError? ==>
            v == Reject(401, "Invalid or expired token: " + verify(t.value).message) && req.body == old(req.body))
      && (t.Some? && verify(t.value).Verified? ==>
            var p := verify(t.value).payload;
            && (v == Next <==> SecretMatches(p, secretKey))
            && (SecretMatches(p, secretKey) ==> req.body == Some(UserClaims(BodyOrEmpty(old(req.body)), p)))
            && (!SecretMatches(p, secretKey) ==>
                  v == Reject(401, "Invalid token payload.") && req.body == Some(BodyOrEmpty(old(req.body)))))
  {
    var token := BearerToken(req.authorization);
    if token.None? {
      return Reject(401, "Missing or invalid token.");
    }
    match verify(token.value)
    case VerifyError(_, message) =>
      return Reject(401, "Invalid or expired token: " + message);
    case Verified(payload) =>
      req.body := Some(BodyOrEmpty(req.body));
      if SecretMatches(payload, secretKey) {
        req.body := Some(UserClaims(req.body.value, payload));
        return Next;
      }
      return Reject(401, "Invalid token payload.");
  }

  /** `admintokenValidator`: as `tokenValidator`, and `next` only for the `admin` role; the claims are copied before the role is checked. */
  method AdminTokenValidator(req: Req, verify: string -> VerifyResult, secretKey: Option<string>) returns (v: Verdict)
    modifies req
    ensures var t := BearerToken(req.authorization);
      && (t.None? ==> v == Reject(401, "Missing or invalid token.") && req.body == old(req.body))
      && (t.Some? && verify(t.value).VerifyError? ==>
            v == Reject(401, "Invalid or expired token: " + verify(t.value).message) && req.body == old(req.body))
      && (t.Some? && verify(t.value).Verified? ==>
            var p := verify(t.value).payload;
            && (v == Next <==> SecretMatches(p, secretKey) && Lookup(p, "role") == Some(JStr("admin")))
            && (SecretMatches(p, secretKey) ==> req.body == Some(AdminClaims(BodyOrEmpty(old(req.body)), p)))
            && (SecretMatches(p, secretKey) && Lookup(p, "role") != Some(JStr("admin")) ==>
                  v == Reject(401, "You are not authorized to access this resource."))
            && (!SecretMatches(p, secretKey) ==>
                  v == Reject(401, "Invalid token payload.") && req.body == Some(BodyOrEmpty(old(req.body)))))
  {
    var token := BearerToken(req.authorization);
    if token.None? {
      return Reject(401, "Missing or invalid token.");
    }
    match verify(token.value)
    case VerifyError(_, message) =>
      return Reject(401, "Invalid or expired token: " + message);
    case Verified(payload) =>
      req.body := Some(BodyOrEmpty(req.body));
      if SecretMatches(payload, secretKey) {
        req.body := Some(AdminClaims(req.body.value, payload));
        if Lookup(payload, "role") != Some(JStr("admin")) {
          return Reject(401, "You are not authorized to access this resource.");
        }
        return Next;
      }
      return Reject(401, "Invalid token payload.");
  }

  /**
   * `readverifyForgotToken`: the store is consulted before `verify`, and it is
   * never written (the store is not in the frame). `storeFault` is the error
   * the query throws, if it does.
   */
  method ReadVerifyForgotToken(req: Req, store: TokenStore, storeFault: Option<string>,
                               verify: string -> VerifyResult, forgotKey: Option<string>) returns (v: Verdict)
    modifies req
    ensures var t := BearerToken(req.authorization);
      && (t.None? ==> v == Reject(401, "Missing or invalid token.") && req.body == old(req.body))
      && (t.Some? && storeFault.Some? ==>
            v == Reject(401, "Invalid or expired token: " + storeFault.value) && req.body == old(req.body))
      && (t.Some? && storeFault.None? && Holders(store.docs, t.value) == {} ==>
            v == Reject(401, "Token not found in database or has already been used.") && req.body == old(req.body))
      && (t.Some? && storeFault.None? && Holders(store.docs, t.value) != {} ==>
            if verify(t.value).VerifyError? then
              v == Reject(401, "Invalid or expired token: " + verify(t.value).message) && req.body == old(req.body)
            else
              var p := verify(t.value).payload;
              && (v == Next <==> SecretMatches(p, forgotKey))
              && (SecretMatches(p, forgotKey) ==> req.body == Some(ForgotClaims(BodyOrEmpty(old(req.body)), p)))
              && (!SecretMatches(p, forgotKey) ==>
                    v == Reject(401, "Invalid token payload.") && req.body == Some(BodyOrEmpty(old(req.body)))))
  {
    var token := BearerToken(req.authorization);
    if token.None? {
      return Reject(401, "Missing or invalid token.");
    }
    if storeFault.Some? {
      return Reject(401, "Invalid or expired token: " + storeFault.value);
    }
    if Holders(store.docs, token.value) == {} {
      return Reject(401, "Token not found in database or has already been used.");
    }
    match verify(token.value)
    case VerifyError(_, message) =>
      return Reject(401, "Invalid or expired token: " + message);
    case Verified(payload) =>
      req.body := Some(BodyOrEmpty(req.body));
      if SecretMatches(payload, forgotKey) {
        req.body := Some(ForgotClaims(req.body.value, payload));
        return Next;
      }
      return Reject(401, "Invalid token payload.");
  }

  /** The message for a `verifyForgotToken` failure thrown with `name` and `message`. */
  function ForgotErrorMessage(name: string, message: string): string {
    if name == "TokenExpiredError" then "Forgot token has expired." else "Invalid or expired forgot token: " + message
  }

  /**
   * `verifyForgotToken`: `verify` first, then the secret, then the store; on
   * success one document recording the token is deleted before `next`.
   * `storeFault` is the error the query throws, if it does.
   */
  method VerifyForgotToken(req: Req, store: TokenStore, storeFault: Option<string>,
                           verify: string -> VerifyResult, forgotKey: Option<string>) returns (v: Verdict)
    modifies req, store
    ensures v.Reject? ==> v.status == 401
    ensures v != Next ==> store.docs == old(store.docs)
    ensures var t := BearerToken(req.authorization);
      v == Next <==>
        && t.Some? && verify(t.value).Verified? && SecretMatches(verify(t.value).payload, forgotKey)
        && storeFault.None? && Holders(old(store.docs), t.value) != {}
    ensures var t := BearerToken(req.authorization);
      && (t.None? ==> v == Reject(401, "Missing or invalid token."))
      && (t.Some? && verify(t.value).VerifyError? ==>
            v == Reject(401, ForgotErrorMessage(verify(t.value).name, verify(t.value).message)))
      && (t.Some? && verify(t.value).Verified? && !SecretMatches(verify(t.value).payload, forgotKey) ==>
            v == Reject(401, "Invalid forgot token payload."))
      && (t.Some? && verify(t.value).Verified? && SecretMatches(verify(t.value).payload, forgotKey) ==>
            && (storeFault.Some? ==> v == Reject(401, "Invalid or expired forgot token: " + storeFault.value))
            && (storeFault.None? && Holders(old(store.docs), t.value) == {} ==>
                  v == Reject(401, "Token has already been used or expired.")))
    ensures var t := BearerToken(req.authorization);
      && (t.None? || verify(t.value).VerifyError? ==> req.body == old(req.body))
      && (t.Some? && verify(t.value).Verified? && v != Next ==> req.body == Some(BodyOrEmpty(old(req.body))))
    ensures v == Next ==>
      var t := BearerToken(req.authorization).value;
      && req.body == Some(ForgotClaims(BodyOrEmpty(old(req.body)), verify(t).payload))
      && exists d :: d in Holders(old(store.docs), t) && store.docs == old(store.docs) - {d}
  {
    var token := BearerToken(req.authorization);
    if token.None? {
      return Reject(401, "Missing or invalid token.");
    }
    match verify(token.value)
    case VerifyError(name, message) =>
      return Reject(401, ForgotErrorMessage(name, message));
    case Verified(payload) =>
      req.body := Some(BodyOrEmpty(req.body));
      if !SecretMatches(payload, forgotKey) {
        return Reject(401, "Invalid forgot token payload.");
      }
      if storeFault.Some? {
        return Reject(401, "Invalid or expired forgot token: " + storeFault.value);
      }
      if Holders(store.docs, token.value) == {} {
        return Reject(401, "Token has already been used or expired.");
      }
      var d :| d in Holders(store.docs, token.value);
      req.body := Some(ForgotClaims(req.body.value, payload));
      store.docs := store.docs - {d};
      return Next;
  }

  /** A successful use removes exactly one of the documents recording the token. */
  lemma UseRemovesOneHolder(docs: map<string, string>, d: string, token: string)
    requires d in Holders(docs, token)
    ensures Holders(docs - {d}, token) == Holders(docs, token) - {d}
    ensures |Holders(docs - {d}, token)| == |Holders(docs, token)| - 1
  {
  }

  /** A forgot token recorded once is single-use: two requests with it never both reach `next`. */
  method ForgotTokenIsSingleUse(first: Req, second: Req, store: TokenStore,
                                verify: string -> VerifyResult, forgotKey: Option<string>)
    returns (v1: Verdict, v2: Verdict)
    requires first.authorization == second.authorization && first != second
    requires BearerToken(first.authorization).Some?
    requires |Holders(store.docs, BearerToken(first.authorization).value)| <= 1
    modifies first, second, store
    ensures !(v1 == Next && v2 == Next)
  {
    var t := BearerToken(first.authorization).value;
    v1 := VerifyForgotToken(first, store, None, verify, forgotKey);
    if v1 == Next {
      ghost var d :| d in Holders(old(store.docs), t) && store.docs == old(store.docs) - {d};
      UseRemovesOneHolder(old(store.docs), d, t);
      assert Holders(store.docs, t) == {};
    }
    v2 := VerifyForgotToken(second, store, None, verify, forgotKey);
  }
}
