/** The route guards of server/middleware/auth.js. Each guard either passes the
    request on or hands an error response to the error middleware. */
module Auth {
  import opened Common
  import opened Http

  const NotAuthorizedRoute := "Not authorized to access this route"
  const UserGone := "User no longer exists"
  const UserDeactivated := "User account has been deactivated"
  const PleaseVerify := "Please verify your email address to continue"

  /** `req.headers.authorization.split(' ')[1]` for a header starting with `Bearer`,
      else the `token` cookie; `None` is `undefined`. */
  function ExtractToken(authorization: Option<string>, cookie: Option<string>): (t: Option<string>)
    ensures TruthyStr(authorization) && StartsWith(authorization.value, "Bearer") ==>
      t == (if |Split(authorization.value, ' ')| >= 2 then Some(Split(authorization.value, ' ')[1]) else None)
    ensures !(TruthyStr(authorization) && StartsWith(authorization.value, "Bearer")) ==>
      t == (if TruthyStr(cookie) then cookie else None)
  {
    if TruthyStr(authorization) && StartsWith(authorization.value, "Bearer") then
      var parts := Split(authorization.value, ' ');
      if |parts| >= 2 then Some(parts[1]) else None
    else if TruthyStr(cookie) then cookie
    else None
  }

  /** A header `Bearer <t>` yields exactly `t`, whatever the cookie holds, for any
      token without a space. */
  lemma BearerRoundTrip(t: string, cookie: Option<string>)
    requires ' ' !in t
    ensures ExtractToken(Some("Bearer " + t), cookie) == Some(t)
  {
    var header := "Bearer " + t;
    assert header == "Bearer" + [' '] + t;
    assert header[..6] == "Bearer";
    SplitCons("Bearer", t, ' ');
    SplitFree(t, ' ');
  }

  /** The user document `User.findById` returns. */
  datatype StoredUser = StoredUser(id: string, role: string, isVerified: bool, deleted: bool)

  /** What `User.findById` does: finds a user, finds none, or throws. */
  datatype UserLookup = Found(user: StoredUser) | NoUser | LookupThrew

  function AsCaller(u: StoredUser): Caller
  {
    Caller(u.id, u.role, u.isVerified)
  }

  /** `protect`. `verify` is `jwt.verify` (the decoded user id, or `None` when it
      throws) and `lookup` is `User.findById`. Every refusal is a 401. */
  function Protect(authorization: Option<string>, cookie: Option<string>,
                   verify: string -> Option<string>, lookup: string -> UserLookup): (r: Result<Caller, ErrorResponse>)
    ensures r.Err? ==> r.error.statusCode == Unauthorized
    ensures !TruthyStr(ExtractToken(authorization, cookie)) ==> r == Err(ErrorResponse(NotAuthorizedRoute, Unauthorized))
    ensures r.Ok? <==>
      var t := ExtractToken(authorization, cookie);
      TruthyStr(t) && verify(t.value).Some? && lookup(verify(t.value).value).Found?
      && !lookup(verify(t.value).value).user.deleted
    ensures r.Ok? ==>
      var u := lookup(verify(ExtractToken(authorization, cookie).value).value).user;
      r.value == AsCaller(u)
  {
    var token := ExtractToken(authorization, cookie);
    if !TruthyStr(token) then Err(ErrorResponse(NotAuthorizedRoute, Unauthorized))
    else
      var decoded := verify(token.value);
      if decoded.None? then Err(ErrorResponse(NotAuthorizedRoute, Unauthorized))
      else
        match lookup(decoded.value)
        case LookupThrew => Err(ErrorResponse(NotAuthorizedRoute, Unauthorized))
        case NoUser => Err(ErrorResponse(UserGone, Unauthorized))
        case Found(u) =>
          if u.deleted then Err(ErrorResponse(UserDeactivated, Unauthorized))
          else Ok(AsCaller(u))
  }

  /** `authorize(...roles)`. */
  function Authorize(roles: seq<string>, caller: Caller): (r: Result<(), ErrorResponse>)
    ensures r.Ok? <==> caller.role in roles
    ensures r.Err? ==>
      r.error == ErrorResponse("User role " + caller.role + " is not authorized to access this route", Forbidden)
  {
    if caller.role !in roles then
      Err(ErrorResponse("User role " + caller.role + " is not authorized to access this route", Forbidden))
    else Ok(())
  }

  /** What `model.findById(req.params.id)` gives the ownership check: no document, a
      document with its `user` (absent when the model has no such path), or a thrown
      error (a malformed id raises a cast error). */
  datatype ResourceLookup = NoDocument | Document(user: Option<string>) | LookupThrew(message: string)

  /** How the ownership middleware ends: it calls `next()`, it calls `next` with an
      error, or its promise rejects. The middleware is async and not wrapped in the
      async handler, so Express 4 never sees a rejection: the request gets no answer
      and the server's `unhandledRejection` hook closes the server and exits. */
  datatype GuardOutcome = Proceed | Refused(error: ErrorResponse) | Unhandled(message: string)

  /** `ensureOwnership(model)`: 404 for no document, 401 unless the caller owns the
      document or is an admin. A failed lookup, or `resource.user.toString()` on a
      document without a `user`, rejects the middleware's promise unhandled. */
  function EnsureOwnership(id: string, resource: ResourceLookup, caller: Caller): (r: GuardOutcome)
    ensures r == Proceed <==> resource.Document? && resource.user.Some? && (resource.user.value == caller.id || IsAdmin(caller))
    ensures resource == NoDocument ==> r == Refused(ErrorResponse("Resource not found with id of " + id, NotFound))
    ensures resource.Document? && resource.user.Some? && r != Proceed ==>
      r == Refused(ErrorResponse("User " + caller.id + " is not authorized to update this resource", Unauthorized))
    ensures r.Unhandled? <==> resource.LookupThrew? || resource == Document(None)
    ensures resource == Document(None) ==> r == Unhandled(UndefinedToString)
    ensures resource.LookupThrew? ==> r == Unhandled(resource.message)
  {
    match resource
    case LookupThrew(m) => Unhandled(m)
    case NoDocument => Refused(ErrorResponse("Resource not found with id of " + id, NotFound))
    case Document(user) =>
      if user.None? then Unhandled(UndefinedToString)
      else if user.value != caller.id && caller.role != AdminRole then
        Refused(ErrorResponse("User " + caller.id + " is not authorized to update this resource", Unauthorized))
      else Proceed
  }

  /** `ensureVerified`. */
  function EnsureVerified(caller: Caller): (r: Result<(), ErrorResponse>)
    ensures r.Ok? <==> caller.isVerified
    ensures r.Err? ==> r.error == ErrorResponse(PleaseVerify, Forbidden)
  {
    if !caller.isVerified then Err(ErrorResponse(PleaseVerify, Forbidden)) else Ok(())
  }

  /** A user document as server/models/User.js declares it: the schema has neither an
      `isVerified` nor a `deleted` path, so both read as undefined, which is falsy. */
  function SchemaUser(id: string, role: string): StoredUser
  {
    StoredUser(id, role, false, false)
  }

  /** As written: when every stored user has the schema's shape, the deactivation
      branch of `protect` never fires, so every token that verifies to an existing
      user passes; and `ensureVerified` then refuses that caller with 403. No request
      gets past `ensureVerified`. */
  lemma AsWrittenVerifiedRefusesEveryone(authorization: Option<string>, cookie: Option<string>,
                                         verify: string -> Option<string>, lookup: string -> UserLookup)
    requires forall id :: lookup(id).Found? ==> lookup(id).user == SchemaUser(lookup(id).user.id, lookup(id).user.role)
    ensures var t := ExtractToken(authorization, cookie);
      var r := Protect(authorization, cookie, verify, lookup);
      (r.Ok? <==> TruthyStr(t) && verify(t.value).Some? && lookup(verify(t.value).value).Found?)
      && (r.Ok? ==> EnsureVerified(r.value) == Err(ErrorResponse(PleaseVerify, Forbidden)))
  {
  }

  /** With `isVerified` and `deleted` stored, a verified, active account whose token
      verifies passes both `protect` and `ensureVerified`, as its own caller. */
  lemma VerifiedUserPasses(authorization: Option<string>, cookie: Option<string>,
                           verify: string -> Option<string>, lookup: string -> UserLookup, u: StoredUser)
    requires u.isVerified && !u.deleted
    ensures var t := ExtractToken(authorization, cookie);
      TruthyStr(t) && verify(t.value).Some? && lookup(verify(t.value).value) == Found(u) ==>
        var r := Protect(authorization, cookie, verify, lookup);
        r == Ok(AsCaller(u)) && EnsureVerified(r.value).Ok?
  {
  }

  /** An account deleted after its token was issued never passes `protect`, whatever
      the token; and a request without a usable token never reaches the lookup. */
  lemma DeletedNeverPasses(authorization: Option<string>, cookie: Option<string>,
                           verify: string -> Option<string>, lookup: string -> UserLookup, u: StoredUser)
    requires u.deleted
    ensures var t := ExtractToken(authorization, cookie);
      TruthyStr(t) && verify(t.value).Some? && lookup(verify(t.value).value) == Found(u) ==>
        Protect(authorization, cookie, verify, lookup) == Err(ErrorResponse(UserDeactivated, Unauthorized))
  {
  }
}
