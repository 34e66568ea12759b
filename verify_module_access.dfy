/**
 * The `verify-module-access` edge function: it checks a module password or an
 * architect credential against server-side secrets, writes one audit record
 * per verified attempt, and answers failed attempts only after a fixed delay.
 *
 * The decision is the pure function `Decide`; the audit log the handler
 * appends to is the class `AccessLog`. The database client, `auth.getUser`,
 * `req.json()` and the `log_module_access` remote procedure are foreign I/O
 * and appear only as their outcomes (fields of `Request` and `Environment`).
 */
module VerifyModuleAccess {
  import opened JsStrings

  /** Secret per module id, held on the server only. */
  const ModulePasswords: map<int, string> := map[
    1 := "user_@1234",
    2 := "user_@1234",
    3 := "LHPSsec_AF2025",
    4 := "CHCS_AF_@003",
    5 := "SACS_AF@004",
    6 := "SACS_AF@004",
    7 := "M41n_4F@234",
    8 := "4dm1n_AF6969@00",
    9 := "4dm1n_Sec2025"
  ]

  /** The two architect credentials. */
  const MasterKey: string := "Mr.M_Architect_2025"
  const TriggerCode: string := "012443410"

  /** Column widths of the audit table. */
  const IpAddressLimit: nat := 45
  const UserAgentLimit: nat := 255

  /** Length of the throttle applied to every failed verification, in milliseconds. */
  const FailureDelayMs: nat := 1000

  /**
   * The JSON body. `None` stands for a field that is absent or null; a
   * `password` or `authType` that is not a string is also `None`, because no
   * non-string is strictly equal to a string constant.
   */
  datatype Body = Body(moduleId: Option<int>, password: Option<string>, authType: Option<string>)

  /** What `auth.getUser(token)` produced: an exception, no user, or a user with this id. */
  datatype UserLookup = LookupThrows | NoUser | User(id: string)

  /**
   * One incoming request. `body` is `None` when `req.json()` rejects; the
   * header fields are `None` when `headers.get` returns null.
   */
  datatype Request = Request(
    httpMethod: string,
    body: Option<Body>,
    forwardedFor: Option<string>,
    connectingIp: Option<string>,
    userAgent: Option<string>,
    authorization: Option<string>,
    lookup: UserLookup)

  /**
   * The outcome of the handler's calls into the platform: whether creating
   * the database client succeeds, and whether the audit write succeeds.
   */
  datatype Environment = Environment(clientCreated: bool, logWriteSucceeds: bool)

  /** The arguments of one `log_module_access` call. */
  datatype AccessRecord = AccessRecord(
    moduleId: Option<int>,
    userId: Option<string>,
    ipAddress: string,
    userAgent: string,
    success: bool)

  /** A response body: the plain preflight acknowledgement or the JSON result object. */
  datatype Reply =
    | Plain(text: string)
    | Json(success: bool, message: Option<string>, error: Option<string>)

  datatype Response = Response(status: int, reply: Reply)

  /**
   * Everything the handler does for one request: the response, the audit
   * record it tries to write (if any), and whether it waits before answering.
   */
  datatype Outcome = Outcome(response: Response, record: Option<AccessRecord>, delayed: bool)

  /** JavaScript truthiness of an optional header or body string. */
  predicate Truthy(s: Option<string>) {
    s.Some? && s.value != ""
  }

  /** `a || b` on optional strings, with `b` a string. */
  function OrElse(a: Option<string>, b: string): (r: string)
    ensures Truthy(a) ==> r == a.value
    ensures !Truthy(a) ==> r == b
  {
    if Truthy(a) then a.value else b
  }

  /** `moduleId || null`: a missing id and the falsy id 0 both become null. */
  function LoggedModuleId(moduleId: Option<int>): (r: Option<int>)
    ensures r.Some? <==> moduleId.Some? && moduleId.value != 0
    ensures r.Some? ==> r == moduleId
  {
    if moduleId.Some? && moduleId.value != 0 then moduleId else None
  }

  /** The guard `!moduleId || !modulePasswords[moduleId]`, negated. */
  predicate KnownModule(moduleId: Option<int>) {
    moduleId.Some? && moduleId.value != 0 &&
    moduleId.value in ModulePasswords && ModulePasswords[moduleId.value] != ""
  }

  /** The client address as logged: forwarded-for, else connecting-ip, else "unknown". */
  function ClientIp(req: Request): string {
    OrElse(req.forwardedFor, OrElse(req.connectingIp, "unknown"))
  }

  function ClientUserAgent(req: Request): string {
    OrElse(req.userAgent, "unknown")
  }

  /** `user?.id || null`. */
  function ResolvedUser(lookup: UserLookup): Option<string> {
    if lookup.User? && lookup.id != "" then Some(lookup.id) else None
  }

  /** The 500 answer of the outer catch. */
  const InternalError: Outcome :=
    Outcome(Response(500, Json(false, None, Some("Internal server error"))), None, false)

  /** A 400 answer, given before any log write or delay. */
  function BadRequest(error: string): Outcome {
    Outcome(Response(400, Json(false, None, Some(error))), None, false)
  }

  /** The architect check: either credential, compared as exact strings. */
  predicate ArchitectValid(password: Option<string>) {
    password == Some(MasterKey) || password == Some(TriggerCode)
  }

  /** The module check; only asked for a known module. */
  predicate ModuleValid(moduleId: int, password: Option<string>)
    requires moduleId in ModulePasswords
  {
    password == Some(ModulePasswords[moduleId])
  }

  /**
   * The handler's decision for one request. It verifies against the reference
   * predicates `ArchitectValid` and `ModuleValid`; the lemmas below state
   * each rule of the handler in terms of them.
   */
  function Decide(req: Request, env: Environment): (r: Outcome)
    ensures r.response.status in {200, 400, 401, 500}
    ensures r.response.reply.Json? ==> (r.response.reply.success <==> r.response.status == 200)
    ensures r.delayed <==> r.response.status == 401
    ensures r.record.Some? <==> r.response.status in {200, 401} && req.httpMethod != "OPTIONS"
    ensures r.record.Some? ==> (r.record.value.success <==> r.response.status == 200)
  {
    if req.httpMethod == "OPTIONS" then
      Outcome(Response(200, Plain("ok")), None, false)
    else if !env.clientCreated || req.body.None? then
      InternalError
    else if Truthy(req.authorization) && req.lookup.LookupThrows? then
      InternalError
    else
      var body := req.body.value;
      var userId := if Truthy(req.authorization) then ResolvedUser(req.lookup) else None;
      if body.authType == Some("architect") || (body.authType == Some("module") && KnownModule(body.moduleId)) then
        var isValid :=
          if body.authType == Some("architect") then ArchitectValid(body.password)
          else ModuleValid(body.moduleId.value, body.password);
        var record := AccessRecord(
          LoggedModuleId(body.moduleId), userId,
          Prefix(ClientIp(req), IpAddressLimit), Prefix(ClientUserAgent(req), UserAgentLimit),
          isValid);
        var response :=
          if isValid then Response(200, Json(true, Some("Access granted"), None))
          else Response(401, Json(false, Some("Invalid password"), None));
        Outcome(response, Some(record), !isValid)
      else if body.authType == Some("module") then
        BadRequest("Invalid module ID")
      else
        BadRequest("Invalid auth type")
  }

  /** The request reaches the password comparison (no preflight, no exception). */
  predicate Verifiable(req: Request, env: Environment) {
    req.httpMethod != "OPTIONS" && env.clientCreated && req.body.Some? &&
    !(Truthy(req.authorization) && req.lookup.LookupThrows?)
  }

  /** Granted access, stated without reference to `Decide`. */
  predicate Granted(body: Body) {
    (body.authType == Some("architect") && ArchitectValid(body.password)) ||
    (body.authType == Some("module") && KnownModule(body.moduleId) &&
     ModuleValid(body.moduleId.value, body.password))
  }

  /** A preflight request is acknowledged with plain "ok": no body is read, nothing is verified or logged. */
  lemma OptionsAcknowledged(req: Request, env: Environment)
    requires req.httpMethod == "OPTIONS"
    ensures Decide(req, env) == Outcome(Response(200, Plain("ok")), None, false)
  {
  }

  /** Architect access is granted exactly for the two fixed credentials. */
  lemma ArchitectGrantedIff(req: Request, env: Environment)
    requires Verifiable(req, env) && req.body.value.authType == Some("architect")
    ensures var r := Decide(req, env);
      (r.response.status == 200) <==>
      (req.body.value.password == Some("Mr.M_Architect_2025") || req.body.value.password == Some("012443410"))
    ensures Decide(req, env).response.status in {200, 401}
  {
  }

  /** A missing, zero or unknown module id is refused with 400 before any logging or delay. */
  lemma InvalidModuleIdRefused(req: Request, env: Environment)
    requires Verifiable(req, env) && req.body.value.authType == Some("module")
    requires req.body.value.moduleId.None? || req.body.value.moduleId.value !in ModulePasswords
             || req.body.value.moduleId.value == 0
    ensures Decide(req, env) == Outcome(Response(400, Json(false, None, Some("Invalid module ID"))), None, false)
  {
  }

  /** For a known module, access is granted exactly for that module's secret. */
  lemma ModuleGrantedIff(req: Request, env: Environment, id: int)
    requires Verifiable(req, env) && req.body.value.authType == Some("module")
    requires req.body.value.moduleId == Some(id) && id in ModulePasswords
    ensures Decide(req, env).response.status in {200, 401}
    ensures Decide(req, env).response.status == 200 <==> req.body.value.password == Some(ModulePasswords[id])
  {
  }

  /** Modules 1 and 2 share one secret, as do modules 5 and 6; all other secrets are distinct. */
  lemma SharedSecrets()
    ensures ModulePasswords.Keys == {1, 2, 3, 4, 5, 6, 7, 8, 9}
    ensures ModulePasswords[1] == ModulePasswords[2] && ModulePasswords[5] == ModulePasswords[6]
    ensures forall a, b ::
              (a in ModulePasswords && b in ModulePasswords && a < b && ModulePasswords[a] == ModulePasswords[b])
              ==> (a == 1 && b == 2) || (a == 5 && b == 6)
  {
  }

  /** Any auth type other than "architect" and "module" is refused with 400, without logging or delay. */
  lemma UnknownAuthTypeRefused(req: Request, env: Environment)
    requires Verifiable(req, env)
    requires req.body.value.authType != Some("architect") && req.body.value.authType != Some("module")
    ensures Decide(req, env) == Outcome(Response(400, Json(false, None, Some("Invalid auth type"))), None, false)
  {
  }

  /**
   * Every verified attempt produces exactly one record, carrying `moduleId || null`,
   * the caller's user id when an authorization header was sent, the address and
   * user agent cut to their first 45 and 255 characters, and the decision; the
   * response does not depend on whether the log write succeeds.
   */
  lemma VerifiedAttemptRecorded(req: Request, env: Environment)
    requires Verifiable(req, env)
    requires Decide(req, env).response.status in {200, 401}
    ensures var r := Decide(req, env);
      && r.record.Some?
      && r.record.value.moduleId == LoggedModuleId(req.body.value.moduleId)
      && r.record.value.userId == (if Truthy(req.authorization) then ResolvedUser(req.lookup) else None)
      && r.record.value.ipAddress == Prefix(ClientIp(req), 45)
      && r.record.value.userAgent == Prefix(ClientUserAgent(req), 255)
      && |r.record.value.ipAddress| <= 45 && r.record.value.ipAddress <= ClientIp(req)
      && |r.record.value.userAgent| <= 255 && r.record.value.userAgent <= ClientUserAgent(req)
      && r.record.value.success == Granted(req.body.value)
    ensures Decide(req, env.(logWriteSucceeds := !env.logWriteSucceeds)) == Decide(req, env)
  {
  }

  /**
   * For a verified attempt: 200 "Access granted" without delay exactly when
   * access is granted, otherwise 401 "Invalid password" after the delay.
   */
  lemma StatusAndDelay(req: Request, env: Environment)
    requires Verifiable(req, env)
    requires Decide(req, env).response.status in {200, 401}
    ensures var r := Decide(req, env);
      if Granted(req.body.value) then
        r.response == Response(200, Json(true, Some("Access granted"), None)) && !r.delayed
      else
        r.response == Response(401, Json(false, Some("Invalid password"), None)) && r.delayed
  {
  }

  /** A request whose body cannot be parsed, or whose user lookup throws, gets the generic 500. */
  lemma ExceptionsGiveInternalError(req: Request, env: Environment)
    requires req.httpMethod != "OPTIONS"
    requires !env.clientCreated || req.body.None? || (Truthy(req.authorization) && req.lookup.LookupThrows?)
    ensures Decide(req, env) == Outcome(Response(500, Json(false, None, Some("Internal server error"))), None, false)
  {
  }

  /**
   * The audit log the handler appends to. It only ever grows: each call of
   * `Handle` appends the attempted record when the write succeeds.
   */
  class AccessLog {
    var records: seq<AccessRecord>

    constructor ()
      ensures records == []
    {
      records := [];
    }

    /** Serves one request: decides, writes the audit record, and reports the response and delay. */
    method Handle(req: Request, env: Environment) returns (response: Response, delayed: bool)
      modifies this
      ensures response == Decide(req, env).response
      ensures delayed == Decide(req, env).delayed
      ensures var rec := Decide(req, env).record;
        records == if rec.Some? && env.logWriteSucceeds then old(records) + [rec.value] else old(records)
    {
      var outcome := Decide(req, env);
      if outcome.record.Some? && env.logWriteSucceeds {
        records := records + [outcome.record.value];
      }
      response, delayed := outcome.response, outcome.delayed;
    }
  }
}
