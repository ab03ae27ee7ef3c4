/**
 * The tap-verification endpoint: one request walks a fixed line of gates
 * (parameters, device, signature in prod mode, replay, rate limit), commits
 * the device counter, then awards a stamp or hands out a pending token.
 *
 * The backing store is two tables: `nfc_devices`, keyed here by `uid_hex`,
 * and the append-only `loyalty_transactions` ledger. Everything the handler
 * gets from outside (the clock, the identity provider, the signature check,
 * the award procedure, the random token) comes in as an `Env`.
 */
module VerifyTap {
  import opened Options
  import opened JsText

  /** A row of `nfc_devices`. */
  datatype Device = Device(
    id: string,
    uidHex: string,
    deviceType: string,
    lastCounter: int,
    status: string,
    assignedRestaurantId: Option<string>)

  /** A row of `loyalty_transactions` written by the award procedure; `createdAt` in milliseconds. */
  datatype Transaction = Transaction(
    deviceId: string,
    userId: string,
    restaurantId: Option<string>,
    tapMode: string,
    counter: JsNumber,
    createdAt: int)

  datatype Store = Store(devices: map<string, Device>, ledger: seq<Transaction>)

  /** Each device is filed under its own `uid_hex`, and no two devices share an `id`. */
  predicate WellFormed(st: Store) {
    (forall u :: u in st.devices ==> st.devices[u].uidHex == u)
    && (forall u, v :: u in st.devices && v in st.devices && st.devices[u].id == st.devices[v].id ==> u == v)
  }

  /** The HTTP method and the (already decoded) query parameters, in order. */
  datatype Request = Request(httpMethod: string, query: seq<(string, string)>)

  /** What the award procedure answered: a stamp total, an error, or neither. */
  datatype AwardResult = Awarded(currentStamps: int) | AwardError | AwardNoData

  /**
   * The world outside the handler for one request: the clock (ms), the user
   * id the identity provider resolved from the bearer token (None without a
   * header or for an unknown token), the signature check, the award
   * procedure's answer and the token `crypto.randomUUID` would produce.
   */
  datatype Env = Env(
    now: int,
    resolvedUser: Option<string>,
    cmacValid: (string, int, string) -> bool,
    award: AwardResult,
    pendingToken: string)

  /** The parameters as the handler reads them. */
  datatype TapParams = TapParams(uid: string, counter: JsNumber, cmac: string, mode: string)

  /** Every way the handler can answer. */
  datatype Outcome =
    | Preflight
    | Json400(message: string)
    | Json500
    | RedirectError(reason: string)
    | RedirectSuccess(stamps: int)
    | RedirectLogin(token: string)

  const MissingUidMessage := "Missing required parameter: uid"
  const ProdParamsMessage := "Production mode requires counter and cmac parameters"
  const InternalErrorMessage := "Internal server error"

  const DeviceNotFound := "device_not_found"
  const InvalidSignature := "invalid_signature"
  const ReplayAttack := "replay_attack"
  const RateLimit := "rate_limit"
  const AwardFailed := "award_failed"

  /** The rate limiter's look-back window: one tap per device per 60 seconds. */
  const RateWindowMs := 60000

  // ---------------------------------------------------------------------------
  // Request parsing
  // ---------------------------------------------------------------------------

  /** `url.searchParams.get(name)`: the value of the first parameter with that name. */
  function QueryGet(query: seq<(string, string)>, name: string): Option<string> {
    if query == [] then None
    else if query[0].0 == name then Some(query[0].1)
    else QueryGet(query[1..], name)
  }

  /** `get` finds a value exactly when the name occurs, and then it is the first occurrence's value. */
  lemma {:induction false} QueryGetFirst(query: seq<(string, string)>, name: string)
    ensures QueryGet(query, name).None? ==> forall k :: 0 <= k < |query| ==> query[k].0 != name
    ensures QueryGet(query, name).Some? ==>
              exists k :: 0 <= k < |query| && query[k] == (name, QueryGet(query, name).value)
                          && forall j :: 0 <= j < k ==> query[j].0 != name
  {
    if query != [] && query[0].0 != name {
      var rest := query[1..];
      QueryGetFirst(rest, name);
      if QueryGet(rest, name).Some? {
        var v := QueryGet(rest, name).value;
        var k :| 0 <= k < |rest| && rest[k] == (name, v) && forall j :: 0 <= j < k ==> rest[j].0 != name;
        assert query[k + 1] == (name, v);
        forall j | 0 <= j < k + 1 ensures query[j].0 != name {
          if j > 0 { assert query[j] == rest[j - 1]; }
        }
      } else {
        forall k | 0 <= k < |query| ensures query[k].0 != name {
          if k > 0 { assert query[k] == rest[k - 1]; }
        }
      }
    } else if query != [] {
      assert query[0] == (name, query[0].1);
    }
  }

  /** `get(name) || ''`: a missing parameter reads as the empty string. */
  function Param(query: seq<(string, string)>, name: string): string {
    match QueryGet(query, name)
    case Some(v) => v
    case None => ""
  }

  /** `s || fallback` for a string: the empty string is falsy. */
  function OrElse(s: string, fallback: string): string {
    if s == "" then fallback else s
  }

  function ParseParams(query: seq<(string, string)>): TapParams {
    TapParams(
      Param(query, "uid"),
      ParseInt(OrElse(Param(query, "counter"), "0")),
      Param(query, "cmac"),
      OrElse(Param(query, "mode"), "prod"))
  }

  // ---------------------------------------------------------------------------
  // Gates
  // ---------------------------------------------------------------------------

  /** The device with this `uid_hex` whose status is exactly `active`, if there is one. */
  function LookupActive(devices: map<string, Device>, uid: string): Option<Device> {
    if uid in devices && devices[uid].status == "active" then Some(devices[uid]) else None
  }

  /** The prod-mode precondition: a non-empty cmac and a truthy counter. */
  predicate ProdParamsPresent(p: TapParams) {
    p.cmac != "" && Truthy(p.counter)
  }

  /** The replay gate: a truthy counter that does not exceed the stored one. */
  predicate IsReplay(p: TapParams, d: Device) {
    Truthy(p.counter) && p.counter.value <= d.lastCounter
  }

  /** Some ledger entry of this device is no older than the window (the bound is inclusive). */
  predicate RecentTap(ledger: seq<Transaction>, deviceId: string, now: int) {
    exists k :: 0 <= k < |ledger| && ledger[k].deviceId == deviceId && ledger[k].createdAt >= now - RateWindowMs
  }

  /** `update({ last_counter }).eq('id', deviceId)`: every row with that id takes the new counter. */
  function CommitCounter(devices: map<string, Device>, deviceId: string, counter: int): map<string, Device> {
    map u | u in devices :: if devices[u].id == deviceId then devices[u].(lastCounter := counter) else devices[u]
  }

  /**
   * `validateNTAG424CMAC` as shipped: a placeholder that accepts every tag,
   * both when no master key is configured and when one is.
   */
  function ValidateNtag424Cmac(masterKey: Option<string>, uid: string, counter: int, cmac: string): (ok: bool)
    ensures ok
  {
    if masterKey.None? || masterKey.value == "" then true else true
  }

  /** `user?.id || null`: an empty id counts as no user. */
  function AuthenticatedUser(resolved: Option<string>): Option<string> {
    if resolved.Some? && resolved.value != "" then resolved else None
  }

  /** `device.assigned_restaurant_id || null`. */
  function RestaurantOf(d: Device): Option<string> {
    if d.assignedRestaurantId.Some? && d.assignedRestaurantId.value != "" then d.assignedRestaurantId else None
  }

  // ---------------------------------------------------------------------------
  // The handler, as a function of the store before the request
  // ---------------------------------------------------------------------------

  /**
   * The answer to one request and the store after it. Only two things can
   * change the store: the counter commit (after every gate passed), and the
   * one ledger row a successful award adds.
   */
  function Handle(st: Store, req: Request, env: Env): (r: (Outcome, Store))
    ensures r.1.devices.Keys == st.devices.Keys
    ensures st.ledger <= r.1.ledger && |r.1.ledger| <= |st.ledger| + 1
    ensures |r.1.ledger| == |st.ledger| + 1 <==> r.0.RedirectSuccess?
  {
    if req.httpMethod == "OPTIONS" then (Preflight, st)
    else HandleTap(st, ParseParams(req.query), env)
  }

  /** The gates from the uid check on, for parameters already read. */
  function HandleTap(st: Store, p: TapParams, env: Env): (r: (Outcome, Store))
    ensures r.1.devices.Keys == st.devices.Keys
    ensures st.ledger <= r.1.ledger && |r.1.ledger| <= |st.ledger| + 1
    ensures |r.1.ledger| == |st.ledger| + 1 <==> r.0.RedirectSuccess?
  {
    if p.uid == "" then (Json400(MissingUidMessage), st)
    else match LookupActive(st.devices, p.uid)
      case None => (RedirectError(DeviceNotFound), st)
      case Some(d) => CheckDevice(st, d, p, env)
  }

  /** The signature, replay and rate-limit gates for a resolved device. */
  function CheckDevice(st: Store, d: Device, p: TapParams, env: Env): (r: (Outcome, Store))
    ensures r.1.devices.Keys == st.devices.Keys
    ensures st.ledger <= r.1.ledger && |r.1.ledger| <= |st.ledger| + 1
    ensures |r.1.ledger| == |st.ledger| + 1 <==> r.0.RedirectSuccess?
  {
    if p.mode == "prod" && !ProdParamsPresent(p) then (Json400(ProdParamsMessage), st)
    else if p.mode == "prod" && !env.cmacValid(p.uid, p.counter.value, p.cmac) then
      (RedirectError(InvalidSignature), st)
    else if IsReplay(p, d) then (RedirectError(ReplayAttack), st)
    else if RecentTap(st.ledger, d.id, env.now) then (RedirectError(RateLimit), st)
    else CommitAndAward(st, d, p, env)
  }

  /** After every gate: commit a truthy counter, then award the stamp or defer to login. */
  function CommitAndAward(st: Store, d: Device, p: TapParams, env: Env): (r: (Outcome, Store))
    ensures r.1.devices.Keys == st.devices.Keys
    ensures st.ledger <= r.1.ledger && |r.1.ledger| <= |st.ledger| + 1
    ensures |r.1.ledger| == |st.ledger| + 1 <==> r.0.RedirectSuccess?
  {
    var committed :=
      if Truthy(p.counter) then st.(devices := CommitCounter(st.devices, d.id, p.counter.value)) else st;
    match AuthenticatedUser(env.resolvedUser)
    case None => (RedirectLogin(env.pendingToken), committed)
    case Some(user) =>
      match env.award
      case AwardError => (RedirectError(AwardFailed), committed)
      case AwardNoData => (Json500, committed)
      case Awarded(stamps) =>
        var row := Transaction(d.id, user, RestaurantOf(d), p.mode, p.counter, env.now);
        (RedirectSuccess(stamps), committed.(ledger := committed.ledger + [row]))
  }

  // ---------------------------------------------------------------------------
  // Response builders
  // ---------------------------------------------------------------------------

  /** What goes on the wire: the status, the `Location` header, the JSON `{error}` body. */
  datatype Response = Response(status: int, location: Option<string>, errorBody: Option<string>)

  const ErrorPagePrefix := "/verify-tap?status=error&reason="
  const SuccessPrefix := "/puntos?status=success&stamps="
  const LoginPrefix := "/auth/login?pending="
  const LoginSuffix := "&redirect=/puntos"

  /** `errorResponse`: a JSON body `{ error: message }` with the given status. */
  function ErrorResponse(message: string, status: int): Response {
    Response(status, None, Some(message))
  }

  /** `redirectToError`: a 302 to the error page carrying only the reason. */
  function RedirectToError(reason: string): Response {
    Response(302, Some(ErrorPagePrefix + reason), None)
  }

  function Render(o: Outcome): (r: Response)
    ensures r.status == 302 <==> o.RedirectError? || o.RedirectSuccess? || o.RedirectLogin?
    ensures r.location.Some? <==> r.status == 302
    ensures r.errorBody.Some? <==> r.status == 400 || r.status == 500
  {
    match o
    case Preflight => Response(200, None, None)
    case Json400(message) => ErrorResponse(message, 400)
    case Json500 => ErrorResponse(InternalErrorMessage, 500)
    case RedirectError(reason) => RedirectToError(reason)
    case RedirectSuccess(stamps) => Response(302, Some(SuccessPrefix + IntToDecimal(stamps)), None)
    case RedirectLogin(token) => Response(302, Some(LoginPrefix + token + LoginSuffix), None)
  }

  /** The failure reason an error-page location carries, read back. */
  function ReasonOf(location: string): Option<string> {
    if ErrorPagePrefix <= location then Some(location[|ErrorPagePrefix|..]) else None
  }

  /** The stamp total a success location carries, read back with `parseInt`. */
  function StampsOf(location: string): JsNumber {
    if SuccessPrefix <= location then ParseInt(location[|SuccessPrefix|..]) else NaN
  }

  /** The pending token a login location carries, read back. */
  function PendingTokenOf(location: string): Option<string> {
    if |LoginPrefix| + |LoginSuffix| <= |location| && LoginPrefix <= location
       && location[|location| - |LoginSuffix|..] == LoginSuffix
    then Some(location[|LoginPrefix|..|location| - |LoginSuffix|])
    else None
  }

  // ---------------------------------------------------------------------------
  // The handler as the source runs it: gate after gate, with early returns
  // ---------------------------------------------------------------------------

  class TapBackend {
    var devices: map<string, Device>
    var ledger: seq<Transaction>

    function Snapshot(): Store
      reads this
    {
      Store(devices, ledger)
    }

    constructor (initial: Store)
      ensures Snapshot() == initial
    {
      devices := initial.devices;
      ledger := initial.ledger;
    }

    /** One call of the `serve` handler. */
    method Serve(req: Request, env: Env) returns (response: Outcome)
      modifies this
      ensures (response, Snapshot()) == Handle(old(Snapshot()), req, env)
    {
      if req.httpMethod == "OPTIONS" {
        return Preflight;
      }
      var params := ParseParams(req.query);
      if params.uid == "" {
        return Json400(MissingUidMessage);
      }

      // Step 1: the active device with this uid.
      var found := LookupActive(devices, params.uid);
      if found.None? {
        return RedirectError(DeviceNotFound);
      }
      var device := found.value;

      // Step 2: the signature, in prod mode only.
      if params.mode == "prod" {
        if params.cmac == "" || !Truthy(params.counter) {
          return Json400(ProdParamsMessage);
        }
        var isValid := env.cmacValid(params.uid, params.counter.value, params.cmac);
        if !isValid {
          return RedirectError(InvalidSignature);
        }
      }

      // Step 3: anti-replay.
      if Truthy(params.counter) && params.counter.value <= device.lastCounter {
        return RedirectError(ReplayAttack);
      }

      // Step 4: rate limit.
      if RecentTap(ledger, device.id, env.now) {
        return RedirectError(RateLimit);
      }

      // Step 5: commit the counter.
      if Truthy(params.counter) {
        devices := CommitCounter(devices, device.id, params.counter.value);
      }

      // Steps 6 and 7: award, or defer to login.
      var userId := AuthenticatedUser(env.resolvedUser);
      if userId.None? {
        return RedirectLogin(env.pendingToken);
      }
      match env.award {
        case AwardError =>
          return RedirectError(AwardFailed);
        case AwardNoData =>
          return Json500;
        case Awarded(stamps) =>
          ledger := ledger + [Transaction(device.id, userId.value, RestaurantOf(device), params.mode, params.counter, env.now)];
          return RedirectSuccess(stamps);
      }
    }
  }
}
