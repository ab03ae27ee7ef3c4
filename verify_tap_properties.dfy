/**
 * What the tap handler guarantees: each gate rejects exactly its case and
 * leaves the store alone, the signature is consulted only in prod mode, the
 * device counter only grows, and over any sequence of taps no counter value
 * is accepted twice and no device passes twice within the rate window
 * after a stamp.
 */
module VerifyTapProperties {
  import opened Options
  import opened JsText
  import opened VerifyTap

  /** The handler got past every gate: the counter (if any) is committed. */
  predicate PassedAllGates(o: Outcome) {
    o.RedirectSuccess? || o.RedirectLogin? || o.Json500? || o == RedirectError(AwardFailed)
  }

  /** The signature step lets the request through: not prod mode, or prod with what it needs and a valid tag. */
  predicate SignatureAccepted(p: TapParams, env: Env) {
    p.mode != "prod" || (ProdParamsPresent(p) && env.cmacValid(p.uid, p.counter.value, p.cmac))
  }

  /** The request reaches the gates proper: not a preflight, a uid, an active device. */
  predicate Resolves(st: Store, req: Request) {
    req.httpMethod != "OPTIONS" && ParseParams(req.query).uid != ""
    && LookupActive(st.devices, ParseParams(req.query).uid).Some?
  }

  function DeviceOf(st: Store, req: Request): Device
    requires Resolves(st, req)
  {
    st.devices[ParseParams(req.query).uid]
  }

  // ---------------------------------------------------------------------------
  // Parsing
  // ---------------------------------------------------------------------------

  /** An absent or empty `mode` reads as prod; any other value is kept as sent. */
  lemma ModeDefaultsToProd(query: seq<(string, string)>)
    ensures ParseParams(query).mode == if Param(query, "mode") == "" then "prod" else Param(query, "mode")
  {
  }

  /** An absent or empty `counter` reads as 0, which is falsy. */
  lemma AbsentCounterIsZero(query: seq<(string, string)>)
    requires QueryGet(query, "counter").None? || QueryGet(query, "counter") == Some("")
    ensures ParseParams(query).counter == Num(0) && !Truthy(ParseParams(query).counter)
  {
    assert ParseInt("0") == Num(0) by { ParseIntOfDecimal(0); }
  }

  /** A counter sent as the decimal text of `n` reads as `n`. */
  lemma DecimalCounterReadsBack(query: seq<(string, string)>, n: int)
    requires QueryGet(query, "counter") == Some(IntToDecimal(n))
    ensures ParseParams(query).counter == Num(n)
  {
    ParseIntOfDecimal(n);
  }

  // ---------------------------------------------------------------------------
  // One request, gate by gate
  // ---------------------------------------------------------------------------

  /** A CORS preflight is answered without evaluating any gate or touching the store. */
  lemma PreflightTouchesNothing(st: Store, req: Request, env: Env)
    requires req.httpMethod == "OPTIONS"
    ensures Handle(st, req, env) == (Preflight, st)
    ensures Render(Preflight).location.None? && Render(Preflight).errorBody.None?
  {
  }

  /** A missing or empty uid is a 400 JSON error, before any device lookup. */
  lemma MissingUidIsBadRequest(st: Store, req: Request, env: Env)
    requires req.httpMethod != "OPTIONS"
    requires QueryGet(req.query, "uid").None? || QueryGet(req.query, "uid") == Some("")
    ensures Handle(st, req, env) == (Json400(MissingUidMessage), st)
    ensures Render(Handle(st, req, env).0) == Response(400, None, Some(MissingUidMessage))
  {
  }

  /** No device with that uid whose status is exactly `active`: `device_not_found`, nothing changes. */
  lemma UnknownDeviceRejected(st: Store, req: Request, env: Env)
    requires req.httpMethod != "OPTIONS" && ParseParams(req.query).uid != ""
    requires var uid := ParseParams(req.query).uid;
             uid !in st.devices || st.devices[uid].status != "active"
    ensures Handle(st, req, env) == (RedirectError(DeviceNotFound), st)
  {
  }

  /** Outside prod mode the answer and the new store do not depend on the signature check at all. */
  lemma SignatureConsultedOnlyInProd(st: Store, req: Request, env: Env, other: (string, int, string) -> bool)
    requires ParseParams(req.query).mode != "prod"
    ensures Handle(st, req, env) == Handle(st, req, env.(cmacValid := other))
  {
    var p := ParseParams(req.query);
    if req.httpMethod != "OPTIONS" && p.uid != "" && LookupActive(st.devices, p.uid).Some? {
      var d := LookupActive(st.devices, p.uid).value;
      var env' := env.(cmacValid := other);
      assert CommitAndAward(st, d, p, env) == CommitAndAward(st, d, p, env');
      assert CheckDevice(st, d, p, env) == CheckDevice(st, d, p, env');
    }
  }

  /** In prod mode an empty cmac or a falsy counter is a 400, once the device is known. */
  lemma ProdNeedsCmacAndCounter(st: Store, req: Request, env: Env)
    requires Resolves(st, req)
    requires ParseParams(req.query).mode == "prod" && !ProdParamsPresent(ParseParams(req.query))
    ensures Handle(st, req, env) == (Json400(ProdParamsMessage), st)
  {
  }

  /** In prod mode a tag the check refuses is `invalid_signature`, and the counter stays put. */
  lemma ProdBadSignatureRejected(st: Store, req: Request, env: Env)
    requires Resolves(st, req)
    requires var p := ParseParams(req.query);
             p.mode == "prod" && ProdParamsPresent(p) && !env.cmacValid(p.uid, p.counter.value, p.cmac)
    ensures Handle(st, req, env) == (RedirectError(InvalidSignature), st)
  {
  }

  /** A truthy counter not above `last_counter` is a replay: rejected, no commit, no ledger row. */
  lemma ReplayRejected(st: Store, req: Request, env: Env)
    requires Resolves(st, req) && SignatureAccepted(ParseParams(req.query), env)
    requires IsReplay(ParseParams(req.query), DeviceOf(st, req))
    ensures Handle(st, req, env) == (RedirectError(ReplayAttack), st)
  {
  }

  /** A zero, absent or unreadable counter never trips the replay gate. */
  lemma FalsyCounterSkipsReplayGate(st: Store, req: Request, env: Env)
    requires !Truthy(ParseParams(req.query).counter)
    ensures Handle(st, req, env).0 != RedirectError(ReplayAttack)
  {
  }

  /** A ledger row of this device no older than 60 s (inclusive) stops the tap: `rate_limit`, nothing changes. */
  lemma RecentTapRateLimited(st: Store, req: Request, env: Env)
    requires Resolves(st, req) && SignatureAccepted(ParseParams(req.query), env)
    requires !IsReplay(ParseParams(req.query), DeviceOf(st, req))
    requires RecentTap(st.ledger, DeviceOf(st, req).id, env.now)
    ensures Handle(st, req, env) == (RedirectError(RateLimit), st)
  {
  }

  /**
   * Every gate passed: a truthy counter is committed and is above the old
   * one, a falsy counter leaves it; no other device changes. The commit comes
   * before the award, so it stands even when the award fails.
   */
  lemma GatesPassedCommitCounter(st: Store, req: Request, env: Env)
    requires WellFormed(st)
    requires Resolves(st, req) && SignatureAccepted(ParseParams(req.query), env)
    requires !IsReplay(ParseParams(req.query), DeviceOf(st, req))
    requires !RecentTap(st.ledger, DeviceOf(st, req).id, env.now)
    ensures var p := ParseParams(req.query);
            var after := Handle(st, req, env).1;
            && PassedAllGates(Handle(st, req, env).0)
            && after.devices[p.uid].lastCounter == (if Truthy(p.counter) then p.counter.value else st.devices[p.uid].lastCounter)
            && (Truthy(p.counter) ==> after.devices[p.uid].lastCounter > st.devices[p.uid].lastCounter)
            && forall u :: u in st.devices && u != p.uid ==> after.devices[u] == st.devices[u]
  {
    var p := ParseParams(req.query);
    var d := DeviceOf(st, req);
    assert Handle(st, req, env) == CommitAndAward(st, d, p, env);
    CommitAndAwardDevices(st, d, p, env);
  }

  /** The devices after the commit step: only the tapped uid's row, and only for a truthy counter. */
  lemma CommitAndAwardDevices(st: Store, d: Device, p: TapParams, env: Env)
    requires WellFormed(st) && p.uid in st.devices && d == st.devices[p.uid]
    ensures PassedAllGates(CommitAndAward(st, d, p, env).0)
    ensures CommitAndAward(st, d, p, env).1.devices ==
            if Truthy(p.counter) then st.devices[p.uid := d.(lastCounter := p.counter.value)] else st.devices
  {
    if Truthy(p.counter) {
      CommitCounterByUid(st, p.uid, p.counter.value);
    }
  }

  /**
   * With a user: `award_failed`, a 500, or a redirect to the success page
   * carrying the stamp total, with exactly one new ledger row for this device
   * at `now`. Without a user: a redirect to login with the pending token and
   * no ledger row.
   */
  lemma AwardOrDefer(st: Store, req: Request, env: Env)
    requires Resolves(st, req) && SignatureAccepted(ParseParams(req.query), env)
    requires !IsReplay(ParseParams(req.query), DeviceOf(st, req))
    requires !RecentTap(st.ledger, DeviceOf(st, req).id, env.now)
    ensures var (o, after) := Handle(st, req, env);
            match AuthenticatedUser(env.resolvedUser)
            case None => o == RedirectLogin(env.pendingToken) && after.ledger == st.ledger
            case Some(user) =>
              match env.award
              case AwardError => o == RedirectError(AwardFailed) && after.ledger == st.ledger
              case AwardNoData => o == Json500 && after.ledger == st.ledger
              case Awarded(n) =>
                o == RedirectSuccess(n) && |after.ledger| == |st.ledger| + 1
                && after.ledger[|st.ledger|].deviceId == DeviceOf(st, req).id
                && after.ledger[|st.ledger|].userId == user
                && after.ledger[|st.ledger|].createdAt == env.now
  {
  }

  /** A request stopped at any gate leaves the devices and the ledger exactly as they were. */
  lemma FailedGateChangesNothing(st: Store, req: Request, env: Env)
    requires !PassedAllGates(Handle(st, req, env).0)
    ensures Handle(st, req, env).1 == st
  {
    if req.httpMethod != "OPTIONS" {
      var p := ParseParams(req.query);
      assert Handle(st, req, env) == HandleTap(st, p, env);
      HandleTapFailedGate(st, p, env);
    }
  }

  /** The same, for parameters already read. */
  lemma HandleTapFailedGate(st: Store, p: TapParams, env: Env)
    requires !PassedAllGates(HandleTap(st, p, env).0)
    ensures HandleTap(st, p, env).1 == st
  {
    if p.uid != "" && LookupActive(st.devices, p.uid).Some? {
      var d := LookupActive(st.devices, p.uid).value;
      assert HandleTap(st, p, env) == CheckDevice(st, d, p, env);
    }
  }

  /** With the placeholder check the source ships, no request is ever refused for its signature. */
  lemma PlaceholderNeverRejectsSignature(st: Store, req: Request, env: Env, masterKey: Option<string>)
    requires forall u, c, m :: env.cmacValid(u, c, m) == ValidateNtag424Cmac(masterKey, u, c, m)
    ensures Handle(st, req, env).0 != RedirectError(InvalidSignature)
  {
    if req.httpMethod != "OPTIONS" {
      var p := ParseParams(req.query);
      assert Handle(st, req, env) == HandleTap(st, p, env);
      if ProdParamsPresent(p) {
        assert env.cmacValid(p.uid, p.counter.value, p.cmac) == ValidateNtag424Cmac(masterKey, p.uid, p.counter.value, p.cmac);
      }
      AcceptedTagNotRejected(st, p, env);
    }
  }

  /** A tag the signature check accepts is never answered `invalid_signature`. */
  lemma AcceptedTagNotRejected(st: Store, p: TapParams, env: Env)
    requires ProdParamsPresent(p) ==> env.cmacValid(p.uid, p.counter.value, p.cmac)
    ensures HandleTap(st, p, env).0 != RedirectError(InvalidSignature)
  {
  }

  // ---------------------------------------------------------------------------
  // What one request does to the store
  // ---------------------------------------------------------------------------

  /**
   * `b` is a later state of `a`: the same devices with the same identity,
   * status and restaurant, counters that never went down, and the old
   * ledger as a prefix of the new one.
   */
  predicate Evolves(a: Store, b: Store) {
    a.devices.Keys == b.devices.Keys
    && (forall u :: u in a.devices ==>
          b.devices[u] == a.devices[u].(lastCounter := b.devices[u].lastCounter)
          && a.devices[u].lastCounter <= b.devices[u].lastCounter)
    && a.ledger <= b.ledger
  }

  lemma EvolvesTransitive(a: Store, b: Store, c: Store)
    requires Evolves(a, b) && Evolves(b, c)
    ensures Evolves(a, c)
  {
    forall u | u in a.devices
      ensures c.devices[u] == a.devices[u].(lastCounter := c.devices[u].lastCounter)
    {
      assert b.devices[u] == a.devices[u].(lastCounter := b.devices[u].lastCounter);
    }
  }

  /** One request keeps the store well formed and only moves it forward. */
  lemma StepEvolves(st: Store, req: Request, env: Env)
    requires WellFormed(st)
    ensures WellFormed(Handle(st, req, env).1) && Evolves(st, Handle(st, req, env).1)
  {
    var p := ParseParams(req.query);
    if Handle(st, req, env).1 != st {
      var d := LookupActive(st.devices, p.uid).value;
      assert Handle(st, req, env) == CommitAndAward(st, d, p, env);
      CommitAndAwardEvolves(st, d, p, env);
    }
  }

  /** With unique ids, the update by id touches exactly the row filed under the tapped uid. */
  lemma CommitCounterByUid(st: Store, uid: string, c: int)
    requires WellFormed(st) && uid in st.devices
    ensures CommitCounter(st.devices, st.devices[uid].id, c) == st.devices[uid := st.devices[uid].(lastCounter := c)]
  {
    var m := CommitCounter(st.devices, st.devices[uid].id, c);
    var m' := st.devices[uid := st.devices[uid].(lastCounter := c)];
    forall u | u in st.devices ensures m[u] == m'[u] {
      if st.devices[u].id == st.devices[uid].id {
        assert u == uid;
      }
    }
  }

  /** The commit step keeps the store well formed, and moves only the tapped device's counter, upwards. */
  lemma CommitAndAwardEvolves(st: Store, d: Device, p: TapParams, env: Env)
    requires WellFormed(st) && p.uid in st.devices && d == st.devices[p.uid] && !IsReplay(p, d)
    ensures WellFormed(CommitAndAward(st, d, p, env).1) && Evolves(st, CommitAndAward(st, d, p, env).1)
  {
    var committed :=
      if Truthy(p.counter) then st.(devices := CommitCounter(st.devices, d.id, p.counter.value)) else st;
    if Truthy(p.counter) {
      CommitCounterByUid(st, p.uid, p.counter.value);
    }
    assert WellFormed(committed) && Evolves(st, committed);
    var r := CommitAndAward(st, d, p, env).1;
    assert r.devices == committed.devices && committed.ledger <= r.ledger;
    EvolvesTransitive(st, committed, r);
  }

  /** A request that got past every gate resolved an active device, passed the signature step, was no replay and found no recent tap. */
  lemma PassedGatesCommitted(st: Store, req: Request, env: Env)
    requires WellFormed(st)
    requires PassedAllGates(Handle(st, req, env).0)
    ensures Resolves(st, req) && SignatureAccepted(ParseParams(req.query), env)
    ensures !IsReplay(ParseParams(req.query), DeviceOf(st, req))
    ensures !RecentTap(st.ledger, DeviceOf(st, req).id, env.now)
  {
  }

  // ---------------------------------------------------------------------------
  // Sequences of taps
  // ---------------------------------------------------------------------------

  datatype Tap = Tap(req: Request, env: Env)

  /** The store after handling `taps` in order. */
  function After(st: Store, taps: seq<Tap>): Store
    decreases |taps|
  {
    if taps == [] then st
    else Handle(After(st, taps[..|taps| - 1]), taps[|taps| - 1].req, taps[|taps| - 1].env).1
  }

  /** The answer to the `j`-th tap of the sequence. */
  function OutcomeAt(st: Store, taps: seq<Tap>, j: nat): Outcome
    requires j < |taps|
  {
    Handle(After(st, taps[..j]), taps[j].req, taps[j].env).0
  }

  lemma AfterOneMore(st: Store, taps: seq<Tap>, j: nat)
    requires j < |taps|
    ensures After(st, taps[..j + 1]) == Handle(After(st, taps[..j]), taps[j].req, taps[j].env).1
  {
    assert taps[..j + 1][..j] == taps[..j];
  }

  /** Between any two points of a run the store only moves forward and stays well formed. */
  lemma {:induction false} RunEvolves(st: Store, taps: seq<Tap>, i: nat, j: nat)
    requires WellFormed(st) && i <= j <= |taps|
    ensures WellFormed(After(st, taps[..j]))
    ensures Evolves(After(st, taps[..i]), After(st, taps[..j]))
    decreases j
  {
    if j == 0 {
      assert taps[..0] == [];
    } else {
      var k := j - 1;
      AfterOneMore(st, taps, k);
      if i == j {
        RunEvolves(st, taps, k, k);
        StepEvolves(After(st, taps[..k]), taps[k].req, taps[k].env);
      } else {
        RunEvolves(st, taps, i, k);
        StepEvolves(After(st, taps[..k]), taps[k].req, taps[k].env);
        EvolvesTransitive(After(st, taps[..i]), After(st, taps[..k]), After(st, taps[..j]));
      }
    }
  }

  /**
   * Replay exclusion: two taps on the same uid that both got past every gate
   * with truthy counters carried strictly increasing counters, so the same
   * counter value is never accepted twice.
   */
  lemma ReplayExclusion(st: Store, taps: seq<Tap>, i: nat, j: nat)
    requires WellFormed(st) && i < j < |taps|
    requires ParseParams(taps[i].req.query).uid == ParseParams(taps[j].req.query).uid
    requires Truthy(ParseParams(taps[i].req.query).counter) && Truthy(ParseParams(taps[j].req.query).counter)
    requires PassedAllGates(OutcomeAt(st, taps, i)) && PassedAllGates(OutcomeAt(st, taps, j))
    ensures ParseParams(taps[i].req.query).counter.value < ParseParams(taps[j].req.query).counter.value
  {
    var uid := ParseParams(taps[i].req.query).uid;
    var si := After(st, taps[..i]);
    var sj := After(st, taps[..j]);
    RunEvolves(st, taps, 0, i);
    PassedGatesCommitted(si, taps[i].req, taps[i].env);
    GatesPassedCommitCounter(si, taps[i].req, taps[i].env);
    AfterOneMore(st, taps, i);
    RunEvolves(st, taps, i + 1, j);
    PassedGatesCommitted(sj, taps[j].req, taps[j].env);
  }

  /**
   * Rate limit across taps: once a tap on a device earned a stamp at time
   * `t`, no later tap on the same uid gets past every gate while its clock
   * reads at most `t` + 60 s.
   */
  lemma RateLimitAfterAward(st: Store, taps: seq<Tap>, i: nat, j: nat)
    requires WellFormed(st) && i < j < |taps|
    requires ParseParams(taps[i].req.query).uid == ParseParams(taps[j].req.query).uid
    requires OutcomeAt(st, taps, i).RedirectSuccess?
    requires taps[j].env.now - RateWindowMs <= taps[i].env.now
    ensures !PassedAllGates(OutcomeAt(st, taps, j))
  {
    var si := After(st, taps[..i]);
    var sj := After(st, taps[..j]);
    RunEvolves(st, taps, 0, i);
    PassedGatesCommitted(si, taps[i].req, taps[i].env);
    AwardOrDefer(si, taps[i].req, taps[i].env);
    AfterOneMore(st, taps, i);
    var s1 := After(st, taps[..i + 1]);
    var row := |si.ledger|;
    RunEvolves(st, taps, i + 1, j);
    assert sj.ledger[row] == s1.ledger[row];
    if PassedAllGates(OutcomeAt(st, taps, j)) {
      PassedGatesCommitted(sj, taps[j].req, taps[j].env);
    }
  }

  // ---------------------------------------------------------------------------
  // Responses
  // ---------------------------------------------------------------------------

  /**
   * Every redirect can be read back: an error page yields its reason and
   * nothing else does; a success page yields its stamp total through
   * `parseInt`; a login page yields its pending token.
   */
  lemma RedirectsReadBack(o: Outcome)
    requires o.RedirectError? || o.RedirectSuccess? || o.RedirectLogin?
    ensures var loc := Render(o).location.value;
            && ReasonOf(loc) == (if o.RedirectError? then Some(o.reason) else None)
            && (o.RedirectSuccess? ==> StampsOf(loc) == Num(o.stamps))
            && (o.RedirectLogin? ==> PendingTokenOf(loc) == Some(o.token))
  {
    var loc := Render(o).location.value;
    match o
    case RedirectError(reason) =>
    case RedirectSuccess(n) =>
      assert loc[1] != ErrorPagePrefix[1];
      assert loc[|SuccessPrefix|..] == IntToDecimal(n);
      ParseIntOfDecimal(n);
    case RedirectLogin(token) =>
      assert loc[1] != ErrorPagePrefix[1];
      assert loc[|loc| - |LoginSuffix|..] == LoginSuffix;
      assert loc[|LoginPrefix|..|loc| - |LoginSuffix|] == token;
  }

  // ---------------------------------------------------------------------------
  // Worked scenarios
  // ---------------------------------------------------------------------------

  function TapQuery(uid: string, counter: string, mode: string): seq<(string, string)> {
    [("uid", uid), ("counter", counter), ("mode", mode)]
  }

  function Proto(lastCounter: int): Device {
    Device("dev-1", "PROTO_001", "ntag424", lastCounter, "active", Some("rest-1"))
  }

  /** An unregistered uid in dev mode: `device_not_found`, the store untouched. */
  lemma ScenarioUnknownDevice(env: Env)
    ensures Handle(Store(map[], []), Request("GET", TapQuery("PROTO_001", "5", "dev")), env)
         == (RedirectError(DeviceNotFound), Store(map[], []))
  {
  }

  lemma ParsesAs(req: Request, uid: string, counter: string, mode: string, n: int)
    requires req.query == TapQuery(uid, counter, mode) && uid != "" && mode != ""
    requires counter == IntToDecimal(n)
    ensures ParseParams(req.query) == TapParams(uid, Num(n), "", mode)
  {
    var q := req.query;
    assert q[1..] == [("counter", counter), ("mode", mode)];
    assert q[1..][1..] == [("mode", mode)];
    assert q[1..][1..][1..] == [];
    assert QueryGet(q, "uid") == Some(uid);
    assert QueryGet(q, "counter") == Some(counter);
    assert QueryGet(q[1..][1..], "mode") == Some(mode);
    assert QueryGet(q[1..], "mode") == Some(mode);
    assert QueryGet(q, "mode") == Some(mode);
    assert QueryGet(q[1..][1..][1..], "cmac") == None;
    assert QueryGet(q[1..][1..], "cmac") == None;
    assert QueryGet(q[1..], "cmac") == None;
    assert QueryGet(q, "cmac") == None;
    ParseIntOfDecimal(n);
  }

  /** The award-then-retry scenario, for any request that reads as counter 4 in dev mode. */
  lemma AwardThenRetry(req: Request, now: int, later: int, cmacValid: (string, int, string) -> bool, n: int, m: int)
    requires req.httpMethod == "GET" && ParseParams(req.query) == TapParams("PROTO_001", Num(4), "", "dev")
    ensures var st := Store(map["PROTO_001" := Proto(3)], []);
            var (o1, st1) := Handle(st, req, Env(now, Some("user-1"), cmacValid, Awarded(n), "t1"));
            && o1 == RedirectSuccess(n)
            && st1 == Store(map["PROTO_001" := Proto(4)], [Transaction("dev-1", "user-1", Some("rest-1"), "dev", Num(4), now)])
            && Handle(st1, req, Env(later, Some("user-1"), cmacValid, Awarded(m), "t2")) == (RedirectError(ReplayAttack), st1)
  {
    var p := ParseParams(req.query);
    var st := Store(map["PROTO_001" := Proto(3)], []);
    var env1 := Env(now, Some("user-1"), cmacValid, Awarded(n), "t1");
    assert Handle(st, req, env1) == HandleTap(st, p, env1);
    AwardThenRetryParams(now, later, cmacValid, n, m);
    var st1 := HandleTap(st, p, env1).1;
    var env2 := Env(later, Some("user-1"), cmacValid, Awarded(m), "t2");
    assert Handle(st1, req, env2) == HandleTap(st1, p, env2);
  }

  /** The award-then-retry scenario, once the parameters are read. */
  lemma AwardThenRetryParams(now: int, later: int, cmacValid: (string, int, string) -> bool, n: int, m: int)
    ensures var p := TapParams("PROTO_001", Num(4), "", "dev");
            var st := Store(map["PROTO_001" := Proto(3)], []);
            var (o1, st1) := HandleTap(st, p, Env(now, Some("user-1"), cmacValid, Awarded(n), "t1"));
            && o1 == RedirectSuccess(n)
            && st1 == Store(map["PROTO_001" := Proto(4)], [Transaction("dev-1", "user-1", Some("rest-1"), "dev", Num(4), now)])
            && HandleTap(st1, p, Env(later, Some("user-1"), cmacValid, Awarded(m), "t2")) == (RedirectError(ReplayAttack), st1)
  {
    var p := TapParams("PROTO_001", Num(4), "", "dev");
    var st := Store(map["PROTO_001" := Proto(3)], []);
    var env1 := Env(now, Some("user-1"), cmacValid, Awarded(n), "t1");
    assert HandleTap(st, p, env1) == CommitAndAward(st, Proto(3), p, env1);
    CommitCounterByUid(st, "PROTO_001", 4);
    assert st.devices["PROTO_001" := Proto(3).(lastCounter := 4)] == map["PROTO_001" := Proto(4)];
    var st1 := HandleTap(st, p, env1).1;
    var env2 := Env(later, Some("user-1"), cmacValid, Awarded(m), "t2");
    assert HandleTap(st1, p, env2) == CheckDevice(st1, Proto(4), p, env2);
  }

  /**
   * A registered device at counter 3 tapped with counter 4 in dev mode by a
   * signed-in user: the counter becomes 4, one ledger row, the stamp total
   * comes back; the same request again is a replay and changes nothing.
   */
  lemma ScenarioAwardThenRetry(now: int, later: int, cmacValid: (string, int, string) -> bool, n: int, m: int)
    ensures var st := Store(map["PROTO_001" := Proto(3)], []);
            var req := Request("GET", TapQuery("PROTO_001", "4", "dev"));
            var (o1, st1) := Handle(st, req, Env(now, Some("user-1"), cmacValid, Awarded(n), "t1"));
            && o1 == RedirectSuccess(n)
            && st1 == Store(map["PROTO_001" := Proto(4)], [Transaction("dev-1", "user-1", Some("rest-1"), "dev", Num(4), now)])
            && Handle(st1, req, Env(later, Some("user-1"), cmacValid, Awarded(m), "t2")) == (RedirectError(ReplayAttack), st1)
  {
    var req := Request("GET", TapQuery("PROTO_001", "4", "dev"));
    assert IntToDecimal(4) == "4";
    ParsesAs(req, "PROTO_001", "4", "dev", 4);
    AwardThenRetry(req, now, later, cmacValid, n, m);
  }

  lemma AnonymousTap(req: Request, now: int, cmacValid: (string, int, string) -> bool, award: AwardResult)
    requires req.httpMethod == "GET" && ParseParams(req.query) == TapParams("PROTO_001", Num(4), "", "dev")
    ensures Handle(Store(map["PROTO_001" := Proto(3)], []), req, Env(now, None, cmacValid, award, "tok"))
            == (RedirectLogin("tok"), Store(map["PROTO_001" := Proto(4)], []))
  {
    var st := Store(map["PROTO_001" := Proto(3)], []);
    var env := Env(now, None, cmacValid, award, "tok");
    var p := TapParams("PROTO_001", Num(4), "", "dev");
    assert Handle(st, req, env) == HandleTap(st, p, env);
    assert HandleTap(st, p, env) == CommitAndAward(st, Proto(3), p, env);
    CommitCounterByUid(st, "PROTO_001", 4);
    assert st.devices["PROTO_001" := Proto(3).(lastCounter := 4)] == map["PROTO_001" := Proto(4)];
  }

  /** The same tap without a user: the counter is committed, a login redirect with the token, no ledger row. */
  lemma ScenarioAnonymousTap(now: int, cmacValid: (string, int, string) -> bool, award: AwardResult)
    ensures Handle(Store(map["PROTO_001" := Proto(3)], []), Request("GET", TapQuery("PROTO_001", "4", "dev")),
                   Env(now, None, cmacValid, award, "tok"))
            == (RedirectLogin("tok"), Store(map["PROTO_001" := Proto(4)], []))
  {
    var req := Request("GET", TapQuery("PROTO_001", "4", "dev"));
    assert IntToDecimal(4) == "4";
    ParsesAs(req, "PROTO_001", "4", "dev", 4);
    AnonymousTap(req, now, cmacValid, award);
  }

  lemma CounterlessTapRepeats(req: Request, cmacValid: (string, int, string) -> bool, n: int, m: int)
    requires req.httpMethod == "GET" && ParseParams(req.query) == TapParams("PROTO_001", Num(0), "", "dev")
    ensures var st := Store(map["PROTO_001" := Proto(3)], []);
            var (o1, st1) := Handle(st, req, Env(0, Some("user-1"), cmacValid, Awarded(n), "t1"));
            && o1 == RedirectSuccess(n)
            && Handle(st1, req, Env(RateWindowMs + 1, Some("user-1"), cmacValid, Awarded(m), "t2")).0 == RedirectSuccess(m)
  {
    var st := Store(map["PROTO_001" := Proto(3)], []);
    var p := TapParams("PROTO_001", Num(0), "", "dev");
    var env1 := Env(0, Some("user-1"), cmacValid, Awarded(n), "t1");
    assert Handle(st, req, env1) == HandleTap(st, p, env1);
    assert HandleTap(st, p, env1) == CommitAndAward(st, Proto(3), p, env1);
    var st1 := Handle(st, req, env1).1;
    assert st1 == Store(map["PROTO_001" := Proto(3)], [Transaction("dev-1", "user-1", Some("rest-1"), "dev", Num(0), 0)]);
    var env2 := Env(RateWindowMs + 1, Some("user-1"), cmacValid, Awarded(m), "t2");
    assert !RecentTap(st1.ledger, "dev-1", env2.now);
    assert Handle(st1, req, env2) == HandleTap(st1, p, env2);
    assert HandleTap(st1, p, env2) == CommitAndAward(st1, Proto(3), p, env2);
  }

  /**
   * Without a counter the replay gate never fires: in dev mode the same
   * counter-less tap earns a stamp twice once the rate window has passed.
   */
  lemma ScenarioCounterlessTapRepeats(cmacValid: (string, int, string) -> bool, n: int, m: int)
    ensures var st := Store(map["PROTO_001" := Proto(3)], []);
            var req := Request("GET", [("uid", "PROTO_001"), ("mode", "dev")]);
            var (o1, st1) := Handle(st, req, Env(0, Some("user-1"), cmacValid, Awarded(n), "t1"));
            && o1 == RedirectSuccess(n)
            && Handle(st1, req, Env(RateWindowMs + 1, Some("user-1"), cmacValid, Awarded(m), "t2")).0 == RedirectSuccess(m)
  {
    var req := Request("GET", [("uid", "PROTO_001"), ("mode", "dev")]);
    var q := req.query;
    assert QueryGet(q, "uid") == Some("PROTO_001");
    assert QueryGet(q, "mode") == Some("dev");
    assert QueryGet(q, "counter") == None && QueryGet(q, "cmac") == None;
    assert ParseInt("0") == Num(0) by { assert IntToDecimal(0) == "0"; ParseIntOfDecimal(0); }
    CounterlessTapRepeats(req, cmacValid, n, m);
  }
}
