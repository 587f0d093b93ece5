/**
 * The session broker (`POST` in src/app/api/voice-session/route.ts): an ordered chain of early
 * returns — access denied, missing scenario id, missing API key, failed paid decrement,
 * unknown scenario, upstream error, missing token — with one store mutation, the paid
 * decrement, placed before the scenario lookup and the upstream request.
 *
 * The request to the realtime API's client-secrets endpoint is a parameter `upstream` that maps
 * the request sent to the reply received. `Respond` is the whole decision as a value;
 * `Post` performs it against a `Ledger`.
 */
module VoiceSession {
  import opened Wrappers
  import Js
  import Cookie
  import opened Access
  import opened Scenarios

  const FREE_USED_MESSAGE: string := "You've used your 3 free calls. Unlock more to continue."
  const NO_CREDITS_MESSAGE: string := "No simulations remaining. Purchase more to continue."
  const SCENARIO_REQUIRED: string := "scenarioId is required"
  const KEY_MISSING: string := "OPENAI_API_KEY is not configured"
  const DECREMENT_FAILED: string := "No simulations remaining."
  const SECRET_FAILED: string := "Failed to create client secret"
  const NO_SECRET: string := "No client secret in OpenAI response"

  const CLIENT_SECRETS_URL: string := "https://api.openai.com/v1/realtime/client_secrets"
  const REALTIME_MODEL: string := "gpt-realtime"

  /** The voice-activity settings the session asks for; the threshold is carried as given. */
  datatype TurnDetection = TurnDetection(kind: string, threshold: real, prefixPaddingMs: nat, silenceDurationMs: nat)

  const SERVER_VAD: TurnDetection := TurnDetection("server_vad", 0.5, 300, 500)

  /** The POST to the client-secrets endpoint: its credentials and the session it describes. */
  datatype SessionRequest = SessionRequest(
    url: string,
    authorization: string,
    contentType: string,
    sessionType: string,
    model: string,
    instructions: string,
    voice: Voice,
    turnDetection: TurnDetection)

  /** The upstream's answer: the fetch itself failed, or a reply with its status, its text, and its JSON `value` (or the parse error). */
  datatype Upstream =
    | FetchFailed(message: string)
    | Reply(status: int, text: string, clientSecret: Result<Option<string>, string>)

  /** `response.ok`: a status in the 2xx range. */
  predicate IsOk(status: int) {
    200 <= status <= 299
  }

  /** The JSON the route answers with: an error (with a code on denial) or the session token and configuration. */
  datatype Body =
    | ErrorBody(error: string, code: Option<string>)
    | SessionBody(token: string, model: string, voice: Voice)

  datatype Response = Response(status: int, body: Body)

  /** Everything a call does: its response, the store it leaves, and the upstream request it sent, if any. */
  datatype Outcome = Outcome(response: Response, store: Store, sent: Option<SessionRequest>)

  /** The part after the charge: the response, and the upstream request if one was sent. */
  datatype Tail = Tail(response: Response, sent: Option<SessionRequest>)

  function Error(status: int, message: string): Response {
    Response(status, ErrorBody(message, None))
  }

  /** The gate's answer for the caller's identity (what the `ccp_anon` cookie gave) against the store. */
  function Gate(st: Store, anonymousId: Option<string>): AccessInfo {
    CheckAccess(st.configured, anonymousId, st.freeSims, st.purchases)
  }

  /**
   * The client-secrets request for a scenario: bearer authentication with the key, a realtime
   * session on the fixed model, the scenario's full prompt as instructions and its voice.
   */
  function SessionRequestFor(scenario: Scenario, apiKey: string): (q: SessionRequest)
    ensures q.instructions == GetSystemPromptForSession(scenario) && q.voice == scenario.voice
    ensures |q.authorization| == 7 + |apiKey| && q.authorization[..7] == "Bearer " && q.authorization[7..] == apiKey
    ensures q.url == CLIENT_SECRETS_URL && q.model == REALTIME_MODEL && q.turnDetection == SERVER_VAD
  {
    SessionRequest(
      CLIENT_SECRETS_URL, "Bearer " + apiKey, "application/json", "realtime", REALTIME_MODEL,
      GetSystemPromptForSession(scenario), scenario.voice, SERVER_VAD)
  }

  /**
   * Lines 54-111: look the scenario up (an unknown id throws and is answered 500), send the
   * request, pass a non-2xx status through with the upstream text or a default message, and
   * return the token unless the reply has none.
   */
  function AfterCharge(scenarioId: string, apiKey: string, upstream: SessionRequest -> Upstream): (t: Tail)
    ensures t.sent.Some? <==> GetScenario(scenarioId).Success?
    ensures t.response.body.SessionBody? ==> t.response.status == 200 && t.sent.Some?
  {
    match GetScenario(scenarioId)
    case Failure(e) => Tail(Error(500, e), None)
    case Success(scenario) =>
      var q := SessionRequestFor(scenario, apiKey);
      var reply := upstream(q);
      var response :=
        match reply
        case FetchFailed(message) => Error(500, message)
        case Reply(status, text, secret) =>
          if !IsOk(status) then Error(status, if text != "" then text else SECRET_FAILED)
          else if secret.Failure? then Error(500, secret.error)
          else if !Js.Truthy(secret.value) then Error(500, NO_SECRET)
          else Response(200, SessionBody(secret.value.value, REALTIME_MODEL, scenario.voice));
      Tail(response, Some(q))
  }

  /** Where the chain up to the charge ends: refused with a response, or admitted with the store after the charge. */
  datatype Admission =
    | Refused(response: Response, store: Store)
    | Admitted(store: Store, scenarioId: string, apiKey: string)

  /**
   * Lines 13-52: the gate, the body, the scenario id, the key, then the decrement for a paying
   * caller. `anonymousId` is the identity read from the request's cookie; `body` is what
   * `request.json()` gave: the `scenarioId` it holds, or the message it was rejected with.
   */
  function Admit(
    st: Store, anonymousId: Option<string>, body: Result<Option<string>, string>,
    apiKey: Option<string>): (a: Admission)
    ensures a.store.configured == st.configured && a.store.freeSims == st.freeSims
    ensures a.store.purchases.Keys == st.purchases.Keys
    ensures a.Admitted? ==> a.scenarioId != "" && a.apiKey != ""
  {
    var access := Gate(st, anonymousId);
    if !access.canSimulate then
      var message := if access.reason == Some(FreeUsed) then FREE_USED_MESSAGE else NO_CREDITS_MESSAGE;
      var code := if access.reason.Some? then Some(access.reason.value.Code()) else None;
      Refused(Response(403, ErrorBody(message, code)), st)
    else if body.Failure? then Refused(Error(500, body.error), st)
    else if !Js.Truthy(body.value) then Refused(Error(400, SCENARIO_REQUIRED), st)
    else if !Js.Truthy(apiKey) then Refused(Error(500, KEY_MISSING), st)
    else
      var charge :=
        if access.hasPaid && Js.Truthy(anonymousId) then PaidSimDecrement(st.configured, st.purchases, anonymousId.value)
        else Decrement(true, st.purchases);
      var after := st.(purchases := charge.purchases);
      if !charge.ok then Refused(Error(403, DECREMENT_FAILED), after)
      else Admitted(after, body.value.value, apiKey.value)
  }

  /**
   * The whole route: the caller's identity from the cookie, the admission chain, then the lookup
   * and the upstream request for an admitted call.
   */
  function Respond(
    st: Store, headers: map<string, string>, body: Result<Option<string>, string>,
    apiKey: Option<string>, upstream: SessionRequest -> Upstream): (o: Outcome)
    ensures o.store == Admit(st, Cookie.GetAnonymousIdFromRequest(headers), body, apiKey).store
    ensures var a := Admit(st, Cookie.GetAnonymousIdFromRequest(headers), body, apiKey);
      a.Refused? ==> o.response == a.response && o.sent.None?
  {
    match Admit(st, Cookie.GetAnonymousIdFromRequest(headers), body, apiKey)
    case Refused(response, after) => Outcome(response, after, None)
    case Admitted(after, scenarioId, key) =>
      var tail := AfterCharge(scenarioId, key, upstream);
      Outcome(tail.response, after, tail.sent)
  }

  /** Lines 13-52 against the store: the guards, then the paying caller's decrement in place. */
  method AdmitOn(
    store: Ledger, anonymousId: Option<string>, body: Result<Option<string>, string>,
    apiKey: Option<string>) returns (a: Admission)
    modifies store
    ensures a == Admit(old(store.State()), anonymousId, body, apiKey)
    ensures store.State() == a.store
  {
    var before := store.State();
    var access := CheckAccess(store.configured, anonymousId, store.freeSims, store.anonPurchases);
    if !access.canSimulate {
      var message := if access.reason == Some(FreeUsed) then FREE_USED_MESSAGE else NO_CREDITS_MESSAGE;
      var code := if access.reason.Some? then Some(access.reason.value.Code()) else None;
      return Refused(Response(403, ErrorBody(message, code)), before);
    }
    if body.Failure? {
      return Refused(Error(500, body.error), before);
    }
    var scenarioId := body.value;
    if !Js.Truthy(scenarioId) {
      return Refused(Error(400, SCENARIO_REQUIRED), before);
    }
    if !Js.Truthy(apiKey) {
      return Refused(Error(500, KEY_MISSING), before);
    }
    if access.hasPaid && Js.Truthy(anonymousId) {
      var ok := store.DecrementPaidSim(anonymousId.value);
      if !ok {
        // A refused decrement leaves the store as it was.
        return Refused(Error(403, DECREMENT_FAILED), before);
      }
    }
    return Admitted(store.State(), scenarioId.value, apiKey.value);
  }

  /** `POST /api/voice-session` against the store: it answers as `Respond` does and leaves the store `Respond` describes. */
  method Post(
    store: Ledger, headers: map<string, string>, body: Result<Option<string>, string>,
    apiKey: Option<string>, upstream: SessionRequest -> Upstream) returns (response: Response)
    modifies store
    ensures response == Respond(old(store.State()), headers, body, apiKey, upstream).response
    ensures store.State() == Respond(old(store.State()), headers, body, apiKey, upstream).store
  {
    var anonymousId := Cookie.GetAnonymousIdFromRequest(headers);
    var a := AdmitOn(store, anonymousId, body, apiKey);
    if a.Refused? {
      return a.response;
    }
    var tail := AfterCharge(a.scenarioId, a.apiKey, upstream);
    response := tail.response;
  }

  /**
   * A denied caller gets 403 with the gate's reason as `code`, and the free-calls message
   * exactly when that reason is `free_used`; nothing is charged or sent.
   */
  lemma DeniedCallerIsForbidden(
    st: Store, anonymousId: Option<string>, body: Result<Option<string>, string>, apiKey: Option<string>)
    requires !Gate(st, anonymousId).canSimulate
    ensures var a := Admit(st, anonymousId, body, apiKey);
      && a.Refused? && a.store == st
      && a.response.status == 403
      && a.response.body.ErrorBody?
      && a.response.body.code == Some(Gate(st, anonymousId).reason.value.Code())
      && (a.response.body.error == FREE_USED_MESSAGE <==> Gate(st, anonymousId).reason == Some(FreeUsed))
  {
  }

  /** A rejected body, a missing scenario id and a missing key are answered before anything is charged or sent. */
  lemma EarlyFailuresChangeNothing(
    st: Store, anonymousId: Option<string>, body: Result<Option<string>, string>, apiKey: Option<string>)
    requires Gate(st, anonymousId).canSimulate
    requires body.Failure? || !Js.Truthy(body.value) || !Js.Truthy(apiKey)
    ensures var a := Admit(st, anonymousId, body, apiKey);
      && a.Refused? && a.store == st
      && (body.Failure? ==> a.response == Error(500, body.error))
      && (body.Success? && !Js.Truthy(body.value) ==> a.response == Error(400, SCENARIO_REQUIRED))
      && (body.Success? && Js.Truthy(body.value) ==> a.response == Error(500, KEY_MISSING))
  {
  }

  /**
   * The only change a call makes is the paid decrement: the store is untouched unless the
   * caller passed the gate as a paying customer, and then it is exactly the decrement.
   */
  lemma OnlyPaidCallersAreCharged(
    st: Store, anonymousId: Option<string>, body: Result<Option<string>, string>, apiKey: Option<string>)
    ensures var a := Admit(st, anonymousId, body, apiKey);
      || a.store == st
      || (&& Gate(st, anonymousId).canSimulate && Gate(st, anonymousId).hasPaid && Js.Truthy(anonymousId)
          && a.store == st.(purchases := PaidSimDecrement(st.configured, st.purchases, anonymousId.value).purchases))
    ensures !Gate(st, anonymousId).hasPaid ==> Admit(st, anonymousId, body, apiKey).store == st
  {
  }

  /** A call never raises a balance and never adds or removes a row, and balances at least zero stay so. */
  lemma SessionNeverRaisesBalance(
    st: Store, anonymousId: Option<string>, body: Result<Option<string>, string>, apiKey: Option<string>)
    ensures var after := Admit(st, anonymousId, body, apiKey).store;
      && after.purchases.Keys == st.purchases.Keys
      && (forall k :: k in st.purchases ==> after.purchases[k] <= st.purchases[k])
      && (NonNegative(st.purchases) ==> NonNegative(after.purchases))
  {
  }

  /**
   * The route's own 403 after a refused decrement cannot occur when the call runs alone: a
   * caller the gate let through as paying has a positive balance, so the decrement succeeds.
   */
  lemma DecrementNeverRefusedAfterGate(
    st: Store, anonymousId: Option<string>, body: Result<Option<string>, string>, apiKey: Option<string>)
    ensures var a := Admit(st, anonymousId, body, apiKey);
      a.Refused? ==> a.response != Error(403, DECREMENT_FAILED)
  {
    var access := Gate(st, anonymousId);
    if access.canSimulate && access.hasPaid && Js.Truthy(anonymousId) {
      DecrementAgreesWithGate(st.configured, anonymousId.value, st.freeSims, st.purchases);
    }
  }

  /**
   * Once the scenario id and the key are present, a paying caller's credit is spent before the
   * lookup and the upstream request, so an unknown scenario, a failed fetch, an upstream error
   * or a missing token does not give it back.
   */
  lemma CreditSpentBeforeLateFailures(
    st: Store, anonymousId: Option<string>, scenarioId: string, apiKey: string)
    requires st.configured
    requires Gate(st, anonymousId).canSimulate && Gate(st, anonymousId).hasPaid
    requires scenarioId != "" && apiKey != ""
    ensures var id := anonymousId.value;
      var after := st.(purchases := st.purchases[id := st.purchases[id] - 1]);
      Admit(st, anonymousId, Success(Some(scenarioId)), Some(apiKey)) == Admitted(after, scenarioId, apiKey)
  {
    DecrementAgreesWithGate(st.configured, anonymousId.value, st.freeSims, st.purchases);
  }

  /**
   * The route spends a paying caller's credit before it looks the scenario up, and the lookup as
   * written does not throw for `constructor`: with that id the credit is gone and the source
   * goes on to the upstream request.
   */
  lemma InheritedIdChargedBeforeLookup(st: Store, anonymousId: Option<string>, apiKey: string)
    requires st.configured
    requires Gate(st, anonymousId).canSimulate && Gate(st, anonymousId).hasPaid
    requires apiKey != ""
    ensures var id := anonymousId.value;
      var after := st.(purchases := st.purchases[id := st.purchases[id] - 1]);
      && Admit(st, anonymousId, Success(Some("constructor")), Some(apiKey)) == Admitted(after, "constructor", apiKey)
      && GetScenarioAsWritten("constructor").Success?
      && GetScenario("constructor").Failure?
  {
    CreditSpentBeforeLateFailures(st, anonymousId, "constructor", apiKey);
    InheritedMemberPassesLookup("constructor");
  }

  /** An id the catalogue does not know is answered 500 with the lookup's message, and nothing is sent. */
  lemma UnknownScenarioIsServerError(scenarioId: string, apiKey: string, upstream: SessionRequest -> Upstream)
    requires scenarioId !in SCENARIO_NAMES
    ensures AfterCharge(scenarioId, apiKey, upstream) == Tail(Error(500, "Unknown scenario: " + scenarioId), None)
  {
  }

  /** A non-2xx reply is passed through with its status, and its text unless that is empty. */
  lemma UpstreamErrorPassesThrough(scenarioId: string, apiKey: string, upstream: SessionRequest -> Upstream)
    requires GetScenario(scenarioId).Success?
    requires var reply := upstream(SessionRequestFor(GetScenario(scenarioId).value, apiKey));
      reply.Reply? && !IsOk(reply.status)
    ensures var reply := upstream(SessionRequestFor(GetScenario(scenarioId).value, apiKey));
      var r := AfterCharge(scenarioId, apiKey, upstream).response;
      && r.status == reply.status
      && r.body == ErrorBody(if reply.text == "" then SECRET_FAILED else reply.text, None)
  {
  }

  /** An admitted call passed the gate and carried a scenario id and a key; a refusal is always an error body. */
  lemma AdmissionPassedGuards(
    st: Store, anonymousId: Option<string>, body: Result<Option<string>, string>, apiKey: Option<string>)
    ensures var a := Admit(st, anonymousId, body, apiKey);
      && (a.Admitted? ==> Gate(st, anonymousId).canSimulate && body == Success(Some(a.scenarioId)) && apiKey == Some(a.apiKey))
      && (a.Refused? ==> a.response.body.ErrorBody?)
  {
  }

  /**
   * After the charge, a token is handed out only for a known scenario: it is the non-empty
   * `value` of a 2xx reply to the request carrying that scenario's prompt and voice, and the
   * session configuration names the same voice.
   */
  lemma TokenOnlyFromOkReply(scenarioId: string, apiKey: string, upstream: SessionRequest -> Upstream)
    requires AfterCharge(scenarioId, apiKey, upstream).response.body.SessionBody?
    ensures var t := AfterCharge(scenarioId, apiKey, upstream);
      var scenario := GetScenario(scenarioId);
      && scenario.Success?
      && t.sent == Some(SessionRequestFor(scenario.value, apiKey))
      && t.sent.value.instructions == GetSystemPromptForSession(scenario.value)
      && t.response.body.voice == scenario.value.voice
      && t.response.body.model == REALTIME_MODEL
      && var reply := upstream(t.sent.value);
         reply.Reply? && IsOk(reply.status) && reply.clientSecret == Success(Some(t.response.body.token))
         && t.response.body.token != ""
  {
  }

  /**
   * A token is handed out only to a caller the gate let through, with a scenario id and a key,
   * for a known scenario, as `TokenOnlyFromOkReply` describes.
   */
  lemma TokenOnlyForAdmittedCaller(
    st: Store, headers: map<string, string>, body: Result<Option<string>, string>,
    apiKey: Option<string>, upstream: SessionRequest -> Upstream)
    requires Respond(st, headers, body, apiKey, upstream).response.body.SessionBody?
    ensures Gate(st, Cookie.GetAnonymousIdFromRequest(headers)).canSimulate
    ensures body.Success? && Js.Truthy(body.value) && Js.Truthy(apiKey)
    ensures var o := Respond(st, headers, body, apiKey, upstream);
      && o.response.status == 200
      && o.sent.Some? && o.sent.value.instructions == GetSystemPromptForSession(GetScenario(body.value.value).value)
      && o.response.body.voice == GetScenario(body.value.value).value.voice
      && o.response == AfterCharge(body.value.value, apiKey.value, upstream).response
  {
    var id := Cookie.GetAnonymousIdFromRequest(headers);
    AdmissionPassedGuards(st, id, body, apiKey);
    var a := Admit(st, id, body, apiKey);
    TokenOnlyFromOkReply(a.scenarioId, a.apiKey, upstream);
  }

  /** A caller with one credit left is admitted once; the next call is refused with `no_credits`. */
  lemma LastCreditServesOneSession(
    st: Store, anonymousId: Option<string>, scenarioId: string, apiKey: string,
    body2: Result<Option<string>, string>, apiKey2: Option<string>)
    requires st.configured
    requires Js.Truthy(anonymousId) && anonymousId.value in st.purchases && st.purchases[anonymousId.value] == 1
    requires scenarioId != "" && apiKey != ""
    ensures var a1 := Admit(st, anonymousId, Success(Some(scenarioId)), Some(apiKey));
      var a2 := Admit(a1.store, anonymousId, body2, apiKey2);
      && a1.Admitted?
      && a1.store.purchases[anonymousId.value] == 0
      && a2 == Refused(Response(403, ErrorBody(NO_CREDITS_MESSAGE, Some("no_credits"))), a1.store)
  {
    CreditSpentBeforeLateFailures(st, anonymousId, scenarioId, apiKey);
  }
}
