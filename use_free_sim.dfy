/**
 * The free-sim recorder (`POST` in src/app/api/use-free-sim/route.ts): for a caller with an
 * identity cookie it upserts `used = true` into the caller's `free_sims` row.
 */
module UseFreeSim {
  import opened Wrappers
  import Js
  import Cookie
  import opened Access

  const MISSING_ID: string := "Missing anonymous id (cookie ccp_anon)"

  /** The JSON answered: an error, or `{ ok: true, used: true }`. */
  datatype Body = ErrorBody(error: string) | Recorded

  datatype Response = Response(status: int, body: Body)

  datatype Outcome = Outcome(response: Response, store: Store)

  /** The upsert on `anonymous_id`: the caller's flag is set, every other row stays. */
  function MarkUsed(st: Store, id: string): (after: Store)
    ensures after.configured == st.configured && after.purchases == st.purchases
    ensures st.configured ==> after.freeSims.Keys == st.freeSims.Keys + {id} && after.freeSims[id]
    ensures forall k :: k in st.freeSims && k != id ==> k in after.freeSims && after.freeSims[k] == st.freeSims[k]
    ensures !st.configured ==> after == st
  {
    if st.configured then st.(freeSims := st.freeSims[id := true]) else st
  }

  /** The route: 400 without an identity, otherwise the flag is recorded (when there is a store) and 200 `ok`. */
  function Respond(st: Store, headers: map<string, string>): (o: Outcome)
    ensures !Js.Truthy(Cookie.GetAnonymousIdFromRequest(headers)) ==> o == Outcome(Response(400, ErrorBody(MISSING_ID)), st)
    ensures Js.Truthy(Cookie.GetAnonymousIdFromRequest(headers)) ==> o.response == Response(200, Recorded)
    ensures Js.Truthy(Cookie.GetAnonymousIdFromRequest(headers)) ==> o.store == MarkUsed(st, Cookie.GetAnonymousIdFromRequest(headers).value)
  {
    var anonymousId := Cookie.GetAnonymousIdFromRequest(headers);
    if !Js.Truthy(anonymousId) then Outcome(Response(400, ErrorBody(MISSING_ID)), st)
    else if !st.configured then Outcome(Response(200, Recorded), st)
    else Outcome(Response(200, Recorded), MarkUsed(st, anonymousId.value))
  }

  /** `POST /api/use-free-sim` against the store. */
  method Post(store: Ledger, headers: map<string, string>) returns (response: Response)
    modifies store
    ensures response == Respond(old(store.State()), headers).response
    ensures store.State() == Respond(old(store.State()), headers).store
  {
    var anonymousId := Cookie.GetAnonymousIdFromRequest(headers);
    if !Js.Truthy(anonymousId) {
      return Response(400, ErrorBody(MISSING_ID));
    }
    if !store.configured {
      return Response(200, Recorded);
    }
    store.freeSims := store.freeSims[anonymousId.value := true];
    return Response(200, Recorded);
  }

  /** Recording twice leaves the store as recording once did. */
  lemma RecordingIsIdempotent(st: Store, headers: map<string, string>)
    ensures Respond(Respond(st, headers).store, headers) == Respond(st, headers)
  {
    var id := Cookie.GetAnonymousIdFromRequest(headers);
    if Js.Truthy(id) && st.configured {
      var once := MarkUsed(st, id.value);
      assert once.freeSims[id.value := true] == once.freeSims;
    }
  }

  /** Once recorded, a caller without a purchase row is refused by the gate with `free_used`. */
  lemma RecordedCallerIsOutOfFreeSims(st: Store, headers: map<string, string>)
    requires st.configured
    requires var id := Cookie.GetAnonymousIdFromRequest(headers); Js.Truthy(id) && id.value !in st.purchases
    ensures var id := Cookie.GetAnonymousIdFromRequest(headers);
      var after := Respond(st, headers).store;
      var a := CheckAccess(after.configured, id, after.freeSims, after.purchases);
      !a.canSimulate && a.reason == Some(FreeUsed) && a.reason.value.Code() == "free_used"
  {
  }

  /** Recording never changes the purchases table, so a paying caller's standing is untouched. */
  lemma RecordingLeavesBalances(st: Store, headers: map<string, string>)
    ensures Respond(st, headers).store.purchases == st.purchases
  {
  }
}
