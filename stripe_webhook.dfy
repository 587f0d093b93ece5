/**
 * The payment webhook (`POST` in src/app/api/webhooks/stripe/route.ts): after the configuration
 * and signature guards, a completed and paid checkout session sets the purchaser's balance to
 * the fixed top-up. Signature verification (`constructEvent`) is a parameter that yields the
 * event or the message it threw with.
 */
module StripeWebhook {
  import opened Wrappers
  import Js
  import opened Access

  /** The balance a completed purchase sets. */
  const SIMULATIONS_PER_PURCHASE: int := 50

  const CHECKOUT_COMPLETED: string := "checkout.session.completed"
  const NOT_CONFIGURED: string := "Stripe webhook not configured"
  const MISSING_SIGNATURE: string := "Missing stripe-signature"
  const INVALID_SIGNATURE: string := "Invalid signature"

  /** The fields of a checkout session the route reads. */
  datatype CheckoutSession = CheckoutSession(
    clientReferenceId: Option<string>,
    metadataAnonymousId: Option<string>,
    paymentStatus: Option<string>)

  /** A verified event: its type and, for checkout events, the session it carries. */
  datatype Event = Event(eventType: string, session: CheckoutSession)

  /** The JSON answered: an error, or the acknowledgement `{ received: true }`. */
  datatype Body = ErrorBody(error: string) | Received

  datatype Response = Response(status: int, body: Body)

  datatype Outcome = Outcome(response: Response, store: Store)

  /** `client_reference_id || metadata?.anonymous_id`: the reference id when it is non-empty, else the metadata id. */
  function PurchaserId(session: CheckoutSession): (r: Option<string>)
    ensures Js.Truthy(session.clientReferenceId) ==> r == session.clientReferenceId
    ensures !Js.Truthy(session.clientReferenceId) ==> r == session.metadataAnonymousId
  {
    if Js.Truthy(session.clientReferenceId) then session.clientReferenceId else session.metadataAnonymousId
  }

  /** The session is `paid`, and names a purchaser: the case that writes to the store. */
  predicate IsPaidPurchase(e: Event) {
    e.eventType == CHECKOUT_COMPLETED && Js.Truthy(PurchaserId(e.session)) && e.session.paymentStatus == Some("paid")
  }

  /** The upsert on `anonymous_id`: the purchaser's balance becomes the top-up whatever it was. */
  function RecordPurchase(st: Store, id: string): (after: Store)
    ensures after.configured == st.configured && after.freeSims == st.freeSims
    ensures st.configured ==> after.purchases.Keys == st.purchases.Keys + {id} && after.purchases[id] == SIMULATIONS_PER_PURCHASE
    ensures forall k :: k in st.purchases && k != id ==> k in after.purchases && after.purchases[k] == st.purchases[k]
    ensures !st.configured ==> after == st
  {
    if st.configured then st.(purchases := st.purchases[id := SIMULATIONS_PER_PURCHASE]) else st
  }

  /**
   * The route. `stripeKey` and `webhookSecret` are the configured secrets; `headers` are keyed in
   * lower case; `constructEvent` verifies the body against the signature and gives the event, or
   * the message of what it threw (none when the thrown value is not an `Error`).
   */
  function Respond(
    st: Store, stripeKey: Option<string>, webhookSecret: Option<string>, rawBody: string,
    headers: map<string, string>, constructEvent: (string, string, string) -> Result<Event, Option<string>>): (o: Outcome)
    ensures o.response.status in {200, 400, 503}
    ensures o.store != st ==> o.response == Response(200, Received)
  {
    if !Js.Truthy(stripeKey) || !Js.Truthy(webhookSecret) then
      Outcome(Response(503, ErrorBody(NOT_CONFIGURED)), st)
    else
      var signature := if "stripe-signature" in headers then Some(headers["stripe-signature"]) else None;
      if !Js.Truthy(signature) then Outcome(Response(400, ErrorBody(MISSING_SIGNATURE)), st)
      else
        match constructEvent(rawBody, signature.value, webhookSecret.value)
        case Failure(message) => Outcome(Response(400, ErrorBody(message.GetOr(INVALID_SIGNATURE))), st)
        case Success(event) =>
          if IsPaidPurchase(event) then Outcome(Response(200, Received), RecordPurchase(st, PurchaserId(event.session).value))
          else Outcome(Response(200, Received), st)
  }

  /** `POST /api/webhooks/stripe` against the store. */
  method Post(
    store: Ledger, stripeKey: Option<string>, webhookSecret: Option<string>, rawBody: string,
    headers: map<string, string>, constructEvent: (string, string, string) -> Result<Event, Option<string>>)
    returns (response: Response)
    modifies store
    ensures response == Respond(old(store.State()), stripeKey, webhookSecret, rawBody, headers, constructEvent).response
    ensures store.State() == Respond(old(store.State()), stripeKey, webhookSecret, rawBody, headers, constructEvent).store
  {
    if !Js.Truthy(stripeKey) || !Js.Truthy(webhookSecret) {
      return Response(503, ErrorBody(NOT_CONFIGURED));
    }
    var signature := if "stripe-signature" in headers then Some(headers["stripe-signature"]) else None;
    if !Js.Truthy(signature) {
      return Response(400, ErrorBody(MISSING_SIGNATURE));
    }
    var verified := constructEvent(rawBody, signature.value, webhookSecret.value);
    if verified.Failure? {
      return Response(400, ErrorBody(verified.error.GetOr(INVALID_SIGNATURE)));
    }
    var event := verified.value;
    if event.eventType == CHECKOUT_COMPLETED {
      var anonymousId := PurchaserId(event.session);
      if !Js.Truthy(anonymousId) {
        return Response(200, Received);
      }
      if event.session.paymentStatus != Some("paid") {
        return Response(200, Received);
      }
      if store.configured {
        store.anonPurchases := store.anonPurchases[anonymousId.value := SIMULATIONS_PER_PURCHASE];
      }
    }
    return Response(200, Received);
  }

  /** Without both secrets the route answers 503 and changes nothing. */
  lemma UnconfiguredIsUnavailable(
    st: Store, stripeKey: Option<string>, webhookSecret: Option<string>, rawBody: string,
    headers: map<string, string>, constructEvent: (string, string, string) -> Result<Event, Option<string>>)
    requires !Js.Truthy(stripeKey) || !Js.Truthy(webhookSecret)
    ensures Respond(st, stripeKey, webhookSecret, rawBody, headers, constructEvent) == Outcome(Response(503, ErrorBody(NOT_CONFIGURED)), st)
  {
  }

  /** A missing signature, and one `constructEvent` rejects, are answered 400 and change nothing. */
  lemma BadSignatureIsRejected(
    st: Store, stripeKey: Option<string>, webhookSecret: Option<string>, rawBody: string,
    headers: map<string, string>, constructEvent: (string, string, string) -> Result<Event, Option<string>>)
    requires Js.Truthy(stripeKey) && Js.Truthy(webhookSecret)
    requires "stripe-signature" !in headers || headers["stripe-signature"] == ""
      || constructEvent(rawBody, headers["stripe-signature"], webhookSecret.value).Failure?
    ensures var o := Respond(st, stripeKey, webhookSecret, rawBody, headers, constructEvent);
      && o.response.status == 400 && o.store == st
      && ("stripe-signature" !in headers || headers["stripe-signature"] == "" ==> o.response.body == ErrorBody(MISSING_SIGNATURE))
  {
  }

  /**
   * A verified event changes the store only when it is a completed, paid checkout naming a
   * purchaser; then (with a configured store) that purchaser's balance is exactly the top-up,
   * replacing any earlier balance, and every other row is as it was. Every verified event is
   * acknowledged with 200.
   */
  lemma VerifiedEventEffect(
    st: Store, stripeKey: Option<string>, webhookSecret: Option<string>, rawBody: string,
    headers: map<string, string>, constructEvent: (string, string, string) -> Result<Event, Option<string>>)
    requires Js.Truthy(stripeKey) && Js.Truthy(webhookSecret)
    requires "stripe-signature" in headers && headers["stripe-signature"] != ""
    requires constructEvent(rawBody, headers["stripe-signature"], webhookSecret.value).Success?
    ensures var e := constructEvent(rawBody, headers["stripe-signature"], webhookSecret.value).value;
      var o := Respond(st, stripeKey, webhookSecret, rawBody, headers, constructEvent);
      && o.response == Response(200, Received)
      && (!IsPaidPurchase(e) ==> o.store == st)
      && (IsPaidPurchase(e) && st.configured ==>
            o.store == st.(purchases := st.purchases[PurchaserId(e.session).value := SIMULATIONS_PER_PURCHASE]))
  {
  }

  /** Delivering the same event again leaves the store as one delivery did: the upsert is idempotent. */
  lemma RedeliveryIsIdempotent(
    st: Store, stripeKey: Option<string>, webhookSecret: Option<string>, rawBody: string,
    headers: map<string, string>, constructEvent: (string, string, string) -> Result<Event, Option<string>>)
    ensures var once := Respond(st, stripeKey, webhookSecret, rawBody, headers, constructEvent);
      Respond(once.store, stripeKey, webhookSecret, rawBody, headers, constructEvent) == once
  {
    var once := Respond(st, stripeKey, webhookSecret, rawBody, headers, constructEvent);
    if once.store != st {
      var signature := headers["stripe-signature"];
      var id := PurchaserId(constructEvent(rawBody, signature, webhookSecret.value).value.session).value;
      assert once.store.purchases[id := SIMULATIONS_PER_PURCHASE] == once.store.purchases;
    }
  }

  /**
   * After a paid purchase the gate admits the purchaser as a paying customer with the full
   * top-up, even if their free sim was used.
   */
  lemma PurchaseOpensGate(st: Store, id: string)
    requires st.configured && id != ""
    ensures var a := CheckAccess(true, Some(id), st.freeSims, RecordPurchase(st, id).purchases);
      a.canSimulate && a.hasPaid && a.simulationsRemaining == Some(SIMULATIONS_PER_PURCHASE) && a.reason.None?
  {
  }
}
