/** What each billing operation answers and leaves behind, row by row, from the request or event
    itself. */
module CheckoutOutcomes {
  import opened Seqs
  import opened Fx
  import opened Checkout

  // ---------------------------------------------------------------- provider values

  /** `str(n)`. */
  function DecimalText(n: nat): string {
    if n < 10 then [('0' as int + n) as char] else DecimalText(n / 10) + [('0' as int + n % 10) as char]
  }

  predicate AllDigits(s: string) {
    forall i :: 0 <= i < |s| ==> '0' <= s[i] <= '9'
  }

  lemma {:induction false} DigitsValueIff(s: string)
    ensures DigitsValue(s).Some? <==> AllDigits(s)
  {
    if s == "" {
    } else {
      DigitsValueIff(s[..|s| - 1]);
      assert s == s[..|s| - 1] + [s[|s| - 1]];
    }
  }

  lemma {:induction false} DigitsOfText(n: nat)
    ensures DigitsValue(DecimalText(n)) == Some(n) && DecimalText(n) != "" && AllDigits(DecimalText(n))
  {
    if n < 10 {
      assert DecimalText(n)[..0] == "";
    } else {
      DigitsOfText(n / 10);
      assert DecimalText(n)[..|DecimalText(n)| - 1] == DecimalText(n / 10);
    }
  }

  /** An amount is an integer, or the decimal text of one, which reads back as that integer; a boolean
      or any other text is no amount. */
  lemma AmountIsRead(v: Json, n: nat)
    ensures ProviderAmount(Int(n)) == ProviderAmount(Str(DecimalText(n))) == Some(n)
    ensures ProviderAmount(v).Some? <==> v.Int? || (v.Str? && v.s != "" && AllDigits(v.s))
  {
    DigitsOfText(n);
    if v.Str? {
      DigitsValueIff(v.s);
    }
  }

  /** Python's truth values, and `str` of a text. */
  lemma ValuesAreRead(env: Env, v: Json)
    ensures Truthy(v) <==> v != Null && v != Bool(false) && v != Int(0) && v != Str("") && v != Obj(map[]) &&
                           (v.Other? ==> v.truthy)
    ensures v.Str? ==> PyStr(env, v) == v.s
  {
  }

  /** The part of an event's ledger key after the type: the first of reference, id and subscription code
      that says something, else the hash of the body. */
  lemma EventIdentityIsRead(env: Env, payload: map<string, Json>, hash: string)
    ensures var identity, event := EventIdentity(env, payload, hash), Get(payload, "event");
            && (identity.None? <==> !event.Str? || event.s == "" || |event.s| > 100)
            && (identity.Some? ==>
                  var data := Get(payload, "data");
                  var named := if data.Obj? then data.fields else map[];
                  var key := event.s + ":" +
                             if Truthy(Get(named, "reference")) then PyStr(env, Get(named, "reference"))
                             else if Truthy(Get(named, "id")) then PyStr(env, Get(named, "id"))
                             else if Get(named, "subscription_code") != Null
                                  then PyStr(env, Get(named, "subscription_code"))
                             else "sha256:" + hash;
                  && identity.value.0 == event.s
                  && identity.value.1 <= key && |identity.value.1| <= 255
                  && (|key| <= 255 ==> identity.value.1 == key) && (|key| > 255 ==> |identity.value.1| == 255))
  {
  }

  // ---------------------------------------------------------------- activation

  /** The provider's references in a charge: the customer's code, and the subscription's code from the
      nested object or else from the top level. */
  lemma ReferencesAreRead(data: map<string, Json>, customer: map<string, Json>, subscription: map<string, Json>)
    ensures Get(data, "customer") == Obj(customer) ==> CustomerRef(data) == Get(customer, "customer_code")
    ensures !Get(data, "customer").Obj? ==> CustomerRef(data) == Null
    ensures Get(data, "subscription") == Obj(subscription) && Truthy(Get(subscription, "subscription_code")) ==>
              SubscriptionRef(data) == Get(subscription, "subscription_code")
    ensures Get(data, "subscription") == Obj(subscription) && !Truthy(Get(subscription, "subscription_code")) ==>
              SubscriptionRef(data) == Get(data, "subscription_code")
    ensures !Get(data, "subscription").Obj? ==> SubscriptionRef(data) == Get(data, "subscription_code")
  {
  }

  /** A charge that concerns a checkout of this tenant that is not paid yet. */
  predicate Concerns(s: State, tenant: Tenant, ref: string) {
    ref in s.intents && s.intents[ref].tenant == tenant && s.intents[ref].status != SUCCEEDED
  }

  /** The confirmed amount and currency are the locked ones, and the references are texts or absent. */
  predicate Agrees(e: Intent, data: map<string, Json>) {
    && ProviderAmount(Get(data, "amount")) == Some(e.amount) && Get(data, "currency") == Str(e.currency)
    && (CustomerRef(data).Null? || CustomerRef(data).Str?) &&
       (SubscriptionRef(data).Null? || SubscriptionRef(data).Str?)
  }

  /** The reference a row ends with: the one given, else the one it had. */
  predicate Kept(after: Option<string>, given: Json, before: Option<string>) {
    after == if given.Str? then Some(given.s) else before
  }

  /** Row `k` of the new table is the tenant's paid subscription; it was the tenant's live row or is a
      new one, and every other row is as it was. */
  predicate IsPaidRow(before: seq<Subscription>, after: seq<Subscription>, k: nat, tenant: Tenant, plan: string,
                      customer: Json, subRef: Json) {
    && k < |after| && after[k].tenant == tenant && after[k].plan == plan && after[k].status == ACTIVE &&
       after[k].paystack
    && (forall j :: 0 <= j < |before| && j != k ==> j < |after| && after[j] == before[j])
    && (if k < |before| then
          && |after| == |before| && before[k].tenant == tenant && before[k].status in {TRIALING, ACTIVE, PAST_DUE}
          && Kept(after[k].customerRef, customer, before[k].customerRef)
          && Kept(after[k].subscriptionRef, subRef, before[k].subscriptionRef)
          && after[k].cancelAtPeriodEnd == before[k].cancelAtPeriodEnd
        else
          && k == |before| == |after| - 1
          && (forall j :: 0 <= j < |before| && before[j].tenant == tenant ==>
                before[j].status !in {TRIALING, ACTIVE, PAST_DUE})
          && Kept(after[k].customerRef, customer, None) && Kept(after[k].subscriptionRef, subRef, None)
          && !after[k].cancelAtPeriodEnd)
  }

  lemma UpsertIsPaidRow(subs: seq<Subscription>, tenant: Tenant, plan: string, customer: Json, subRef: Json)
    requires (customer.Null? || customer.Str?) && (subRef.Null? || subRef.Str?)
    ensures var after := UpsertSubscription(subs, tenant, plan, AsText(customer), AsText(subRef));
            var k := LiveIndex(after, tenant);
            IsPaidRow(subs, after, k, tenant, plan, customer, subRef)
  {
    var after := UpsertSubscription(subs, tenant, plan, AsText(customer), AsText(subRef));
    var i := LiveIndex(subs, tenant);
    assert after[i].tenant == tenant && LiveStatus(after[i].status);
    assert forall j :: 0 <= j < i ==> after[j] == subs[j];
  }

  /** Another Paystack row already carries the reference row `k` would have. */
  predicate RefClash(subs: seq<Subscription>, k: nat) {
    k < |subs| && subs[k].subscriptionRef.Some? &&
    exists j :: 0 <= j < |subs| && j != k && subs[j].paystack && subs[j].subscriptionRef == subs[k].subscriptionRef
  }

  /** Activation, case by case: nothing to do; refused for the settlement; undone for a clash of provider
      references; or one paid subscription, one invoice on it, and the checkout SUCCEEDED. */
  lemma ActivationOutcome(s: State, tenant: Tenant, ref: string, data: map<string, Json>)
    requires OneLivePerTenant(s.subscriptions) && OneRowPerProviderRef(s.subscriptions)
    ensures var outcome := Activate(s, tenant, ref, data);
            && (!Concerns(s, tenant, ref) ==> outcome == Committed(s))
            && (Concerns(s, tenant, ref) && !Agrees(s.intents[ref], data) ==> outcome == Raised)
            && (Concerns(s, tenant, ref) && Agrees(s.intents[ref], data) ==>
                  var e := s.intents[ref];
                  exists subs, k ::
                    && IsPaidRow(s.subscriptions, subs, k, tenant, e.plan, CustomerRef(data), SubscriptionRef(data))
                    && (if RefClash(subs, k) then outcome == Aborted
                        else outcome == Committed(s.(
                          subscriptions := subs,
                          invoices := if exists i :: 0 <= i < |s.invoices| && s.invoices[i].ref == ref then s.invoices
                                      else s.invoices + [Invoice(tenant, k, ref, e.amount, e.currency)],
                          intents := s.intents[ref := e.(status := SUCCEEDED)]))))
  {
    if Concerns(s, tenant, ref) && Agrees(s.intents[ref], data) {
      var e := s.intents[ref];
      var customer, subRef := CustomerRef(data), SubscriptionRef(data);
      var subs := UpsertSubscription(s.subscriptions, tenant, e.plan, AsText(customer), AsText(subRef));
      var k := LiveIndex(subs, tenant);
      UpsertIsPaidRow(s.subscriptions, tenant, e.plan, customer, subRef);
      ActivationKeepsOneLiveSubscription(s.subscriptions, tenant, e.plan, AsText(customer), AsText(subRef));
      ClashIsTheOnlyOne(s.subscriptions, subs, k, tenant, e.plan, customer, subRef);
      hide UpsertSubscription, LiveIndex, IsPaidRow, OneLivePerTenant, OneRowPerProviderRef, RefClash;
    }
  }

  lemma ClashIsTheOnlyOne(before: seq<Subscription>, subs: seq<Subscription>, k: nat, tenant: Tenant, plan: string,
                          customer: Json, subRef: Json)
    requires OneRowPerProviderRef(before) && IsPaidRow(before, subs, k, tenant, plan, customer, subRef)
    ensures OneRowPerProviderRef(subs) <==> !RefClash(subs, k)
  {
    if RefClash(subs, k) {
      var j :| 0 <= j < |subs| && j != k && subs[j].paystack && subs[j].subscriptionRef == subs[k].subscriptionRef;
      assert subs[k].paystack;
    }
  }

  // ---------------------------------------------------------------- webhooks

  /** A delivery of an event seen for the first time, on a database that answers. */
  predicate FirstDelivery(env: Env, s: State, payload: map<string, Json>, hash: string, event: string) {
    EventIdentity(env, payload, hash).Some? && EventIdentity(env, payload, hash).value.1 !in s.ledger &&
    Get(payload, "event") == Str(event)
  }

  function LedgerKey(env: Env, payload: map<string, Json>, hash: string): string
    requires EventIdentity(env, payload, hash).Some?
  {
    EventIdentity(env, payload, hash).value.1
  }

  predicate CarriesRef(row: Subscription, ref: string) {
    row.paystack && row.subscriptionRef == Some(ref)
  }

  /** Every Paystack row with the reference gets the status and the cancellation flag; nothing else in
      the tables changes but the event's ledger row. */
  predicate OnlyMarks(s: State, t: State, key: string, ref: string, status: SubStatus) {
    && t == s.(subscriptions := t.subscriptions, ledger := s.ledger[key := PROCESSED])
    && |t.subscriptions| == |s.subscriptions|
    && forall i :: 0 <= i < |s.subscriptions| ==>
         t.subscriptions[i] == if CarriesRef(s.subscriptions[i], ref)
                               then s.subscriptions[i].(status := status, cancelAtPeriodEnd := true)
                               else s.subscriptions[i]
  }

  lemma CancelledRowsDoNotClash(subs: seq<Subscription>, ref: string)
    requires OneLivePerTenant(subs)
    ensures OneLivePerTenant(ApplyProviderState(subs, ref, CANCELLED))
  {
    ProviderStateKeepsRefs(subs, ref, CANCELLED);
  }

  lemma RevivedRowsClashIff(subs: seq<Subscription>, ref: string)
    requires OneLivePerTenant(subs)
    ensures OneLivePerTenant(ApplyProviderState(subs, ref, ACTIVE)) <==> !Revives(subs, ref)
  {
    var after := ApplyProviderState(subs, ref, ACTIVE);
    ProviderStateKeepsRefs(subs, ref, ACTIVE);
    assert forall i :: 0 <= i < |subs| ==>
             after[i].tenant == subs[i].tenant &&
             (LiveStatus(after[i].status) <==> CarriesRef(subs[i], ref) || LiveStatus(subs[i].status));
    hide ApplyProviderState;
    if Revives(subs, ref) {
      var i, j :| 0 <= i < |subs| && 0 <= j < |subs| && RevivesBeside(subs, ref, i, j);
      assert LiveStatus(after[i].status) && LiveStatus(after[j].status) && after[i].tenant == after[j].tenant;
    }
    if !OneLivePerTenant(after) {
      var i, j :| 0 <= i < j < |after| && LiveStatus(after[i].status) && LiveStatus(after[j].status) &&
                  after[i].tenant == after[j].tenant;
      assert RevivesBeside(subs, ref, i, j) || RevivesBeside(subs, ref, j, i);
    }
  }

  predicate RevivesBeside(subs: seq<Subscription>, ref: string, i: nat, j: nat)
    requires i < |subs| && j < |subs|
  {
    i != j && CarriesRef(subs[i], ref) && subs[i].tenant == subs[j].tenant &&
    (CarriesRef(subs[j], ref) || subs[j].status in {TRIALING, ACTIVE, PAST_DUE})
  }

  /** Making the referenced row ACTIVE would give its tenant a second live subscription. */
  predicate Revives(subs: seq<Subscription>, ref: string) {
    exists i, j :: 0 <= i < |subs| && 0 <= j < |subs| && RevivesBeside(subs, ref, i, j)
  }

  lemma ProviderStateIsCommitted(env: Env, s: State, payload: map<string, Json>, hash: string, event: string,
                                 code: Json)
    requires FirstDelivery(env, s, payload, hash, event) && event in {"subscription.disable", "subscription.not_renew"}
    requires Get(payload, "data").Obj? && code == Get(Get(payload, "data").fields, "subscription_code") && Truthy(code)
    ensures var status := if event == "subscription.disable" then CANCELLED else ACTIVE;
            var subs := ApplyProviderState(s.subscriptions, PyStr(env, code), status);
            ReceiveWebhook(env, s, payload, hash, false) ==
              if OneLivePerTenant(subs)
              then s.(subscriptions := subs, ledger := s.ledger[LedgerKey(env, payload, hash) := PROCESSED]) else s
  {
    assert EventIdentity(env, payload, hash).value.0 == event;
    assert s.(reports := s.reports + {}) == s;
    hide EventIdentity, Activate, Metadata, OneLivePerTenant, ApplyProviderState, PyStr, Truthy;
  }

  /** `subscription.disable`: every row with that reference is cancelled at once and flagged, so none of
      them is live; it always commits. */
  lemma DisableCancels(env: Env, s: State, payload: map<string, Json>, hash: string, code: Json)
    requires FirstDelivery(env, s, payload, hash, "subscription.disable") && OneLivePerTenant(s.subscriptions)
    requires Get(payload, "data").Obj? && code == Get(Get(payload, "data").fields, "subscription_code") && Truthy(code)
    ensures OnlyMarks(s, ReceiveWebhook(env, s, payload, hash, false), LedgerKey(env, payload, hash), PyStr(env, code),
                      CANCELLED)
  {
    CancelledRowsDoNotClash(s.subscriptions, PyStr(env, code));
    ProviderStateKeepsRefs(s.subscriptions, PyStr(env, code), CANCELLED);
    ProviderStateIsCommitted(env, s, payload, hash, "subscription.disable", code);
    hide ReceiveWebhook, FirstDelivery, OneLivePerTenant, ApplyProviderState, PyStr, Truthy;
  }

  /** `subscription.not_renew`: every row with that reference stays or becomes ACTIVE and is flagged to
      end with its period, unless that would give a tenant two live rows: then the whole delivery is
      undone, ledger row included. */
  lemma NotRenewFlags(env: Env, s: State, payload: map<string, Json>, hash: string, code: Json)
    requires FirstDelivery(env, s, payload, hash, "subscription.not_renew") && OneLivePerTenant(s.subscriptions)
    requires Get(payload, "data").Obj? && code == Get(Get(payload, "data").fields, "subscription_code") && Truthy(code)
    ensures var t := ReceiveWebhook(env, s, payload, hash, false);
            if Revives(s.subscriptions, PyStr(env, code)) then t == s
            else OnlyMarks(s, t, LedgerKey(env, payload, hash), PyStr(env, code), ACTIVE)
  {
    RevivedRowsClashIff(s.subscriptions, PyStr(env, code));
    ProviderStateKeepsRefs(s.subscriptions, PyStr(env, code), ACTIVE);
    ProviderStateIsCommitted(env, s, payload, hash, "subscription.not_renew", code);
    hide ReceiveWebhook, FirstDelivery, Revives, OneLivePerTenant, ApplyProviderState, PyStr, Truthy;
  }

  /** Every other event, and one without usable data, is recorded as PROCESSED and does nothing else. */
  lemma OtherEventsAreRecorded(env: Env, s: State, payload: map<string, Json>, hash: string, event: string)
    requires FirstDelivery(env, s, payload, hash, event)
    requires var data := Get(payload, "data");
             || !data.Obj?
             || event !in {"charge.success", "subscription.disable", "subscription.not_renew"}
             || (event != "charge.success" && !Truthy(Get(data.fields, "subscription_code")))
             || (event == "charge.success" && !Get(data.fields, "reference").Str?)
    ensures ReceiveWebhook(env, s, payload, hash, false) ==
            s.(ledger := s.ledger[LedgerKey(env, payload, hash) := PROCESSED])
  {
  }

  /** A charge: recorded as PROCESSED with its activation if that commits, also when it names no tenant;
      recorded as REJECTED when the activation refuses it; not recorded at all when it is undone. */
  lemma ChargeOutcome(env: Env, s: State, payload: map<string, Json>, hash: string, ref: string)
    requires FirstDelivery(env, s, payload, hash, "charge.success") && Get(payload, "data").Obj?
    requires Get(Get(payload, "data").fields, "reference") == Str(ref)
    ensures var data, key := Get(payload, "data").fields, LedgerKey(env, payload, hash);
            var seen := s.(reports := s.reports + {Report(ref, Get(data, "amount"), Get(data, "currency"))});
            var t := ReceiveWebhook(env, s, payload, hash, false);
            match ChargedTenant(env, data)
            case None => t == seen.(ledger := s.ledger[key := PROCESSED])
            case Some(tenant) =>
              match Activate(seen, tenant, ref, data)
              case Committed(u) => t == u.(ledger := s.ledger[key := PROCESSED])
              case Raised => t == seen.(ledger := s.ledger[key := REJECTED])
              case Aborted => t == seen
  {
    var data := Get(payload, "data").fields;
    assert EventIdentity(env, payload, hash).value.0 == "charge.success";
    var seen := s.(reports := s.reports + {Report(ref, Get(data, "amount"), Get(data, "currency"))});
    if ChargedTenant(env, data).Some? {
      ActivationKeepsTheLedger(seen, ChargedTenant(env, data).value, ref, data);
    }
    hide EventIdentity, Activate;
  }

  lemma ActivationKeepsTheLedger(s: State, tenant: Tenant, ref: string, data: map<string, Json>)
    ensures var outcome := Activate(s, tenant, ref, data);
            outcome.Committed? ==> outcome.state.ledger == s.ledger
  {
  }

  /** The tenant of a charge: the id in its metadata, which may come as an object or as JSON text. */
  lemma ChargedTenantIsRead(env: Env, data: map<string, Json>, fields: map<string, Json>)
    requires Get(data, "metadata") == Obj(fields) ||
             (Get(data, "metadata").Str? && env.loads(Get(data, "metadata").s) == Some(Obj(fields)))
    ensures ChargedTenant(env, data) ==
            if "tenant_id" in fields then env.uuid(PyStr(env, fields["tenant_id"])) else None
  {
  }

  /** A second delivery of the same event, and any delivery while the database is down, changes no table. */
  lemma RepeatedDelivery(env: Env, s: State, payload: map<string, Json>, hash: string, fails: bool)
    requires EventIdentity(env, payload, hash).Some? ==> fails || EventIdentity(env, payload, hash).value.1 in s.ledger
    ensures var t := ReceiveWebhook(env, s, payload, hash, fails); t == s.(reports := t.reports)
  {
    hide EventIdentity;
  }

  // ---------------------------------------------------------------- verification

  /** Browser verification activates on a provider success for an unpaid checkout of the tenant, exactly
      as a charge would, and does nothing otherwise. */
  lemma VerifyOutcome(s: State, tenant: Tenant, ref: string, data: map<string, Json>)
    ensures var t := VerifyCheckout(s, tenant, ref, data);
            var seen := s.(reports := s.reports + {Report(ref, Get(data, "amount"), Get(data, "currency"))});
            if !Concerns(s, tenant, ref) || Get(data, "status") != Str("success") then t == s
            else if Activate(seen, tenant, ref, data).Committed? then t == Activate(seen, tenant, ref, data).state
            else t == seen
  {
  }

  // ---------------------------------------------------------------- starting a checkout

  /** The first read sees the tenant's own row for the reference, if there is one, and the time. */
  lemma FirstReadSees(s: State, id: RequestId, r: Request)
    ensures var t := LookUp(s, id, r);
            && id in t.looking && t == s.(looking := s.looking[id := t.looking[id]])
            && t.looking[id].request == r && t.looking[id].at == s.now
            && (t.looking[id].seen.Some? <==> r.ref in s.intents && s.intents[r.ref].tenant == r.tenant)
            && (t.looking[id].seen.Some? ==> t.looking[id].seen.value == s.intents[r.ref])
  {
  }

  /** What a retry that read row `e` is told and does. */
  lemma RetryAnswers(s: State, id: RequestId, clock: nat, quote: Option<Quote>, e: Intent)
    requires id in s.looking && s.looking[id].seen == Some(e) && Reaches(s, s.looking[id].request)
    ensures var r, (t, answer) := s.looking[id].request, BeginCheckout(s, id, clock, quote);
            var row := s.intents[r.ref];
            && t.looking == s.looking - {id}
            && (e.plan != r.plan ==> answer == PlanConflict && t.intents == s.intents)
            && (e.plan == r.plan && e.status in {INITIALIZED, SUCCEEDED} ==>
                answer == Returned(e) && t.intents == s.intents)
            && (e.plan == r.plan && e.status == PENDING ==> answer == InProgress && t.intents == s.intents)
            && (e.plan == r.plan && e.status in {FAILED, EXPIRED} && e.expiresAt <= clock ==>
                  answer == QuoteExpired && t.intents == s.intents[r.ref := row.(status := EXPIRED)])
            && (e.plan == r.plan && e.status in {FAILED, EXPIRED} && e.expiresAt > clock ==>
                  if row.status !in {FAILED, EXPIRED} then answer == InProgress && t.intents == s.intents
                  else
                    && t.intents == s.intents[r.ref := row.(status := PENDING)]
                    && (answer == Proceed || answer == QuoteExpired)
                    && (answer == Proceed <==> IsCompleteQuote(row)))
            && t.calling == if answer == Proceed then s.calling[id := Call(r.tenant, r.ref)] else s.calling
  {
  }

  /** The checkout was quoted in dollars at a sourced rate and settles in naira. */
  predicate IsCompleteQuote(e: Intent) {
    && e.displayAmount.Some? && e.displayCurrency == Some("USD") && e.currency == "NGN"
    && e.fx.Some? && e.fx.value.source != "" && e.fx.value.sourceUrl != ""
  }

  /** What a request that read no row is told and does: no usable quote, a concurrent row, or a new
      PENDING checkout on the converted price that expires one hour after the clock reading. */
  lemma FirstAnswers(s: State, id: RequestId, clock: nat, quote: Option<Quote>)
    requires id in s.looking && s.looking[id].seen == None
    ensures var r, (t, answer) := s.looking[id].request, BeginCheckout(s, id, clock, quote);
            var kobo := if quote.Some? then UsdCentsToNgnKobo(r.price, quote.value.rate) else None;
            && t.looking == s.looking - {id}
            && (kobo.None? ==> answer == FxUnavailable && t.intents == s.intents)
            && (kobo.Some? && r.ref in s.intents ==>
                  var row := s.intents[r.ref];
                  && t.intents == s.intents
                  && answer == if row.tenant == r.tenant && row.status in {INITIALIZED, SUCCEEDED} then Returned(row)
                               else InProgress)
            && (kobo.Some? && r.ref !in s.intents ==>
                  && answer == Proceed
                  && t.intents.Keys == s.intents.Keys + {r.ref} &&
                     (forall k :: k in s.intents ==> t.intents[k] == s.intents[k])
                  && var e := t.intents[r.ref];
                  && e.tenant == r.tenant && e.plan == r.plan && e.status == PENDING && e.url == None
                  && e.amount == kobo.value && e.currency == "NGN"
                  && e.displayAmount == Some(r.price) && e.displayCurrency == Some("USD")
                  && e.fx == quote && e.expiresAt == clock + 60 * 60 * 1000)
            && t.calling == if answer == Proceed then s.calling[id := Call(r.tenant, r.ref)] else s.calling
  {
  }

  /** What the owner of a reference records when the provider has answered or failed. */
  lemma OwnerRecords(s: State, id: RequestId, url: Option<string>)
    requires id in s.calling && s.calling[id].ref in s.intents
    requires s.intents[s.calling[id].ref].tenant == s.calling[id].tenant
    ensures var t, ref := FinishCheckout(s, id, url), s.calling[id].ref;
            var e := s.intents[ref];
            && t.calling == s.calling - {id}
            && t.intents ==
               s.intents[ref := if url.Some? then e.(status := INITIALIZED, url := url) else e.(status := FAILED)]
            && t == s.(calling := t.calling, intents := t.intents, initialized := t.initialized)
  {
  }
}
