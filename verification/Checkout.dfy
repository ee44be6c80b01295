/** Checkout, browser verification and provider webhooks over the billing tables. A step is one
    transaction, except that starting a checkout is two: the read that picks the branch, and the
    update or insert that ends it. Requests, deliveries and crashes interleave freely. */
module Checkout {
  import opened Seqs
  import opened Fx

  type Tenant = nat
  type RequestId = nat

  const QUOTE_MS: nat := 3_600_000

  // ---------------------------------------------------------------- provider payloads

  /** A decoded JSON value; `Other` carries the truth value and `str()` of anything else. */
  datatype Json =
    | Null
    | Bool(b: bool)
    | Int(n: int)
    | Str(s: string)
    | Obj(fields: map<string, Json>)
    | Other(truthy: bool, text: string)

  /** Library behaviour the model takes as given: `json.loads`, `UUID(...)`, `str(...)`. */
  datatype Env = Env(loads: string -> Option<Json>, uuid: string -> Option<Tenant>, text: Json -> string)

  function Get(fields: map<string, Json>, name: string): Json {
    if name in fields then fields[name] else Null
  }

  predicate Truthy(v: Json) {
    match v
    case Null => false
    case Bool(b) => b
    case Int(n) => n != 0
    case Str(s) => s != ""
    case Obj(fields) => |fields| > 0
    case Other(truthy, _) => truthy
  }

  function PyOr(a: Json, b: Json): Json {
    if Truthy(a) then a else b
  }

  function PyStr(env: Env, v: Json): string {
    match v
    case Str(s) => s
    case Other(_, text) => text
    case _ => env.text(v)
  }

  function DigitsValue(s: string): Option<nat> {
    if s == "" then Some(0)
    else
      var c := s[|s| - 1];
      match DigitsValue(s[..|s| - 1])
      case Some(n) => if '0' <= c <= '9' then Some(10 * n + (c - '0') as nat) else None
      case None => None
  }

  /** `_provider_amount`: an integer, or a string of digits; never a boolean. */
  function ProviderAmount(v: Json): Option<int> {
    match v
    case Int(n) => Some(n)
    case Str(s) => if s == "" then None else (match DigitsValue(s) case Some(n) => Some(n as int) case None => None)
    case _ => None
  }

  /** `_event_identity`: the event type and the ledger key, or a 400. */
  function EventIdentity(env: Env, payload: map<string, Json>, hash: string): Option<(string, string)> {
    var event := Get(payload, "event");
    if !event.Str? || event.s == "" || |event.s| > 100 then None
    else
      var data := Get(payload, "data");
      var reference := if data.Obj?
                       then PyOr(PyOr(Get(data.fields, "reference"), Get(data.fields, "id")),
                                 Get(data.fields, "subscription_code"))
                       else Null;
      var stable := if reference.Null? then "sha256:" + hash else PyStr(env, reference);
      Some((event.s, Take(event.s + ":" + stable, 255)))
  }

  predicate IsChargeFor(payload: map<string, Json>, ref: string) {
    && Get(payload, "event") == Str("charge.success")
    && Get(payload, "data").Obj?
    && Get(Get(payload, "data").fields, "reference") == Str(ref)
    && 0 < |ref| <= 240
  }

  lemma ChargeIdentity(env: Env, payload: map<string, Json>, ref: string, hash: string)
    requires IsChargeFor(payload, ref)
    ensures EventIdentity(env, payload, hash) == Some(("charge.success", "charge.success" + ":" + ref))
  {
  }

  /** Charge events share a ledger key exactly when they name the same checkout reference, whatever
      else their bodies say. */
  lemma ChargeIdentityIsTheReference(env: Env, p: map<string, Json>, q: map<string, Json>, r: string, t: string,
                                     h: string, k: string)
    requires IsChargeFor(p, r) && IsChargeFor(q, t)
    ensures EventIdentity(env, p, h) == EventIdentity(env, q, k) <==> r == t
  {
    ChargeIdentity(env, p, r, h);
    ChargeIdentity(env, q, t, k);
    var prefix := "charge.success" + ":";
    assert (prefix + r)[15..] == r && (prefix + t)[15..] == t;
  }

  /** No event of another type (type names carry no colon) can occupy a charge's ledger key. */
  lemma ChargeIdentityIsPrivate(env: Env, p: map<string, Json>, q: map<string, Json>, r: string, h: string, k: string)
    requires IsChargeFor(p, r) && EventIdentity(env, q, k).Some?
    requires Get(q, "event") != Str("charge.success") && ':' !in Get(q, "event").s
    ensures EventIdentity(env, p, h).value.1 != EventIdentity(env, q, k).value.1
  {
    ChargeIdentity(env, p, r, h);
    var event, id := Get(q, "event").s, EventIdentity(env, q, k).value.1;
    assert |event| < |id| && id[|event|] == ':' && id[..|event|] == event;
    var own := "charge.success" + ":" + r;
    assert own[14] == ':' && own[..14] == "charge.success";
    assert forall i :: 0 <= i < 14 ==> own[i] != ':';
  }

  // ---------------------------------------------------------------- tables

  datatype Status = PENDING | INITIALIZED | SUCCEEDED | FAILED | EXPIRED
  datatype Quote = Quote(rate: nat, source: string, sourceUrl: string, quotedAt: nat)
  datatype Intent = Intent(
    tenant: Tenant, plan: string, status: Status, amount: int, currency: string,
    displayAmount: Option<nat>, displayCurrency: Option<string>, fx: Option<Quote>,
    expiresAt: nat, url: Option<string>)

  datatype SubStatus = TRIALING | ACTIVE | PAST_DUE | CANCELLED
  datatype Subscription = Subscription(
    tenant: Tenant, plan: string, status: SubStatus, paystack: bool,
    customerRef: Option<string>, subscriptionRef: Option<string>, cancelAtPeriodEnd: bool)
  datatype Invoice = Invoice(tenant: Tenant, subscription: nat, ref: string, amount: int, currency: string)
  /** REJECTED is the stored status FAILED. */
  datatype LedgerStatus = RECEIVED | PROCESSED | REJECTED
  datatype Report = Report(ref: string, amount: Json, currency: Json)
  datatype Call = Call(tenant: Tenant, ref: string)
  datatype Request = Request(tenant: Tenant, ref: string, plan: string, price: nat)
  datatype View = View(request: Request, seen: Option<Intent>, at: nat)

  /** `looking`: requests that have read their row and not acted on it yet. `calling`: requests that
      own a reference and are talking to the provider. `initialized` and `reports` record the past:
      references whose INITIALIZED was committed, success reports seen. */
  datatype State = State(
    now: nat,
    intents: map<string, Intent>,
    subscriptions: seq<Subscription>,
    invoices: seq<Invoice>,
    ledger: map<string, LedgerStatus>,
    looking: map<RequestId, View>,
    calling: map<RequestId, Call>,
    initialized: set<string>,
    reports: set<Report>)

  predicate LiveStatus(status: SubStatus) {
    status in {TRIALING, ACTIVE, PAST_DUE}
  }

  /** Partial unique index `uq_subscriptions_active_tenant`. */
  predicate OneLivePerTenant(subs: seq<Subscription>) {
    forall i, j :: 0 <= i < j < |subs| && LiveStatus(subs[i].status) && LiveStatus(subs[j].status) ==>
      subs[i].tenant != subs[j].tenant
  }

  /** Partial unique index `uq_subscriptions_provider_ref`. */
  predicate OneRowPerProviderRef(subs: seq<Subscription>) {
    forall i, j :: 0 <= i < j < |subs| && subs[i].paystack && subs[j].paystack && subs[i].subscriptionRef.Some? ==>
      subs[i].subscriptionRef != subs[j].subscriptionRef
  }

  // ---------------------------------------------------------------- activation

  /** A transaction's end: committed, a Python error before any table was touched, or a database
      error that undoes everything. */
  datatype Outcome = Committed(state: State) | Raised | Aborted

  /** A nullable text parameter; the driver refuses anything else. */
  predicate TextOrNull(v: Json) {
    v.Null? || v.Str?
  }

  function AsText(v: Json): Option<string> {
    if v.Str? then Some(v.s) else None
  }

  function Coalesce<T>(a: Option<T>, b: Option<T>): Option<T> {
    if a.Some? then a else b
  }

  function LiveIndex(subs: seq<Subscription>, tenant: Tenant): (i: nat)
    ensures i <= |subs|
    ensures i < |subs| ==> subs[i].tenant == tenant && LiveStatus(subs[i].status)
    ensures forall j :: 0 <= j < i ==> !(subs[j].tenant == tenant && LiveStatus(subs[j].status))
  {
    if subs == [] then 0
    else if subs[0].tenant == tenant && LiveStatus(subs[0].status) then 0
    else 1 + LiveIndex(subs[1..], tenant)
  }

  /** `INSERT ... ON CONFLICT (tenant_id) WHERE status IN (...) DO UPDATE`. */
  function UpsertSubscription(subs: seq<Subscription>, tenant: Tenant, plan: string,
                              customer: Option<string>, subRef: Option<string>): seq<Subscription> {
    var i := LiveIndex(subs, tenant);
    if i < |subs| then
      subs[i := subs[i].(plan := plan, status := ACTIVE, paystack := true,
                         customerRef := Coalesce(customer, subs[i].customerRef),
                         subscriptionRef := Coalesce(subRef, subs[i].subscriptionRef))]
    else subs + [Subscription(tenant, plan, ACTIVE, true, customer, subRef, false)]
  }

  predicate HasInvoice(invoices: seq<Invoice>, ref: string) {
    exists i :: 0 <= i < |invoices| && invoices[i].ref == ref
  }

  /** `INSERT ... ON CONFLICT (provider, provider_invoice_ref) DO NOTHING`. */
  function InsertInvoice(invoices: seq<Invoice>, row: Invoice): seq<Invoice> {
    if HasInvoice(invoices, row.ref) then invoices else invoices + [row]
  }

  predicate Matches(intent: Intent, data: map<string, Json>) {
    ProviderAmount(Get(data, "amount")) == Some(intent.amount) && Get(data, "currency") == Str(intent.currency)
  }

  function CustomerRef(data: map<string, Json>): Json {
    var customer := Get(data, "customer");
    if customer.Obj? then Get(customer.fields, "customer_code") else Null
  }

  function SubscriptionRef(data: map<string, Json>): Json {
    var subscription := Get(data, "subscription");
    var nested := if subscription.Obj? then Get(subscription.fields, "subscription_code") else Null;
    PyOr(nested, Get(data, "subscription_code"))
  }

  /** `_activate_checkout`. */
  function Activate(s: State, tenant: Tenant, ref: string, data: map<string, Json>): Outcome {
    if ref !in s.intents || s.intents[ref].tenant != tenant || s.intents[ref].status == SUCCEEDED then Committed(s)
    else if !Matches(s.intents[ref], data) then Raised
    else if !TextOrNull(CustomerRef(data)) || !TextOrNull(SubscriptionRef(data)) then Raised
    else
      var intent := s.intents[ref];
      var subs :=
        UpsertSubscription(s.subscriptions, tenant, intent.plan, AsText(CustomerRef(data)),
                           AsText(SubscriptionRef(data)));
      if !OneLivePerTenant(subs) || !OneRowPerProviderRef(subs) then Aborted
      else Committed(s.(
        subscriptions := subs,
        invoices :=
          InsertInvoice(s.invoices, Invoice(tenant, LiveIndex(subs, tenant), ref, intent.amount, intent.currency)),
        intents := s.intents[ref := intent.(status := SUCCEEDED)]))
  }

  /** `billing.apply_provider_subscription_state(reference, status, TRUE)`. */
  function ApplyProviderState(subs: seq<Subscription>, ref: string, status: SubStatus): seq<Subscription> {
    if subs == [] then []
    else
      [if subs[0].paystack && subs[0].subscriptionRef == Some(ref)
       then subs[0].(status := status, cancelAtPeriodEnd := true) else subs[0]]
      + ApplyProviderState(subs[1..], ref, status)
  }

  /** `_process_webhook`. */
  function ProcessWebhook(env: Env, s: State, eventType: string, data: Json): Outcome {
    if !data.Obj? then Committed(s)
    else
      var reference := Get(data.fields, "reference");
      var metadata := Metadata(env, data.fields);
      if eventType == "charge.success" && reference.Str? && metadata.Obj? then
        var tenant := if "tenant_id" in metadata.fields then env.uuid(PyStr(env, metadata.fields["tenant_id"]))
                      else None;
        (match tenant
         case None => Committed(s)
         case Some(t) => Activate(s, t, reference.s, data.fields))
      else if eventType in {"subscription.disable", "subscription.not_renew"} then
        var code := Get(data.fields, "subscription_code");
        if !Truthy(code) then Committed(s)
        else
          var status := if eventType == "subscription.disable" then CANCELLED else ACTIVE;
          var subs := ApplyProviderState(s.subscriptions, PyStr(env, code), status);
          if OneLivePerTenant(subs) then Committed(s.(subscriptions := subs)) else Aborted
      else Committed(s)
  }

  function Metadata(env: Env, data: map<string, Json>): Json {
    var metadata := Get(data, "metadata");
    if metadata.Str? then (match env.loads(metadata.s) case Some(v) => v case None => Obj(map[])) else metadata
  }

  // ---------------------------------------------------------------- steps

  datatype Step =
    | Look(id: RequestId, request: Request)
    | Begin(id: RequestId, clock: nat, quote: Option<Quote>)
    | Finish(id: RequestId, url: Option<string>)
    | Drop(id: RequestId)
    | Verify(tenant: Tenant, ref: string, data: map<string, Json>)
    | Webhook(payload: map<string, Json>, hash: string, databaseFails: bool)
    | Subscribe(row: Subscription)
    | Tick(later: nat)

  /** `Subscribe` is an insert by another endpoint, such as a trial on sign-up; the unique indexes refuse
      it if it clashes. `clock` is what `datetime.now` said at some moment between the request's read and its update;
      `quote` is the answer of the rate service, if one was asked for. */
  predicate Enabled(s: State, step: Step) {
    match step
    case Look(id, r) => id !in s.looking && id !in s.calling
    case Begin(id, clock, quote) =>
      id in s.looking && id !in s.calling && s.looking[id].at <= clock <= s.now &&
      (quote.Some? ==> MIN_RATE <= quote.value.rate <= MAX_RATE)
    case Finish(id, url) => id in s.calling
    case Subscribe(row) => OneLivePerTenant(s.subscriptions + [row]) && OneRowPerProviderRef(s.subscriptions + [row])
    case Tick(later) => s.now <= later
    case _ => true
  }

  predicate QuoteComplete(e: Intent) {
    e.displayAmount.Some? && e.displayCurrency == Some("USD") && e.currency == "NGN" &&
    e.fx.Some? && e.fx.value.source != "" && e.fx.value.sourceUrl != ""
  }

  datatype Response = Returned(intent: Intent) | Proceed | PlanConflict | InProgress | QuoteExpired | FxUnavailable

  function SetStatus(s: State, ref: string, status: Status): State
    requires ref in s.intents
  {
    s.(intents := s.intents[ref := s.intents[ref].(status := status)])
  }

  function NewIntent(r: Request, quote: Option<Quote>, kobo: nat, clock: nat): Intent {
    Intent(r.tenant, r.plan, PENDING, kobo, "NGN", Some(r.price), Some("USD"), quote, clock + QUOTE_MS, None)
  }

  /** The rows a statement with `tenant_id = ... AND provider_reference = ...` reaches. */
  predicate Reaches(s: State, r: Request) {
    r.ref in s.intents && s.intents[r.ref].tenant == r.tenant
  }

  /** The first SELECT of `initialize_checkout`. */
  function LookUp(s: State, id: RequestId, r: Request): State {
    s.(looking := s.looking[id := View(r, if Reaches(s, r) then Some(s.intents[r.ref]) else None, s.now)])
  }

  /** The rest of `initialize_checkout` up to its first commit, on the row as it was read. */
  function BeginCheckout(s: State, id: RequestId, clock: nat, quote: Option<Quote>): (State, Response)
    requires id in s.looking
  {
    var View(r, seen, _) := s.looking[id];
    var t := s.(looking := s.looking - {id});
    match seen
    case Some(e) =>
      if e.plan != r.plan then (t, PlanConflict)
      else if e.status in {INITIALIZED, SUCCEEDED} then (t, Returned(e))
      else if e.status == PENDING then (t, InProgress)
      else if e.expiresAt <= clock then (if Reaches(s, r) then SetStatus(t, r.ref, EXPIRED) else t, QuoteExpired)
      else if !Reaches(s, r) || s.intents[r.ref].status !in {FAILED, EXPIRED} then (t, InProgress)
      else if QuoteComplete(s.intents[r.ref]) then
        (SetStatus(t, r.ref, PENDING).(calling := s.calling[id := Call(r.tenant, r.ref)]), Proceed)
      else (SetStatus(t, r.ref, PENDING), QuoteExpired)
    case None =>
      match (if quote.Some? then UsdCentsToNgnKobo(r.price, quote.value.rate) else None)
      case None => (t, FxUnavailable)
      case Some(kobo) =>
        if r.ref in s.intents then
          var e := s.intents[r.ref];
          (t, if e.tenant == r.tenant && e.status in {INITIALIZED, SUCCEEDED} then Returned(e) else InProgress)
        else
          (t.(intents := s.intents[r.ref := NewIntent(r, quote, kobo, clock)],
              calling := s.calling[id := Call(r.tenant, r.ref)]), Proceed)
  }

  /** The rest of `initialize_checkout`: record the provider's URL, or the failure. */
  function FinishCheckout(s: State, id: RequestId, url: Option<string>): State
    requires id in s.calling
  {
    var Call(tenant, ref) := s.calling[id];
    var done := s.(calling := s.calling - {id});
    if ref !in s.intents || s.intents[ref].tenant != tenant then done
    else if url.None? then SetStatus(done, ref, FAILED)
    else done.(
      intents := s.intents[ref := s.intents[ref].(status := INITIALIZED, url := url)],
      initialized := s.initialized + {ref})
  }

  /** The part of `verify_checkout` after the provider answered. */
  function VerifyCheckout(s: State, tenant: Tenant, ref: string, data: map<string, Json>): State {
    if ref !in s.intents || s.intents[ref].tenant != tenant || s.intents[ref].status == SUCCEEDED then s
    else if Get(data, "status") != Str("success") then s
    else
      var seen := s.(reports := s.reports + {Report(ref, Get(data, "amount"), Get(data, "currency"))});
      match Activate(seen, tenant, ref, data)
      case Committed(t) => t
      case _ => seen
  }

  function ChargeReports(eventType: string, data: Json): set<Report> {
    if eventType == "charge.success" && data.Obj? && Get(data.fields, "reference").Str?
    then {Report(Get(data.fields, "reference").s, Get(data.fields, "amount"), Get(data.fields, "currency"))}
    else {}
  }

  /** `_paystack_webhook` from the ledger insert on: ledger row and effects share one transaction. */
  function ReceiveWebhook(env: Env, s: State, payload: map<string, Json>, hash: string, databaseFails: bool): State {
    match EventIdentity(env, payload, hash)
    case None => s
    case Some((eventType, id)) =>
      var data := Get(payload, "data");
      var seen := s.(reports := s.reports + ChargeReports(eventType, data));
      if id in s.ledger || databaseFails then seen else LedgerTransaction(env, seen, id, eventType, data)
  }

  function LedgerTransaction(env: Env, s: State, id: string, eventType: string, data: Json): State {
    match ProcessWebhook(env, s, eventType, data)
    case Committed(t) => t.(ledger := t.ledger[id := PROCESSED])
    case Raised => s.(ledger := s.ledger[id := REJECTED])
    case Aborted => s
  }

  function Apply(env: Env, s: State, step: Step): State
    requires Enabled(s, step)
  {
    match step
    case Look(id, r) => LookUp(s, id, r)
    case Begin(id, clock, quote) => BeginCheckout(s, id, clock, quote).0
    case Finish(id, url) => FinishCheckout(s, id, url)
    case Drop(id) => s.(looking := s.looking - {id}, calling := s.calling - {id})
    case Verify(tenant, ref, data) => VerifyCheckout(s, tenant, ref, data)
    case Webhook(payload, hash, fails) => ReceiveWebhook(env, s, payload, hash, fails)
    case Subscribe(row) => s.(subscriptions := s.subscriptions + [row])
    case Tick(later) => s.(now := later)
  }

  /** Before the first step: checkouts older than FX quoting may exist, unpaid. */
  ghost predicate Init(s: State) {
    && s.invoices == [] && s.ledger == map[] && s.looking == map[] && s.calling == map[] && s.reports == {}
    && OneLivePerTenant(s.subscriptions) && OneRowPerProviderRef(s.subscriptions)
    && (forall ref :: ref in s.intents ==>
          var e := s.intents[ref];
          e.fx.None? && e.status != SUCCEEDED && (e.status == EXPIRED ==> e.expiresAt <= s.now) &&
          (ref in s.initialized <==> e.status == INITIALIZED))
    && (forall ref :: ref in s.initialized ==> ref in s.intents)
  }

  ghost predicate CanRun(env: Env, s: State, steps: seq<Step>)
    decreases |steps|
  {
    steps == [] || (Enabled(s, steps[0]) && CanRun(env, Apply(env, s, steps[0]), steps[1..]))
  }

  ghost function After(env: Env, s: State, steps: seq<Step>): State
    requires CanRun(env, s, steps)
    decreases |steps|
  {
    if steps == [] then s else After(env, Apply(env, s, steps[0]), steps[1..])
  }

  // ---------------------------------------------------------------- money: every interleaving

  ghost predicate BillingInv(s: State) {
    && OneLivePerTenant(s.subscriptions)
    && OneRowPerProviderRef(s.subscriptions)
    && (forall i, j :: 0 <= i < j < |s.invoices| ==> s.invoices[i].ref != s.invoices[j].ref)
    && (forall i :: 0 <= i < |s.invoices| ==> PaidAsLocked(s, s.invoices[i]))
    && (forall ref :: ref in s.intents && s.intents[ref].status == SUCCEEDED ==> HasInvoice(s.invoices, ref))
    && (forall ref :: ref in s.intents ==> QuotedFairly(s.intents[ref]))
  }

  /** The invoice bills its checkout's locked amount and currency, and the provider said so. */
  ghost predicate PaidAsLocked(s: State, row: Invoice) {
    && row.ref in s.intents
    && var e := s.intents[row.ref];
    && row.tenant == e.tenant && row.amount == e.amount && row.currency == e.currency
    && exists r :: r in s.reports && r.ref == row.ref && ProviderAmount(r.amount) == Some(row.amount) &&
                   r.currency == Str(row.currency)
  }

  /** An amount created by the quoting code is the display price at the stored rate, rounded half up. */
  predicate QuotedFairly(e: Intent) {
    e.fx.Some? ==>
      e.displayAmount.Some? && e.currency == "NGN" && MIN_RATE <= e.fx.value.rate <= MAX_RATE &&
      UsdCentsToNgnKobo(e.displayAmount.value, e.fx.value.rate) == (if e.amount >= 0 then Some(e.amount) else None) &&
      e.amount > 0
  }

  /** Everything about a checkout except its progress. */
  function Locked(e: Intent): Intent {
    e.(status := PENDING, url := None)
  }

  /** Activation by itself can never leave a tenant with two live subscriptions: the upsert reuses
      the live row. Only a clash on the provider's subscription reference can make it fail. */
  lemma ActivationKeepsOneLiveSubscription(subs: seq<Subscription>, tenant: Tenant, plan: string,
                                           customer: Option<string>, subRef: Option<string>)
    requires OneLivePerTenant(subs)
    ensures var after := UpsertSubscription(subs, tenant, plan, customer, subRef);
            && OneLivePerTenant(after)
            && LiveIndex(after, tenant) < |after|
            && after[LiveIndex(after, tenant)].plan == plan
            && (forall i :: 0 <= i < |subs| && subs[i].tenant != tenant ==> after[i] == subs[i])
  {
    var after := UpsertSubscription(subs, tenant, plan, customer, subRef);
    var i := LiveIndex(subs, tenant);
    assert after[i].tenant == tenant && LiveStatus(after[i].status);
    assert forall j :: 0 <= j < i ==> after[j] == subs[j];
  }

  /** The billing invariant, every old invoice and every locked column survive. */
  ghost predicate KeepsBilling(s: State, t: State) {
    && BillingInv(t) && s.invoices <= t.invoices
    && forall r :: r in s.intents ==> r in t.intents && Locked(t.intents[r]) == Locked(s.intents[r])
  }

  lemma ProgressIsNotPrice(e: Intent, status: Status)
    requires QuotedFairly(e)
    ensures QuotedFairly(e.(status := status))
  {
  }

  lemma InvoiceRecorded(invoices: seq<Invoice>, row: Invoice)
    ensures var after := InsertInvoice(invoices, row);
            invoices <= after && HasInvoice(after, row.ref) &&
            forall r :: HasInvoice(invoices, r) ==> HasInvoice(after, r)
  {
    var after := InsertInvoice(invoices, row);
    if !HasInvoice(invoices, row.ref) {
      assert after[|invoices|].ref == row.ref;
    }
    forall r | HasInvoice(invoices, r) ensures HasInvoice(after, r) {
      var i :| 0 <= i < |invoices| && invoices[i].ref == r;
      assert after[i].ref == r;
    }
  }

  lemma PaidStays(s: State, t: State, row: Invoice)
    requires PaidAsLocked(s, row) && s.reports <= t.reports
    requires forall r :: r in s.intents ==> r in t.intents && Locked(t.intents[r]) == Locked(s.intents[r])
    ensures PaidAsLocked(t, row)
  {
    assert Locked(t.intents[row.ref]) == Locked(s.intents[row.ref]);
  }

  lemma ActivateEffect(s: State, tenant: Tenant, ref: string, data: map<string, Json>)
    requires BillingInv(s) && Activate(s, tenant, ref, data).Committed?
    requires Report(ref, Get(data, "amount"), Get(data, "currency")) in s.reports
    ensures var t := Activate(s, tenant, ref, data).state;
            KeepsBilling(s, t) &&
            t == s.(subscriptions := t.subscriptions, invoices := t.invoices, intents := t.intents)
  {
    hide OneLivePerTenant, OneRowPerProviderRef, QuotedFairly, UpsertSubscription, HasInvoice;
    var t := Activate(s, tenant, ref, data).state;
    if t != s {
      var intent := s.intents[ref];
      var row := Invoice(tenant, LiveIndex(t.subscriptions, tenant), ref, intent.amount, intent.currency);
      ProgressIsNotPrice(intent, SUCCEEDED);
      InvoiceRecorded(s.invoices, row);
      InvoicesStayDistinct(s.invoices, row);
      forall i | 0 <= i < |t.invoices| ensures PaidAsLocked(t, t.invoices[i]) {
        if i < |s.invoices| {
          PaidStays(s, t, s.invoices[i]);
        }
      }
    }
  }

  lemma InvoicesStayDistinct(invoices: seq<Invoice>, row: Invoice)
    requires forall i, j :: 0 <= i < j < |invoices| ==> invoices[i].ref != invoices[j].ref
    ensures var after := InsertInvoice(invoices, row);
      forall i, j :: 0 <= i < j < |after| ==> after[i].ref != after[j].ref
  {
  }

  lemma {:induction false} ProviderStateKeepsRefs(subs: seq<Subscription>, ref: string, status: SubStatus)
    ensures var after := ApplyProviderState(subs, ref, status);
            |after| == |subs| &&
            forall i :: 0 <= i < |subs| ==>
              after[i] == (if subs[i].paystack && subs[i].subscriptionRef == Some(ref)
                           then subs[i].(status := status, cancelAtPeriodEnd := true) else subs[i])
  {
    if subs == [] {
    } else {
      ProviderStateKeepsRefs(subs[1..], ref, status);
    }
  }

  lemma MoreReportsAreFine(s: State, more: set<Report>)
    requires BillingInv(s)
    ensures BillingInv(s.(reports := s.reports + more))
  {
    var t := s.(reports := s.reports + more);
    forall i | 0 <= i < |t.invoices| ensures PaidAsLocked(t, t.invoices[i]) {
      assert PaidAsLocked(s, s.invoices[i]);
    }
  }

  lemma ProviderStateEffect(s: State, ref: string, status: SubStatus)
    requires BillingInv(s) && OneLivePerTenant(ApplyProviderState(s.subscriptions, ref, status))
    ensures KeepsBilling(s, s.(subscriptions := ApplyProviderState(s.subscriptions, ref, status)))
  {
    hide PaidAsLocked;
    var t := s.(subscriptions := ApplyProviderState(s.subscriptions, ref, status));
    ProviderStateKeepsRefs(s.subscriptions, ref, status);
    forall i | 0 <= i < |t.invoices| ensures PaidAsLocked(t, t.invoices[i]) {
      PaidStays(s, t, s.invoices[i]);
    }
  }

  lemma ProcessEffect(env: Env, s: State, eventType: string, data: Json)
    requires BillingInv(s) && ProcessWebhook(env, s, eventType, data).Committed?
    requires ChargeReports(eventType, data) <= s.reports
    ensures var t := ProcessWebhook(env, s, eventType, data).state;
            KeepsBilling(s, t) &&
            t == s.(subscriptions := t.subscriptions, invoices := t.invoices, intents := t.intents)
  {
    hide BillingInv, Activate, ApplyProviderState, Metadata;
    if data.Obj? {
      var reference := Get(data.fields, "reference");
      var metadata := Metadata(env, data.fields);
      if eventType == "charge.success" && reference.Str? && metadata.Obj? {
        if "tenant_id" in metadata.fields {
          match env.uuid(PyStr(env, metadata.fields["tenant_id"]))
          case None =>
          case Some(t) =>
            assert Report(reference.s, Get(data.fields, "amount"),
                          Get(data.fields, "currency")) in ChargeReports(eventType, data);
            ActivateEffect(s, t, reference.s, data.fields);
        }
      } else if eventType in {"subscription.disable", "subscription.not_renew"} {
        if Truthy(Get(data.fields, "subscription_code")) {
          var status := if eventType == "subscription.disable" then CANCELLED else ACTIVE;
          ProviderStateEffect(s, PyStr(env, Get(data.fields, "subscription_code")), status);
        }
      }
    }
  }

  lemma VerifyKeepsBilling(s: State, tenant: Tenant, ref: string, data: map<string, Json>)
    requires BillingInv(s)
    ensures KeepsBilling(s, VerifyCheckout(s, tenant, ref, data))
  {
    var more := {Report(ref, Get(data, "amount"), Get(data, "currency"))};
    MoreReportsAreFine(s, more);
    var seen := s.(reports := s.reports + more);
    var result := Activate(seen, tenant, ref, data);
    if result.Committed? {
      ActivateEffect(seen, tenant, ref, data);
    }
    hide BillingInv, Activate;
  }

  lemma WebhookKeepsBilling(env: Env, s: State, payload: map<string, Json>, hash: string, fails: bool)
    requires BillingInv(s)
    ensures KeepsBilling(s, ReceiveWebhook(env, s, payload, hash, fails))
  {
    hide BillingInv, ProcessWebhook, EventIdentity, ChargeReports;
    var identity := EventIdentity(env, payload, hash);
    if identity.Some? {
      var (eventType, data) := (identity.value.0, Get(payload, "data"));
      var reports := ChargeReports(eventType, data);
      MoreReportsAreFine(s, reports);
      var seen := s.(reports := s.reports + reports);
      if ProcessWebhook(env, seen, eventType, data).Committed? {
        ProcessEffect(env, seen, eventType, data);
        LedgerIsNotMoney(ProcessWebhook(env, seen, eventType, data).state, identity.value.1, PROCESSED);
      }
      LedgerIsNotMoney(seen, identity.value.1, REJECTED);
    }
  }

  lemma BillingInvStep(env: Env, s: State, step: Step)
    requires BillingInv(s) && Enabled(s, step)
    ensures KeepsBilling(s, Apply(env, s, step))
  {
    match step
    case Look(id, r) => OnlyProgressChanged(s, Apply(env, s, step));
    case Begin(id, clock, quote) => BeginKeepsBilling(s, id, clock, quote);
    case Finish(id, url) => FinishKeepsBilling(s, id, url);
    case Verify(tenant, ref, data) => VerifyKeepsBilling(s, tenant, ref, data);
    case Webhook(payload, hash, fails) => WebhookKeepsBilling(env, s, payload, hash, fails);
    case Drop(id) => OnlyProgressChanged(s, Apply(env, s, step));
    case Subscribe(row) => SubscribeKeepsBilling(s, row);
    case Tick(later) => OnlyProgressChanged(s, Apply(env, s, step));
  }

  lemma SubscribeKeepsBilling(s: State, row: Subscription)
    requires BillingInv(s) && OneLivePerTenant(s.subscriptions + [row]) && OneRowPerProviderRef(s.subscriptions + [row])
    ensures KeepsBilling(s, s.(subscriptions := s.subscriptions + [row]))
  {
    hide OneLivePerTenant, OneRowPerProviderRef, PaidAsLocked, QuotedFairly;
    var t := s.(subscriptions := s.subscriptions + [row]);
    forall i | 0 <= i < |t.invoices| ensures PaidAsLocked(t, t.invoices[i]) {
      PaidStays(s, t, s.invoices[i]);
    }
  }

  lemma LedgerIsNotMoney(s: State, id: string, status: LedgerStatus)
    requires BillingInv(s)
    ensures BillingInv(s.(ledger := s.ledger[id := status]))
  {
    OnlyProgressChanged(s, s.(ledger := s.ledger[id := status]));
  }

  lemma OnlyProgressChanged(s: State, t: State)
    requires BillingInv(s)
    requires t.subscriptions == s.subscriptions && t.invoices == s.invoices && s.reports == t.reports
    requires forall r :: r in s.intents ==> r in t.intents && Locked(t.intents[r]) == Locked(s.intents[r])
    requires forall r :: r in t.intents && r !in s.intents ==> QuotedFairly(t.intents[r])
    requires forall r :: r in t.intents && t.intents[r].status == SUCCEEDED ==>
               r in s.intents && s.intents[r].status == SUCCEEDED
    ensures BillingInv(t)
  {
    forall i | 0 <= i < |t.invoices| ensures PaidAsLocked(t, t.invoices[i]) {
      assert PaidAsLocked(s, s.invoices[i]);
      assert Locked(t.intents[t.invoices[i].ref]) == Locked(s.intents[t.invoices[i].ref]);
    }
    forall r | r in t.intents ensures QuotedFairly(t.intents[r]) {
      if r in s.intents {
        assert QuotedFairly(s.intents[r]) && Locked(t.intents[r]) == Locked(s.intents[r]);
      }
    }
  }

  lemma BeginKeepsBilling(s: State, id: RequestId, clock: nat, quote: Option<Quote>)
    requires BillingInv(s) && Enabled(s, Begin(id, clock, quote))
    ensures KeepsBilling(s, BeginCheckout(s, id, clock, quote).0)
  {
    var t, r := BeginCheckout(s, id, clock, quote).0, s.looking[id].request;
    BeginShape(s, id, clock, quote);
    if r.ref !in s.intents && r.ref in t.intents {
      NewIntentIsFair(r, quote, t.intents[r.ref].amount, clock);
    }
    hide BeginCheckout, QuotedFairly;
    OnlyProgressChanged(s, t);
  }

  /** The request read a FAILED or EXPIRED row of its plan. */
  predicate Retries(v: View) {
    v.seen.Some? && v.seen.value.plan == v.request.plan && v.seen.value.status in {FAILED, EXPIRED}
  }

  /** Acting on the row that was read changes one checkout at most: to EXPIRED whatever its status is
      by now, from FAILED or EXPIRED to PENDING, or as a new row. */
  lemma BeginShape(s: State, id: RequestId, clock: nat, quote: Option<Quote>)
    requires id in s.looking
    ensures var t, v := BeginCheckout(s, id, clock, quote).0, s.looking[id];
            var r := v.request;
            && t == s.(intents := t.intents, calling := t.calling, looking := s.looking - {id})
            && (t.calling == s.calling || t.calling == s.calling[id := Call(r.tenant, r.ref)])
            && (|| t.intents == s.intents
                || (Reaches(s, r) && Retries(v) && v.seen.value.expiresAt <= clock && t.calling == s.calling &&
                    t.intents == s.intents[r.ref := s.intents[r.ref].(status := EXPIRED)])
                || (Reaches(s, r) && Retries(v) && v.seen.value.expiresAt > clock &&
                    s.intents[r.ref].status in {FAILED, EXPIRED} &&
                    t.intents == s.intents[r.ref := s.intents[r.ref].(status := PENDING)])
                || (r.ref !in s.intents && quote.Some? &&
                    exists kobo :: UsdCentsToNgnKobo(r.price, quote.value.rate) == Some(kobo) &&
                                   t.intents == s.intents[r.ref := NewIntent(r, quote, kobo, clock)]))
            && (t.calling != s.calling ==> t.intents != s.intents && t.intents[r.ref].status == PENDING)
  {
  }

  lemma NewIntentIsFair(r: Request, quote: Option<Quote>, kobo: nat, clock: nat)
    requires quote.Some? && MIN_RATE <= quote.value.rate <= MAX_RATE
    requires UsdCentsToNgnKobo(r.price, quote.value.rate) == Some(kobo)
    ensures QuotedFairly(NewIntent(r, quote, kobo, clock))
  {
    SettlementIsFaithful(r.price, quote.value.rate);
  }

  /** Provider news changes one checkout at most, and only to SUCCEEDED, with its invoice. */
  ghost predicate SettledOnly(s: State, t: State, ref: string) {
    (t.intents == s.intents && t.invoices == s.invoices) ||
    (&& ref in s.intents
     && t.intents == s.intents[ref := s.intents[ref].(status := SUCCEEDED)]
     && (t.invoices == s.invoices ||
         (|t.invoices| == |s.invoices| + 1 && s.invoices <= t.invoices && t.invoices[|s.invoices|].ref == ref)))
  }

  lemma VerifyShape(s: State, tenant: Tenant, ref: string, data: map<string, Json>)
    ensures var t := VerifyCheckout(s, tenant, ref, data);
            && t ==
               s.(intents := t.intents, subscriptions := t.subscriptions, invoices := t.invoices, reports := t.reports)
            && SettledOnly(s, t, ref)
            && (t.intents != s.intents ==> Get(data, "status") == Str("success"))
  {
  }

  lemma ProcessShape(env: Env, s: State, eventType: string, data: Json)
    requires ProcessWebhook(env, s, eventType, data).Committed?
    ensures var t := ProcessWebhook(env, s, eventType, data).state;
            && t == s.(intents := t.intents, subscriptions := t.subscriptions, invoices := t.invoices)
            && ((t.intents == s.intents && t.invoices == s.invoices) ||
                (eventType == "charge.success" && data.Obj? && Get(data.fields, "reference").Str? &&
                 SettledOnly(s, t, Get(data.fields, "reference").s)))
  {
  }

  lemma WebhookShape(env: Env, s: State, payload: map<string, Json>, hash: string, fails: bool)
    ensures var t := ReceiveWebhook(env, s, payload, hash, fails);
            && t == s.(intents := t.intents, subscriptions := t.subscriptions, invoices := t.invoices,
                       reports := t.reports, ledger := t.ledger)
            && ((t.intents == s.intents && t.invoices == s.invoices) ||
                (Get(payload, "event") == Str("charge.success") && Get(payload, "data").Obj? &&
                 Get(Get(payload, "data").fields, "reference").Str? &&
                 SettledOnly(s, t, Get(Get(payload, "data").fields, "reference").s)))
  {
    var identity := EventIdentity(env, payload, hash);
    if identity.Some? {
      var (eventType, data) := (identity.value.0, Get(payload, "data"));
      var seen := s.(reports := s.reports + ChargeReports(eventType, data));
      if ProcessWebhook(env, seen, eventType, data).Committed? {
        ProcessShape(env, seen, eventType, data);
      }
    }
  }

  lemma WebhookLedger(env: Env, s: State, payload: map<string, Json>, hash: string, fails: bool)
    ensures var t := ReceiveWebhook(env, s, payload, hash, fails);
            var identity := EventIdentity(env, payload, hash);
            && (Books(t) == Books(s) ||
                (identity.Some? && identity.value.1 !in s.ledger &&
                 t.ledger == s.ledger[identity.value.1 := PROCESSED]))
            && (t.ledger == s.ledger || (identity.Some? && identity.value.1 !in s.ledger &&
                (t.ledger == s.ledger[identity.value.1 := PROCESSED] ||
                 t.ledger == s.ledger[identity.value.1 := REJECTED])))
  {
    hide ProcessWebhook, EventIdentity;
    var identity := EventIdentity(env, payload, hash);
    if identity.Some? {
      var (eventType, data) := (identity.value.0, Get(payload, "data"));
      var seen := s.(reports := s.reports + ChargeReports(eventType, data));
      if ProcessWebhook(env, seen, eventType, data).Committed? {
        ProcessShape(env, seen, eventType, data);
      }
    }
  }

  lemma FinishKeepsBilling(s: State, id: RequestId, url: Option<string>)
    requires BillingInv(s) && id in s.calling
    ensures KeepsBilling(s, FinishCheckout(s, id, url))
  {
    OnlyProgressChanged(s, FinishCheckout(s, id, url));
  }

  /** Over every interleaving of requests, duplicated or reordered webhooks, browser verifications,
      crashes and database failures: one invoice per reference, billing exactly what was locked and
      what the provider reported; one live subscription per tenant; locked columns never change. */
  lemma {:induction false} BillingIsSafe(env: Env, s: State, steps: seq<Step>)
    requires BillingInv(s) && CanRun(env, s, steps)
    ensures KeepsBilling(s, After(env, s, steps))
    decreases |steps|
  {
    if steps == [] {
    } else {
      BillingInvStep(env, s, steps[0]);
      BillingIsSafe(env, Apply(env, s, steps[0]), steps[1..]);
    }
  }

  // ---------------------------------------------------------------- the webhook ledger

  /** The ledger key a delivery writes under. */
  function DeliveryId(env: Env, step: Step): Option<string> {
    if step.Webhook? then
      (match EventIdentity(env, step.payload, step.hash) case Some((_, id)) => Some(id) case None => None)
    else None
  }

  /** The tables an event can act on. */
  function Books(s: State): (map<string, Intent>, seq<Subscription>, seq<Invoice>) {
    (s.intents, s.subscriptions, s.invoices)
  }

  /** A delivery that acts on the books also writes its ledger row PROCESSED in the same step, and
      only if the row was absent; existing ledger rows never change. */
  lemma EffectsCommitWithTheLedger(env: Env, s: State, step: Step)
    requires Enabled(s, step)
    ensures var t := Apply(env, s, step);
            (forall id :: id in s.ledger ==> id in t.ledger && t.ledger[id] == s.ledger[id]) &&
            (step.Webhook? && Books(t) != Books(s) ==>
               DeliveryId(env, step).Some? && DeliveryId(env, step).value !in s.ledger &&
               DeliveryId(env, step).value in t.ledger && t.ledger[DeliveryId(env, step).value] == PROCESSED) &&
            (t.ledger != s.ledger ==>
             step.Webhook? && DeliveryId(env, step).Some? && DeliveryId(env, step).value !in s.ledger)
  {
    match step
    case Webhook(payload, hash, fails) => WebhookLedger(env, s, payload, hash, fails);
    case Begin(id, clock, quote) => BeginShape(s, id, clock, quote);
    case Verify(tenant, ref, data) => VerifyShape(s, tenant, ref, data);
    case _ =>
  }

  ghost function Effects(env: Env, s: State, steps: seq<Step>, id: string): nat
    requires CanRun(env, s, steps)
    decreases |steps|
  {
    if steps == [] then 0
    else
      var t := Apply(env, s, steps[0]);
      (if DeliveryId(env, steps[0]) == Some(id) && Books(t) != Books(s) then 1 else 0) + Effects(env, t, steps[1..], id)
  }

  /** However often an event is delivered, it acts at most once in a whole run. */
  lemma {:induction false} EachEventActsAtMostOnce(env: Env, s: State, steps: seq<Step>, id: string)
    requires CanRun(env, s, steps)
    ensures Effects(env, s, steps, id) <= (if id in s.ledger then 0 else 1)
    decreases |steps|
  {
    if steps == [] {
    } else {
      EffectsCommitWithTheLedger(env, s, steps[0]);
      EachEventActsAtMostOnce(env, Apply(env, s, steps[0]), steps[1..], id);
    }
  }

  // ---------------------------------------------------------------- progress of one checkout

  /** The provider confirms a payment only for a checkout whose INITIALIZED was committed. */
  predicate HonestProvider(s: State, step: Step) {
    match step
    case Verify(tenant, ref, data) => Get(data, "status") == Str("success") ==> ref in s.initialized
    case Webhook(payload, hash, fails) =>
      Get(payload, "event") == Str("charge.success") && Get(payload, "data").Obj? ==>
        var ref := Get(Get(payload, "data").fields, "reference");
        ref.Str? ==> ref.s in s.initialized
    case _ => true
  }

  /** When a retry acts, its checkout is still FAILED or EXPIRED, and the quote did not run out since
      the clock was read: what holds if the stretch from its read to its commit is undisturbed. */
  predicate Undisturbed(s: State, step: Step)
    requires Enabled(s, step)
  {
    step.Begin? && Retries(s.looking[step.id]) && Reaches(s, s.looking[step.id].request) ==>
      var e := s.intents[s.looking[step.id].request.ref];
      e.status in {FAILED, EXPIRED} && (e.expiresAt <= step.clock || s.now < e.expiresAt)
  }

  ghost predicate HonestRun(env: Env, s: State, steps: seq<Step>)
    requires CanRun(env, s, steps)
    decreases |steps|
  {
    steps == [] || (HonestProvider(s, steps[0]) && HonestRun(env, Apply(env, s, steps[0]), steps[1..]))
  }

  ghost predicate UndisturbedRun(env: Env, s: State, steps: seq<Step>)
    requires CanRun(env, s, steps)
    decreases |steps|
  {
    steps == [] || (Undisturbed(s, steps[0]) && UndisturbedRun(env, Apply(env, s, steps[0]), steps[1..]))
  }

  /** What a request read is its own row, up to progress. */
  ghost predicate ViewInv(s: State) {
    forall id :: id in s.looking && s.looking[id].seen.Some? ==>
      var v := s.looking[id];
      Reaches(s, v.request) && Locked(v.seen.value) == Locked(s.intents[v.request.ref])
  }

  ghost predicate OneOwner(s: State) {
    forall a, b :: a in s.calling && b in s.calling && s.calling[a].ref == s.calling[b].ref ==> a == b
  }

  /** A reference that is owned has one owner, and its checkout is PENDING. */
  ghost predicate SoleOwners(s: State) {
    && OneOwner(s)
    && (forall id :: id in s.calling ==>
          var call := s.calling[id];
          call.ref in s.intents && s.intents[call.ref].tenant == call.tenant && s.intents[call.ref].status == PENDING)
  }

  ghost predicate OwnershipInv(s: State) {
    && SoleOwners(s)
    && (forall ref :: ref in s.initialized <==> ref in s.intents && s.intents[ref].status in {INITIALIZED, SUCCEEDED})
    && (forall ref :: ref in s.intents && s.intents[ref].status == EXPIRED ==> s.intents[ref].expiresAt <= s.now)
    && (forall i :: 0 <= i < |s.invoices| ==>
          s.invoices[i].ref in s.intents && s.intents[s.invoices[i].ref].status == SUCCEEDED)
  }

  ghost predicate ProgressInv(s: State) {
    ViewInv(s) && OwnershipInv(s)
  }

  /** The only moves a checkout makes. */
  predicate Move(before: Status, after: Status) {
    || before == after
    || (before == PENDING && after in {INITIALIZED, FAILED})
    || (before == INITIALIZED && after == SUCCEEDED)
    || (before == FAILED && after in {PENDING, EXPIRED})
  }

  ghost predicate Moved(s: State, t: State) {
    forall ref :: ref in s.intents ==> ref in t.intents && Move(s.intents[ref].status, t.intents[ref].status)
  }

  lemma ViewsStayTrue(s: State, t: State)
    requires ViewInv(s)
    requires forall r :: r in s.intents ==> r in t.intents && Locked(t.intents[r]) == Locked(s.intents[r])
    requires forall id :: id in t.looking ==> id in s.looking && t.looking[id] == s.looking[id]
    ensures ViewInv(t)
  {
    forall id | id in t.looking && t.looking[id].seen.Some?
      ensures var v := t.looking[id]; Reaches(t, v.request) && Locked(v.seen.value) == Locked(t.intents[v.request.ref])
    {
      var ref := s.looking[id].request.ref;
      assert Locked(t.intents[ref]) == Locked(s.intents[ref]);
    }
  }

  /** Nobody owns a checkout that is not PENDING; it may move, and a new owner may take it. */
  lemma UnownedMoves(s: State, t: State, ref: string, id: RequestId, call: Call)
    requires OwnershipInv(s) && id !in s.calling && (ref in s.intents ==> s.intents[ref].status in {FAILED, EXPIRED})
    requires t.now == s.now && t.invoices == s.invoices && t.initialized == s.initialized
    requires ref in t.intents && t.intents == s.intents[ref := t.intents[ref]]
    requires t.intents[ref].status == PENDING || (t.intents[ref].status == EXPIRED && t.intents[ref].expiresAt <= t.now)
    requires t.calling == s.calling ||
             (t.calling == s.calling[id := call] && call.ref == ref && t.intents[ref].tenant == call.tenant &&
              t.intents[ref].status == PENDING)
    ensures OwnershipInv(t)
  {
    assert forall k :: k in t.intents && k != ref ==> t.intents[k] == s.intents[k];
    assert forall a :: a in s.calling ==> s.calling[a].ref != ref;
    assert ref !in s.initialized;
  }

  lemma BeginProgress(s: State, id: RequestId, clock: nat, quote: Option<Quote>)
    requires ProgressInv(s) && Enabled(s, Begin(id, clock, quote)) && Undisturbed(s, Begin(id, clock, quote))
    ensures var t := BeginCheckout(s, id, clock, quote).0; ProgressInv(t) && Moved(s, t)
  {
    var v := s.looking[id];
    var r, t := v.request, BeginCheckout(s, id, clock, quote).0;
    BeginShape(s, id, clock, quote);
    assert Retries(v) ==> Reaches(s, r) && Locked(v.seen.value).expiresAt == Locked(s.intents[r.ref]).expiresAt;
    ViewsStayTrue(s, t);
    BeginMoves(s, id, clock, quote);
    hide BeginCheckout, ViewInv, OwnershipInv;
    if t.intents == s.intents {
      CallingAlone(s, t);
    } else {
      UnownedMoves(s, t, r.ref, id, Call(r.tenant, r.ref));
    }
  }

  lemma CallingAlone(s: State, t: State)
    requires OwnershipInv(s) && t.intents == s.intents && t.calling == s.calling
    requires t.now == s.now && t.invoices == s.invoices && t.initialized == s.initialized
    ensures OwnershipInv(t)
  {
  }

  /** An undisturbed first stretch makes only allowed moves: the unguarded EXPIRED update included. */
  lemma BeginMoves(s: State, id: RequestId, clock: nat, quote: Option<Quote>)
    requires ProgressInv(s) && Enabled(s, Begin(id, clock, quote)) && Undisturbed(s, Begin(id, clock, quote))
    ensures var t, ref := BeginCheckout(s, id, clock, quote).0, s.looking[id].request.ref;
            && Moved(s, t)
            && (t.intents != s.intents ==>
                  && (ref in s.intents ==> s.intents[ref].status in {FAILED, EXPIRED})
                  && (t.intents[ref].status == PENDING ||
                      (t.intents[ref].status == EXPIRED && t.intents[ref].expiresAt <= t.now)))
  {
    var v := s.looking[id];
    BeginShape(s, id, clock, quote);
    assert Retries(v) ==> Locked(v.seen.value).expiresAt == Locked(s.intents[v.request.ref]).expiresAt;
    assert Retries(v) && s.intents[v.request.ref].status == EXPIRED ==> s.intents[v.request.ref].expiresAt <= s.now;
    hide BeginCheckout, ViewInv, OwnershipInv;
  }

  lemma FinishShape(s: State, id: RequestId, url: Option<string>)
    requires id in s.calling && s.calling[id].ref in s.intents
    requires s.intents[s.calling[id].ref].tenant == s.calling[id].tenant
    ensures var t, ref := FinishCheckout(s, id, url), s.calling[id].ref;
            && t == s.(intents := t.intents, calling := s.calling - {id}, initialized := t.initialized)
            && ref in t.intents && t.intents == s.intents[ref := t.intents[ref]]
            && Locked(t.intents[ref]) == Locked(s.intents[ref])
            && t.intents[ref].status in {FAILED, INITIALIZED}
            && t.initialized == (if t.intents[ref].status == INITIALIZED then s.initialized + {ref} else s.initialized)
  {
  }

  lemma FinishProgress(s: State, id: RequestId, url: Option<string>)
    requires ProgressInv(s) && id in s.calling
    ensures var t := FinishCheckout(s, id, url); ProgressInv(t) && Moved(s, t)
  {
    var t, own := FinishCheckout(s, id, url), s.calling[id].ref;
    assert own in s.intents && s.intents[own].status == PENDING && s.intents[own].tenant == s.calling[id].tenant;
    FinishShape(s, id, url);
    hide ViewInv, OwnershipInv, FinishCheckout;
    assert forall ref :: ref in t.intents && ref != own ==> t.intents[ref] == s.intents[ref];
    ViewsStayTrue(s, t);
    OwnerFinishes(s, t, id);
  }

  lemma OwnerFinishes(s: State, t: State, id: RequestId)
    requires OwnershipInv(s) && id in s.calling && t.calling == s.calling - {id}
    requires var ref := s.calling[id].ref;
             && ref in t.intents && t.intents == s.intents[ref := t.intents[ref]]
             && t.intents[ref].status in {FAILED, INITIALIZED}
             && t.initialized == (if t.intents[ref].status == INITIALIZED then s.initialized + {ref} else s.initialized)
    requires t.now == s.now && t.invoices == s.invoices
    ensures OwnershipInv(t)
  {
    var own := s.calling[id].ref;
    assert forall ref :: ref in t.intents && ref != own ==> t.intents[ref] == s.intents[ref];
  }

  lemma SettlementProgress(s: State, t: State, ref: string)
    requires ProgressInv(s) && SettledOnly(s, t, ref) && (ref in s.initialized || t.intents == s.intents)
    requires t.calling == s.calling && t.looking == s.looking && t.initialized == s.initialized && t.now == s.now
    ensures ProgressInv(t) && Moved(s, t)
  {
    ViewsStayTrue(s, t);
    hide ViewInv;
  }

  /** Reading, giving up, a trial elsewhere and time passing touch no checkout. */
  lemma QuietProgress(env: Env, s: State, step: Step)
    requires ProgressInv(s) && Enabled(s, step) && (step.Look? || step.Drop? || step.Subscribe? || step.Tick?)
    ensures ProgressInv(Apply(env, s, step)) && Moved(s, Apply(env, s, step))
  {
  }

  lemma WebhookProgress(env: Env, s: State, step: Step)
    requires ProgressInv(s) && step.Webhook? && HonestProvider(s, step)
    ensures ProgressInv(Apply(env, s, step)) && Moved(s, Apply(env, s, step))
  {
    hide ProgressInv, ReceiveWebhook;
    var t := ReceiveWebhook(env, s, step.payload, step.hash, step.databaseFails);
    WebhookShape(env, s, step.payload, step.hash, step.databaseFails);
    var same := t.intents == s.intents && t.invoices == s.invoices;
    SettlementProgress(s, t, if same then "" else Get(Get(step.payload, "data").fields, "reference").s);
  }

  lemma ProgressStep(env: Env, s: State, step: Step)
    requires ProgressInv(s) && Enabled(s, step) && HonestProvider(s, step) && Undisturbed(s, step)
    ensures ProgressInv(Apply(env, s, step)) && Moved(s, Apply(env, s, step))
  {
    hide ProgressInv, Moved, BeginCheckout, FinishCheckout, VerifyCheckout;
    match step
    case Begin(id, clock, quote) => BeginProgress(s, id, clock, quote);
    case Finish(id, url) => FinishProgress(s, id, url);
    case Verify(tenant, ref, data) =>
      VerifyShape(s, tenant, ref, data);
      SettlementProgress(s, VerifyCheckout(s, tenant, ref, data), ref);
    case Webhook(payload, hash, fails) => WebhookProgress(env, s, step);
    case _ => QuietProgress(env, s, step);
  }

  /** With an honest provider and undisturbed stretches: one request at most owns a reference and then
      it is PENDING, SUCCEEDED and EXPIRED are final, and every change along the run is a `Move`. */
  lemma {:induction false} CheckoutProgress(env: Env, s: State, steps: seq<Step>)
    requires ProgressInv(s) && CanRun(env, s, steps) && HonestRun(env, s, steps) && UndisturbedRun(env, s, steps)
    ensures var t := After(env, s, steps);
            ProgressInv(t) &&
            forall ref :: ref in s.intents ==>
              ref in t.intents &&
              (s.intents[ref].status in {SUCCEEDED, EXPIRED} ==> t.intents[ref].status == s.intents[ref].status)
    decreases |steps|
  {
    hide ProgressInv;
    if steps == [] {
    } else {
      ProgressStep(env, s, steps[0]);
      CheckoutProgress(env, Apply(env, s, steps[0]), steps[1..]);
    }
  }

  lemma InitialStateIsGood(s: State)
    requires Init(s)
    ensures BillingInv(s) && ProgressInv(s)
  {
  }

  lemma PaidIffSucceededIn(s: State, ref: string)
    requires BillingInv(s) && ProgressInv(s)
    ensures HasInvoice(s.invoices, ref) <==> ref in s.intents && s.intents[ref].status == SUCCEEDED
  {
    if HasInvoice(s.invoices, ref) {
      var i :| 0 <= i < |s.invoices| && s.invoices[i].ref == ref;
    }
  }

  /** From initial tables, after any run: the money invariant. With an honest provider and undisturbed
      stretches also the progress invariant, and a checkout has its one invoice iff it SUCCEEDED. */
  lemma PaidIffSucceeded(env: Env, s: State, steps: seq<Step>)
    requires Init(s) && CanRun(env, s, steps)
    ensures var t := After(env, s, steps);
            BillingInv(t) &&
            (HonestRun(env, s, steps) && UndisturbedRun(env, s, steps) ==>
               ProgressInv(t) &&
               forall ref :: HasInvoice(t.invoices, ref) <==> ref in t.intents && t.intents[ref].status == SUCCEEDED)
  {
    hide ProgressInv, BillingInv, HasInvoice, Init;
    var t := After(env, s, steps);
    InitialStateIsGood(s);
    BillingIsSafe(env, s, steps);
    if HonestRun(env, s, steps) && UndisturbedRun(env, s, steps) {
      CheckoutProgress(env, s, steps);
      forall ref ensures HasInvoice(t.invoices, ref) <==> ref in t.intents && t.intents[ref].status == SUCCEEDED {
        PaidIffSucceededIn(t, ref);
      }
    }
  }

  // ---------------------------------------------------------------- without those assumptions

  /** An owner of the reference comes back from the provider. */
  predicate Returns(s: State, step: Step, ref: string)
    requires Enabled(s, step) && ref in s.intents
  {
    step.Finish? && s.calling[step.id] == Call(s.intents[ref].tenant, ref)
  }

  /** A request acts on a FAILED or EXPIRED row it read. */
  predicate ActsOn(s: State, step: Step, ref: string)
    requires Enabled(s, step)
  {
    step.Begin? && s.looking[step.id].request.ref == ref && Reaches(s, s.looking[step.id].request) &&
    Retries(s.looking[step.id])
  }

  /** ... whose quote had run out: the unguarded EXPIRED update. */
  predicate Expires(s: State, step: Step, ref: string)
    requires Enabled(s, step)
  {
    ActsOn(s, step, ref) && s.looking[step.id].seen.value.expiresAt <= step.clock
  }

  /** ... whose quote had not: the update that accepts FAILED and EXPIRED. */
  predicate Reopens(s: State, step: Step, ref: string)
    requires Enabled(s, step) && ref in s.intents
  {
    ActsOn(s, step, ref) && s.looking[step.id].seen.value.expiresAt > step.clock &&
    s.intents[ref].status in {FAILED, EXPIRED}
  }

  /** The tenant a charge event is for, if it names one. */
  function ChargedTenant(env: Env, data: map<string, Json>): Option<Tenant> {
    var metadata := Metadata(env, data);
    if metadata.Obj? && "tenant_id" in metadata.fields then env.uuid(PyStr(env, metadata.fields["tenant_id"])) else None
  }

  /** The provider confirms a checkout that is not SUCCEEDED, and the activation commits. */
  predicate Confirms(env: Env, s: State, step: Step, ref: string)
    requires ref in s.intents
  {
    s.intents[ref].status != SUCCEEDED &&
    match step
    case Verify(tenant, r, data) =>
      r == ref && tenant == s.intents[ref].tenant && Get(data, "status") == Str("success") &&
      Activate(s, tenant, ref, data).Committed?
    case Webhook(payload, hash, fails) =>
      var identity, data := EventIdentity(env, payload, hash), Get(payload, "data");
      && identity.Some? && identity.value.0 == "charge.success" && identity.value.1 !in s.ledger && !fails
      && data.Obj? && Get(data.fields, "reference") == Str(ref)
      && ChargedTenant(env, data.fields) == Some(s.intents[ref].tenant)
      && Activate(s, s.intents[ref].tenant, ref, data.fields).Committed?
    case _ => false
  }

  lemma ReportsDoNotDecide(s: State, reports: set<Report>, tenant: Tenant, ref: string, data: map<string, Json>)
    ensures Activate(s.(reports := reports), tenant, ref, data).Committed? == Activate(s, tenant, ref, data).Committed?
    ensures Activate(s, tenant, ref, data).Committed? ==>
              Activate(s.(reports := reports), tenant, ref, data).state.intents ==
              Activate(s, tenant, ref, data).state.intents
  {
  }

  lemma VerifyConfirms(env: Env, s: State, tenant: Tenant, r: string, data: map<string, Json>, ref: string)
    requires ref in s.intents
    ensures var t := VerifyCheckout(s, tenant, r, data);
            ref in t.intents &&
            t.intents[ref].status ==
            (if Confirms(env, s, Verify(tenant, r, data), ref) then SUCCEEDED else s.intents[ref].status)
  {
    ReportsDoNotDecide(s, s.reports + {Report(r, Get(data, "amount"), Get(data, "currency"))}, tenant, r, data);
  }

  lemma ChargeConfirms(env: Env, s: State, data: map<string, Json>, ref: string)
    requires ref in s.intents
    ensures var outcome := ProcessWebhook(env, s, "charge.success", Obj(data));
            var hit := Get(data, "reference") == Str(ref) && ChargedTenant(env, data) == Some(s.intents[ref].tenant) &&
                       Activate(s, s.intents[ref].tenant, ref, data).Committed?;
            && (s.intents[ref].status != SUCCEEDED && hit ==>
                  outcome.Committed? && ref in outcome.state.intents && outcome.state.intents[ref].status == SUCCEEDED)
            && (outcome.Committed? && !(s.intents[ref].status != SUCCEEDED && hit) ==>
                  ref in outcome.state.intents && outcome.state.intents[ref].status == s.intents[ref].status)
  {
  }

  lemma WebhookConfirms(env: Env, s: State, payload: map<string, Json>, hash: string, fails: bool, ref: string)
    requires ref in s.intents
    ensures var t := ReceiveWebhook(env, s, payload, hash, fails);
            ref in t.intents &&
            t.intents[ref].status ==
            (if Confirms(env, s, Webhook(payload, hash, fails), ref) then SUCCEEDED else s.intents[ref].status)
  {
    hide EventIdentity, Activate;
    var identity, data := EventIdentity(env, payload, hash), Get(payload, "data");
    if identity.Some? {
      var eventType := identity.value.0;
      var reports := s.reports + ChargeReports(eventType, data);
      var seen := s.(reports := reports);
      if eventType == "charge.success" && data.Obj? {
        ReportsDoNotDecide(s, reports, s.intents[ref].tenant, ref, data.fields);
        ChargeConfirms(env, seen, data.fields, ref);
      } else {
        OtherEventsConfirmNothing(env, seen, eventType, data);
      }
      hide ProcessWebhook;
    }
  }

  lemma OtherEventsConfirmNothing(env: Env, s: State, eventType: string, data: Json)
    requires eventType != "charge.success" || !data.Obj?
    ensures var outcome := ProcessWebhook(env, s, eventType, data);
      outcome.Committed? ==> outcome.state.intents == s.intents
  {
  }

  /** Every status change there is, on every state and without any assumption. */
  lemma StatusMovesExactly(env: Env, s: State, step: Step, ref: string)
    requires Enabled(s, step) && ref in s.intents
    ensures var t := Apply(env, s, step);
            ref in t.intents &&
            t.intents[ref].status ==
              if Returns(s, step, ref) then (if step.url.Some? then INITIALIZED else FAILED)
              else if Expires(s, step, ref) then EXPIRED
              else if Reopens(s, step, ref) then PENDING
              else if Confirms(env, s, step, ref) then SUCCEEDED
              else s.intents[ref].status
  {
    hide VerifyCheckout, ReceiveWebhook, Activate;
    match step
    case Verify(tenant, r, data) => VerifyConfirms(env, s, tenant, r, data, ref);
    case Webhook(payload, hash, fails) => WebhookConfirms(env, s, payload, hash, fails, ref);
    case _ =>
  }

  /** SUCCEEDED is left exactly by one of the two updates without a status guard: a request that still
      owns the reference comes back from the provider, or a request that read the row as FAILED or
      EXPIRED and found its quote run out now marks it EXPIRED. */
  lemma SucceededIsLeftIff(env: Env, s: State, step: Step, ref: string)
    requires Enabled(s, step) && ref in s.intents && s.intents[ref].status == SUCCEEDED
    ensures var t := Apply(env, s, step);
            ref in t.intents &&
            (t.intents[ref].status != SUCCEEDED <==> Returns(s, step, ref) || Expires(s, step, ref))
  {
    StatusMovesExactly(env, s, step, ref);
    hide Apply;
  }

  /** EXPIRED is left exactly by a retry that read the row before its quote ran out, by an owner coming
      back, or by a confirmation; and it returns to PENDING exactly by the first. */
  lemma ExpiredIsLeftIff(env: Env, s: State, step: Step, ref: string)
    requires Enabled(s, step) && ref in s.intents && s.intents[ref].status == EXPIRED
    ensures var t := Apply(env, s, step);
            && ref in t.intents
            && (t.intents[ref].status != EXPIRED <==>
                Returns(s, step, ref) || Reopens(s, step, ref) || Confirms(env, s, step, ref))
            && (t.intents[ref].status == PENDING <==> Reopens(s, step, ref))
  {
    StatusMovesExactly(env, s, step, ref);
    hide Apply, Confirms;
  }

  /** Every owner's checkout exists: true from the start and kept by every step. */
  ghost predicate OwnersHaveRows(s: State) {
    forall id :: id in s.calling ==> s.calling[id].ref in s.intents
  }

  /** A retry takes a reference that somebody still owns. */
  ghost predicate TakesOver(s: State, step: Step)
    requires Enabled(s, step)
  {
    exists owner :: owner in s.calling && s.calling[owner].ref in s.intents &&
                    Reopens(s, step, s.calling[owner].ref) && QuoteComplete(s.intents[s.calling[owner].ref])
  }

  lemma RowsStay(env: Env, s: State, step: Step)
    requires Enabled(s, step)
    ensures forall ref :: ref in s.intents ==> ref in Apply(env, s, step).intents
  {
    forall ref | ref in s.intents ensures ref in Apply(env, s, step).intents {
      StatusMovesExactly(env, s, step, ref);
    }
  }

  /** How a step changes who owns what: a fresh reference or a retry that proceeds adds its request. */
  lemma OwnersAfter(env: Env, s: State, step: Step)
    requires Enabled(s, step)
    ensures var t := Apply(env, s, step);
            if step.Begin? then
              var r := s.looking[step.id].request;
              if Reaches(s, r) && Reopens(s, step, r.ref) && QuoteComplete(s.intents[r.ref])
              then t.calling == s.calling[step.id := Call(r.tenant, r.ref)]
              else (t.calling == s.calling ||
                    (r.ref !in s.intents && r.ref in t.intents && t.intents[r.ref].tenant == r.tenant &&
                     t.intents[r.ref].status == PENDING &&
                     t.calling == s.calling[step.id := Call(r.tenant, r.ref)]))
            else if step.Finish? || step.Drop? then t.calling == s.calling - {step.id}
            else t.calling == s.calling
  {
    match step
    case Verify(tenant, ref, data) => VerifyShape(s, tenant, ref, data);
    case Webhook(payload, hash, fails) => WebhookShape(env, s, payload, hash, fails);
    case _ =>
  }

  /** A second owner appears exactly when a retry on a row it read in time finds it FAILED or EXPIRED
      while somebody still owns the reference. */
  lemma SecondOwnerIff(env: Env, s: State, step: Step)
    requires Enabled(s, step) && OneOwner(s) && OwnersHaveRows(s)
    ensures OwnersHaveRows(Apply(env, s, step))
    ensures !OneOwner(Apply(env, s, step)) <==> TakesOver(s, step)
  {
    OwnersAfter(env, s, step);
    RowsStay(env, s, step);
    hide Apply, QuoteComplete;
    var t := Apply(env, s, step);
    if TakesOver(s, step) {
      var owner :| owner in s.calling && s.calling[owner].ref in s.intents &&
                   Reopens(s, step, s.calling[owner].ref) && QuoteComplete(s.intents[s.calling[owner].ref]);
      assert owner in t.calling && step.id in t.calling && owner != step.id;
    }
  }

  /** The checkout is expired by another request, or paid before its owner came back. */
  predicate IsUpset(env: Env, s: State, step: Step, ref: string)
    requires Enabled(s, step) && ref in s.intents
  {
    Expires(s, step, ref) || Confirms(env, s, step, ref)
  }

  /** That happens to an owned reference. */
  ghost predicate Upsets(env: Env, s: State, step: Step)
    requires Enabled(s, step)
  {
    exists owner :: owner in s.calling && s.calling[owner].ref in s.intents &&
      IsUpset(env, s, step, s.calling[owner].ref)
  }

  lemma TenantsStay(env: Env, s: State, step: Step, ref: string)
    requires Enabled(s, step) && ref in s.intents
    ensures var t := Apply(env, s, step); ref in t.intents && t.intents[ref].tenant == s.intents[ref].tenant
  {
    match step
    case Verify(tenant, r, data) => VerifyShape(s, tenant, r, data);
    case Webhook(payload, hash, fails) => WebhookShape(env, s, payload, hash, fails);
    case _ =>
  }

  lemma OwnedStatusAfter(env: Env, s: State, step: Step, id: RequestId)
    requires Enabled(s, step) && SoleOwners(s) && id in s.calling && id in Apply(env, s, step).calling
    ensures var t, ref := Apply(env, s, step), s.calling[id].ref;
            ref in t.intents && t.intents[ref].tenant == s.intents[ref].tenant &&
            (t.intents[ref].status == PENDING <==> !IsUpset(env, s, step, ref))
  {
    var ref := s.calling[id].ref;
    StatusMovesExactly(env, s, step, ref);
    TenantsStay(env, s, step, ref);
    OwnersAfter(env, s, step);
    hide Apply, Confirms;
  }

  lemma OwnersKept(env: Env, s: State, step: Step)
    requires Enabled(s, step) && SoleOwners(s)
    ensures var t := Apply(env, s, step);
            && OneOwner(t)
            && (forall id :: id in t.calling && id in s.calling ==> t.calling[id] == s.calling[id])
            && (forall id :: id in t.calling && id !in s.calling ==>
                  var call := t.calling[id];
                  call.ref in t.intents && t.intents[call.ref].tenant == call.tenant &&
                  t.intents[call.ref].status == PENDING)
            && (Upsets(env, s, step) ==> t.calling.Keys >= s.calling.Keys)
  {
    SecondOwnerIff(env, s, step);
    OwnersAfter(env, s, step);
    if step.Begin? {
      var r := s.looking[step.id].request;
      if Reaches(s, r) {
        StatusMovesExactly(env, s, step, r.ref);
        TenantsStay(env, s, step, r.ref);
      }
    }
    hide Apply, Confirms;
  }

  /** The claim "one owner, and then PENDING" is lost exactly by such a step. */
  lemma SoleOwnersStepIff(env: Env, s: State, step: Step)
    requires Enabled(s, step) && SoleOwners(s)
    ensures SoleOwners(Apply(env, s, step)) <==> !Upsets(env, s, step)
  {
    var t := Apply(env, s, step);
    OwnersKept(env, s, step);
    forall id | id in s.calling && id in t.calling
      ensures var ref := s.calling[id].ref;
              ref in t.intents && t.intents[ref].tenant == s.intents[ref].tenant &&
              (t.intents[ref].status == PENDING <==> !IsUpset(env, s, step, ref))
    {
      OwnedStatusAfter(env, s, step, id);
    }
    hide Apply, IsUpset;
    if Upsets(env, s, step) {
      var owner :| owner in s.calling && s.calling[owner].ref in s.intents &&
          IsUpset(env, s, step, s.calling[owner].ref);
      assert owner in t.calling;
    }
  }

  ghost predicate AlwaysSoleOwners(env: Env, s: State, steps: seq<Step>)
    requires CanRun(env, s, steps)
    decreases |steps|
  {
    SoleOwners(s) && (steps == [] || AlwaysSoleOwners(env, Apply(env, s, steps[0]), steps[1..]))
  }

  ghost predicate NeverUpset(env: Env, s: State, steps: seq<Step>)
    requires CanRun(env, s, steps)
    decreases |steps|
  {
    steps == [] || (!Upsets(env, s, steps[0]) && NeverUpset(env, Apply(env, s, steps[0]), steps[1..]))
  }

  /** Over whole runs, on every interleaving: each owned reference has one owner and is PENDING all
      along if and only if no owned reference is ever expired or confirmed. */
  lemma {:induction false} SoleOwnersIff(env: Env, s: State, steps: seq<Step>)
    requires CanRun(env, s, steps) && SoleOwners(s)
    ensures AlwaysSoleOwners(env, s, steps) <==> NeverUpset(env, s, steps)
    decreases |steps|
  {
    if steps == [] {
    } else {
      SoleOwnersStepIff(env, s, steps[0]);
      if !Upsets(env, s, steps[0]) {
        SoleOwnersIff(env, Apply(env, s, steps[0]), steps[1..]);
      }
    }
  }

  /** The last step of the run, from initial tables, takes the checkout from one status to another. */
  ghost predicate Changes(env: Env, s: State, steps: seq<Step>, ref: string, before: Status, after: Status) {
    && Init(s) && steps != [] && CanRun(env, s, steps)
    && CanRun(env, s, steps[..|steps| - 1])
    && var (t, u) := (After(env, s, steps[..|steps| - 1]), After(env, s, steps));
    && ref in t.intents && t.intents[ref].status == before
    && ref in u.intents && u.intents[ref].status == after
  }

  /** Just before the last step of the run the checkout is SUCCEEDED and billed; after it, it is
      `left`, and still billed. */
  ghost predicate Overwrites(env: Env, s: State, steps: seq<Step>, ref: string, left: Status) {
    && Changes(env, s, steps, ref, SUCCEEDED, left)
    && HasInvoice(After(env, s, steps[..|steps| - 1]).invoices, ref) && HasInvoice(After(env, s, steps).invoices, ref)
  }

  /** A run that ends in `t`, with an honest provider or undisturbed stretches all along if so marked. */
  ghost predicate RunsTo(env: Env, s: State, steps: seq<Step>, t: State, honest: bool, calm: bool) {
    && CanRun(env, s, steps) && After(env, s, steps) == t
    && (honest ==> HonestRun(env, s, steps)) && (calm ==> UndisturbedRun(env, s, steps))
  }

  predicate Fits(t: State, step: Step, honest: bool, calm: bool) {
    Enabled(t, step) && (honest ==> HonestProvider(t, step)) && (calm ==> Undisturbed(t, step))
  }

  lemma {:induction false} Extend(env: Env, s: State, steps: seq<Step>, t: State, honest: bool, calm: bool, step: Step)
    requires RunsTo(env, s, steps, t, honest, calm) && Fits(t, step, honest, calm)
    ensures RunsTo(env, s, steps + [step], Apply(env, t, step), honest, calm)
    decreases |steps|
  {
    if steps == [] {
      assert [step][1..] == [];
    } else {
      assert (steps + [step])[1..] == steps[1..] + [step];
      Extend(env, Apply(env, s, steps[0]), steps[1..], t, honest, calm, step);
    }
  }

  lemma LastStep(env: Env, s: State, steps: seq<Step>, t: State, honest: bool, calm: bool, step: Step,
                 ref: string, before: Status, after: Status)
    requires Init(s) && RunsTo(env, s, steps, t, honest, calm) && Fits(t, step, honest, calm)
    requires ref in t.intents && t.intents[ref].status == before
    requires var u := Apply(env, t, step); ref in u.intents && u.intents[ref].status == after
    ensures RunsTo(env, s, steps + [step], Apply(env, t, step), honest, calm)
    ensures Changes(env, s, steps + [step], ref, before, after)
    ensures (steps + [step])[..|steps + [step]| - 1] == steps
  {
    Extend(env, s, steps, t, honest, calm, step);
    assert (steps + [step])[..|steps + [step]| - 1] == steps;
  }

  function EmptyTables(now: nat): State {
    State(now, map[], [], [], map[], map[], map[], {}, {})
  }

  /** The provider's confirmation of exactly the locked amount. */
  function Receipt(kobo: nat): map<string, Json> {
    map["status" := Str("success"), "amount" := Int(kobo), "currency" := Str("NGN")]
  }

  lemma FirstPayment(s: State, r: Request, kobo: nat)
    requires Reaches(s, r) && s.intents[r.ref].status != SUCCEEDED
    requires s.intents[r.ref].amount == kobo && s.intents[r.ref].currency == "NGN"
    requires s.subscriptions == [] && s.invoices == []
    ensures var t := VerifyCheckout(s, r.tenant, r.ref, Receipt(kobo));
            && t.intents == s.intents[r.ref := s.intents[r.ref].(status := SUCCEEDED)] && HasInvoice(t.invoices, r.ref)
            && t.looking == s.looking && t.calling == s.calling && t.now == s.now && t.initialized == s.initialized
  {
    var data := Receipt(kobo);
    var seen := s.(reports := s.reports + {Report(r.ref, Get(data, "amount"), Get(data, "currency"))});
    var subs := UpsertSubscription([], r.tenant, s.intents[r.ref].plan, None, None);
    assert subs == [Subscription(r.tenant, s.intents[r.ref].plan, ACTIVE, true, None, None, false)];
    assert OneLivePerTenant(subs) && OneRowPerProviderRef(subs);
    var t := VerifyCheckout(s, r.tenant, r.ref, data);
    assert t.invoices[0].ref == r.ref;
  }

  lemma FirstBegin(s: State, id: RequestId, r: Request, quote: Quote, kobo: nat)
    requires r.ref !in s.intents && UsdCentsToNgnKobo(r.price, quote.rate) == Some(kobo) && id !in s.looking
    requires id !in s.calling
    requires MIN_RATE <= quote.rate <= MAX_RATE
    ensures var t := LookUp(s, id, r);
            && Enabled(t, Begin(id, s.now, Some(quote)))
            && BeginCheckout(t, id, s.now, Some(quote)).0 ==
               s.(looking := s.looking - {id}, intents := s.intents[r.ref := NewIntent(r, Some(quote), kobo, s.now)],
                  calling := s.calling[id := Call(r.tenant, r.ref)])
  {
    assert s.looking[id := View(r, None, s.now)] - {id} == s.looking - {id};
  }

  /** Undisturbed stretches are not enough: from empty tables, for every request and quote, a
      confirmation that overtakes the provider's answer to the request is overwritten, and the paid
      checkout ends INITIALIZED. */
  lemma EarlySuccessIsOverwritten(env: Env, now: nat, r: Request, quote: Quote, kobo: nat, url: string)
    returns (steps: seq<Step>)
    requires MIN_RATE <= quote.rate <= MAX_RATE && UsdCentsToNgnKobo(r.price, quote.rate) == Some(kobo)
    ensures Overwrites(env, EmptyTables(now), steps, r.ref, INITIALIZED)
    ensures UndisturbedRun(env, EmptyTables(now), steps)
  {
    var s0 := EmptyTables(now);
    steps := [];
    FirstBegin(s0, 0, r, quote, kobo);
    Extend(env, s0, steps, s0, false, true, Look(0, r));
    steps := steps + [Look(0, r)];
    var s1 := LookUp(s0, 0, r);
    Extend(env, s0, steps, s1, false, true, Begin(0, now, Some(quote)));
    steps := steps + [Begin(0, now, Some(quote))];
    var s2 := BeginCheckout(s1, 0, now, Some(quote)).0;
    Extend(env, s0, steps, s2, false, true, Verify(r.tenant, r.ref, Receipt(kobo)));
    steps := steps + [Verify(r.tenant, r.ref, Receipt(kobo))];
    FirstPayment(s2, r, kobo);
    var s3 := VerifyCheckout(s2, r.tenant, r.ref, Receipt(kobo));
    LastStep(env, s0, steps, s3, false, true, Finish(0, Some(url)), r.ref, SUCCEEDED, INITIALIZED);
    steps := steps + [Finish(0, Some(url))];
  }

  /** A request opened a checkout, the provider could not be reached, and two retries have now read
      the FAILED row. */
  lemma TwoRetriesLook(env: Env, now: nat, r: Request, quote: Quote, kobo: nat) returns (steps: seq<Step>, t: State)
    requires MIN_RATE <= quote.rate <= MAX_RATE && UsdCentsToNgnKobo(r.price, quote.rate) == Some(kobo)
    ensures RunsTo(env, EmptyTables(now), steps, t, true, false)
    ensures var failed := NewIntent(r, Some(quote), kobo, now).(status := FAILED);
            t == EmptyTables(now).(intents := map[r.ref := failed],
                                   looking := map[1 := View(r, Some(failed), now), 2 := View(r, Some(failed), now)])
  {
    var s0 := EmptyTables(now);
    steps := [];
    FirstBegin(s0, 0, r, quote, kobo);
    Extend(env, s0, steps, s0, true, false, Look(0, r));
    steps := steps + [Look(0, r)];
    t := LookUp(s0, 0, r);
    Extend(env, s0, steps, t, true, false, Begin(0, now, Some(quote)));
    steps := steps + [Begin(0, now, Some(quote))];
    t := BeginCheckout(t, 0, now, Some(quote)).0;
    Extend(env, s0, steps, t, true, false, Finish(0, None));
    steps := steps + [Finish(0, None)];
    t := FinishCheckout(t, 0, None);
    var failed := NewIntent(r, Some(quote), kobo, now).(status := FAILED);
    assert t == s0.(intents := map[r.ref := failed]);
    Extend(env, s0, steps, t, true, false, Look(1, r));
    steps := steps + [Look(1, r)];
    t := LookUp(t, 1, r);
    Extend(env, s0, steps, t, true, false, Look(2, r));
    steps := steps + [Look(2, r)];
    t := LookUp(t, 2, r);
  }

  /** One of the retries goes through and is paid. */
  lemma OneRetryIsPaid(env: Env, s0: State, s: State, before: seq<Step>, now: nat, r: Request, failed: Intent,
                       url: string)
    returns (steps: seq<Step>, t: State)
    requires RunsTo(env, s0, before, s, true, false)
    requires failed.status == FAILED && failed.tenant == r.tenant && failed.plan == r.plan
    requires QuoteComplete(failed) && failed.amount >= 0
    requires now < failed.expiresAt
    requires s == EmptyTables(now).(intents := map[r.ref := failed],
                                    looking := map[1 := View(r, Some(failed), now), 2 := View(r, Some(failed), now)])
    ensures RunsTo(env, s0, steps, t, true, false)
    ensures t.looking == map[2 := View(r, Some(failed), now)] && t.calling == map[] && t.now == now
    ensures t.intents == map[r.ref := failed.(status := SUCCEEDED, url := Some(url))] && HasInvoice(t.invoices, r.ref)
  {
    hide RunsTo, UsdCentsToNgnKobo, HasInvoice;
    steps := before;
    Extend(env, s0, steps, s, true, false, Begin(1, now, None));
    steps := steps + [Begin(1, now, None)];
    t := BeginCheckout(s, 1, now, None).0;
    assert t.calling == map[1 := Call(r.tenant, r.ref)] && t.looking == map[2 := View(r, Some(failed), now)];
    Extend(env, s0, steps, t, true, false, Finish(1, Some(url)));
    steps := steps + [Finish(1, Some(url))];
    t := FinishCheckout(t, 1, Some(url));
    assert r.ref in t.initialized && t.calling == map[];
    var receipt := Receipt(failed.amount);
    Extend(env, s0, steps, t, true, false, Verify(r.tenant, r.ref, receipt));
    FirstPayment(t, r, failed.amount);
    steps := steps + [Verify(r.tenant, r.ref, receipt)];
    t := VerifyCheckout(t, r.tenant, r.ref, receipt);
  }

  /** An honest provider is not enough: from empty tables, for every request and usable quote, a retry
      that read the FAILED row before another one was paid marks the paid checkout EXPIRED. */
  lemma StaleExpiryOverwritesSuccess(env: Env, now: nat, r: Request, quote: Quote, kobo: nat, url: string)
    returns (steps: seq<Step>)
    requires MIN_RATE <= quote.rate <= MAX_RATE && UsdCentsToNgnKobo(r.price, quote.rate) == Some(kobo)
    requires quote.source != "" && quote.sourceUrl != ""
    ensures Overwrites(env, EmptyTables(now), steps, r.ref, EXPIRED)
    ensures HonestRun(env, EmptyTables(now), steps)
  {
    var s0 := EmptyTables(now);
    var failed := NewIntent(r, Some(quote), kobo, now).(status := FAILED);
    var t;
    steps, t := TwoRetriesLook(env, now, r, quote, kobo);
    steps, t := OneRetryIsPaid(env, s0, t, steps, now, r, failed, url);
    var late := now + QUOTE_MS;
    Extend(env, s0, steps, t, true, false, Tick(late));
    steps := steps + [Tick(late)];
    t := t.(now := late);
    LastStep(env, s0, steps, t, true, false, Begin(2, late, None), r.ref, SUCCEEDED, EXPIRED);
    steps := steps + [Begin(2, late, None)];
  }

  /** EXPIRED is not final either: from empty tables, for every request and usable quote and with an
      honest provider, a retry that read the FAILED row in time reopens the checkout after another one
      has marked it EXPIRED, and proceeds on the quote that has run out. */
  lemma ExpiredIsReopened(env: Env, now: nat, r: Request, quote: Quote, kobo: nat) returns (steps: seq<Step>)
    requires MIN_RATE <= quote.rate <= MAX_RATE && UsdCentsToNgnKobo(r.price, quote.rate) == Some(kobo)
    requires quote.source != "" && quote.sourceUrl != ""
    ensures Changes(env, EmptyTables(now), steps, r.ref, EXPIRED, PENDING) && HonestRun(env, EmptyTables(now), steps)
    ensures var t := After(env, EmptyTables(now), steps);
            1 in t.calling && t.calling[1] == Call(r.tenant, r.ref) && t.intents[r.ref].expiresAt <= t.now
  {
    var s0 := EmptyTables(now);
    var t;
    steps, t := TwoRetriesLook(env, now, r, quote, kobo);
    var late := now + QUOTE_MS;
    Extend(env, s0, steps, t, true, false, Tick(late));
    steps := steps + [Tick(late)];
    t := t.(now := late);
    Extend(env, s0, steps, t, true, false, Begin(2, late, None));
    steps := steps + [Begin(2, late, None)];
    t := BeginCheckout(t, 2, late, None).0;
    LastStep(env, s0, steps, t, true, false, Begin(1, now, None), r.ref, EXPIRED, PENDING);
    steps := steps + [Begin(1, now, None)];
  }

  /** And a reference can come to have two owners in the same way. */
  lemma TwoRequestsOwnOneReference(env: Env, now: nat, r: Request, quote: Quote, kobo: nat) returns (steps: seq<Step>)
    requires MIN_RATE <= quote.rate <= MAX_RATE && UsdCentsToNgnKobo(r.price, quote.rate) == Some(kobo)
    requires quote.source != "" && quote.sourceUrl != ""
    ensures Changes(env, EmptyTables(now), steps, r.ref, EXPIRED, PENDING) && HonestRun(env, EmptyTables(now), steps)
    ensures var t := After(env, EmptyTables(now), steps);
            1 in t.calling && 3 in t.calling && t.calling[1] == t.calling[3] == Call(r.tenant, r.ref)
  {
    var s0 := EmptyTables(now);
    var t;
    steps, t := TwoRetriesLook(env, now, r, quote, kobo);
    Extend(env, s0, steps, t, true, false, Look(3, r));
    steps := steps + [Look(3, r)];
    t := LookUp(t, 3, r);
    Extend(env, s0, steps, t, true, false, Begin(1, now, None));
    steps := steps + [Begin(1, now, None)];
    t := BeginCheckout(t, 1, now, None).0;
    var late := now + QUOTE_MS;
    Extend(env, s0, steps, t, true, false, Tick(late));
    steps := steps + [Tick(late)];
    t := t.(now := late);
    Extend(env, s0, steps, t, true, false, Begin(2, late, None));
    steps := steps + [Begin(2, late, None)];
    t := BeginCheckout(t, 2, late, None).0;
    LastStep(env, s0, steps, t, true, false, Begin(3, now, None), r.ref, EXPIRED, PENDING);
    steps := steps + [Begin(3, now, None)];
  }
}
