/** The billing endpoints as they touch the tables, statement by statement. The provider's answers
    and the decoded payloads arrive as arguments. */
module BillingDatabaseService {
  import opened Seqs
  import opened Fx
  import opened Checkout

  datatype Activation = Done | Refused | DatabaseError

  /** Nothing in an activation reads the webhook ledger. */
  lemma ActivateIgnoresLedger(s: State, ledger: map<string, LedgerStatus>, tenant: Tenant, ref: string,
                              data: map<string, Json>)
    ensures var a, b := Activate(s, tenant, ref, data), Activate(s.(ledger := ledger), tenant, ref, data);
            if a.Committed? then b == Committed(a.state.(ledger := ledger)) else b == a
  {
  }

  lemma ProcessIgnoresLedger(env: Env, s: State, ledger: map<string, LedgerStatus>, eventType: string, data: Json)
    ensures var a, b := ProcessWebhook(env, s, eventType, data),
            ProcessWebhook(env, s.(ledger := ledger), eventType, data);
            if a.Committed? then b == Committed(a.state.(ledger := ledger)) else b == a
  {
    if data.Obj? && Get(data.fields, "reference").Str? {
      var metadata := Metadata(env, data.fields);
      if metadata.Obj? && "tenant_id" in metadata.fields {
        var tenant := env.uuid(PyStr(env, metadata.fields["tenant_id"]));
        if tenant.Some? {
          ActivateIgnoresLedger(s, ledger, tenant.value, Get(data.fields, "reference").s, data.fields);
        }
      }
    }
  }

  class BillingDatabase {
    var now: nat
    var intents: map<string, Intent>
    var subscriptions: seq<Subscription>
    var invoices: seq<Invoice>
    var ledger: map<string, LedgerStatus>
    var looking: map<RequestId, View>
    var calling: map<RequestId, Call>
    ghost var initialized: set<string>
    ghost var reports: set<Report>

    ghost function World(): State
      reads this
    {
      State(now, intents, subscriptions, invoices, ledger, looking, calling, initialized, reports)
    }

    /** The upsert of `_activate_checkout`, with both unique indexes. */
    method UpsertLiveSubscription(tenant: Tenant, plan: string, customer: Option<string>, subRef: Option<string>)
      returns (ok: bool, id: nat)
      modifies this`subscriptions
      ensures var subs := UpsertSubscription(old(subscriptions), tenant, plan, customer, subRef);
              && ok == (OneLivePerTenant(subs) && OneRowPerProviderRef(subs))
              && subscriptions == (if ok then subs else old(subscriptions))
              && (ok ==> id == LiveIndex(subs, tenant))
    {
      id := 0;
      while id < |subscriptions| && !(subscriptions[id].tenant == tenant && LiveStatus(subscriptions[id].status))
        invariant id <= |subscriptions|
        invariant forall j :: 0 <= j < id ==>
                    !(subscriptions[j].tenant == tenant && LiveStatus(subscriptions[j].status))
      {
        id := id + 1;
      }
      var subs := subscriptions;
      if id < |subs| {
        var row := subs[id];
        subs := subs[id := row.(plan := plan, status := ACTIVE, paystack := true,
                                customerRef := Coalesce(customer, row.customerRef),
                                subscriptionRef := Coalesce(subRef, row.subscriptionRef))];
      } else {
        subs := subs + [Subscription(tenant, plan, ACTIVE, true, customer, subRef, false)];
      }
      assert subs[id].tenant == tenant && LiveStatus(subs[id].status);
      ok := OneLivePerTenant(subs) && OneRowPerProviderRef(subs);
      if ok {
        subscriptions := subs;
      }
    }

    method RecordInvoice(row: Invoice)
      modifies this`invoices
      ensures invoices == InsertInvoice(old(invoices), row)
    {
      for i := 0 to |invoices|
        invariant forall j :: 0 <= j < i ==> invoices[j].ref != row.ref
        invariant invoices == old(invoices)
      {
        if invoices[i].ref == row.ref {
          return;
        }
      }
      invoices := invoices + [row];
    }

    /** `_activate_checkout`. */
    method ActivateCheckout(tenant: Tenant, ref: string, data: map<string, Json>) returns (result: Activation)
      modifies this
      ensures match Activate(old(World()), tenant, ref, data)
              case Committed(t) => result == Done && World() == t
              case Raised => result == Refused && World() == old(World())
              case Aborted => result == DatabaseError && World() == old(World())
    {
      if ref !in intents || intents[ref].tenant != tenant || intents[ref].status == SUCCEEDED {
        return Done;
      }
      var intent := intents[ref];
      if ProviderAmount(Get(data, "amount")) != Some(intent.amount) || Get(data, "currency") != Str(intent.currency) {
        return Refused;
      }
      var customer, subRef := CustomerRef(data), SubscriptionRef(data);
      if !TextOrNull(customer) || !TextOrNull(subRef) {
        return Refused;
      }
      var ok, id := UpsertLiveSubscription(tenant, intent.plan, AsText(customer), AsText(subRef));
      if !ok {
        return DatabaseError;
      }
      RecordInvoice(Invoice(tenant, id, ref, intent.amount, intent.currency));
      intents := intents[ref := intent.(status := SUCCEEDED)];
      result := Done;
    }

    /** `_process_webhook`. */
    method DispatchEvent(env: Env, eventType: string, data: Json) returns (result: Activation)
      modifies this
      ensures match ProcessWebhook(env, old(World()), eventType, data)
              case Committed(t) => result == Done && World() == t
              case Raised => result == Refused && World() == old(World())
              case Aborted => result == DatabaseError && World() == old(World())
    {
      result := Done;
      if !data.Obj? {
        return;
      }
      var reference, metadata := Get(data.fields, "reference"), Metadata(env, data.fields);
      if eventType == "charge.success" && reference.Str? && metadata.Obj? {
        if "tenant_id" in metadata.fields {
          var tenant := env.uuid(PyStr(env, metadata.fields["tenant_id"]));
          if tenant.Some? {
            result := ActivateCheckout(tenant.value, reference.s, data.fields);
          }
        }
      } else if eventType in {"subscription.disable", "subscription.not_renew"} {
        var code := Get(data.fields, "subscription_code");
        if Truthy(code) {
          var status := if eventType == "subscription.disable" then CANCELLED else ACTIVE;
          var subs := ApplyProviderState(subscriptions, PyStr(env, code), status);
          if OneLivePerTenant(subs) {
            subscriptions := subs;
          } else {
            result := DatabaseError;
          }
        }
      }
    }

    /** The single transaction of `_paystack_webhook`: ledger row first, then the effects. */
    method RunLedgerTransaction(env: Env, id: string, eventType: string, data: Json)
      requires id !in ledger
      modifies this
      ensures World() == LedgerTransaction(env, old(World()), id, eventType, data)
    {
      var untouched := ledger;
      ghost var before := World();
      ledger := ledger[id := RECEIVED];
      ProcessIgnoresLedger(env, before, ledger, eventType, data);
      assert World() == before.(ledger := ledger);
      var result := DispatchEvent(env, eventType, data);
      assert untouched[id := RECEIVED][id := PROCESSED] == untouched[id := PROCESSED];
      assert untouched[id := RECEIVED][id := REJECTED] == untouched[id := REJECTED];
      ledger := match result
        case Done => ledger[id := PROCESSED]
        case Refused => ledger[id := REJECTED]
        case DatabaseError => untouched;
      if ProcessWebhook(env, before, eventType, data).Committed? {
        ProcessShape(env, before, eventType, data);
      }
    }

    /** `_paystack_webhook` after the signature check. */
    method DeliverWebhook(env: Env, payload: map<string, Json>, hash: string, databaseFails: bool)
      returns (duplicate: bool)
      modifies this
      ensures World() == Apply(env, old(World()), Webhook(payload, hash, databaseFails))
      ensures duplicate ==> Books(World()) == Books(old(World()))
    {
      duplicate := false;
      var identity := EventIdentity(env, payload, hash);
      if identity.Some? {
        var eventType, id := identity.value.0, identity.value.1;
        var data := Get(payload, "data");
        reports := reports + ChargeReports(eventType, data);
        duplicate := id in ledger;
        if !duplicate && !databaseFails {
          RunLedgerTransaction(env, id, eventType, data);
        }
      }
    }

    /** `verify_checkout` after the provider answered with `data`. */
    method ConfirmCheckout(env: Env, tenant: Tenant, ref: string, data: map<string, Json>) returns (result: Activation)
      modifies this
      ensures World() == Apply(env, old(World()), Verify(tenant, ref, data))
      ensures result != Done ==> Books(World()) == Books(old(World()))
    {
      result := Done;
      if ref in intents && intents[ref].tenant == tenant && intents[ref].status != SUCCEEDED &&
         Get(data, "status") == Str("success") {
        reports := reports + {Report(ref, Get(data, "amount"), Get(data, "currency"))};
        result := ActivateCheckout(tenant, ref, data);
      }
    }

    /** The first SELECT of `initialize_checkout`. */
    method ReadCheckout(env: Env, id: RequestId, r: Request)
      requires Enabled(World(), Look(id, r))
      modifies this
      ensures World() == Apply(env, old(World()), Look(id, r))
    {
      var seen := if r.ref in intents && intents[r.ref].tenant == r.tenant then Some(intents[r.ref]) else None;
      looking := looking[id := View(r, seen, now)];
    }

    /** An UPDATE of the status where tenant, reference and current status match. */
    method UpdateStatus(r: Request, allowed: set<Status>, status: Status) returns (updated: bool)
      modifies this`intents
      ensures updated == (Reaches(old(World()), r) && old(intents)[r.ref].status in allowed)
      ensures intents == if updated then old(intents)[r.ref := old(intents)[r.ref].(status := status)] else old(intents)
    {
      updated := r.ref in intents && intents[r.ref].tenant == r.tenant && intents[r.ref].status in allowed;
      if updated {
        intents := intents[r.ref := intents[r.ref].(status := status)];
      }
    }

    /** `initialize_checkout` from there up to its first commit. */
    method OpenCheckout(env: Env, id: RequestId, clock: nat, quote: Option<Quote>) returns (response: Response)
      requires Enabled(World(), Begin(id, clock, quote))
      modifies this
      ensures World() == Apply(env, old(World()), Begin(id, clock, quote))
      ensures response == BeginCheckout(old(World()), id, clock, quote).1
      ensures response.Proceed? <==> id in calling
    {
      var View(r, seen, _) := looking[id];
      looking := looking - {id};
      if seen.Some? {
        var existing := seen.value;
        if existing.plan != r.plan {
          return PlanConflict;
        }
        if existing.status in {INITIALIZED, SUCCEEDED} {
          return Returned(existing);
        }
        if existing.status == PENDING {
          return InProgress;
        }
        if existing.expiresAt <= clock {
          var any := {PENDING, INITIALIZED, SUCCEEDED, FAILED, EXPIRED};
          forall status: Status ensures status in any {
            match status
            case PENDING => case INITIALIZED => case SUCCEEDED => case FAILED => case EXPIRED =>
          }
          var _ := UpdateStatus(r, any, EXPIRED);
          return QuoteExpired;
        }
        var updated := UpdateStatus(r, {FAILED, EXPIRED}, PENDING);
        if !updated {
          return InProgress;
        }
        if !QuoteComplete(intents[r.ref]) {
          return QuoteExpired;
        }
      } else {
        var kobo := if quote.Some? then UsdCentsToNgnKobo(r.price, quote.value.rate) else None;
        if kobo.None? {
          return FxUnavailable;
        }
        if r.ref in intents {
          var concurrent := intents[r.ref];
          return if concurrent.tenant == r.tenant && concurrent.status in {INITIALIZED, SUCCEEDED}
                 then Returned(concurrent) else InProgress;
        }
        intents := intents[r.ref := NewIntent(r, quote, kobo.value, clock)];
      }
      calling := calling[id := Call(r.tenant, r.ref)];
      response := Proceed;
    }

    /** The rest of `initialize_checkout`, once the provider answered or failed. */
    method CloseCheckout(env: Env, id: RequestId, url: Option<string>)
      requires id in calling
      modifies this
      ensures World() == Apply(env, old(World()), Finish(id, url))
    {
      var Call(tenant, ref) := calling[id];
      calling := calling - {id};
      if ref in intents && intents[ref].tenant == tenant {
        if url.None? {
          intents := intents[ref := intents[ref].(status := FAILED)];
        } else {
          intents := intents[ref := intents[ref].(status := INITIALIZED, url := url)];
          initialized := initialized + {ref};
        }
      }
    }
  }
}
