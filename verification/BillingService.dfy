/** The billing service over its tables, method by method; each is proved to do what the machine does. */
module BillingService {
  import opened Prelude
  import opened Catalog
  import opened Billing

  /** The sender is told of an error exactly when the event is left unprocessed. */
  lemma FailsUnprocessed(cfg: Config, s: State, d: Delivery)
    ensures IsProcessed(Deliver(cfg, s, d), d.id)
        <==> IsProcessed(s, d.id) || Handle(cfg, s.accounts, d).error.None?
  {
    hide Handle;
  }

  class StripeBillingService {
    const cfg: Config
    const catalog: seq<TierPrice>
    var accounts: Accounts
    var log: map<string, EventRow>
    ghost var completions: seq<string>

    ghost function Contents(): State
      reads this
    {
      State(accounts, log, completions)
    }

    /** The catalog is the one the environment configures. */
    ghost predicate Valid()
      reads this
    {
      Lookup(catalog) == PricesOf(cfg)
    }

    constructor (cfg: Config, accounts: Accounts)
      ensures Valid() && this.cfg == cfg && Contents() == State(accounts, map[], [])
    {
      var prices := ParseCatalog(cfg.pro, cfg.enterprise);
      this.cfg, catalog, this.accounts, log, completions := cfg, prices, accounts, map[], [];
    }

    method SyncSubscriptionRecord(sub: Subscription, answer: CustomerAnswer) returns (error: Option<string>)
      requires Valid()
      modifies `accounts
      ensures Handled(accounts, error) == SyncRecord(cfg, old(accounts), sub, answer)
    {
      var tenant := sub.tenant;
      if tenant.None? && sub.customer.Some? {
        match answer {
          case CustomerFails(m) => return Some(m);
          case NoTenant =>
          case TenantOf(t) => tenant := Some(t);
        }
      }
      error := None;
      if tenant.None? {
        return;
      }
      var t := tenant.value;
      if !(sub.status.Active? || sub.status.Trialing?) {
        if t in accounts {
          var row := accounts[t].(tier := FREE, seats := Some(cfg.freeSeats), subscription := None);
          accounts := accounts[t := WithCustomer(row, sub.customer)];
        }
        return;
      }
      var e := ResolveSubscriptionEntitlements(sub.lines, catalog);
      var seats := if e.tier.FREE? then cfg.freeSeats else e.seats.GetOr(cfg.freeSeats);
      if t in accounts {
        var row := accounts[t].(tier := e.tier, seats := Some(seats), subscription := Some(sub.id));
        accounts := accounts[t := WithCustomer(row, sub.customer)];
      }
    }

    method ClearSubscriptionByStripeId(sub: string)
      modifies `accounts
      ensures accounts == Cleared(cfg, old(accounts), sub)
    {
      accounts := map t | t in accounts ::
        if accounts[t].subscription == Some(sub)
        then accounts[t].(tier := FREE, seats := Some(cfg.freeSeats), subscription := None)
        else accounts[t];
    }

    /** An error is logged and swallowed. */
    method SyncSubscriptionById(answers: Answers)
      requires Valid()
      modifies `accounts
      ensures Handled(accounts, None) == SyncById(cfg, old(accounts), answers)
    {
      if answers.subscription.Some? {
        var _ := SyncSubscriptionRecord(answers.subscription.value, answers.customer);
      }
    }

    method HandleSubscriptionLifecycleEvent(kind: Kind, sub: Subscription, answer: CustomerAnswer)
      returns (error: Option<string>)
      requires Valid()
      modifies `accounts
      ensures Handled(accounts, error) == HandleLifecycle(cfg, old(accounts), kind, sub, answer)
    {
      if kind.Deleted? || kind.Paused? {
        ClearSubscriptionByStripeId(sub.id);
        error := None;
      } else {
        error := SyncSubscriptionRecord(sub, answer);
      }
    }

    method OnCheckoutSessionCompleted(p: Payload, answers: Answers) returns (error: Option<string>)
      requires Valid() && p.Checkout?
      modifies `accounts
      ensures Handled(accounts, error) == HandleCheckout(cfg, old(accounts), p, answers)
    {
      error := None;
      if p.tenant.Some? && p.customer.Some? && p.tenant.value in accounts {
        accounts := accounts[p.tenant.value := accounts[p.tenant.value].(customer := p.customer)];
      }
      if !p.isSubscription {
        return;
      }
      match p.ref {
        case NoRef =>
        case RefObject(sub) => error := SyncSubscriptionRecord(sub, answers.customer);
        case RefId(_) => SyncSubscriptionById(answers);
      }
    }

    method Dispatch(d: Delivery) returns (error: Option<string>)
      requires Valid()
      modifies `accounts
      ensures Handled(accounts, error) == Handle(cfg, old(accounts), d)
    {
      error := None;
      match d.payload {
        case Checkout(_, _, _, _) => error := OnCheckoutSessionCompleted(d.payload, d.answers);
        case Lifecycle(kind, sub) => error := HandleSubscriptionLifecycleEvent(kind, sub, d.answers.customer);
        case Invoice(id) =>
          if id.Some? {
            SyncSubscriptionById(d.answers);
          }
        case Unhandled =>
      }
    }

    /** Skips a processed event; otherwise runs the handler and writes down how it ended. */
    method ProcessWebhookEventOnce(d: Delivery) returns (error: Option<string>)
      requires Valid()
      modifies this
      ensures Valid() && Contents() == Deliver(cfg, old(Contents()), d)
      ensures error.Some? <==>
        !IsProcessed(old(Contents()), d.id) && Handle(cfg, old(accounts), d).error.Some?
    {
      error := None;
      if d.id in log && log[d.id].processedAt.Some? {
        return;
      }
      if d.id !in log {
        log := log[d.id := EventRow(d.eventType, d.at, None, None)];
      }
      error := Dispatch(d);
      if error.None? {
        log := log[d.id := log[d.id].(processedAt := Some(d.at), error := None)];
        completions := completions + [d.id];
      } else {
        log := log[d.id := log[d.id].(error := Some(Clip(error.value)))];
      }
    }

    /** Any sequence of deliveries is a run of the machine; the sender sees an error for each that failed. */
    method ReceiveAll(ds: seq<Delivery>) returns (failed: seq<bool>)
      requires Valid()
      modifies this
      ensures Valid() && Contents() == Run(cfg, old(Contents()), ds)
      ensures |failed| == |ds|
      ensures forall i :: 0 <= i < |ds| ==>
        (failed[i] <==> !IsProcessed(Run(cfg, old(Contents()), ds[..i + 1]), ds[i].id))
    {
      hide Deliver, IsProcessed, Handle;
      ghost var start := Contents();
      failed := [];
      for i := 0 to |ds|
        invariant Valid() && Contents() == Run(cfg, start, ds[..i]) && |failed| == i
        invariant forall j :: 0 <= j < i ==> (failed[j] <==> !IsProcessed(Run(cfg, start, ds[..j + 1]), ds[j].id))
      {
        assert ds[..i + 1][..i] == ds[..i];
        FailsUnprocessed(cfg, Contents(), ds[i]);
        var error := ProcessWebhookEventOnce(ds[i]);
        failed := failed + [error.Some?];
      }
      assert ds[..|ds|] == ds;
    }
  }
}
