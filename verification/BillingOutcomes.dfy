/** What a webhook delivery leaves behind, in terms of prices, quantities and Stripe's words alone. */
module BillingOutcomes {
  import opened Prelude
  import opened Catalog
  import opened Billing
  import opened BillingTheorems

  // ---- What lines are worth --------------------------------------------------------------------

  /** Some line is for this price, if one is configured. */
  predicate Buys(lines: seq<Line>, price: Option<string>) {
    price.Some? && exists i :: 0 <= i < |lines| && lines[i].priceId == price.value
  }

  /** The units of a price: the quantities of its lines, each at least one, a missing one counting as one. */
  function Units(lines: seq<Line>, price: string): int {
    if lines == [] then 0
    else
      var last := lines[|lines| - 1];
      Units(lines[..|lines| - 1], price)
      + if last.priceId != price then 0 else if last.quantity.Some? && last.quantity.value > 1 then last.quantity.value else 1
  }

  /** The tier and the seats that lines are worth. */
  predicate Worth(cfg: Config, lines: seq<Line>, tier: Tier, seats: Option<int>) {
    if Buys(lines, cfg.enterprise) then tier == ENTERPRISE && seats == Some(100 * Units(lines, cfg.enterprise.value))
    else if Buys(lines, cfg.pro) then tier == PRO && seats == Some(10 * Units(lines, cfg.pro.value))
    else tier == FREE && seats == Some(cfg.freeSeats)
  }

  lemma {:induction false} EnterpriseSeats(cfg: Config, lines: seq<Line>)
    requires cfg.enterprise.Some?
    ensures SeatsOf(PricesOf(cfg), lines, ENTERPRISE) == 100 * Units(lines, cfg.enterprise.value)
  {
    if lines == [] {
    } else {
      EnterpriseSeats(cfg, lines[..|lines| - 1]);
    }
  }

  lemma {:induction false} ProSeats(cfg: Config, lines: seq<Line>)
    requires cfg.pro.Some? && cfg.pro != cfg.enterprise
    ensures SeatsOf(PricesOf(cfg), lines, PRO) == 10 * Units(lines, cfg.pro.value)
  {
    if lines == [] {
    } else {
      ProSeats(cfg, lines[..|lines| - 1]);
    }
  }

  lemma {:induction false} UnitsPositive(lines: seq<Line>, price: string)
    ensures Units(lines, price) >= 0
    ensures Buys(lines, Some(price)) ==> Units(lines, price) > 0
  {
    if lines == [] {
    } else {
      UnitsPositive(lines[..|lines| - 1], price);
      if Buys(lines, Some(price)) && lines[|lines| - 1].priceId != price {
        var i :| 0 <= i < |lines| && lines[i].priceId == price;
        assert lines[..|lines| - 1][i] == lines[i];
      }
    }
  }

  lemma BuysIsLine(cfg: Config, lines: seq<Line>)
    ensures HasLine(PricesOf(cfg), lines, ENTERPRISE) <==> Buys(lines, cfg.enterprise)
    ensures HasLine(PricesOf(cfg), lines, PRO) <==> Buys(lines, cfg.pro) && cfg.pro != cfg.enterprise
    ensures AnyMatch(PricesOf(cfg), lines) <==> Buys(lines, cfg.enterprise) || Buys(lines, cfg.pro)
    ensures !HasLine(PricesOf(cfg), lines, FREE)
  {
    var prices := PricesOf(cfg);
    if i :| 0 <= i < |lines| && lines[i].priceId in prices {
      assert IsOf(prices, lines[i], prices[lines[i].priceId].tier);
    }
    if cfg.enterprise.Some? {
      if i :| 0 <= i < |lines| && lines[i].priceId == cfg.enterprise.value {
        assert IsOf(prices, lines[i], ENTERPRISE);
      }
    }
    if cfg.pro.Some? && cfg.pro != cfg.enterprise {
      if i :| 0 <= i < |lines| && lines[i].priceId == cfg.pro.value {
        assert IsOf(prices, lines[i], PRO);
      }
    }
  }

  lemma BuysNeedsPrice(lines: seq<Line>, price: Option<string>)
    ensures Buys(lines, price) ==> price.Some?
  {
  }

  /** The entitlement loop's result, with the free tier's seats filled in, is what the lines are worth. */
  lemma EntitlementsAreWorth(cfg: Config, lines: seq<Line>)
    ensures
      var e := Entitlements(PricesOf(cfg), lines);
      Worth(cfg, lines, e.tier, if e.tier == FREE then Some(cfg.freeSeats) else e.seats)
  {
    BuysIsLine(cfg, lines);
    hide HasLine, AnyMatch, Buys, PricesOf;
    if Buys(lines, cfg.enterprise) {
      assert cfg.enterprise.Some? by { BuysNeedsPrice(lines, cfg.enterprise); }
      EnterpriseSeats(cfg, lines);
      UnitsPositive(lines, cfg.enterprise.value);
    } else if Buys(lines, cfg.pro) {
      assert cfg.pro.Some? by { BuysNeedsPrice(lines, cfg.pro); }
      ProSeats(cfg, lines);
      UnitsPositive(lines, cfg.pro.value);
    }
  }

  /** Seats are linear in a line's quantity: ten more of a PRO line are a hundred more seats. */
  lemma SeatsLinear(cfg: Config, lines: seq<Line>, price: string, quantity: nat, more: nat, tier: Tier)
    requires quantity >= 1 && price in PricesOf(cfg) && PricesOf(cfg)[price].tier == tier
    ensures
      var fewer, greater := lines + [Line(price, Some(quantity))], lines + [Line(price, Some(quantity + more))];
      SeatsOf(PricesOf(cfg), greater, tier) - SeatsOf(PricesOf(cfg), fewer, tier)
        == more * (if tier == ENTERPRISE then 100 else 10)
  {
    var a, b := Line(price, Some(quantity)), Line(price, Some(quantity + more));
    OneMoreLine(PricesOf(cfg), lines, a, tier);
    OneMoreLine(PricesOf(cfg), lines, b, tier);
  }

  // ---- One delivery ----------------------------------------------------------------------------

  /** The subscription the delivery brings to be written down: its own, or the one Stripe returned. */
  function Subject(d: Delivery): Option<Subscription> {
    if ByReference(d) then d.answers.subscription else Carried(d)
  }

  /** Whose subscription it is: named on it, or else on its customer. */
  function Owner(sub: Subscription, answer: CustomerAnswer): Option<string> {
    if sub.tenant.Some? then sub.tenant
    else if sub.customer.Some? && answer.TenantOf? then Some(answer.tenant)
    else None
  }

  /** The delivery writes a subscription of this account down. */
  predicate Writes(d: Delivery, t: string) {
    Subject(d).Some? && Owner(Subject(d).value, d.answers.customer) == Some(t)
  }

  /** The delivery ends this subscription. */
  predicate Ends(d: Delivery, sub: string) {
    d.payload.Lifecycle? && (d.payload.kind == Deleted || d.payload.kind == Paused) && d.payload.sub.id == sub
  }

  /** The delivery is a checkout that names this account and a customer. */
  predicate Introduces(d: Delivery, t: string) {
    d.payload.Checkout? && d.payload.tenant == Some(t) && d.payload.customer.Some?
  }

  /** An account after a subscription of its own is written down. */
  predicate Reflects(cfg: Config, a: Account, sub: Subscription) {
    if sub.status == Active || sub.status == Trialing
    then Worth(cfg, sub.lines, a.tier, a.seats) && a.subscription == Some(sub.id)
    else a.tier == FREE && a.seats == Some(cfg.freeSeats) && a.subscription == None
  }

  predicate SamePlan(a: Account, b: Account) {
    a.tier == b.tier && a.seats == b.seats && a.subscription == b.subscription
  }

  /** What an account is after an unprocessed delivery, given what it was. */
  ghost predicate LeftAs(cfg: Config, d: Delivery, t: string, a: Account, a': Account) {
    && (if Writes(d, t) then Reflects(cfg, a', Subject(d).value)
        else if a.subscription.Some? && Ends(d, a.subscription.value)
        then a'.tier == FREE && a'.seats == Some(cfg.freeSeats) && a'.subscription == None
        else SamePlan(a, a'))
    && a'.customer ==
         if Writes(d, t) && Subject(d).value.customer.Some? then Subject(d).value.customer
         else if Introduces(d, t) then d.payload.customer
         else a.customer
  }

  lemma PaidHasSeats(prices: Prices, lines: seq<Line>)
    ensures Entitlements(prices, lines).tier != FREE ==> Entitlements(prices, lines).seats.Some?
  {
  }

  lemma SyncedReflects(cfg: Config, a: Account, sub: Subscription)
    ensures Reflects(cfg, Synced(cfg, a, sub), sub)
    ensures Synced(cfg, a, sub).customer == if sub.customer.Some? then sub.customer else a.customer
  {
    EntitlementsAreWorth(cfg, sub.lines);
    hide Worth, Entitlements, PricesOf;
    var e := Entitlements(PricesOf(cfg), sub.lines);
    assert e.tier != FREE ==> e.seats.Some? by {
      PaidHasSeats(PricesOf(cfg), sub.lines);
    }
  }

  lemma SyncLeaves(cfg: Config, accounts: Accounts, sub: Subscription, answer: CustomerAnswer, t: string)
    requires t in accounts
    ensures
      var after := SyncRecord(cfg, accounts, sub, answer).accounts;
      && t in after
      && if Owner(sub, answer) == Some(t)
         then Reflects(cfg, after[t], sub)
              && after[t].customer == (if sub.customer.Some? then sub.customer else accounts[t].customer)
         else after[t] == accounts[t]
  {
    SyncedReflects(cfg, accounts[t], sub);
    hide Synced, Reflects;
  }

  lemma HandleLeaves(cfg: Config, accounts: Accounts, d: Delivery, t: string)
    requires t in accounts
    ensures t in Handle(cfg, accounts, d).accounts
    ensures LeftAs(cfg, d, t, accounts[t], Handle(cfg, accounts, d).accounts[t])
  {
    var from := LeftBehind(accounts, d);
    if Subject(d).Some? {
      SyncLeaves(cfg, from, Subject(d).value, d.answers.customer, t);
    }
    hide SyncRecord, Owner, Reflects;
    match d.payload
    case Checkout(_, _, _, _) =>
    case Lifecycle(_, _) =>
    case Invoice(_) =>
    case Unhandled =>
  }

  lemma SameAccounts(cfg: Config, accounts: Accounts, d: Delivery)
    ensures Handle(cfg, accounts, d).accounts.Keys == accounts.Keys
  {
    hide Synced;
  }

  /**
   What a delivery leaves behind. Every account that is written down reflects the subscription: its tier is the
   best price among the lines, its seats the units of that price times a hundred or ten, and it is linked; if
   the subscription does not pay, it is free and unlinked. Every account linked to a subscription that ends is
   free and unlinked. Every other account keeps its plan, and the customer is the one named last.
   */
  lemma DeliveryLeaves(cfg: Config, s: State, d: Delivery, t: string)
    requires t in s.accounts
    ensures
      var s' := Deliver(cfg, s, d);
      && s'.accounts.Keys == s.accounts.Keys && t in s'.accounts
      && if IsProcessed(s, d.id) then s'.accounts[t] == s.accounts[t]
         else LeftAs(cfg, d, t, s.accounts[t], s'.accounts[t])
  {
    forall u | u in s.accounts ensures u in Handle(cfg, s.accounts, d).accounts {
      HandleLeaves(cfg, s.accounts, d, u);
    }
    SameAccounts(cfg, s.accounts, d);
    HandleLeaves(cfg, s.accounts, d, t);
    hide Handle, LeftAs;
  }

  // ---- Logs ------------------------------------------------------------------------------------

  /** No delivery writes this account down or ends its subscription. */
  predicate LeavesAlone(ds: seq<Delivery>, t: string, sub: Option<string>) {
    forall i :: 0 <= i < |ds| ==> !Writes(ds[i], t) && (sub.Some? ==> !Ends(ds[i], sub.value))
  }

  lemma {:induction false} PlanLasts(cfg: Config, s: State, ds: seq<Delivery>, t: string)
    requires t in s.accounts && LeavesAlone(ds, t, s.accounts[t].subscription)
    ensures t in Run(cfg, s, ds).accounts && SamePlan(s.accounts[t], Run(cfg, s, ds).accounts[t])
  {
    hide Deliver, Writes, Ends;
    if ds == [] {
    } else {
      var front, d := ds[..|ds| - 1], ds[|ds| - 1];
      PlanLasts(cfg, s, front, t);
      DeliveryLeaves(cfg, Run(cfg, s, front), d, t);
    }
  }

  lemma {:induction false} AccountStays(cfg: Config, s: State, ds: seq<Delivery>, t: string)
    requires t in s.accounts
    ensures t in Run(cfg, s, ds).accounts
  {
    hide Deliver;
    if ds == [] {
    } else {
      AccountStays(cfg, s, ds[..|ds| - 1], t);
      DeliveryLeaves(cfg, Run(cfg, s, ds[..|ds| - 1]), ds[|ds| - 1], t);
    }
  }

  /**
   An account reflects the subscription that was written down last. After any log, a delivery that is not a
   replay and writes an account down, and any deliveries that neither write it down again nor end its
   subscription, the account's tier, seats and link are what that subscription is worth.
   */
  lemma AccountReflectsSubscription(
    cfg: Config, start: State, ds: seq<Delivery>, d: Delivery, more: seq<Delivery>, t: string)
    requires t in start.accounts && !IsProcessed(Run(cfg, start, ds), d.id) && Writes(d, t)
    requires LeavesAlone(more, t,
      if Subject(d).value.status == Active || Subject(d).value.status == Trialing then Some(Subject(d).value.id) else None)
    ensures
      var after := Run(cfg, start, ds + [d] + more).accounts;
      t in after && Reflects(cfg, after[t], Subject(d).value)
  {
    hide Deliver, IsProcessed, Writes, Worth;
    var first := ds + [d];
    assert first[..|first| - 1] == ds;
    AccountStays(cfg, start, ds, t);
    DeliveryLeaves(cfg, Run(cfg, start, ds), d, t);
    PlanLasts(cfg, Run(cfg, start, first), more, t);
    RunAppend(cfg, start, first, more);
  }

  // ---- The event log ---------------------------------------------------------------------------

  /** The first delivery of an event. */
  function FirstOf(ds: seq<Delivery>, id: string): Option<Delivery> {
    if ds == [] then None
    else
      var front, last := ds[..|ds| - 1], ds[|ds| - 1];
      if FirstOf(front, id).Some? then FirstOf(front, id) else if last.id == id then Some(last) else None
  }

  /** The first delivery of an event at which Stripe did not fail, or its failure was swallowed. */
  function FirstGood(ds: seq<Delivery>, id: string): Option<Delivery> {
    if ds == [] then None
    else
      var front, last := ds[..|ds| - 1], ds[|ds| - 1];
      if FirstGood(front, id).Some? then FirstGood(front, id)
      else if last.id == id && (!Faulty(last) || ByReference(last)) then Some(last)
      else None
  }

  function LastOf(ds: seq<Delivery>, id: string): Option<Delivery> {
    if ds == [] then None
    else if ds[|ds| - 1].id == id then Some(ds[|ds| - 1])
    else LastOf(ds[..|ds| - 1], id)
  }

  ghost predicate LogReads(ds: seq<Delivery>, id: string, log: map<string, EventRow>) {
    && (id in log <==> FirstOf(ds, id).Some?)
    && (id in log ==>
          var row, first, good, last := log[id], FirstOf(ds, id), FirstGood(ds, id), LastOf(ds, id);
          && row.eventType == first.value.eventType && row.createdAt == first.value.at
          && row.processedAt == (if good.Some? then Some(good.value.at) else None)
          && (good.Some? ==> row.error == None)
          && (good.None? ==>
                && last.Some? && last.value.answers.customer.CustomerFails?
                && var message := last.value.answers.customer.message;
                  row.error == Some(message[..Min(1000, |message|)])))
  }

  lemma FaultMessage(cfg: Config, accounts: Accounts, d: Delivery)
    ensures Handle(cfg, accounts, d).error.Some? ==>
      d.answers.customer.CustomerFails? && Handle(cfg, accounts, d).error == Some(d.answers.customer.message)
  {
    hide Synced;
  }

  lemma {:induction false} GoodIsDelivery(ds: seq<Delivery>, id: string)
    ensures FirstGood(ds, id).Some? ==> FirstOf(ds, id).Some?
  {
    hide Faulty, ByReference;
    if ds == [] {
    } else {
      GoodIsDelivery(ds[..|ds| - 1], id);
    }
  }

  lemma ClipIsPrefix(message: string)
    ensures Clip(message) == message[..Min(1000, |message|)]
  {
    assert message[..|message|] == message;
  }

  /**
   The event log is the deliveries read back: a row for each event, of the type and time of its first
   delivery, processed at its first delivery that went well, and until then with the first thousand characters
   of what went wrong last.
   */
  lemma {:induction false} LogIsDeliveries(cfg: Config, start: State, ds: seq<Delivery>, id: string)
    requires start.log == map[]
    ensures LogReads(ds, id, Run(cfg, start, ds).log)
  {
    hide Handle, Faulty, ByReference;
    if ds == [] {
    } else {
      var front, d := ds[..|ds| - 1], ds[|ds| - 1];
      LogIsDeliveries(cfg, start, front, id);
      HandlingFails(cfg, Run(cfg, start, front).accounts, d);
      FaultMessage(cfg, Run(cfg, start, front).accounts, d);
      if d.answers.customer.CustomerFails? {
        ClipIsPrefix(d.answers.customer.message);
      }
      GoodIsDelivery(front, id);
      hide Clip;
    }
  }
}
