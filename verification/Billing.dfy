/**
 Stripe webhooks as a state machine: an event log that handles each event once, and the entitlements it
 drives. What Stripe answers to a lookup made during handling is an input of the delivery.
 */
module Billing {
  import opened Prelude
  import opened Catalog

  type Prices = map<string, TierPrice>

  datatype Limits = Limits(pro: Option<string>, enterprise: Option<string>, freeSeats: int)

  type Config = c: Limits | c.freeSeats >= 1 witness Limits(None, None, 3)

  // ---- Tables ----------------------------------------------------------------------------------

  datatype Account = Account(tier: Tier, seats: Option<int>, subscription: Option<string>, customer: Option<string>)

  type Accounts = map<string, Account>

  datatype EventRow = EventRow(eventType: string, createdAt: int, processedAt: Option<int>, error: Option<string>)

  /** `completions` lists the events whose handler ran to its end; nothing reads it. */
  datatype State = State(accounts: Accounts, log: map<string, EventRow>, completions: seq<string>)

  // ---- What Stripe sends -----------------------------------------------------------------------

  datatype Status = Active | Trialing | OtherStatus(name: string)

  datatype Subscription = Subscription(
    id: string, status: Status, tenant: Option<string>, customer: Option<string>, lines: seq<Line>)

  datatype SubscriptionRef = NoRef | RefId(id: string) | RefObject(sub: Subscription)

  datatype Kind =
    | Created | Updated | Deleted | Paused | Resumed
    | PendingUpdateApplied | PendingUpdateExpired | TrialWillEnd

  /** Invoice covers paid, payment_succeeded, payment_failed, finalized and voided, which are handled alike. */
  datatype Payload =
    | Checkout(tenant: Option<string>, customer: Option<string>, isSubscription: bool, ref: SubscriptionRef)
    | Lifecycle(kind: Kind, sub: Subscription)
    | Invoice(subscriptionId: Option<string>)
    | Unhandled

  datatype CustomerAnswer = CustomerFails(message: string) | NoTenant | TenantOf(tenant: string)

  /** Stripe's answers while the event is handled. */
  datatype Answers = Answers(subscription: Option<Subscription>, customer: CustomerAnswer)

  datatype Delivery = Delivery(id: string, eventType: string, at: int, payload: Payload, answers: Answers)

  // ---- Handlers --------------------------------------------------------------------------------

  /** What a handler leaves behind, and the error it ended with. */
  datatype Handled = Handled(accounts: Accounts, error: Option<string>)

  predicate Paying(status: Status) {
    status.Active? || status.Trialing?
  }

  function WithCustomer(a: Account, customer: Option<string>): Account {
    if customer.Some? then a.(customer := customer) else a
  }

  function FreeAccount(cfg: Config, a: Account): Account {
    a.(tier := FREE, seats := Some(cfg.freeSeats), subscription := None)
  }

  function PricesOf(cfg: Config): Prices {
    EnvPrices(cfg.pro, cfg.enterprise)
  }

  /** The account after a subscription of its tenant is written down. */
  function Synced(cfg: Config, a: Account, sub: Subscription): Account {
    if !Paying(sub.status) then WithCustomer(FreeAccount(cfg, a), sub.customer)
    else
      var e := Entitlements(PricesOf(cfg), sub.lines);
      var seats := if e.tier.FREE? then cfg.freeSeats else e.seats.GetOr(cfg.freeSeats);
      WithCustomer(a.(tier := e.tier, seats := Some(seats), subscription := Some(sub.id)), sub.customer)
  }

  datatype Target = Fault(message: string) | Nobody | Tenant(id: string)

  /** Whose subscription it is: by its own metadata, or by its customer's. */
  function TargetOf(sub: Subscription, answer: CustomerAnswer): Target {
    if sub.tenant.Some? then Tenant(sub.tenant.value)
    else if sub.customer.None? then Nobody
    else
      match answer
      case CustomerFails(m) => Fault(m)
      case NoTenant => Nobody
      case TenantOf(t) => Tenant(t)
  }

  function SyncRecord(cfg: Config, accounts: Accounts, sub: Subscription, answer: CustomerAnswer): Handled {
    match TargetOf(sub, answer)
    case Fault(m) => Handled(accounts, Some(m))
    case Nobody => Handled(accounts, None)
    case Tenant(t) =>
      Handled(if t in accounts then accounts[t := Synced(cfg, accounts[t], sub)] else accounts, None)
  }

  /** Retrieves and syncs; whatever goes wrong is swallowed. */
  function SyncById(cfg: Config, accounts: Accounts, answers: Answers): Handled {
    if answers.subscription.None? then Handled(accounts, None)
    else Handled(SyncRecord(cfg, accounts, answers.subscription.value, answers.customer).accounts, None)
  }

  /** Every account linked to the subscription goes back to the free tier. */
  function Cleared(cfg: Config, accounts: Accounts, sub: string): Accounts {
    map t | t in accounts ::
      if accounts[t].subscription == Some(sub) then FreeAccount(cfg, accounts[t]) else accounts[t]
  }

  function HandleLifecycle(cfg: Config, accounts: Accounts, kind: Kind, sub: Subscription, answer: CustomerAnswer): Handled {
    if kind.Deleted? || kind.Paused? then Handled(Cleared(cfg, accounts, sub.id), None)
    else SyncRecord(cfg, accounts, sub, answer)
  }

  function Linked(accounts: Accounts, p: Payload): Accounts
    requires p.Checkout?
  {
    if p.tenant.Some? && p.customer.Some? && p.tenant.value in accounts
    then accounts[p.tenant.value := accounts[p.tenant.value].(customer := p.customer)] else accounts
  }

  function HandleCheckout(cfg: Config, accounts: Accounts, p: Payload, answers: Answers): Handled
    requires p.Checkout?
  {
    var linked := Linked(accounts, p);
    if !p.isSubscription then Handled(linked, None)
    else
      match p.ref
      case NoRef => Handled(linked, None)
      case RefObject(sub) => SyncRecord(cfg, linked, sub, answers.customer)
      case RefId(_) => SyncById(cfg, linked, answers)
  }

  function Handle(cfg: Config, accounts: Accounts, d: Delivery): Handled {
    match d.payload
    case Checkout(_, _, _, _) => HandleCheckout(cfg, accounts, d.payload, d.answers)
    case Lifecycle(kind, sub) => HandleLifecycle(cfg, accounts, kind, sub, d.answers.customer)
    case Invoice(id) => if id.None? then Handled(accounts, None) else SyncById(cfg, accounts, d.answers)
    case Unhandled => Handled(accounts, None)
  }

  // ---- Processing once -------------------------------------------------------------------------

  /** The column keeps the first thousand characters of an error. */
  function Clip(message: string): string {
    if |message| > 1000 then message[..1000] else message
  }

  predicate IsProcessed(s: State, id: string) {
    id in s.log && s.log[id].processedAt.Some?
  }

  /** A processed event is skipped; a failed attempt keeps what it changed and may be delivered again. */
  function Deliver(cfg: Config, s: State, d: Delivery): State {
    if IsProcessed(s, d.id) then s
    else
      var row := if d.id in s.log then s.log[d.id] else EventRow(d.eventType, d.at, None, None);
      var h := Handle(cfg, s.accounts, d);
      if h.error.None? then
        State(h.accounts, s.log[d.id := row.(processedAt := Some(d.at), error := None)], s.completions + [d.id])
      else
        State(h.accounts, s.log[d.id := row.(error := Some(Clip(h.error.value)))], s.completions)
  }

  function Run(cfg: Config, s: State, ds: seq<Delivery>): State {
    if ds == [] then s else Deliver(cfg, Run(cfg, s, ds[..|ds| - 1]), ds[|ds| - 1])
  }

  /** Accounts as registration creates them, and an empty log. */
  ghost predicate IsStart(s: State) {
    && s.log == map[] && s.completions == []
    && forall t :: t in s.accounts ==>
         s.accounts[t].tier == FREE && s.accounts[t].seats == None && s.accounts[t].subscription == None
  }

  lemma {:induction false} RunAppend(cfg: Config, s: State, a: seq<Delivery>, b: seq<Delivery>)
    ensures Run(cfg, s, a + b) == Run(cfg, Run(cfg, s, a), b)
  {
    if b == [] {
      assert a + b == a;
    } else {
      var front := b[..|b| - 1];
      assert (a + b)[..|a + b| - 1] == a + front;
      RunAppend(cfg, s, a, front);
    }
  }
}
