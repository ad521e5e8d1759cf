/** What holds of every log of webhook deliveries, with failures, retries and duplicates. */
module BillingTheorems {
  import opened Prelude
  import opened Catalog
  import opened Billing

  // ---- Each event is handled once --------------------------------------------------------------

  /** The log's processed rows are the completed events, each once; no row is both processed and failed. */
  ghost predicate LogOk(s: State) {
    && Distinct(s.completions)
    && (forall id :: id in s.completions <==> IsProcessed(s, id))
    && (forall id :: id in s.log ==> s.log[id].processedAt.None? || s.log[id].error.None?)
  }

  lemma {:induction false} RunLogOk(cfg: Config, s: State, ds: seq<Delivery>)
    requires LogOk(s)
    ensures LogOk(Run(cfg, s, ds))
    ensures forall id :: IsProcessed(s, id) ==>
      IsProcessed(Run(cfg, s, ds), id) && Run(cfg, s, ds).log[id] == s.log[id]
  {
    if ds == [] {
    } else {
      var front, d := ds[..|ds| - 1], ds[|ds| - 1];
      RunLogOk(cfg, s, front);
      var mid, s' := Run(cfg, s, front), Run(cfg, s, ds);
      if !IsProcessed(mid, d.id) {
        assert d.id !in mid.completions;
        forall id ensures id in s'.completions <==> IsProcessed(s', id) {
          assert id in mid.completions <==> IsProcessed(mid, id);
        }
      }
    }
  }

  lemma {:induction false} OnceInDistinct<T>(s: seq<T>, x: T)
    requires Distinct(s) && x in s
    ensures multiset(s)[x] == 1
  {
    var front := s[..|s| - 1];
    assert s == front + [s[|s| - 1]];
    if s[|s| - 1] == x {
      assert x !in front;
    } else {
      assert x in front;
      OnceInDistinct(front, x);
    }
  }

  /** A processed row is final: its handler completed once, and nothing unsets or changes the row. */
  lemma ProcessedForGood(cfg: Config, start: State, ds: seq<Delivery>, more: seq<Delivery>, id: string)
    requires IsStart(start) && IsProcessed(Run(cfg, start, ds), id)
    ensures
      var s, s' := Run(cfg, start, ds), Run(cfg, start, ds + more);
      && IsProcessed(s', id) && s'.log[id] == s.log[id] && s'.log[id].error.None?
      && multiset(s.completions)[id] == multiset(s'.completions)[id] == 1
  {
    RunLogOk(cfg, start, ds);
    RunAppend(cfg, start, ds, more);
    RunLogOk(cfg, Run(cfg, start, ds), more);
    OnceInDistinct(Run(cfg, start, ds).completions, id);
    OnceInDistinct(Run(cfg, start, ds + more).completions, id);
  }

  lemma StartLogOk(start: State)
    requires IsStart(start)
    ensures LogOk(start)
  {
  }

  lemma ReplayIgnored(cfg: Config, s: State, d: Delivery)
    requires IsProcessed(s, d.id)
    ensures Run(cfg, s, [d]) == s
  {
    assert [d][..0] == [];
    assert Run(cfg, s, []) == s;
  }

  lemma SkipsProcessed(cfg: Config, s: State, d: Delivery)
    requires IsProcessed(s, d.id)
    ensures Deliver(cfg, s, d) == s
  {
  }

  /**
   Replays change nothing. Once delivery i of an event succeeded, a later delivery j of that event can be
   struck from the log, wherever it stands and whatever it carries: the tables end up the same.
   */
  lemma ReplayStruck(cfg: Config, start: State, ds: seq<Delivery>, i: nat, j: nat)
    requires IsStart(start) && i < j < |ds| && ds[i].id == ds[j].id
    requires IsProcessed(Run(cfg, start, ds[..i + 1]), ds[i].id)
    ensures Run(cfg, start, ds) == Run(cfg, start, ds[..j] + ds[j + 1..])
  {
    hide Run, Deliver, IsProcessed, IsStart, LogOk;
    var first, middle, last := ds[..i + 1], ds[i + 1..j], ds[j + 1..];
    StartLogOk(start);
    RunLogOk(cfg, start, first);
    RunLogOk(cfg, Run(cfg, start, first), middle);
    RunAppend(cfg, start, first, middle);
    assert ds[..j] == first + middle;
    ReplayIgnored(cfg, Run(cfg, start, ds[..j]), ds[j]);
    RunAppend(cfg, start, ds[..j], [ds[j]]);
    RunAppend(cfg, start, ds[..j] + [ds[j]], last);
    RunAppend(cfg, start, ds[..j], last);
    assert ds == ds[..j] + [ds[j]] + last;
  }

  /** The log without the deliveries that found their event already processed. */
  ghost function WithoutReplays(cfg: Config, s: State, ds: seq<Delivery>): seq<Delivery> {
    if ds == [] then []
    else
      var front, d := ds[..|ds| - 1], ds[|ds| - 1];
      WithoutReplays(cfg, s, front) + if IsProcessed(Run(cfg, s, front), d.id) then [] else [d]
  }

  /** All of them can be struck at once, and then every delivery that is left finds its event unprocessed. */
  lemma {:induction false} AllReplaysStruck(cfg: Config, s: State, ds: seq<Delivery>)
    ensures
      var kept := WithoutReplays(cfg, s, ds);
      && Run(cfg, s, kept) == Run(cfg, s, ds)
      && forall i :: 0 <= i < |kept| ==> !IsProcessed(Run(cfg, s, kept[..i]), kept[i].id)
  {
    hide Deliver, IsProcessed;
    if ds == [] {
    } else {
      var front, d := ds[..|ds| - 1], ds[|ds| - 1];
      var kept, all := WithoutReplays(cfg, s, front), WithoutReplays(cfg, s, ds);
      AllReplaysStruck(cfg, s, front);
      if IsProcessed(Run(cfg, s, front), d.id) {
        assert all == kept;
        SkipsProcessed(cfg, Run(cfg, s, front), d);
      } else {
        assert all[..|kept|] == kept;
        forall i | 0 <= i < |all| ensures !IsProcessed(Run(cfg, s, all[..i]), all[i].id) {
          assert i < |kept| ==> all[..i] == kept[..i];
        }
      }
    }
  }

  // ---- Entitlements ----------------------------------------------------------------------------

  /** What an account's columns may look like. */
  ghost predicate AccountOk(cfg: Config, a: Account) {
    && (a.subscription.None? ==> a.tier.FREE?)
    && (a.tier.FREE? ==> a.seats == None || a.seats == Some(cfg.freeSeats))
    && (a.tier.PRO? ==> a.seats.Some? && a.seats.value > 0 && a.seats.value % 10 == 0)
    && (a.tier.ENTERPRISE? ==> a.seats.Some? && a.seats.value > 0 && a.seats.value % 100 == 0)
  }

  ghost predicate AccountsOk(cfg: Config, accounts: Accounts) {
    forall t :: t in accounts ==> AccountOk(cfg, accounts[t])
  }

  lemma SyncedOk(cfg: Config, a: Account, sub: Subscription)
    requires AccountOk(cfg, a)
    ensures AccountOk(cfg, Synced(cfg, a, sub))
  {
    SeatsComeInBatches(cfg.pro, cfg.enterprise, sub.lines, PRO);
    SeatsComeInBatches(cfg.pro, cfg.enterprise, sub.lines, ENTERPRISE);
    var prices := PricesOf(cfg);
    assert HasLine(prices, sub.lines, PRO) || HasLine(prices, sub.lines, ENTERPRISE) ==> AnyMatch(prices, sub.lines);
  }

  lemma SyncRecordOk(cfg: Config, accounts: Accounts, sub: Subscription, answer: CustomerAnswer)
    requires AccountsOk(cfg, accounts)
    ensures AccountsOk(cfg, SyncRecord(cfg, accounts, sub, answer).accounts)
  {
    var target := TargetOf(sub, answer);
    if target.Tenant? && target.id in accounts {
      SyncedOk(cfg, accounts[target.id], sub);
    }
  }

  lemma HandleOk(cfg: Config, accounts: Accounts, d: Delivery)
    requires AccountsOk(cfg, accounts)
    ensures AccountsOk(cfg, Handle(cfg, accounts, d).accounts)
  {
    match d.payload
    case Checkout(_, _, _, ref) =>
      var linked := Linked(accounts, d.payload);
      if ref.RefObject? {
        SyncRecordOk(cfg, linked, ref.sub, d.answers.customer);
      } else if ref.RefId? && d.answers.subscription.Some? {
        SyncRecordOk(cfg, linked, d.answers.subscription.value, d.answers.customer);
      }
    case Lifecycle(_, sub) => SyncRecordOk(cfg, accounts, sub, d.answers.customer);
    case Invoice(_) =>
      if d.answers.subscription.Some? {
        SyncRecordOk(cfg, accounts, d.answers.subscription.value, d.answers.customer);
      }
    case Unhandled =>
  }

  lemma {:induction false} RunAccountsOk(cfg: Config, s: State, ds: seq<Delivery>)
    requires AccountsOk(cfg, s.accounts)
    ensures AccountsOk(cfg, Run(cfg, s, ds).accounts)
  {
    if ds == [] {
    } else {
      var front := ds[..|ds| - 1];
      RunAccountsOk(cfg, s, front);
      HandleOk(cfg, Run(cfg, s, front).accounts, ds[|ds| - 1]);
    }
  }

  /**
   After any log of deliveries: without a linked subscription the tier is FREE; FREE accounts have no seats
   set or the free limit; PRO seats are a positive multiple of 10 and ENTERPRISE seats of 100.
   */
  lemma EntitlementsConsistent(cfg: Config, start: State, ds: seq<Delivery>, t: string)
    requires IsStart(start) && t in Run(cfg, start, ds).accounts
    ensures
      var a := Run(cfg, start, ds).accounts[t];
      && (a.subscription.None? ==> a.tier.FREE?)
      && (a.tier.FREE? ==> a.seats == None || a.seats == Some(cfg.freeSeats))
      && (a.tier.PRO? ==> a.seats.Some? && a.seats.value > 0 && a.seats.value % 10 == 0)
      && (a.tier.ENTERPRISE? ==> a.seats.Some? && a.seats.value > 0 && a.seats.value % 100 == 0)
  {
    RunAccountsOk(cfg, start, ds);
  }

  // ---- Ended subscriptions ---------------------------------------------------------------------

  ghost predicate Unlinked(accounts: Accounts, sub: string) {
    forall t :: t in accounts ==> accounts[t].subscription != Some(sub)
  }

  /** The delivery can write this subscription down. */
  ghost predicate Mentions(d: Delivery, sub: string) {
    || (d.payload.Lifecycle? && d.payload.sub.id == sub)
    || (d.payload.Checkout? && d.payload.ref.RefObject? && d.payload.ref.sub.id == sub)
    || (d.answers.subscription.Some? && d.answers.subscription.value.id == sub)
  }

  lemma SyncUnlinked(cfg: Config, accounts: Accounts, sub: Subscription, answer: CustomerAnswer, other: string)
    requires Unlinked(accounts, other) && sub.id != other
    ensures Unlinked(SyncRecord(cfg, accounts, sub, answer).accounts, other)
  {
    hide Entitlements;
  }

  lemma HandleUnlinked(cfg: Config, accounts: Accounts, d: Delivery, sub: string)
    requires Unlinked(accounts, sub) && !Mentions(d, sub)
    ensures Unlinked(Handle(cfg, accounts, d).accounts, sub)
  {
    hide SyncRecord;
    if d.answers.subscription.Some? {
      SyncUnlinked(cfg, accounts, d.answers.subscription.value, d.answers.customer, sub);
    }
    match d.payload
    case Checkout(_, _, _, ref) =>
      var linked := Linked(accounts, d.payload);
      if ref.RefObject? {
        SyncUnlinked(cfg, linked, ref.sub, d.answers.customer, sub);
      } else if d.answers.subscription.Some? {
        SyncUnlinked(cfg, linked, d.answers.subscription.value, d.answers.customer, sub);
      }
    case Lifecycle(_, other) => SyncUnlinked(cfg, accounts, other, d.answers.customer, sub);
    case _ =>
  }

  lemma {:induction false} StaysUnlinked(cfg: Config, s: State, ds: seq<Delivery>, sub: string)
    requires Unlinked(s.accounts, sub) && forall i :: 0 <= i < |ds| ==> !Mentions(ds[i], sub)
    ensures Unlinked(Run(cfg, s, ds).accounts, sub)
  {
    hide Handle, Mentions;
    if ds == [] {
    } else {
      var front := ds[..|ds| - 1];
      StaysUnlinked(cfg, s, front, sub);
      HandleUnlinked(cfg, Run(cfg, s, front).accounts, ds[|ds| - 1], sub);
    }
  }

  /**
   When a subscription ends by a deleted or paused event, nobody is linked to it any more, every account that
   was is on the free tier, all other accounts are as before, and it stays unlinked until a later delivery
   mentions it.
   */
  lemma SubscriptionEnds(cfg: Config, start: State, ds: seq<Delivery>, d: Delivery, more: seq<Delivery>)
    requires IsStart(start) && !IsProcessed(Run(cfg, start, ds), d.id)
    requires d.payload.Lifecycle? && (d.payload.kind.Deleted? || d.payload.kind.Paused?)
    requires forall i :: 0 <= i < |more| ==> !Mentions(more[i], d.payload.sub.id)
    ensures
      var sub := d.payload.sub.id;
      var before, after := Run(cfg, start, ds).accounts, Run(cfg, start, ds + [d]).accounts;
      && after.Keys == before.Keys
      && (forall t :: t in before ==>
            after[t] == if before[t].subscription == Some(sub) then FreeAccount(cfg, before[t]) else before[t])
      && Unlinked(after, sub) && Unlinked(Run(cfg, start, ds + [d] + more).accounts, sub)
  {
    assert (ds + [d])[..|ds|] == ds;
    RunAppend(cfg, start, ds + [d], more);
    StaysUnlinked(cfg, Run(cfg, start, ds + [d]), more, d.payload.sub.id);
  }

  // ---- Faults and redeliveries -----------------------------------------------------------------

  /** The event names its subscription by id, so that it has to be retrieved. */
  predicate ByReference(d: Delivery) {
    || (d.payload.Invoice? && d.payload.subscriptionId.Some?)
    || (d.payload.Checkout? && d.payload.isSubscription && d.payload.ref.RefId?)
  }

  /** The subscription the event itself carries for syncing. */
  function Carried(d: Delivery): Option<Subscription> {
    match d.payload
    case Lifecycle(kind, sub) => if kind.Deleted? || kind.Paused? then None else Some(sub)
    case Checkout(_, _, isSubscription, ref) => if isSubscription && ref.RefObject? then Some(ref.sub) else None
    case _ => None
  }

  /** Stripe fails: it cannot return the subscription the event names, or the customer needed to place it. */
  predicate Faulty(d: Delivery) {
    var sub := if ByReference(d) then d.answers.subscription else Carried(d);
    || (ByReference(d) && sub.None?)
    || (sub.Some? && sub.value.tenant.None? && sub.value.customer.Some? && d.answers.customer.CustomerFails?)
  }

  /** What a faulty delivery still changes: a checkout has linked its customer by then. */
  function LeftBehind(accounts: Accounts, d: Delivery): Accounts {
    if d.payload.Checkout? then Linked(accounts, d.payload) else accounts
  }

  lemma HandlingFails(cfg: Config, accounts: Accounts, d: Delivery)
    ensures Handle(cfg, accounts, d).error.None? <==> !Faulty(d) || ByReference(d)
    ensures Faulty(d) ==> Handle(cfg, accounts, d).accounts == LeftBehind(accounts, d)
  {
    hide Synced, Linked;
  }

  /** An unprocessed event becomes processed exactly if Stripe does not fail or the failure is swallowed. */
  lemma ProcessedUnlessReported(cfg: Config, s: State, d: Delivery)
    requires !IsProcessed(s, d.id)
    ensures IsProcessed(Deliver(cfg, s, d), d.id) <==> !Faulty(d) || ByReference(d)
    ensures Deliver(cfg, s, d).accounts == Handle(cfg, s.accounts, d).accounts
    ensures Faulty(d) ==> Deliver(cfg, s, d).accounts == LeftBehind(s.accounts, d)
  {
    hide Handle, ByReference, Faulty, LeftBehind;
    HandlingFails(cfg, s.accounts, d);
  }

  /**
   After a failure at Stripe the event is processed if and only if it names its subscription by id, by an
   invoice or by a checkout. Then the update is lost: whatever else is delivered, no redelivery of the event
   changes anything. Otherwise the event stays open, and a redelivery is handled in full. Either way the
   failed delivery changed nothing but a checkout's link to its customer.
   */
  lemma SwallowedFaultsAreLost(
    cfg: Config, start: State, ds: seq<Delivery>, d: Delivery, more: seq<Delivery>, again: Delivery)
    requires IsStart(start) && !IsProcessed(Run(cfg, start, ds), d.id)
    requires Faulty(d) && again.id == d.id
    ensures
      var before, s := Run(cfg, start, ds), Run(cfg, start, ds + [d]);
      && s.accounts == LeftBehind(before.accounts, d)
      && (IsProcessed(s, d.id) <==> ByReference(d))
      && (ByReference(d) ==> Run(cfg, start, ds + [d] + more + [again]) == Run(cfg, start, ds + [d] + more))
      && (!ByReference(d) ==>
            Run(cfg, start, ds + [d] + [again]).accounts == Handle(cfg, s.accounts, again).accounts)
  {
    hide Deliver, Handle, IsProcessed, IsStart, LogOk, Faulty, ByReference, LeftBehind;
    var first, last, replayed := ds + [d], ds + [d] + more, ds + [d] + more + [again];
    assert first[..|first| - 1] == ds && replayed[..|replayed| - 1] == last;
    ProcessedUnlessReported(cfg, Run(cfg, start, ds), d);
    StartLogOk(start);
    RunLogOk(cfg, start, first);
    RunAppend(cfg, start, first, more);
    if ByReference(d) {
      RunLogOk(cfg, Run(cfg, start, first), more);
      SkipsProcessed(cfg, Run(cfg, start, last), again);
    } else {
      assert (first + [again])[..|first|] == first;
      ProcessedUnlessReported(cfg, Run(cfg, start, first), again);
    }
  }

  lemma RunTwo(cfg: Config, s: State, d: Delivery, again: Delivery)
    ensures Run(cfg, s, [again]) == Deliver(cfg, s, again)
    ensures Run(cfg, s, [d, again]) == Deliver(cfg, Deliver(cfg, s, d), again)
  {
    hide Deliver;
    assert [d, again][..1] == [d] && [d][..0] == [] && [again][..0] == [];
    assert Run(cfg, s, [d]) == Deliver(cfg, s, d);
  }

  /**
   An input on which it matters: an invoice whose subscription Stripe first cannot return and then can. Had
   only the second delivery come, the account would be linked to the subscription; so it never is.
   */
  lemma UpdateLost(cfg: Config) returns (start: State, d: Delivery, again: Delivery)
    ensures IsStart(start) && again.id == d.id && d.payload == again.payload
    ensures "t" in Run(cfg, start, [d, again]).accounts && "t" in Run(cfg, start, [again]).accounts
    ensures Run(cfg, start, [again]).accounts["t"].subscription == Some("sub")
    ensures Run(cfg, start, [d, again]).accounts["t"].subscription == None
  {
    hide Entitlements;
    start := State(map["t" := Account(FREE, None, None, None)], map[], []);
    var sub := Subscription("sub", Active, Some("t"), None, []);
    d := Delivery("evt", "invoice.paid", 0, Invoice(Some("sub")), Answers(None, NoTenant));
    again := d.(answers := Answers(Some(sub), NoTenant));
    RunTwo(cfg, start, d, again);
    ProcessedUnlessReported(cfg, start, d);
    SkipsProcessed(cfg, Deliver(cfg, start, d), again);
  }

  // ---- The operations summary ------------------------------------------------------------------

  datatype Summary = Summary(totals: nat, processed: nat, failed: nat, pending: nat)

  function Since(s: State, since: int): set<string> {
    set id | id in s.log && s.log[id].createdAt >= since
  }

  /** billingOpsSummary's four counts over the rows created since a moment. */
  function Summarize(s: State, since: int): Summary {
    var rows := Since(s, since);
    Summary(|rows|,
            |set id | id in rows && s.log[id].processedAt.Some?|,
            |set id | id in rows && s.log[id].error.Some?|,
            |set id | id in rows && s.log[id].processedAt.None? && s.log[id].error.None?|)
  }

  /** After any log of deliveries and for every window, each row is counted in exactly one of the three. */
  lemma SummaryConserves(cfg: Config, start: State, ds: seq<Delivery>, since: int)
    requires IsStart(start)
    ensures
      var sum := Summarize(Run(cfg, start, ds), since);
      sum.totals == sum.processed + sum.failed + sum.pending
  {
    var s := Run(cfg, start, ds);
    StartLogOk(start);
    RunLogOk(cfg, start, ds);
    hide Run, IsStart;
    var rows := Since(s, since);
    var processed := set id | id in rows && s.log[id].processedAt.Some?;
    var failed := set id | id in rows && s.log[id].error.Some?;
    var pending := set id | id in rows && s.log[id].processedAt.None? && s.log[id].error.None?;
    assert processed !! failed && (processed + failed) !! pending;
    assert rows == processed + failed + pending;
  }
}
