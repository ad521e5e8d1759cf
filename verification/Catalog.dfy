/** Prices, tiers, and the entitlements a subscription's lines add up to. */
module Catalog {
  import opened Prelude

  datatype Tier = FREE | PRO | ENTERPRISE

  function Rank(t: Tier): nat {
    match t
    case FREE => 0
    case PRO => 1
    case ENTERPRISE => 2
  }

  datatype TierPrice = TierPrice(priceId: string, tier: Tier, seats: int)

  /** A subscription line. Quantities are whole numbers; `None` stands for one that is not finite. */
  datatype Line = Line(priceId: string, quantity: Option<int>)

  datatype Entitlement = Entitlement(tier: Tier, seats: Option<int>)

  /** The price table as a lookup; of two entries with the same price, the later one counts. */
  function Lookup(catalog: seq<TierPrice>): map<string, TierPrice> {
    if catalog == [] then map[] else map[catalog[0].priceId := catalog[0]] + Lookup(catalog[1..])
  }

  lemma LookupOne(price: TierPrice)
    ensures Lookup([price]) == map[price.priceId := price]
  {
    assert [price][1..] == [];
  }

  /** Price by price: an enterprise price is worth 100 seats, any other PRO price 10. */
  function EnvPrices(pro: Option<string>, enterprise: Option<string>): map<string, TierPrice> {
    var first: map<string, TierPrice> := if pro.Some? then map[pro.value := TierPrice(pro.value, PRO, 10)] else map[];
    if enterprise.Some? then first[enterprise.value := TierPrice(enterprise.value, ENTERPRISE, 100)] else first
  }

  /** The catalog the environment configures; `None` stands for an absent or blank price. */
  method ParseCatalog(pro: Option<string>, enterprise: Option<string>) returns (catalog: seq<TierPrice>)
    ensures Lookup(catalog) == EnvPrices(pro, enterprise)
  {
    catalog := [];
    if pro.Some? {
      catalog := catalog + [TierPrice(pro.value, PRO, 10)];
    }
    if enterprise.Some? {
      catalog := catalog + [TierPrice(enterprise.value, ENTERPRISE, 100)];
    }
    if |catalog| == 2 {
      assert catalog[1..] == [catalog[1]];
      LookupOne(catalog[1]);
    } else if |catalog| == 1 {
      LookupOne(catalog[0]);
      assert catalog == [catalog[0]];
    }
  }

  function Quantity(line: Line): int {
    Max(1, line.quantity.GetOr(1))
  }

  // ---- The closed form -------------------------------------------------------------------------

  predicate IsOf(prices: map<string, TierPrice>, line: Line, tier: Tier) {
    line.priceId in prices && prices[line.priceId].tier == tier
  }

  predicate HasLine(prices: map<string, TierPrice>, lines: seq<Line>, tier: Tier) {
    exists i :: 0 <= i < |lines| && IsOf(prices, lines[i], tier)
  }

  /** The highest tier among the matched lines. */
  function TopTier(prices: map<string, TierPrice>, lines: seq<Line>): Tier {
    if HasLine(prices, lines, ENTERPRISE) then ENTERPRISE
    else if HasLine(prices, lines, PRO) then PRO
    else FREE
  }

  predicate AnyMatch(prices: map<string, TierPrice>, lines: seq<Line>) {
    exists i :: 0 <= i < |lines| && lines[i].priceId in prices
  }

  function LineSeats(prices: map<string, TierPrice>, line: Line, tier: Tier): int {
    if IsOf(prices, line, tier) then prices[line.priceId].seats * Quantity(line) else 0
  }

  /** The seats of the lines of exactly one tier. */
  function SeatsOf(prices: map<string, TierPrice>, lines: seq<Line>, tier: Tier): int {
    if lines == [] then 0
    else
      SeatsOf(prices, lines[..|lines| - 1], tier) + LineSeats(prices, lines[|lines| - 1], tier)
  }

  function Entitlements(prices: map<string, TierPrice>, lines: seq<Line>): Entitlement {
    if !AnyMatch(prices, lines) then Entitlement(FREE, None)
    else
      var tier := TopTier(prices, lines);
      Entitlement(tier, Some(Max(1, SeatsOf(prices, lines, tier))))
  }

  // ---- The loop --------------------------------------------------------------------------------

  lemma {:induction false} NoLineNoSeats(prices: map<string, TierPrice>, lines: seq<Line>, tier: Tier)
    requires !HasLine(prices, lines, tier)
    ensures SeatsOf(prices, lines, tier) == 0
  {
    if lines == [] {
    } else {
      var front := lines[..|lines| - 1];
      assert !IsOf(prices, lines[|lines| - 1], tier);
      assert forall i :: 0 <= i < |front| ==> front[i] == lines[i];
      NoLineNoSeats(prices, front, tier);
    }
  }

  /** One more line: what it does to the tier and the seats. */
  lemma OneMoreLine(prices: map<string, TierPrice>, lines: seq<Line>, line: Line, tier: Tier)
    ensures HasLine(prices, lines + [line], tier) <==> HasLine(prices, lines, tier) || IsOf(prices, line, tier)
    ensures AnyMatch(prices, lines + [line]) <==> AnyMatch(prices, lines) || line.priceId in prices
    ensures SeatsOf(prices, lines + [line], tier) == SeatsOf(prices, lines, tier) + LineSeats(prices, line, tier)
  {
    var more := lines + [line];
    assert more[..|more| - 1] == lines;
    assert forall i :: 0 <= i < |lines| ==> more[i] == lines[i];
    assert more[|lines|] == line;
  }

  lemma NoLines(prices: map<string, TierPrice>)
    ensures forall tier :: !HasLine(prices, [], tier)
    ensures !AnyMatch(prices, [])
  {
  }

  /** What a line adds to the seats of a tier. */
  lemma SeatsForLine(prices: map<string, TierPrice>, line: Line, tier: Tier)
    ensures line.priceId in prices && prices[line.priceId].tier == tier ==>
      LineSeats(prices, line, tier) == prices[line.priceId].seats * Quantity(line)
    ensures line.priceId !in prices || prices[line.priceId].tier != tier ==> LineSeats(prices, line, tier) == 0
  {
  }

  /** The loop computes the closed form, on every catalog and every list of lines. */
  method ResolveSubscriptionEntitlements(lines: seq<Line>, catalog: seq<TierPrice>) returns (e: Entitlement)
    ensures e == Entitlements(Lookup(catalog), lines)
  {
    var tierByPrice := Lookup(catalog);
    var tier, sawTierLine, bundledSeats := FREE, false, 0;
    hide LineSeats, HasLine, AnyMatch, Lookup;
    NoLines(tierByPrice);
    for i := 0 to |lines|
      invariant tier == TopTier(tierByPrice, lines[..i])
      invariant sawTierLine <==> AnyMatch(tierByPrice, lines[..i])
      invariant bundledSeats == SeatsOf(tierByPrice, lines[..i], tier)
    {
      var line := lines[i];
      assert lines[..i + 1] == lines[..i] + [line];
      OneMoreLine(tierByPrice, lines[..i], line, FREE);
      OneMoreLine(tierByPrice, lines[..i], line, PRO);
      OneMoreLine(tierByPrice, lines[..i], line, ENTERPRISE);
      SeatsForLine(tierByPrice, line, tier);
      if line.priceId in tierByPrice {
        sawTierLine := true;
        var def := tierByPrice[line.priceId];
        SeatsForLine(tierByPrice, line, def.tier);
        var quantity := if line.quantity.Some? then Max(1, line.quantity.value) else 1;
        assert quantity == Quantity(line);
        var seatsForLine := def.seats * quantity;
        if Rank(def.tier) > Rank(tier) {
          NoLineNoSeats(tierByPrice, lines[..i], def.tier);
          tier := def.tier;
          bundledSeats := seatsForLine;
        } else if def.tier == tier {
          bundledSeats := bundledSeats + seatsForLine;
        }
      }
    }
    assert lines[..|lines|] == lines;
    if !sawTierLine {
      return Entitlement(FREE, None);
    }
    return Entitlement(tier, Some(Max(1, bundledSeats)));
  }

  // ---- Order does not matter -------------------------------------------------------------------

  function Without<T>(lines: seq<T>, j: nat): (rest: seq<T>)
    requires j < |lines|
    ensures |rest| == |lines| - 1
  {
    lines[..j] + lines[j + 1..]
  }

  lemma {:induction false} SeatsWithout(prices: map<string, TierPrice>, lines: seq<Line>, tier: Tier, j: nat)
    requires j < |lines|
    ensures SeatsOf(prices, lines, tier) ==
      SeatsOf(prices, Without(lines, j), tier) + LineSeats(prices, lines[j], tier)
  {
    hide LineSeats;
    var last := |lines| - 1;
    if j == last {
      assert lines[..j] + lines[j + 1..] == lines[..last];
    } else {
      SeatsWithout(prices, lines[..last], tier, j);
      var rest := lines[..j] + lines[j + 1..];
      assert rest[..|rest| - 1] == lines[..last][..j] + lines[..last][j + 1..];
      assert rest[|rest| - 1] == lines[last];
    }
  }

  lemma RemoveOne(lines: seq<Line>, j: nat)
    requires j < |lines|
    ensures multiset(Without(lines, j)) == multiset(lines) - multiset{lines[j]}
  {
    assert lines == lines[..j] + [lines[j]] + lines[j + 1..];
  }

  lemma {:induction false} SeatsOfPermutation(
    prices: map<string, TierPrice>, a: seq<Line>, b: seq<Line>, tier: Tier)
    requires multiset(a) == multiset(b)
    ensures SeatsOf(prices, a, tier) == SeatsOf(prices, b, tier)
    decreases |a|
  {
    hide SeatsOf, LineSeats;
    if a == [] {
      assert |multiset(b)| == 0;
      assert b == [];
    } else {
      assert a[0] in multiset(b);
      var j :| 0 <= j < |b| && b[j] == a[0];
      RemoveOne(a, 0);
      RemoveOne(b, j);
      SeatsOfPermutation(prices, Without(a, 0), Without(b, j), tier);
      SeatsWithout(prices, a, tier, 0);
      SeatsWithout(prices, b, tier, j);
    }
  }

  lemma MatchesPermute(prices: map<string, TierPrice>, a: seq<Line>, b: seq<Line>, tier: Tier)
    requires multiset(a) == multiset(b)
    ensures HasLine(prices, a, tier) ==> HasLine(prices, b, tier)
    ensures AnyMatch(prices, a) ==> AnyMatch(prices, b)
  {
    forall i | 0 <= i < |a| ensures exists j :: 0 <= j < |b| && b[j] == a[i] {
      assert a[i] in multiset(b);
    }
  }

  /** Entitlements do not depend on the order of the lines. */
  lemma OrderIrrelevant(prices: map<string, TierPrice>, a: seq<Line>, b: seq<Line>)
    requires multiset(a) == multiset(b)
    ensures Entitlements(prices, a) == Entitlements(prices, b)
  {
    MatchesPermute(prices, a, b, PRO);
    MatchesPermute(prices, b, a, PRO);
    MatchesPermute(prices, a, b, ENTERPRISE);
    MatchesPermute(prices, b, a, ENTERPRISE);
    SeatsOfPermutation(prices, a, b, TopTier(prices, a));
  }

  // ---- More lines never take anything away -----------------------------------------------------

  predicate AtMost(a: Entitlement, b: Entitlement) {
    Rank(a.tier) < Rank(b.tier) || (a.tier == b.tier && a.seats.GetOr(0) <= b.seats.GetOr(0))
  }

  /** Wherever a line is added, neither the tier nor, within it, the number of seats goes down. */
  lemma MoreLinesMoreSeats(pro: Option<string>, enterprise: Option<string>, lines: seq<Line>, line: Line, at: nat)
    requires at <= |lines|
    ensures
      var prices := EnvPrices(pro, enterprise);
      AtMost(Entitlements(prices, lines), Entitlements(prices, lines[..at] + [line] + lines[at..]))
  {
    var prices := EnvPrices(pro, enterprise);
    var inserted := lines[..at] + [line] + lines[at..];
    assert multiset(inserted) == multiset(lines + [line]) by {
      assert lines == lines[..at] + lines[at..];
    }
    OrderIrrelevant(prices, inserted, lines + [line]);
    OneMoreLine(prices, lines, line, FREE);
    OneMoreLine(prices, lines, line, PRO);
    OneMoreLine(prices, lines, line, ENTERPRISE);
  }

  function BatchOf(tier: Tier): int {
    if tier.PRO? then 10 else 100
  }

  lemma LineSeatsInBatches(pro: Option<string>, enterprise: Option<string>, line: Line, tier: Tier)
    requires tier != FREE
    ensures
      var prices, n := EnvPrices(pro, enterprise), if IsOf(EnvPrices(pro, enterprise), line, tier) then Quantity(line) else 0;
      LineSeats(prices, line, tier) == BatchOf(tier) * n && (IsOf(prices, line, tier) ==> n > 0)
  {
  }

  lemma BatchesAdd(a: int, n: int, size: int)
    requires size == 10 || size == 100
    requires a % size == 0
    ensures (a + size * n) % size == 0
  {
  }

  /** PRO seats come in tens, ENTERPRISE seats in hundreds, and there is at least one batch of them. */
  lemma {:induction false} SeatsComeInBatches(
    pro: Option<string>, enterprise: Option<string>, lines: seq<Line>, tier: Tier)
    requires tier != FREE
    ensures
      var prices, seats := EnvPrices(pro, enterprise), SeatsOf(EnvPrices(pro, enterprise), lines, tier);
      && seats % BatchOf(tier) == 0 && seats >= 0
      && (HasLine(prices, lines, tier) ==> seats > 0)
  {
    hide EnvPrices, LineSeats, IsOf, Quantity;
    if lines == [] {
    } else {
      var prices, front, last := EnvPrices(pro, enterprise), lines[..|lines| - 1], lines[|lines| - 1];
      SeatsComeInBatches(pro, enterprise, front, tier);
      assert lines == front + [last];
      OneMoreLine(prices, front, last, tier);
      LineSeatsInBatches(pro, enterprise, last, tier);
      BatchesAdd(SeatsOf(prices, front, tier), if IsOf(prices, last, tier) then Quantity(last) else 0, BatchOf(tier));
    }
  }
}
