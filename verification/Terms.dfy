/** What a loan's terms make a liquidation cost, and which attestations close it cheapest. */
module Terms {
  import opened Wrappers

  // --------------------------------------------------------------- economics

  datatype LoanTerms = LoanTerms(
    debt: int, strike: int, maturity: int, recoverAfter: int,
    bonusNum: int, bonusDen: int, priceScale: int, maxPrice: int, notBefore: nat,
    oracles: seq<nat>, singleOracle: bool, oracleThreshold: int)

  const LIMIT: int := 9223372036854775808
  const UNBOUNDED: int := 1099511627776

  /** Division rounding up. */
  function CeilDiv(a: int, b: int): int
    requires b > 0
  {
    -((-a) / b)
  }

  function Max(a: int, b: int): int { if a >= b then a else b }

  function Gross(t: LoanTerms): int
    requires t.bonusDen > 0
  {
    CeilDiv(t.debt * t.bonusNum, t.bonusDen)
  }

  /** The highest price the seizure arithmetic has to survive. */
  function PriceBound(t: LoanTerms): int {
    Max(Max(if t.maxPrice == 0 then UNBOUNDED else t.maxPrice, t.strike), 1)
  }

  /** What the constructor accepts. */
  predicate Accepted(t: LoanTerms) {
    && t.debt >= 1 && 1 <= t.strike < LIMIT
    && t.bonusDen >= 1 && t.bonusNum >= t.bonusDen && t.priceScale >= 1
    && t.recoverAfter > t.maturity
    && Gross(t) * t.priceScale + PriceBound(t) < LIMIT
    && (t.oracles == [] <==> t.singleOracle)
    && (forall i, j :: 0 <= i < j < |t.oracles| ==> t.oracles[i] != t.oracles[j])
    && (t.oracles != [] ==> 1 <= Threshold(t) <= |t.oracles|)
  }

  function Threshold(t: LoanTerms): int {
    if t.oracles == [] then 1 else if t.oracleThreshold == 0 then |t.oracles| else t.oracleThreshold
  }

  function SeizureAt(t: LoanTerms, price: int): int
    requires price >= 1 && t.bonusDen > 0
  {
    CeilDiv(Gross(t) * t.priceScale, price)
  }

  function SurplusAt(t: LoanTerms, collateral: int, price: int): int
    requires price >= 1 && t.bonusDen > 0
  {
    Max(0, collateral - SeizureAt(t, price))
  }

  /** Rounding up gives the least number of parts that cover the whole. */
  lemma CeilLeast(a: int, b: int, parts: int)
    requires b > 0
    ensures parts * b >= a <==> parts >= CeilDiv(a, b)
  {
    var q, r := (-a) / b, (-a) % b;
    assert -a == q * b + r && 0 <= r < b;
    var over := parts + q;
    assert parts * b == over * b - q * b;
    OverSign(over, b, r);
  }

  lemma OverSign(over: int, b: int, r: int)
    requires 0 <= r < b
    ensures over * b + r >= 0 <==> over >= 0
  {
    if over < 0 {
      assert over * b <= -b;
    } else {
      assert over * b >= 0;
    }
  }

  /** Over every price a loan can be closed at: the arithmetic stays within 64 bits, the
      seizure is the least that covers debt and bonus and is worth the debt, and what it
      leaves the borrower is all the rest. */
  lemma SeizureSafe(t: LoanTerms, price: int, collateral: int)
    requires Accepted(t) && 1 <= price <= PriceBound(t) && collateral >= 0
    ensures Gross(t) * t.priceScale + price - 1 < LIMIT
    ensures forall amount :: amount * price >= Gross(t) * t.priceScale <==> amount >= SeizureAt(t, price)
    ensures Gross(t) >= t.debt && SeizureAt(t, price) * price >= t.debt * t.priceScale
    ensures SurplusAt(t, collateral, price) + (if SeizureAt(t, price) < collateral then SeizureAt(t, price) else collateral) == collateral
  {
    forall amount ensures amount * price >= Gross(t) * t.priceScale <==> amount >= SeizureAt(t, price) {
      CeilLeast(Gross(t) * t.priceScale, price, amount);
    }
    GrossCovers(t);
    Times(t.debt, Gross(t), t.priceScale);
  }

  lemma Times(a: int, b: int, c: int)
    requires a <= b && c >= 0
    ensures a * c <= b * c
  {}

  lemma GrossCovers(t: LoanTerms)
    requires t.debt >= 1 && t.bonusDen >= 1 && t.bonusNum >= t.bonusDen
    ensures Gross(t) >= t.debt
  {
    CeilLeast(t.debt * t.bonusNum, t.bonusDen, t.debt - 1);
    Times(t.bonusDen, t.bonusNum, t.debt);
    assert (t.debt - 1) * t.bonusDen == t.debt * t.bonusDen - t.bonusDen;
  }

  /** A higher price never seizes more. */
  lemma SeizureFalls(t: LoanTerms, low: int, high: int)
    requires Accepted(t) && 1 <= low <= high
    ensures SeizureAt(t, high) <= SeizureAt(t, low)
  {
    var need, enough := Gross(t) * t.priceScale, SeizureAt(t, low);
    GrossCovers(t);
    CeilLeast(need, low, enough);
    CeilLeast(need, high, enough);
    CeilLeast(need, low, 0);
    Times(1, Gross(t), t.priceScale);
    Times(low, high, enough);
  }

  // --------------------------------------------------------------- threshold

  /** One oracle's attestation, and whether its signature and scale are this loan's. */
  datatype Attestation = Attestation(price: nat, timestamp: nat, valid: bool)

  predicate Usable(t: LoanTerms, a: Option<Attestation>) {
    a.Some? && a.value.valid && a.value.timestamp >= t.notBefore
  }

  /** Slots of usable attestations, as many as the threshold. */
  ghost predicate Qualifies(t: LoanTerms, given: seq<Option<Attestation>>, slots: set<nat>) {
    |slots| >= Threshold(t) && forall i :: i in slots ==> i < |given| && Usable(t, given[i])
  }

  /** The price the covenant computes with: the highest presented. */
  ghost predicate Highest(given: seq<Option<Attestation>>, slots: set<nat>, price: nat) {
    && (forall i :: i in slots ==> i < |given| && given[i].Some? && given[i].value.price <= price)
    && (exists i :: i in slots && i < |given| && given[i].Some? && given[i].value.price == price)
  }

  method Cheapest(given: seq<Option<Attestation>>, rest: set<nat>) returns (least: nat)
    requires rest != {} && forall i :: i in rest ==> i < |given| && given[i].Some?
    ensures least in rest && forall i :: i in rest ==> PriceOf(given, least) <= PriceOf(given, i)
  {
    least :| least in rest;
    var todo := rest;
    while todo != {}
      invariant least in rest && todo <= rest
      invariant forall i :: i in rest && i !in todo ==> PriceOf(given, least) <= PriceOf(given, i)
    {
      var i :| i in todo;
      if PriceOf(given, i) < PriceOf(given, least) {
        least := i;
      }
      todo := todo - {i};
    }
  }

  datatype Selection = Selection(slots: set<nat>, price: nat)

  predicate Given(given: seq<Option<Attestation>>, i: nat) { i < |given| && given[i].Some? }

  function PriceOf(given: seq<Option<Attestation>>, i: nat): nat {
    if Given(given, i) then given[i].value.price else 0
  }

  /** The cheapest of some slots, the dearest of them at this price. */
  ghost predicate Cut(given: seq<Option<Attestation>>, slots: set<nat>, rest: set<nat>, price: nat) {
    && (forall i, j :: i in slots && j in rest ==> PriceOf(given, i) <= PriceOf(given, j))
    && (forall i :: i in slots ==> PriceOf(given, i) <= price)
    && (slots == {} || exists i :: i in slots && PriceOf(given, i) == price)
  }

  predicate Parted(usable: set<nat>, slots: set<nat>, rest: set<nat>) {
    slots <= usable && rest == usable - slots && |slots| + |rest| == |usable|
  }

  lemma PartMore(usable: set<nat>, slots: set<nat>, rest: set<nat>, i: nat)
    requires Parted(usable, slots, rest) && i in rest
    ensures Parted(usable, slots + {i}, rest - {i}) && |slots + {i}| == |slots| + 1
  {}

  method TakeCheapest(given: seq<Option<Attestation>>, usable: set<nat>, n: nat) returns (slots: set<nat>, price: nat)
    requires 1 <= n <= |usable| && forall i :: i in usable ==> Given(given, i)
    ensures slots <= usable && |slots| == n && Cut(given, slots, usable - slots, price)
  {
    slots, price := {}, 0;
    var rest := usable;
    while |slots| < n
      invariant Parted(usable, slots, rest) && |slots| <= n && Cut(given, slots, rest, price)
    {
      var i := Cheapest(given, rest);
      CutMore(given, slots, rest, price, i);
      PartMore(usable, slots, rest, i);
      price := PriceOf(given, i);
      slots, rest := slots + {i}, rest - {i};
    }
  }

  lemma CutMore(given: seq<Option<Attestation>>, slots: set<nat>, rest: set<nat>, price: nat, i: nat)
    requires Cut(given, slots, rest, price) && i in rest && forall j :: j in rest ==> PriceOf(given, i) <= PriceOf(given, j)
    ensures Cut(given, slots + {i}, rest - {i}, PriceOf(given, i))
  {
    assert i in slots + {i};
  }

  /** The attestations to present: the threshold's number of the cheapest. It selects
      exactly when enough are usable, and no choice is presented at a lower price. */
  method SelectThreshold(t: LoanTerms, given: seq<Option<Attestation>>) returns (chosen: Option<Selection>)
    requires Threshold(t) >= 1
    ensures chosen.Some? <==> exists slots :: Qualifies(t, given, slots)
    ensures chosen.Some? ==> Qualifies(t, given, chosen.value.slots) && |chosen.value.slots| == Threshold(t)
    ensures chosen.Some? ==> Highest(given, chosen.value.slots, chosen.value.price)
    ensures chosen.Some? ==>
      forall slots, price: nat :: Qualifies(t, given, slots) && Highest(given, slots, price) ==> chosen.value.price <= price
  {
    var usable := set i: nat | i < |given| && Usable(t, given[i]);
    if |usable| < Threshold(t) {
      forall slots: set<nat> | Qualifies(t, given, slots) ensures false {
        assert slots <= usable;
        Fewer(slots, usable);
      }
      return None;
    }
    assert Qualifies(t, given, usable);
    var slots, price := TakeCheapest(given, usable, Threshold(t));
    CutHighest(given, slots, usable - slots, price);
    forall other, high: nat | Qualifies(t, given, other) && Highest(given, other, high) ensures price <= high {
      assert other <= usable;
      NoneCheaper(t, given, slots, usable, other, price, high);
    }
    return Some(Selection(slots, price));
  }

  lemma CutHighest(given: seq<Option<Attestation>>, slots: set<nat>, rest: set<nat>, price: nat)
    requires Cut(given, slots, rest, price) && slots != {} && forall i :: i in slots ==> Given(given, i)
    ensures Highest(given, slots, price)
  {
    forall i | i in slots ensures given[i].value.price <= price {
      assert PriceOf(given, i) <= price;
    }
    var i :| i in slots && PriceOf(given, i) == price;
    assert i in slots && given[i].value.price == price;
  }

  /** As many slots as the threshold cannot all be cheaper than the cheapest. */
  lemma NoneCheaper(t: LoanTerms, given: seq<Option<Attestation>>, slots: set<nat>, usable: set<nat>, other: set<nat>, price: nat, high: nat)
    requires |slots| == Threshold(t) >= 1 && |other| >= Threshold(t) && other <= usable
    requires Cut(given, slots, usable - slots, price) && Highest(given, other, high)
    ensures price <= high
  {
    if slots == {} {
      assert false;
    }
    var top :| top in slots && PriceOf(given, top) == price;
    if high < price {
      forall i | i in other ensures i in slots - {top} {
        assert given[i].value.price <= high && PriceOf(given, i) < PriceOf(given, top);
      }
      assert other <= slots - {top};
      Fewer(other, slots - {top});
      assert false;
    }
  }

  function UnderStrike(t: LoanTerms, given: seq<Option<Attestation>>): seq<Option<Attestation>> {
    seq(|given|, i requires 0 <= i < |given| => if given[i].Some? && given[i].value.price < t.strike then given[i] else None)
  }

  /** The slots of a liquidation: every price presented is under the strike. It is found
      exactly when enough usable attestations are, at the lowest price any choice has. */
  method LiquidatableSlots(t: LoanTerms, given: seq<Option<Attestation>>) returns (chosen: Option<Selection>)
    requires Threshold(t) >= 1
    ensures chosen.Some? <==>
      exists slots :: Qualifies(t, given, slots) && forall i :: i in slots ==> given[i].value.price < t.strike
    ensures chosen.Some? ==> Qualifies(t, given, chosen.value.slots) && |chosen.value.slots| == Threshold(t)
    ensures chosen.Some? ==> chosen.value.price < t.strike && Highest(given, chosen.value.slots, chosen.value.price)
    ensures chosen.Some? ==> forall slots, price: nat :: Qualifies(t, given, slots) && Highest(given, slots, price) ==> chosen.value.price <= price
  {
    var under := UnderStrike(t, given);
    chosen := SelectThreshold(t, under);
    forall slots ensures Qualifies(t, under, slots)
      <==> Qualifies(t, given, slots) && forall i :: i in slots ==> given[i].value.price < t.strike {
      UnderQualifies(t, given, slots);
    }
    if chosen.Some? {
      forall slots, price: nat | Qualifies(t, given, slots) && Highest(given, slots, price) ensures chosen.value.price <= price {
        if price < t.strike {
          assert Qualifies(t, under, slots) && Highest(under, slots, price);
        }
      }
    }
  }

  lemma UnderQualifies(t: LoanTerms, given: seq<Option<Attestation>>, slots: set<nat>)
    ensures Qualifies(t, UnderStrike(t, given), slots)
      <==> Qualifies(t, given, slots) && forall i :: i in slots ==> given[i].value.price < t.strike
  {}
}
