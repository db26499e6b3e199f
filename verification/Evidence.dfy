/** The stage of a version 1 seizure before its arithmetic: which attestations the command
    line and the browser take, what they refuse, and when they refuse alike. */
module Evidence {
  import opened Wrappers
  import opened Vault2
  import opened Exits
  import T = Terms
  import Explain

  /** An attestation as it was served: its own market, feed and scale are labels, only price
      and time are signed, under a feed. */
  datatype Entry = Entry(market: nat, feed: Option<nat>, scale: nat, price: nat, timestamp: nat, sig: nat)

  /** The feed of a market, and whose signatures verify over a feed, a price and a time. */
  datatype Oracles = Oracles(feedOf: nat -> nat, signed: (nat, nat, nat, nat, nat) -> bool)

  /** A loan as this stage sees it: its terms, its oracles' keys and its market. */
  datatype Deal = Deal(t: T.LoanTerms, keys: seq<nat>, market: nat)

  /** What was served, by key. */
  type Served = map<nat, Entry>

  // ------------------------------------------------------- the command line

  /** An attestation the command line takes at all: quoted at the loan's scale, at a price
      there is, and not labelled with another feed. */
  predicate Shaped(or: Oracles, d: Deal, e: Entry) {
    e.scale == d.t.priceScale && e.price >= 1 && (e.feed.Some? ==> e.feed.value == or.feedOf(d.market))
  }

  predicate AllShaped(or: Oracles, d: Deal, served: Served) {
    forall k :: k in served ==> Shaped(or, d, served[k])
  }

  /** ... and one it counts: its labels agree, and its key signed it under its own feed. */
  predicate ValidPy(or: Oracles, d: Deal, k: nat, e: Entry) {
    && e.feed == Some(or.feedOf(e.market)) && e.scale == d.t.priceScale
    && or.signed(k, or.feedOf(e.market), e.price, e.timestamp, e.sig)
  }

  /** The browser's: its key signed it under the loan's feed. */
  predicate ValidJs(or: Oracles, d: Deal, k: nat, e: Entry) {
    e.scale == d.t.priceScale && or.signed(k, or.feedOf(d.market), e.price, e.timestamp, e.sig)
  }

  function GivenPy(or: Oracles, d: Deal, served: Served): seq<Option<T.Attestation>> {
    seq(|d.keys|, i requires 0 <= i < |d.keys| =>
      if d.keys[i] !in served then None
      else
        var e := served[d.keys[i]];
        Some(T.Attestation(e.price, e.timestamp, ValidPy(or, d, d.keys[i], e))))
  }

  function GivenJs(or: Oracles, d: Deal, served: Served): seq<Option<T.Attestation>> {
    seq(|d.keys|, i requires 0 <= i < |d.keys| =>
      if d.keys[i] !in served then None
      else
        var e := served[d.keys[i]];
        Some(T.Attestation(e.price, e.timestamp, ValidJs(or, d, d.keys[i], e))))
  }

  /** Slots a seizure can present: enough usable, and for a liquidation all under the strike. */
  ghost predicate Fit(t: T.LoanTerms, given: seq<Option<T.Attestation>>, slots: set<nat>, liquidate: bool) {
    T.Qualifies(t, given, slots) && (liquidate ==> forall i :: i in slots ==> given[i].value.price < t.strike)
  }

  /** The choice among what was given: there is one exactly when some slots fit, and no slots
      that fit are presented at a lower price. */
  ghost predicate Picks(t: T.LoanTerms, given: seq<Option<T.Attestation>>, liquidate: bool, sel: Option<T.Selection>) {
    && (sel.Some? <==> exists slots :: Fit(t, given, slots, liquidate))
    && (sel.Some? ==> Fit(t, given, sel.value.slots, liquidate) && T.Highest(given, sel.value.slots, sel.value.price))
    && (sel.Some? ==> forall slots, price: nat :: Fit(t, given, slots, liquidate) && T.Highest(given, slots, price) ==> sel.value.price <= price)
  }

  method Pick(t: T.LoanTerms, given: seq<Option<T.Attestation>>, liquidate: bool) returns (sel: Option<T.Selection>)
    requires T.Threshold(t) >= 1
    ensures Picks(t, given, liquidate, sel)
  {
    if liquidate {
      sel := T.LiquidatableSlots(t, given);
    } else {
      sel := T.SelectThreshold(t, given);
    }
    PickedFits(t, given, liquidate);
    if sel.Some? {
      SelectedFits(t, given, liquidate, sel.value);
    }
  }

  lemma PickedFits(t: T.LoanTerms, given: seq<Option<T.Attestation>>, liquidate: bool)
    ensures forall slots :: Fit(t, given, slots, liquidate) <==>
      T.Qualifies(t, given, slots) && (liquidate ==> forall i :: i in slots ==> given[i].value.price < t.strike)
  {}

  lemma SelectedFits(t: T.LoanTerms, given: seq<Option<T.Attestation>>, liquidate: bool, sel: T.Selection)
    requires T.Qualifies(t, given, sel.slots) && T.Highest(given, sel.slots, sel.price) && (liquidate ==> sel.price < t.strike)
    ensures Fit(t, given, sel.slots, liquidate)
  {}

  /** What the command line makes of a set of attestations: nothing when any of them is not
      one it takes, else the choice. */
  ghost predicate PicksPy(or: Oracles, d: Deal, served: Served, liquidate: bool, sel: Option<T.Selection>) {
    if AllShaped(or, d, served) then Picks(d.t, GivenPy(or, d, served), liquidate, sel) else sel == None
  }

  /** The browser: the choice, and nothing when its price divides by zero. */
  ghost predicate PicksJs(or: Oracles, d: Deal, served: Served, liquidate: bool, sel: Option<T.Selection>) {
    exists picked :: Picks(d.t, GivenJs(or, d, served), liquidate, picked)
      && sel == if picked.Some? && picked.value.price < 1 then None else picked
  }

  method EvidencePy(or: Oracles, d: Deal, served: Served, liquidate: bool) returns (sel: Option<T.Selection>)
    requires T.Threshold(d.t) >= 1
    ensures PicksPy(or, d, served, liquidate, sel)
  {
    var todo := served.Keys;
    while todo != {}
      invariant todo <= served.Keys && forall k :: k in served && k !in todo ==> Shaped(or, d, served[k])
    {
      var k :| k in todo;
      var e := served[k];
      if e.scale != d.t.priceScale || e.price < 1 || (e.feed.Some? && e.feed.value != or.feedOf(d.market)) {
        return None;
      }
      todo := todo - {k};
    }
    sel := Pick(d.t, GivenPy(or, d, served), liquidate);
  }

  method EvidenceJs(or: Oracles, d: Deal, served: Served, liquidate: bool) returns (sel: Option<T.Selection>)
    requires T.Threshold(d.t) >= 1
    ensures PicksJs(or, d, served, liquidate, sel)
  {
    var picked := Pick(d.t, GivenJs(or, d, served), liquidate);
    sel := if picked.Some? && picked.value.price < 1 then None else picked;
  }

  // --------------------------------------------------------------- agreeing

  /** Every attestation's own labels agree. */
  predicate Labelled(or: Oracles, served: Served) {
    forall k :: k in served ==> served[k].feed == Some(or.feedOf(served[k].market))
  }

  lemma SameGiven(or: Oracles, d: Deal, served: Served)
    requires AllShaped(or, d, served) && Labelled(or, served)
    ensures GivenPy(or, d, served) == GivenJs(or, d, served)
  {
    forall i | 0 <= i < |d.keys| && d.keys[i] in served
      ensures ValidPy(or, d, d.keys[i], served[d.keys[i]]) == ValidJs(or, d, d.keys[i], served[d.keys[i]])
    {
      assert Shaped(or, d, served[d.keys[i]]);
    }
  }

  /** Two choices among the same attestations are at one price. */
  lemma OnePick(t: T.LoanTerms, given: seq<Option<T.Attestation>>, liquidate: bool, a: Option<T.Selection>, b: Option<T.Selection>)
    requires Picks(t, given, liquidate, a) && Picks(t, given, liquidate, b)
    ensures a.Some? == b.Some? && (a.Some? ==> a.value.price == b.value.price)
  {}

  /** What is chosen from what the command line takes is at a price there is. */
  lemma PickedPriced(or: Oracles, d: Deal, served: Served, liquidate: bool, sel: T.Selection)
    requires AllShaped(or, d, served) && Picks(d.t, GivenJs(or, d, served), liquidate, Some(sel))
    ensures sel.price >= 1
  {
    var given := GivenJs(or, d, served);
    var i :| i in sel.slots && i < |given| && given[i].Some? && given[i].value.price == sel.price;
    assert Shaped(or, d, served[d.keys[i]]);
  }

  /** What was served holds a choice for the browser: some slots fit among what its keys signed
      under the loan's feed and at its scale, and none that fit are all at a price of zero. */
  ghost predicate Choosable(or: Oracles, d: Deal, served: Served, liquidate: bool) {
    && (exists slots :: Fit(d.t, GivenJs(or, d, served), slots, liquidate))
    && forall slots :: Fit(d.t, GivenJs(or, d, served), slots, liquidate) ==> !T.Highest(GivenJs(or, d, served), slots, 0)
  }

  /** The browser composes exactly from what holds a choice. */
  lemma ComposedExactly(or: Oracles, d: Deal, served: Served, liquidate: bool, js: Option<T.Selection>)
    requires PicksJs(or, d, served, liquidate, js)
    ensures js.Some? <==> Choosable(or, d, served, liquidate)
  {
    var picked :| Picks(d.t, GivenJs(or, d, served), liquidate, picked)
      && js == if picked.Some? && picked.value.price < 1 then None else picked;
  }

  /** Exactly when the two agree, among attestations whose own labels do: when the command line
      takes every one that was served, or there is no choice among them for the browser. */
  lemma EvidenceAgrees(or: Oracles, d: Deal, served: Served, liquidate: bool, py: Option<T.Selection>, js: Option<T.Selection>)
    requires Labelled(or, served) && PicksPy(or, d, served, liquidate, py) && PicksJs(or, d, served, liquidate, js)
    ensures py.Some? == js.Some? && (py.Some? ==> py.value.price == js.value.price)
      <==> AllShaped(or, d, served) || !Choosable(or, d, served, liquidate)
  {
    ComposedExactly(or, d, served, liquidate, js);
    if AllShaped(or, d, served) {
      ShapedAgrees(or, d, served, liquidate, py, js);
    }
  }

  lemma ShapedAgrees(or: Oracles, d: Deal, served: Served, liquidate: bool, py: Option<T.Selection>, js: Option<T.Selection>)
    requires Labelled(or, served) && AllShaped(or, d, served)
    requires PicksPy(or, d, served, liquidate, py) && PicksJs(or, d, served, liquidate, js)
    ensures py.Some? == js.Some? && (py.Some? ==> py.value.price == js.value.price)
  {
    var picked :| Picks(d.t, GivenJs(or, d, served), liquidate, picked)
      && js == if picked.Some? && picked.value.price < 1 then None else picked;
    SameGiven(or, d, served);
    OnePick(d.t, GivenJs(or, d, served), liquidate, py, picked);
    if picked.Some? {
      PickedPriced(or, d, served, liquidate, picked.value);
    }
  }

  /** Any attestation at another scale, whoever's, makes the command line refuse; the browser
      passes over it. Here two of three oracles, at five and six, and a third at seven. */
  lemma OtherScale(or: Oracles, d: Deal) returns (served: Served)
    requires |d.keys| == 3 && d.keys[0] != d.keys[1] && d.keys[0] != d.keys[2] && d.keys[1] != d.keys[2]
    requires T.Threshold(d.t) == 2 && d.t.strike > 6 && d.t.notBefore == 0 && d.t.priceScale >= 1
    requires forall k, feed, price, time: nat :: or.signed(k, feed, price, time, 0)
    ensures Labelled(or, served) && |served| == 3
    ensures forall py :: PicksPy(or, d, served, true, py) ==> py == None
    ensures forall js :: PicksJs(or, d, served, true, js) ==> js.Some? && js.value.price == 6
  {
    var feed := Some(or.feedOf(d.market));
    var at := d.t.priceScale as nat;
    served := map[d.keys[0] := Entry(d.market, feed, at, 5, 0, 0),
                  d.keys[1] := Entry(d.market, feed, at, 6, 0, 0),
                  d.keys[2] := Entry(d.market, feed, at + 1, 7, 0, 0)];
    assert !Shaped(or, d, served[d.keys[2]]);
    var given := GivenJs(or, d, served);
    assert T.Usable(d.t, given[0]) && T.Usable(d.t, given[1]) && !T.Usable(d.t, given[2]);
    assert Fit(d.t, given, {0, 1}, true) && T.Highest(given, {0, 1}, 6) by {
      assert 1 in {0, 1} && given[1].value.price == 6;
    }
    forall js | PicksJs(or, d, served, true, js) ensures js.Some? && js.value.price == 6 {
      BothNeeded(or, d, given, js);
    }
  }

  lemma BothNeeded(or: Oracles, d: Deal, given: seq<Option<T.Attestation>>, js: Option<T.Selection>)
    requires |given| == 3 && given[0].Some? && given[1].Some? && given[0].value.price == 5 && given[1].value.price == 6
    requires T.Threshold(d.t) == 2 && !T.Usable(d.t, given[2]) && Fit(d.t, given, {0, 1}, true) && T.Highest(given, {0, 1}, 6)
    requires exists picked :: Picks(d.t, given, true, picked) && js == if picked.Some? && picked.value.price < 1 then None else picked
    ensures js.Some? && js.value.price == 6
  {
    var picked :| Picks(d.t, given, true, picked) && js == if picked.Some? && picked.value.price < 1 then None else picked;
    var slots := picked.value.slots;
    assert slots <= {0, 1};
    if 1 !in slots {
      assert slots <= {0};
      Fewer(slots, {0});
    }
  }

  // ------------------------------------------------------------- composing

  /** A seizure from a choice of attestations. */
  function Seized(d: Deal, loan: Loan, sel: Option<T.Selection>, vault: Coin, funding: seq<Coin>, taker: Spk, change: Spk, fee: FeeRule): Option<Spend1>
    requires d.t.bonusDen > 0 && (sel.Some? ==> sel.value.price >= 1)
  {
    if sel.None? then None else Seizure(loan, vault, Explain.Seize(d.t, sel.value.price), funding, taker, change, fee)
  }

  /** From the same attestations and coins both compose the same outputs and refuse alike, if
      the command line takes every attestation that was served. */
  lemma SeizuresAgree(or: Oracles, d: Deal, served: Served, liquidate: bool, py: Option<T.Selection>, js: Option<T.Selection>,
                      loan: Loan, vault: Coin, funding: seq<Coin>, taker: Spk, change: Spk, fee: FeeRule)
    requires d.t.bonusDen > 0 && Labelled(or, served) && AllShaped(or, d, served)
    requires PicksPy(or, d, served, liquidate, py) && PicksJs(or, d, served, liquidate, js)
    ensures (py.Some? ==> py.value.price >= 1) && (js.Some? ==> js.value.price >= 1)
    ensures Seized(d, loan, py, vault, funding, taker, change, fee) == Seized(d, loan, js, vault, funding, taker, change, fee)
  {
    ShapedAgrees(or, d, served, liquidate, py, js);
  }

  method LiquidatePy(or: Oracles, d: Deal, served: Served, liquidate: bool, loan: Loan, vault: Coin, funding: seq<Coin>,
                     taker: Spk, change: Spk, fee: FeeRule) returns (sel: Option<T.Selection>, spend: Option<Spend1>)
    requires T.Threshold(d.t) >= 1 && d.t.bonusDen > 0
    ensures PicksPy(or, d, served, liquidate, sel) && (sel.Some? ==> sel.value.price >= 1)
    ensures spend == Seized(d, loan, sel, vault, funding, taker, change, fee)
  {
    sel := EvidencePy(or, d, served, liquidate);
    if sel.None? {
      return sel, None;
    }
    PricedPy(or, d, served, liquidate, sel.value);
    spend := SeizurePy(loan, vault, Explain.Seize(d.t, sel.value.price), funding, taker, change, fee);
  }

  lemma PricedPy(or: Oracles, d: Deal, served: Served, liquidate: bool, sel: T.Selection)
    requires PicksPy(or, d, served, liquidate, Some(sel))
    ensures sel.price >= 1
  {
    var given := GivenPy(or, d, served);
    var i :| i in sel.slots && i < |given| && given[i].Some? && given[i].value.price == sel.price;
    assert Shaped(or, d, served[d.keys[i]]);
  }

  method LiquidateJs(or: Oracles, d: Deal, served: Served, liquidate: bool, loan: Loan, vault: Coin, funding: seq<Coin>,
                     taker: Spk, change: Spk, fee: FeeRule) returns (sel: Option<T.Selection>, spend: Option<Spend1>)
    requires T.Threshold(d.t) >= 1 && d.t.bonusDen > 0
    ensures PicksJs(or, d, served, liquidate, sel) && (sel.Some? ==> sel.value.price >= 1)
    ensures spend == Seized(d, loan, sel, vault, funding, taker, change, fee)
  {
    sel := EvidenceJs(or, d, served, liquidate);
    if sel.None? {
      return sel, None;
    }
    spend := SeizureJs(loan, vault, Explain.Seize(d.t, sel.value.price), funding, taker, change, fee);
  }

  // ------------------------------------------------------------ one oracle

  /** A loan that names one oracle: the price of its attestation, if it is taken. */
  function SinglePy(or: Oracles, d: Deal, k: nat, e: Entry, liquidate: bool): Option<nat> {
    if !Shaped(or, d, e) then None
    else if !(e.feed == Some(or.feedOf(e.market)) && or.signed(k, or.feedOf(e.market), e.price, e.timestamp, e.sig)) then None
    else if e.timestamp < d.t.notBefore || (liquidate && e.price >= d.t.strike) then None
    else Some(e.price)
  }

  function SingleJs(or: Oracles, d: Deal, k: nat, e: Entry, liquidate: bool): Option<nat> {
    if e.scale != d.t.priceScale || (liquidate && e.price >= d.t.strike) || e.timestamp < d.t.notBefore then None
    else if !or.signed(k, or.feedOf(d.market), e.price, e.timestamp, e.sig) then None
    else if e.price < 1 then None
    else Some(e.price)
  }

  /** The two agree exactly when the attestation is labelled with the loan's feed and a market
      of it, or is one no program could use: at another scale, too early, not under the strike
      for a liquidation, not signed under the loan's feed, or at no price. */
  lemma SinglesAgree(or: Oracles, d: Deal, k: nat, e: Entry, liquidate: bool)
    ensures SinglePy(or, d, k, e, liquidate) == SingleJs(or, d, k, e, liquidate) <==>
      || (e.feed == Some(or.feedOf(d.market)) && or.feedOf(e.market) == or.feedOf(d.market))
      || e.scale != d.t.priceScale || e.timestamp < d.t.notBefore || (liquidate && e.price >= d.t.strike)
      || !or.signed(k, or.feedOf(d.market), e.price, e.timestamp, e.sig) || e.price < 1
  {}
}
