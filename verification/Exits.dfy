/** The version 1 composers: a loan's exits, and taking and withdrawing an offer. What the
    command line and the browser build is one function of the same inputs. */
module Exits {
  import opened Wrappers
  import opened Vault2
  import opened Compose2

  /** The economics of a loan and who is paid. */
  datatype Loan = Loan(debtAsset: Id, collateralAsset: Id, debt: nat, collateral: nat, lender: Spk, borrower: Spk)

  /** How a fee is paid, and below what its change is not worth an output. */
  datatype FeeRule = FeeRule(asset: Id, amount: nat, dust: nat)

  // ----------------------------------------------------------------- change

  /** What is needed of each asset, the fee among them: two needs of one asset are their sum. */
  function WithFee(need: map<Id, nat>, fee: FeeRule): map<Id, nat> {
    need[fee.asset := Need(need, fee.asset) + fee.amount]
  }

  predicate Funded(coins: seq<Coin>, need: map<Id, nat>) {
    forall a :: a in need ==> need[a] <= CoinTotal(coins, a)
  }

  lemma FundedCovers(coins: seq<Coin>, need: map<Id, nat>, assets: seq<Id>)
    requires Funded(coins, need)
    ensures Covered(assets, coins, need)
  {
    forall i | 0 <= i < |assets| ensures Need(need, assets[i]) <= CoinTotal(coins, assets[i]) {
      assert assets[i] in need ==> need[assets[i]] <= CoinTotal(coins, assets[i]);
    }
  }

  /** One more asset's change, folded into the fee or kept. */
  function FoldStep(before: (seq<Out>, nat), a: Id, rest: nat, spk: Spk, fee: FeeRule): (seq<Out>, nat) {
    if rest == 0 then before
    else if a == fee.asset && rest < fee.dust then (before.0, before.1 + rest)
    else (before.0 + [Out(spk, a, rest, true)], before.1)
  }

  /** The change of some assets, dust folded: the outputs, and the fee that is paid. */
  function ChangeOf(assets: seq<Id>, coins: seq<Coin>, need: map<Id, nat>, spk: Spk, fee: FeeRule): (seq<Out>, nat)
    requires Covered(assets, coins, need)
  {
    if assets == [] then ([], fee.amount)
    else
      var a := assets[|assets| - 1];
      FoldStep(ChangeOf(assets[..|assets| - 1], coins, need, spk, fee), a, CoinTotal(coins, a) - Need(need, a), spk, fee)
  }

  function Change1(coins: seq<Coin>, need: map<Id, nat>, spk: Spk, fee: FeeRule): (seq<Out>, nat)
    requires Funded(coins, need)
  {
    FundedCovers(coins, need, Assets(coins));
    ChangeOf(Assets(coins), coins, need, spk, fee)
  }

  lemma StepTotal(before: (seq<Out>, nat), a: Id, rest: nat, spk: Spk, fee: FeeRule, asset: Id)
    ensures var after := FoldStep(before, a, rest, spk, fee);
      OutTotal(after.0, asset) + (if asset == fee.asset then after.1 else 0)
        == OutTotal(before.0, asset) + (if asset == fee.asset then before.1 else 0) + (if asset == a then rest else 0)
  {
    OutTotalConcat(before.0, [Out(spk, a, rest, true)], asset);
    OneOut(Out(spk, a, rest, true), asset);
  }

  lemma {:induction false} ChangeOfTotal(assets: seq<Id>, coins: seq<Coin>, need: map<Id, nat>, spk: Spk, fee: FeeRule, asset: Id)
    requires Covered(assets, coins, need) && Distinct(assets)
    ensures var (outs, paid) := ChangeOf(assets, coins, need, spk, fee);
      OutTotal(outs, asset) + (if asset == fee.asset then paid else 0)
        == (if asset in assets then CoinTotal(coins, asset) - Need(need, asset) else 0) + (if asset == fee.asset then fee.amount else 0)
  {
    if assets != [] {
      var before, a := assets[..|assets| - 1], assets[|assets| - 1];
      ChangeOfTotal(before, coins, need, spk, fee, asset);
      StepTotal(ChangeOf(before, coins, need, spk, fee), a, CoinTotal(coins, a) - Need(need, a), spk, fee, asset);
      assert asset in assets <==> asset in before || asset == a;
    }
  }

  /** Change, the fee paid and what was needed are together all the coins. */
  lemma ChangeAll(coins: seq<Coin>, need: map<Id, nat>, spk: Spk, fee: FeeRule, asset: Id)
    requires Funded(coins, WithFee(need, fee))
    ensures var (outs, paid) := Change1(coins, WithFee(need, fee), spk, fee);
      OutTotal(outs, asset) + (if asset == fee.asset then paid else 0) + Need(need, asset) == CoinTotal(coins, asset)
  {
    var all := WithFee(need, fee);
    FundedCovers(coins, all, Assets(coins));
    AssetsAre(coins, asset);
    ChangeOfTotal(Assets(coins), coins, all, spk, fee, asset);
    assert asset in all ==> all[asset] <= CoinTotal(coins, asset);
  }

  /** The command line's change: every need checked first, dust folded as it comes. */
  method ChangePy(coins: seq<Coin>, spent: map<Id, nat>, spk: Spk, fee: FeeRule) returns (change: Option<(seq<Out>, nat)>)
    ensures change == if Funded(coins, WithFee(spent, fee)) then Some(Change1(coins, WithFee(spent, fee), spk, fee)) else None
  {
    var need := spent[fee.asset := (if fee.asset in spent then spent[fee.asset] else 0) + fee.amount];
    var have, order := Held(coins);
    var funded := AllHeld(coins, need, have);
    if funded {
      var outs, paid := FoldEach(coins, order, have, need, spk, fee);
      return Some((outs, paid));
    }
    return None;
  }

  method AllHeld(ghost coins: seq<Coin>, need: map<Id, nat>, have: map<Id, nat>) returns (funded: bool)
    requires forall a :: a in have <==> a in Assets(coins)
    requires forall a :: a in have ==> have[a] == CoinTotal(coins, a)
    ensures funded <==> Funded(coins, need)
  {
    var todo := need.Keys;
    while todo != {}
      invariant todo <= need.Keys && forall a :: a in need && a !in todo ==> need[a] <= CoinTotal(coins, a)
    {
      var a :| a in todo;
      AssetsAre(coins, a);
      if (if a in have then have[a] else 0) < need[a] {
        return false;
      }
      todo := todo - {a};
    }
    return true;
  }

  lemma FoldOne(assets: seq<Id>, i: nat, coins: seq<Coin>, need: map<Id, nat>, spk: Spk, fee: FeeRule)
    requires i < |assets| && Covered(assets[..i], coins, need) && Need(need, assets[i]) <= CoinTotal(coins, assets[i])
    ensures Covered(assets[..i + 1], coins, need)
    ensures ChangeOf(assets[..i + 1], coins, need, spk, fee)
      == FoldStep(ChangeOf(assets[..i], coins, need, spk, fee), assets[i], CoinTotal(coins, assets[i]) - Need(need, assets[i]), spk, fee)
  {
    CoveredMore(assets, i, coins, need);
    assert assets[..i + 1][..i] == assets[..i] && assets[..i + 1][i] == assets[i];
  }

  method FoldEach(ghost coins: seq<Coin>, order: seq<Id>, have: map<Id, nat>, need: map<Id, nat>, spk: Spk, fee: FeeRule)
    returns (outs: seq<Out>, paid: nat)
    requires Funded(coins, need) && order == Assets(coins)
    requires forall a :: a in have <==> a in order
    requires forall a :: a in have ==> have[a] == CoinTotal(coins, a)
    ensures (outs, paid) == Change1(coins, need, spk, fee)
  {
    outs, paid := [], fee.amount;
    for i := 0 to |order|
      invariant Covered(order[..i], coins, need)
      invariant (outs, paid) == ChangeOf(order[..i], coins, need, spk, fee)
    {
      var a := order[i];
      FundedNeed(coins, need, a);
      FoldOne(order, i, coins, need, spk, fee);
      var rest := have[a] - Need(need, a);
      if 0 < rest < fee.dust && a == fee.asset {
        paid := paid + rest;
      } else if rest > 0 {
        outs := outs + [Out(spk, a, rest, true)];
      }
    }
    assert order[..|order|] == order;
  }

  // ------------------------------------------------------------------ spends

  /** A composed spend: the covenant's coin, what its spender brought, and the outputs. */
  datatype Spend1 = Spend1(covenant: Coin, funding: seq<Coin>, outs: seq<Out>)

  ghost predicate Balanced1(s: Spend1) {
    forall asset :: CoinTotal([s.covenant] + s.funding, asset) == OutTotal(s.outs, asset)
  }

  function Fee1(fee: FeeRule, paid: nat): Out { Fee(fee.asset, paid) }

  /** Something that is not this asset, for the place where that asset would be misread. */
  function Filler(change: seq<Out>, asset: Id): Option<nat> {
    if change == [] then None
    else if change[0].asset != asset then Some(0)
    else
      var rest := Filler(change[1..], asset);
      if rest.None? then None else Some(rest.value + 1)
  }

  lemma {:induction false} FillerIs(change: seq<Out>, asset: Id)
    ensures Filler(change, asset).Some? ==> Filler(change, asset).value < |change| && change[Filler(change, asset).value].asset != asset
    ensures Filler(change, asset).None? ==> forall i :: 0 <= i < |change| ==> change[i].asset == asset
  {
    if change != [] {
      FillerIs(change[1..], asset);
    }
  }

  lemma WithoutOne(outs: seq<Out>, i: nat, asset: Id)
    requires i < |outs|
    ensures OutTotal(outs[..i] + outs[i + 1..], asset) + Amount(outs[i], asset) == OutTotal(outs, asset)
  {
    OutTotalConcat(outs[..i], outs[i + 1..], asset);
    OutTotalConcat(outs[..i], [outs[i]] + outs[i + 1..], asset);
    OutTotalConcat([outs[i]], outs[i + 1..], asset);
    OneOut(outs[i], asset);
    assert outs == outs[..i] + ([outs[i]] + outs[i + 1..]);
  }

  /** Fixed outputs with one place that must not hold an asset: a given output, or, when
      there is none, the fee if it is in another asset, or else change in another. */
  function Placed(first: Out, second: Option<Out>, rest: seq<Out>, change: seq<Out>, fee: FeeRule, paid: nat, not_: Id): Option<seq<Out>> {
    match second
    case Some(out) => Some([first] + [out] + rest + change + [Fee1(fee, paid)])
    case None =>
      if fee.asset != not_ then Some([first] + [Fee1(fee, paid)] + rest + change)
      else
        var i := Filler(change, not_);
        if i.None? || i.value >= |change| then None
        else Some([first] + [change[i.value]] + rest + (change[..i.value] + change[i.value + 1..]) + [Fee1(fee, paid)])
  }

  /** However they are placed, the outputs are the fixed ones, the change and the fee. */
  lemma PlacedTotal(first: Out, second: Option<Out>, rest: seq<Out>, change: seq<Out>, fee: FeeRule, paid: nat, not_: Id, asset: Id)
    requires Placed(first, second, rest, change, fee, paid, not_).Some?
    ensures OutTotal(Placed(first, second, rest, change, fee, paid, not_).value, asset)
      == Amount(first, asset) + (if second.Some? then Amount(second.value, asset) else 0)
        + OutTotal(rest, asset) + OutTotal(change, asset) + (if asset == fee.asset then paid else 0)
  {
    var feeOut := Fee1(fee, paid);
    OneOut(feeOut, asset);
    if second.Some? {
      PlacedParts(first, second.value, rest, change, [feeOut], asset);
    } else if fee.asset != not_ {
      PlacedParts(first, feeOut, rest, change, [], asset);
      assert [first] + [feeOut] + rest + change + [] == [first] + [feeOut] + rest + change;
    } else {
      var i := Filler(change, not_).value;
      PlacedParts(first, change[i], rest, change[..i] + change[i + 1..], [feeOut], asset);
      WithoutOne(change, i, asset);
    }
  }

  lemma PlacedParts(first: Out, second: Out, rest: seq<Out>, change: seq<Out>, last: seq<Out>, asset: Id)
    ensures OutTotal([first] + [second] + rest + change + last, asset)
      == Amount(first, asset) + Amount(second, asset) + OutTotal(rest, asset) + OutTotal(change, asset) + OutTotal(last, asset)
  {
    OutTotalConcat([first] + [second] + rest + change, last, asset);
    OutTotalConcat([first] + [second] + rest, change, asset);
    OutTotalConcat([first] + [second], rest, asset);
    OutTotalConcat([first], [second], asset);
    OneOut(first, asset);
    OneOut(second, asset);
  }

  /** The second place holds the output given, or something that is not the asset and is
      found unless fee and change are all in it; after the fixed outputs only change and the
      fee are left. */
  lemma PlacedSlots(first: Out, second: Option<Out>, rest: seq<Out>, change: seq<Out>, fee: FeeRule, paid: nat, not_: Id)
    ensures var placed := Placed(first, second, rest, change, fee, paid, not_);
      && (placed.None? <==> second.None? && fee.asset == not_ && forall i :: 0 <= i < |change| ==> change[i].asset == not_)
      && (placed.Some? ==>
            var outs := placed.value;
            && |outs| == 3 + |rest| + |change| - (if second.None? then 1 else 0)
            && outs[0] == first && outs[2..2 + |rest|] == rest
            && (if second.Some? then outs[1] == second.value else outs[1].asset != not_)
            && (second.None? ==> outs[1] == Out(Script(0), fee.asset, paid, true) || outs[1] in change)
            && forall i :: 2 + |rest| <= i < |outs| ==> outs[i] == Out(Script(0), fee.asset, paid, true) || outs[i] in change)
  {
    FillerIs(change, not_);
  }

  // ------------------------------------------------------------------- exits

  function DebtNeed(t: Loan): map<Id, nat> { map[t.debtAsset := t.debt] }

  function LenderOut(t: Loan): Out { Pay(t.lender, t.debtAsset, t.debt) }

  /** REPAY: the lender the debt, the borrower the whole of what the vault holds. */
  function Repay1(t: Loan, vault: Coin, funding: seq<Coin>, change: Spk, fee: FeeRule): Option<Spend1> {
    if vault.amount < t.collateral || !Funded(funding, WithFee(DebtNeed(t), fee)) then None
    else
      var (outs, paid) := Change1(funding, WithFee(DebtNeed(t), fee), change, fee);
      var home := Pay(t.borrower, t.collateralAsset, vault.amount);
      Some(Spend1(vault, funding, [LenderOut(t)] + [home] + [] + outs + [Fee1(fee, paid)]))
  }

  /** What a seizure returns the borrower: the surplus, lifted out of the dust the fee's
      asset has; nothing when that leaves the taker dust. */
  function Returned(held: nat, seize: nat, inFeeAsset: bool, dust: nat): Option<nat>
    requires seize < held
  {
    var surplus := held - seize;
    if !inFeeAsset then Some(surplus)
    else
      var lifted := if surplus < dust then dust else surplus;
      if lifted > held || held - lifted < dust then None else Some(lifted)
  }

  /** LIQUIDATE and DEFAULT: the lender the debt, the taker the seizure, the borrower the rest. */
  function Seizure(t: Loan, vault: Coin, seize: nat, funding: seq<Coin>, taker: Spk, change: Spk, fee: FeeRule): Option<Spend1> {
    var held := vault.amount;
    if held < t.collateral || !Funded(funding, WithFee(DebtNeed(t), fee)) then None
    else
      var (outs, paid) := Change1(funding, WithFee(DebtNeed(t), fee), change, fee);
      if seize < held then
        var returned := Returned(held, seize, fee.asset == t.collateralAsset, fee.dust);
        if returned.None? || returned.value > held then None
        else
          var second := Pay(t.borrower, t.collateralAsset, returned.value);
          var kept := Pay(taker, t.collateralAsset, held - returned.value);
          Some(Spend1(vault, funding, [LenderOut(t)] + [second] + [kept] + outs + [Fee1(fee, paid)]))
      else
        var placed := Placed(LenderOut(t), None, [Pay(taker, t.collateralAsset, held)], outs, fee, paid, t.collateralAsset);
        if placed.None? then None else Some(Spend1(vault, funding, placed.value))
  }

  method TakeFiller(change: seq<Out>, asset: Id) returns (filler: Option<Out>, rest: seq<Out>)
    ensures var i := Filler(change, asset);
      if i.None? || i.value >= |change| then filler == None && rest == change
      else filler == Some(change[i.value]) && rest == change[..i.value] + change[i.value + 1..]
  {
    FillerIs(change, asset);
    for i := 0 to |change|
      invariant forall j :: 0 <= j < i ==> change[j].asset == asset
      invariant Filler(change, asset) == After(i, Filler(change[i..], asset))
    {
      assert change[i..][1..] == change[i + 1..];
      if change[i].asset != asset {
        return Some(change[i]), change[..i] + change[i + 1..];
      }
    }
    return None, change;
  }

  function After(i: nat, r: Option<nat>): Option<nat> { if r.None? then None else Some(i + r.value) }

  /** The command line's seizure. */
  method SeizurePy(t: Loan, vault: Coin, seize: nat, funding: seq<Coin>, taker: Spk, change: Spk, fee: FeeRule) returns (spend: Option<Spend1>)
    ensures spend == Seizure(t, vault, seize, funding, taker, change, fee)
  {
    var held := vault.amount;
    if held < t.collateral {
      return None;
    }
    var surplus: int := held - seize;
    var outs := [LenderOut(t)];
    var r := ChangePy(funding, DebtNeed(t), change, fee);
    if r.None? {
      return None;
    }
    var (rest, paid) := r.value;
    if surplus > 0 {
      var kept := seize;
      if fee.asset == t.collateralAsset {
        var lifted: int := if surplus < fee.dust then fee.dust else surplus;
        if seize < fee.dust || held - lifted < fee.dust {
          return None;
        }
        surplus, kept := lifted, held - lifted;
      }
      outs := outs + [Pay(t.borrower, t.collateralAsset, surplus)] + [Pay(taker, t.collateralAsset, kept)];
      return Some(Spend1(vault, funding, outs + rest + [Fee1(fee, paid)]));
    }
    var under := PlacePy(LenderOut(t), None, [Pay(taker, t.collateralAsset, held)], rest, fee, paid, t.collateralAsset);
    return if under.None? then None else Some(Spend1(vault, funding, under.value));
  }

  /** The outputs in the command line's order: something that is not an asset found for the
      second place when nothing is given for it. */
  method PlacePy(first: Out, second: Option<Out>, rest: seq<Out>, change: seq<Out>, fee: FeeRule, paid: nat, not_: Id)
    returns (placed: Option<seq<Out>>)
    ensures placed == Placed(first, second, rest, change, fee, paid, not_)
  {
    if second.Some? {
      return Some([first] + [second.value] + rest + change + [Fee1(fee, paid)]);
    }
    if fee.asset != not_ {
      return Some([first] + [Fee1(fee, paid)] + rest + change);
    }
    var filler, left := TakeFiller(change, not_);
    if filler.None? {
      return None;
    }
    return Some([first] + [filler.value] + rest + left + [Fee1(fee, paid)]);
  }

  /** The browser's change: what was supplied of each asset against what is used. */
  method ChangeJs(coins: seq<Coin>, spent: map<Id, nat>, spk: Spk, fee: FeeRule) returns (change: Option<(seq<Out>, nat)>)
    ensures change == if Funded(coins, WithFee(spent, fee)) then Some(Change1(coins, WithFee(spent, fee), spk, fee)) else None
  {
    var used := spent[fee.asset := (if fee.asset in spent then spent[fee.asset] else 0) + fee.amount];
    var supplied, order := Held(coins);
    change := FoldJs(coins, order, supplied, used, spk, fee);
    if change.Some? {
      var funded := AllHeld(coins, used, supplied);
      if funded {
        ChangeIs(coins, used, spk, fee);
      } else {
        change := None;
      }
    }
    assert used == WithFee(spent, fee);
  }

  lemma ChangeIs(coins: seq<Coin>, need: map<Id, nat>, spk: Spk, fee: FeeRule)
    requires Funded(coins, need)
    ensures Covered(Assets(coins), coins, need) && Change1(coins, need, spk, fee) == ChangeOf(Assets(coins), coins, need, spk, fee)
  {
    FundedCovers(coins, need, Assets(coins));
  }

  method FoldJs(ghost coins: seq<Coin>, order: seq<Id>, supplied: map<Id, nat>, used: map<Id, nat>, spk: Spk, fee: FeeRule)
    returns (each: Option<(seq<Out>, nat)>)
    requires forall a :: a in supplied <==> a in order
    requires forall a :: a in supplied ==> supplied[a] == CoinTotal(coins, a)
    ensures each.None? ==> !Funded(coins, used)
    ensures each.Some? ==> Covered(order, coins, used) && each.value == ChangeOf(order, coins, used, spk, fee)
  {
    var outs, folded := [], 0;
    for i := 0 to |order|
      invariant Covered(order[..i], coins, used)
      invariant (outs, fee.amount + folded) == ChangeOf(order[..i], coins, used, spk, fee)
    {
      var a := order[i];
      var rest: int := supplied[a] - Need(used, a);
      if rest < 0 {
        NotFunded(coins, used, a);
        return None;
      }
      FoldOne(order, i, coins, used, spk, fee);
      if rest > 0 {
        if a == fee.asset && rest < fee.dust {
          folded := folded + rest;
        } else {
          outs := outs + [Out(spk, a, rest, true)];
        }
      }
    }
    assert order[..|order|] == order;
    return Some((outs, fee.amount + folded));
  }

  lemma FundedNeed(coins: seq<Coin>, need: map<Id, nat>, a: Id)
    requires Funded(coins, need)
    ensures Need(need, a) <= CoinTotal(coins, a)
  {
    assert a in need ==> need[a] <= CoinTotal(coins, a);
  }

  lemma NotFunded(coins: seq<Coin>, need: map<Id, nat>, a: Id)
    requires CoinTotal(coins, a) < Need(need, a)
    ensures !Funded(coins, need)
  {
    assert a in need;
  }

  /** The browser's seizure. */
  method SeizureJs(t: Loan, vault: Coin, seize: nat, funding: seq<Coin>, taker: Spk, change: Spk, fee: FeeRule) returns (spend: Option<Spend1>)
    ensures spend == Seizure(t, vault, seize, funding, taker, change, fee)
  {
    var locked := vault.amount;
    if locked < t.collateral {
      return None;
    }
    var surplus: int := if locked > seize then locked - seize else 0;
    var r := ChangeJs(funding, DebtNeed(t), change, fee);
    if r.None? {
      return None;
    }
    var (rest, paid) := r.value;
    if surplus > 0 {
      var returned := surplus;
      if fee.asset == t.collateralAsset {
        if returned < fee.dust {
          returned := fee.dust;
        }
        if locked - returned < fee.dust {
          return None;
        }
      }
      var outs := [LenderOut(t)] + [Pay(t.borrower, t.collateralAsset, returned)] + [Pay(taker, t.collateralAsset, locked - returned)];
      return Some(Spend1(vault, funding, outs + rest + [Fee1(fee, paid)]));
    }
    var under := PlaceJs(LenderOut(t), None, [Pay(taker, t.collateralAsset, locked)], rest, fee, paid, t.collateralAsset);
    return if under.None? then None else Some(Spend1(vault, funding, under.value));
  }

  /** The browser's order, the fee last unless it was placed. */
  method PlaceJs(first: Out, second: Option<Out>, more: seq<Out>, change: seq<Out>, fee: FeeRule, paid: nat, not_: Id)
    returns (placed: Option<seq<Out>>)
    ensures placed == Placed(first, second, more, change, fee, paid, not_)
  {
    var outs, rest, feePlaced := [first], change, false;
    if second.Some? {
      outs := outs + [second.value];
    } else if fee.asset != not_ {
      outs, feePlaced := outs + [Fee1(fee, paid)], true;
    } else {
      var filler;
      filler, rest := TakeFiller(change, not_);
      if filler.None? {
        return None;
      }
      outs := outs + [filler.value];
    }
    outs := outs + more + rest;
    return Some(if feePlaced then outs else outs + [Fee1(fee, paid)]);
  }

  // ------------------------------------------------------------ the change

  /** Enough was brought of every asset, the fee on top of what is needed in its own. */
  lemma FundedExactly(coins: seq<Coin>, need: map<Id, nat>, fee: FeeRule)
    ensures Funded(coins, WithFee(need, fee)) <==>
      && Need(need, fee.asset) + fee.amount <= CoinTotal(coins, fee.asset)
      && forall a :: a in need && a != fee.asset ==> need[a] <= CoinTotal(coins, a)
  {
    var all := WithFee(need, fee);
    assert fee.asset in all && forall a :: a in need && a != fee.asset ==> a in all && all[a] == need[a];
  }

  /** Change goes to the change script, in outputs worth having; what is not goes to the fee. */
  ghost predicate Worth(outs: seq<Out>, paid: nat, change: Spk, fee: FeeRule) {
    && (forall o :: o in outs ==> o.spk == change && o.explicit && o.amount > 0 && (o.asset == fee.asset ==> o.amount >= fee.dust))
    && fee.amount <= paid && (paid > fee.amount ==> paid < fee.amount + fee.dust)
    && forall i, j :: 0 <= i < j < |outs| ==> outs[i].asset != outs[j].asset
  }

  lemma {:induction false} ChangeOfWorth(assets: seq<Id>, coins: seq<Coin>, need: map<Id, nat>, spk: Spk, fee: FeeRule)
    requires Covered(assets, coins, need) && Distinct(assets)
    ensures var (outs, paid) := ChangeOf(assets, coins, need, spk, fee);
      && Worth(outs, paid, spk, fee) && (forall o :: o in outs ==> o.asset in assets)
      && (fee.asset !in assets ==> paid == fee.amount)
  {
    if assets != [] {
      var before, a := assets[..|assets| - 1], assets[|assets| - 1];
      ChangeOfWorth(before, coins, need, spk, fee);
      assert a !in before;
    }
  }

  lemma ChangeGoes(coins: seq<Coin>, need: map<Id, nat>, spk: Spk, fee: FeeRule)
    requires Funded(coins, WithFee(need, fee))
    ensures var (outs, paid) := Change1(coins, WithFee(need, fee), spk, fee); Worth(outs, paid, spk, fee)
  {
    FundedCovers(coins, WithFee(need, fee), Assets(coins));
    AssetsAre(coins, 0);
    ChangeOfWorth(Assets(coins), coins, WithFee(need, fee), spk, fee);
  }

  /** An output that is change or the fee. */
  predicate Rest(o: Out, change: Spk, fee: FeeRule) {
    o.explicit && (o.spk == change || (o.spk == Script(0) && o.asset == fee.asset && fee.amount <= o.amount < fee.amount + (if fee.dust > 0 then fee.dust else 1)))
  }

  // -------------------------------------------------------------- what holds

  /** Whatever the change, a spend's fixed outputs are the covenant's coin and the need. */
  lemma SpendBalances(covenant: Coin, funding: seq<Coin>, need: map<Id, nat>, change: Spk, fee: FeeRule, outs: seq<Out>)
    requires Funded(funding, WithFee(need, fee))
    requires var (rest, paid) := Change1(funding, WithFee(need, fee), change, fee);
      forall asset :: OutTotal(outs, asset) == (if asset == covenant.asset then covenant.amount else 0) + Need(need, asset)
        + OutTotal(rest, asset) + (if asset == fee.asset then paid else 0)
    ensures Balanced1(Spend1(covenant, funding, outs))
  {
    forall asset ensures CoinTotal([covenant] + funding, asset) == OutTotal(outs, asset) {
      ChangeAll(funding, need, change, fee, asset);
      CoinTotalConcat([covenant], funding, asset);
      assert CoinTotal([covenant][..0], asset) == 0;
    }
  }

  /** Every seizure balances in every asset, the fee included, whatever asset it is in. */
  lemma SeizureBalances(t: Loan, vault: Coin, seize: nat, funding: seq<Coin>, taker: Spk, change: Spk, fee: FeeRule)
    requires vault.asset == t.collateralAsset && Seizure(t, vault, seize, funding, taker, change, fee).Some?
    ensures Balanced1(Seizure(t, vault, seize, funding, taker, change, fee).value)
  {
    var spend := Seizure(t, vault, seize, funding, taker, change, fee).value;
    var (rest, paid) := Change1(funding, WithFee(DebtNeed(t), fee), change, fee);
    forall asset ensures OutTotal(spend.outs, asset) == (if asset == vault.asset then vault.amount else 0) + Need(DebtNeed(t), asset)
      + OutTotal(rest, asset) + (if asset == fee.asset then paid else 0)
    {
      if seize < vault.amount {
        PlacedParts(spend.outs[0], spend.outs[1], [spend.outs[2]], rest, [Fee1(fee, paid)], asset);
        OneOut(spend.outs[2], asset);
        OneOut(Fee1(fee, paid), asset);
      } else {
        var last := Pay(taker, t.collateralAsset, vault.amount);
        PlacedTotal(LenderOut(t), None, [last], rest, fee, paid, t.collateralAsset, asset);
        OneOut(last, asset);
      }
    }
    SpendBalances(vault, funding, DebtNeed(t), change, fee, spend.outs);
  }

  /** When a seizure is composed: the vault holds its collateral, what is needed was brought,
      and neither the taker nor the borrower would be left dust of the fee's asset, nor the
      second place without something that is not collateral. */
  lemma SeizureComposed(t: Loan, vault: Coin, seize: nat, funding: seq<Coin>, taker: Spk, change: Spk, fee: FeeRule)
    ensures Seizure(t, vault, seize, funding, taker, change, fee).Some? <==>
      && vault.amount >= t.collateral && Funded(funding, WithFee(map[t.debtAsset := t.debt], fee))
      && (seize < vault.amount && fee.asset == t.collateralAsset ==> seize >= fee.dust && vault.amount >= 2 * fee.dust)
      && (seize >= vault.amount && fee.asset == t.collateralAsset ==>
            exists o :: o in Change1(funding, WithFee(map[t.debtAsset := t.debt], fee), change, fee).0 && o.asset != t.collateralAsset)
  {
    if Funded(funding, WithFee(DebtNeed(t), fee)) {
      var (rest, paid) := Change1(funding, WithFee(DebtNeed(t), fee), change, fee);
      PlacedSlots(LenderOut(t), None, [Pay(taker, t.collateralAsset, vault.amount)], rest, fee, paid, t.collateralAsset);
    }
  }

  /** Whom a seizure pays: the lender the debt at the first place, at the second the borrower
      what is not seized, more only to be worth an output, and the taker all the rest; under
      water the taker the whole of it, and no collateral is at the second place. */
  lemma SeizureFits(t: Loan, vault: Coin, seize: nat, funding: seq<Coin>, taker: Spk, change: Spk, fee: FeeRule)
    requires Seizure(t, vault, seize, funding, taker, change, fee).Some?
    ensures var spend := Seizure(t, vault, seize, funding, taker, change, fee).value;
      var outs := spend.outs;
      && spend.covenant == vault && spend.funding == funding && |outs| >= 3
      && outs[0] == Out(t.lender, t.debtAsset, t.debt, true)
      && (seize < vault.amount ==>
            var surplus := vault.amount - seize;
            var returned := if fee.asset == t.collateralAsset && surplus < fee.dust then fee.dust else surplus;
            && returned <= vault.amount
            && outs[1] == Out(t.borrower, t.collateralAsset, returned, true)
            && outs[2] == Out(taker, t.collateralAsset, vault.amount - returned, true)
            && (fee.asset == t.collateralAsset ==> outs[1].amount >= fee.dust && outs[2].amount >= fee.dust))
      && (seize >= vault.amount ==>
            outs[1].asset != t.collateralAsset && Rest(outs[1], change, fee) && outs[2] == Out(taker, t.collateralAsset, vault.amount, true))
      && forall i :: 3 <= i < |outs| ==> Rest(outs[i], change, fee)
  {
    var (rest, paid) := Change1(funding, WithFee(DebtNeed(t), fee), change, fee);
    ChangeGoes(funding, DebtNeed(t), change, fee);
    if seize >= vault.amount {
      var last := [Pay(taker, t.collateralAsset, vault.amount)];
      PlacedSlots(LenderOut(t), None, last, rest, fee, paid, t.collateralAsset);
      var outs := Seizure(t, vault, seize, funding, taker, change, fee).value.outs;
      assert outs[2] == outs[2..3][0];
    }
  }

  /** A repayment is composed when the vault holds its collateral and what is needed was
      brought; it balances, credits the lender and sends all the collateral home. */
  lemma RepayFits(t: Loan, vault: Coin, funding: seq<Coin>, change: Spk, fee: FeeRule)
    ensures Repay1(t, vault, funding, change, fee).Some?
      <==> vault.amount >= t.collateral && Funded(funding, WithFee(map[t.debtAsset := t.debt], fee))
    ensures Repay1(t, vault, funding, change, fee).Some? ==>
      var spend := Repay1(t, vault, funding, change, fee).value;
      && spend.covenant == vault && spend.funding == funding && |spend.outs| >= 2
      && (vault.asset == t.collateralAsset ==> Balanced1(spend))
      && spend.outs[0] == Out(t.lender, t.debtAsset, t.debt, true) && spend.outs[1] == Out(t.borrower, t.collateralAsset, vault.amount, true)
      && forall i :: 2 <= i < |spend.outs| ==> Rest(spend.outs[i], change, fee)
  {
    if Repay1(t, vault, funding, change, fee).Some? {
      ChangeGoes(funding, DebtNeed(t), change, fee);
      if vault.asset == t.collateralAsset {
        RepayBalances1(t, vault, funding, change, fee);
      }
    }
  }

  lemma RepayBalances1(t: Loan, vault: Coin, funding: seq<Coin>, change: Spk, fee: FeeRule)
    requires vault.asset == t.collateralAsset && Repay1(t, vault, funding, change, fee).Some?
    ensures Balanced1(Repay1(t, vault, funding, change, fee).value)
  {
    var spend := Repay1(t, vault, funding, change, fee).value;
    var (rest, paid) := Change1(funding, WithFee(DebtNeed(t), fee), change, fee);
    forall asset ensures OutTotal(spend.outs, asset) == (if asset == vault.asset then vault.amount else 0) + Need(DebtNeed(t), asset)
      + OutTotal(rest, asset) + (if asset == fee.asset then paid else 0)
    {
      PlacedParts(spend.outs[0], spend.outs[1], [], rest, [Fee1(fee, paid)], asset);
      OneOut(Fee1(fee, paid), asset);
    }
    SpendBalances(vault, funding, DebtNeed(t), change, fee, spend.outs);
  }

  // ------------------------------------------------------------------ sweeps

  /** The whole of a coin to one script, the fee from what the spender brought. */
  function Sweep(coin: Coin, to: Spk, funding: seq<Coin>, change: Spk, fee: FeeRule): Option<Spend1> {
    if !Funded(funding, WithFee(map[], fee)) then None
    else
      var (rest, paid) := Change1(funding, WithFee(map[], fee), change, fee);
      Some(Spend1(coin, funding, [Pay(to, coin.asset, coin.amount)] + rest + [Fee1(fee, paid)]))
  }

  /** RECOVER: all the vault holds to the lender, whoever builds it. */
  function Recover1(t: Loan, vault: Coin, funding: seq<Coin>, change: Spk, fee: FeeRule): Option<Spend1> {
    if vault.amount < t.collateral then None else Sweep(vault, t.lender, funding, change, fee)
  }

  /** Withdrawing an offer: what is left of it to the lender. */
  function Withdraw1(t: Loan, offer: Coin, funding: seq<Coin>, change: Spk, fee: FeeRule): Option<Spend1> {
    Sweep(offer, t.lender, funding, change, fee)
  }

  method RecoverPy(t: Loan, vault: Coin, funding: seq<Coin>, change: Spk, fee: FeeRule) returns (spend: Option<Spend1>)
    ensures spend == Recover1(t, vault, funding, change, fee)
  {
    if vault.amount < t.collateral {
      return None;
    }
    var r := ChangePy(funding, map[], change, fee);
    if r.None? {
      return None;
    }
    var (rest, paid) := r.value;
    return Some(Spend1(vault, funding, [Pay(t.lender, vault.asset, vault.amount)] + rest + [Fee1(fee, paid)]));
  }

  method WithdrawPy(t: Loan, offer: Coin, funding: seq<Coin>, change: Spk, fee: FeeRule) returns (spend: Option<Spend1>)
    ensures spend == Withdraw1(t, offer, funding, change, fee)
  {
    var r := ChangeTwice(funding, map[], change, fee);
    if r.None? {
      return None;
    }
    var (rest, paid) := r.value;
    return Some(Spend1(offer, funding, [Pay(t.lender, offer.asset, offer.amount)] + rest + [Fee1(fee, paid)]));
  }

  /** A sweep balances and pays all the coin at its first place, whatever asset the fee is in. */
  lemma SweepFits(coin: Coin, to: Spk, funding: seq<Coin>, change: Spk, fee: FeeRule)
    ensures Sweep(coin, to, funding, change, fee).Some? <==> fee.amount <= CoinTotal(funding, fee.asset)
    ensures Sweep(coin, to, funding, change, fee).Some? ==>
      var spend := Sweep(coin, to, funding, change, fee).value;
      && spend.covenant == coin && spend.funding == funding && Balanced1(spend) && |spend.outs| >= 2
      && spend.outs[0] == Out(to, coin.asset, coin.amount, true)
      && forall i :: 1 <= i < |spend.outs| ==> Rest(spend.outs[i], change, fee)
  {
    FundedExactly(funding, map[], fee);
    if Sweep(coin, to, funding, change, fee).Some? {
      ChangeGoes(funding, map[], change, fee);
      SweepBalances(coin, to, funding, change, fee);
    }
  }

  lemma SweepBalances(coin: Coin, to: Spk, funding: seq<Coin>, change: Spk, fee: FeeRule)
    requires Sweep(coin, to, funding, change, fee).Some?
    ensures Balanced1(Sweep(coin, to, funding, change, fee).value)
  {
    var spend := Sweep(coin, to, funding, change, fee).value;
    var (rest, paid) := Change1(funding, WithFee(map[], fee), change, fee);
    var first, last := Pay(to, coin.asset, coin.amount), Fee1(fee, paid);
    forall asset ensures OutTotal(spend.outs, asset) == (if asset == coin.asset then coin.amount else 0) + Need(map[], asset)
      + OutTotal(rest, asset) + (if asset == fee.asset then paid else 0)
    {
      OutTotalConcat([first] + rest, [last], asset);
      OutTotalConcat([first], rest, asset);
      OneOut(first, asset);
      OneOut(last, asset);
    }
    SpendBalances(coin, funding, map[], change, fee, spend.outs);
  }

  /** A recovery and a withdrawal both pay the lender, and only a recovery asks for the
      whole collateral. */
  lemma LenderSweeps(t: Loan, coin: Coin, funding: seq<Coin>, change: Spk, fee: FeeRule)
    ensures Recover1(t, coin, funding, change, fee).Some? <==> coin.amount >= t.collateral && fee.amount <= CoinTotal(funding, fee.asset)
    ensures Withdraw1(t, coin, funding, change, fee).Some? <==> fee.amount <= CoinTotal(funding, fee.asset)
    ensures Recover1(t, coin, funding, change, fee).Some? ==>
      var spend := Recover1(t, coin, funding, change, fee).value;
      Balanced1(spend) && |spend.outs| >= 2 && spend.outs[0] == Out(t.lender, coin.asset, coin.amount, true)
    ensures Withdraw1(t, coin, funding, change, fee).Some? ==>
      var spend := Withdraw1(t, coin, funding, change, fee).value;
      Balanced1(spend) && |spend.outs| >= 2 && spend.outs[0] == Out(t.lender, coin.asset, coin.amount, true)
  {
    SweepFits(coin, t.lender, funding, change, fee);
  }

  // ------------------------------------------------------------------ offers

  /** Draw one principal from an offer: the vault first, the offer's rest second or, when
      there is none, something that is not the debt asset. */
  function Take1(t: Loan, offer: Coin, principal: nat, vault: Spk, borrower: Spk, funding: seq<Coin>, change: Spk, fee: FeeRule): Option<Spend1> {
    var need := map[t.collateralAsset := t.collateral];
    if offer.amount < principal || !Funded(funding, WithFee(need, fee)) then None
    else
      var (rest, paid) := Change1(funding, WithFee(need, fee), change, fee);
      var left := offer.amount - principal;
      var placed := Placed(Pay(vault, t.collateralAsset, t.collateral), if left > 0 then Some(Pay(offer.spk, t.debtAsset, left)) else None,
                           [Pay(borrower, t.debtAsset, principal)], rest, fee, paid, t.debtAsset);
      if placed.None? then None else Some(Spend1(offer, funding, placed.value))
  }

  /** When a take is composed: the offer holds a whole principal, the collateral and the fee
      were brought, and drawing the last of it leaves something for the second place. */
  lemma TakeComposed(t: Loan, offer: Coin, principal: nat, vault: Spk, borrower: Spk, funding: seq<Coin>, change: Spk, fee: FeeRule)
    ensures Take1(t, offer, principal, vault, borrower, funding, change, fee).Some? <==>
      && offer.amount >= principal && Funded(funding, WithFee(map[t.collateralAsset := t.collateral], fee))
      && (offer.amount == principal && fee.asset == t.debtAsset ==>
            exists o :: o in Change1(funding, WithFee(map[t.collateralAsset := t.collateral], fee), change, fee).0 && o.asset != t.debtAsset)
  {
    var need := map[t.collateralAsset := t.collateral];
    if offer.amount >= principal && Funded(funding, WithFee(need, fee)) {
      var (rest, paid) := Change1(funding, WithFee(need, fee), change, fee);
      var left := offer.amount - principal;
      PlacedSlots(Pay(vault, t.collateralAsset, t.collateral), if left > 0 then Some(Pay(offer.spk, t.debtAsset, left)) else None,
                  [Pay(borrower, t.debtAsset, principal)], rest, fee, paid, t.debtAsset);
    }
  }

  /** A take balances, fits the offer's two places and pays the borrower the principal. */
  lemma TakeFits(t: Loan, offer: Coin, principal: nat, vault: Spk, borrower: Spk, funding: seq<Coin>, change: Spk, fee: FeeRule)
    requires Take1(t, offer, principal, vault, borrower, funding, change, fee).Some?
    ensures var spend := Take1(t, offer, principal, vault, borrower, funding, change, fee).value;
      && spend.covenant == offer && spend.funding == funding && |spend.outs| >= 3
      && (offer.asset == t.debtAsset ==> Balanced1(spend))
      && spend.outs[0] == Out(vault, t.collateralAsset, t.collateral, true)
      && (if offer.amount > principal then spend.outs[1] == Out(offer.spk, t.debtAsset, offer.amount - principal, true)
          else spend.outs[1].asset != t.debtAsset && Rest(spend.outs[1], change, fee))
      && spend.outs[2] == Out(borrower, t.debtAsset, principal, true)
      && forall i :: 3 <= i < |spend.outs| ==> Rest(spend.outs[i], change, fee)
  {
    var spend := Take1(t, offer, principal, vault, borrower, funding, change, fee).value;
    var need := map[t.collateralAsset := t.collateral];
    var (rest, paid) := Change1(funding, WithFee(need, fee), change, fee);
    var left := offer.amount - principal;
    var first, drawn := Pay(vault, t.collateralAsset, t.collateral), Pay(borrower, t.debtAsset, principal);
    PlacedSlots(first, if left > 0 then Some(Pay(offer.spk, t.debtAsset, left)) else None, [drawn], rest, fee, paid, t.debtAsset);
    assert spend.outs[2] == spend.outs[2..3][0];
    ChangeGoes(funding, need, change, fee);
    if offer.asset == t.debtAsset {
      TakeBalances(t, offer, principal, vault, borrower, funding, change, fee);
    }
  }

  lemma TakeBalances(t: Loan, offer: Coin, principal: nat, vault: Spk, borrower: Spk, funding: seq<Coin>, change: Spk, fee: FeeRule)
    requires offer.asset == t.debtAsset && Take1(t, offer, principal, vault, borrower, funding, change, fee).Some?
    ensures Balanced1(Take1(t, offer, principal, vault, borrower, funding, change, fee).value)
  {
    var spend := Take1(t, offer, principal, vault, borrower, funding, change, fee).value;
    var need := map[t.collateralAsset := t.collateral];
    var (rest, paid) := Change1(funding, WithFee(need, fee), change, fee);
    var left := offer.amount - principal;
    var first, drawn := Pay(vault, t.collateralAsset, t.collateral), Pay(borrower, t.debtAsset, principal);
    var second := if left > 0 then Some(Pay(offer.spk, t.debtAsset, left)) else None;
    forall asset ensures OutTotal(spend.outs, asset) == (if asset == offer.asset then offer.amount else 0) + Need(need, asset)
      + OutTotal(rest, asset) + (if asset == fee.asset then paid else 0)
    {
      PlacedTotal(first, second, [drawn], rest, fee, paid, t.debtAsset, asset);
      OneOut(drawn, asset);
    }
    SpendBalances(offer, funding, need, change, fee, spend.outs);
  }

  /** Change with the dust taken out of it afterwards. */
  function Folded(outs: seq<Out>, fee: FeeRule): (seq<Out>, nat) {
    if outs == [] then ([], fee.amount)
    else
      var before, last := Folded(outs[..|outs| - 1], fee), outs[|outs| - 1];
      FoldStep(before, last.asset, last.amount, last.spk, fee)
  }

  lemma FoldedMore(outs: seq<Out>, o: Out, fee: FeeRule)
    ensures Folded(outs + [o], fee) == FoldStep(Folded(outs, fee), o.asset, o.amount, o.spk, fee)
  {
    assert (outs + [o])[..|outs|] == outs;
  }

  /** An output that is worth nothing is not one. */
  lemma FoldedIf(outs: seq<Out>, o: Out, fee: FeeRule)
    ensures Folded(outs + (if o.amount > 0 then [o] else []), fee) == FoldStep(Folded(outs, fee), o.asset, o.amount, o.spk, fee)
  {
    if o.amount == 0 {
      assert outs + [] == outs;
    } else {
      FoldedMore(outs, o, fee);
    }
  }

  lemma LeftFolded(outs: seq<Out>, a: Id, coins: seq<Coin>, need: map<Id, nat>, spk: Spk, fee: FeeRule)
    requires Need(need, a) <= CoinTotal(coins, a)
    ensures Folded(outs + LeftOver(a, coins, need, spk), fee)
      == FoldStep(Folded(outs, fee), a, CoinTotal(coins, a) - Need(need, a), spk, fee)
  {
    var o := Out(spk, a, CoinTotal(coins, a) - Need(need, a), true);
    FoldedIf(outs, o, fee);
    assert LeftOver(a, coins, need, spk) == if o.amount > 0 then [o] else [];
  }

  /** Folding afterwards is folding as it comes. */
  lemma {:induction false} FoldedIs(assets: seq<Id>, coins: seq<Coin>, need: map<Id, nat>, spk: Spk, fee: FeeRule)
    requires Covered(assets, coins, need)
    ensures Folded(ChangeOuts(assets, coins, need, spk), fee) == ChangeOf(assets, coins, need, spk, fee)
  {
    if assets != [] {
      var before, a := assets[..|assets| - 1], assets[|assets| - 1];
      var outs, rest := ChangeOuts(before, coins, need, spk), CoinTotal(coins, a) - Need(need, a);
      calc {
        Folded(ChangeOuts(assets, coins, need, spk), fee);
        Folded(outs + LeftOver(a, coins, need, spk), fee);
        { LeftFolded(outs, a, coins, need, spk, fee); }
        FoldStep(Folded(outs, fee), a, rest, spk, fee);
        { FoldedIs(before, coins, need, spk, fee); }
        FoldStep(ChangeOf(before, coins, need, spk, fee), a, rest, spk, fee);
        ChangeOf(assets, coins, need, spk, fee);
      }
    }
  }

  method FoldDust(change: seq<Out>, fee: FeeRule) returns (kept: seq<Out>, paid: nat)
    requires forall i :: 0 <= i < |change| ==> change[i].explicit && change[i].amount > 0
    ensures (kept, paid) == Folded(change, fee)
  {
    kept, paid := [], fee.amount;
    for i := 0 to |change|
      invariant (kept, paid) == Folded(change[..i], fee)
    {
      assert change[..i + 1][..i] == change[..i];
      if change[i].asset == fee.asset && change[i].amount < fee.dust {
        paid := paid + change[i].amount;
      } else {
        kept := kept + [change[i]];
      }
    }
    assert change[..|change|] == change;
  }

  /** The command line's change of a take or a withdrawal, in two passes. */
  method ChangeTwice(coins: seq<Coin>, spent: map<Id, nat>, spk: Spk, fee: FeeRule) returns (change: Option<(seq<Out>, nat)>)
    ensures change == if Funded(coins, WithFee(spent, fee)) then Some(Change1(coins, WithFee(spent, fee), spk, fee)) else None
  {
    var need := spent[fee.asset := (if fee.asset in spent then spent[fee.asset] else 0) + fee.amount];
    var have, order := Held(coins);
    var funded := AllHeld(coins, need, have);
    if funded {
      var outs, paid := LeaveThenFold(coins, order, have, need, spk, fee);
      return Some((outs, paid));
    }
    return None;
  }

  method LeaveThenFold(ghost coins: seq<Coin>, order: seq<Id>, have: map<Id, nat>, need: map<Id, nat>, spk: Spk, fee: FeeRule)
    returns (kept: seq<Out>, paid: nat)
    requires Funded(coins, need) && order == Assets(coins)
    requires forall a :: a in have <==> a in order
    requires forall a :: a in have ==> have[a] == CoinTotal(coins, a)
    ensures (kept, paid) == Change1(coins, need, spk, fee)
  {
    FundedCovers(coins, need, order);
    var outs := LeftEach(coins, order, have, need, spk);
    FoldedIs(order, coins, need, spk, fee);
    kept, paid := FoldDust(outs, fee);
  }

  method LeftEach(ghost coins: seq<Coin>, order: seq<Id>, have: map<Id, nat>, need: map<Id, nat>, spk: Spk) returns (outs: seq<Out>)
    requires Covered(order, coins, need)
    requires forall a :: a in have <==> a in order
    requires forall a :: a in have ==> have[a] == CoinTotal(coins, a)
    ensures outs == ChangeOuts(order, coins, need, spk)
    ensures forall i :: 0 <= i < |outs| ==> outs[i].explicit && outs[i].amount > 0
  {
    outs := [];
    for i := 0 to |order|
      invariant outs == ChangeOuts(order[..i], coins, need, spk)
      invariant forall j :: 0 <= j < |outs| ==> outs[j].explicit && outs[j].amount > 0
    {
      var a := order[i];
      assert order[..i + 1][..i] == order[..i];
      var rest := have[a] - Need(need, a);
      if rest > 0 {
        outs := outs + [Out(spk, a, rest, true)];
      }
    }
    assert order[..|order|] == order;
  }

  /** The command line's take. */
  method TakePy(t: Loan, offer: Coin, principal: nat, vault: Spk, borrower: Spk, funding: seq<Coin>, change: Spk, fee: FeeRule)
    returns (spend: Option<Spend1>)
    ensures spend == Take1(t, offer, principal, vault, borrower, funding, change, fee)
  {
    var remainder: int := offer.amount - principal;
    if remainder < 0 {
      return None;
    }
    var r := ChangeTwice(funding, map[t.collateralAsset := t.collateral], change, fee);
    if r.None? {
      return None;
    }
    var (rest, paid) := r.value;
    var second := if remainder > 0 then Some(Pay(offer.spk, t.debtAsset, remainder)) else None;
    var placed := PlacePy(Pay(vault, t.collateralAsset, t.collateral), second, [Pay(borrower, t.debtAsset, principal)], rest, fee, paid, t.debtAsset);
    return if placed.None? then None else Some(Spend1(offer, funding, placed.value));
  }

  /** The browser's take. */
  method TakeJs(t: Loan, offer: Coin, principal: nat, vault: Spk, borrower: Spk, funding: seq<Coin>, change: Spk, fee: FeeRule)
    returns (spend: Option<Spend1>)
    ensures spend == Take1(t, offer, principal, vault, borrower, funding, change, fee)
  {
    var remainder: int := offer.amount - principal;
    if remainder < 0 {
      return None;
    }
    var r := ChangeJs(funding, map[t.collateralAsset := t.collateral], change, fee);
    if r.None? {
      return None;
    }
    var (rest, paid) := r.value;
    var second := if remainder > 0 then Some(Pay(offer.spk, t.debtAsset, remainder)) else None;
    var placed := PlaceJs(Pay(vault, t.collateralAsset, t.collateral), second, [Pay(borrower, t.debtAsset, principal)], rest, fee, paid, t.debtAsset);
    return if placed.None? then None else Some(Spend1(offer, funding, placed.value));
  }
}
