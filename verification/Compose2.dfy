/** The version 2 composers, and following as their inverse. */
module Compose2 {
  import opened Wrappers
  import opened Vault2

  /** An input's coin and the witness it will carry. */
  datatype Source = Source(coin: Coin, stack: seq<Id>)

  /** A composed spend: its vault is input 0. */
  datatype Draft = Draft(ins: seq<Source>, outs: seq<Out>, locktime: nat, event: Event, next: Option<Debt>)

  datatype Refusal = NothingPaid | WrongScript | Short | NotYet | Ruled | TooFewSigners | TooFewOutputs | WrongBeacon

  datatype Composed = Ok(draft: Draft) | Refused(why: Refusal)

  function Coins(sources: seq<Source>): seq<Coin> {
    seq(|sources|, i requires 0 <= i < |sources| => sources[i].coin)
  }

  function Built(d: Draft, txid: Id): Tx {
    Tx(txid, seq(|d.ins|, i requires 0 <= i < |d.ins| => In(d.ins[i].coin.at, d.ins[i].stack)), d.outs, d.locktime)
  }

  function Pay(spk: Spk, asset: Id, amount: nat): Out { Out(spk, asset, amount, true) }

  function Fee(asset: Id, amount: nat): Out { Out(Script(0), asset, amount, true) }

  function Same(c: Coin): Out { Out(c.spk, c.asset, c.amount, true) }

  // ---------------------------------------------------------------- repaying

  function ComposeRepay(terms: Terms, state: Debt, vault: Source, amount: int, fee: nat, wallet: seq<Source>, change: Spk): Composed {
    if amount <= 0 then Refused(NothingPaid)
    else
      var paid: nat := if amount < state.owed then amount else state.owed;
      var need := map[terms.debtAsset := paid + fee];
      var coins := Coins(wallet);
      if vault.coin.spk != VaultSpk(terms, state) then Refused(WrongScript)
      else if !Covered(Assets(coins), coins, need) then Refused(Short)
      else
        var closes := paid >= state.owed;
        var next := Debt(state.owed - paid, state.last);
        var first := Pay(if closes then terms.borrower else VaultSpk(terms, next), terms.collateralAsset, vault.coin.amount);
        var outs := [first, Pay(terms.lender, terms.debtAsset, paid), Fee(terms.debtAsset, fee)];
        Ok(Draft([vault] + wallet, outs + ChangeOuts(Assets(coins), coins, need, change), 0,
                 if closes then Repaid else Repay, if closes then None else Some(next)))
  }

  function ComposeTopUp(terms: Terms, state: Debt, vault: Source, amount: int, fee: nat, wallet: seq<Source>, change: Spk): Composed {
    if amount <= 0 then Refused(NothingPaid)
    else
      var need := map[terms.collateralAsset := amount + fee];
      var coins := Coins(wallet);
      if vault.coin.spk != VaultSpk(terms, state) then Refused(WrongScript)
      else if !Covered(Assets(coins), coins, need) then Refused(Short)
      else
        var outs := [Pay(vault.coin.spk, terms.collateralAsset, vault.coin.amount + amount), Fee(terms.collateralAsset, fee)];
        Ok(Draft([vault] + wallet, outs + ChangeOuts(Assets(coins), coins, need, change), 0, TopUp, Some(state)))
  }

  function ComposeRecover(terms: Terms, state: Debt, vault: Source, median: nat, fee: nat, wallet: seq<Source>, change: Spk): Composed {
    var need := map[terms.collateralAsset := fee];
    var coins := Coins(wallet);
    if median <= terms.recoverAfter then Refused(NotYet)
    else if vault.coin.spk != VaultSpk(terms, state) then Refused(WrongScript)
    else if !Covered(Assets(coins), coins, need) then Refused(Short)
    else
      var outs := [Pay(terms.lender, terms.collateralAsset, vault.coin.amount), Fee(terms.collateralAsset, fee)];
      Ok(Draft([vault] + wallet, outs + ChangeOuts(Assets(coins), coins, need, change), terms.recoverAfter, Recovered, None))
  }

  // ------------------------------------------------------------- liquidating

  /** A plan: what is repaid, what is kept for the vault or its borrower. */
  datatype Plan = Plan(repaid: nat, kept: nat)

  /** What every ruling for a liquidation has passed: it repays something, seizes no more
      than there is, and is later than the vault's last. */
  predicate Allowed(vault: Coin, state: Debt, time: nat, plan: Plan) {
    plan.repaid > 0 && plan.kept <= vault.amount && time > state.last
  }

  function FirstOut(terms: Terms, state: Debt, vault: Coin, time: nat, plan: Plan, taker: Spk): Out {
    if plan.repaid < state.owed then
      Pay(VaultSpk(terms, Debt(state.owed - plan.repaid, time)), terms.collateralAsset, plan.kept)
    else if plan.kept > 0 then Pay(terms.borrower, terms.collateralAsset, plan.kept)
    else if vault.amount >= plan.kept then Pay(taker, terms.collateralAsset, vault.amount - plan.kept)
    else Pay(taker, terms.collateralAsset, 0)
  }

  function SeizureOut(terms: Terms, state: Debt, vault: Coin, plan: Plan, taker: Spk): seq<Out> {
    if vault.amount > plan.kept && (plan.kept > 0 || plan.repaid < state.owed)
    then [Pay(taker, terms.collateralAsset, vault.amount - plan.kept)] else []
  }

  function LiquidationEvent(state: Debt, plan: Plan): Event {
    if plan.repaid >= state.owed then Liquidated else Liquidate
  }

  function LiquidationNext(state: Debt, time: nat, plan: Plan): Option<Debt> {
    if plan.repaid >= state.owed then None else Some(Debt(state.owed - plan.repaid, time))
  }

  /** One oracle: its beacon coin is input 1 and output 2. */
  function ComposeLiquidation(terms: Terms, state: Debt, vault: Source, time: nat, median: nat, beacon: Source, plan: Plan,
                              taker: Spk, fee: nat, wallet: seq<Source>, change: Spk): Composed {
    var need := map[terms.debtAsset := plan.repaid + fee];
    var coins := Coins(wallet);
    if time >= median then Refused(NotYet)
    else if !Allowed(vault.coin, state, time, plan) then Refused(Ruled)
    else if vault.coin.spk != VaultSpk(terms, state) then Refused(WrongScript)
    else if !Covered(Assets(coins), coins, need) then Refused(Short)
    else
      var outs := [FirstOut(terms, state, vault.coin, time, plan, taker),
                   Pay(terms.lender, terms.debtAsset, plan.repaid), Same(beacon.coin)]
        + SeizureOut(terms, state, vault.coin, plan, taker) + [Fee(terms.debtAsset, fee)];
      Ok(Draft([vault, beacon] + wallet, outs + ChangeOuts(Assets(coins), coins, need, change), time,
               LiquidationEvent(state, plan), LiquidationNext(state, time, plan)))
  }

  /** Each beacon at its own output, the others filling the places between. */
  function Weave(outs: seq<Out>, beacons: seq<Out>, fillers: seq<Out>, at: nat): Option<seq<Out>>
    decreases |beacons|, |fillers|
  {
    if beacons == [] then Some(outs + fillers)
    else if |outs| < at then
      if fillers == [] then None else Weave(outs + [fillers[0]], beacons, fillers[1..], at)
    else Weave(outs + [beacons[0]], beacons[1..], fillers, at + 2)
  }

  method PlaceBeacons(first: Out, pay: Out, beacons: seq<Out>, fillers: seq<Out>) returns (placed: Option<seq<Out>>)
    ensures placed == Weave([first, pay], beacons, fillers, 2)
  {
    var outs, left := [first, pay], fillers;
    for j := 0 to |beacons|
      invariant Weave(outs, beacons[j..], left, 2 * j + 2) == Weave([first, pay], beacons, fillers, 2)
    {
      while |outs| < 2 * j + 2
        invariant Weave(outs, beacons[j..], left, 2 * j + 2) == Weave([first, pay], beacons, fillers, 2)
        decreases |left|
      {
        if left == [] {
          return None;
        }
        outs, left := outs + [left[0]], left[1..];
      }
      assert beacons[j..][1..] == beacons[j + 1..];
      outs := outs + [beacons[j]];
    }
    return Some(outs + left);
  }

  function Laid(beacons: seq<Out>, fillers: seq<Out>): (laid: seq<Out>)
    requires |beacons| <= |fillers| + 1
    ensures |laid| == |beacons| + |fillers|
  {
    if |beacons| <= 1 then beacons + fillers
    else [beacons[0], fillers[0]] + Laid(beacons[1..], fillers[1..])
  }

  /** Placing fails exactly for want of fillers. */
  lemma {:induction false} WeaveLays(outs: seq<Out>, beacons: seq<Out>, fillers: seq<Out>, at: nat)
    requires |outs| == at
    ensures Weave(outs, beacons, fillers, at)
      == if |beacons| <= |fillers| + 1 then Some(outs + Laid(beacons, fillers)) else None
    decreases |beacons|
  {
    if beacons == [] {
      assert outs + (beacons + fillers) == outs + fillers;
    } else if |beacons| == 1 {
      assert outs + [beacons[0]] + fillers == outs + (beacons + fillers);
    } else if fillers == [] {
      assert Weave(outs, beacons, fillers, at) == Weave(outs + [beacons[0]], beacons[1..], fillers, at + 2);
    } else {
      var next := outs + [beacons[0]] + [fillers[0]];
      assert Weave(outs, beacons, fillers, at) == Weave(outs + [beacons[0]], beacons[1..], fillers, at + 2);
      assert Weave(outs + [beacons[0]], beacons[1..], fillers, at + 2) == Weave(next, beacons[1..], fillers[1..], at + 2);
      WeaveLays(next, beacons[1..], fillers[1..], at + 2);
      if |beacons| <= |fillers| + 1 {
        var laid := Laid(beacons[1..], fillers[1..]);
        assert Laid(beacons, fillers) == [beacons[0], fillers[0]] + laid;
        assert next + laid == outs + ([beacons[0], fillers[0]] + laid);
      }
    }
  }

  /** The j-th beacon is at the 2j-th place. */
  lemma {:induction false} BeaconAt(beacons: seq<Out>, fillers: seq<Out>, j: nat)
    requires |beacons| <= |fillers| + 1 && j < |beacons|
    ensures Laid(beacons, fillers)[2 * j] == beacons[j]
  {
    if |beacons| > 1 && j > 0 {
      BeaconAt(beacons[1..], fillers[1..], j - 1);
    }
  }

  /** Each filler is used once, in order: between the beacons, then after the last. */
  lemma {:induction false} FillerAt(beacons: seq<Out>, fillers: seq<Out>, j: nat)
    requires |beacons| <= |fillers| + 1 && j < |fillers|
    ensures Laid(beacons, fillers)[if j + 1 < |beacons| then 2 * j + 1 else |beacons| + j] == fillers[j]
  {
    if |beacons| > 1 && j > 0 {
      FillerAt(beacons[1..], fillers[1..], j - 1);
    }
  }

  lemma {:induction false} LaidTotal(beacons: seq<Out>, fillers: seq<Out>, asset: Id)
    requires |beacons| <= |fillers| + 1
    ensures OutTotal(Laid(beacons, fillers), asset) == OutTotal(beacons, asset) + OutTotal(fillers, asset)
  {
    if |beacons| <= 1 {
      OutTotalConcat(beacons, fillers, asset);
    } else {
      LaidTotal(beacons[1..], fillers[1..], asset);
      OutTotalConcat([beacons[0], fillers[0]], Laid(beacons[1..], fillers[1..]), asset);
      OutTotalConcat([beacons[0]], [fillers[0]], asset);
      OutTotalConcat([beacons[0]], beacons[1..], asset);
      OutTotalConcat([fillers[0]], fillers[1..], asset);
      assert [beacons[0], fillers[0]] == [beacons[0]] + [fillers[0]];
      assert beacons == [beacons[0]] + beacons[1..] && fillers == [fillers[0]] + fillers[1..];
    }
  }

  /** Several oracles: the j-th signer's beacon coin is input j and output 2j. `names` are
      the scripts the signatures given name, one for each beacon. */
  function ComposeThreshold(terms: Terms, state: Debt, vault: Source, time: nat, median: nat, slots: seq<Option<Spk>>, threshold: nat,
                            beacons: seq<Source>, plan: Plan, taker: Spk, fee: nat, wallet: seq<Source>, change: Spk): Composed {
    var need := map[terms.debtAsset := plan.repaid + fee];
    var coins := Coins(wallet);
    var given := Given(slots);
    if time >= median then Refused(NotYet)
    else if |slots| != 3 || |given| < threshold || |beacons| != |given| then Refused(TooFewSigners)
    else if !Allowed(vault.coin, state, time, plan) then Refused(Ruled)
    else if !Covered(Assets(coins), coins, need) then Refused(Short)
    else
      var fillers := SeizureOut(terms, state, vault.coin, plan, taker)
        + ChangeOuts(Assets(coins), coins, need, change) + [Fee(terms.debtAsset, fee)];
      var head := [FirstOut(terms, state, vault.coin, time, plan, taker), Pay(terms.lender, terms.debtAsset, plan.repaid)];
      var placed := Weave(head, Sames(beacons), fillers, 2);
      if placed.None? then Refused(TooFewOutputs)
      else if exists j :: 0 <= j < |beacons| && beacons[j].coin.spk != given[j] then Refused(WrongBeacon)
      else if vault.coin.spk != VaultSpk(terms, state) then Refused(WrongScript)
      else Ok(Draft([vault] + beacons + wallet, placed.value, time, LiquidationEvent(state, plan), LiquidationNext(state, time, plan)))
  }

  function Given(slots: seq<Option<Spk>>): seq<Spk> {
    if slots == [] then []
    else Given(slots[..|slots| - 1]) + (if slots[|slots| - 1].Some? then [slots[|slots| - 1].value] else [])
  }

  function Sames(sources: seq<Source>): seq<Out> {
    seq(|sources|, i requires 0 <= i < |sources| => Same(sources[i].coin))
  }

  // ---------------------------------------------------- following inverts

  /** Following the built transaction gives back what the composer meant. */
  ghost predicate ReadBack(terms: Terms, state: Debt, vault: Source, d: Draft, txid: Id) {
    Follow(terms, state, vault.coin.spk, Built(d, txid), 0)
      == Reading(d.event, d.next, if d.next.Some? then Some(0) else None)
  }

  ghost predicate NoBeaconIn(wallet: seq<Source>) {
    forall i :: 0 <= i < |wallet| ==> !Recreates(wallet[i].stack)
  }

  /** A vault's script is not among its own terms. */
  lemma NotItsOwn(terms: Terms, state: Debt)
    ensures terms.lender != VaultSpk(terms, state) && terms.borrower != VaultSpk(terms, state)
  {
    assert terms.lender < terms && terms.borrower < terms && terms < VaultSpk(terms, state);
  }

  lemma WalletInputs(vault: Source, wallet: seq<Source>, d: Draft, txid: Id)
    requires d.ins == [vault] + wallet
    ensures SpendsBeacon(Built(d, txid), 0) <==> !NoBeaconIn(wallet)
  {
    var tx := Built(d, txid);
    assert forall i :: 0 <= i < |wallet| ==> tx.ins[i + 1].stack == wallet[i].stack;
    if SpendsBeacon(tx, 0) {
      var i :| 0 <= i < |tx.ins| && i != 0 && Recreates(tx.ins[i].stack);
      assert Recreates(wallet[i - 1].stack);
    }
  }

  /** A repayment is read back, a closing one exactly when the wallet's own inputs reveal
      no beacon's recreate leaf. */
  lemma RepayReadBack(terms: Terms, state: Debt, vault: Source, amount: int, fee: nat, wallet: seq<Source>, change: Spk, txid: Id)
    requires state.owed > 0 && ComposeRepay(terms, state, vault, amount, fee, wallet, change).Ok?
    ensures ReadBack(terms, state, vault, ComposeRepay(terms, state, vault, amount, fee, wallet, change).draft, txid)
      <==> amount < state.owed || NoBeaconIn(wallet)
  {
    var d := ComposeRepay(terms, state, vault, amount, fee, wallet, change).draft;
    NotItsOwn(terms, state);
    WalletInputs(vault, wallet, d, txid);
  }

  lemma TopUpReadBack(terms: Terms, state: Debt, vault: Source, amount: int, fee: nat, wallet: seq<Source>, change: Spk, txid: Id)
    requires ComposeTopUp(terms, state, vault, amount, fee, wallet, change).Ok?
    ensures ReadBack(terms, state, vault, ComposeTopUp(terms, state, vault, amount, fee, wallet, change).draft, txid)
  {}

  lemma RecoverReadBack(terms: Terms, state: Debt, vault: Source, median: nat, fee: nat, wallet: seq<Source>, change: Spk, txid: Id)
    requires terms.lender != Script(0) && ComposeRecover(terms, state, vault, median, fee, wallet, change).Ok?
    ensures ReadBack(terms, state, vault, ComposeRecover(terms, state, vault, median, fee, wallet, change).draft, txid)
  {
    NotItsOwn(terms, state);
  }

  /** Any liquidation's outputs: the vault's two, then what the beacons' inputs need. */
  lemma LiquidationFollowed(terms: Terms, state: Debt, vault: Coin, time: nat, plan: Plan, taker: Spk, tx: Tx, b: nat)
    requires state.owed > 0 && Allowed(vault, state, time, plan) && vault.spk == VaultSpk(terms, state)
    requires tx.locktime == time && |tx.outs| >= 2 && 0 < b < |tx.ins| && Recreates(tx.ins[b].stack)
    requires tx.outs[0] == FirstOut(terms, state, vault, time, plan, taker)
    requires tx.outs[1] == Pay(terms.lender, terms.debtAsset, plan.repaid)
    ensures Follow(terms, state, vault.spk, tx, 0)
      == Reading(LiquidationEvent(state, plan), LiquidationNext(state, time, plan),
                 if plan.repaid >= state.owed then None else Some(0))
      <==> !(plan.repaid >= state.owed && plan.kept == 0 && taker == vault.spk)
  {
    NotItsOwn(terms, state);
    assert SpendsBeacon(tx, 0);
  }

  /** A liquidation is read back exactly when it does not, closing and keeping nothing,
      pay the seizure to the vault's own script. */
  lemma LiquidationReadBack(terms: Terms, state: Debt, vault: Source, time: nat, median: nat, beacon: Source, plan: Plan,
                            taker: Spk, fee: nat, wallet: seq<Source>, change: Spk, txid: Id)
    requires state.owed > 0 && Recreates(beacon.stack)
    requires ComposeLiquidation(terms, state, vault, time, median, beacon, plan, taker, fee, wallet, change).Ok?
    ensures ReadBack(terms, state, vault,
                     ComposeLiquidation(terms, state, vault, time, median, beacon, plan, taker, fee, wallet, change).draft, txid)
      <==> !(plan.repaid >= state.owed && plan.kept == 0 && taker == vault.coin.spk)
  {
    var d := ComposeLiquidation(terms, state, vault, time, median, beacon, plan, taker, fee, wallet, change).draft;
    LiquidationFollowed(terms, state, vault.coin, time, plan, taker, Built(d, txid), 1);
  }

  lemma ThresholdReadBack(terms: Terms, state: Debt, vault: Source, time: nat, median: nat, slots: seq<Option<Spk>>, threshold: nat,
                          beacons: seq<Source>, plan: Plan, taker: Spk, fee: nat, wallet: seq<Source>, change: Spk, txid: Id)
    requires state.owed > 0 && threshold > 0 && forall j :: 0 <= j < |beacons| ==> Recreates(beacons[j].stack)
    requires ComposeThreshold(terms, state, vault, time, median, slots, threshold, beacons, plan, taker, fee, wallet, change).Ok?
    ensures var d := ComposeThreshold(terms, state, vault, time, median, slots, threshold, beacons, plan, taker, fee, wallet, change).draft;
      && (ReadBack(terms, state, vault, d, txid) <==> !(plan.repaid >= state.owed && plan.kept == 0 && taker == vault.coin.spk))
      && (forall j :: 1 <= j <= |beacons| ==> 2 * j < |d.outs| && d.ins[j] == beacons[j - 1] && d.outs[2 * j] == Same(beacons[j - 1].coin))
  {
    var d := ComposeThreshold(terms, state, vault, time, median, slots, threshold, beacons, plan, taker, fee, wallet, change).draft;
    var coins := Coins(wallet);
    var need := map[terms.debtAsset := plan.repaid + fee];
    var fillers := SeizureOut(terms, state, vault.coin, plan, taker)
      + ChangeOuts(Assets(coins), coins, need, change) + [Fee(terms.debtAsset, fee)];
    var head := [FirstOut(terms, state, vault.coin, time, plan, taker), Pay(terms.lender, terms.debtAsset, plan.repaid)];
    WeaveLays(head, Sames(beacons), fillers, 2);
    forall j | 1 <= j <= |beacons| ensures 2 * j < |d.outs| && d.outs[2 * j] == Same(beacons[j - 1].coin) {
      BeaconAt(Sames(beacons), fillers, j - 1);
    }
    LiquidationFollowed(terms, state, vault.coin, time, plan, taker, Built(d, txid), 1);
  }

  // ----------------------------------------------------------- who is paid

  /** What the wallet gives up of an asset it has: enough, unless it has none. */
  predicate Gives(wallet: seq<Source>, asset: Id, amount: int) {
    asset in Assets(Coins(wallet)) ==> amount <= CoinTotal(Coins(wallet), asset)
  }

  lemma OneNeed(wallet: seq<Source>, asset: Id, amount: nat)
    ensures Covered(Assets(Coins(wallet)), Coins(wallet), map[asset := amount]) <==> Gives(wallet, asset, amount)
  {
    var held := Assets(Coins(wallet));
    if asset in held && !Gives(wallet, asset, amount) {
      var i :| 0 <= i < |held| && held[i] == asset;
    }
  }

  lemma {:induction false} ChangeToChange(assets: seq<Id>, coins: seq<Coin>, need: map<Id, nat>, change: Spk)
    requires Covered(assets, coins, need)
    ensures forall o :: o in ChangeOuts(assets, coins, need, change) ==> o.spk == change && o.explicit && o.amount > 0
  {
    if assets != [] {
      ChangeToChange(assets[..|assets| - 1], coins, need, change);
    }
  }

  /** When a repayment is composed, and whom it pays: a closing one sends all the collateral
      to the borrower, another to the vault of the reduced debt; the lender gets what is
      repaid, and what is left of the wallet's coins is change. */
  lemma RepayPays(terms: Terms, state: Debt, vault: Source, amount: int, fee: nat, wallet: seq<Source>, change: Spk)
    ensures var c, paid := ComposeRepay(terms, state, vault, amount, fee, wallet, change), if amount < state.owed then amount else state.owed;
      && (c.Ok? <==> amount > 0 && vault.coin.spk == VaultScript(terms, state.owed, state.last) && Gives(wallet, terms.debtAsset, paid + fee))
      && (c == Refused(NothingPaid) <==> amount <= 0)
      && (c == Refused(WrongScript) <==> amount > 0 && vault.coin.spk != VaultScript(terms, state.owed, state.last))
      && (c.Ok? ==>
            var d := c.draft;
            && d.ins == [vault] + wallet && d.locktime == 0 && |d.outs| >= 3
            && d.outs[0] == Out(if amount < state.owed then VaultScript(terms, state.owed - amount, state.last) else terms.borrower,
                                terms.collateralAsset, vault.coin.amount, true)
            && d.outs[1] == Out(terms.lender, terms.debtAsset, paid, true)
            && d.outs[2] == Out(Script(0), terms.debtAsset, fee, true)
            && (forall i :: 3 <= i < |d.outs| ==> d.outs[i].spk == change)
            && (d.event == Repaid <==> amount >= state.owed) && (d.event == Repay <==> amount < state.owed)
            && d.next == if amount < state.owed then Some(Debt(state.owed - amount, state.last)) else None)
  {
    if amount > 0 {
      var paid: nat := if amount < state.owed then amount else state.owed;
      OneNeed(wallet, terms.debtAsset, paid + fee);
      var coins, need := Coins(wallet), map[terms.debtAsset := paid + fee];
      if Covered(Assets(coins), coins, need) {
        ChangeToChange(Assets(coins), coins, need, change);
      }
    }
  }

  /** A top-up: the vault's own script gets what it had and what is added. */
  lemma TopUpPays(terms: Terms, state: Debt, vault: Source, amount: int, fee: nat, wallet: seq<Source>, change: Spk)
    ensures var c := ComposeTopUp(terms, state, vault, amount, fee, wallet, change);
      && (c.Ok? <==> amount > 0 && vault.coin.spk == VaultScript(terms, state.owed, state.last) && Gives(wallet, terms.collateralAsset, amount + fee))
      && (c == Refused(NothingPaid) <==> amount <= 0)
      && (c == Refused(WrongScript) <==> amount > 0 && vault.coin.spk != VaultScript(terms, state.owed, state.last))
      && (c.Ok? ==>
            var d := c.draft;
            && d.ins == [vault] + wallet && d.locktime == 0 && |d.outs| >= 2
            && d.outs[0] == Out(VaultScript(terms, state.owed, state.last), terms.collateralAsset, vault.coin.amount + amount, true)
            && d.outs[1] == Out(Script(0), terms.collateralAsset, fee, true)
            && (forall i :: 2 <= i < |d.outs| ==> d.outs[i].spk == change)
            && d.event == TopUp && d.next == Some(state))
  {
    if amount > 0 {
      var need: map<Id, nat> := map[terms.collateralAsset := amount + fee];
      OneNeed(wallet, terms.collateralAsset, amount + fee);
      if Covered(Assets(Coins(wallet)), Coins(wallet), need) {
        ChangeToChange(Assets(Coins(wallet)), Coins(wallet), need, change);
      }
    }
  }

  /** A recovery: after its time, all the collateral to the lender. */
  lemma RecoverPays(terms: Terms, state: Debt, vault: Source, median: nat, fee: nat, wallet: seq<Source>, change: Spk)
    ensures var c := ComposeRecover(terms, state, vault, median, fee, wallet, change);
      && (c.Ok? <==>
            median > terms.recoverAfter && vault.coin.spk == VaultScript(terms, state.owed, state.last) && Gives(wallet, terms.collateralAsset, fee))
      && (c == Refused(NotYet) <==> median <= terms.recoverAfter)
      && (c.Ok? ==>
            var d := c.draft;
            && d.ins == [vault] + wallet && d.locktime == terms.recoverAfter && |d.outs| >= 2
            && d.outs[0] == Out(terms.lender, terms.collateralAsset, vault.coin.amount, true)
            && d.outs[1] == Out(Script(0), terms.collateralAsset, fee, true)
            && (forall i :: 2 <= i < |d.outs| ==> d.outs[i].spk == change)
            && d.event == Recovered && d.next == None)
  {
    var need := map[terms.collateralAsset := fee];
    OneNeed(wallet, terms.collateralAsset, fee);
    if Covered(Assets(Coins(wallet)), Coins(wallet), need) {
      ChangeToChange(Assets(Coins(wallet)), Coins(wallet), need, change);
    }
  }

  /** What a liquidation pays out of the vault: what is kept to the borrower when it closes
      and else to the vault of what is still owed, and the rest to the taker - at the first
      place when closing leaves nothing else for it. */
  ghost predicate PaysOut(terms: Terms, state: Debt, vault: Coin, time: nat, plan: Plan, taker: Spk, first: Out, seizure: seq<Out>) {
    var closes, seized := plan.repaid >= state.owed, vault.amount - plan.kept;
    && (!closes ==> first == Out(VaultScript(terms, state.owed - plan.repaid, time), terms.collateralAsset, plan.kept, true))
    && (closes && plan.kept > 0 ==> first == Out(terms.borrower, terms.collateralAsset, plan.kept, true))
    && (closes && plan.kept == 0 ==> first.spk == taker && first.asset == terms.collateralAsset && first.amount == seized && first.explicit && seizure == [])
    && (!(closes && plan.kept == 0) ==>
          if seized == 0 then seizure == []
          else |seizure| == 1 && seizure[0].spk == taker && seizure[0].asset == terms.collateralAsset && seizure[0].amount == seized && seizure[0].explicit)
  }

  lemma LiquidationPaysOut(terms: Terms, state: Debt, vault: Coin, time: nat, plan: Plan, taker: Spk)
    requires Allowed(vault, state, time, plan)
    ensures PaysOut(terms, state, vault, time, plan, taker, FirstOut(terms, state, vault, time, plan, taker), SeizureOut(terms, state, vault, plan, taker))
  {}

  /** When a liquidation under one oracle is composed. */
  lemma LiquidationComposed(terms: Terms, state: Debt, vault: Source, time: nat, median: nat, beacon: Source, plan: Plan,
                            taker: Spk, fee: nat, wallet: seq<Source>, change: Spk)
    ensures var c := ComposeLiquidation(terms, state, vault, time, median, beacon, plan, taker, fee, wallet, change);
      && (c.Ok? <==>
            && state.last < time < median && plan.repaid > 0 && plan.kept <= vault.coin.amount
            && vault.coin.spk == VaultScript(terms, state.owed, state.last) && Gives(wallet, terms.debtAsset, plan.repaid + fee))
      && (c == Refused(NotYet) <==> time >= median)
  {
    OneNeed(wallet, terms.debtAsset, plan.repaid + fee);
  }

  /** Whom it pays. */
  lemma LiquidationPays(terms: Terms, state: Debt, vault: Source, time: nat, median: nat, beacon: Source, plan: Plan,
                        taker: Spk, fee: nat, wallet: seq<Source>, change: Spk)
    requires ComposeLiquidation(terms, state, vault, time, median, beacon, plan, taker, fee, wallet, change).Ok?
    ensures var d := ComposeLiquidation(terms, state, vault, time, median, beacon, plan, taker, fee, wallet, change).draft;
      var n := if vault.coin.amount == plan.kept || (plan.kept == 0 && plan.repaid >= state.owed) then 3 else 4;
      && d.ins == [vault, beacon] + wallet && d.locktime == time && |d.outs| > n
      && PaysOut(terms, state, vault.coin, time, plan, taker, d.outs[0], d.outs[3..n])
      && d.outs[1] == Out(terms.lender, terms.debtAsset, plan.repaid, true)
      && d.outs[2] == Out(beacon.coin.spk, beacon.coin.asset, beacon.coin.amount, true)
      && d.outs[n] == Out(Script(0), terms.debtAsset, fee, true)
      && (forall i :: n < i < |d.outs| ==> d.outs[i].spk == change)
      && (d.event == Liquidated <==> plan.repaid >= state.owed) && (d.event == Liquidate <==> plan.repaid < state.owed)
      && d.next == if plan.repaid < state.owed then Some(Debt(state.owed - plan.repaid, time)) else None
  {
    var d := ComposeLiquidation(terms, state, vault, time, median, beacon, plan, taker, fee, wallet, change).draft;
    var coins, need := Coins(wallet), map[terms.debtAsset := plan.repaid + fee];
    var seizure, rest := SeizureOut(terms, state, vault.coin, plan, taker), ChangeOuts(Assets(coins), coins, need, change);
    ChangeToChange(Assets(coins), coins, need, change);
    LiquidationPaysOut(terms, state, vault.coin, time, plan, taker);
    OutsInOrder(FirstOut(terms, state, vault.coin, time, plan, taker), Pay(terms.lender, terms.debtAsset, plan.repaid), Same(beacon.coin),
                seizure, Fee(terms.debtAsset, fee), rest);
  }

  lemma OutsInOrder(first: Out, pay: Out, beacon: Out, seizure: seq<Out>, fee: Out, rest: seq<Out>)
    ensures var outs, n := [first, pay, beacon] + seizure + [fee] + rest, 3 + |seizure|;
      && |outs| > n && outs[0] == first && outs[1] == pay && outs[2] == beacon && outs[3..n] == seizure && outs[n] == fee
      && forall i :: n < i < |outs| ==> outs[i] in rest
  {}

  /** Where the j-th output that is neither the vault's nor a beacon's is, among so many
      beacons: between them, and after the last. */
  function Place(beacons: nat, j: nat): nat { if j + 1 < beacons then 2 * j + 3 else beacons + j + 2 }

  lemma FillerPlaced(head: seq<Out>, beacons: seq<Out>, fillers: seq<Out>, j: nat)
    requires |head| == 2 && |beacons| <= |fillers| + 1 && j < |fillers|
    ensures Place(|beacons|, j) < 2 + |beacons| + |fillers| && (head + Laid(beacons, fillers))[Place(|beacons|, j)] == fillers[j]
  {
    FillerAt(beacons, fillers, j);
  }

  /** When a liquidation under several oracles is composed. */
  lemma ThresholdComposed(terms: Terms, state: Debt, vault: Source, time: nat, median: nat, slots: seq<Option<Spk>>, threshold: nat,
                          beacons: seq<Source>, plan: Plan, taker: Spk, fee: nat, wallet: seq<Source>, change: Spk)
    ensures var c := ComposeThreshold(terms, state, vault, time, median, slots, threshold, beacons, plan, taker, fee, wallet, change);
      var needed := map[terms.debtAsset := plan.repaid + fee];
      c.Ok? <==>
        && state.last < time < median && |slots| == 3 && |Given(slots)| >= threshold && |beacons| == |Given(slots)|
        && plan.repaid > 0 && plan.kept <= vault.coin.amount
        && vault.coin.spk == VaultScript(terms, state.owed, state.last) && Gives(wallet, terms.debtAsset, plan.repaid + fee)
        && (forall j :: 0 <= j < |beacons| ==> beacons[j].coin.spk == Given(slots)[j])
        && |beacons| <= |SeizureOut(terms, state, vault.coin, plan, taker)| + |ChangeOuts(Assets(Coins(wallet)), Coins(wallet), needed, change)| + 2
  {
    var coins, need := Coins(wallet), map[terms.debtAsset := plan.repaid + fee];
    OneNeed(wallet, terms.debtAsset, plan.repaid + fee);
    if Covered(Assets(coins), coins, need) {
      var fillers := SeizureOut(terms, state, vault.coin, plan, taker) + ChangeOuts(Assets(coins), coins, need, change) + [Fee(terms.debtAsset, fee)];
      var head := [FirstOut(terms, state, vault.coin, time, plan, taker), Pay(terms.lender, terms.debtAsset, plan.repaid)];
      WeaveLays(head, Sames(beacons), fillers, 2);
    }
  }

  /** Whom it pays: the vault's two outputs and the beacons as ever, and between them the
      taker, the change and the fee. */
  lemma ThresholdPays(terms: Terms, state: Debt, vault: Source, time: nat, median: nat, slots: seq<Option<Spk>>, threshold: nat,
                      beacons: seq<Source>, plan: Plan, taker: Spk, fee: nat, wallet: seq<Source>, change: Spk)
    requires ComposeThreshold(terms, state, vault, time, median, slots, threshold, beacons, plan, taker, fee, wallet, change).Ok?
    ensures var d, b := ComposeThreshold(terms, state, vault, time, median, slots, threshold, beacons, plan, taker, fee, wallet, change).draft, |beacons|;
      var seizes, last := vault.coin.amount > plan.kept && !(plan.kept == 0 && plan.repaid >= state.owed), |d.outs| - b - 3;
      && d.ins == [vault] + beacons + wallet && d.locktime == time && last >= (if seizes then 1 else 0)
      && d.outs[1] == Out(terms.lender, terms.debtAsset, plan.repaid, true)
      && (forall j :: 0 <= j <= last ==> Place(b, j) < |d.outs|)
      && PaysOut(terms, state, vault.coin, time, plan, taker, d.outs[0], if seizes then [d.outs[Place(b, 0)]] else [])
      && d.outs[Place(b, last)] == Out(Script(0), terms.debtAsset, fee, true)
      && (forall j :: (if seizes then 1 else 0) <= j < last ==> d.outs[Place(b, j)].spk == change)
      && (d.event == Liquidated <==> plan.repaid >= state.owed) && (d.event == Liquidate <==> plan.repaid < state.owed)
      && d.next == if plan.repaid < state.owed then Some(Debt(state.owed - plan.repaid, time)) else None
  {
    var d := ComposeThreshold(terms, state, vault, time, median, slots, threshold, beacons, plan, taker, fee, wallet, change).draft;
    var coins, need := Coins(wallet), map[terms.debtAsset := plan.repaid + fee];
    var seizure, rest := SeizureOut(terms, state, vault.coin, plan, taker), ChangeOuts(Assets(coins), coins, need, change);
    var fillers := seizure + rest + [Fee(terms.debtAsset, fee)];
    var head := [FirstOut(terms, state, vault.coin, time, plan, taker), Pay(terms.lender, terms.debtAsset, plan.repaid)];
    WeaveLays(head, Sames(beacons), fillers, 2);
    ChangeToChange(Assets(coins), coins, need, change);
    LiquidationPaysOut(terms, state, vault.coin, time, plan, taker);
    forall j: nat | j < |fillers| ensures Place(|beacons|, j) < |d.outs| && d.outs[Place(|beacons|, j)] == fillers[j] {
      FillerPlaced(head, Sames(beacons), fillers, j);
    }
  }

  // ------------------------------------------------------------ conservation

  /** Every asset: what the inputs hold is what the outputs pay, the fee among them. */
  ghost predicate Balanced(d: Draft) {
    forall asset :: CoinTotal(Coins(d.ins), asset) == OutTotal(d.outs, asset)
  }

  /** The wallet holds a coin of every asset it has to pay. */
  ghost predicate Holds(wallet: seq<Source>, need: map<Id, nat>) {
    forall asset :: asset in Assets(Coins(wallet)) || Need(need, asset) == 0
  }

  lemma CoinsConcat(a: seq<Source>, b: seq<Source>)
    ensures Coins(a + b) == Coins(a) + Coins(b)
  {}

  lemma InTotal(a: seq<Source>, wallet: seq<Source>, asset: Id)
    ensures CoinTotal(Coins(a + wallet), asset) == CoinTotal(Coins(a), asset) + CoinTotal(Coins(wallet), asset)
  {
    CoinsConcat(a, wallet);
    CoinTotalConcat(Coins(a), Coins(wallet), asset);
  }

  function Amount(o: Out, asset: Id): nat { if o.asset == asset then o.amount else 0 }

  lemma OneCoin(s: Source, asset: Id)
    ensures CoinTotal(Coins([s]), asset) == if s.coin.asset == asset then s.coin.amount else 0
  {
    assert Coins([s])[..0] == [];
  }

  lemma OneOut(o: Out, asset: Id)
    ensures OutTotal([o], asset) == Amount(o, asset)
  {
    assert OutTotal([o][..0], asset) == 0;
  }

  lemma TwoOuts(a: Out, b: Out, asset: Id)
    ensures OutTotal([a, b], asset) == Amount(a, asset) + Amount(b, asset)
  {
    OneOut(a, asset);
    assert [a, b][..1] == [a];
  }

  /** Two outputs of the covenant's own, others, and change. */
  lemma SpendTotal(first: Out, second: Out, more: seq<Out>, rest: seq<Out>, asset: Id)
    ensures OutTotal([first, second] + more + rest, asset)
      == Amount(first, asset) + Amount(second, asset) + OutTotal(more, asset) + OutTotal(rest, asset)
  {
    OutTotalConcat([first, second] + more, rest, asset);
    OutTotalConcat([first, second], more, asset);
    TwoOuts(first, second, asset);
  }

  /** The inputs of a spend: the vault, coins beside it, the wallet's. */
  lemma SourceTotal(vault: Source, more: seq<Source>, wallet: seq<Source>, asset: Id)
    ensures CoinTotal(Coins([vault] + more + wallet), asset)
      == (if vault.coin.asset == asset then vault.coin.amount else 0) + CoinTotal(Coins(more), asset) + CoinTotal(Coins(wallet), asset)
  {
    InTotal([vault] + more, wallet, asset);
    InTotal([vault], more, asset);
    OneCoin(vault, asset);
  }

  /** Fixed outputs that pay the covenant's coins and the need, and the wallet's change,
      balance in an asset exactly when the wallet has a coin of it or needs none. */
  lemma SpendBalance(vault: Source, extra: seq<Source>, wallet: seq<Source>, first: Out, second: Out, more: seq<Out>,
                     need: map<Id, nat>, change: Spk, asset: Id)
    requires Covered(Assets(Coins(wallet)), Coins(wallet), need)
    requires Amount(first, asset) + Amount(second, asset) + OutTotal(more, asset)
      == (if vault.coin.asset == asset then vault.coin.amount else 0) + CoinTotal(Coins(extra), asset) + Need(need, asset)
    ensures var rest := ChangeOuts(Assets(Coins(wallet)), Coins(wallet), need, change);
      CoinTotal(Coins([vault] + extra + wallet), asset) == OutTotal([first, second] + more + rest, asset) <==>
      asset in Assets(Coins(wallet)) || Need(need, asset) == 0
  {
    SourceTotal(vault, extra, wallet, asset);
    SpendTotal(first, second, more, ChangeOuts(Assets(Coins(wallet)), Coins(wallet), need, change), asset);
    ChangeBalances(Coins(wallet), need, change, asset);
  }

  lemma NoSources(asset: Id)
    ensures CoinTotal(Coins([]), asset) == 0
  {}

  /** A composed repayment balances exactly when the wallet has a coin of what it pays in. */
  lemma RepayBalances(terms: Terms, state: Debt, vault: Source, amount: int, fee: nat, wallet: seq<Source>, change: Spk)
    requires vault.coin.asset == terms.collateralAsset
    requires ComposeRepay(terms, state, vault, amount, fee, wallet, change).Ok?
    ensures Balanced(ComposeRepay(terms, state, vault, amount, fee, wallet, change).draft)
      <==> Holds(wallet, map[terms.debtAsset := (if amount < state.owed then amount else state.owed) + fee])
  {
    var d := ComposeRepay(terms, state, vault, amount, fee, wallet, change).draft;
    var need := map[terms.debtAsset := (if amount < state.owed then amount else state.owed) + fee];
    var rest := ChangeOuts(Assets(Coins(wallet)), Coins(wallet), need, change);
    var first, second, third := d.outs[0], d.outs[1], d.outs[2];
    assert d.outs == [first, second] + [third] + rest && d.ins == [vault] + [] + wallet;
    forall asset ensures CoinTotal(Coins([vault] + [] + wallet), asset) == OutTotal([first, second] + [third] + rest, asset)
      <==> asset in Assets(Coins(wallet)) || Need(need, asset) == 0
    {
      OneOut(third, asset);
      NoSources(asset);
      SpendBalance(vault, [], wallet, first, second, [third], need, change, asset);
    }
  }

  lemma TopUpBalances(terms: Terms, state: Debt, vault: Source, amount: int, fee: nat, wallet: seq<Source>, change: Spk)
    requires vault.coin.asset == terms.collateralAsset
    requires ComposeTopUp(terms, state, vault, amount, fee, wallet, change).Ok?
    ensures Balanced(ComposeTopUp(terms, state, vault, amount, fee, wallet, change).draft)
      <==> Holds(wallet, map[terms.collateralAsset := amount + fee])
  {
    var d := ComposeTopUp(terms, state, vault, amount, fee, wallet, change).draft;
    var need: map<Id, nat> := map[terms.collateralAsset := amount + fee];
    var rest := ChangeOuts(Assets(Coins(wallet)), Coins(wallet), need, change);
    var first, second := d.outs[0], d.outs[1];
    assert d.outs == [first, second] + [] + rest && d.ins == [vault] + [] + wallet;
    forall asset ensures CoinTotal(Coins([vault] + [] + wallet), asset) == OutTotal([first, second] + [] + rest, asset)
      <==> asset in Assets(Coins(wallet)) || Need(need, asset) == 0
    {
      NoSources(asset);
      SpendBalance(vault, [], wallet, first, second, [], need, change, asset);
    }
  }

  /** What a liquidation takes from the vault: its first output and the seizure are all of it. */
  lemma SeizureTotal(terms: Terms, state: Debt, vault: Coin, time: nat, plan: Plan, taker: Spk, asset: Id)
    requires Allowed(vault, state, time, plan) && vault.asset == terms.collateralAsset
    ensures Amount(FirstOut(terms, state, vault, time, plan, taker), asset) + OutTotal(SeizureOut(terms, state, vault, plan, taker), asset)
      == if asset == vault.asset then vault.amount else 0
  {
    var out := SeizureOut(terms, state, vault, plan, taker);
    if out != [] {
      OneOut(out[0], asset);
      assert out == [out[0]];
    }
  }

  lemma {:induction false} SamesTotal(beacons: seq<Source>, asset: Id)
    ensures OutTotal(Sames(beacons), asset) == CoinTotal(Coins(beacons), asset)
  {
    if beacons != [] {
      var before := beacons[..|beacons| - 1];
      SamesTotal(before, asset);
      assert Sames(beacons)[..|beacons| - 1] == Sames(before);
      assert Coins(beacons)[..|beacons| - 1] == Coins(before);
    }
  }

  lemma LiquidationBalances(terms: Terms, state: Debt, vault: Source, time: nat, median: nat, beacon: Source, plan: Plan,
                            taker: Spk, fee: nat, wallet: seq<Source>, change: Spk)
    requires vault.coin.asset == terms.collateralAsset
    requires ComposeLiquidation(terms, state, vault, time, median, beacon, plan, taker, fee, wallet, change).Ok?
    ensures Balanced(ComposeLiquidation(terms, state, vault, time, median, beacon, plan, taker, fee, wallet, change).draft)
      <==> Holds(wallet, map[terms.debtAsset := plan.repaid + fee])
  {
    var d := ComposeLiquidation(terms, state, vault, time, median, beacon, plan, taker, fee, wallet, change).draft;
    var need := map[terms.debtAsset := plan.repaid + fee];
    var rest := ChangeOuts(Assets(Coins(wallet)), Coins(wallet), need, change);
    var seizure := SeizureOut(terms, state, vault.coin, plan, taker);
    var first, pay, feeOut := FirstOut(terms, state, vault.coin, time, plan, taker), Pay(terms.lender, terms.debtAsset, plan.repaid), Fee(terms.debtAsset, fee);
    var more := [Same(beacon.coin)] + seizure + [feeOut];
    assert d.ins == [vault] + [beacon] + wallet && d.outs == [first, pay] + more + rest;
    forall asset ensures CoinTotal(Coins([vault] + [beacon] + wallet), asset) == OutTotal([first, pay] + more + rest, asset)
      <==> asset in Assets(Coins(wallet)) || Need(need, asset) == 0
    {
      OneCoin(beacon, asset);
      BeaconTotal(Same(beacon.coin), seizure, feeOut, asset);
      SeizureTotal(terms, state, vault.coin, time, plan, taker, asset);
      SpendBalance(vault, [beacon], wallet, first, pay, more, need, change, asset);
    }
  }

  lemma BeaconTotal(beacon: Out, seizure: seq<Out>, feeOut: Out, asset: Id)
    ensures OutTotal([beacon] + seizure + [feeOut], asset) == Amount(beacon, asset) + OutTotal(seizure, asset) + Amount(feeOut, asset)
  {
    OutTotalConcat([beacon] + seizure, [feeOut], asset);
    OutTotalConcat([beacon], seizure, asset);
    OneOut(beacon, asset);
    OneOut(feeOut, asset);
  }

  /** Woven outputs are their two fixed ones, the beacons, the seizure, the change and the fee. */
  lemma WovenTotal(first: Out, pay: Out, beacons: seq<Source>, seizure: seq<Out>, rest: seq<Out>, feeOut: Out, asset: Id)
    requires |Sames(beacons)| <= |seizure + rest + [feeOut]| + 1
    ensures OutTotal([first, pay] + Laid(Sames(beacons), seizure + rest + [feeOut]), asset)
      == Amount(first, asset) + Amount(pay, asset) + CoinTotal(Coins(beacons), asset)
        + OutTotal(seizure, asset) + OutTotal(rest, asset) + Amount(feeOut, asset)
  {
    OutTotalConcat([first, pay], Laid(Sames(beacons), seizure + rest + [feeOut]), asset);
    TwoOuts(first, pay, asset);
    LaidTotal(Sames(beacons), seizure + rest + [feeOut], asset);
    SamesTotal(beacons, asset);
    OutTotalConcat(seizure + rest, [feeOut], asset);
    OutTotalConcat(seizure, rest, asset);
    OneOut(feeOut, asset);
  }

  /** A threshold liquidation balances, however many beacons are woven in. */
  lemma ThresholdBalances(terms: Terms, state: Debt, vault: Source, time: nat, median: nat, slots: seq<Option<Spk>>, threshold: nat,
                          beacons: seq<Source>, plan: Plan, taker: Spk, fee: nat, wallet: seq<Source>, change: Spk)
    requires vault.coin.asset == terms.collateralAsset
    requires ComposeThreshold(terms, state, vault, time, median, slots, threshold, beacons, plan, taker, fee, wallet, change).Ok?
    ensures Balanced(ComposeThreshold(terms, state, vault, time, median, slots, threshold, beacons, plan, taker, fee, wallet, change).draft)
      <==> Holds(wallet, map[terms.debtAsset := plan.repaid + fee])
  {
    var d := ComposeThreshold(terms, state, vault, time, median, slots, threshold, beacons, plan, taker, fee, wallet, change).draft;
    var need := map[terms.debtAsset := plan.repaid + fee];
    var rest := ChangeOuts(Assets(Coins(wallet)), Coins(wallet), need, change);
    var seizure := SeizureOut(terms, state, vault.coin, plan, taker);
    var first, pay, feeOut := FirstOut(terms, state, vault.coin, time, plan, taker), Pay(terms.lender, terms.debtAsset, plan.repaid), Fee(terms.debtAsset, fee);
    WeaveLays([first, pay], Sames(beacons), seizure + rest + [feeOut], 2);
    forall asset ensures CoinTotal(Coins(d.ins), asset) == OutTotal(d.outs, asset)
      <==> asset in Assets(Coins(wallet)) || Need(need, asset) == 0
    {
      InTotal([vault] + beacons, wallet, asset);
      InTotal([vault], beacons, asset);
      OneCoin(vault, asset);
      WovenTotal(first, pay, beacons, seizure, rest, feeOut, asset);
      SeizureTotal(terms, state, vault.coin, time, plan, taker, asset);
      ChangeBalances(Coins(wallet), need, change, asset);
    }
  }
}
