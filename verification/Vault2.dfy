/** Version 2 vault spends: what the composers build, and what following the chain reads
    back off a transaction alone. */
module Vault2 {
  import opened Wrappers

  /** Assets, transactions, witness items and other opaque byte strings, by number. */
  type Id = nat

  datatype Outpoint = Outpoint(txid: Id, vout: nat)

  /** An output script. A vault's is derived from its terms and state, injectively, so no
      terms can name the script derived from them. */
  datatype Spk = VaultScript(terms: Terms, owed: nat, last: nat) | Script(name: Id)

  datatype Terms = Terms(collateralAsset: Id, debtAsset: Id, lender: Spk, borrower: Spk,
                         recoverAfter: nat, others: Id)

  datatype Out = Out(spk: Spk, asset: Id, amount: nat, explicit: bool)

  datatype In = In(prev: Outpoint, stack: seq<Id>)

  datatype Tx = Tx(txid: Id, ins: seq<In>, outs: seq<Out>, locktime: nat)

  datatype Coin = Coin(at: Outpoint, amount: nat, asset: Id, spk: Spk)

  /** What a vault owes, and the time of its last liquidation. */
  datatype Debt = Debt(owed: nat, last: nat)

  function VaultSpk(terms: Terms, state: Debt): Spk { VaultScript(terms, state.owed, state.last) }

  const RECREATE: Id := 1

  // -------------------------------------------------------------- following

  datatype Event = TopUp | Repay | Liquidate | Repaid | Liquidated | Recovered | SpentUnknown

  /** What a spend did, and the state and output that carry on from it. */
  datatype Reading = Reading(event: Event, next: Option<Debt>, vout: Option<nat>)

  function OutAt(tx: Tx, i: nat): Option<Out> {
    if i < |tx.outs| && tx.outs[i].explicit then Some(tx.outs[i]) else None
  }

  predicate Recreates(stack: seq<Id>) { |stack| >= 2 && stack[|stack| - 2] == RECREATE }

  predicate SpendsBeacon(tx: Tx, k: nat) {
    exists i :: 0 <= i < |tx.ins| && i != k && Recreates(tx.ins[i].stack)
  }

  function PaidLender(terms: Terms, tx: Tx, k: nat): nat {
    var pay := OutAt(tx, 2 * k + 1);
    if pay.Some? && pay.value.spk == terms.lender && pay.value.asset == terms.debtAsset then pay.value.amount else 0
  }

  function Follow(terms: Terms, state: Debt, spk: Spk, tx: Tx, k: nat): Reading {
    var main, paid := OutAt(tx, 2 * k), PaidLender(terms, tx, k);
    if main.Some? && main.value.spk == spk && main.value.asset == terms.collateralAsset then
      Reading(TopUp, Some(state), Some(2 * k))
    else if main.Some? && paid > 0 then
      if paid < state.owed then
        if main.value.spk == VaultSpk(terms, Debt(state.owed - paid, state.last)) then
          Reading(Repay, Some(Debt(state.owed - paid, state.last)), Some(2 * k))
        else if main.value.spk == VaultSpk(terms, Debt(state.owed - paid, tx.locktime)) then
          Reading(Liquidate, Some(Debt(state.owed - paid, tx.locktime)), Some(2 * k))
        else Reading(SpentUnknown, None, None)
      else Reading(if SpendsBeacon(tx, k) then Liquidated else Repaid, None, None)
    else if main.Some? && main.value.spk == terms.lender && main.value.asset == terms.collateralAsset then
      Reading(Recovered, None, None)
    else Reading(SpentUnknown, None, None)
  }

  /** What each reading takes: the vault's script again is a top-up; a payment to the lender
      that leaves a debt is a repayment or, dated by the lock time, a liquidation, and one that
      leaves none is told apart by a beacon among the inputs; the lender's script alone is a
      recovery. */
  lemma FollowExactly(terms: Terms, state: Debt, spk: Spk, tx: Tx, k: nat)
    ensures var r := Follow(terms, state, spk, tx, k);
      var main, pay := 2 * k < |tx.outs| && tx.outs[2 * k].explicit, 2 * k + 1 < |tx.outs| && tx.outs[2 * k + 1].explicit;
      var paid: nat :=
        if pay && tx.outs[2 * k + 1].spk == terms.lender && tx.outs[2 * k + 1].asset == terms.debtAsset then tx.outs[2 * k + 1].amount else 0;
      var same := main && tx.outs[2 * k].spk == spk && tx.outs[2 * k].asset == terms.collateralAsset;
      var beacon := exists i :: 0 <= i < |tx.ins| && i != k && |tx.ins[i].stack| >= 2 && tx.ins[i].stack[|tx.ins[i].stack| - 2] == 1;
      var partly := main && !same && 0 < paid < state.owed;
      && (r.event == TopUp <==> same)
      && (r.event == Repay <==> partly && tx.outs[2 * k].spk == VaultScript(terms, state.owed - paid, state.last))
      && (r.event == Liquidate <==> partly && tx.outs[2 * k].spk == VaultScript(terms, state.owed - paid, tx.locktime) && tx.locktime != state.last)
      && (r.event == Repaid <==> main && !same && paid > 0 && paid >= state.owed && !beacon)
      && (r.event == Liquidated <==> main && !same && paid > 0 && paid >= state.owed && beacon)
      && (r.event == Recovered <==> main && !same && paid == 0 && tx.outs[2 * k].spk == terms.lender && tx.outs[2 * k].asset == terms.collateralAsset)
      && r.next == (match r.event
                    case TopUp => Some(state)
                    case Repay => Some(Debt(state.owed - paid, state.last))
                    case Liquidate => Some(Debt(state.owed - paid, tx.locktime))
                    case _ => None)
      && r.vout == if r.next.Some? then Some(2 * k) else None
  {}

  // ----------------------------------------------------------------- change

  function CoinTotal(coins: seq<Coin>, asset: Id): nat {
    if coins == [] then 0
    else
      var last := coins[|coins| - 1];
      CoinTotal(coins[..|coins| - 1], asset) + (if last.asset == asset then last.amount else 0)
  }

  function OutTotal(outs: seq<Out>, asset: Id): nat {
    if outs == [] then 0
    else
      var last := outs[|outs| - 1];
      OutTotal(outs[..|outs| - 1], asset) + (if last.asset == asset then last.amount else 0)
  }

  /** The assets of some coins, in order of first appearance. */
  function Assets(coins: seq<Coin>): seq<Id> {
    if coins == [] then []
    else
      var before, a := Assets(coins[..|coins| - 1]), coins[|coins| - 1].asset;
      if a in before then before else before + [a]
  }

  predicate Distinct(assets: seq<Id>) { forall i, j :: 0 <= i < j < |assets| ==> assets[i] != assets[j] }

  /** The assets are those some coin is in. */
  lemma {:induction false} AssetsOfCoins(coins: seq<Coin>, asset: Id)
    ensures asset in Assets(coins) <==> exists i :: 0 <= i < |coins| && coins[i].asset == asset
  {
    if coins != [] {
      var before := coins[..|coins| - 1];
      AssetsOfCoins(before, asset);
      assert coins == before + [coins[|coins| - 1]];
      assert forall i :: 0 <= i < |before| ==> before[i] == coins[i];
    }
  }

  lemma {:induction false} AssetsAre(coins: seq<Coin>, asset: Id)
    ensures Distinct(Assets(coins))
    ensures asset !in Assets(coins) ==> CoinTotal(coins, asset) == 0
  {
    if coins != [] {
      AssetsAre(coins[..|coins| - 1], asset);
    }
  }

  function Need(need: map<Id, nat>, asset: Id): nat {
    if asset in need then need[asset] else 0
  }

  predicate Covered(assets: seq<Id>, coins: seq<Coin>, need: map<Id, nat>) {
    forall i :: 0 <= i < |assets| ==> Need(need, assets[i]) <= CoinTotal(coins, assets[i])
  }

  lemma CoveredMore(assets: seq<Id>, i: nat, coins: seq<Coin>, need: map<Id, nat>)
    requires i < |assets| && Covered(assets[..i], coins, need)
    ensures Need(need, assets[i]) <= CoinTotal(coins, assets[i]) ==> Covered(assets[..i + 1], coins, need)
    ensures Need(need, assets[i]) > CoinTotal(coins, assets[i]) ==> !Covered(assets, coins, need)
  {
    assert forall j :: 0 <= j < i ==> assets[..i + 1][j] == assets[..i][j];
  }

  function LeftOver(a: Id, coins: seq<Coin>, need: map<Id, nat>, spk: Spk): seq<Out>
    requires Need(need, a) <= CoinTotal(coins, a)
  {
    var left := CoinTotal(coins, a) - Need(need, a);
    if left > 0 then [Out(spk, a, left, true)] else []
  }

  function ChangeOuts(assets: seq<Id>, coins: seq<Coin>, need: map<Id, nat>, spk: Spk): seq<Out>
    requires Covered(assets, coins, need)
  {
    if assets == [] then []
    else ChangeOuts(assets[..|assets| - 1], coins, need, spk) + LeftOver(assets[|assets| - 1], coins, need, spk)
  }

  method Held(coins: seq<Coin>) returns (have: map<Id, nat>, order: seq<Id>)
    ensures order == Assets(coins)
    ensures forall a :: a in have <==> a in order
    ensures forall a :: a in have ==> have[a] == CoinTotal(coins, a)
  {
    have, order := map[], [];
    for i := 0 to |coins|
      invariant order == Assets(coins[..i])
      invariant forall a :: a in have <==> a in order
      invariant forall a :: CoinTotal(coins[..i], a) == if a in have then have[a] else 0
    {
      var a := coins[i].asset;
      assert coins[..i + 1][..i] == coins[..i];
      if a !in have {
        order := order + [a];
      }
      have := have[a := (if a in have then have[a] else 0) + coins[i].amount];
    }
    assert coins[..|coins|] == coins;
  }

  /** What is left of each asset of the wallet's coins; nothing when one runs short. */
  method Change(coins: seq<Coin>, need: map<Id, nat>, spk: Spk) returns (outs: Option<seq<Out>>)
    ensures outs == if Covered(Assets(coins), coins, need) then Some(ChangeOuts(Assets(coins), coins, need, spk)) else None
  {
    var have, order := Held(coins);
    var built := [];
    for i := 0 to |order|
      invariant Covered(order[..i], coins, need)
      invariant built == ChangeOuts(order[..i], coins, need, spk)
    {
      assert order[..i + 1][..i] == order[..i];
      CoveredMore(order, i, coins, need);
      var a := order[i];
      if have[a] < Need(need, a) {
        return None;
      }
      built := built + LeftOver(a, coins, need, spk);
    }
    assert order[..|order|] == order;
    return Some(built);
  }

  lemma LeftOverTotal(a: Id, coins: seq<Coin>, need: map<Id, nat>, spk: Spk, asset: Id)
    requires Need(need, a) <= CoinTotal(coins, a)
    ensures OutTotal(LeftOver(a, coins, need, spk), asset) == if asset == a then CoinTotal(coins, a) - Need(need, a) else 0
  {
    var outs := LeftOver(a, coins, need, spk);
    assert outs != [] ==> OutTotal(outs[..0], asset) == 0;
  }

  lemma {:induction false} ChangeTotal(assets: seq<Id>, coins: seq<Coin>, need: map<Id, nat>, spk: Spk, asset: Id)
    requires Covered(assets, coins, need) && Distinct(assets)
    ensures OutTotal(ChangeOuts(assets, coins, need, spk), asset)
      == if asset in assets then CoinTotal(coins, asset) - Need(need, asset) else 0
  {
    if assets != [] {
      var before, a := assets[..|assets| - 1], assets[|assets| - 1];
      ChangeTotal(before, coins, need, spk, asset);
      OutTotalConcat(ChangeOuts(before, coins, need, spk), LeftOver(a, coins, need, spk), asset);
      LeftOverTotal(a, coins, need, spk, asset);
      assert asset in assets <==> asset in before || asset == a;
    }
  }

  lemma {:induction false} OutTotalConcat(a: seq<Out>, b: seq<Out>, asset: Id)
    ensures OutTotal(a + b, asset) == OutTotal(a, asset) + OutTotal(b, asset)
  {
    if b == [] {
      assert a + b == a;
    } else {
      OutTotalConcat(a, b[..|b| - 1], asset);
      assert (a + b)[..|a + b| - 1] == a + b[..|b| - 1];
    }
  }

  lemma {:induction false} CoinTotalConcat(a: seq<Coin>, b: seq<Coin>, asset: Id)
    ensures CoinTotal(a + b, asset) == CoinTotal(a, asset) + CoinTotal(b, asset)
  {
    if b == [] {
      assert a + b == a;
    } else {
      CoinTotalConcat(a, b[..|b| - 1], asset);
      assert (a + b)[..|a + b| - 1] == a + b[..|b| - 1];
    }
  }

  /** The change of some coins, and what they were needed for, is all of them - unless an
      asset is needed that none of them is. */
  lemma ChangeBalances(coins: seq<Coin>, need: map<Id, nat>, spk: Spk, asset: Id)
    requires Covered(Assets(coins), coins, need)
    ensures OutTotal(ChangeOuts(Assets(coins), coins, need, spk), asset) + Need(need, asset) == CoinTotal(coins, asset)
      <==> asset in Assets(coins) || Need(need, asset) == 0
  {
    AssetsAre(coins, asset);
    ChangeTotal(Assets(coins), coins, need, spk, asset);
  }
}
