/** What the watcher reads out of blocks, as functions: which vault a spend closes, where
    a spend moves an offer's coin, and how both are put back. */
module Scan {
  import opened Wrappers

  /** Transactions, records, scripts, assets and witness items, by number; zero is none. */
  type Id = nat

  const NONE: Id := 0

  datatype Outpoint = Outpoint(txid: Id, vout: nat)

  datatype TxIn = TxIn(prev: Outpoint, stack: seq<Id>)

  datatype TxOut = TxOut(spk: Id, asset: Id, value: nat)

  datatype Tx = Tx(txid: Id, vin: seq<TxIn>, vout: seq<TxOut>)

  /** A block names its hash; two chains that agree on it agree below it. */
  datatype Block = Block(hash: int, txs: seq<Tx>)

  datatype VaultState =
    UNCONFIRMED | LIVE | REPAID | LIQUIDATED | DEFAULTED | RECOVERED | SPENT_UNKNOWN | GHOST

  datatype Vault = Vault(
    coin: Outpoint, singleLeaf: bool, leafNames: map<Id, LeafName>,
    state: VaultState, spentBy: Id, spentHeight: nat, fundingHeight: nat, fundingBlock: int,
    confirmations: nat, lastSeen: nat, walkedTo: nat)

  datatype Status = Open | Taken | Withdrawn | Gone | Ghosted | Delisted

  datatype Move = Move(from: Outpoint, value: nat, status: Status, height: nat, mover: Id)

  datatype Offer = Offer(
    spk: Id, debtAsset: Id, takeLeaf: Id, refundLeaf: Id,
    coin: Outpoint, value: nat, status: Status, history: seq<Move>)

  /** The watcher's maps. */
  datatype Maps = Maps(
    vaults: map<Id, Vault>, byOutpoint: map<Outpoint, Id>,
    offers: map<Id, Offer>, byOffer: map<Outpoint, Id>)

  /** One input of one transaction of one block. */
  datatype Spend = Spend(tx: Tx, k: nat, height: nat)

  // ------------------------------------------------------------------ exits

  predicate Closed(s: VaultState) { s != UNCONFIRMED && s != LIVE }

  predicate Settled(v: Vault) {
    Closed(v.state) && v.state != GHOST && v.spentHeight > 0
  }

  /** The leaves a vault can be left by; a single-leaf vault has one, with a selector. */
  datatype LeafName = Repay | Liquidate | Default | Recover | Whole

  const SELECT_REPAY: Id := 0
  const SELECT_LIQUIDATE: Id := 1
  const SELECT_DEFAULT: Id := 2

  function ExitByName(name: Option<LeafName>): VaultState {
    match name
    case Some(Repay) => REPAID
    case Some(Liquidate) => LIQUIDATED
    case Some(Default) => DEFAULTED
    case Some(Recover) => RECOVERED
    case _ => SPENT_UNKNOWN
  }

  function ExitBySelector(selector: Id): LeafName {
    if selector == SELECT_REPAY then Repay
    else if selector == SELECT_LIQUIDATE then Liquidate
    else if selector == SELECT_DEFAULT then Default
    else Recover
  }

  /** The exit a spend took, from the leaf its witness had to reveal. */
  function NameExit(v: Vault, stack: seq<Id>): (s: VaultState)
    ensures Closed(s) && s != GHOST
  {
    if |stack| < 2 then SPENT_UNKNOWN
    else
      var leaf := stack[|stack| - 2];
      var name := if leaf in v.leafNames then Some(v.leafNames[leaf]) else None;
      if v.singleLeaf then
        if name != Some(Whole) || |stack| < 3 then SPENT_UNKNOWN
        else ExitByName(Some(ExitBySelector(stack[|stack| - 3])))
      else ExitByName(name)
  }

  /** The exit of a vault with a leaf for each: the one whose leaf was revealed. */
  lemma LeafNamesExit(v: Vault, before: seq<Id>, leaf: Id, control: Id)
    requires !v.singleLeaf
    ensures var exit := NameExit(v, before + [leaf, control]);
      && (exit == REPAID <==> leaf in v.leafNames && v.leafNames[leaf] == Repay)
      && (exit == LIQUIDATED <==> leaf in v.leafNames && v.leafNames[leaf] == Liquidate)
      && (exit == DEFAULTED <==> leaf in v.leafNames && v.leafNames[leaf] == Default)
      && (exit == RECOVERED <==> leaf in v.leafNames && v.leafNames[leaf] == Recover)
      && (exit == SPENT_UNKNOWN <==> leaf !in v.leafNames || v.leafNames[leaf] == Whole)
  {
    assert (before + [leaf, control])[|before|] == leaf;
  }

  /** The exit of a single-leaf vault: by the selector before its leaf, where whatever is
      not one of the first three sweeps. */
  lemma SelectorNamesExit(v: Vault, before: seq<Id>, selector: Id, leaf: Id, control: Id)
    requires v.singleLeaf
    ensures var exit, ours := NameExit(v, before + [selector, leaf, control]), leaf in v.leafNames && v.leafNames[leaf] == Whole;
      && (exit == REPAID <==> ours && selector == 0)
      && (exit == LIQUIDATED <==> ours && selector == 1)
      && (exit == DEFAULTED <==> ours && selector == 2)
      && (exit == RECOVERED <==> ours && selector >= 3)
      && (exit == SPENT_UNKNOWN <==> !ours)
  {
    var stack := before + [selector, leaf, control];
    assert stack[|stack| - 2] == leaf && stack[|stack| - 3] == selector;
  }

  /** A witness that reveals no leaf, or a single leaf without a selector, names nothing. */
  lemma ShortNamesNothing(v: Vault, stack: seq<Id>)
    requires |stack| < 2 || (v.singleLeaf && |stack| < 3)
    ensures NameExit(v, stack) == SPENT_UNKNOWN
  {}

  // ------------------------------------------------------------ one spend

  predicate Remainder(o: Offer, tx: Tx, k: nat) {
    && 2 * k + 1 < |tx.vout|
    && tx.vout[2 * k + 1].spk == o.spk
    && tx.vout[2 * k + 1].asset == o.debtAsset
  }

  predicate IsTake(o: Offer, stack: seq<Id>) {
    |stack| == 4 && stack[2] == o.takeLeaf
  }

  /** Where a spend leaves an offer: on the remainder of its take, or ended. */
  function Moved(o: Offer, tx: Tx, k: nat, height: nat): Offer
    requires k < |tx.vin|
  {
    var stack := tx.vin[k].stack;
    var o1 := o.(history := o.history + [Move(o.coin, o.value, o.status, height, tx.txid)]);
    if IsTake(o, stack) then
      if Remainder(o, tx, k)
      then o1.(coin := Outpoint(tx.txid, 2 * k + 1), value := tx.vout[2 * k + 1].value)
      else o1.(status := Taken, value := 0)
    else if |stack| >= 2 && stack[|stack| - 2] == o.refundLeaf then o1.(status := Withdrawn)
    else o1.(status := Gone)
  }

  /** A take leaves an offer open exactly when its remainder is at the odd output, and on it;
      a spend by another leaf, or with another number of items, ends it. */
  lemma MovedExactly(o: Offer, tx: Tx, k: nat, height: nat)
    requires k < |tx.vin| && o.status == Open
    ensures var o', stack := Moved(o, tx, k, height), tx.vin[k].stack;
      var takes := |stack| == 4 && stack[2] == o.takeLeaf;
      var rests := 2 * k + 1 < |tx.vout| && tx.vout[2 * k + 1].spk == o.spk && tx.vout[2 * k + 1].asset == o.debtAsset;
      && (o'.status == Open <==> takes && rests)
      && (o'.status == Taken <==> takes && !rests)
      && (o'.status == Withdrawn <==> !takes && |stack| >= 2 && stack[|stack| - 2] == o.refundLeaf)
      && (o'.status == Gone <==> !takes && !(|stack| >= 2 && stack[|stack| - 2] == o.refundLeaf))
      && (takes && rests ==> o'.coin == Outpoint(tx.txid, 2 * k + 1) && tx.vout[2 * k + 1] == TxOut(o.spk, o.debtAsset, o'.value))
      && (!(takes && rests) ==> o'.coin == o.coin && o'.value == if takes then 0 else o.value)
      && o'.history == o.history + [Move(o.coin, o.value, Open, height, tx.txid)]
      && (o'.spk, o'.debtAsset, o'.takeLeaf, o'.refundLeaf) == (o.spk, o.debtAsset, o.takeLeaf, o.refundLeaf)
  {}

  function Close(m: Maps, e: Spend): Maps
    requires e.k < |e.tx.vin|
  {
    var key := e.tx.vin[e.k].prev;
    if key in m.byOutpoint && m.byOutpoint[key] in m.vaults && !Settled(m.vaults[m.byOutpoint[key]]) then
      var id := m.byOutpoint[key];
      var v := m.vaults[id];
      m.(vaults := m.vaults[id :=
        v.(spentBy := e.tx.txid, spentHeight := e.height, state := NameExit(v, e.tx.vin[e.k].stack))])
    else m
  }

  function MoveOffer(m: Maps, e: Spend): Maps
    requires e.k < |e.tx.vin|
  {
    var key := e.tx.vin[e.k].prev;
    if key in m.byOffer && m.byOffer[key] in m.offers && m.offers[m.byOffer[key]].status == Open then
      var id := m.byOffer[key];
      var o := m.offers[id];
      var o' := Moved(o, e.tx, e.k, e.height);
      var index := m.byOffer - {o.coin};
      m.(offers := m.offers[id := o'],
         byOffer := if o'.status == Open then index[o'.coin := id] else index)
    else m
  }

  function Step(m: Maps, e: Spend): Maps
    requires e.k < |e.tx.vin|
  {
    MoveOffer(Close(m, e), e)
  }

  // ------------------------------------------------------------- many spends

  predicate Real(es: seq<Spend>) {
    forall i :: 0 <= i < |es| ==> es[i].k < |es[i].tx.vin|
  }

  function Read(m: Maps, es: seq<Spend>): Maps
    requires Real(es)
  {
    if es == [] then m
    else Step(Read(m, es[..|es| - 1]), es[|es| - 1])
  }

  function TxSpends(tx: Tx, height: nat): seq<Spend> {
    seq(|tx.vin|, k requires 0 <= k < |tx.vin| => Spend(tx, k, height))
  }

  function BlockSpends(txs: seq<Tx>, height: nat): (es: seq<Spend>)
    ensures Real(es)
    ensures forall i :: 0 <= i < |es| ==> es[i].height == height
  {
    if txs == [] then []
    else BlockSpends(txs[..|txs| - 1], height) + TxSpends(txs[|txs| - 1], height)
  }

  /** The spends of the blocks above `low`, up to and including `high`. */
  function ChainSpends(chain: seq<Block>, low: nat, high: nat): (es: seq<Spend>)
    requires low <= high < |chain|
    ensures Real(es)
    ensures forall i :: 0 <= i < |es| ==> low < es[i].height <= high
  {
    if low == high then []
    else ChainSpends(chain, low, high - 1) + BlockSpends(chain[high].txs, high)
  }

  lemma {:induction false} ReadConcat(m: Maps, a: seq<Spend>, b: seq<Spend>)
    requires Real(a) && Real(b)
    ensures Read(m, a + b) == Read(Read(m, a), b)
  {
    if b == [] {
      assert a + b == a;
    } else {
      ReadConcat(m, a, b[..|b| - 1]);
      assert (a + b)[..|a + b| - 1] == a + b[..|b| - 1];
    }
  }

  lemma {:induction false} ChainSplit(chain: seq<Block>, low: nat, mid: nat, high: nat)
    requires low <= mid <= high < |chain|
    ensures ChainSpends(chain, low, high) == ChainSpends(chain, low, mid) + ChainSpends(chain, mid, high)
  {
    if mid < high {
      ChainSplit(chain, low, mid, high - 1);
    }
  }

  lemma {:induction false} ChainAgree(c: seq<Block>, d: seq<Block>, low: nat, high: nat)
    requires low <= high < |c| && high < |d| && c[..high + 1] == d[..high + 1]
    ensures ChainSpends(c, low, high) == ChainSpends(d, low, high)
  {
    if low < high {
      assert c[high] == c[..high + 1][high] == d[high];
      assert c[..high] == c[..high + 1][..high] == d[..high];
      ChainAgree(c, d, low, high - 1);
    }
  }

  // -------------------------------------------------------------------- undo

  /** An offer with its moves above `ancestor` taken back, newest first; a move seen
      only in the mempool has height 0 and stops the descent. */
  function Restore(o: Offer, ancestor: nat): Offer
    decreases |o.history|
  {
    if o.history != [] && o.history[|o.history| - 1].height > ancestor then
      var last := o.history[|o.history| - 1];
      Restore(o.(history := o.history[..|o.history| - 1],
                 coin := last.from, value := last.value, status := last.status), ancestor)
    else o
  }

  predicate MovedAbove(o: Offer, ancestor: nat) {
    o.history != [] && o.history[|o.history| - 1].height > ancestor
  }

  /** Every coin an offer rested on since the ancestor. */
  function Trail(o: Offer, ancestor: nat): set<Outpoint>
    decreases |o.history|
  {
    if MovedAbove(o, ancestor) then
      var last := o.history[|o.history| - 1];
      {o.coin} + Trail(o.(history := o.history[..|o.history| - 1], coin := last.from), ancestor)
    else {o.coin}
  }

  function RestoreVault(v: Vault, ancestor: nat, replaced: (nat, int) -> bool): Vault {
    var v1 :=
      if v.spentHeight > ancestor then v.(spentBy := NONE, spentHeight := 0, state := UNCONFIRMED, walkedTo := 0) else v;
    if v1.fundingHeight > ancestor && replaced(v1.fundingHeight, v1.fundingBlock)
    then v1.(fundingHeight := 0, fundingBlock := 0, state := GHOST, confirmations := 0, walkedTo := 0)
    else v1
  }

  /** A vault taken back to a height: a close above it is forgotten, and a funding recorded above
      it that was replaced makes it a ghost; nothing else changes. */
  lemma VaultRestored(v: Vault, ancestor: nat, replaced: (nat, int) -> bool)
    ensures var r, closed, lost := RestoreVault(v, ancestor, replaced), v.spentHeight > ancestor,
              v.fundingHeight > ancestor && replaced(v.fundingHeight, v.fundingBlock);
      && (lost ==> r.state == GHOST && r.fundingHeight == 0 && r.fundingBlock == 0 && r.confirmations == 0 && r.walkedTo == 0)
      && (closed ==> r.spentBy == 0 && r.spentHeight == 0 && r.walkedTo == 0 && (!lost ==> r.state == UNCONFIRMED))
      && (!closed ==> r.spentBy == v.spentBy && r.spentHeight == v.spentHeight)
      && (!lost ==> (r.fundingHeight, r.fundingBlock, r.confirmations) == (v.fundingHeight, v.fundingBlock, v.confirmations))
      && (!closed && !lost ==> r == v)
      && (r.coin, r.singleLeaf, r.leafNames, r.lastSeen) == (v.coin, v.singleLeaf, v.leafNames, v.lastSeen)
  {}

  /** What one offer's descent does to the index. */
  function Reindex(index: map<Outpoint, Id>, id: Id, o: Offer, ancestor: nat): map<Outpoint, Id> {
    if MovedAbove(o, ancestor) then (index - Trail(o, ancestor))[Restore(o, ancestor).coin := id] else index
  }

  /** ... and what every offer's does, in the order the watcher keeps them. */
  function ReindexAll(index: map<Outpoint, Id>, offers: map<Id, Offer>, order: seq<Id>, ancestor: nat)
    : map<Outpoint, Id>
  {
    if order == [] then index
    else
      var id := order[|order| - 1];
      var before := ReindexAll(index, offers, order[..|order| - 1], ancestor);
      if id in offers then Reindex(before, id, offers[id], ancestor) else before
  }

  function Undo(m: Maps, order: seq<Id>, ancestor: nat, replaced: (nat, int) -> bool): Maps {
    Maps(map id | id in m.vaults :: RestoreVault(m.vaults[id], ancestor, replaced), m.byOutpoint,
         map id | id in m.offers :: Restore(m.offers[id], ancestor),
         ReindexAll(m.byOffer, m.offers, order, ancestor))
  }
}
