/** When the watcher calls a vault a ghost: what the rest of a poll does to a vault, and
    whether the funding it calls undone really is. */
module Ghosts {
  import opened Wrappers
  import opened Scan
  import opened Node
  import opened Ends
  import opened Backward

  // ---------------------------------------------------------------- refresh

  datatype Rules = Rules(rescanDepth: nat, minDepth: nat)

  predicate Final(v: Vault, tip: nat, rules: Rules) {
    Settled(v) && tip - v.spentHeight + 1 >= rules.rescanDepth
  }

  function RecordFunding(v: Vault, view: View): Vault {
    var h := |view.chain| - v.confirmations;
    if v.fundingBlock != 0 || v.confirmations < 1 || h < 1 || view.HashAt(h).None? then v
    else v.(fundingHeight := h, fundingBlock := view.HashAt(h).value)
  }

  /** The witness of the input a hit names. */
  function StackOf(hit: Hit): seq<Id> { if hit.k < |hit.tx.vin| then hit.tx.vin[hit.k].stack else [] }

  function CloseBy(v: Vault, hit: Hit): Vault {
    v.(spentBy := hit.tx.txid, spentHeight := hit.height, state := NameExit(v, StackOf(hit)))
  }

  /** The coin is there, and so many blocks deep. */
  function SeenUnspent(v: Vault, confirmations: nat, view: View, rules: Rules): Vault
    requires view.chain != []
  {
    var v1 := RecordFunding(v.(confirmations := confirmations, lastSeen := |view.chain| - 1, walkedTo := 0), view);
    var v2 := if Closed(v.state) && v.state != GHOST then v1.(spentBy := NONE, spentHeight := 0) else v1;
    v2.(state := if confirmations >= rules.minDepth then LIVE else UNCONFIRMED)
  }

  /** Whether the recorded funding block was replaced, if there is a record and an answer. */
  function FundingReorged(v: Vault, view: View): Option<bool> {
    if v.fundingBlock == 0 || v.fundingHeight == 0 then None
    else if v.fundingHeight >= |view.chain| then Some(true)
    else match view.HashAt(v.fundingHeight)
      case None => None
      case Some(hash) => Some(hash != v.fundingBlock)
  }

  /** No coin and no spender: a funding undone, an exit out of reach, or not yet known. */
  function Decide(v: Vault, view: View, scanned: nat, rules: Rules): Vault {
    var tip := |view.chain| - 1;
    var reorged := FundingReorged(v, view);
    var neverBuried := reorged == None && v.confirmations < rules.minDepth;
    if neverBuried && scanned < tip then v
    else if !(reorged == Some(true) || (neverBuried && v.lastSeen > 0)) && tip >= 0 && !Exhausted(tip, rules.rescanDepth, v.walkedTo) then v
    else if reorged == Some(true) || neverBuried then v.(state := GHOST, confirmations := 0)
    else v.(state := SPENT_UNKNOWN)
  }

  /** What a poll's share of the backward search came back with. */
  datatype Walked = Walked(found: Option<Hit>, to: nat)

  ghost predicate HonestWalk(chain: seq<Block>, v: Vault, rules: Rules, walk: Walked) {
    chain != [] && Honest(chain, v.coin, |chain| - 1, rules.rescanDepth, v.walkedTo, walk.found, walk.to)
  }

  /** The coin is not there and the vault is open: look for what spent it. */
  ghost function Missing(v: Vault, view: View, decoded: seq<Tx>, scanned: nat, rules: Rules, walk: Walked): Vault {
    var tip := |view.chain| - 1;
    var hit := MempoolSpender(decoded, v.coin);
    var unburied := v.lastSeen > 0 && v.confirmations < rules.minDepth;
    if hit.Some? then CloseBy(v, hit.value)
    else if unburied || tip < 0 || Exhausted(tip, rules.rescanDepth, v.walkedTo) then Decide(v, view, scanned, rules)
    else if walk.found.Some? then CloseBy(v.(walkedTo := walk.to), walk.found.value)
    else Decide(v.(walkedTo := walk.to), view, scanned, rules)
  }

  /** One vault's part of a poll, after the forward scan: from what the node says of the coin,
      the mempool transactions it handed over, and how far the backward search got. */
  ghost function Refresh(v: Vault, view: View, mempool: seq<Tx>, decoded: seq<Tx>, scanned: nat, rules: Rules, walk: Walked): Vault
    requires view.chain != []
  {
    var out := Txout(view.chain, mempool, v.coin);
    if Final(v, |view.chain| - 1, rules) then v
    else if out.Some? then SeenUnspent(v, out.value, view, rules)
    else if v.state == GHOST then v
    else if Closed(v.state) then
      var hit := MempoolSpender(decoded, v.coin);
      if hit.Some? && hit.value.tx.txid != v.spentBy then CloseBy(v, hit.value) else v
    else Missing(v, view, decoded, scanned, rules, walk)
  }

  // ------------------------------------------------- what a refresh decides

  predicate Deep(v: Vault, tip: nat, rules: Rules) { Settled(v) && tip + 1 >= v.spentHeight + rules.rescanDepth }

  /** A vault whose close is as deep as the rescan is left; so is one known as a ghost until its
      coin is there. */
  lemma RefreshLeaves(v: Vault, view: View, mempool: seq<Tx>, decoded: seq<Tx>, scanned: nat, rules: Rules, walk: Walked)
    requires view.chain != []
    requires Deep(v, |view.chain| - 1, rules) || (v.state == GHOST && Txout(view.chain, mempool, v.coin).None?)
    ensures Refresh(v, view, mempool, decoded, scanned, rules, walk) == v
  {}

  /** A coin that is there: open again whatever was recorded, running once as deep as asked,
      and the block that holds it recorded if none was and the node names it. */
  lemma RefreshSeen(v: Vault, view: View, mempool: seq<Tx>, decoded: seq<Tx>, scanned: nat, rules: Rules, walk: Walked)
    requires view.chain != [] && !Deep(v, |view.chain| - 1, rules) && Txout(view.chain, mempool, v.coin).Some?
    ensures var r, depth := Refresh(v, view, mempool, decoded, scanned, rules, walk), Txout(view.chain, mempool, v.coin).value;
      var records := v.fundingBlock == 0 && 1 <= depth < |view.chain| && view.saysHash(|view.chain| - depth);
      && (r.state == LIVE <==> depth >= rules.minDepth) && (r.state == UNCONFIRMED <==> depth < rules.minDepth)
      && r.confirmations == depth && r.lastSeen == |view.chain| - 1 && r.walkedTo == 0
      && (v.state in [REPAID, LIQUIDATED, DEFAULTED, RECOVERED, SPENT_UNKNOWN] ==> r.spentBy == 0 && r.spentHeight == 0)
      && (v.state in [LIVE, UNCONFIRMED, GHOST] ==> r.spentBy == v.spentBy && r.spentHeight == v.spentHeight)
      && (records ==> r.fundingHeight == |view.chain| - depth && r.fundingBlock == view.chain[|view.chain| - depth].hash)
      && (!records ==> r.fundingHeight == v.fundingHeight && r.fundingBlock == v.fundingBlock)
      && r.coin == v.coin && r.singleLeaf == v.singleLeaf && r.leafNames == v.leafNames
  {}

  /** A close that is not deep is only changed by another spend of the coin in the mempool. */
  lemma RefreshClosed(v: Vault, view: View, mempool: seq<Tx>, decoded: seq<Tx>, scanned: nat, rules: Rules, walk: Walked)
    requires view.chain != [] && !Deep(v, |view.chain| - 1, rules) && Txout(view.chain, mempool, v.coin).None?
    requires v.state in [REPAID, LIQUIDATED, DEFAULTED, RECOVERED, SPENT_UNKNOWN]
    ensures var r, hit := Refresh(v, view, mempool, decoded, scanned, rules, walk), MempoolSpender(decoded, v.coin);
      if hit.Some? && hit.value.tx.txid != v.spentBy
      then r == v.(spentBy := hit.value.tx.txid, spentHeight := 0, state := NameExit(v, hit.value.tx.vin[hit.value.k].stack))
      else r == v
  {}

  /** Whether the search has read down to its floor. */
  predicate Over(tip: nat, depth: nat, walkedTo: nat) { walkedTo != 0 && (walkedTo == 1 || walkedTo + depth <= tip + 1) }

  /** Whether the record of the funding block is known to be wrong, or right. */
  predicate RecordMoved(v: Vault, view: View) {
    v.fundingBlock != 0 && v.fundingHeight != 0
    && (v.fundingHeight < |view.chain| ==> view.saysHash(v.fundingHeight) && view.chain[v.fundingHeight].hash != v.fundingBlock)
  }

  predicate RecordStands(v: Vault, view: View) {
    v.fundingBlock != 0 && v.fundingHeight != 0
    && v.fundingHeight < |view.chain| && view.saysHash(v.fundingHeight) && view.chain[v.fundingHeight].hash == v.fundingBlock
  }

  /** A coin that is not there, of a vault that is open: closed by what spends it in the mempool
      or, unless it was seen and never deep, in a block the search came to. With neither, a
      funding known to have moved or, with all blocks read, never deep makes it a ghost; and
      one that was deep, a search that is over makes it spent by what cannot be told. */
  lemma RefreshMissing(v: Vault, view: View, mempool: seq<Tx>, decoded: seq<Tx>, scanned: nat, rules: Rules, walk: Walked)
    requires view.chain != [] && v.state in [LIVE, UNCONFIRMED] && Txout(view.chain, mempool, v.coin).None?
    ensures var r, hit, tip := Refresh(v, view, mempool, decoded, scanned, rules, walk), MempoolSpender(decoded, v.coin), |view.chain| - 1;
      var shallow := v.confirmations < rules.minDepth;
      var searched := !(v.lastSeen > 0 && shallow) && !Over(tip, rules.rescanDepth, v.walkedTo);
      var walkedTo := if searched then walk.to else v.walkedTo;
      var gone := RecordMoved(v, view) || (shallow && !RecordStands(v, view) && scanned >= tip && (v.lastSeen > 0 || Over(tip, rules.rescanDepth, walkedTo)));
      if hit.Some? then r == v.(spentBy := hit.value.tx.txid, spentHeight := 0, state := NameExit(v, StackOf(hit.value)))
      else if searched && walk.found.Some? then
        r == v.(walkedTo := walk.to, spentBy := walk.found.value.tx.txid, spentHeight := walk.found.value.height,
                state := NameExit(v, StackOf(walk.found.value)))
      else if gone then r == v.(walkedTo := walkedTo, state := GHOST, confirmations := 0)
      else if Over(tip, rules.rescanDepth, walkedTo) && !(shallow && !RecordStands(v, view)) then r == v.(walkedTo := walkedTo, state := SPENT_UNKNOWN)
      else r == v.(walkedTo := walkedTo)
  {}

  // ------------------------------------------------------- what stays true

  lemma ClosedKnows(v: Vault, hit: Hit, chain: seq<Block>, low: nat, top: nat)
    requires Knows(v, chain, low, top) && !Settled(v) && hit.height > 0
    requires SpentBy(chain, hit.height, hit.tx, hit.k, v.coin)
    ensures Knows(CloseBy(v, hit), chain, low, top)
  {
    var r := CloseBy(v, hit);
    assert NameExit(r, hit.tx.vin[hit.k].stack) == NameExit(v, hit.tx.vin[hit.k].stack);
    assert EndStands(r, chain);
  }

  lemma MissingKnows(v: Vault, view: View, decoded: seq<Tx>, low: nat, scanned: nat, rules: Rules, walk: Walked)
    requires HonestWalk(view.chain, v, rules, walk)
    requires Knows(v, view.chain, low, scanned) && !Closed(v.state)
    ensures Knows(Missing(v, view, decoded, scanned, rules, walk), view.chain, low, scanned)
  {
    if walk.found.Some? {
      var v1 := v.(walkedTo := walk.to);
      assert !Settled(v1) && (v1.spentHeight == 0 <==> v.spentHeight == 0);
      assert Knows(v1, view.chain, low, scanned);
      ClosedKnows(v1, walk.found.value, view.chain, low, scanned);
    }
  }

  lemma SeenKnows(v: Vault, view: View, mempool: seq<Tx>, low: nat, scanned: nat, rules: Rules)
    requires view.chain != [] && Knows(v, view.chain, low, scanned) && Sane(view.chain, mempool, v.coin)
    requires low < |view.chain| && Txout(view.chain, mempool, v.coin).Some?
    ensures Knows(SeenUnspent(v, Txout(view.chain, mempool, v.coin).value, view, rules), view.chain, low, scanned)
  {
    var out := Txout(view.chain, mempool, v.coin).value;
    var r := SeenUnspent(v, out, view, rules);
    assert !ChainSpent(view.chain, v.coin);
    if Settled(v) {
      SettledSpent(v, view.chain);
    }
    if r.fundingHeight != v.fundingHeight || r.fundingBlock != v.fundingBlock {
      assert out >= 1 && ChainMade(view.chain, v.coin);
      assert r.fundingHeight == |view.chain| - out;
    }
  }

  /** A settled vault's coin is spent in the chain. */
  lemma SettledSpent(v: Vault, chain: seq<Block>)
    requires Settled(v) && EndStands(v, chain)
    ensures ChainSpent(chain, v.coin)
  {
    var tx, k: nat :| SpentBy(chain, v.spentHeight, tx, k, v.coin);
    SpentByIn(chain, v.spentHeight, tx, k, v.coin);
  }

  /** Mempool transactions the node handed over are in its mempool. */
  predicate From(decoded: seq<Tx>, mempool: seq<Tx>) { forall tx :: tx in decoded ==> tx in mempool }

  lemma DecodedSpent(decoded: seq<Tx>, mempool: seq<Tx>, coin: Outpoint)
    requires From(decoded, mempool) && SpentIn(decoded, coin)
    ensures SpentIn(mempool, coin)
  {
    var i, k: nat :| 0 <= i < |decoded| && Spends(decoded[i], k, coin);
    assert decoded[i] in mempool;
    var j :| 0 <= j < |mempool| && mempool[j] == decoded[i];
    assert Spends(mempool[j], k, coin);
  }

  /** Whatever went unanswered, a refresh keeps what is known true. */
  lemma RefreshKnows(v: Vault, view: View, mempool: seq<Tx>, decoded: seq<Tx>, low: nat, scanned: nat, rules: Rules, walk: Walked)
    requires HonestWalk(view.chain, v, rules, walk) && low < |view.chain| && From(decoded, mempool)
    requires Knows(v, view.chain, low, scanned) && Sane(view.chain, mempool, v.coin)
    ensures Knows(Refresh(v, view, mempool, decoded, scanned, rules, walk), view.chain, low, scanned)
  {
    if Txout(view.chain, mempool, v.coin).Some? {
      SeenKnows(v, view, mempool, low, scanned, rules);
    } else if !Closed(v.state) {
      MissingKnows(v, view, decoded, low, scanned, rules, walk);
    } else if SpentIn(decoded, v.coin) {
      DecodedSpent(decoded, mempool, v.coin);
      if Settled(v) {
        SettledSpent(v, view.chain);
      }
    }
  }

  // --------------------------------------------------------------- ghosts

  /** With the forward scan at the tip and the mempool handed over whole, a vault seen unspent
      in this run and called a ghost is one whose funding is nowhere, unless the mempool holds
      what spends it. */
  lemma GhostSound(v: Vault, view: View, mempool: seq<Tx>, low: nat, rules: Rules, walk: Walked)
    requires HonestWalk(view.chain, v, rules, walk) && low < |view.chain|
    requires Knows(v, view.chain, low, |view.chain| - 1) && Sane(view.chain, mempool, v.coin)
    requires v.lastSeen > 0
    ensures var r := Refresh(v, view, mempool, mempool, |view.chain| - 1, rules, walk);
      && (r.state == GHOST ==> (Known(view.chain, mempool, v.coin) <==> SpentIn(mempool, v.coin)))
      && (r.state == GHOST && v.state != GHOST ==> !Known(view.chain, mempool, v.coin))
      && (v.state == GHOST && SpentIn(mempool, v.coin) ==> r.state == GHOST)
  {
    var chain := view.chain;
    if ChainSpent(chain, v.coin) {
      var h :| 0 <= h < |chain| && SpentIn(chain[h].txs, v.coin);
      assert Settled(v);
    }
  }

  /** Only a coin that is there makes a vault seen. */
  lemma RefreshedSeen(v: Vault, view: View, mempool: seq<Tx>, decoded: seq<Tx>, scanned: nat, rules: Rules, walk: Walked)
    requires view.chain != []
    ensures var r := Refresh(v, view, mempool, decoded, scanned, rules, walk);
      && r.coin == v.coin && r.singleLeaf == v.singleLeaf && r.leafNames == v.leafNames
      && (r.lastSeen == v.lastSeen || r.state == LIVE || r.state == UNCONFIRMED)
  {}

  /** Not a ghost, unless never seen, or one whose funding is known only if it is being spent. */
  ghost predicate RightlyGhost(v: Vault, chain: seq<Block>, mempool: seq<Tx>) {
    v.lastSeen > 0 && v.state == GHOST ==> (Known(chain, mempool, v.coin) <==> SpentIn(mempool, v.coin))
  }

  lemma RefreshRightly(v: Vault, view: View, mempool: seq<Tx>, low: nat, rules: Rules, walk: Walked)
    requires HonestWalk(view.chain, v, rules, walk) && low < |view.chain|
    requires Knows(v, view.chain, low, |view.chain| - 1) && Sane(view.chain, mempool, v.coin)
    ensures RightlyGhost(Refresh(v, view, mempool, mempool, |view.chain| - 1, rules, walk), view.chain, mempool)
  {
    RefreshedSeen(v, view, mempool, mempool, |view.chain| - 1, rules, walk);
    if v.lastSeen > 0 {
      GhostSound(v, view, mempool, low, rules, walk);
    }
  }

  /** A ghost is called wrongly when a reorg moves the funding to another block while the
      mempool holds what spends the coin. */
  lemma MovedFundingGhosts(v: Vault, view: View, mempool: seq<Tx>, decoded: seq<Tx>, scanned: nat, rules: Rules, walk: Walked, a: nat)
    requires view.chain != [] && v.fundingHeight > a && view.Replaced(v.fundingHeight, v.fundingBlock)
    requires Known(view.chain, mempool, v.coin) && SpentIn(mempool, v.coin)
    ensures Refresh(RestoreVault(v, a, view.Judge()), view, mempool, decoded, scanned, rules, walk).state == GHOST
  {}

  /** A vault closed in a block that stays is made a ghost by taking branches back exactly
      when the record of its funding names a block above the fork that is not there. */
  lemma SettledGhosts(v: Vault, a: nat, view: View)
    requires Settled(v) && v.spentHeight <= a
    ensures RestoreVault(v, a, view.Judge()).state == GHOST <==>
      && v.fundingHeight > a
      && (v.fundingBlock != 0 ==>
            v.fundingHeight < |view.chain| && view.saysHash(v.fundingHeight) && view.chain[v.fundingHeight].hash != v.fundingBlock)
  {
    ReplacedExactly(view, v.fundingHeight, v.fundingBlock);
  }
}
