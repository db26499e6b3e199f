/** What a watcher knows of a vault, and that reading blocks and taking them back keep it
    true of the chain. */
module Ends {
  import opened Wrappers
  import opened Scan
  import opened Node

  /** A vault closed in a block is closed by what spends its coin there, through the exit
      that spend reveals. */
  ghost predicate EndStands(v: Vault, chain: seq<Block>) {
    exists tx, k: nat :: SpentBy(chain, v.spentHeight, tx, k, v.coin) && v.spentBy == tx.txid && v.state == NameExit(v, tx.vin[k].stack)
  }

  /** The block on record for a vault's funding is in the chain and funds it. */
  ghost predicate FundingStands(v: Vault, chain: seq<Block>) {
    if v.fundingHeight == 0 then v.fundingBlock == 0
    else v.fundingHeight < |chain| && v.fundingBlock == chain[v.fundingHeight].hash && MadeIn(chain[v.fundingHeight].txs, v.coin)
  }

  /** What the watcher knows of a vault is true of the chain it has read from above `low` to
      `top`: a spend read there is known, whatever is known is so, and a coin seen unspent
      was not spent before the watcher started. */
  ghost predicate Knows(v: Vault, chain: seq<Block>, low: nat, top: nat) {
    && top < |chain|
    && (forall h :: low < h <= top && SpentIn(chain[h].txs, v.coin) ==> Settled(v))
    && (if Settled(v) then EndStands(v, chain) else v.spentHeight == 0)
    && (v.lastSeen > 0 ==> forall h :: 0 <= h <= low && h < |chain| ==> !SpentIn(chain[h].txs, v.coin))
    && FundingStands(v, chain)
  }

  /** The outpoint index names each vault by its own coin, and nothing else. */
  ghost predicate Tracks(m: Maps) {
    && (forall id :: id in m.vaults ==> m.vaults[id].coin in m.byOutpoint && m.byOutpoint[m.vaults[id].coin] == id)
    && (forall op :: op in m.byOutpoint ==> m.byOutpoint[op] in m.vaults && m.vaults[m.byOutpoint[op]].coin == op)
  }

  ghost predicate AllKnow(m: Maps, chain: seq<Block>, low: nat, top: nat) {
    Tracks(m) && forall id :: id in m.vaults ==> Knows(m.vaults[id], chain, low, top)
  }

  /** A vault as it is when it is first tracked. */
  lemma FreshKnows(v: Vault, chain: seq<Block>, low: nat)
    requires low < |chain| && !Settled(v) && v.spentHeight == 0 && v.lastSeen == 0
    requires v.fundingHeight == 0 && v.fundingBlock == 0
    ensures Knows(v, chain, low, low)
  {}

  // ---------------------------------------------------------------- reading

  ghost predicate Touched(es: seq<Spend>, coin: Outpoint) {
    exists i :: 0 <= i < |es| && Spends(es[i].tx, es[i].k, coin)
  }

  lemma TouchedConcat(a: seq<Spend>, b: seq<Spend>, coin: Outpoint)
    ensures Touched(a + b, coin) <==> Touched(a, coin) || Touched(b, coin)
  {
    if i :| 0 <= i < |a + b| && Spends((a + b)[i].tx, (a + b)[i].k, coin) {
      assert if i < |a| then a[i] == (a + b)[i] else b[i - |a|] == (a + b)[i];
    }
    if i :| 0 <= i < |a| && Spends(a[i].tx, a[i].k, coin) {
      assert (a + b)[i] == a[i];
    }
    if i :| 0 <= i < |b| && Spends(b[i].tx, b[i].k, coin) {
      assert (a + b)[|a| + i] == b[i];
    }
  }

  lemma {:induction false} BlockTouched(txs: seq<Tx>, h: nat, coin: Outpoint)
    ensures Touched(BlockSpends(txs, h), coin) <==> SpentIn(txs, coin)
  {
    if txs != [] {
      var before, tx := txs[..|txs| - 1], txs[|txs| - 1];
      BlockTouched(before, h, coin);
      TouchedConcat(BlockSpends(before, h), TxSpends(tx, h), coin);
      assert Touched(TxSpends(tx, h), coin) <==> exists k: nat :: Spends(tx, k, coin) by {
        if k: nat :| Spends(tx, k, coin) {
          assert TxSpends(tx, h)[k] == Spend(tx, k, h);
        }
      }
      if i, k: nat :| 0 <= i < |txs| && Spends(txs[i], k, coin) {
        assert i < |before| ==> before[i] == txs[i];
      }
      if i, k: nat :| 0 <= i < |before| && Spends(before[i], k, coin) {
        assert txs[i] == before[i];
      }
    }
  }

  /** Every spend of a block is a transaction's of it. */
  lemma {:induction false} BlockOwns(txs: seq<Tx>, h: nat, i: nat)
    requires i < |BlockSpends(txs, h)|
    ensures BlockSpends(txs, h)[i].tx in txs
  {
    var before, tx := txs[..|txs| - 1], txs[|txs| - 1];
    if i < |BlockSpends(before, h)| {
      BlockOwns(before, h, i);
    }
  }

  /** A vault after reading some spends of one height: closed by one of its coin if there is
      one and it was not closed in a block already. */
  ghost predicate VaultRead(v: Vault, v': Vault, es: seq<Spend>, h: nat) {
    if Settled(v) || !Touched(es, v.coin) then v' == v
    else exists i :: 0 <= i < |es| && Closes(v, v', es[i], h)
  }

  predicate Closes(v: Vault, v': Vault, e: Spend, h: nat) {
    && Spends(e.tx, e.k, v.coin)
    && v' == v.(spentBy := e.tx.txid, spentHeight := h, state := NameExit(v, e.tx.vin[e.k].stack))
  }

  lemma StepTracks(m: Maps, e: Spend)
    requires Tracks(m) && e.k < |e.tx.vin|
    ensures Tracks(Step(m, e)) && Step(m, e).byOutpoint == m.byOutpoint && Step(m, e).vaults.Keys == m.vaults.Keys
  {
    assert Step(m, e).vaults == Close(m, e).vaults && Step(m, e).byOutpoint == m.byOutpoint;
  }

  lemma {:induction false} ReadTracks(m: Maps, es: seq<Spend>)
    requires Tracks(m) && Real(es)
    ensures Tracks(Read(m, es)) && Read(m, es).byOutpoint == m.byOutpoint && Read(m, es).vaults.Keys == m.vaults.Keys
  {
    if es != [] {
      ReadTracks(m, es[..|es| - 1]);
      StepTracks(Read(m, es[..|es| - 1]), es[|es| - 1]);
    }
  }

  lemma StepVault(m: Maps, e: Spend, id: Id)
    requires Tracks(m) && id in m.vaults && e.height > 0 && e.k < |e.tx.vin|
    ensures id in Step(m, e).vaults
    ensures var v, v' := m.vaults[id], Step(m, e).vaults[id];
      if Settled(v) || !Spends(e.tx, e.k, v.coin) then v' == v else Closes(v, v', e, e.height)
  {
    assert Step(m, e).vaults == Close(m, e).vaults;
  }

  lemma {:induction false} ReadVault(m: Maps, es: seq<Spend>, h: nat, id: Id)
    requires Tracks(m) && id in m.vaults && h > 0 && Real(es) && forall i :: 0 <= i < |es| ==> es[i].height == h
    ensures id in Read(m, es).vaults
    ensures VaultRead(m.vaults[id], Read(m, es).vaults[id], es, h)
  {
    if es != [] {
      var before, e := es[..|es| - 1], es[|es| - 1];
      ReadVault(m, before, h, id);
      ReadTracks(m, before);
      StepVault(Read(m, before), e, id);
      VaultReadMore(m.vaults[id], Read(m, before).vaults[id], Read(m, es).vaults[id], before, e, h);
      assert es == before + [e];
    }
  }

  lemma VaultReadMore(v: Vault, v1: Vault, v2: Vault, es: seq<Spend>, e: Spend, h: nat)
    requires h > 0 && VaultRead(v, v1, es, h)
    requires if Settled(v1) || !Spends(e.tx, e.k, v1.coin) then v2 == v1 else Closes(v1, v2, e, h)
    ensures VaultRead(v, v2, es + [e], h)
  {
    TouchedConcat(es, [e], v.coin);
    assert Touched([e], v.coin) <==> Spends([e][0].tx, [e][0].k, v.coin);
    assert (es + [e])[|es|] == e;
    if !Settled(v) && Touched(es, v.coin) {
      var i :| 0 <= i < |es| && Closes(v, v1, es[i], h);
      assert (es + [e])[i] == es[i];
    }
  }

  lemma ClosesKnows(v: Vault, v': Vault, chain: seq<Block>, low: nat, top: nat, e: Spend)
    requires Knows(v, chain, low, top) && !Settled(v) && top + 1 < |chain|
    requires Closes(v, v', e, top + 1) && e.tx in chain[top + 1].txs
    ensures Knows(v', chain, low, top + 1)
  {
    assert SpentBy(chain, v'.spentHeight, e.tx, e.k, v'.coin);
    assert NameExit(v', e.tx.vin[e.k].stack) == NameExit(v, e.tx.vin[e.k].stack);
    assert Settled(v') && EndStands(v', chain);
  }

  lemma KeptKnows(v: Vault, chain: seq<Block>, low: nat, top: nat)
    requires Knows(v, chain, low, top) && top + 1 < |chain|
    requires SpentIn(chain[top + 1].txs, v.coin) ==> Settled(v)
    ensures Knows(v, chain, low, top + 1)
  {}

  lemma VaultReadKnows(v: Vault, v': Vault, chain: seq<Block>, low: nat, top: nat)
    requires Knows(v, chain, low, top) && low <= top && top + 1 < |chain|
    requires VaultRead(v, v', BlockSpends(chain[top + 1].txs, top + 1), top + 1)
    ensures Knows(v', chain, low, top + 1)
  {
    var es := BlockSpends(chain[top + 1].txs, top + 1);
    BlockTouched(chain[top + 1].txs, top + 1, v.coin);
    if Settled(v) || !Touched(es, v.coin) {
      KeptKnows(v, chain, low, top);
    } else {
      var i :| 0 <= i < |es| && Closes(v, v', es[i], top + 1);
      BlockOwns(chain[top + 1].txs, top + 1, i);
      ClosesKnows(v, v', chain, low, top, es[i]);
    }
  }

  lemma ReadsKnow(m: Maps, chain: seq<Block>, low: nat, top: nat)
    requires AllKnow(m, chain, low, top) && low <= top && top + 1 < |chain|
    ensures AllKnow(Read(m, BlockSpends(chain[top + 1].txs, top + 1)), chain, low, top + 1)
    ensures Read(m, BlockSpends(chain[top + 1].txs, top + 1)).byOutpoint == m.byOutpoint
  {
    var es := BlockSpends(chain[top + 1].txs, top + 1);
    ReadTracks(m, es);
    forall id | id in m.vaults ensures Knows(Read(m, es).vaults[id], chain, low, top + 1) {
      ReadVault(m, es, top + 1, id);
      VaultReadKnows(m.vaults[id], Read(m, es).vaults[id], chain, low, top);
    }
  }

  // ----------------------------------------------------------- taking back

  lemma EndKept(v: Vault, was: seq<Block>, chain: seq<Block>, a: nat)
    requires a < |was| && a < |chain| && chain[..a + 1] == was[..a + 1]
    requires EndStands(v, was) && v.spentHeight <= a
    ensures EndStands(v, chain) && SpentIn(was[v.spentHeight].txs, v.coin)
  {
    var tx, k: nat :| SpentBy(was, v.spentHeight, tx, k, v.coin) && v.spentBy == tx.txid && v.state == NameExit(v, tx.vin[k].stack);
    assert chain[v.spentHeight] == chain[..a + 1][v.spentHeight] == was[v.spentHeight];
    assert SpentBy(chain, v.spentHeight, tx, k, v.coin);
    SpentByIn(was, v.spentHeight, tx, k, v.coin);
  }

  /** A coin has one end. */
  lemma OneSpend(v: Vault, chain: seq<Block>, h: nat)
    requires EndStands(v, chain) && Sane(chain, [], v.coin) && h < |chain| && SpentIn(chain[h].txs, v.coin)
    ensures h == v.spentHeight
  {
    var tx, k: nat :| SpentBy(chain, v.spentHeight, tx, k, v.coin);
    var i, j: nat :| 0 <= i < |chain[h].txs| && Spends(chain[h].txs[i], j, v.coin);
    assert SpentBy(chain, h, chain[h].txs[i], j, v.coin);
  }

  /** After taking back what is above a shared block the record of a funding stands exactly
      when it was not above it, or its height is still in the chain and its hash is given or
      what it was. */
  lemma FundingStandsExactly(v: Vault, was: seq<Block>, view: View, a: nat)
    requires FundingStands(v, was) && Commit(was, view.chain) && Sane(was, [], v.coin)
    requires a < |was| && a < |view.chain| && view.chain[..a + 1] == was[..a + 1]
    ensures FundingStands(RestoreVault(v, a, view.Judge()), view.chain) <==>
      || v.fundingHeight <= a
      || (v.fundingHeight < |view.chain| && (view.saysHash(v.fundingHeight) || view.chain[v.fundingHeight].hash == v.fundingBlock))
  {
    var h := v.fundingHeight;
    if h <= a {
      assert view.chain[h] == view.chain[..a + 1][h] == was[h];
    } else if h < |view.chain| && view.chain[h].hash == v.fundingBlock {
      assert was[h] == was[..h + 1][h] == view.chain[h];
    }
  }

  lemma RestoreKnows(v: Vault, was: seq<Block>, view: View, low: nat, top: nat, a: nat)
    requires Knows(v, was, low, top) && low <= a <= top && Commit(was, view.chain) && Sane(was, [], v.coin)
    requires a < |view.chain| && view.chain[..a + 1] == was[..a + 1]
    requires FundingStands(RestoreVault(v, a, view.Judge()), view.chain)
    ensures Knows(RestoreVault(v, a, view.Judge()), view.chain, low, a)
  {
    assert forall h :: 0 <= h <= a ==> view.chain[h] == view.chain[..a + 1][h] == was[h];
    if Settled(v) {
      forall h: nat | low < h <= a && SpentIn(was[h].txs, v.coin) ensures v.spentHeight <= a {
        OneSpend(v, was, h);
      }
      if v.spentHeight <= a {
        EndKept(v, was, view.chain, a);
        FundedBelow(was, [], v.coin, v.spentHeight, v.fundingHeight);
      }
    }
  }

  /** The blocks a vault's records name above `top` are still where they were. */
  ghost predicate AheadSame(v: Vault, was: seq<Block>, chain: seq<Block>, top: nat) {
    && (v.fundingHeight > top ==>
          v.fundingHeight < |was| && v.fundingHeight < |chain| && chain[v.fundingHeight].hash == was[v.fundingHeight].hash)
    && (Settled(v) && v.spentHeight > top ==>
          v.spentHeight < |was| && v.spentHeight < |chain| && chain[v.spentHeight].hash == was[v.spentHeight].hash)
  }

  /** What is known of a chain is known of one that is the same up to everything known. */
  lemma SameKnows(v: Vault, was: seq<Block>, chain: seq<Block>, low: nat, top: nat)
    requires Knows(v, was, low, top) && low <= top < |chain| && chain[..top + 1] == was[..top + 1]
    requires Commit(was, chain) && AheadSame(v, was, chain, top)
    ensures Knows(v, chain, low, top)
  {
    assert forall h :: 0 <= h <= top ==> chain[h] == chain[..top + 1][h] == was[h];
    if Settled(v) {
      EndKept(v, was, chain, if v.spentHeight <= top then top else v.spentHeight);
    }
    var f := v.fundingHeight;
    if top < f {
      assert chain[f] == chain[..f + 1][f] == was[f];
    }
  }

  // ------------------------------------------------------------ what agrees

  /** The end of a vault read from a block above `low` up to `top`, if it has one. */
  function ReadEnd(v: Vault, low: nat, top: nat): Option<(Id, nat, VaultState)> {
    if Settled(v) && low < v.spentHeight <= top then Some((v.spentBy, v.spentHeight, v.state)) else None
  }

  /** Whoever knows the truth of one chain agrees on every end read from it. */
  lemma EndsAgree(v: Vault, w: Vault, chain: seq<Block>, low: nat, top: nat)
    requires Knows(v, chain, low, top) && Knows(w, chain, low, top) && Sane(chain, [], v.coin)
    requires v.coin == w.coin && v.singleLeaf == w.singleLeaf && v.leafNames == w.leafNames
    ensures ReadEnd(v, low, top) == ReadEnd(w, low, top)
  {
    if ReadEnd(v, low, top).Some? {
      OneEnd(v, w, chain, low, top);
    }
    if ReadEnd(w, low, top).Some? {
      OneEnd(w, v, chain, low, top);
    }
  }

  lemma OneEnd(v: Vault, w: Vault, chain: seq<Block>, low: nat, top: nat)
    requires Knows(v, chain, low, top) && Knows(w, chain, low, top) && Sane(chain, [], v.coin)
    requires v.coin == w.coin && v.singleLeaf == w.singleLeaf && v.leafNames == w.leafNames
    requires ReadEnd(v, low, top).Some?
    ensures ReadEnd(v, low, top) == ReadEnd(w, low, top)
  {
    var tx, k: nat :| SpentBy(chain, v.spentHeight, tx, k, v.coin) && v.spentBy == tx.txid && v.state == NameExit(v, tx.vin[k].stack);
    SpentByIn(chain, v.spentHeight, tx, k, v.coin);
    assert Settled(w);
    var tx', k': nat :| SpentBy(chain, w.spentHeight, tx', k', w.coin) && w.spentBy == tx'.txid && w.state == NameExit(w, tx'.vin[k'].stack);
    assert NameExit(v, tx.vin[k].stack) == NameExit(w, tx.vin[k].stack);
  }
}
