/** The watcher itself: it scans forward, notices when a block it read is no longer the
    block at that height, puts back what it read above the fork and reads again. */
module Watcher {
  import opened Wrappers
  import opened Scan
  import opened Node
  import opened Confluence
  import opened Polling
  import opened Backward
  import opened Ghosts
  import Runs

  /** One step of an offer's descent does to the index what the rest of it then extends. */
  lemma PopReindex(index: map<Outpoint, Id>, id: Id, o: Offer, ancestor: nat)
    requires MovedAbove(o, ancestor)
    ensures var last := o.history[|o.history| - 1];
      var o1 := o.(history := o.history[..|o.history| - 1], coin := last.from, value := last.value, status := last.status);
      var popped := (index - {o.coin})[o1.coin := id];
      && Restore(o1, ancestor) == Restore(o, ancestor)
      && Reindex(popped, id, o1, ancestor) == Reindex(index, id, o, ancestor)
  {
    var last := o.history[|o.history| - 1];
    var o1 := o.(history := o.history[..|o.history| - 1], coin := last.from, value := last.value, status := last.status);
    TrailCore(o1, o.(history := o.history[..|o.history| - 1], coin := last.from), ancestor);
    RestoredOnTrail(o1, ancestor);
    var popped := (index - {o.coin})[o1.coin := id];
    assert Trail(o, ancestor) == {o.coin} + Trail(o1, ancestor);
    assert o1.coin in Trail(o1, ancestor);
    if MovedAbove(o1, ancestor) {
      assert popped - Trail(o1, ancestor) == index - Trail(o, ancestor);
    } else {
      assert popped == (index - {o.coin} - {o1.coin})[o1.coin := id];
      assert index - {o.coin} - {o1.coin} == index - ({o.coin} + {o1.coin});
    }
  }

  /** The offers in `done` are taken back, the others as they were. */
  ghost predicate Partly(was: map<Id, Offer>, now: map<Id, Offer>, done: seq<Id>, ancestor: nat) {
    now.Keys == was.Keys &&
    forall id :: id in was ==> now[id] == if id in done then Restore(was[id], ancestor) else was[id]
  }

  lemma PartlyMore(was: map<Id, Offer>, now: map<Id, Offer>, done: seq<Id>, id: Id, ancestor: nat)
    requires Partly(was, now, done, ancestor) && id in was && id !in done
    ensures Partly(was, now[id := Restore(now[id], ancestor)], done + [id], ancestor)
  {}

  lemma NextListed(order: seq<Id>, i: nat)
    requires i < |order| && forall j, k :: 0 <= j < k < |order| ==> order[j] != order[k]
    ensures order[..i + 1] == order[..i] + [order[i]] && order[..i + 1][..i] == order[..i] && order[i] !in order[..i]
  {}

  class VaultWatcher {
    var vaults: map<Id, Vault>
    var byOutpoint: map<Outpoint, Id>
    var offers: map<Id, Offer>
    var byOffer: map<Outpoint, Id>
    const order: seq<Id>
    var scannedHeight: Option<nat>
    var seenHashes: map<nat, int>
    const rescanDepth: nat

    constructor (vaults: map<Id, Vault>, byOutpoint: map<Outpoint, Id>, offers: map<Id, Offer>,
                 byOffer: map<Outpoint, Id>, order: seq<Id>, rescanDepth: nat)
      ensures Model() == Maps(vaults, byOutpoint, offers, byOffer)
      ensures this.order == order && this.rescanDepth == rescanDepth && scannedHeight == None && seenHashes == map[]
    {
      this.vaults, this.byOutpoint, this.offers, this.byOffer := vaults, byOutpoint, offers, byOffer;
      this.order, this.rescanDepth, this.scannedHeight, this.seenHashes := order, rescanDepth, None, map[];
    }

    ghost function Model(): Maps
      reads this
    {
      Maps(vaults, byOutpoint, offers, byOffer)
    }

    ghost function Held(): Watch
      reads this
    {
      Watch(Model(), scannedHeight, seenHashes)
    }

    /** Both indexes name records there are, and the order lists every offer once. */
    ghost predicate Valid()
      reads this
    {
      && (forall op :: op in byOutpoint ==> byOutpoint[op] in vaults)
      && (forall op :: op in byOffer ==> byOffer[op] in offers)
      && Listed(Model(), order)
    }

    /** One spend of an offer's coin: it ends the offer or moves it to what the take left. */
    method OfferSpent(id: Id, tx: Tx, k: nat, height: nat)
      requires Valid() && id in offers && k < |tx.vin|
      modifies this`offers, this`byOffer
      ensures Valid()
      ensures Model() == if old(offers[id]).status != Open then old(Model()) else Put(old(Model()), id, Moved(old(offers[id]), tx, k, height))
    {
      var o := offers[id];
      if o.status != Open {
        return;
      }
      o := o.(history := o.history + [Move(o.coin, o.value, o.status, height, tx.txid)]);
      byOffer := byOffer - {o.coin};
      var stack := tx.vin[k].stack;
      if |stack| == 4 && stack[|stack| - 2] == o.takeLeaf {
        if 2 * k + 1 < |tx.vout| && tx.vout[2 * k + 1].spk == o.spk && tx.vout[2 * k + 1].asset == o.debtAsset {
          o := o.(coin := Outpoint(tx.txid, 2 * k + 1), value := tx.vout[2 * k + 1].value);
          byOffer := byOffer[o.coin := id];
        } else {
          o := o.(status := Taken, value := 0);
        }
      } else if |stack| >= 2 && stack[|stack| - 2] == o.refundLeaf {
        o := o.(status := Withdrawn);
      } else {
        o := o.(status := Gone);
      }
      offers := offers[id := o];
    }

    /** A vault's coin was spent in a block: name the exit, unless it is settled. */
    method VaultSpent(tx: Tx, k: nat, height: nat)
      requires Valid() && k < |tx.vin|
      modifies this`vaults
      ensures Valid() && Model() == Close(old(Model()), Spend(tx, k, height))
    {
      var key := tx.vin[k].prev;
      if key in byOutpoint {
        var id := byOutpoint[key];
        var v := vaults[id];
        if !Settled(v) {
          vaults := vaults[id := v.(spentBy := tx.txid, spentHeight := height, state := NameExit(v, tx.vin[k].stack))];
        }
      }
    }

    /** One transaction, input by input, against the vaults and then the offers. */
    method InspectTx(tx: Tx, height: nat)
      requires Valid()
      modifies this`vaults, this`offers, this`byOffer
      ensures Valid()
      ensures Model() == Read(old(Model()), TxSpends(tx, height))
    {
      ghost var es := TxSpends(tx, height);
      for k := 0 to |tx.vin|
        invariant Valid()
        invariant Model() == Read(old(Model()), es[..k])
      {
        assert es[..k + 1][..k] == es[..k] && es[..k + 1][k] == Spend(tx, k, height);
        VaultSpent(tx, k, height);
        if tx.vin[k].prev in byOffer {
          OfferSpent(byOffer[tx.vin[k].prev], tx, k, height);
        }
      }
      assert es[..|tx.vin|] == es;
    }

    method InspectBlock(txs: seq<Tx>, height: nat)
      requires Valid()
      modifies this`vaults, this`offers, this`byOffer
      ensures Valid() && Model() == Read(old(Model()), BlockSpends(txs, height))
    {
      for i := 0 to |txs|
        invariant Valid() && Model() == Read(old(Model()), BlockSpends(txs[..i], height))
      {
        assert txs[..i + 1][..i] == txs[..i];
        ReadConcat(old(Model()), BlockSpends(txs[..i], height), TxSpends(txs[i], height));
        InspectTx(txs[i], height);
      }
      assert txs[..|txs|] == txs;
    }

    /** Take back one offer's moves above the ancestor, newest first. */
    method UndoOffer(id: Id, ancestor: nat)
      requires Valid() && id in offers
      modifies this`offers, this`byOffer
      ensures Valid()
      ensures offers == old(offers)[id := Restore(old(offers[id]), ancestor)]
      ensures byOffer == Reindex(old(byOffer), id, old(offers[id]), ancestor)
    {
      var o := offers[id];
      while o.history != [] && o.history[|o.history| - 1].height > ancestor
        invariant Restore(o, ancestor) == Restore(old(offers[id]), ancestor)
        invariant Reindex(byOffer, id, o, ancestor) == Reindex(old(byOffer), id, old(offers[id]), ancestor)
        invariant forall op :: op in byOffer ==> byOffer[op] in offers
        invariant offers == old(offers)
        decreases |o.history|
      {
        PopReindex(byOffer, id, o, ancestor);
        var last := o.history[|o.history| - 1];
        byOffer := byOffer - {o.coin};
        o := o.(history := o.history[..|o.history| - 1], coin := last.from, value := last.value, status := last.status);
        byOffer := byOffer[o.coin := id];
      }
      offers := offers[id := o];
    }

    method UndoVaults(ancestor: nat, view: View)
      requires Valid()
      modifies this`vaults
      ensures Valid()
      ensures vaults == map id | id in old(vaults) :: RestoreVault(old(vaults)[id], ancestor, view.Judge())
    {
      var todo := vaults.Keys;
      while todo != {}
        invariant todo <= vaults.Keys && vaults.Keys == old(vaults).Keys
        invariant forall id :: id in vaults ==>
          vaults[id] == if id in todo then old(vaults)[id] else RestoreVault(old(vaults)[id], ancestor, view.Judge())
      {
        var id :| id in todo;
        var v := vaults[id];
        if v.spentHeight > ancestor {
          v := v.(spentBy := NONE, spentHeight := 0, state := UNCONFIRMED, walkedTo := 0);
        }
        if v.fundingHeight > ancestor && view.Replaced(v.fundingHeight, v.fundingBlock) {
          v := v.(fundingHeight := 0, fundingBlock := 0, state := GHOST, confirmations := 0, walkedTo := 0);
        }
        vaults := vaults[id := v];
        todo := todo - {id};
      }
    }

    method UndoOffers(ancestor: nat)
      requires Valid()
      modifies this`offers, this`byOffer
      ensures Valid()
      ensures offers == map id | id in old(offers) :: Restore(old(offers)[id], ancestor)
      ensures byOffer == ReindexAll(old(byOffer), old(offers), order, ancestor)
    {
      ghost var was := offers;
      for i := 0 to |order|
        invariant Valid() && offers.Keys == was.Keys
        invariant Partly(was, offers, order[..i], ancestor)
        invariant byOffer == ReindexAll(old(byOffer), was, order[..i], ancestor)
      {
        var id := order[i];
        NextListed(order, i);
        assert offers[id] == was[id];
        ghost var before := offers;
        UndoOffer(id, ancestor);
        PartlyMore(was, before, order[..i], id, ancestor);
      }
      assert order[..|order|] == order;
    }

    /** Put back everything read above the ancestor. */
    method UndoAbove(ancestor: nat, view: View)
      requires Valid()
      modifies this`vaults, this`offers, this`byOffer
      ensures Valid()
      ensures Model() == Undo(old(Model()), order, ancestor, view.Judge())
    {
      UndoVaults(ancestor, view);
      UndoOffers(ancestor);
    }

    method LowestSeen() returns (known: nat)
      requires seenHashes != map[]
      ensures known == Least(seenHashes.Keys)
    {
      var todo := seenHashes.Keys;
      known :| known in todo;
      while todo != {}
        invariant known in seenHashes && todo <= seenHashes.Keys
        invariant forall h :: h in seenHashes && h !in todo ==> known <= h
      {
        var h :| h in todo;
        if h < known {
          known := h;
        }
        todo := todo - {h};
      }
    }

    /** How deep a rewind from `start` may go. */
    method RewindFloor(start: nat) returns (floor: nat)
      requires seenHashes != map[]
      ensures floor == Floor(seenHashes, start, rescanDepth)
    {
      var known := LowestSeen();
      floor := if start > rescanDepth then start - rescanDepth else 0;
      if known > 0 && known - 1 > floor {
        floor := known - 1;
      }
    }

    method FindAncestor(view: View, start: nat, floor: nat) returns (found: Option<nat>)
      ensures found == Descend(seenHashes, view, start, floor)
    {
      var ancestor: nat := start;
      while ancestor > floor
        invariant Descend(seenHashes, view, ancestor, floor) == Descend(seenHashes, view, start, floor)
      {
        if ancestor in seenHashes {
          var got := view.HashAt(ancestor);
          if got.None? {
            return None;
          }
          if got.value == seenHashes[ancestor] {
            break;
          }
        }
        ancestor := ancestor - 1;
      }
      return Some(ancestor);
    }

    /** Go down to a block both chains have and undo what came above it, if there is cause. */
    method RewindIfReorged(view: View)
      requires Valid() && scannedHeight.Some? && view.chain != []
      modifies this
      ensures Valid()
      ensures Held() == Rewound(old(Held()), view, order, rescanDepth)
    {
      var tip := |view.chain| - 1;
      var top := scannedHeight.value;
      if top !in seenHashes {
        return;
      }
      if tip >= top {
        var got := view.HashAt(top);
        if got.None? || got.value == seenHashes[top] {
          return;
        }
      }
      var start := if top <= tip then top else tip;
      var floor := RewindFloor(start);
      var ancestor := FindAncestor(view, start, floor);
      if ancestor.Some? {
        RewindTo(ancestor.value, view);
      }
    }

    method RewindTo(ancestor: nat, view: View)
      requires Valid()
      modifies this
      ensures Valid() && Held() == UndoTo(old(Held()), view, order, ancestor)
    {
      UndoAbove(ancestor, view);
      scannedHeight := Some(ancestor);
      seenHashes := map h | h in seenHashes && h <= ancestor :: seenHashes[h];
    }

    method MarkScanned(h: nat, view: View)
      requires Valid()
      modifies this`scannedHeight, this`seenHashes
      ensures Valid() && Held() == Marked(old(Held()), view, h)
    {
      scannedHeight := Some(h);
      var hash := view.HashAt(h);
      if hash.Some? {
        seenHashes := seenHashes[h := hash.value];
      }
    }

    /** Read on to the tip, or to the first block the node does not hand over. */
    method ScanForward(view: View)
      requires Valid() && scannedHeight.Some?
      modifies this
      ensures Valid() && Held() == Forward(old(Held()), view)
    {
      ghost var was := Held();
      var h := scannedHeight.value + 1;
      while h < |view.chain|
        invariant Valid() && scannedHeight == Some(h - 1)
        invariant Forward(Held(), view) == Forward(was, view)
        decreases |view.chain| - h
      {
        var block := view.BlockAt(h);
        if block.None? {
          return;
        }
        ghost var before := Held();
        InspectBlock(block.value.txs, h);
        scannedHeight := Some(h);
        seenHashes := seenHashes[h := block.value.hash];
        assert Held() == Reads(before, block.value, h);
        h := h + 1;
      }
    }

    /** The forward half of one poll, over whatever chain the node now has. */
    method ScanNewBlocks(view: View)
      requires Valid() && view.chain != []
      modifies this
      ensures Valid()
      ensures Held() == Poll(old(Held()), view, order, rescanDepth)
    {
      var tip := |view.chain| - 1;
      if scannedHeight.None? {
        MarkScanned(tip, view);
        return;
      }
      RewindIfReorged(view);
      if byOutpoint == map[] && byOffer == map[] {
        MarkScanned(tip, view);
      } else {
        ScanForward(view);
      }
    }

    // -------------------------------------------------- the rest of a poll

    /** Remember which block buried a funding, once. */
    method NoteFunding(v: Vault, view: View) returns (noted: Vault)
      ensures noted == RecordFunding(v, view)
    {
      noted := v;
      if v.fundingBlock == 0 && v.confirmations >= 1 && |view.chain| - v.confirmations >= 1 {
        var h := |view.chain| - v.confirmations;
        var hash := view.HashAt(h);
        if hash.Some? {
          noted := v.(fundingHeight := h, fundingBlock := hash.value);
        }
      }
    }

    /** The coin is there: how deep it is, and whatever closed the vault did not. */
    method Seen(v: Vault, confirmations: nat, view: View, rules: Rules) returns (seen: Vault)
      requires view.chain != []
      ensures seen == SeenUnspent(v, confirmations, view, rules)
    {
      seen := v.(confirmations := confirmations, lastSeen := |view.chain| - 1, walkedTo := 0);
      seen := NoteFunding(seen, view);
      if Closed(v.state) && v.state != GHOST {
        seen := seen.(spentBy := NONE, spentHeight := 0);
      }
      seen := seen.(state := if confirmations >= rules.minDepth then LIVE else UNCONFIRMED);
    }

    /** No coin and no spender: a funding undone, an exit out of reach, or not yet known. */
    method Settle(v: Vault, view: View, rules: Rules) returns (settled: Vault)
      requires view.chain != [] && scannedHeight.Some?
      ensures settled == Decide(v, view, scannedHeight.value, rules)
    {
      var tip := |view.chain| - 1;
      var reorged := FundingReorged(v, view);
      var neverBuried := reorged.None? && v.confirmations < rules.minDepth;
      if neverBuried && scannedHeight.value < tip {
        return v;
      }
      if !(reorged == Some(true) || (neverBuried && v.lastSeen > 0)) && !Exhausted(tip, rules.rescanDepth, v.walkedTo) {
        return v;
      }
      settled := if reorged == Some(true) || neverBuried then v.(state := GHOST, confirmations := 0) else v.(state := SPENT_UNKNOWN);
    }

    /** Bring one vault up to date, from what the node says of its coin, what the mempool
        transactions it handed over spend, and where the backward search got to. */
    method RefreshVault(id: Id, view: View, ghost mempool: seq<Tx>, ghost decoded: seq<Tx>, out: Option<nat>, hit: Option<Hit>,
                        rules: Rules, walk: Walked)
      requires Valid() && id in vaults && view.chain != [] && scannedHeight.Some?
      requires out == Txout(view.chain, mempool, vaults[id].coin) && hit == MempoolSpender(decoded, vaults[id].coin)
      modifies this`vaults
      ensures Valid()
      ensures vaults == old(vaults)[id := Refresh(old(vaults[id]), view, mempool, decoded, scannedHeight.value, rules, walk)]
    {
      var v, tip := vaults[id], |view.chain| - 1;
      if Final(v, tip, rules) {
        assert vaults[id := v] == vaults;
        return;
      }
      if out.Some? {
        v := Seen(v, out.value, view, rules);
      } else if v.state == GHOST {
        assert vaults[id := v] == vaults;
        return;
      } else if Closed(v.state) {
        if hit.Some? && hit.value.tx.txid != v.spentBy {
          v := CloseBy(v, hit.value);
        }
      } else {
        v := LookFor(v, view, decoded, hit, rules, walk);
      }
      vaults := vaults[id := v];
    }

    /** The coin is not there and the vault is open: name what spent it, or settle without. */
    method LookFor(v: Vault, view: View, ghost decoded: seq<Tx>, hit: Option<Hit>, rules: Rules, walk: Walked) returns (found: Vault)
      requires view.chain != [] && scannedHeight.Some?
      requires hit == MempoolSpender(decoded, v.coin)
      ensures found == Missing(v, view, decoded, scannedHeight.value, rules, walk)
    {
      var unburied := v.lastSeen > 0 && v.confirmations < rules.minDepth;
      if hit.Some? {
        return CloseBy(v, hit.value);
      }
      found := v;
      if !unburied && !Exhausted(|view.chain| - 1, rules.rescanDepth, v.walkedTo) {
        if walk.found.Some? {
          return CloseBy(v.(walkedTo := walk.to), walk.found.value);
        }
        found := v.(walkedTo := walk.to);
      }
      found := Settle(found, view, rules);
    }

    /** Every vault the node answered for, in any order: no answer depends on another's. */
    method RefreshAll(ghost r: Runs.Round, view: View, asked: set<Id>, outs: map<Id, Option<nat>>, hits: map<Id, Option<Hit>>,
                      rules: Rules, walks: map<Id, Walked>)
      requires Valid() && view.chain != [] && scannedHeight.Some?
      requires r.view == view && r.asked == asked && r.walks == walks && Answered(vaults, r, outs, hits)
      modifies this`vaults
      ensures Valid() && Model() == Runs.Refreshed(old(Model()), r, scannedHeight.value, rules)
    {
      ghost var was := vaults;
      ghost var scanned := scannedHeight.value;
      var todo := vaults.Keys;
      while todo != {}
        invariant Valid() && todo <= vaults.Keys
        invariant Partway(was, vaults, todo, r, scanned, rules)
      {
        var id :| id in todo;
        assert vaults[id] == was[id];
        ghost var before := vaults;
        if id in asked && id in walks {
          RefreshVault(id, view, r.mempool, r.decoded, outs[id], hits[id], rules, walks[id]);
        }
        PartwayMore(was, before, todo, id, r, scanned, rules);
        assert vaults == before[id := Runs.RefreshOne(was[id], id, r, scanned, rules)];
        todo := todo - {id};
      }
    }

    method ForgetMoves(height: nat)
      requires Valid()
      modifies this`offers
      ensures Valid() && offers == Trimmed(old(offers), height)
    {
      ghost var was := offers;
      var todo := offers.Keys;
      while todo != {}
        invariant todo <= offers.Keys && offers.Keys == was.Keys
        invariant forall id :: id in offers ==> offers[id] == if id in todo then was[id] else Trim(was[id], height)
      {
        var id :| id in todo;
        var history := Remembered(offers[id].history, height);
        offers := offers[id := offers[id].(history := history)];
        todo := todo - {id};
      }
      assert offers == Trimmed(was, height);
    }

    /** Forget the hashes and moves of blocks below a height. */
    method ForgetBelow(height: nat)
      requires Valid()
      modifies this`offers, this`seenHashes
      ensures Valid() && Held() == Runs.Forget(old(Held()), height)
    {
      seenHashes := map h | h in seenHashes && h >= height :: seenHashes[h];
      ForgetMoves(height);
    }

    method Remembered(history: seq<Move>, height: nat) returns (kept: seq<Move>)
      ensures kept == Since(history, height)
    {
      kept := [];
      for i := 0 to |history|
        invariant kept == Since(history[..i], height)
      {
        assert history[..i + 1][..i] == history[..i];
        if history[i].height == 0 || history[i].height >= height {
          kept := kept + [history[i]];
        }
      }
      assert history[..|history|] == history;
    }

    /** A whole poll, the first one or any later. */
    method PollOnce(ghost r: Runs.Round, view: View, asked: set<Id>, outs: map<Id, Option<nat>>, hits: map<Id, Option<Hit>>,
                    rules: Rules, walks: map<Id, Walked>)
      requires Valid() && view.chain != [] && rules.rescanDepth == rescanDepth
      requires r.view == view && r.asked == asked && r.walks == walks
      requires Answered(Poll(Held(), view, order, rescanDepth).maps.vaults, r, outs, hits)
      modifies this
      ensures Valid() && Held() == Runs.FullPoll(old(Held()), r, order, rules)
    {
      ghost var was := Held();
      ScanNewBlocks(view);
      PollScanned(was, view, order, rescanDepth);
      AfterScanning(r, view, asked, outs, hits, rules, walks);
    }

    /** What is left of a poll after the scan. */
    method AfterScanning(ghost r: Runs.Round, view: View, asked: set<Id>, outs: map<Id, Option<nat>>, hits: map<Id, Option<Hit>>,
                         rules: Rules, walks: map<Id, Walked>)
      requires Valid() && view.chain != [] && rules.rescanDepth == rescanDepth && scannedHeight.Some?
      requires r.view == view && r.asked == asked && r.walks == walks && Answered(vaults, r, outs, hits)
      modifies this
      ensures Valid() && Held() == Runs.AfterScan(old(Held()), r, rules)
    {
      RefreshAll(r, view, asked, outs, hits, rules, walks);
      var tip := |view.chain| - 1;
      ForgetBelow(if tip > rescanDepth then tip - rescanDepth else 0);
    }
  }

  /** The vaults not still to do are refreshed, the others as they were. */
  ghost predicate Partway(was: map<Id, Vault>, now: map<Id, Vault>, todo: set<Id>, r: Runs.Round, scanned: nat, rules: Rules)
    requires r.view.chain != []
  {
    && now.Keys == was.Keys
    && (forall id :: id in was ==> now[id] == if id in todo then was[id] else Runs.RefreshOne(was[id], id, r, scanned, rules))
  }

  lemma PartwayMore(was: map<Id, Vault>, now: map<Id, Vault>, todo: set<Id>, id: Id, r: Runs.Round, scanned: nat, rules: Rules)
    requires r.view.chain != [] && Partway(was, now, todo, r, scanned, rules) && id in todo && id in was
    ensures Partway(was, now[id := Runs.RefreshOne(was[id], id, r, scanned, rules)], todo - {id}, r, scanned, rules)
  {}

  /** The node's answers about the coins of the vaults it answered for. */
  ghost predicate Answered(vaults: map<Id, Vault>, r: Runs.Round, outs: map<Id, Option<nat>>, hits: map<Id, Option<Hit>>) {
    forall id :: id in vaults && id in r.asked ==>
      && id in outs && outs[id] == Txout(r.view.chain, r.mempool, vaults[id].coin)
      && id in hits && hits[id] == MempoolSpender(r.decoded, vaults[id].coin)
  }

  lemma {:induction false} ForwardScanned(w: Watch, view: View)
    requires w.scanned.Some?
    ensures Forward(w, view).scanned.Some?
    decreases |view.chain| - w.scanned.value
  {
    var h := w.scanned.value + 1;
    if view.BlockAt(h).Some? {
      ForwardScanned(Reads(w, view.chain[h], h), view);
    }
  }

  lemma PollScanned(w: Watch, view: View, order: seq<Id>, depth: nat)
    requires view.chain != []
    ensures Poll(w, view, order, depth).scanned.Some?
  {
    if w.scanned.Some? {
      ForwardScanned(Rewound(w, view, order, depth), view);
    }
  }
}
