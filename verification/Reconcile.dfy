/** A version 2 loan over reorgs: its record is the path that the node's view spends its
    first coin along, whatever was recorded before. */
module Reconcile {
  import opened Wrappers
  import opened Vault2

  datatype Block = Block(hash: Id, txs: seq<Tx>)

  /** The node during one poll. */
  datatype View = View(blocks: seq<Block>, mempool: seq<Tx>)

  datatype Place = InBlock(height: nat, hash: Id) | InMempool

  /** A transaction of the line: it made the coin that holds the loan, or closed it. */
  datatype Step =
    | Held(txid: Id, where: Place, coin: Coin, state: Debt)
    | Closed(txid: Id, where: Place, event: Event)

  // --------------------------------------------------------------- the node

  predicate Has(txs: seq<Tx>, txid: Id) { exists i :: 0 <= i < |txs| && txs[i].txid == txid }

  ghost predicate InView(view: View, txid: Id) {
    Has(view.mempool, txid) || exists h :: 0 <= h < |view.blocks| && Has(view.blocks[h].txs, txid)
  }

  ghost predicate At(view: View, txid: Id, place: Place) {
    match place
    case InMempool => Has(view.mempool, txid)
    case InBlock(h, hash) => h < |view.blocks| && view.blocks[h].hash == hash && Has(view.blocks[h].txs, txid)
  }

  predicate SpendsAt(tx: Tx, k: nat, coin: Outpoint) { k < |tx.ins| && tx.ins[k].prev == coin }

  ghost predicate SpentIn(txs: seq<Tx>, coin: Outpoint) { exists i, k :: 0 <= i < |txs| && SpendsAt(txs[i], k, coin) }

  ghost predicate Spent(view: View, coin: Outpoint) {
    SpentIn(view.mempool, coin) || exists h :: 0 <= h < |view.blocks| && SpentIn(view.blocks[h].txs, coin)
  }

  /** What identifiers stand for: a transaction's commits to it, a block's to the block. */
  datatype World = World(tx: Id -> Tx, block: Id -> Block)

  ghost predicate Real(world: World, txs: seq<Tx>) {
    forall i :: 0 <= i < |txs| ==> txs[i] == world.tx(txs[i].txid)
  }

  /** A view a node can have: what it shows is what the identifiers stand for, a coin is
      spent no lower than it was made and only once, and nothing of a loan is in the
      first block. */
  ghost predicate Sound(world: World, view: View) {
    && view.blocks != [] && view.blocks[0].txs == []
    && Real(world, view.mempool)
    && (forall h :: 0 <= h < |view.blocks| ==> view.blocks[h] == world.block(view.blocks[h].hash) && Real(world, view.blocks[h].txs))
    && (forall coin :: SpentIn(view.mempool, coin) ==> InView(view, coin.txid))
    && (forall coin, h :: 0 <= h < |view.blocks| && SpentIn(view.blocks[h].txs, coin) ==>
          exists g :: 0 <= g <= h && Has(view.blocks[g].txs, coin.txid))
    && (forall g, h, txid :: 0 <= g < |view.blocks| && 0 <= h < |view.blocks| ==>
          (Has(view.blocks[g].txs, txid) && Has(view.blocks[h].txs, txid) ==> g == h))
    && (forall h, txid :: 0 <= h < |view.blocks| && Has(view.blocks[h].txs, txid) ==> !Has(view.mempool, txid))
    && (forall a, b, j, k, coin :: InView(view, a) && InView(view, b) ==>
          (SpendsAt(world.tx(a), j, coin) && SpendsAt(world.tx(b), k, coin) ==> a == b && j == k))
  }

  // --------------------------------------------------------------- the line

  lemma FollowedOut(terms: Terms, state: Debt, spk: Spk, tx: Tx, k: nat)
    ensures var r := Follow(terms, state, spk, tx, k);
      r.next.Some? <==> r.vout.Some?
    ensures var r := Follow(terms, state, spk, tx, k);
      r.vout.Some? ==> r.vout.value < |tx.outs|
  {}

  /** The step a spend of the newest coin makes. */
  function Stepped(terms: Terms, cur: Step, tx: Tx, k: nat, place: Place): Step
    requires cur.Held?
  {
    var r := Follow(terms, cur.state, cur.coin.spk, tx, k);
    if r.next.Some? && r.vout.Some? && r.vout.value < |tx.outs| then
      var o := tx.outs[r.vout.value];
      Held(tx.txid, place, Coin(Outpoint(tx.txid, r.vout.value), o.amount, o.asset, o.spk), r.next.value)
    else Closed(tx.txid, place, r.event)
  }

  /** A step but for where it was last seen. */
  function Bare(s: Step): Step { s.(where := InMempool) }

  ghost predicate Next(world: World, terms: Terms, a: Step, b: Step) {
    a.Held? && exists k :: SpendsAt(world.tx(b.txid), k, a.coin.at) && Bare(b) == Bare(Stepped(terms, a, world.tx(b.txid), k, b.where))
  }

  /** A block a step is recorded in holds its transaction. */
  ghost predicate Recorded(world: World, s: Step) {
    && world.tx(s.txid).txid == s.txid && (s.Held? ==> s.coin.at.txid == s.txid)
    && (s.where.InBlock? ==> Has(world.block(s.where.hash).txs, s.txid))
  }

  /** A line read from the opening coin, at any time and over any chain. */
  ghost predicate Line(world: World, terms: Terms, opening: Step, line: seq<Step>) {
    && Recorded(world, opening) && opening.Held?
    && (line != [] ==> Bare(line[0]) == Bare(opening))
    && (forall i :: 0 <= i < |line| ==> Recorded(world, line[i]))
    && (forall i :: 0 <= i < |line| - 1 ==> Next(world, terms, line[i], line[i + 1]))
  }

  ghost predicate AllIn(view: View, line: seq<Step>) {
    forall i :: 0 <= i < |line| ==> InView(view, line[i].txid)
  }

  /** The line goes no further in this view. */
  ghost predicate Ended(view: View, line: seq<Step>) {
    line != [] && var last := line[|line| - 1]; last.Closed? || !Spent(view, last.coin.at)
  }

  /** The spend path of a view from the opening coin. */
  ghost predicate SpendPath(world: World, terms: Terms, view: View, opening: Step, line: seq<Step>) {
    Line(world, terms, opening, line) && AllIn(view, line) && Ended(view, line)
  }

  lemma SpendSeen(world: World, view: View, txid: Id, k: nat, coin: Outpoint)
    requires Sound(world, view) && InView(view, txid) && SpendsAt(world.tx(txid), k, coin)
    ensures Spent(view, coin) && InView(view, coin.txid)
  {
    if Has(view.mempool, txid) {
      var i :| 0 <= i < |view.mempool| && view.mempool[i].txid == txid;
      assert SpendsAt(view.mempool[i], k, coin);
    } else {
      var h :| 0 <= h < |view.blocks| && Has(view.blocks[h].txs, txid);
      var i :| 0 <= i < |view.blocks[h].txs| && view.blocks[h].txs[i].txid == txid;
      assert SpendsAt(view.blocks[h].txs[i], k, coin);
    }
  }

  /** One spend of a coin, one step. */
  lemma NextUnique(world: World, terms: Terms, view: View, a: Step, b: Step, a': Step, b': Step)
    requires Sound(world, view) && Bare(a) == Bare(a') && Next(world, terms, a, b) && Next(world, terms, a', b')
    requires InView(view, b.txid) && InView(view, b'.txid)
    ensures Bare(b) == Bare(b')
  {
    var k :| SpendsAt(world.tx(b.txid), k, a.coin.at) && Bare(b) == Bare(Stepped(terms, a, world.tx(b.txid), k, b.where));
    var k' :| SpendsAt(world.tx(b'.txid), k', a'.coin.at) && Bare(b') == Bare(Stepped(terms, a', world.tx(b'.txid), k', b'.where));
  }

  lemma LineNext(world: World, terms: Terms, opening: Step, line: seq<Step>, i: nat)
    requires Line(world, terms, opening, line) && 0 < i < |line|
    ensures Next(world, terms, line[i - 1], line[i])
  {
    assert Next(world, terms, line[i - 1], line[i - 1 + 1]);
  }

  /** Two lines in one view run together as far as both go. */
  lemma {:induction false} LinesAgree(world: World, terms: Terms, view: View, opening: Step, a: seq<Step>, b: seq<Step>, i: nat)
    requires Sound(world, view) && Line(world, terms, opening, a) && Line(world, terms, opening, b)
    requires AllIn(view, a) && AllIn(view, b) && i < |a| && i < |b|
    ensures Bare(a[i]) == Bare(b[i])
  {
    if i == 0 {
      assert Bare(a[0]) == Bare(opening) == Bare(b[0]);
    } else {
      LinesAgree(world, terms, view, opening, a, b, i - 1);
      LineNext(world, terms, opening, a, i);
      LineNext(world, terms, opening, b, i);
      assert InView(view, a[i].txid) && InView(view, b[i].txid);
      NextUnique(world, terms, view, a[i - 1], a[i], b[i - 1], b[i]);
    }
  }

  lemma NotLonger(world: World, terms: Terms, view: View, opening: Step, a: seq<Step>, b: seq<Step>)
    requires Sound(world, view) && SpendPath(world, terms, view, opening, a)
    requires Line(world, terms, opening, b) && AllIn(view, b)
    ensures |b| <= |a|
  {
    if |b| > |a| {
      var n := |a| - 1;
      LinesAgree(world, terms, view, opening, a, b, n);
      assert Next(world, terms, b[n], b[n + 1]);
      var k :| SpendsAt(world.tx(b[n + 1].txid), k, b[n].coin.at);
      SpendSeen(world, view, b[n + 1].txid, k, b[n].coin.at);
    }
  }

  /** A view has one spend path, whatever was followed before. */
  lemma PathUnique(world: World, terms: Terms, view: View, opening: Step, a: seq<Step>, b: seq<Step>)
    requires Sound(world, view) && SpendPath(world, terms, view, opening, a) && SpendPath(world, terms, view, opening, b)
    ensures |a| == |b| && forall i :: 0 <= i < |a| ==> Bare(a[i]) == Bare(b[i])
  {
    NotLonger(world, terms, view, opening, a, b);
    NotLonger(world, terms, view, opening, b, a);
    forall i | 0 <= i < |a| ensures Bare(a[i]) == Bare(b[i]) {
      LinesAgree(world, terms, view, opening, a, b, i);
    }
  }

  lemma LinePart(world: World, terms: Terms, opening: Step, line: seq<Step>, n: nat)
    requires Line(world, terms, opening, line) && n <= |line|
    ensures Line(world, terms, opening, line[..n])
  {
    var part := line[..n];
    forall i | 0 <= i < |part| - 1 ensures Next(world, terms, part[i], part[i + 1]) {
      assert Next(world, terms, line[i], line[i + 1]);
    }
  }

  /** The newest step in the view puts every step in it. */
  lemma {:induction false} BelowNewest(world: World, terms: Terms, view: View, opening: Step, line: seq<Step>)
    requires Sound(world, view) && Line(world, terms, opening, line) && line != [] && InView(view, line[|line| - 1].txid)
    ensures AllIn(view, line)
  {
    if |line| > 1 {
      var n := |line| - 2;
      LineNext(world, terms, opening, line, n + 1);
      assert Recorded(world, line[n]);
      OneBelow(world, terms, view, line[n], line[n + 1]);
      LinePart(world, terms, opening, line, n + 1);
      var before := line[..n + 1];
      assert before[n] == line[n];
      BelowNewest(world, terms, view, opening, before);
      AllInMore(view, line);
    }
  }

  lemma AllInMore(view: View, line: seq<Step>)
    requires line != [] && AllIn(view, line[..|line| - 1]) && InView(view, line[|line| - 1].txid)
    ensures AllIn(view, line)
  {
    var before := line[..|line| - 1];
    assert forall i :: 0 <= i < |before| ==> line[i] == before[i] && InView(view, before[i].txid);
  }

  lemma OneBelow(world: World, terms: Terms, view: View, a: Step, b: Step)
    requires Sound(world, view) && Next(world, terms, a, b) && Recorded(world, a) && InView(view, b.txid)
    ensures InView(view, a.txid)
  {
    var k :| SpendsAt(world.tx(b.txid), k, a.coin.at);
    SpendSeen(world, view, b.txid, k, a.coin.at);
  }

  // ---------------------------------------------------------------- the debt

  /** What the spend behind a step that left the loan open pays the lender. */
  function PaidBy(world: World, terms: Terms, after: Step): nat
    requires after.Held?
  {
    PaidLender(terms, world.tx(after.txid), after.coin.at.vout / 2)
  }

  /** The loan is open all along a line. */
  predicate Open(line: seq<Step>) { forall i :: 0 <= i < |line| ==> line[i].Held? }

  /** Everything paid to the lender along a line. */
  function PaidAlong(world: World, terms: Terms, line: seq<Step>): nat
    requires Open(line)
  {
    if |line| < 2 then 0
    else PaidAlong(world, terms, line[..|line| - 1]) + PaidBy(world, terms, line[|line| - 1])
  }

  /** A step onto the coin's own script, which is read as a top-up whatever else it does. */
  predicate ToppedUp(terms: Terms, a: Step, b: Step) {
    a.Held? && b.Held? && b.coin.spk == a.coin.spk && b.coin.asset == terms.collateralAsset
  }

  /** No top-up along a line pays the lender beside it. */
  ghost predicate TopUpsOnly(world: World, terms: Terms, line: seq<Step>) {
    forall i :: 0 < i < |line| && ToppedUp(terms, line[i - 1], line[i]) ==> PaidBy(world, terms, line[i]) == 0
  }

  lemma StepPays(world: World, terms: Terms, a: Step, b: Step)
    requires Next(world, terms, a, b) && b.Held?
    ensures if ToppedUp(terms, a, b) then b.state == a.state
            else a.state.owed == b.state.owed + PaidBy(world, terms, b) && PaidBy(world, terms, b) > 0
  {
    var k :| SpendsAt(world.tx(b.txid), k, a.coin.at) && Bare(b) == Bare(Stepped(terms, a, world.tx(b.txid), k, b.where));
    FollowedOut(terms, a.state, a.coin.spk, world.tx(b.txid), k);
  }

  lemma {:induction false} TopUpsPart(world: World, terms: Terms, line: seq<Step>)
    requires |line| > 1
    ensures var n := |line| - 1;
      TopUpsOnly(world, terms, line) <==>
        TopUpsOnly(world, terms, line[..n]) && (ToppedUp(terms, line[n - 1], line[n]) ==> PaidBy(world, terms, line[n]) == 0)
  {
    var part := line[..|line| - 1];
    assert forall i :: 0 <= i < |part| ==> part[i] == line[i];
  }

  /** What one more step adds. */
  lemma OneMorePaid(world: World, terms: Terms, line: seq<Step>)
    requires |line| > 1 && Open(line) && Next(world, terms, line[|line| - 2], line[|line| - 1])
    ensures var n, paid := |line| - 1, PaidBy(world, terms, line[|line| - 1]);
      && PaidAlong(world, terms, line) == PaidAlong(world, terms, line[..n]) + paid
      && line[n - 1].state.owed <= line[n].state.owed + paid
      && (line[n - 1].state.owed == line[n].state.owed + paid <==> (ToppedUp(terms, line[n - 1], line[n]) ==> paid == 0))
  {
    StepPays(world, terms, line[|line| - 2], line[|line| - 1]);
  }

  /** The debt at first is what is owed now and everything paid, unless a top-up pays too. */
  ghost predicate Conserved(world: World, terms: Terms, owed: nat, line: seq<Step>)
    requires Open(line) && line != []
  {
    var settled := line[|line| - 1].state.owed + PaidAlong(world, terms, line);
    owed <= settled && (owed == settled <==> TopUpsOnly(world, terms, line))
  }

  lemma ConservedMore(world: World, terms: Terms, owed: nat, line: seq<Step>)
    requires |line| > 1 && Open(line) && Next(world, terms, line[|line| - 2], line[|line| - 1])
    requires Conserved(world, terms, owed, line[..|line| - 1])
    ensures Conserved(world, terms, owed, line)
  {
    OneMorePaid(world, terms, line);
    TopUpsPart(world, terms, line);
  }

  /** Along a line the opening debt is never more than the debt now and everything paid to
      the lender, and exactly that when no top-up pays the lender beside it. */
  lemma {:induction false} DebtConserved(world: World, terms: Terms, opening: Step, line: seq<Step>)
    requires Line(world, terms, opening, line) && line != [] && Open(line)
    ensures opening.state.owed <= line[|line| - 1].state.owed + PaidAlong(world, terms, line)
    ensures opening.state.owed == line[|line| - 1].state.owed + PaidAlong(world, terms, line) <==> TopUpsOnly(world, terms, line)
    ensures Conserved(world, terms, opening.state.owed, line)
    decreases |line|
  {
    if |line| > 1 {
      var n := |line| - 1;
      LineNext(world, terms, opening, line, n);
      LinePart(world, terms, opening, line, n);
      DebtConserved(world, terms, opening, line[..n]);
      ConservedMore(world, terms, opening.state.owed, line);
    }
  }

  /** A top-up that pays the lender thirty beside it: the debt does not fall. */
  lemma PaidBesideTopUp(terms: Terms, opening: Step) returns (world: World, line: seq<Step>)
    requires opening.Held? && opening.coin.at.txid == opening.txid && opening.where.InMempool?
    ensures Line(world, terms, opening, line) && |line| == 2 && line[0] == opening && line[1].Held?
    ensures PaidAlong(world, terms, line) == 30 && line[1].state == opening.state
  {
    var beside := Out(terms.lender, terms.debtAsset, 30, true);
    var again := Out(opening.coin.spk, terms.collateralAsset, opening.coin.amount + 1, true);
    var spend := Tx(opening.txid + 1, [In(opening.coin.at, [])], [again, beside], 0);
    world := World((id: Id) => if id == spend.txid then spend else Tx(id, [], [], 0), (id: Id) => Block(id, []));
    line := [opening, Stepped(terms, opening, spend, 0, InMempool)];
    assert SpendsAt(world.tx(line[1].txid), 0, opening.coin.at);
    assert Next(world, terms, line[0], line[0 + 1]);
    assert line[..1] == [opening];
  }

  /** A loan closed by a payment was paid at least what it owed. */
  lemma ClosedIsPaid(world: World, terms: Terms, a: Step, b: Step)
    requires Next(world, terms, a, b) && b.Closed? && (b.event == Repaid || b.event == Liquidated)
    ensures exists k :: SpendsAt(world.tx(b.txid), k, a.coin.at) && PaidLender(terms, world.tx(b.txid), k) >= a.state.owed
  {
    var k :| SpendsAt(world.tx(b.txid), k, a.coin.at) && Bare(b) == Bare(Stepped(terms, a, world.tx(b.txid), k, b.where));
    FollowedOut(terms, a.state, a.coin.spk, world.tx(b.txid), k);
  }

  // ------------------------------------------------------------- the watcher

  datatype LoanState = LIVE | UNCONFIRMED | GHOST | REPAID | LIQUIDATED | RECOVERED | SPENT_UNKNOWN

  function EventState(e: Event): LoanState {
    match e
    case Repaid => REPAID
    case Liquidated => LIQUIDATED
    case Recovered => RECOVERED
    case _ => SPENT_UNKNOWN
  }

  /** The lowest block searched for a transaction last seen there. */
  function SearchStart(view: View, place: Place): nat {
    var from := if place.InBlock? && place.height > 0 then place.height else |view.blocks| - 1;
    if from >= 10 then from - 10 else 0
  }

  /** Which heights are searched: from ten below where it was last seen in a block, or below
      the tip when it was in none, or in the first. */
  lemma SearchedHeights(view: View, place: Place, g: nat)
    requires view.blocks != []
    ensures place.InBlock? && place.height > 0 ==> (g >= SearchStart(view, place) <==> g + 10 >= place.height)
    ensures place.InMempool? || place.height == 0 ==> (g >= SearchStart(view, place) <==> g + 11 >= |view.blocks|)
  {}

  ghost predicate StillIn(view: View, hash: Id) { exists h :: 0 <= h < |view.blocks| && view.blocks[h].hash == hash }

  /** A step's transaction is where it is looked for, if it is anywhere: not mined again
      more than ten blocks below where it was last seen. */
  ghost predicate Findable(view: View, s: Step)
    requires view.blocks != []
  {
    forall h :: 0 <= h < |view.blocks| && Has(view.blocks[h].txs, s.txid) ==>
      h >= SearchStart(view, s.where) || (s.where.InBlock? && StillIn(view, s.where.hash))
  }

  /** A step that is not found: gone, or mined again lower than is looked. */
  ghost predicate Lost(view: View, s: Step)
    requires view.blocks != []
  {
    !InView(view, s.txid) || !Findable(view, s)
  }

  class Chain {
    const view: View

    constructor (view: View)
      ensures this.view == view
    {
      this.view := view;
    }

    method Height(hash: Id) returns (height: Option<nat>)
      ensures height.Some? <==> StillIn(view, hash)
      ensures height.Some? ==> height.value < |view.blocks| && view.blocks[height.value].hash == hash
    {
      for h := 0 to |view.blocks|
        invariant forall g :: 0 <= g < h ==> view.blocks[g].hash != hash
      {
        if view.blocks[h].hash == hash {
          return Some(h);
        }
      }
      return None;
    }

    /** Where a step's transaction is now. */
    method Where(s: Step, ghost world: World) returns (place: Option<Place>)
      requires Sound(world, view) && Recorded(world, s)
      ensures place.Some? ==> At(view, s.txid, place.value)
      ensures place.None? <==> Lost(view, s)
    {
      if Has(view.mempool, s.txid) {
        return Some(InMempool);
      }
      if s.where.InBlock? {
        var height := Height(s.where.hash);
        if height.Some? {
          assert view.blocks[height.value] == world.block(s.where.hash);
          return Some(InBlock(height.value, s.where.hash));
        }
      }
      var h := SearchStart(view, s.where);
      while h < |view.blocks|
        invariant forall g :: SearchStart(view, s.where) <= g < h && g < |view.blocks| ==> !Has(view.blocks[g].txs, s.txid)
      {
        if Has(view.blocks[h].txs, s.txid) {
          return Some(InBlock(h, view.blocks[h].hash));
        }
        h := h + 1;
      }
      return None;
    }

    method FindSpend(txs: seq<Tx>, coin: Outpoint) returns (found: Option<(Tx, nat)>)
      ensures found.Some? ==> found.value.0 in txs && SpendsAt(found.value.0, found.value.1, coin)
      ensures found.None? ==> !SpentIn(txs, coin)
    {
      for i := 0 to |txs|
        invariant forall j, k :: 0 <= j < i ==> !SpendsAt(txs[j], k, coin)
      {
        for k := 0 to |txs[i].ins|
          invariant forall l :: 0 <= l < k ==> !SpendsAt(txs[i], l, coin)
        {
          if txs[i].ins[k].prev == coin {
            return Some((txs[i], k));
          }
        }
      }
      return None;
    }

    /** What spends a coin, from a height to the tip and then in the mempool. */
    method Spender(coin: Outpoint, from: nat) returns (found: Option<(Tx, nat, Place)>)
      ensures found.Some? ==> SpendsAt(found.value.0, found.value.1, coin)
      ensures found.Some? ==> At(view, found.value.0.txid, found.value.2) && InTxs(view, found.value.0, found.value.2)
      ensures found.None? <==> !SpentFrom(view, coin, from)
    {
      var h := from;
      while h < |view.blocks|
        invariant forall g :: from <= g < h && g < |view.blocks| ==> !SpentIn(view.blocks[g].txs, coin)
      {
        var spend := FindSpend(view.blocks[h].txs, coin);
        if spend.Some? {
          return Some((spend.value.0, spend.value.1, InBlock(h, view.blocks[h].hash)));
        }
        h := h + 1;
      }
      var spend := FindSpend(view.mempool, coin);
      if spend.Some? {
        return Some((spend.value.0, spend.value.1, InMempool));
      }
      return None;
    }
  }

  ghost predicate SpentFrom(view: View, coin: Outpoint, from: nat) {
    SpentIn(view.mempool, coin) || exists h :: from <= h < |view.blocks| && SpentIn(view.blocks[h].txs, coin)
  }

  ghost predicate InTxs(view: View, tx: Tx, place: Place) {
    match place
    case InMempool => tx in view.mempool
    case InBlock(h, _) => h < |view.blocks| && tx in view.blocks[h].txs
  }

  function StateOf(line: seq<Step>): LoanState {
    if line == [] then GHOST
    else
      var cur := line[|line| - 1];
      if cur.Closed? then EventState(cur.event) else if cur.where.InBlock? then LIVE else UNCONFIRMED
  }

  /** The state of a line is what its newest step was: open in a block or out of one, or
      ended as the spend that closed it was read. */
  lemma StateExactly(line: seq<Step>)
    ensures var s, n := StateOf(line), |line| - 1;
      && (s == GHOST <==> line == [])
      && (s == LIVE <==> line != [] && line[n].Held? && line[n].where.InBlock?)
      && (s == UNCONFIRMED <==> line != [] && line[n].Held? && line[n].where.InMempool?)
      && (s == REPAID <==> line != [] && line[n].Closed? && line[n].event == Repaid)
      && (s == LIQUIDATED <==> line != [] && line[n].Closed? && line[n].event == Liquidated)
      && (s == RECOVERED <==> line != [] && line[n].Closed? && line[n].event == Recovered)
  {}

  /** A line all of it in the view, its newest step where the view has it. */
  ghost predicate Placed(world: World, terms: Terms, view: View, opening: Step, line: seq<Step>) {
    && Line(world, terms, opening, line) && line != [] && AllIn(view, line)
    && At(view, line[|line| - 1].txid, line[|line| - 1].where)
  }

  lemma Relocated(world: World, terms: Terms, view: View, opening: Step, line: seq<Step>, place: Place)
    requires Sound(world, view) && Line(world, terms, opening, line) && line != []
    requires At(view, line[|line| - 1].txid, place)
    ensures Placed(world, terms, view, opening, line[..|line| - 1] + [line[|line| - 1].(where := place)])
  {
    var n := |line| - 1;
    var moved := line[..n] + [line[n].(where := place)];
    forall i | 0 <= i < n ensures Next(world, terms, moved[i], moved[i + 1]) {
      assert Next(world, terms, line[i], line[i + 1]);
      assert moved[i] == line[i] && Bare(moved[i + 1]) == Bare(line[i + 1]);
      NextBare(world, terms, line[i], line[i + 1], moved[i + 1]);
    }
    assert Recorded(world, moved[n]);
    assert forall i :: 0 <= i < n ==> Recorded(world, moved[i]);
    BelowNewest(world, terms, view, opening, moved);
  }

  /** Where a step was last seen is no part of what it is. */
  lemma NextBare(world: World, terms: Terms, a: Step, b: Step, b': Step)
    requires Next(world, terms, a, b) && Bare(b) == Bare(b')
    ensures Next(world, terms, a, b')
  {
    var k :| SpendsAt(world.tx(b.txid), k, a.coin.at) && Bare(b) == Bare(Stepped(terms, a, world.tx(b.txid), k, b.where));
    assert Bare(b') == Bare(Stepped(terms, a, world.tx(b'.txid), k, b'.where));
  }

  lemma Extended(world: World, terms: Terms, view: View, opening: Step, line: seq<Step>, tx: Tx, k: nat, place: Place)
    requires Sound(world, view) && Placed(world, terms, view, opening, line) && line[|line| - 1].Held?
    requires SpendsAt(tx, k, line[|line| - 1].coin.at) && At(view, tx.txid, place) && InTxs(view, tx, place)
    ensures Placed(world, terms, view, opening, line + [Stepped(terms, line[|line| - 1], tx, k, place)])
  {
    var cur := line[|line| - 1];
    var step := Stepped(terms, cur, tx, k, place);
    var longer := line + [step];
    assert tx == world.tx(tx.txid);
    assert Recorded(world, step);
    forall i | 0 <= i < |longer| - 1 ensures Next(world, terms, longer[i], longer[i + 1]) {
      if i < |line| - 1 {
        assert Next(world, terms, line[i], line[i + 1]);
      } else {
        assert SpendsAt(world.tx(step.txid), k, cur.coin.at);
      }
    }
    assert forall i :: 0 <= i < |longer| ==> Recorded(world, longer[i]);
  }

  /** Searching from the newest coin's own block misses no spend of it. */
  lemma SpentAbove(world: World, terms: Terms, view: View, opening: Step, line: seq<Step>)
    requires Sound(world, view) && Placed(world, terms, view, opening, line) && line[|line| - 1].Held?
    ensures var cur := line[|line| - 1];
      Spent(view, cur.coin.at) <==> SpentFrom(view, cur.coin.at, SpendFrom(view, cur.where))
  {
    var cur := line[|line| - 1];
    assert cur.coin.at.txid == cur.txid;
    if h :| 0 <= h < |view.blocks| && SpentIn(view.blocks[h].txs, cur.coin.at) {
      var g :| 0 <= g <= h && Has(view.blocks[g].txs, cur.coin.at.txid);
      if cur.where.InBlock? {
        assert g == cur.where.height;
      }
    }
  }

  function SpendFrom(view: View, place: Place): nat
    requires view.blocks != []
  {
    if place.InBlock? && place.height > 0 then place.height else |view.blocks| - 1
  }

  class Loan {
    const terms: Terms
    const opening: Step
    var line: seq<Step>
    var state: LoanState

    constructor (terms: Terms, opening: Step)
      ensures this.terms == terms && this.opening == opening && line == [opening]
    {
      this.terms, this.opening, this.line, this.state := terms, opening, [opening], UNCONFIRMED;
    }

    /** Drop the newest steps until one is found in the view. */
    method Undo(chain: Chain, ghost world: World)
      requires Sound(world, chain.view) && Line(world, terms, opening, line)
      modifies this`line
      ensures line == [] || Placed(world, terms, chain.view, opening, line)
      ensures line == [] <==> forall i :: 0 <= i < |old(line)| ==> Lost(chain.view, old(line)[i])
    {
      while line != []
        invariant Line(world, terms, opening, line) && line <= old(line)
        invariant forall i :: |line| <= i < |old(line)| ==> Lost(chain.view, old(line)[i])
        decreases |line|
      {
        var n := |line| - 1;
        var place := chain.Where(line[n], world);
        if place.Some? {
          Relocated(world, terms, chain.view, opening, line, place.value);
          line := line[..n] + [line[n].(where := place.value)];
          return;
        }
        LinePart(world, terms, opening, line, n);
        line := line[..n];
      }
    }

    /** Step along every spend the view shows, sixty-four at most. */
    method Advance(chain: Chain, ghost world: World)
      requires Sound(world, chain.view) && Placed(world, terms, chain.view, opening, line)
      modifies this`line
      ensures Placed(world, terms, chain.view, opening, line) && old(line) <= line
      ensures Ended(chain.view, line) || |line| == |old(line)| + 64
    {
      for steps := 0 to 64
        invariant Placed(world, terms, chain.view, opening, line) && old(line) <= line
        invariant |line| == |old(line)| + steps
      {
        var cur := line[|line| - 1];
        if cur.Closed? {
          return;
        }
        SpentAbove(world, terms, chain.view, opening, line);
        var found := chain.Spender(cur.coin.at, SpendFrom(chain.view, cur.where));
        if found.None? {
          return;
        }
        var (tx, k, place) := found.value;
        Extended(world, terms, chain.view, opening, line, tx, k, place);
        line := line + [Stepped(terms, cur, tx, k, place)];
      }
    }

    /** One loan in one poll: from any line read earlier, over any reorg, the spend path
        of the view as it is; nothing exactly when neither the opening nor any step of the
        line is found. */
    method ReconcileLoan(chain: Chain, ghost world: World)
      requires Sound(world, chain.view) && Line(world, terms, opening, line)
      modifies this
      ensures Line(world, terms, opening, line) && state == StateOf(line)
      ensures line == [] <==>
        Lost(chain.view, opening) && forall i :: 0 <= i < |old(line)| ==> Lost(chain.view, old(line)[i])
      ensures Findable(chain.view, opening) ==> (line == [] <==> !InView(chain.view, opening.txid))
      ensures line != [] ==> Placed(world, terms, chain.view, opening, line)
      ensures line != [] ==> SpendPath(world, terms, chain.view, opening, line) || |line| > 64
    {
      Undo(chain, world);
      if line == [] {
        state := GHOST;
        var place := chain.Where(opening, world);
        if place.None? {
          return;
        }
        line := [Held(opening.txid, place.value, opening.coin, opening.state)];
      }
      assert InView(chain.view, line[0].txid);
      Advance(chain, world);
      state := StateOf(line);
    }
  }
}
