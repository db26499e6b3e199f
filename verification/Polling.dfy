/** One poll's scan of the blocks as a function of what the watcher holds and what the node
    answers, and when it leaves the watcher holding what the node's chain says. */
module Polling {
  import opened Wrappers
  import opened Scan
  import opened Node
  import opened Ends
  import opened Confluence

  /** What the watcher holds: its maps, how far it has read, and the hash of each block
      it read. */
  datatype Watch = Watch(maps: Maps, scanned: Option<nat>, seen: map<nat, int>)

  // ----------------------------------------------------------------- rewind

  function Min(a: nat, b: nat): nat { if a <= b then a else b }

  ghost function Least(s: set<nat>): (least: nat)
    requires s != {}
    ensures least in s && forall h :: h in s ==> least <= h
  {
    var h :| h in s;
    if s == {h} then h
    else
      assert s == {h} + (s - {h});
      Min(h, Least(s - {h}))
  }

  /** Never below the rescan depth, nor below the lowest block this run has a record of. */
  ghost function Floor(seen: map<nat, int>, start: nat, depth: nat): nat
    requires seen != map[]
  {
    var deep := if start > depth then start - depth else 0;
    var least := Least(seen.Keys);
    if least > 0 && least - 1 > deep then least - 1 else deep
  }

  /** Down the recorded heights to one the node still has; nothing when it would not say. */
  function Descend(seen: map<nat, int>, view: View, from: nat, floor: nat): Option<nat> {
    if from <= floor then Some(from)
    else if from !in seen then Descend(seen, view, from - 1, floor)
    else match view.HashAt(from)
      case None => None
      case Some(hash) => if hash == seen[from] then Some(from) else Descend(seen, view, from - 1, floor)
  }

  /** How far back to rewind, when something has to be. */
  ghost function RewindPoint(w: Watch, view: View, depth: nat): Option<nat>
    requires w.scanned.Some? && view.chain != []
  {
    var top := w.scanned.value;
    if top !in w.seen then None
    else if top < |view.chain| && (view.HashAt(top).None? || view.HashAt(top).value == w.seen[top]) then None
    else
      var start := Min(top, |view.chain| - 1);
      Descend(w.seen, view, start, Floor(w.seen, start, depth))
  }

  /** The node names another block at each height on record above `a`, up to `from`. */
  ghost predicate Changed(seen: map<nat, int>, view: View, a: nat, from: nat) {
    forall g :: a < g <= from && g in seen ==> g < |view.chain| && view.saysHash(g) && view.chain[g].hash != seen[g]
  }

  /** A height on record the node would not name the block of. */
  predicate Silent(seen: map<nat, int>, view: View, h: nat) { h in seen && (h >= |view.chain| || !view.saysHash(h)) }

  lemma {:induction false} DescendExactly(seen: map<nat, int>, view: View, from: nat, floor: nat)
    ensures match Descend(seen, view, from, floor)
      case Some(a) =>
        && a <= from && Changed(seen, view, a, from) && (a <= floor ==> a == Min(from, floor))
        && (a > floor ==> a in seen && a < |view.chain| && view.saysHash(a) && view.chain[a].hash == seen[a])
      case None => exists h: nat :: floor < h <= from && Silent(seen, view, h) && Changed(seen, view, h, from)
  {
    if from > floor && !(from in seen && view.HashAt(from) == Some(seen[from])) {
      if Silent(seen, view, from) {
        assert Changed(seen, view, from, from);
      } else {
        DescendExactly(seen, view, from - 1, floor);
        if Descend(seen, view, from, floor).None? {
          var h: nat :| floor < h <= from - 1 && Silent(seen, view, h) && Changed(seen, view, h, from - 1);
          assert Changed(seen, view, h, from);
        }
      }
    }
  }

  /** When a watcher rewinds and how far: only if the block read last is known to be another or
      is above the tip, and down to the highest block on record that is still there, or as far
      as the record and the rescan depth go; unless on the way down the node is silent. */
  lemma RewindExactly(w: Watch, view: View, depth: nat)
    requires w.scanned.Some? && view.chain != []
    ensures var top, tip := w.scanned.value, |view.chain| - 1;
      var suspects := top in w.seen && (top > tip || (view.saysHash(top) && view.chain[top].hash != w.seen[top]));
      match RewindPoint(w, view, depth)
      case None => suspects ==>
        exists h: nat :: h <= Min(top, tip) && h + depth > Min(top, tip) && Silent(w.seen, view, h) && Changed(w.seen, view, h, Min(top, tip))
      case Some(a) =>
        && suspects && a <= Min(top, tip) <= a + depth && Changed(w.seen, view, a, Min(top, tip))
        && ((a in w.seen && view.saysHash(a) && view.chain[a].hash == w.seen[a])
            || a == Min(top, tip) || a + depth == Min(top, tip) || (a == 0 && depth >= Min(top, tip)) || forall h :: h in w.seen ==> a < h)
  {
    var top := w.scanned.value;
    if top in w.seen {
      var start := Min(top, |view.chain| - 1);
      DescendExactly(w.seen, view, start, Floor(w.seen, start, depth));
    }
  }

  function UndoTo(w: Watch, view: View, order: seq<Id>, ancestor: nat): Watch {
    Watch(Undo(w.maps, order, ancestor, view.Judge()), Some(ancestor),
          map h | h in w.seen && h <= ancestor :: w.seen[h])
  }

  ghost function Rewound(w: Watch, view: View, order: seq<Id>, depth: nat): Watch
    requires w.scanned.Some? && view.chain != []
  {
    match RewindPoint(w, view, depth)
    case None => w
    case Some(ancestor) => UndoTo(w, view, order, ancestor)
  }

  // ---------------------------------------------------------------- forward

  function Marked(w: Watch, view: View, tip: nat): Watch {
    w.(scanned := Some(tip),
       seen := if view.HashAt(tip).Some? then w.seen[tip := view.HashAt(tip).value] else w.seen)
  }

  function Reads(w: Watch, block: Block, h: nat): Watch {
    Watch(Read(w.maps, BlockSpends(block.txs, h)), Some(h), w.seen[h := block.hash])
  }

  /** Blocks in order, stopping at the first the node does not hand over. */
  function Forward(w: Watch, view: View): Watch
    requires w.scanned.Some?
    decreases |view.chain| - w.scanned.value
  {
    var h := w.scanned.value + 1;
    if view.BlockAt(h).None? then w else Forward(Reads(w, view.BlockAt(h).value, h), view)
  }

  predicate Idle(m: Maps) { m.byOutpoint == map[] && m.byOffer == map[] }

  /** What is left of a poll after the rewind. */
  function Onward(r: Watch, view: View): Watch
    requires r.scanned.Some? && view.chain != []
  {
    if Idle(r.maps) then Marked(r, view, |view.chain| - 1) else Forward(r, view)
  }

  ghost function Poll(w: Watch, view: View, order: seq<Id>, depth: nat): Watch
    requires view.chain != []
  {
    if w.scanned.None? then Marked(w, view, |view.chain| - 1) else Onward(Rewound(w, view, order, depth), view)
  }

  // -------------------------------------------------------------- following

  /** A watcher started at height `low` holding `base`. */
  datatype Origin = Origin(base: Maps, low: nat, order: seq<Id>, depth: nat)

  ghost predicate Placed(o: Origin) {
    Below(o.base, o.low) && AllRising(o.base, o.low) && Listed(o.base, o.order)
  }

  /** The offers and their index are what a direct reading of the chain from the start up to
      `top` makes, but for the moves forgotten, and what is known of the vaults is true of it. */
  ghost predicate Holds(m: Maps, o: Origin, chain: seq<Block>, top: nat, gone: nat) {
    && Placed(o) && Readable(o.base, o.low, chain) && o.low <= top < |chain|
    && m.offers == Trimmed(Read(o.base, ChainSpends(chain, o.low, top)).offers, gone)
    && m.byOffer == Read(o.base, ChainSpends(chain, o.low, top)).byOffer
    && AllKnow(m, chain, o.low, top)
  }

  /** The recorded hashes are the chain's, and the two ends are among them. */
  ghost predicate Recorded(seen: map<nat, int>, chain: seq<Block>, bottom: nat, top: nat) {
    && bottom in seen && top in seen
    && (forall h :: h in seen ==> bottom <= h <= top && h < |chain| && seen[h] == chain[h].hash)
  }

  /** The watcher holds what the chain says, with a record of its blocks down to `bottom`,
      and has forgotten no move that block or one above it made. */
  ghost predicate Follows(w: Watch, o: Origin, chain: seq<Block>, bottom: nat, gone: nat) {
    && w.scanned.Some? && o.low <= bottom && gone <= bottom
    && Holds(w.maps, o, chain, w.scanned.value, gone) && Recorded(w.seen, chain, bottom, w.scanned.value)
  }

  /** A chain the node can move to: it forks from the one before above the lowest block on
      record, and both are chains a node can have. */
  ghost predicate Forks(o: Origin, was: seq<Block>, chain: seq<Block>, bottom: nat) {
    && bottom < |was| && bottom < |chain| && chain[bottom].hash == was[bottom].hash && Commit(was, chain)
    && Readable(o.base, o.low, chain)
    && forall coin :: Sane(was, [], coin) && Sane(chain, [], coin)
  }

  lemma {:induction false} ReadKeys(m: Maps, es: seq<Spend>)
    requires Real(es)
    ensures Read(m, es).offers.Keys == m.offers.Keys
  {
    if es != [] {
      ReadKeys(m, es[..|es| - 1]);
    }
  }

  /** The first part of a readable chain is readable. */
  lemma ReadableTo(o: Origin, chain: seq<Block>, high: nat)
    requires Readable(o.base, o.low, chain) && o.low <= high < |chain|
    ensures Fresh(o.base, ChainSpends(chain, o.low, high))
  {
    var a, b := ChainSpends(chain, o.low, high), ChainSpends(chain, high, |chain| - 1);
    ChainSplit(chain, o.low, high, |chain| - 1);
    FreshPart(o.base, a, b);
  }

  /** A chain's spends up to `high`, cut at `mid`, are readable in both halves. */
  lemma Halves(o: Origin, chain: seq<Block>, mid: nat, high: nat) returns (a: seq<Spend>, b: seq<Spend>)
    requires Placed(o) && Readable(o.base, o.low, chain) && o.low <= mid <= high < |chain|
    ensures a == ChainSpends(chain, o.low, mid) && b == ChainSpends(chain, mid, high)
    ensures Read(o.base, ChainSpends(chain, o.low, high)) == Read(Read(o.base, a), b)
    ensures Below(Read(o.base, a), mid) && Fresh(Read(o.base, a), b)
  {
    a, b := ChainSpends(chain, o.low, mid), ChainSpends(chain, mid, high);
    ChainSplit(chain, o.low, mid, high);
    ReadableTo(o, chain, high);
    ReadConcat(o.base, a, b);
    PartRead(o.base, a, b, o.low, mid);
  }

  /** Taking back what is above a block two chains share leaves the offers as a direct
      reading up to it has them. */
  lemma OffersBack(m: Maps, o: Origin, was: seq<Block>, chain: seq<Block>, top: nat, gone: nat, a: nat, judge: (nat, int) -> bool)
    requires Holds(m, o, was, top, gone) && gone <= a && o.low <= a <= top && a < |chain| && chain[..a + 1] == was[..a + 1]
    ensures var u, read := Undo(m, o.order, a, judge), Read(o.base, ChainSpends(chain, o.low, a));
      u.offers == Trimmed(read.offers, gone) && u.byOffer == read.byOffer
  {
    var es, fs := Halves(o, was, a, top);
    var b := Read(o.base, es);
    ReadKeys(o.base, es);
    ChainInOrder(was, o.low, top);
    ReadRises(o.base, ChainSpends(was, o.low, top), o.low, top);
    TrimUndoes(m, Read(b, fs), o.order, gone, a, judge);
    BranchUndone(b, fs, o.order, a, judge);
    ChainAgree(was, chain, o.low, a);
  }

  /** The node answered for the funding blocks on record above the fork, or they are there
      as recorded. */
  ghost predicate FundingTold(m: Maps, view: View, a: nat) {
    forall id :: id in m.vaults && m.vaults[id].fundingHeight > a ==>
      var v := m.vaults[id];
      v.fundingHeight < |view.chain| && (view.saysHash(v.fundingHeight) || view.chain[v.fundingHeight].hash == v.fundingBlock)
  }

  lemma VaultsBack(m: Maps, o: Origin, was: seq<Block>, view: View, top: nat, a: nat)
    requires o.low <= a <= top < |was| && AllKnow(m, was, o.low, top) && a < |view.chain| && view.chain[..a + 1] == was[..a + 1]
    requires Commit(was, view.chain) && (forall coin :: Sane(was, [], coin)) && FundingTold(m, view, a)
    ensures AllKnow(Undo(m, o.order, a, view.Judge()), view.chain, o.low, a)
  {
    var u := Undo(m, o.order, a, view.Judge());
    forall id | id in m.vaults ensures u.vaults[id].coin == m.vaults[id].coin && Knows(u.vaults[id], view.chain, o.low, a) {
      FundingStandsExactly(m.vaults[id], was, view, a);
      RestoreKnows(m.vaults[id], was, view, o.low, top, a);
    }
  }

  lemma RecordedBelow(seen: map<nat, int>, was: seq<Block>, chain: seq<Block>, bottom: nat, top: nat, a: nat)
    requires Recorded(seen, was, bottom, top) && bottom <= a <= top && a in seen
    requires a < |was| && a < |chain| && chain[..a + 1] == was[..a + 1]
    ensures Recorded(map h | h in seen && h <= a :: seen[h], chain, bottom, a)
  {
    assert forall h :: 0 <= h <= a ==> chain[h] == chain[..a + 1][h] == was[..a + 1][h];
  }

  lemma UndoToFollows(w: Watch, o: Origin, was: seq<Block>, view: View, bottom: nat, gone: nat, a: nat)
    requires Follows(w, o, was, bottom, gone) && Forks(o, was, view.chain, bottom)
    requires bottom <= a <= w.scanned.value && a < |view.chain| && view.chain[..a + 1] == was[..a + 1] && a in w.seen
    requires FundingTold(w.maps, view, a)
    ensures Follows(UndoTo(w, view, o.order, a), o, view.chain, bottom, gone)
  {
    OffersBack(w.maps, o, was, view.chain, w.scanned.value, gone, a, view.Judge());
    VaultsBack(w.maps, o, was, view, w.scanned.value, a);
    RecordedBelow(w.seen, was, view.chain, bottom, w.scanned.value, a);
  }

  /** The descent ends on a block both chains have. */
  lemma {:induction false} DescentEnds(seen: map<nat, int>, view: View, from: nat, floor: nat, bottom: nat)
    requires bottom in seen && bottom <= from && floor <= bottom && (floor == bottom || floor + 1 == bottom)
    requires bottom < |view.chain| && view.chain[bottom].hash == seen[bottom]
    requires Descend(seen, view, from, floor).Some?
    ensures var a := Descend(seen, view, from, floor).value;
      bottom <= a <= from && a in seen && a < |view.chain| && seen[a] == view.chain[a].hash
    decreases from
  {
    if from <= floor || (from in seen && view.HashAt(from) == Some(seen[from])) {
    } else if from > bottom {
      DescentEnds(seen, view, from - 1, floor, bottom);
    }
  }

  /** A rewind goes no lower than just below the lowest block on record, and that low. */
  lemma FloorIs(seen: map<nat, int>, start: nat, depth: nat, bottom: nat)
    requires bottom in seen && (forall h :: h in seen ==> bottom <= h) && bottom <= start <= bottom + depth
    ensures var floor := Floor(seen, start, depth); floor <= bottom && (floor == bottom || floor + 1 == bottom)
  {
    assert Least(seen.Keys) == bottom;
  }

  /** A rewind lands on a block both chains have, and the watcher a record of. */
  lemma RewindLands(w: Watch, bottom: nat, depth: nat, was: seq<Block>, view: View)
    requires w.scanned.Some? && Recorded(w.seen, was, bottom, w.scanned.value) && w.scanned.value <= bottom + depth
    requires bottom < |view.chain| && view.chain[bottom].hash == was[bottom].hash && Commit(was, view.chain)
    requires RewindPoint(w, view, depth).Some?
    ensures var a := RewindPoint(w, view, depth).value;
      bottom <= a <= w.scanned.value && a in w.seen && a < |view.chain| && view.chain[..a + 1] == was[..a + 1]
  {
    var start := Min(w.scanned.value, |view.chain| - 1);
    FloorIs(w.seen, start, depth, bottom);
    DescentEnds(w.seen, view, start, Floor(w.seen, start, depth), bottom);
  }

  ghost predicate AllAheadSame(w: Watch, was: seq<Block>, chain: seq<Block>)
    requires w.scanned.Some?
  {
    forall id :: id in w.maps.vaults ==> AheadSame(w.maps.vaults[id], was, chain, w.scanned.value)
  }

  lemma KeptFollows(w: Watch, o: Origin, was: seq<Block>, view: View, bottom: nat, gone: nat)
    requires Follows(w, o, was, bottom, gone) && Forks(o, was, view.chain, bottom)
    requires Unmoved(w, view) && AllAheadSame(w, was, view.chain)
    ensures Follows(w, o, view.chain, bottom, gone)
  {
    var top := w.scanned.value;
    assert was[..top + 1] == view.chain[..top + 1];
    ChainAgree(was, view.chain, o.low, top);
    forall id | id in w.maps.vaults ensures Knows(w.maps.vaults[id], view.chain, o.low, top) {
      SameKnows(w.maps.vaults[id], was, view.chain, o.low, top);
    }
    forall h | h in w.seen ensures w.seen[h] == view.chain[h].hash {
      assert was[h] == was[..top + 1][h] == view.chain[..top + 1][h];
    }
  }

  // ---------------------------------------------------------------- onward

  lemma ReadOneMore(o: Origin, chain: seq<Block>, top: nat)
    requires o.low <= top && top + 1 < |chain|
    ensures Read(o.base, ChainSpends(chain, o.low, top + 1))
      == Read(Read(o.base, ChainSpends(chain, o.low, top)), BlockSpends(chain[top + 1].txs, top + 1))
  {
    ReadConcat(o.base, ChainSpends(chain, o.low, top), BlockSpends(chain[top + 1].txs, top + 1));
  }

  lemma BlockRead(m: Maps, o: Origin, chain: seq<Block>, top: nat, gone: nat)
    requires Holds(m, o, chain, top, gone) && top + 1 < |chain| && gone <= top + 1
    ensures var next, read := Read(m, BlockSpends(chain[top + 1].txs, top + 1)), Read(o.base, ChainSpends(chain, o.low, top + 1));
      next.offers == Trimmed(read.offers, gone) && next.byOffer == read.byOffer
  {
    ReadOneMore(o, chain, top);
    TrimReads(m, Read(o.base, ChainSpends(chain, o.low, top)), BlockSpends(chain[top + 1].txs, top + 1), gone);
  }

  lemma BlockHolds(m: Maps, o: Origin, chain: seq<Block>, top: nat, gone: nat)
    requires Holds(m, o, chain, top, gone) && top + 1 < |chain| && gone <= top + 1
    ensures Holds(Read(m, BlockSpends(chain[top + 1].txs, top + 1)), o, chain, top + 1, gone)
  {
    BlockRead(m, o, chain, top, gone);
    ReadsKnow(m, chain, o.low, top);
  }

  lemma RecordedMore(seen: map<nat, int>, chain: seq<Block>, bottom: nat, top: nat)
    requires Recorded(seen, chain, bottom, top) && top + 1 < |chain|
    ensures Recorded(seen[top + 1 := chain[top + 1].hash], chain, bottom, top + 1)
  {}

  lemma ReadsFollows(w: Watch, o: Origin, chain: seq<Block>, bottom: nat, gone: nat)
    requires Follows(w, o, chain, bottom, gone) && w.scanned.value + 1 < |chain|
    ensures Follows(Reads(w, chain[w.scanned.value + 1], w.scanned.value + 1), o, chain, bottom, gone)
  {
    BlockHolds(w.maps, o, chain, w.scanned.value, gone);
    RecordedMore(w.seen, chain, bottom, w.scanned.value);
  }

  lemma ForwardOne(w: Watch, view: View)
    requires w.scanned.Some?
    ensures var h := w.scanned.value + 1;
      Forward(w, view) == if view.BlockAt(h).None? then w else Forward(Reads(w, view.BlockAt(h).value, h), view)
  {}

  lemma {:induction false} ForwardFollows(w: Watch, o: Origin, view: View, bottom: nat, gone: nat)
    requires Follows(w, o, view.chain, bottom, gone)
    ensures Follows(Forward(w, view), o, view.chain, bottom, gone)
    decreases |view.chain| - w.scanned.value
  {
    var h := w.scanned.value + 1;
    ForwardOne(w, view);
    if view.BlockAt(h).Some? {
      ReadsFollows(w, o, view.chain, bottom, gone);
      ForwardFollows(Reads(w, view.chain[h], h), o, view, bottom, gone);
    }
  }

  /** With nothing in the index a block moves no offer. */
  lemma {:induction false} ReadNothing(m: Maps, es: seq<Spend>)
    requires Real(es) && m.byOffer == map[]
    ensures Read(m, es).offers == m.offers && Read(m, es).byOffer == map[]
  {
    if es != [] {
      ReadNothing(m, es[..|es| - 1]);
      var r, e := Read(m, es[..|es| - 1]), es[|es| - 1];
      assert Close(r, e).offers == r.offers && Close(r, e).byOffer == r.byOffer;
    }
  }

  lemma IdleHolds(m: Maps, o: Origin, chain: seq<Block>, top: nat, gone: nat, tip: nat)
    requires Holds(m, o, chain, top, gone) && top <= tip < |chain| && Idle(m)
    ensures Holds(m, o, chain, tip, gone)
  {
    var a, b := Halves(o, chain, top, tip);
    ReadNothing(Read(o.base, a), b);
    assert m.vaults == map[];
  }

  lemma RecordedTip(seen: map<nat, int>, view: View, bottom: nat, top: nat)
    requires Recorded(seen, view.chain, bottom, top) && top < |view.chain|
    requires view.HashAt(|view.chain| - 1).Some? || top == |view.chain| - 1
    ensures var tip := |view.chain| - 1;
      Recorded(if view.HashAt(tip).Some? then seen[tip := view.HashAt(tip).value] else seen, view.chain, bottom, tip)
  {}

  lemma OnwardFollows(r: Watch, o: Origin, view: View, bottom: nat, gone: nat)
    requires Follows(r, o, view.chain, bottom, gone)
    requires Idle(r.maps) ==> view.HashAt(|view.chain| - 1).Some? || r.scanned == Some(|view.chain| - 1)
    ensures Follows(Onward(r, view), o, view.chain, bottom, gone)
  {
    if Idle(r.maps) {
      IdleHolds(r.maps, o, view.chain, r.scanned.value, gone, |view.chain| - 1);
      RecordedTip(r.seen, view, bottom, r.scanned.value);
    } else {
      ForwardFollows(r, o, view, bottom, gone);
    }
  }

  // ------------------------------------------------------------- one poll

  /** The highest block read is still there. */
  predicate Unmoved(w: Watch, view: View)
    requires w.scanned.Some? && w.scanned.value in w.seen
  {
    w.scanned.value < |view.chain| && view.chain[w.scanned.value].hash == w.seen[w.scanned.value]
  }

  /** The node said enough of the chain: the highest block read is still there, or every hash
      asked on the way down to the fork was answered; and, tracking nothing, the tip's. */
  ghost predicate Heard(w: Watch, view: View, order: seq<Id>, depth: nat)
    requires w.scanned.Some? && w.scanned.value in w.seen && view.chain != []
  {
    && (Unmoved(w, view) || RewindPoint(w, view, depth).Some?)
    && var r := Rewound(w, view, order, depth);
       Idle(r.maps) ==> view.HashAt(|view.chain| - 1).Some? || r.scanned == Some(|view.chain| - 1)
  }

  /** ... and of the records that name blocks above what stays: the funding blocks above the
      fork were answered for, or, with no fork below the highest block read, no block named
      above it was replaced. */
  ghost predicate Told(w: Watch, was: seq<Block>, view: View, depth: nat)
    requires w.scanned.Some? && view.chain != []
  {
    match RewindPoint(w, view, depth)
    case Some(a) => FundingTold(w.maps, view, a)
    case None => AllAheadSame(w, was, view.chain)
  }

  lemma RewoundFollows(w: Watch, o: Origin, was: seq<Block>, view: View, bottom: nat, gone: nat)
    requires Follows(w, o, was, bottom, gone) && w.scanned.value <= bottom + o.depth && Forks(o, was, view.chain, bottom)
    requires Unmoved(w, view) || RewindPoint(w, view, o.depth).Some?
    requires Told(w, was, view, o.depth)
    ensures Follows(Rewound(w, view, o.order, o.depth), o, view.chain, bottom, gone)
  {
    if RewindPoint(w, view, o.depth).Some? {
      RewindLands(w, bottom, o.depth, was, view);
      UndoToFollows(w, o, was, view, bottom, gone, RewindPoint(w, view, o.depth).value);
    } else {
      KeptFollows(w, o, was, view, bottom, gone);
    }
  }

  /** Not every question answered and the top replaced: the record of the replaced block
      stays, whatever is read above it. */
  lemma {:induction false} ForwardKeeps(w: Watch, view: View, h: nat)
    requires w.scanned.Some? && h <= w.scanned.value && h in w.seen
    ensures var f := Forward(w, view);
      && f.scanned.Some? && f.scanned.value >= w.scanned.value && h in f.seen && f.seen[h] == w.seen[h]
      && (view.BlockAt(w.scanned.value + 1).Some? ==> f.scanned.value > w.scanned.value)
    ensures Forward(w, view) == w || (var f := Forward(w, view);
      f.scanned.value < |view.chain| && f.scanned.value in f.seen
      && f.seen[f.scanned.value] == view.chain[f.scanned.value].hash)
    decreases |view.chain| - w.scanned.value
  {
    var k := w.scanned.value + 1;
    ForwardOne(w, view);
    if view.BlockAt(k).Some? {
      var r := Reads(w, view.chain[k], k);
      assert r.scanned.value in r.seen && r.seen[r.scanned.value] == view.chain[k].hash && r.seen[h] == w.seen[h];
      ForwardKeeps(r, view, h);
    }
  }

  /** A record of a block the chain does not have stays. */
  lemma ReplacedFails(w: Watch, o: Origin, view: View, bottom: nat, gone: nat)
    requires w.scanned.Some? && w.scanned.value in w.seen && view.chain != []
    requires !Idle(w.maps) && !Unmoved(w, view) && RewindPoint(w, view, o.depth).None?
    ensures !Follows(Poll(w, view, o.order, o.depth), o, view.chain, bottom, gone)
  {
    ForwardKeeps(w, view, w.scanned.value);
  }

  /** Tracking nothing, a tip whose hash went unanswered is marked without a record. */
  lemma UnmarkedFails(w: Watch, o: Origin, view: View, bottom: nat, gone: nat)
    requires w.scanned.Some? && view.chain != []
    requires var r := Rewound(w, view, o.order, o.depth);
      Idle(r.maps) && r.scanned != Some(|view.chain| - 1) && Recorded(r.seen, view.chain, bottom, r.scanned.value)
    requires view.HashAt(|view.chain| - 1).None?
    ensures !Follows(Poll(w, view, o.order, o.depth), o, view.chain, bottom, gone)
  {
    assert |view.chain| - 1 !in Rewound(w, view, o.order, o.depth).seen;
  }

  lemma HeardFollows(w: Watch, o: Origin, was: seq<Block>, view: View, bottom: nat, gone: nat)
    requires Follows(w, o, was, bottom, gone) && w.scanned.value <= bottom + o.depth && Forks(o, was, view.chain, bottom)
    requires Told(w, was, view, o.depth) && Heard(w, view, o.order, o.depth)
    ensures Follows(Poll(w, view, o.order, o.depth), o, view.chain, bottom, gone)
  {
    RewoundFollows(w, o, was, view, bottom, gone);
    OnwardFollows(Rewound(w, view, o.order, o.depth), o, view, bottom, gone);
  }

  lemma Unheard(w: Watch, view: View, order: seq<Id>, depth: nat)
    requires w.scanned.Some? && w.scanned.value in w.seen && view.chain != [] && !Heard(w, view, order, depth)
    requires Unmoved(w, view) || RewindPoint(w, view, depth).Some?
    ensures var r := Rewound(w, view, order, depth);
      Idle(r.maps) && view.HashAt(|view.chain| - 1).None? && r.scanned != Some(|view.chain| - 1)
  {}

  lemma UnheardFails(w: Watch, o: Origin, was: seq<Block>, view: View, bottom: nat, gone: nat)
    requires Follows(w, o, was, bottom, gone) && w.scanned.value <= bottom + o.depth && Forks(o, was, view.chain, bottom)
    requires Told(w, was, view, o.depth) && !Idle(w.maps) && !Heard(w, view, o.order, o.depth)
    ensures !Follows(Poll(w, view, o.order, o.depth), o, view.chain, bottom, gone)
  {
    if Unmoved(w, view) || RewindPoint(w, view, o.depth).Some? {
      Unheard(w, view, o.order, o.depth);
      RewoundRecorded(w, o, was, view, bottom, gone);
      UnmarkedFails(w, o, view, bottom, gone);
    } else {
      ReplacedFails(w, o, view, bottom, gone);
    }
  }

  lemma RewoundRecorded(w: Watch, o: Origin, was: seq<Block>, view: View, bottom: nat, gone: nat)
    requires Follows(w, o, was, bottom, gone) && w.scanned.value <= bottom + o.depth && Forks(o, was, view.chain, bottom)
    requires Unmoved(w, view) || RewindPoint(w, view, o.depth).Some?
    requires Told(w, was, view, o.depth)
    ensures var r := Rewound(w, view, o.order, o.depth); r.scanned.Some? && Recorded(r.seen, view.chain, bottom, r.scanned.value)
  {
    RewoundFollows(w, o, was, view, bottom, gone);
  }

  /** A poll's scan leaves the watcher holding what the node's chain says when the node said
      enough, and for a watcher with anything to track only then. */
  lemma PollFollows(w: Watch, o: Origin, was: seq<Block>, view: View, bottom: nat, gone: nat)
    requires Follows(w, o, was, bottom, gone) && w.scanned.value <= bottom + o.depth && Forks(o, was, view.chain, bottom)
    requires Told(w, was, view, o.depth)
    ensures Heard(w, view, o.order, o.depth) ==> Follows(Poll(w, view, o.order, o.depth), o, view.chain, bottom, gone)
    ensures !Idle(w.maps) && Follows(Poll(w, view, o.order, o.depth), o, view.chain, bottom, gone) ==> Heard(w, view, o.order, o.depth)
  {
    if Heard(w, view, o.order, o.depth) {
      HeardFollows(w, o, was, view, bottom, gone);
    } else if !Idle(w.maps) {
      UnheardFails(w, o, was, view, bottom, gone);
    }
  }

  // -------------------------------------------------------- a missed reorg

  /** When the highest block read was replaced and a hash on the way down went unanswered,
      the mismatch is there for the next poll exactly when no block above was read; then
      nothing has changed at all. */
  lemma SilenceKeeps(w: Watch, view: View, order: seq<Id>, depth: nat)
    requires w.scanned.Some? && w.scanned.value in w.seen && view.chain != [] && !Idle(w.maps)
    requires !Unmoved(w, view) && RewindPoint(w, view, depth).None?
    ensures var p := Poll(w, view, order, depth);
      && p.scanned.Some? && p.scanned.value in p.seen
      && (!Unmoved(p, view) <==> view.BlockAt(w.scanned.value + 1).None?)
      && (view.BlockAt(w.scanned.value + 1).None? ==> p == w)
  {
    ForwardOne(w, view);
    ForwardKeeps(w, view, w.scanned.value);
  }

  lemma {:induction false} ReadKeepsSettled(m: Maps, es: seq<Spend>, id: Id)
    requires Real(es) && id in m.vaults && Settled(m.vaults[id])
    ensures id in Read(m, es).vaults && Read(m, es).vaults[id] == m.vaults[id]
  {
    if es != [] {
      ReadKeepsSettled(m, es[..|es| - 1], id);
      var r, e := Read(m, es[..|es| - 1]), es[|es| - 1];
      assert Step(r, e).vaults == Close(r, e).vaults;
    }
  }

  lemma {:induction false} ForwardKeepsSettled(w: Watch, view: View, id: Id)
    requires w.scanned.Some? && id in w.maps.vaults && Settled(w.maps.vaults[id])
    ensures id in Forward(w, view).maps.vaults && Forward(w, view).maps.vaults[id] == w.maps.vaults[id]
    decreases |view.chain| - w.scanned.value
  {
    var h := w.scanned.value + 1;
    ForwardOne(w, view);
    if view.BlockAt(h).Some? {
      ReadKeepsSettled(w.maps, BlockSpends(view.chain[h].txs, h), id);
      ForwardKeepsSettled(Reads(w, view.chain[h], h), view, id);
    }
  }

  /** A close the backward search found above the last block scanned is looked at by no scan
      that does not rewind: afterwards it is true exactly when the new chain has that spend. */
  lemma ClosedAheadStays(w: Watch, view: View, order: seq<Id>, depth: nat, id: Id)
    requires w.scanned.Some? && view.chain != [] && RewindPoint(w, view, depth).None?
    requires id in w.maps.vaults && Settled(w.maps.vaults[id]) && w.maps.vaults[id].spentHeight > w.scanned.value
    ensures var p := Poll(w, view, order, depth);
      id in p.maps.vaults && Settled(p.maps.vaults[id]) && (EndStands(p.maps.vaults[id], view.chain) <==> EndStands(w.maps.vaults[id], view.chain))
  {
    ForwardKeepsSettled(w, view, id);
  }
}
