/** Whole polls, one after another over any reorgs: the scan, every vault asked about, and
    what lies below the rescan depth forgotten. */
module Runs {
  import opened Wrappers
  import opened Scan
  import opened Node
  import opened Ends
  import opened Confluence
  import opened Polling
  import opened Ghosts

  /** One poll: the node as it is, the mempool transactions it handed over, the vaults it
      answered for, and where the backward search of each got to. */
  datatype Round = Round(view: View, mempool: seq<Tx>, decoded: seq<Tx>, asked: set<Id>, walks: map<Id, Walked>)

  ghost function RefreshOne(v: Vault, id: Id, r: Round, scanned: nat, rules: Rules): Vault
    requires r.view.chain != []
  {
    if id in r.asked && id in r.walks then Refresh(v, r.view, r.mempool, r.decoded, scanned, rules, r.walks[id]) else v
  }

  ghost function Refreshed(m: Maps, r: Round, scanned: nat, rules: Rules): Maps
    requires r.view.chain != []
  {
    m.(vaults := map id | id in m.vaults :: RefreshOne(m.vaults[id], id, r, scanned, rules))
  }

  /** Drop what is below a height: the block hashes, and the offers' moves. */
  function Forget(w: Watch, low: nat): Watch {
    Watch(w.maps.(offers := Trimmed(w.maps.offers, low)), w.scanned, map h | h in w.seen && h >= low :: w.seen[h])
  }

  function ForgetFloor(tip: nat, depth: nat): nat { if tip > depth then tip - depth else 0 }

  function ScannedTo(w: Watch): nat { if w.scanned.Some? then w.scanned.value else 0 }

  ghost function AfterScan(p: Watch, r: Round, rules: Rules): Watch
    requires r.view.chain != []
  {
    Forget(p.(maps := Refreshed(p.maps, r, ScannedTo(p), rules)), ForgetFloor(|r.view.chain| - 1, rules.rescanDepth))
  }

  /** A whole poll. */
  ghost function FullPoll(w: Watch, r: Round, order: seq<Id>, rules: Rules): Watch {
    if r.view.chain == [] then w else AfterScan(Poll(w, r.view, order, rules.rescanDepth), r, rules)
  }

  // ------------------------------------------------------------- what holds

  /** What the watcher holds is what the chain says, and it can rewind as far as its record
      of the chain goes. */
  ghost predicate Holding(w: Watch, o: Origin, chain: seq<Block>) {
    w.scanned.Some? && exists bottom: nat, gone: nat :: Follows(w, o, chain, bottom, gone) && w.scanned.value <= bottom + o.depth
  }

  /** What a node can answer: it hands over what is in its mempool, a search reports what is
      in its blocks, and its chain and mempool are ones there can be. */
  ghost predicate Plausible(m: Maps, r: Round, rules: Rules) {
    && r.view.chain != [] && From(r.decoded, r.mempool)
    && (forall id :: id in m.vaults && id in r.asked && id in r.walks ==> HonestWalk(r.view.chain, m.vaults[id], rules, r.walks[id]))
    && (forall coin :: Sane(r.view.chain, r.mempool, coin))
  }

  lemma RefreshedKnow(m: Maps, r: Round, low: nat, scanned: nat, rules: Rules)
    requires Plausible(m, r, rules) && low < |r.view.chain| && AllKnow(m, r.view.chain, low, scanned)
    ensures AllKnow(Refreshed(m, r, scanned, rules), r.view.chain, low, scanned)
  {
    var m' := Refreshed(m, r, scanned, rules);
    forall id | id in m'.vaults ensures m'.vaults[id].coin == m.vaults[id].coin && Knows(m'.vaults[id], r.view.chain, low, scanned) {
      RefreshOneKnows(m.vaults[id], id, r, low, scanned, rules, m);
    }
  }

  lemma RefreshedFollows(w: Watch, o: Origin, r: Round, rules: Rules, bottom: nat, gone: nat)
    requires r.view.chain != [] && Follows(w, o, r.view.chain, bottom, gone) && Plausible(w.maps, r, rules)
    ensures Follows(w.(maps := Refreshed(w.maps, r, ScannedTo(w), rules)), o, r.view.chain, bottom, gone)
  {
    RefreshedKnow(w.maps, r, o.low, w.scanned.value, rules);
  }

  lemma RefreshOneKnows(v: Vault, id: Id, r: Round, low: nat, scanned: nat, rules: Rules, m: Maps)
    requires id in m.vaults && v == m.vaults[id] && Plausible(m, r, rules) && low < |r.view.chain|
    requires Knows(v, r.view.chain, low, scanned)
    ensures Knows(RefreshOne(v, id, r, scanned, rules), r.view.chain, low, scanned)
    ensures SameLoan(RefreshOne(v, id, r, scanned, rules), v)
  {
    if id in r.asked && id in r.walks {
      assert Sane(r.view.chain, r.mempool, v.coin);
      RefreshKnows(v, r.view, r.mempool, r.decoded, low, scanned, rules, r.walks[id]);
      RefreshedSeen(v, r.view, r.mempool, r.decoded, scanned, rules, r.walks[id]);
    }
  }

  lemma ForgetRecorded(seen: map<nat, int>, chain: seq<Block>, bottom: nat, top: nat, low: nat) returns (lowest: nat)
    requires Recorded(seen, chain, bottom, top) && low <= top
    ensures Recorded(map h | h in seen && h >= low :: seen[h], chain, lowest, top)
    ensures bottom <= lowest && low <= lowest && lowest in seen
  {
    var kept := map h | h in seen && h >= low :: seen[h];
    assert top in kept;
    lowest := Least(kept.Keys);
  }

  /** What is known of the vaults does not hang on the offers. */
  lemma SameVaultsKnow(m: Maps, m': Maps, chain: seq<Block>, low: nat, top: nat)
    requires AllKnow(m, chain, low, top) && m'.vaults == m.vaults && m'.byOutpoint == m.byOutpoint
    ensures AllKnow(m', chain, low, top)
  {}

  lemma ForgetHolds(m: Maps, o: Origin, chain: seq<Block>, top: nat, gone: nat, low: nat)
    requires Holds(m, o, chain, top, gone)
    ensures Holds(m.(offers := Trimmed(m.offers, low)), o, chain, top, if gone < low then low else gone)
  {
    SameVaultsKnow(m, m.(offers := Trimmed(m.offers, low)), chain, o.low, top);
    TrimTwice(Read(o.base, ChainSpends(chain, o.low, top)).offers, gone, low);
  }

  /** Forgetting keeps all that can be rewound to. */
  lemma ForgetFollows(w: Watch, o: Origin, chain: seq<Block>, bottom: nat, gone: nat, tip: nat)
    requires Follows(w, o, chain, bottom, gone) && w.scanned.value <= tip && ForgetFloor(tip, o.depth) <= w.scanned.value
    ensures Holding(Forget(w, ForgetFloor(tip, o.depth)), o, chain)
  {
    var low := ForgetFloor(tip, o.depth);
    var f := Forget(w, low);
    var lowest := ForgetRecorded(w.seen, chain, bottom, w.scanned.value, low);
    var gone' := if gone < low then low else gone;
    ForgetHolds(w.maps, o, chain, w.scanned.value, gone, low);
    assert Follows(f, o, chain, lowest, gone') && f.scanned.value <= lowest + o.depth;
  }

  /** The scan got to within the rescan depth of the tip. */
  predicate CaughtUp(p: Watch, view: View, depth: nat) {
    p.scanned.Some? && view.chain != [] && ForgetFloor(|view.chain| - 1, depth) <= p.scanned.value
  }

  lemma AfterScanHolds(p: Watch, o: Origin, r: Round, rules: Rules, bottom: nat, gone: nat)
    requires r.view.chain != [] && rules.rescanDepth == o.depth && Follows(p, o, r.view.chain, bottom, gone)
    requires Plausible(p.maps, r, rules) && CaughtUp(p, r.view, o.depth)
    ensures Holding(AfterScan(p, r, rules), o, r.view.chain)
  {
    var q := p.(maps := Refreshed(p.maps, r, ScannedTo(p), rules));
    assert Follows(q, o, r.view.chain, bottom, gone) by { RefreshedFollows(p, o, r, rules, bottom, gone); }
    ForgetFollows(q, o, r.view.chain, bottom, gone, |r.view.chain| - 1);
  }

  /** A scan left further behind forgets the block it stands on. */
  lemma FallenBehind(p: Watch, o: Origin, r: Round, rules: Rules)
    requires r.view.chain != [] && rules.rescanDepth == o.depth && p.scanned.Some? && !CaughtUp(p, r.view, o.depth)
    ensures !Holding(AfterScan(p, r, rules), o, r.view.chain)
  {
    assert p.scanned.value !in AfterScan(p, r, rules).seen;
  }

  /** What the node can do between two polls: it forks above the lowest block on record. */
  ghost predicate Possible(w: Watch, o: Origin, was: seq<Block>, r: Round, rules: Rules) {
    && w.scanned.Some? && w.scanned.value in w.seen && r.view.chain != [] && rules.rescanDepth == o.depth
    && Forks(o, was, r.view.chain, Least(w.seen.Keys))
    && Plausible(Poll(w, r.view, o.order, o.depth).maps, r, rules)
  }

  /** What it has to say in a poll for the watcher to hold what the chain says. */
  ghost predicate Enough(w: Watch, o: Origin, was: seq<Block>, r: Round) {
    && w.scanned.Some? && w.scanned.value in w.seen && r.view.chain != []
    && Heard(w, r.view, o.order, o.depth) && Told(w, was, r.view, o.depth)
    && CaughtUp(Poll(w, r.view, o.order, o.depth), r.view, o.depth)
  }

  lemma HoldingFrom(w: Watch, o: Origin, chain: seq<Block>) returns (bottom: nat, gone: nat)
    requires Holding(w, o, chain)
    ensures Follows(w, o, chain, bottom, gone) && w.scanned.value <= bottom + o.depth
    ensures w.seen != map[] && bottom == Least(w.seen.Keys)
  {
    bottom, gone :| Follows(w, o, chain, bottom, gone) && w.scanned.value <= bottom + o.depth;
  }

  /** The scan of a poll. */
  lemma ScanFollows(w: Watch, o: Origin, was: seq<Block>, r: Round, rules: Rules) returns (bottom: nat, gone: nat)
    requires Holding(w, o, was) && Possible(w, o, was, r, rules) && Enough(w, o, was, r)
    ensures Follows(Poll(w, r.view, o.order, o.depth), o, r.view.chain, bottom, gone)
  {
    bottom, gone := HoldingFrom(w, o, was);
    HeardFollows(w, o, was, r.view, bottom, gone);
  }

  /** A whole poll, over any reorg and with any other question unanswered. */
  lemma FullPollHolds(w: Watch, o: Origin, was: seq<Block>, r: Round, rules: Rules)
    requires Holding(w, o, was) && Possible(w, o, was, r, rules) && Enough(w, o, was, r)
    ensures Holding(FullPoll(w, r, o.order, rules), o, r.view.chain)
  {
    var bottom, gone := ScanFollows(w, o, was, r, rules);
    AfterScanHolds(Poll(w, r.view, o.order, o.depth), o, r, rules, bottom, gone);
  }

  // ----------------------------------------------------------------- a run

  function Started(o: Origin): Watch { Watch(o.base, None, map[]) }

  ghost function Polled(w: Watch, rounds: seq<Round>, order: seq<Id>, rules: Rules): Watch {
    if rounds == [] then w
    else FullPoll(Polled(w, rounds[..|rounds| - 1], order, rules), rounds[|rounds| - 1], order, rules)
  }

  /** The first poll sets the height the watcher starts from, and has its hash. */
  ghost predicate Starts(o: Origin, r: Round, rules: Rules) {
    && Placed(o) && rules.rescanDepth == o.depth && |r.view.chain| == o.low + 1 && r.view.HashAt(o.low).Some?
    && Readable(o.base, o.low, r.view.chain) && AllKnow(o.base, r.view.chain, o.low, o.low)
    && Plausible(o.base, r, rules)
  }

  lemma {:induction false} SinceAll(history: seq<Move>)
    ensures Since(history, 0) == history
  {
    if history != [] {
      SinceAll(history[..|history| - 1]);
    }
  }

  /** The first poll establishes what every later one keeps. */
  lemma FirstHolds(o: Origin, r: Round, rules: Rules)
    requires Starts(o, r, rules)
    ensures Holding(FullPoll(Started(o), r, o.order, rules), o, r.view.chain)
  {
    var p := Poll(Started(o), r.view, o.order, o.depth);
    assert ChainSpends(r.view.chain, o.low, o.low) == [];
    forall id | id in o.base.offers ensures Trim(o.base.offers[id], 0) == o.base.offers[id] {
      SinceAll(o.base.offers[id].history);
    }
    assert Follows(p, o, r.view.chain, o.low, 0);
    AfterScanHolds(p, o, r, rules, o.low, 0);
  }

  ghost predicate Continues(w: Watch, o: Origin, was: seq<Block>, r: Round, rules: Rules) {
    Possible(w, o, was, r, rules) && Enough(w, o, was, r)
  }

  /** A run of polls over chains the node can move between, the node saying enough in each. */
  ghost predicate Went(o: Origin, rounds: seq<Round>, rules: Rules) {
    && rounds != [] && Starts(o, rounds[0], rules)
    && forall i :: 0 < i < |rounds| ==> Continues(Polled(Started(o), rounds[..i], o.order, rules), o, rounds[i - 1].view.chain, rounds[i], rules)
  }

  lemma WentBefore(o: Origin, rounds: seq<Round>, rules: Rules)
    requires |rounds| > 1 && Went(o, rounds, rules)
    ensures Went(o, rounds[..|rounds| - 1], rules)
  {
    var before := rounds[..|rounds| - 1];
    forall i | 0 < i < |before| ensures Continues(Polled(Started(o), before[..i], o.order, rules), o, before[i - 1].view.chain, before[i], rules) {
      assert before[..i] == rounds[..i];
      assert Continues(Polled(Started(o), rounds[..i], o.order, rules), o, rounds[i - 1].view.chain, rounds[i], rules);
    }
  }

  lemma LastContinues(o: Origin, rounds: seq<Round>, rules: Rules)
    requires |rounds| > 1 && Went(o, rounds, rules)
    ensures var n := |rounds| - 1;
      Continues(Polled(Started(o), rounds[..n], o.order, rules), o, rounds[..n][n - 1].view.chain, rounds[n], rules)
  {
    var n := |rounds| - 1;
    assert Continues(Polled(Started(o), rounds[..n], o.order, rules), o, rounds[n - 1].view.chain, rounds[n], rules);
  }

  lemma NextHolds(o: Origin, rounds: seq<Round>, rules: Rules)
    requires |rounds| > 1 && Went(o, rounds, rules)
    requires var n := |rounds| - 1; Holding(Polled(Started(o), rounds[..n], o.order, rules), o, rounds[..n][n - 1].view.chain)
    ensures Holding(Polled(Started(o), rounds, o.order, rules), o, rounds[|rounds| - 1].view.chain)
  {
    var n := |rounds| - 1;
    LastContinues(o, rounds, rules);
    FullPollHolds(Polled(Started(o), rounds[..n], o.order, rules), o, rounds[..n][n - 1].view.chain, rounds[n], rules);
  }

  /** After any run of whole polls over any reorgs the watcher holds what the last chain says. */
  lemma {:induction false} RunHolds(o: Origin, rounds: seq<Round>, rules: Rules)
    requires Went(o, rounds, rules)
    ensures Holding(Polled(Started(o), rounds, o.order, rules), o, rounds[|rounds| - 1].view.chain)
  {
    if |rounds| == 1 {
      assert Polled(Started(o), rounds[..0], o.order, rules) == Started(o);
      FirstHolds(o, rounds[0], rules);
    } else {
      WentBefore(o, rounds, rules);
      RunHolds(o, rounds[..|rounds| - 1], rules);
      NextHolds(o, rounds, rules);
    }
  }

  // -------------------------------------------------- whatever went before

  predicate SameLoan(v: Vault, w: Vault) { v.coin == w.coin && v.singleLeaf == w.singleLeaf && v.leafNames == w.leafNames }

  ghost predicate SameLoans(m: Maps, b: Maps) {
    m.vaults.Keys == b.vaults.Keys && forall id :: id in m.vaults ==> SameLoan(m.vaults[id], b.vaults[id])
  }

  lemma {:induction false} ReadLoans(m: Maps, es: seq<Spend>)
    requires Real(es)
    ensures SameLoans(Read(m, es), m)
  {
    if es != [] {
      ReadLoans(m, es[..|es| - 1]);
      var r, e := Read(m, es[..|es| - 1]), es[|es| - 1];
      assert Step(r, e).vaults == Close(r, e).vaults;
    }
  }

  lemma {:induction false} ForwardLoans(w: Watch, view: View)
    requires w.scanned.Some?
    ensures SameLoans(Forward(w, view).maps, w.maps)
    decreases |view.chain| - w.scanned.value
  {
    var h := w.scanned.value + 1;
    ForwardOne(w, view);
    if view.BlockAt(h).Some? {
      var r := Reads(w, view.chain[h], h);
      ReadLoans(w.maps, BlockSpends(view.chain[h].txs, h));
      ForwardLoans(r, view);
      SameLoansThrice(Forward(r, view).maps, r.maps, w.maps);
    }
  }

  lemma SameLoansThrice(a: Maps, b: Maps, c: Maps)
    requires SameLoans(a, b) && SameLoans(b, c)
    ensures SameLoans(a, c)
  {
    forall id | id in a.vaults ensures SameLoan(a.vaults[id], c.vaults[id]) {
      assert SameLoan(a.vaults[id], b.vaults[id]) && SameLoan(b.vaults[id], c.vaults[id]);
    }
  }

  lemma UndoLoans(m: Maps, order: seq<Id>, a: nat, judge: (nat, int) -> bool)
    ensures SameLoans(Undo(m, order, a, judge), m)
  {}

  lemma PollLoans(w: Watch, view: View, order: seq<Id>, depth: nat)
    requires view.chain != []
    ensures SameLoans(Poll(w, view, order, depth).maps, w.maps)
  {
    if w.scanned.Some? {
      var r := Rewound(w, view, order, depth);
      if RewindPoint(w, view, depth).Some? {
        UndoLoans(w.maps, order, RewindPoint(w, view, depth).value, view.Judge());
      }
      if !Idle(r.maps) {
        ForwardLoans(r, view);
        SameLoansThrice(Forward(r, view).maps, r.maps, w.maps);
      }
    }
  }

  lemma FullPollLoans(w: Watch, r: Round, order: seq<Id>, rules: Rules)
    ensures SameLoans(FullPoll(w, r, order, rules).maps, w.maps)
  {
    if r.view.chain != [] {
      var p := Poll(w, r.view, order, rules.rescanDepth);
      PollLoans(w, r.view, order, rules.rescanDepth);
      forall id | id in p.maps.vaults ensures SameLoan(RefreshOne(p.maps.vaults[id], id, r, ScannedTo(p), rules), p.maps.vaults[id]) {
        if id in r.asked && id in r.walks {
          RefreshedSeen(p.maps.vaults[id], r.view, r.mempool, r.decoded, ScannedTo(p), rules, r.walks[id]);
        }
      }
      assert SameLoans(FullPoll(w, r, order, rules).maps, p.maps);
      SameLoansThrice(FullPoll(w, r, order, rules).maps, p.maps, w.maps);
    }
  }

  lemma {:induction false} RunLoans(o: Origin, rounds: seq<Round>, rules: Rules)
    ensures SameLoans(Polled(Started(o), rounds, o.order, rules).maps, o.base)
  {
    if rounds != [] {
      var n := |rounds| - 1;
      var w := Polled(Started(o), rounds[..n], o.order, rules);
      RunLoans(o, rounds[..n], rules);
      FullPollLoans(w, rounds[n], o.order, rules);
      SameLoansThrice(Polled(Started(o), rounds, o.order, rules).maps, w.maps, o.base);
    }
  }

  /** Two watchers agree: on where every offer rests, on the index, and on every end of a
      vault read from a block. */
  ghost predicate Agree(a: Maps, b: Maps, low: nat, top: nat) {
    && a.byOffer == b.byOffer && a.offers.Keys == b.offers.Keys && a.vaults.Keys == b.vaults.Keys
    && (forall id :: id in a.offers ==> a.offers[id].(history := []) == b.offers[id].(history := []))
    && (forall id :: id in a.vaults ==> ReadEnd(a.vaults[id], low, top) == ReadEnd(b.vaults[id], low, top))
  }

  lemma HoldersAgree(a: Watch, b: Watch, o: Origin, chain: seq<Block>)
    requires Holding(a, o, chain) && Holding(b, o, chain) && a.scanned == b.scanned
    requires SameLoans(a.maps, o.base) && SameLoans(b.maps, o.base) && forall coin :: Sane(chain, [], coin)
    ensures Agree(a.maps, b.maps, o.low, a.scanned.value)
  {
    var top := a.scanned.value;
    var bottomA: nat, goneA: nat :| Follows(a, o, chain, bottomA, goneA);
    var bottomB: nat, goneB: nat :| Follows(b, o, chain, bottomB, goneB);
    forall id | id in a.maps.vaults ensures ReadEnd(a.maps.vaults[id], o.low, top) == ReadEnd(b.maps.vaults[id], o.low, top) {
      assert SameLoan(a.maps.vaults[id], o.base.vaults[id]) && SameLoan(b.maps.vaults[id], o.base.vaults[id]);
      EndsAgree(a.maps.vaults[id], b.maps.vaults[id], chain, o.low, top);
    }
    OffersAgree(a.maps.offers, b.maps.offers, Read(o.base, ChainSpends(chain, o.low, top)).offers, goneA, goneB);
  }

  lemma OffersAgree(a: map<Id, Offer>, b: map<Id, Offer>, read: map<Id, Offer>, goneA: nat, goneB: nat)
    requires a == Trimmed(read, goneA) && b == Trimmed(read, goneB)
    ensures a.Keys == b.Keys && forall id :: id in a ==> a[id].(history := []) == b[id].(history := [])
  {}

  lemma LastSane(o: Origin, rounds: seq<Round>, rules: Rules)
    requires Went(o, rounds, rules)
    ensures var r := rounds[|rounds| - 1];
      r.view.chain != [] && forall coin :: Sane(r.view.chain, r.mempool, coin) && Sane(r.view.chain, [], coin)
  {
    var r := rounds[|rounds| - 1];
    if |rounds| > 1 {
      LastContinues(o, rounds, rules);
    }
    forall coin ensures Sane(r.view.chain, [], coin) {
      assert Sane(r.view.chain, r.mempool, coin);
    }
  }

  /** Two watchers that started alike and stand at the same height of the same chain agree,
      whatever branches each of them read and took back, in whatever polls. */
  lemma HistoryIndependent(o: Origin, a: seq<Round>, b: seq<Round>, rules: Rules)
    requires Went(o, a, rules) && Went(o, b, rules) && a[|a| - 1].view.chain == b[|b| - 1].view.chain
    requires Polled(Started(o), a, o.order, rules).scanned == Polled(Started(o), b, o.order, rules).scanned
    ensures Agree(Polled(Started(o), a, o.order, rules).maps, Polled(Started(o), b, o.order, rules).maps, o.low, ScannedTo(Polled(Started(o), a, o.order, rules)))
  {
    RunHolds(o, a, rules);
    RunHolds(o, b, rules);
    RunLoans(o, a, rules);
    RunLoans(o, b, rules);
    LastSane(o, a, rules);
    HoldersAgree(Polled(Started(o), a, o.order, rules), Polled(Started(o), b, o.order, rules), o, a[|a| - 1].view.chain);
  }

  // ---------------------------------------------------------------- ghosts

  /** A poll in which everything was answered. */
  ghost predicate AllAnswered(m: Maps, r: Round) {
    Answers(r.view) && r.decoded == r.mempool && forall id :: id in m.vaults ==> id in r.asked && id in r.walks
  }

  lemma {:induction false} ForwardReaches(w: Watch, view: View)
    requires w.scanned.Some? && w.scanned.value < |view.chain| && Answers(view)
    ensures Forward(w, view).scanned == Some(|view.chain| - 1)
    decreases |view.chain| - w.scanned.value
  {
    var h := w.scanned.value + 1;
    ForwardOne(w, view);
    if h < |view.chain| {
      ForwardReaches(Reads(w, view.chain[h], h), view);
    }
  }

  lemma {:induction false} DescendsDown(seen: map<nat, int>, view: View, from: nat, floor: nat)
    ensures Descend(seen, view, from, floor).Some? ==> Descend(seen, view, from, floor).value <= from
  {
    if from > floor {
      DescendsDown(seen, view, from - 1, floor);
    }
  }

  lemma PollReaches(w: Watch, view: View, order: seq<Id>, depth: nat)
    requires w.scanned.Some? && w.scanned.value in w.seen && view.chain != [] && Heard(w, view, order, depth) && Answers(view)
    ensures Poll(w, view, order, depth).scanned == Some(|view.chain| - 1)
  {
    var start := Min(w.scanned.value, |view.chain| - 1);
    DescendsDown(w.seen, view, start, Floor(w.seen, start, depth));
    var r := Rewound(w, view, order, depth);
    if !Idle(r.maps) {
      ForwardReaches(r, view);
    }
  }

  ghost predicate NoneWronglyGhost(vaults: map<Id, Vault>, r: Round) {
    forall id :: id in vaults ==> RightlyGhost(vaults[id], r.view.chain, r.mempool)
  }

  ghost predicate RightAtTip(w: Watch, r: Round) {
    w.scanned == Some(|r.view.chain| - 1) && NoneWronglyGhost(w.maps.vaults, r)
  }

  lemma RefreshedRightly(v: Vault, id: Id, r: Round, low: nat, rules: Rules, m: Maps)
    requires id in m.vaults && v == m.vaults[id] && Plausible(m, r, rules) && AllAnswered(m, r) && low < |r.view.chain|
    requires Knows(v, r.view.chain, low, |r.view.chain| - 1)
    ensures RightlyGhost(RefreshOne(v, id, r, |r.view.chain| - 1, rules), r.view.chain, r.mempool)
  {
    assert Sane(r.view.chain, r.mempool, v.coin);
    var tip := |r.view.chain| - 1;
    assert RefreshOne(v, id, r, tip, rules) == Refresh(v, r.view, r.mempool, r.mempool, tip, rules, r.walks[id]);
    RefreshRightly(v, r.view, r.mempool, low, rules, r.walks[id]);
  }

  lemma RefreshedAt(m: Maps, id: Id, r: Round, scanned: nat, rules: Rules)
    requires r.view.chain != [] && id in m.vaults
    ensures id in Refreshed(m, r, scanned, rules).vaults
    ensures Refreshed(m, r, scanned, rules).vaults[id] == RefreshOne(m.vaults[id], id, r, scanned, rules)
  {}

  lemma RightlyAt(m: Maps, id: Id, r: Round, low: nat, rules: Rules)
    requires id in m.vaults && Plausible(m, r, rules) && AllAnswered(m, r) && low < |r.view.chain|
    requires Knows(m.vaults[id], r.view.chain, low, |r.view.chain| - 1)
    ensures id in Refreshed(m, r, |r.view.chain| - 1, rules).vaults
    ensures RightlyGhost(Refreshed(m, r, |r.view.chain| - 1, rules).vaults[id], r.view.chain, r.mempool)
  {
    RefreshedAt(m, id, r, |r.view.chain| - 1, rules);
    RefreshedRightly(m.vaults[id], id, r, low, rules, m);
  }

  lemma AllRightly(m: Maps, vaults: map<Id, Vault>, low: nat, r: Round, rules: Rules)
    requires r.view.chain != [] && low < |r.view.chain| && vaults == Refreshed(m, r, |r.view.chain| - 1, rules).vaults
    requires AllKnow(m, r.view.chain, low, |r.view.chain| - 1) && Plausible(m, r, rules) && AllAnswered(m, r)
    ensures NoneWronglyGhost(vaults, r)
  {
    forall id | id in vaults ensures RightlyGhost(vaults[id], r.view.chain, r.mempool) {
      RightlyAt(m, id, r, low, rules);
    }
  }

  lemma AfterScanVaults(p: Watch, r: Round, rules: Rules)
    requires r.view.chain != [] && p.scanned == Some(|r.view.chain| - 1)
    ensures AfterScan(p, r, rules).maps.vaults == Refreshed(p.maps, r, |r.view.chain| - 1, rules).vaults
    ensures AfterScan(p, r, rules).scanned == p.scanned
  {}

  /** What is left of a poll when everything is answered and the scan is at the tip. */
  lemma AfterScanRightly(p: Watch, low: nat, r: Round, rules: Rules)
    requires r.view.chain != [] && low < |r.view.chain| && p.scanned == Some(|r.view.chain| - 1)
    requires AllKnow(p.maps, r.view.chain, low, |r.view.chain| - 1) && Plausible(p.maps, r, rules) && AllAnswered(p.maps, r)
    ensures RightAtTip(AfterScan(p, r, rules), r)
  {
    AfterScanVaults(p, r, rules);
    AllRightly(p.maps, AfterScan(p, r, rules).maps.vaults, low, r, rules);
  }

  /** Over every run of polls and reorgs, a last poll in which everything is answered leaves
      the watcher at the tip, holding what the chain says, and a vault seen unspent in this
      run and called a ghost is one whose funding is nowhere, unless the mempool holds what
      spends it. */
  lemma RunIsSound(o: Origin, rounds: seq<Round>, rules: Rules)
    requires Went(o, rounds, rules) && AllAnswered(o.base, rounds[|rounds| - 1])
    ensures Holding(Polled(Started(o), rounds, o.order, rules), o, rounds[|rounds| - 1].view.chain)
    ensures RightAtTip(Polled(Started(o), rounds, o.order, rules), rounds[|rounds| - 1])
  {
    RunHolds(o, rounds, rules);
    if |rounds| == 1 {
      assert Polled(Started(o), rounds[..0], o.order, rules) == Started(o);
      FirstRightly(o, rounds[0], rules);
    } else {
      LaterRightly(o, rounds, rules);
    }
  }

  lemma LaterRightly(o: Origin, rounds: seq<Round>, rules: Rules)
    requires |rounds| > 1 && Went(o, rounds, rules) && AllAnswered(o.base, rounds[|rounds| - 1])
    ensures RightAtTip(Polled(Started(o), rounds, o.order, rules), rounds[|rounds| - 1])
  {
    var n := |rounds| - 1;
    WentBefore(o, rounds, rules);
    RunHolds(o, rounds[..n], rules);
    RunLoans(o, rounds[..n], rules);
    LastContinues(o, rounds, rules);
    var w := Polled(Started(o), rounds[..n], o.order, rules);
    LastRightly(w, o, rounds[..n][n - 1].view.chain, rounds[n], rules);
    assert Polled(Started(o), rounds, o.order, rules) == FullPoll(w, rounds[n], o.order, rules);
  }

  lemma FirstRightly(o: Origin, r: Round, rules: Rules)
    requires Starts(o, r, rules) && AllAnswered(o.base, r)
    ensures RightAtTip(FullPoll(Started(o), r, o.order, rules), r)
  {
    AfterScanRightly(Poll(Started(o), r.view, o.order, o.depth), o.low, r, rules);
  }

  lemma AnsweredStill(w: Watch, o: Origin, r: Round)
    requires AllAnswered(o.base, r) && SameLoans(w.maps, o.base) && r.view.chain != []
    ensures AllAnswered(Poll(w, r.view, o.order, o.depth).maps, r)
  {
    PollLoans(w, r.view, o.order, o.depth);
  }

  lemma LastReaches(w: Watch, o: Origin, was: seq<Block>, r: Round, rules: Rules)
    requires Continues(w, o, was, r, rules) && Answers(r.view)
    ensures Poll(w, r.view, o.order, o.depth).scanned == Some(|r.view.chain| - 1)
  {
    PollReaches(w, r.view, o.order, o.depth);
  }

  lemma LastRightly(w: Watch, o: Origin, was: seq<Block>, r: Round, rules: Rules)
    requires Holding(w, o, was) && Continues(w, o, was, r, rules) && AllAnswered(o.base, r) && SameLoans(w.maps, o.base)
    ensures RightAtTip(FullPoll(w, r, o.order, rules), r)
  {
    var p := Poll(w, r.view, o.order, o.depth);
    var bottom, gone := ScanFollows(w, o, was, r, rules);
    LastReaches(w, o, was, r, rules);
    AnsweredStill(w, o, r);
    ScannedRightly(p, o, r, rules, bottom, gone);
  }

  lemma ScannedRightly(p: Watch, o: Origin, r: Round, rules: Rules, bottom: nat, gone: nat)
    requires r.view.chain != [] && Follows(p, o, r.view.chain, bottom, gone) && p.scanned == Some(|r.view.chain| - 1)
    requires Plausible(p.maps, r, rules) && AllAnswered(p.maps, r)
    ensures RightAtTip(AfterScan(p, r, rules), r)
  {
    AfterScanRightly(p, o.low, r, rules);
  }

  // -------------------------------------------------------- a missed reorg

  /** An offer that no block of the chain moves: it is not open, or it is open on a coin the
      chain does not spend, and in the index there alone. */
  ghost predicate Stays(m: Maps, id: Id, chain: seq<Block>) {
    && id in m.offers
    && (m.offers[id].status == Open ==>
          && !ChainSpent(chain, m.offers[id].coin)
          && forall op :: op in m.byOffer && m.byOffer[op] == id ==> op == m.offers[id].coin)
  }

  lemma StepKeepsOffer(m: Maps, e: Spend, id: Id, chain: seq<Block>)
    requires e.k < |e.tx.vin| && Stays(m, id, chain) && ChainSpent(chain, e.tx.vin[e.k].prev)
    ensures var s := Step(m, e);
      Stays(s, id, chain) && s.offers[id] == m.offers[id] && s.byOutpoint == m.byOutpoint
  {
    StepOffer(m, e);
    var key := e.tx.vin[e.k].prev;
    if m.offers[id].status == Open {
      assert key in m.byOffer ==> m.byOffer[key] != id;
    }
  }

  lemma StepOffer(m: Maps, e: Spend)
    requires e.k < |e.tx.vin|
    ensures var c, s := Close(m, e), Step(m, e);
      && c.offers == m.offers && c.byOffer == m.byOffer && s == MoveOffer(c, e) && s.byOutpoint == m.byOutpoint
  {}

  lemma {:induction false} ReadKeepsOffer(m: Maps, es: seq<Spend>, id: Id, chain: seq<Block>)
    requires Real(es) && Stays(m, id, chain)
    requires forall i :: 0 <= i < |es| ==> ChainSpent(chain, es[i].tx.vin[es[i].k].prev)
    ensures var r := Read(m, es);
      Stays(r, id, chain) && r.offers[id] == m.offers[id] && r.byOutpoint == m.byOutpoint
  {
    if es != [] {
      ReadKeepsOffer(m, es[..|es| - 1], id, chain);
      StepKeepsOffer(Read(m, es[..|es| - 1]), es[|es| - 1], id, chain);
    }
  }

  lemma BlockKeepsOffer(m: Maps, h: nat, id: Id, chain: seq<Block>)
    requires h < |chain| && Stays(m, id, chain)
    ensures var r := Read(m, BlockSpends(chain[h].txs, h));
      Stays(r, id, chain) && r.offers[id] == m.offers[id] && r.byOutpoint == m.byOutpoint
  {
    var es := BlockSpends(chain[h].txs, h);
    forall i | 0 <= i < |es| ensures ChainSpent(chain, es[i].tx.vin[es[i].k].prev) {
      var coin := es[i].tx.vin[es[i].k].prev;
      assert Touched(es, coin) by { assert Spends(es[i].tx, es[i].k, coin); }
      BlockTouched(chain[h].txs, h, coin);
    }
    ReadKeepsOffer(m, es, id, chain);
  }

  /** Reading on: such an offer stays, and the last block read is the chain's. */
  lemma {:induction false} ForwardKeepsOffer(w: Watch, view: View, id: Id)
    requires w.scanned.Some? && Stays(w.maps, id, view.chain)
    ensures var f := Forward(w, view);
      && Stays(f.maps, id, view.chain) && f.maps.offers[id] == w.maps.offers[id] && f.maps.byOutpoint == w.maps.byOutpoint
      && f.scanned.Some? && (f == w || (f.scanned.value in f.seen && Unmoved(f, view)))
      && (view.BlockAt(w.scanned.value + 1).Some? ==> f.scanned.value in f.seen && Unmoved(f, view))
    decreases |view.chain| - w.scanned.value
  {
    var h := w.scanned.value + 1;
    ForwardOne(w, view);
    if view.BlockAt(h).Some? {
      var r := Reads(w, view.chain[h], h);
      BlockKeepsOffer(w.maps, h, id, view.chain);
      ForwardKeepsOffer(r, view, id);
      assert r.scanned.value in r.seen && Unmoved(r, view);
    }
  }

  /** Nothing on record says that the block read last is not the chain's. */
  predicate Unsuspecting(w: Watch, view: View) {
    w.scanned.Some? && (w.scanned.value in w.seen ==> Unmoved(w, view))
  }

  /** What a poll does after the scan keeps where an offer is. */
  lemma AfterScanKeepsOffer(p: Watch, r: Round, rules: Rules, id: Id)
    requires r.view.chain != [] && Stays(p.maps, id, r.view.chain)
    ensures var f := AfterScan(p, r, rules);
      && Stays(f.maps, id, r.view.chain) && f.maps.byOutpoint == p.maps.byOutpoint
      && f.maps.offers[id].(history := []) == p.maps.offers[id].(history := [])
  {}

  /** The watcher suspects nothing, and the offer is where it was. */
  ghost predicate StillThere(w: Watch, f: Watch, id: Id, view: View) {
    && Unsuspecting(f, view) && Stays(f.maps, id, view.chain) && f.maps.byOutpoint == w.maps.byOutpoint
    && id in w.maps.offers && f.maps.offers[id].(history := []) == w.maps.offers[id].(history := [])
  }

  lemma StillThereOn(w: Watch, f: Watch, g: Watch, id: Id, view: View, next: View)
    requires StillThere(w, f, id, view) && StillThere(f, g, id, next) && view.chain == next.chain
    ensures StillThere(w, g, id, view)
  {}

  /** One poll by a watcher that does not rewind leaves an offer that the chain leaves. */
  lemma UnsuspectingKeeps(w: Watch, r: Round, order: seq<Id>, rules: Rules, id: Id)
    requires w.scanned.Some? && r.view.chain != [] && RewindPoint(w, r.view, rules.rescanDepth).None?
    requires Unsuspecting(w, r.view) || r.view.BlockAt(w.scanned.value + 1).Some?
    requires Stays(w.maps, id, r.view.chain) && !Idle(w.maps)
    ensures StillThere(w, FullPoll(w, r, order, rules), id, r.view)
  {
    ForwardKeepsOffer(w, r.view, id);
    assert Poll(w, r.view, order, rules.rescanDepth) == Forward(w, r.view);
    AfterScanKeepsOffer(Forward(w, r.view), r, rules, id);
  }

  /** One unanswered hash on the way down, with a block to read above: every later poll of the
      same chain, whatever is answered, keeps where the replaced block took an offer, ended or
      on a coin this chain knows nothing of. */
  lemma {:induction false} MissedForGood(w: Watch, rounds: seq<Round>, order: seq<Id>, rules: Rules, id: Id)
    requires w.scanned.Some? && rounds != [] && rounds[0].view.chain != []
    requires forall i :: 0 <= i < |rounds| ==> rounds[i].view.chain == rounds[0].view.chain
    requires RewindPoint(w, rounds[0].view, rules.rescanDepth).None? && rounds[0].view.BlockAt(w.scanned.value + 1).Some?
    requires Stays(w.maps, id, rounds[0].view.chain) && w.maps.byOutpoint != map[]
    ensures StillThere(w, Polled(w, rounds, order, rules), id, rounds[0].view)
  {
    var n := |rounds| - 1;
    PolledLast(w, rounds, order, rules);
    if n == 0 {
      UnsuspectingKeeps(w, rounds[0], order, rules, id);
    } else {
      assert forall i :: 0 <= i < n ==> rounds[..n][i] == rounds[i];
      MissedForGood(w, rounds[..n], order, rules, id);
      OneMorePoll(w, Polled(w, rounds[..n], order, rules), rounds[n], order, rules, id, rounds[0].view);
    }
  }

  lemma PolledLast(w: Watch, rounds: seq<Round>, order: seq<Id>, rules: Rules)
    requires rounds != []
    ensures var n := |rounds| - 1;
      Polled(w, rounds, order, rules) == FullPoll(if n == 0 then w else Polled(w, rounds[..n], order, rules), rounds[n], order, rules)
  {}

  lemma OneMorePoll(w: Watch, f: Watch, r: Round, order: seq<Id>, rules: Rules, id: Id, view: View)
    requires StillThere(w, f, id, view) && r.view.chain == view.chain != [] && w.maps.byOutpoint != map[]
    ensures StillThere(w, FullPoll(f, r, order, rules), id, view)
  {
    UnsuspectingKeeps(f, r, order, rules, id);
    StillThereOn(w, f, FullPoll(f, r, order, rules), id, view, r.view);
  }

  /** A vault a replaced block closed is left closed by a refresh exactly when the close is as
      deep as the rescan goes, or the coin is spent again and not by another transaction in
      the mempool. */
  lemma MissedCloseStays(v: Vault, r: Round, scanned: nat, rules: Rules, walk: Walked)
    requires r.view.chain != [] && Settled(v)
    ensures Refresh(v, r.view, r.mempool, r.decoded, scanned, rules, walk) == v <==>
      || Final(v, |r.view.chain| - 1, rules)
      || (&& Txout(r.view.chain, r.mempool, v.coin).None?
          && (MempoolSpender(r.decoded, v.coin).None? || MempoolSpender(r.decoded, v.coin).value.tx.txid == v.spentBy))
  {}
}
