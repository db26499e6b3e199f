/** The backward search for what spent a coin: every open search shares one ration of
    block fetches a poll and resumes where it stopped. */
module Backward {
  import opened Wrappers
  import opened Scan
  import opened Node

  /** No block from `low` to `high` spends the coin. */
  ghost predicate Clear(chain: seq<Block>, coin: Outpoint, low: nat, high: int) {
    forall h :: low <= h <= high && h < |chain| ==> !SpentIn(chain[h].txs, coin)
  }

  /** The lowest height a search from this tip may reach. */
  function SearchFloor(tip: nat, depth: nat): (floor: nat)
    ensures floor >= 1
  {
    if tip + 1 > depth && tip + 1 - depth > 1 then tip + 1 - depth else 1
  }

  /** The highest height not yet searched; zero stands for a search not begun. */
  function Top(tip: nat, from: nat): int {
    var top := (if from == 0 then tip + 1 else from) - 1;
    if tip < top then tip else top
  }

  predicate Exhausted(tip: nat, depth: nat, from: nat) { from != 0 && from <= SearchFloor(tip, depth) }

  /** Heights a search has still to read. */
  function Unread(tip: nat, depth: nat, from: nat): nat {
    if Exhausted(tip, depth, from) || Top(tip, from) < SearchFloor(tip, depth) then 0
    else Top(tip, from) - SearchFloor(tip, depth) + 1
  }

  /** A search not begun has as many heights to read as the rescan depth, or as there are above
      the first; one that stopped has those of them below where it stopped. */
  lemma UnreadExactly(tip: nat, depth: nat, from: nat)
    ensures Unread(tip, depth, 0) == if tip < depth then tip else depth
    ensures 0 < from <= tip ==> Unread(tip, depth, from) == if from <= SearchFloor(tip, depth) then 0 else from - SearchFloor(tip, depth)
    ensures SearchFloor(tip, depth) == if tip <= depth then 1 else tip + 1 - depth
  {}

  /** What one call of the search may report: what it read held no spender but the one it
      names, and short of the floor it stopped only before a block it was refused. */
  ghost predicate Honest(chain: seq<Block>, coin: Outpoint, tip: nat, depth: nat, from: nat, found: Option<Hit>, to: nat) {
    var floor, top := SearchFloor(tip, depth), Top(tip, from);
    match found
    case Some(hit) =>
      && floor <= to == hit.height <= top && to < |chain|
      && hit.tx in chain[to].txs && Spends(hit.tx, hit.k, coin)
      && Clear(chain, coin, to + 1, top)
    case None =>
      && Clear(chain, coin, to, top)
      && (to == floor || floor < to <= top + 1)
  }

  /** The blocks of one poll, each fetched once, no more of them than the ration. */
  class Ration {
    const chain: seq<Block>
    const answers: nat -> bool
    const budget: nat
    const depth: nat
    var cached: set<nat>
    var fetched: nat

    constructor (chain: seq<Block>, answers: nat -> bool, budget: nat, depth: nat)
      ensures this.chain == chain && this.answers == answers && this.budget == budget && this.depth == depth
      ensures cached == {} && fetched == 0 && Valid()
    {
      this.chain, this.answers, this.budget, this.depth, this.cached, this.fetched := chain, answers, budget, depth, {}, 0;
    }

    ghost predicate Valid()
      reads this
    {
      fetched == |cached| <= budget && forall h :: h in cached ==> h < |chain|
    }

    predicate Gives(h: nat)
      reads this
    {
      h in cached || (fetched < budget && h < |chain| && answers(h))
    }

    method BlockAt(h: nat) returns (block: Option<seq<Tx>>)
      requires Valid()
      modifies this
      ensures Valid()
      ensures block.Some? == old(Gives(h)) && (block.Some? ==> h < |chain| && block.value == chain[h].txs)
      ensures cached == if block.Some? then old(cached) + {h} else old(cached)
    {
      if h in cached {
        assert cached == cached + {h};
        return Some(chain[h].txs);
      }
      if fetched >= budget || h >= |chain| || !answers(h) {
        return None;
      }
      fetched := fetched + 1;
      cached := cached + {h};
      return Some(chain[h].txs);
    }

    method FindSpend(txs: seq<Tx>, coin: Outpoint) returns (found: Option<(Tx, nat)>)
      ensures found.Some? ==> found.value.0 in txs && Spends(found.value.0, found.value.1, coin)
      ensures found.None? ==> !SpentIn(txs, coin)
    {
      for i := 0 to |txs|
        invariant forall j, k :: 0 <= j < i ==> !Spends(txs[j], k, coin)
      {
        for k := 0 to |txs[i].vin|
          invariant forall l :: 0 <= l < k ==> !Spends(txs[i], l, coin)
        {
          if txs[i].vin[k].prev == coin {
            return Some((txs[i], k));
          }
        }
      }
      return None;
    }

    /** Down from where the search stopped, as far as this poll's ration goes. */
    method WalkBack(coin: Outpoint, tip: nat, from: nat) returns (found: Option<Hit>, to: nat)
      requires Valid()
      modifies this
      ensures Valid() && old(cached) <= cached
      ensures Honest(chain, coin, tip, depth, from, found, to)
      ensures found.None? && to > SearchFloor(tip, depth) ==> !Gives(to - 1)
      ensures forall h :: h in cached && h !in old(cached) ==> to <= h <= Top(tip, from)
      ensures Top(tip, from) < SearchFloor(tip, depth) ==> fetched == old(fetched)
      ensures Top(tip, from) >= SearchFloor(tip, depth) && old(Gives(Top(tip, from))) ==> found.Some? || to <= Top(tip, from)
    {
      var floor := SearchFloor(tip, depth);
      var h := Top(tip, from);
      while h >= floor
        invariant Valid() && old(cached) <= cached
        invariant h <= Top(tip, from) && (h >= floor - 1 || h == Top(tip, from))
        invariant Clear(chain, coin, h + 1, Top(tip, from))
        invariant forall g :: g in cached && g !in old(cached) ==> h < g <= Top(tip, from)
        invariant h == Top(tip, from) ==> cached == old(cached) && fetched == old(fetched)
      {
        var block := BlockAt(h);
        if block.None? {
          return None, h + 1;
        }
        var spend := FindSpend(block.value, coin);
        if spend.Some? {
          return Some(Hit(spend.value.0, spend.value.1, h)), h;
        }
        h := h - 1;
      }
      return None, floor;
    }
  }

  // ------------------------------------------------------- one poll, many searches

  datatype Search = Search(coin: Outpoint, from: nat, found: Option<Hit>)

  function Left(tip: nat, depth: nat, s: Search): nat { if s.found.Some? then 0 else Unread(tip, depth, s.from) }

  function TotalLeft(tip: nat, depth: nat, searches: seq<Search>): nat {
    if searches == [] then 0
    else TotalLeft(tip, depth, searches[..|searches| - 1]) + Left(tip, depth, searches[|searches| - 1])
  }

  /** A search went on honestly, or was over already. */
  ghost predicate Searched(chain: seq<Block>, tip: nat, depth: nat, s: Search, s': Search) {
    s'.coin == s.coin &&
    if s.found.Some? || Exhausted(tip, depth, s.from) then s' == s
    else Honest(chain, s.coin, tip, depth, s.from, s'.found, s'.from)
  }

  lemma SearchedLess(chain: seq<Block>, tip: nat, depth: nat, s: Search, s': Search)
    requires Searched(chain, tip, depth, s, s')
    ensures Left(tip, depth, s') <= Left(tip, depth, s)
    ensures s.found.None? && (s'.found.Some? || s'.from <= Top(tip, s.from)) && Left(tip, depth, s) > 0
      ==> Left(tip, depth, s') < Left(tip, depth, s)
  {}

  /** One poll of every search: each went on honestly, and unless all were over there is
      less left to read. */
  ghost predicate Rationed(chain: seq<Block>, tip: nat, depth: nat, before: seq<Search>, after: seq<Search>) {
    && |after| == |before|
    && (forall i :: 0 <= i < |before| ==> Searched(chain, tip, depth, before[i], after[i]))
    && (if TotalLeft(tip, depth, before) == 0 then TotalLeft(tip, depth, after) == 0
        else TotalLeft(tip, depth, after) < TotalLeft(tip, depth, before))
  }

  /** Every open search in turn, on one ration: with a block to spend and the blocks
      answered, unless all are over, what is left to read strictly falls. */
  method SearchAll(ration: Ration, searches: seq<Search>, tip: nat) returns (next: seq<Search>)
    requires ration.Valid() && ration.fetched == 0
    modifies ration
    ensures |next| == |searches|
    ensures forall i :: 0 <= i < |searches| ==> Searched(ration.chain, tip, ration.depth, searches[i], next[i])
    ensures TotalLeft(tip, ration.depth, next) <= TotalLeft(tip, ration.depth, searches)
    ensures ration.fetched <= ration.budget
    ensures ration.budget > 0 && tip < |ration.chain| && (forall h: nat :: h <= tip ==> ration.answers(h))
      ==> Rationed(ration.chain, tip, ration.depth, searches, next)
  {
    next := [];
    ghost var depth := ration.depth;
    for i := 0 to |searches|
      invariant ration.Valid() && |next| == i
      invariant forall j :: 0 <= j < i ==> Searched(ration.chain, tip, depth, searches[j], next[j])
      invariant TotalLeft(tip, depth, next) <= TotalLeft(tip, depth, searches[..i])
      invariant TotalLeft(tip, depth, searches[..i]) == 0 ==> ration.fetched == 0
      invariant TotalLeft(tip, depth, searches[..i]) > 0 && ration.budget > 0 && tip < |ration.chain|
        && (forall h: nat :: h <= tip ==> ration.answers(h))
        ==> TotalLeft(tip, depth, next) < TotalLeft(tip, depth, searches[..i])
    {
      var s := searches[i];
      var s' := s;
      assert searches[..i + 1][..i] == searches[..i] && searches[..i + 1][i] == s;
      if s.found.None? && !Exhausted(tip, ration.depth, s.from) {
        var found, to := ration.WalkBack(s.coin, tip, s.from);
        s' := Search(s.coin, to, found);
      }
      SearchedLess(ration.chain, tip, depth, s, s');
      assert (next + [s'])[..i] == next;
      next := next + [s'];
    }
    assert searches[..|searches|] == searches;
  }

  // ------------------------------------------------------------- many polls

  /** One poll's share of a search: its tip, where the search stood and where it got to. */
  datatype Walk = Walk(tip: nat, from: nat, found: Option<Hit>, to: nat)

  /** The heights a walk read to the end without finding the spender. */
  predicate Covers(depth: nat, w: Walk, h: nat) {
    !Exhausted(w.tip, depth, w.from) && w.to <= h <= Top(w.tip, w.from)
  }

  /** A search from its start to the end of its last walk; the chain only grows. */
  ghost predicate Run(chain: seq<Block>, coin: Outpoint, depth: nat, walks: seq<Walk>) {
    && (walks != [] ==> walks[0].from == 0)
    && (forall i :: 0 <= i < |walks| ==> walks[i].tip < |chain|)
    && (forall i :: 0 <= i < |walks| ==>
          Searched(chain, walks[i].tip, depth, Search(coin, walks[i].from, None), Search(coin, walks[i].to, walks[i].found)))
    && (forall i :: 0 <= i < |walks| - 1 ==>
          walks[i + 1].from == walks[i].to && walks[i].found == None && walks[i].tip <= walks[i + 1].tip)
  }

  lemma {:induction false} RunDown(chain: seq<Block>, coin: Outpoint, depth: nat, walks: seq<Walk>, i: nat, j: nat)
    requires Run(chain, coin, depth, walks) && i <= j < |walks|
    ensures walks[i].tip <= walks[j].tip && walks[j].to <= walks[i].to && 0 < walks[j].to
    ensures i < j ==> 0 < walks[j].from <= walks[i].to
  {
    if i < j {
      RunDown(chain, coin, depth, walks, i, j - 1);
    }
    assert Searched(chain, walks[j].tip, depth, Search(coin, walks[j].from, None), Search(coin, walks[j].to, walks[j].found));
  }

  /** No height is read twice for a coin. */
  lemma NeverTwice(chain: seq<Block>, coin: Outpoint, depth: nat, walks: seq<Walk>, i: nat, j: nat, h: nat)
    requires Run(chain, coin, depth, walks) && i < j < |walks|
    ensures !(Covers(depth, walks[i], h) && Covers(depth, walks[j], h))
    ensures Top(walks[j].tip, walks[j].from) < walks[i].to
  {
    RunDown(chain, coin, depth, walks, i, j);
  }

  lemma {:induction false} ClearBelowStart(chain: seq<Block>, coin: Outpoint, depth: nat, walks: seq<Walk>, n: nat)
    requires Run(chain, coin, depth, walks) && n < |walks| && walks[n].found == None
    ensures Clear(chain, coin, walks[n].to, walks[0].tip)
  {
    if n > 0 {
      ClearBelowStart(chain, coin, depth, walks, n - 1);
      RunDown(chain, coin, depth, walks, 0, n - 1);
      RunDown(chain, coin, depth, walks, 0, n);
    }
    assert Searched(chain, walks[n].tip, depth, Search(coin, walks[n].from, None), Search(coin, walks[n].to, walks[n].found));
  }

  /** A search that ran out without a spender proves there is none from the floor to
      where it began; one that found a spender found a real one. */
  lemma SearchExact(chain: seq<Block>, coin: Outpoint, depth: nat, walks: seq<Walk>)
    requires Run(chain, coin, depth, walks) && walks != []
    requires var last := walks[|walks| - 1]; last.found.Some? || Exhausted(last.tip, depth, last.to)
    ensures var last := walks[|walks| - 1];
      last.found == None <==> Clear(chain, coin, SearchFloor(last.tip, depth), walks[0].tip)
  {
    var n := |walks| - 1;
    var last := walks[n];
    assert Searched(chain, last.tip, depth, Search(coin, last.from, None), Search(coin, last.to, last.found));
    if last.found.None? {
      ClearBelowStart(chain, coin, depth, walks, n);
    } else {
      if n > 0 {
        RunDown(chain, coin, depth, walks, 0, n - 1);
      }
      var hit := last.found.value;
      var i :| 0 <= i < |chain[last.to].txs| && chain[last.to].txs[i] == hit.tx;
      assert SpentIn(chain[last.to].txs, coin);
    }
  }

  // ------------------------------------------------------------- all of them

  /** A search that is over, or has begun at a tip no higher than this one. */
  predicate Begun(tip: nat, s: Search) { s.found.Some? || 0 < s.from <= tip + 1 }

  lemma SearchedBegun(chain: seq<Block>, tip: nat, depth: nat, s: Search, s': Search)
    requires Searched(chain, tip, depth, s, s')
    ensures Begun(tip, s')
  {}

  /** A rising tip leaves a begun search no more to read. */
  lemma TipRises(tip: nat, tip': nat, depth: nat, s: Search)
    requires tip <= tip' && Begun(tip, s)
    ensures Left(tip', depth, s) <= Left(tip, depth, s)
  {}

  lemma {:induction false} TotalRises(tip: nat, tip': nat, depth: nat, searches: seq<Search>)
    requires tip <= tip' && forall i :: 0 <= i < |searches| ==> Begun(tip, searches[i])
    ensures TotalLeft(tip', depth, searches) <= TotalLeft(tip, depth, searches)
  {
    if searches != [] {
      TotalRises(tip, tip', depth, searches[..|searches| - 1]);
      TipRises(tip, tip', depth, searches[|searches| - 1]);
    }
  }

  /** One poll of the backward search. */
  datatype Round = Round(chain: seq<Block>, tip: nat, before: seq<Search>, after: seq<Search>)

  /** Polls one after another, over tips that do not fall. */
  ghost predicate Rounds(depth: nat, rounds: seq<Round>) {
    && (forall i :: 0 <= i < |rounds| ==> Rationed(rounds[i].chain, rounds[i].tip, depth, rounds[i].before, rounds[i].after))
    && (forall i :: 0 < i < |rounds| ==> rounds[i].before == rounds[i - 1].after && rounds[i - 1].tip <= rounds[i].tip)
  }

  /** Every poll of a run brings what is left down by at least one block until all the
      searches are over. */
  lemma {:induction false} SearchesFall(depth: nat, rounds: seq<Round>)
    requires rounds != [] && Rounds(depth, rounds)
    ensures var first, last := rounds[0], rounds[|rounds| - 1];
      || TotalLeft(last.tip, depth, last.after) == 0
      || TotalLeft(last.tip, depth, last.after) + |rounds| <= TotalLeft(first.tip, depth, first.before)
  {
    var n := |rounds| - 1;
    if n > 0 {
      SearchesFall(depth, rounds[..n]);
      var was, last := rounds[n - 1], rounds[n];
      assert rounds[..n][n - 1] == was && rounds[..n][0] == rounds[0];
      forall i | 0 <= i < |was.after| ensures Begun(was.tip, was.after[i]) {
        SearchedBegun(was.chain, was.tip, depth, was.before[i], was.after[i]);
      }
      TotalRises(was.tip, last.tip, depth, was.after);
    }
  }

  lemma {:induction false} NothingLeft(tip: nat, depth: nat, searches: seq<Search>, i: nat)
    requires TotalLeft(tip, depth, searches) == 0 && i < |searches|
    ensures Left(tip, depth, searches[i]) == 0
  {
    if i < |searches| - 1 {
      NothingLeft(tip, depth, searches[..|searches| - 1], i);
    }
  }

  /** Hence after as many polls as there were blocks left to read every search is over: its
      spender is found, or its window is read to the floor. */
  lemma SearchesEnd(depth: nat, rounds: seq<Round>, i: nat)
    requires rounds != [] && Rounds(depth, rounds)
    requires |rounds| >= TotalLeft(rounds[0].tip, depth, rounds[0].before) && i < |rounds[0].before|
    ensures var last := rounds[|rounds| - 1];
      && i < |last.after|
      && (last.tip > 0 ==> last.after[i].found.Some? || Exhausted(last.tip, depth, last.after[i].from))
  {
    SearchesFall(depth, rounds);
    SameSearches(depth, rounds);
    var last := rounds[|rounds| - 1];
    NothingLeft(last.tip, depth, last.after, i);
    SearchedBegun(last.chain, last.tip, depth, last.before[i], last.after[i]);
  }

  lemma {:induction false} SameSearches(depth: nat, rounds: seq<Round>)
    requires rounds != [] && Rounds(depth, rounds)
    ensures |rounds[|rounds| - 1].before| == |rounds[0].before|
  {
    if |rounds| > 1 {
      SameSearches(depth, rounds[..|rounds| - 1]);
    }
  }
}
