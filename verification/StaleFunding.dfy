/** A run in which every question is answered and a vault whose coin was spent in the chain is
    called a ghost: its funding was recorded in a block above the top of a later, shorter
    chain, so the record was not taken back with the block. */
module StaleFunding {
  import opened Wrappers
  import opened Scan
  import opened Node
  import opened Ends
  import opened Confluence
  import opened Polling
  import opened Ghosts
  import opened Runs

  const COIN := Outpoint(10, 0)
  const FUND := Tx(10, [], [TxOut(1, 1, 1)])
  const SPEND := Tx(20, [TxIn(COIN, [])], [])
  const RULES := Rules(100, 1)

  const G := Block(1, [])
  const E := Block(2, [])
  const FIRST := [G, E]
  const FUNDED := [G, E, Block(3, []), Block(4, []), Block(5, [FUND])]
  const SHORTER := [G, E, Block(6, [FUND])]
  const SPENT := [G, E, Block(6, [FUND]), Block(7, [SPEND]), Block(8, [])]
  const REPLACED := [G, E, Block(6, [FUND]), Block(7, [SPEND]), Block(9, [])]

  const NEW := Vault(COIN, false, map[], UNCONFIRMED, NONE, 0, 0, 0, 0, 0, 0)
  const BASE := Maps(map[7 := NEW], map[COIN := 7], map[], map[])

  /** Where the backward search of a poll stops. The first poll's reads its whole window;
      afterwards the coin is there or the vault is closed, and none is begun. */
  function WalkTo(chain: seq<Block>): nat { if |chain| == 2 || chain == FUNDED then 1 else |chain| }

  /** A poll in which everything is answered. */
  function All(chain: seq<Block>): Round {
    Round(View(chain, (h: nat) => true, (h: nat) => true), [], [], {7}, map[7 := Walked(None, WalkTo(chain))])
  }

  function With(v: Vault): Maps { Maps(map[7 := v], map[COIN := 7], map[], map[]) }

  // ------------------------------------------------------------- the pieces

  lemma EmptyRead(m: Maps, h: nat)
    ensures Read(m, BlockSpends([], h)) == m
  {}

  lemma FundRead(m: Maps, h: nat)
    ensures Read(m, BlockSpends([FUND], h)) == m
  {
    assert [FUND][..0] == [] && BlockSpends([FUND], h) == BlockSpends([], h) + TxSpends(FUND, h) == [];
  }

  lemma SpendRead(v: Vault, h: nat)
    requires v.coin == COIN && v.leafNames == map[] && !v.singleLeaf && !Settled(v)
    ensures Read(With(v), BlockSpends([SPEND], h)) == With(v.(spentBy := 20, spentHeight := h, state := SPENT_UNKNOWN))
  {
    var e := Spend(SPEND, 0, h);
    assert [SPEND][..0] == [] && TxSpends(SPEND, h) == [e];
    assert BlockSpends([SPEND], h) == BlockSpends([], h) + [e] == [e];
    assert [e][..0] == [] && Read(With(v), []) == With(v);
    assert Step(With(v), e) == Close(With(v), e);
  }

  lemma OneStep(w: Watch, chain: seq<Block>, next: Watch)
    requires w.scanned.Some? && w.scanned.value + 1 < |chain|
    requires var h := w.scanned.value + 1;
      next == Watch(Read(w.maps, BlockSpends(chain[h].txs, h)), Some(h), w.seen[h := chain[h].hash])
    ensures Forward(w, All(chain).view) == Forward(next, All(chain).view)
  {
    ForwardOne(w, All(chain).view);
  }

  lemma AtEnd(w: Watch, chain: seq<Block>)
    requires w.scanned == Some(|chain| - 1) && chain != []
    ensures Forward(w, All(chain).view) == w
  {}

  /** A poll that does not rewind, and one that does, scan on. */
  lemma Kept(w: Watch, chain: seq<Block>, v: Vault)
    requires w.scanned.Some? && w.maps == With(v) && w.scanned.value in w.seen
    requires w.scanned.value < |chain| && chain[w.scanned.value].hash == w.seen[w.scanned.value]
    ensures Poll(w, All(chain).view, [], 100) == Forward(w, All(chain).view)
  {
    NoRewind(w, chain);
    assert COIN in With(v).byOutpoint;
  }

  lemma NoRewind(w: Watch, chain: seq<Block>)
    requires w.scanned.Some? && w.scanned.value in w.seen
    requires w.scanned.value < |chain| && chain[w.scanned.value].hash == w.seen[w.scanned.value]
    ensures Rewound(w, All(chain).view, [], 100) == w
  {}

  lemma Back(w: Watch, chain: seq<Block>, v: Vault, v': Vault, a: nat, back: Watch)
    requires w.scanned.Some? && w.maps == With(v) && w.scanned.value in w.seen && chain != []
    requires RewindPoint(w, All(chain).view, 100) == Some(a) && v' == RestoreVault(v, a, All(chain).view.Judge())
    requires back == Watch(With(v'), Some(a), map h | h in w.seen && h <= a :: w.seen[h])
    ensures Poll(w, All(chain).view, [], 100) == Forward(back, All(chain).view)
  {
    assert Undo(With(v), [], a, All(chain).view.Judge()) == With(v');
    assert COIN in With(v').byOutpoint;
  }

  /** What is left of a poll once the blocks are read. */
  lemma Rest(p: Watch, chain: seq<Block>, v: Vault, v': Vault)
    requires chain != [] && |chain| <= 100 && p.scanned == Some(|chain| - 1) && p.maps == With(v)
    requires v' == Refresh(v, All(chain).view, [], [], |chain| - 1, RULES, Walked(None, WalkTo(chain)))
    ensures AfterScan(p, All(chain), RULES) == Watch(With(v'), p.scanned, p.seen)
  {
    var r := All(chain);
    assert Refreshed(p.maps, r, |chain| - 1, RULES) == With(v') by {
      assert RefreshOne(v, 7, r, |chain| - 1, RULES) == v';
    }
    assert Trimmed(map[], 0) == map[];
    assert (map h | h in p.seen && h >= 0 :: p.seen[h]) == p.seen;
  }

  lemma Unspent(chain: seq<Block>, made: nat)
    requires made < |chain| && (forall h :: 0 <= h < |chain| ==> chain[h].txs == if h == made then [FUND] else [])
    ensures Txout(chain, [], COIN) == Some(|chain| - made)
  {
    assert MadeIn(chain[made].txs, COIN) by { assert [FUND][0].txid == 10; }
    forall h, i, k: nat | 0 <= h < |chain| && 0 <= i < |chain[h].txs| ensures !Spends(chain[h].txs[i], k, COIN) {}
  }

  lemma Gone(chain: seq<Block>, h: nat)
    requires h < |chain| && chain[h].txs == [SPEND]
    ensures ChainSpent(chain, COIN) && Txout(chain, [], COIN) == None
  {
    assert Spends(chain[h].txs[0], 0, COIN);
  }

  // -------------------------------------------------------------- the polls

  const V1 := NEW.(state := GHOST, walkedTo := 1)
  const V2 := NEW.(state := LIVE, fundingHeight := 4, fundingBlock := 5, confirmations := 1, lastSeen := 4)
  const V3 := V2.(lastSeen := 2)
  const V4 := V3.(spentBy := 20, spentHeight := 3, state := SPENT_UNKNOWN)
  const V5 := V4.(state := GHOST, fundingHeight := 0, fundingBlock := 0, confirmations := 0)

  const W1 := Watch(With(V1), Some(1), map[1 := 2])
  const W2 := Watch(With(V2), Some(4), map[1 := 2, 2 := 3, 3 := 4, 4 := 5])
  const W3 := Watch(With(V3), Some(2), map[1 := 2, 2 := 6])
  const W4 := Watch(With(V4), Some(4), map[1 := 2, 2 := 6, 3 := 7, 4 := 8])
  const W5 := Watch(With(V5), Some(4), map[1 := 2, 2 := 6, 3 := 7, 4 := 9])

  lemma Poll1()
    ensures FullPoll(Watch(BASE, None, map[]), All(FIRST), [], RULES) == W1
  {
    var p := Watch(BASE, Some(1), map[1 := 2]);
    assert Poll(Watch(BASE, None, map[]), All(FIRST).view, [], 100) == p;
    assert !ChainMade(FIRST, COIN) && !ChainSpent(FIRST, COIN);
    Rest(p, FIRST, NEW, V1);
  }

  const A2 := Watch(With(V1), Some(2), map[1 := 2, 2 := 3])
  const B2 := Watch(With(V1), Some(3), map[1 := 2, 2 := 3, 3 := 4])
  const P2 := Watch(With(V1), Some(4), map[1 := 2, 2 := 3, 3 := 4, 4 := 5])

  lemma Scan2()
    ensures Forward(W1, All(FUNDED).view) == P2
  {
    EmptyRead(With(V1), 2);
    OneStep(W1, FUNDED, A2);
    EmptyRead(With(V1), 3);
    OneStep(A2, FUNDED, B2);
    FundRead(With(V1), 4);
    OneStep(B2, FUNDED, P2);
    AtEnd(P2, FUNDED);
  }

  lemma Poll2()
    ensures FullPoll(W1, All(FUNDED), [], RULES) == W2
  {
    Kept(W1, FUNDED, V1);
    Scan2();
    Unspent(FUNDED, 4);
    Rest(P2, FUNDED, V1, V2);
  }

  lemma Rewind(seen: map<nat, int>, chain: seq<Block>, top: nat, a: nat)
    requires 1 in seen && (forall h :: h in seen ==> h >= 1) && 1 <= a <= top < |chain| && top <= 100
    requires a in seen && chain[a].hash == seen[a]
    requires forall h :: a < h <= top ==> h in seen && chain[h].hash != seen[h]
    ensures Descend(seen, All(chain).view, top, Floor(seen, top, 100)) == Some(a)
  {
    assert Least(seen.Keys) == 1;
    Down(seen, chain, top, a);
  }

  lemma {:induction false} Down(seen: map<nat, int>, chain: seq<Block>, from: nat, a: nat)
    requires 1 <= a <= from < |chain| && a in seen && chain[a].hash == seen[a]
    requires forall h :: a < h <= from ==> h in seen && chain[h].hash != seen[h]
    ensures Descend(seen, All(chain).view, from, 0) == Some(a)
  {
    if from > a {
      Down(seen, chain, from - 1, a);
    }
  }

  const B3 := Watch(With(V2), Some(1), map[1 := 2])
  const P3 := Watch(With(V2), Some(2), map[1 := 2, 2 := 6])

  lemma Scan3()
    ensures Poll(W2, All(SHORTER).view, [], 100) == P3
  {
    Rewind(W2.seen, SHORTER, 2, 1);
    Back(W2, SHORTER, V2, V2, 1, B3);
    FundRead(With(V2), 2);
    OneStep(B3, SHORTER, P3);
    AtEnd(P3, SHORTER);
  }

  lemma Poll3()
    ensures FullPoll(W2, All(SHORTER), [], RULES) == W3
  {
    Scan3();
    Unspent(SHORTER, 2);
    Rest(P3, SHORTER, V2, V3);
  }

  const A4 := Watch(With(V4), Some(3), map[1 := 2, 2 := 6, 3 := 7])

  lemma Scan4()
    ensures Poll(W3, All(SPENT).view, [], 100) == W4
  {
    Kept(W3, SPENT, V3);
    SpendRead(V3, 3);
    OneStep(W3, SPENT, A4);
    EmptyRead(With(V4), 4);
    OneStep(A4, SPENT, W4);
    AtEnd(W4, SPENT);
  }

  lemma Poll4()
    ensures FullPoll(W3, All(SPENT), [], RULES) == W4
  {
    Scan4();
    Gone(SPENT, 3);
    Rest(W4, SPENT, V4, V4);
  }

  const B5 := Watch(With(V5), Some(3), map[1 := 2, 2 := 6, 3 := 7])

  lemma Scan5()
    ensures Poll(W4, All(REPLACED).view, [], 100) == W5
  {
    Rewind(W4.seen, REPLACED, 4, 3);
    Back(W4, REPLACED, V4, V5, 3, B5);
    EmptyRead(With(V5), 4);
    OneStep(B5, REPLACED, W5);
    AtEnd(W5, REPLACED);
  }

  lemma Poll5()
    ensures FullPoll(W4, All(REPLACED), [], RULES) == W5
  {
    Scan5();
    Gone(REPLACED, 3);
    Rest(W5, REPLACED, V5, V5);
  }

  lemma OneMore(w: Watch, rounds: seq<Round>, i: nat, now: Watch, next: Watch)
    requires i < |rounds| && Polled(w, rounds[..i], [], RULES) == now && FullPoll(now, rounds[i], [], RULES) == next
    ensures Polled(w, rounds[..i + 1], [], RULES) == next
  {
    assert rounds[..i + 1][..i] == rounds[..i];
  }

  const ROUNDS := [All(FIRST), All(FUNDED), All(SHORTER), All(SPENT), All(REPLACED)]
  const W0 := Watch(BASE, None, map[])

  lemma Polled1()
    ensures Polled(W0, ROUNDS[..1], [], RULES) == W1
  {
    Poll1();
    OneMore(W0, ROUNDS, 0, W0, W1);
  }

  lemma Polled2()
    ensures Polled(W0, ROUNDS[..2], [], RULES) == W2
  {
    Polled1();
    Poll2();
    OneMore(W0, ROUNDS, 1, W1, W2);
  }

  lemma Polled3()
    ensures Polled(W0, ROUNDS[..3], [], RULES) == W3
  {
    Polled2();
    Poll3();
    OneMore(W0, ROUNDS, 2, W2, W3);
  }

  lemma Polled4()
    ensures Polled(W0, ROUNDS[..4], [], RULES) == W4
  {
    Polled3();
    Poll4();
    OneMore(W0, ROUNDS, 3, W3, W4);
  }

  lemma Polled5()
    ensures Polled(W0, ROUNDS[..5], [], RULES) == W5
  {
    Polled4();
    Poll5();
    OneMore(W0, ROUNDS, 4, W4, W5);
  }

  lemma AllAnswer()
    ensures forall i :: 0 <= i < |ROUNDS| ==> AllAnswered(BASE, ROUNDS[i]) && FIRST <= ROUNDS[i].view.chain
  {}

  /** Five polls, all answered, over chains that only fork above the first: the funding is
      recorded at height four, mined at two in a chain of height two, spent at three, and the
      block at four replaced. */
  lemma SpentVaultIsGhost()
    ensures forall i :: 0 <= i < |ROUNDS| ==> AllAnswered(BASE, ROUNDS[i]) && FIRST <= ROUNDS[i].view.chain
    ensures Polled(W0, ROUNDS[..5], [], RULES) == W5 && ROUNDS[..5] == ROUNDS
    ensures W5.maps.vaults[7].coin == COIN && W5.maps.vaults[7].state == GHOST && ChainSpent(REPLACED, COIN)
  {
    AllAnswer();
    Polled5();
    Gone(REPLACED, 3);
  }

  // ------------------------------------------------- a run that is followed

  const ORIGIN := Origin(BASE, 1, [], 100)

  /** A chain that only funds the coin, or does not. */
  predicate Quiet(chain: seq<Block>, made: nat) {
    && |chain| >= 2 && chain[0] == G && chain[1] == E
    && (forall h :: 0 <= h < |chain| ==> chain[h].hash != 0 && chain[h].txs == if h == made then [FUND] else [])
  }

  lemma QuietSane(chain: seq<Block>, made: nat, coin: Outpoint)
    requires Quiet(chain, made)
    ensures Sane(chain, [], coin)
  {
    forall h, i, k: nat | 0 <= h < |chain| && 0 <= i < |chain[h].txs| ensures !Spends(chain[h].txs[i], k, coin) {}
    assert forall h: nat, tx, k: nat :: !SpentBy(chain, h, tx, k, coin);
    assert forall h :: 0 <= h < |chain| && MadeIn(chain[h].txs, coin) ==> h == made;
  }

  lemma {:induction false} QuietReads(chain: seq<Block>, made: nat, high: nat)
    requires Quiet(chain, made) && 1 <= high < |chain|
    ensures ChainSpends(chain, 1, high) == []
  {
    if high > 1 {
      QuietReads(chain, made, high - 1);
      assert [FUND][..0] == [] && TxSpends(FUND, high) == [];
      assert BlockSpends([FUND], high) == BlockSpends([], high) + TxSpends(FUND, high) == [];
      assert BlockSpends(chain[high].txs, high) == [];
    }
  }

  lemma QuietPlausible(chain: seq<Block>, made: nat, v: Vault)
    requires Quiet(chain, made) && |chain| <= 100 && HonestWalk(chain, v, RULES, Walked(None, WalkTo(chain)))
    ensures Plausible(With(v), All(chain), RULES)
  {
    forall coin ensures Sane(chain, [], coin) { QuietSane(chain, made, coin); }
  }

  lemma OriginPlaced()
    ensures Placed(ORIGIN)
  {}

  lemma FirstStarts()
    ensures Starts(ORIGIN, All(FIRST), RULES)
  {
    OriginPlaced();
    QuietReads(FIRST, 9, 1);
    QuietPlausible(FIRST, 9, NEW);
    FreshKnows(NEW, FIRST, 1);
    assert BASE == With(NEW);
  }

  lemma QuietForks(was: seq<Block>, a: nat, chain: seq<Block>, b: nat)
    requires Quiet(was, a) && Quiet(chain, b) && Commit(was, chain)
    ensures Forks(ORIGIN, was, chain, 1)
  {
    QuietReads(chain, b, |chain| - 1);
    forall coin ensures Sane(was, [], coin) && Sane(chain, [], coin) {
      QuietSane(was, a, coin);
      QuietSane(chain, b, coin);
    }
  }

  lemma OneSeen()
    ensures W1.seen.Keys == {1} && Least(W1.seen.Keys) == 1
  {
    assert W1.seen == map[1 := 2];
    assert W1.seen.Keys == {1};
  }

  lemma SecondForks()
    ensures Forks(ORIGIN, FIRST, FUNDED, 1)
  {
    assert Commit(FIRST, FUNDED);
    QuietForks(FIRST, 9, FUNDED, 4);
  }

  lemma SecondPolls()
    ensures Poll(W1, All(FUNDED).view, [], 100) == P2
  {
    Kept(W1, FUNDED, V1);
    Scan2();
  }

  lemma SecondPlausible()
    ensures Plausible(With(V1), All(FUNDED), RULES)
  {
    QuietPlausible(FUNDED, 4, V1);
  }

  lemma SecondPossible()
    ensures Possible(W1, ORIGIN, FIRST, All(FUNDED), RULES)
  {
    OneSeen();
    SecondForks();
    SecondPolls();
    SecondPlausible();
  }

  lemma SecondEnough()
    ensures Enough(W1, ORIGIN, FIRST, All(FUNDED))
  {
    SecondPolls();
    NoRewind(W1, FUNDED);
  }

  lemma SecondContinues()
    ensures Continues(W1, ORIGIN, FIRST, All(FUNDED), RULES)
  {
    SecondPossible();
    SecondEnough();
  }

  /** What is asked of a run can be had: the first two polls. */
  lemma ARun()
    ensures Went(ORIGIN, ROUNDS[..2], RULES)
  {
    FirstStarts();
    SecondContinues();
    Poll1();
    var run := ROUNDS[..2];
    assert run[..1] == [All(FIRST)] && [All(FIRST)][..0] == [];
    assert Started(ORIGIN) == W0;
    assert Polled(W0, run[..1], [], RULES) == W1;
  }
}
