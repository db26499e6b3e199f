/** The node a watcher asks: a chain, a mempool, and which questions are answered. */
module Node {
  import opened Wrappers
  import opened Scan

  /** The node during one poll: a chain, and which questions about it are answered. */
  datatype View = View(chain: seq<Block>, saysHash: nat -> bool, saysBlock: nat -> bool) {
    function HashAt(h: nat): Option<int> {
      if h < |chain| && saysHash(h) then Some(chain[h].hash) else None
    }

    function BlockAt(h: nat): Option<Block> {
      if h < |chain| && saysBlock(h) then Some(chain[h]) else None
    }

    /** Provably another block at that height; silence proves nothing. */
    predicate Replaced(height: nat, hash: int) {
      hash == 0 || (HashAt(height).Some? && HashAt(height).value != hash)
    }

    function Judge(): (nat, int) -> bool {
      (height: nat, hash: int) => Replaced(height, hash)
    }
  }

  /** A recorded block is given up only for an answer that names another, or when none was. */
  lemma ReplacedExactly(view: View, height: nat, hash: int)
    ensures view.Judge()(height, hash) <==>
      hash == 0 || (height < |view.chain| && view.saysHash(height) && view.chain[height].hash != hash)
  {}

  /** A block's hash commits to every block under it. */
  ghost predicate Commit(c: seq<Block>, d: seq<Block>) {
    forall h :: 0 <= h < |c| && h < |d| && c[h].hash == d[h].hash ==> c[..h + 1] == d[..h + 1]
  }

  /** Every question about the chain is answered. */
  ghost predicate Answers(view: View) {
    forall h: nat :: h < |view.chain| ==> view.saysHash(h) && view.saysBlock(h)
  }

  // ------------------------------------------------------------------ coins

  datatype Hit = Hit(tx: Tx, k: nat, height: nat)

  predicate Spends(tx: Tx, k: nat, coin: Outpoint) { k < |tx.vin| && tx.vin[k].prev == coin }

  ghost predicate SpentIn(txs: seq<Tx>, coin: Outpoint) {
    exists i, k :: 0 <= i < |txs| && Spends(txs[i], k, coin)
  }

  ghost predicate MadeIn(txs: seq<Tx>, coin: Outpoint) {
    exists i :: 0 <= i < |txs| && txs[i].txid == coin.txid && coin.vout < |txs[i].vout|
  }

  ghost predicate ChainMade(chain: seq<Block>, coin: Outpoint) {
    exists h :: 0 <= h < |chain| && MadeIn(chain[h].txs, coin)
  }

  ghost predicate ChainSpent(chain: seq<Block>, coin: Outpoint) {
    exists h :: 0 <= h < |chain| && SpentIn(chain[h].txs, coin)
  }

  /** A block spends the coin by this transaction, at this input. */
  ghost predicate SpentBy(chain: seq<Block>, h: nat, tx: Tx, k: nat, coin: Outpoint) {
    h < |chain| && tx in chain[h].txs && Spends(tx, k, coin)
  }

  /** The funding transaction is in the chain or in the mempool. */
  ghost predicate Known(chain: seq<Block>, mempool: seq<Tx>, coin: Outpoint) {
    ChainMade(chain, coin) || MadeIn(mempool, coin)
  }

  /** A coin is made once, and spent once and not before it is made. */
  ghost predicate Sane(chain: seq<Block>, mempool: seq<Tx>, coin: Outpoint) {
    && (forall h :: 0 <= h < |chain| ==> chain[h].hash != 0)
    && (forall g, h :: 0 <= g < |chain| && 0 <= h < |chain| && MadeIn(chain[g].txs, coin) && MadeIn(chain[h].txs, coin) ==> g == h)
    && (forall h :: 0 <= h < |chain| && SpentIn(chain[h].txs, coin) ==> ChainMade(chain[..h + 1], coin))
    && (SpentIn(mempool, coin) ==> Known(chain, mempool, coin) && !ChainSpent(chain, coin))
    && (forall g: nat, h: nat, a, b, j: nat, k: nat :: SpentBy(chain, g, a, j, coin) && SpentBy(chain, h, b, k, coin) ==> g == h && a == b && j == k)
  }

  /** What the node says of an output, mempool included: how deep it is, or that it is not there. */
  ghost function Txout(chain: seq<Block>, mempool: seq<Tx>, coin: Outpoint): Option<nat> {
    if ChainSpent(chain, coin) || SpentIn(mempool, coin) then None
    else if ChainMade(chain, coin) then
      var h :| 0 <= h < |chain| && MadeIn(chain[h].txs, coin);
      Some(|chain| - h)
    else if MadeIn(mempool, coin) then Some(0)
    else None
  }

  /** An output that is there is as deep as the block that made it, which is in the chain. */
  lemma TxoutExactly(chain: seq<Block>, mempool: seq<Tx>, coin: Outpoint)
    ensures Txout(chain, mempool, coin).Some? <==> !ChainSpent(chain, coin) && !SpentIn(mempool, coin) && Known(chain, mempool, coin)
    ensures Txout(chain, mempool, coin).Some? ==>
      var depth := Txout(chain, mempool, coin).value;
      if ChainMade(chain, coin) then 0 < depth <= |chain| && MadeIn(chain[|chain| - depth].txs, coin) else depth == 0
  {}

  /** What spends a coin among the mempool transactions that could be decoded. */
  ghost function MempoolSpender(decoded: seq<Tx>, coin: Outpoint): (hit: Option<Hit>)
    ensures hit.Some? <==> SpentIn(decoded, coin)
    ensures hit.Some? ==> hit.value.tx in decoded && Spends(hit.value.tx, hit.value.k, coin) && hit.value.height == 0
  {
    if SpentIn(decoded, coin) then
      var i, k :| 0 <= i < |decoded| && Spends(decoded[i], k, coin);
      Some(Hit(decoded[i], k, 0))
    else None
  }

  lemma SpentByIn(chain: seq<Block>, h: nat, tx: Tx, k: nat, coin: Outpoint)
    requires SpentBy(chain, h, tx, k, coin)
    ensures SpentIn(chain[h].txs, coin)
  {
    var i :| 0 <= i < |chain[h].txs| && chain[h].txs[i] == tx;
  }

  /** A coin spent at a height was made no higher. */
  lemma FundedBelow(chain: seq<Block>, mempool: seq<Tx>, coin: Outpoint, h: nat, made: nat)
    requires Sane(chain, mempool, coin) && h < |chain| && SpentIn(chain[h].txs, coin)
    ensures made < |chain| && MadeIn(chain[made].txs, coin) ==> made <= h
  {
    var g :| 0 <= g < |chain[..h + 1]| && MadeIn(chain[..h + 1][g].txs, coin);
    assert chain[..h + 1][g] == chain[g];
  }
}
