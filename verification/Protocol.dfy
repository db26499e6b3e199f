/** The cross-chain loan as a transition system: four coins on two chains, each
    spent by one of its leaves, two secrets, and a clock in seconds. Broadcasting
    a transaction and having it mined are separate steps. */
module Protocol {
  import opened Wrappers
  import opened Timelocks

  datatype Party = Borrower | Lender | Outsider

  datatype Coin = Prevault | Vault | Disbursement | Repayment

  datatype Leaf =
    | Upgrade | Abort
    | Reclaim | Seize | Timeout
    | ClaimPrincipal | RefundPrincipal
    | ClaimRepayment | RefundRepayment

  datatype CoinState = Unfunded | Unspent(since: nat) | Spent(leaf: Leaf, at: nat)

  datatype Tx = Tx(sender: Party, leaf: Leaf)

  /** `pending` says when each transaction was broadcast, `revealed` which
      preimages any witness has shown so far. */
  datatype State = State(
    now: nat,
    prevault: CoinState, vault: CoinState, disbursement: CoinState, repayment: CoinState,
    pending: map<Tx, nat>, revealed: set<Secret>)

  datatype Action =
    | Fund(coin: Coin)
    | Broadcast(tx: Tx)
    | Confirm(mined: Tx)
    | Tick(seconds: nat)

  /** Three habits no leaf enforces: to repay only a loan whose vault is there, to take
      the principal only with the claim margin before its refund, and to repay only
      before the effective deadline. */
  datatype Habits = Habits(awaitsVault: bool, mindsMargin: bool, repaysInTime: bool)

  /** What stays fixed in a run: the terms, both tips when they were judged, the two
      secrets, whether the oracle ever co-signs, the habits of a careful borrower, and how
      fast a careful party is. */
  datatype Env = Env(
    loan: BtcLoan, btc0: nat, seq0: nat, w: Secret, t: Secret, oracleSigns: bool, habits: Habits,
    reaction: nat, seqConfirm: nat, btcConfirm: nat)

  // ------------------------------------------------------------- the chains

  function SeqTip(env: Env, now: nat): nat { env.seq0 + now / 60 }

  function BtcTip(env: Env, now: nat): nat { env.btc0 + now / 600 }

  function CoinOf(leaf: Leaf): Coin {
    match leaf
    case Upgrade | Abort => Prevault
    case Reclaim | Seize | Timeout => Vault
    case ClaimPrincipal | RefundPrincipal => Disbursement
    case ClaimRepayment | RefundRepayment => Repayment
  }

  function StateOf(s: State, coin: Coin): CoinState {
    match coin
    case Prevault => s.prevault
    case Vault => s.vault
    case Disbursement => s.disbursement
    case Repayment => s.repayment
  }

  function SetCoin(s: State, coin: Coin, c: CoinState): State {
    match coin
    case Prevault => s.(prevault := c)
    case Vault => s.(vault := c)
    case Disbursement => s.(disbursement := c)
    case Repayment => s.(repayment := c)
  }

  /** A lock time holds in a block strictly above it ... */
  predicate Mineable(env: Env, leaf: Leaf, now: nat) {
    match leaf
    case Abort => BtcTip(env, now) > env.loan.abortAfter
    case Timeout => BtcTip(env, now) > env.loan.recoverAfter
    case RefundPrincipal => SeqTip(env, now) > env.loan.dRefund
    case RefundRepayment => SeqTip(env, now) > env.loan.repayDeadline
    case _ => true
  }

  /** ... and a node relays the transaction from the block before. */
  predicate Relayable(env: Env, leaf: Leaf, now: nat) {
    match leaf
    case Abort => BtcTip(env, now) >= env.loan.abortAfter
    case Timeout => BtcTip(env, now) >= env.loan.recoverAfter
    case RefundPrincipal => SeqTip(env, now) >= env.loan.dRefund
    case RefundRepayment => SeqTip(env, now) >= env.loan.repayDeadline
    case _ => true
  }

  // ------------------------------------------------------------ the scripts

  predicate Knows(env: Env, s: State, who: Party, h: Option<Hash>) {
    h.Some? &&
    (|| h.value.preimage in s.revealed
     || (who == Borrower && h.value.preimage == env.w)
     || (who == Lender && h.value.preimage == env.t))
  }

  /** A signature of `signer` that `who` can put in a witness of `leaf`: their own, or
      one of the two exchanged at origination -- the lender's release on RECLAIM and
      the borrower's advance signature on UPGRADE. */
  predicate Signs(who: Party, signer: Party, leaf: Leaf) {
    || who == signer
    || (who == Borrower && signer == Lender && leaf == Reclaim)
    || (who == Lender && signer == Borrower && leaf == Upgrade)
  }

  /** The script condition of each leaf, lock time apart. */
  predicate CanWitness(env: Env, s: State, tx: Tx) {
    match tx.leaf
    case Upgrade =>
      Knows(env, s, tx.sender, env.loan.hW) && Signs(tx.sender, Borrower, Upgrade) && Signs(tx.sender, Lender, Upgrade)
    case Abort => Signs(tx.sender, Borrower, Abort)
    case Reclaim =>
      Knows(env, s, tx.sender, env.loan.paymentHash) && Signs(tx.sender, Borrower, Reclaim) && Signs(tx.sender, Lender, Reclaim)
    case Seize => Signs(tx.sender, Lender, Seize) && env.oracleSigns
    case Timeout => Signs(tx.sender, Lender, Timeout)
    case ClaimPrincipal => Knows(env, s, tx.sender, env.loan.hW)
    case RefundPrincipal => true
    case ClaimRepayment => Knows(env, s, tx.sender, env.loan.paymentHash)
    case RefundRepayment => true
  }

  /** A witness shows the preimage its leaf hashes. */
  function Shows(env: Env, leaf: Leaf): set<Secret> {
    match leaf
    case Upgrade | ClaimPrincipal => if env.loan.hW.Some? then {env.loan.hW.value.preimage} else {}
    case Reclaim | ClaimRepayment => if env.loan.paymentHash.Some? then {env.loan.paymentHash.value.preimage} else {}
    case _ => {}
  }

  // ------------------------------------------------- what a careful party does

  function Owner(leaf: Leaf): Party {
    match leaf
    case Upgrade | Seize | Timeout | ClaimRepayment | RefundPrincipal => Lender
    case Abort | Reclaim | ClaimPrincipal | RefundRepayment => Borrower
  }

  function Max(a: int, b: int): int { if a < b then b else a }

  /** The second a Sequentia height is reached. */
  function SeqReached(env: Env, height: int): nat {
    Max(0, 60 * (height - env.seq0))
  }

  /** The moment a careful owner of `leaf` has to act on it, if there is one: a
      lender takes an unclaimed principal back and upgrades a claimed one, a borrower
      takes an unclaimed repayment back and reclaims against a claimed one. */
  function Duty(env: Env, s: State, leaf: Leaf): Option<nat> {
    match leaf
    case RefundPrincipal =>
      if s.disbursement.Unspent? then Some(Max(s.disbursement.since, SeqReached(env, env.loan.dRefund))) else None
    case Upgrade =>
      if s.prevault.Unspent? && s.disbursement.Spent? && s.disbursement.leaf == ClaimPrincipal
      then Some(Max(s.prevault.since, s.disbursement.at)) else None
    case RefundRepayment =>
      if s.repayment.Unspent? then Some(Max(s.repayment.since, SeqReached(env, env.loan.repayDeadline))) else None
    case Reclaim =>
      if s.vault.Unspent? && s.repayment.Spent? && s.repayment.leaf == ClaimRepayment
      then Some(Max(s.vault.since, s.repayment.at)) else None
    case _ => None
  }

  function ConfirmBound(env: Env, leaf: Leaf): nat {
    match CoinOf(leaf)
    case Prevault | Vault => env.btcConfirm
    case Disbursement | Repayment => env.seqConfirm
  }

  /** At second `at` the owner of `leaf` is not late: what they broadcast has been
      mined, or its coin spent by something else, within the bound of its chain,
      and what they had to broadcast they have. */
  predicate OnTime(env: Env, s: State, leaf: Leaf, at: nat) {
    var tx := Tx(Owner(leaf), leaf);
    if tx in s.pending
    then StateOf(s, CoinOf(leaf)).Unspent? ==> at <= s.pending[tx] + ConfirmBound(env, leaf)
    else Duty(env, s, leaf).Some? ==> at <= Duty(env, s, leaf).value + env.reaction
  }

  /** What a careful party refuses to do. A lender pays the principal only into a
      confirmed pre-vault, with every deadline judged again; claims only while the
      effective deadline is ahead. A borrower keeps the habits they have. */
  ghost predicate Careful(env: Env, s: State, who: Party, a: Action) {
    match a
    case Fund(Disbursement) =>
      who == Lender ==>
        s.prevault.Unspent? && DeadlinesSound(env.loan, BtcTip(env, s.now), SeqTip(env, s.now))
    case Fund(Repayment) =>
      who == Borrower ==>
        && (env.habits.awaitsVault ==> s.vault.Unspent?)
        && (env.habits.repaysInTime ==> SeqTip(env, s.now) < EffectiveRepayDeadline(env.loan))
    case Broadcast(tx) =>
      tx.sender == who ==>
        && StateOf(s, CoinOf(tx.leaf)).Unspent?
        && Relayable(env, tx.leaf, s.now)
        && (tx == Tx(Lender, ClaimRepayment) ==> SeqTip(env, s.now) < EffectiveRepayDeadline(env.loan))
        && (tx == Tx(Borrower, ClaimPrincipal) && env.habits.mindsMargin ==>
              SeqTip(env, s.now) + CLAIM_MARGIN_BLOCKS <= env.loan.dRefund)
    case _ => true
  }

  // --------------------------------------------------------- the transitions

  function Start(): State {
    State(0, Unfunded, Unfunded, Unfunded, Unfunded, map[], {})
  }

  function Mine(s: State, leaf: Leaf): State {
    var s1 := SetCoin(s, CoinOf(leaf), Spent(leaf, s.now));
    if leaf == Upgrade then s1.(vault := Unspent(s.now)) else s1
  }

  ghost predicate Enabled(env: Env, careful: set<Party>, s: State, a: Action) {
    && (forall who :: who in careful ==> Careful(env, s, who, a))
    && match a
       case Fund(coin) => coin != Vault && StateOf(s, coin).Unfunded?
       case Broadcast(tx) => tx !in s.pending && CanWitness(env, s, tx)
       case Confirm(tx) =>
         tx in s.pending && StateOf(s, CoinOf(tx.leaf)).Unspent? && Mineable(env, tx.leaf, s.now)
       case Tick(seconds) =>
         forall leaf :: Owner(leaf) in careful ==> OnTime(env, s, leaf, s.now + seconds)
  }

  function After(env: Env, s: State, a: Action): State {
    match a
    case Fund(coin) => SetCoin(s, coin, Unspent(s.now))
    case Broadcast(tx) => s.(pending := s.pending[tx := s.now], revealed := s.revealed + Shows(env, tx.leaf))
    case Confirm(tx) => Mine(s, tx.leaf)
    case Tick(seconds) => s.(now := s.now + seconds)
  }

  /** The state a sequence of actions leads to. */
  function Replay(env: Env, actions: seq<Action>): State {
    if actions == [] then Start()
    else After(env, Replay(env, actions[..|actions| - 1]), actions[|actions| - 1])
  }

  /** A run: every action is enabled where it is taken. */
  ghost predicate Run(env: Env, careful: set<Party>, actions: seq<Action>) {
    actions != [] ==>
      && Run(env, careful, actions[..|actions| - 1])
      && Enabled(env, careful, Replay(env, actions[..|actions| - 1]), actions[|actions| - 1])
  }

  /** The terms of an abortable origination over these two secrets, with deadlines the
      check accepts but for the question whether the secrets differ. */
  ghost predicate SoundTerms(env: Env) {
    && env.loan.hW == Some(Sha256(env.w))
    && env.loan.paymentHash == Some(Sha256(env.t))
    && DeadlinesSound(env.loan, env.btc0, env.seq0)
  }

  /** A careful party's two reactions and two confirmations fit the day that the
      deadlines leave, and a confirmation on Sequentia fits the claim margin. */
  predicate Prompt(env: Env) {
    && 2 * env.reaction + env.seqConfirm + env.btcConfirm <= UPGRADE_MARGIN_SECONDS
    && 2 * env.reaction + env.seqConfirm + env.btcConfirm <= REPAY_MARGIN_SECONDS
    && env.seqConfirm <= CLAIM_MARGIN_SECONDS
  }

  // ------------------------------------------------------------- the outcomes

  predicate Ended(c: CoinState, leaf: Leaf) { c.Spent? && c.leaf == leaf }

  /** The lender is not left with neither the money nor the collateral. */
  predicate LenderWhole(s: State) {
    && !(Ended(s.disbursement, ClaimPrincipal) && Ended(s.prevault, Abort))
    && !(Ended(s.vault, Reclaim) && !Ended(s.repayment, ClaimRepayment)
         && !(s.repayment.Unspent? && Tx(Lender, ClaimRepayment) in s.pending))
  }

  /** The borrower is not left having paid without the thing paid for. */
  predicate BorrowerWhole(s: State) {
    && !(Ended(s.repayment, ClaimRepayment) && (Ended(s.vault, Timeout) || Ended(s.vault, Seize)))
    && !(Ended(s.prevault, Upgrade) && !Ended(s.disbursement, ClaimPrincipal)
         && !(s.disbursement.Unspent? && Tx(Borrower, ClaimPrincipal) in s.pending))
  }

  // ---------------------------------------------------------- shared lemmas

  /** The gaps in seconds that sound terms leave. */
  lemma Gaps(loan: BtcLoan, btcHeight: int, seqHeight: int)
    requires loan.hW.Some? && DeadlinesSound(loan, btcHeight, seqHeight)
    ensures 60 * (loan.dRefund - seqHeight) >= 7200
    ensures 600 * (loan.abortAfter - btcHeight) - 60 * (loan.dRefund - seqHeight) >= 86400
    ensures 600 * (loan.recoverAfter - btcHeight) - 60 * (loan.repayDeadline - seqHeight) >= 86400
    ensures 60 * (loan.repayDeadline - 120 - seqHeight) >= 7200
  {
    forall which ensures DeadlineOf(loan, which) < LOCKTIME_THRESHOLD {
      assert !Applies(TimeValued(which), loan, btcHeight, seqHeight);
    }
    assert !Applies(PartialOrigination, loan, btcHeight, seqHeight);
    assert !Applies(PrincipalTooSoon, loan, btcHeight, seqHeight);
    assert !Applies(AbortTooSoon, loan, btcHeight, seqHeight);
    assert !Applies(RecoverTooSoon, loan, btcHeight, seqHeight);
    assert !Applies(RepayTooSoon, loan, btcHeight, seqHeight);
  }

  /** A broadcast of the careful party is mined or beaten within its bound. */
  predicate InFlight(s: State, tx: Tx, bound: nat) {
    tx in s.pending ==>
      && s.pending[tx] <= s.now
      && !StateOf(s, CoinOf(tx.leaf)).Unfunded?
      && (StateOf(s, CoinOf(tx.leaf)).Unspent? ==> s.now <= s.pending[tx] + bound)
  }

  predicate Dated(s: State, c: CoinState) {
    match c
    case Unfunded => true
    case Unspent(since) => since <= s.now
    case Spent(_, at) => at <= s.now
  }

  /** A run that leads to a state grows by any action enabled there. */
  lemma Go(env: Env, careful: set<Party>, run: seq<Action>, s: State, a: Action)
    returns (run': seq<Action>, s': State)
    requires Run(env, careful, run) && Replay(env, run) == s && Enabled(env, careful, s, a)
    ensures Run(env, careful, run') && Replay(env, run') == s' == After(env, s, a)
  {
    run', s' := run + [a], After(env, s, a);
    assert run'[..|run'| - 1] == run;
  }

  /** What is broadcast may be mined in the same second. */
  lemma GoMined(env: Env, careful: set<Party>, run: seq<Action>, s: State, tx: Tx)
    returns (run': seq<Action>, s': State)
    requires Run(env, careful, run) && Replay(env, run) == s && Enabled(env, careful, s, Broadcast(tx))
    requires StateOf(s, CoinOf(tx.leaf)).Unspent? && Mineable(env, tx.leaf, s.now)
    ensures Run(env, careful, run')
    ensures Replay(env, run') == s' == Mine(After(env, s, Broadcast(tx)), tx.leaf)
  {
    run', s' := Go(env, careful, run, s, Broadcast(tx));
    run', s' := Go(env, careful, run', s', Confirm(tx));
  }

  /** The opening any pair of parties can play: collateral, principal, and the
      principal taken, all before the clock moves. */
  lemma PrincipalTaken(env: Env, careful: set<Party>) returns (run: seq<Action>)
    requires SoundTerms(env)
    ensures Run(env, careful, run)
    ensures Replay(env, run) ==
      State(0, Unspent(0), Unfunded, Spent(ClaimPrincipal, 0), Unfunded, map[Tx(Borrower, ClaimPrincipal) := 0], {env.w})
  {
    Gaps(env.loan, env.btc0, env.seq0);
    var take := Tx(Borrower, ClaimPrincipal);
    run := [];
    var s := Start();
    run, s := Go(env, careful, run, s, Fund(Prevault));
    run, s := Go(env, careful, run, s, Fund(Disbursement));
    run, s := GoMined(env, careful, run, s, take);
  }
}
