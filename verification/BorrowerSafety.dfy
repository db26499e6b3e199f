/** In every run of a careful borrower without an oracle co-signature, whatever anyone
    else does: the repayment is not claimed while the collateral is swept, and the
    collateral enters the vault only on a principal the borrower has or is about to have. */
module BorrowerSafety {
  import opened Wrappers
  import opened Timelocks
  import opened Protocol

  const TAKE := Tx(Borrower, ClaimPrincipal)
  const REFUND := Tx(Borrower, RefundRepayment)
  const RECLAIM := Tx(Borrower, Reclaim)

  ghost predicate Inv(env: Env, s: State) {
    var due := SeqReached(env, env.loan.repayDeadline);
    && Dated(s, s.prevault) && Dated(s, s.vault) && Dated(s, s.disbursement) && Dated(s, s.repayment)
    && InFlight(s, TAKE, env.seqConfirm) && InFlight(s, REFUND, env.seqConfirm) && InFlight(s, RECLAIM, env.btcConfirm)
    // w is shown by the borrower's own claim, and that claim cannot be beaten
    && (env.w in s.revealed ==> TAKE in s.pending)
    && (TAKE in s.pending ==>
          && SeqTip(env, s.pending[TAKE]) + CLAIM_MARGIN_BLOCKS <= env.loan.dRefund
          && (s.disbursement.Spent? ==> s.disbursement.leaf == ClaimPrincipal))
    && (forall who :: Tx(who, Upgrade) in s.pending ==> env.w in s.revealed)
    && (!s.vault.Unfunded? || Ended(s.prevault, Upgrade) ==> env.w in s.revealed)
    && (!s.vault.Unfunded? ==> s.prevault.Spent?)
    && (forall who :: Tx(who, Seize) !in s.pending)
    // the repayment is spent, one way or the other, soon after its deadline
    && (!s.repayment.Unfunded? ==> !s.vault.Unfunded?)
    && (s.repayment.Unspent? ==>
          && s.repayment.since <= due
          && (if REFUND in s.pending then s.pending[REFUND] <= due + env.reaction else s.now <= due + env.reaction))
    && (Ended(s.repayment, ClaimRepayment) ==> s.repayment.at <= due + env.reaction + env.seqConfirm)
    // a claimed repayment releases the collateral in time
    && (s.vault.Unspent? && !s.repayment.Unfunded? ==>
          s.vault.since <= if s.repayment.Unspent? then s.repayment.since else s.repayment.at)
    && (s.vault.Unspent? && Ended(s.repayment, ClaimRepayment) ==>
          if RECLAIM in s.pending then s.pending[RECLAIM] <= s.repayment.at + env.reaction
          else s.now <= s.repayment.at + env.reaction)
    && (Ended(s.vault, Timeout) ==> !s.repayment.Unspent? && !Ended(s.repayment, ClaimRepayment))
    && !Ended(s.vault, Seize)
    && (s.vault.Spent? ==> CoinOf(s.vault.leaf) == Vault)
  }

  ghost predicate Given(env: Env, careful: set<Party>) {
    && SoundTerms(env) && Prompt(env) && env.w != env.t && Borrower in careful
    && env.habits == Habits(true, true, true) && !env.oracleSigns
  }

  lemma FundKeeps(env: Env, careful: set<Party>, s: State, coin: Coin)
    requires Given(env, careful) && Inv(env, s) && Enabled(env, careful, s, Fund(coin))
    ensures Inv(env, After(env, s, Fund(coin)))
  {
    assert Careful(env, s, Borrower, Fund(coin));
  }

  lemma BroadcastKeeps(env: Env, careful: set<Party>, s: State, tx: Tx)
    requires Given(env, careful) && Inv(env, s) && Enabled(env, careful, s, Broadcast(tx))
    ensures Inv(env, After(env, s, Broadcast(tx)))
  {
    assert Careful(env, s, Borrower, Broadcast(tx));
  }

  lemma TickKeeps(env: Env, careful: set<Party>, s: State, seconds: nat)
    requires Given(env, careful) && Inv(env, s) && Enabled(env, careful, s, Tick(seconds))
    ensures Inv(env, After(env, s, Tick(seconds)))
  {
    InTime(env, careful, s, seconds);
    Later(env, s, seconds);
  }

  lemma InTime(env: Env, careful: set<Party>, s: State, seconds: nat)
    requires Borrower in careful && Enabled(env, careful, s, Tick(seconds))
    ensures OnTime(env, s, ClaimPrincipal, s.now + seconds)
    ensures OnTime(env, s, RefundRepayment, s.now + seconds)
    ensures OnTime(env, s, Reclaim, s.now + seconds)
  {}

  /** Time passes, as far as the borrower's own duties let it. */
  lemma Later(env: Env, s: State, seconds: nat)
    requires SoundTerms(env) && Inv(env, s)
    requires OnTime(env, s, ClaimPrincipal, s.now + seconds)
    requires OnTime(env, s, RefundRepayment, s.now + seconds)
    requires OnTime(env, s, Reclaim, s.now + seconds)
    ensures Inv(env, After(env, s, Tick(seconds)))
  {}

  lemma ConfirmPrincipalKeeps(env: Env, careful: set<Party>, s: State, tx: Tx)
    requires Given(env, careful) && Inv(env, s) && Enabled(env, careful, s, Confirm(tx))
    requires CoinOf(tx.leaf) == Disbursement
    ensures Inv(env, After(env, s, Confirm(tx)))
  {}

  lemma ConfirmRepaymentKeeps(env: Env, careful: set<Party>, s: State, tx: Tx)
    requires Given(env, careful) && Inv(env, s) && Enabled(env, careful, s, Confirm(tx))
    requires CoinOf(tx.leaf) == Repayment
    ensures Inv(env, After(env, s, Confirm(tx)))
  {}

  /** A sweep cannot be mined while the repayment is there to be claimed or has been. */
  lemma NoLateSweep(env: Env, s: State)
    requires SoundTerms(env) && Prompt(env) && Inv(env, s)
    requires s.vault.Unspent? && Mineable(env, Timeout, s.now)
    ensures !s.repayment.Unspent? && !Ended(s.repayment, ClaimRepayment)
  {
    Gaps(env.loan, env.btc0, env.seq0);
  }

  lemma ConfirmVaultKeeps(env: Env, careful: set<Party>, s: State, tx: Tx)
    requires Given(env, careful) && Inv(env, s) && Enabled(env, careful, s, Confirm(tx))
    requires CoinOf(tx.leaf) == Vault
    ensures Inv(env, After(env, s, Confirm(tx)))
  {
    if tx.leaf == Timeout {
      NoLateSweep(env, s);
    }
  }

  lemma ConfirmPrevaultKeeps(env: Env, careful: set<Party>, s: State, tx: Tx)
    requires Given(env, careful) && Inv(env, s) && Enabled(env, careful, s, Confirm(tx))
    requires CoinOf(tx.leaf) == Prevault
    ensures Inv(env, After(env, s, Confirm(tx)))
  {}

  lemma {:induction false} InvHolds(env: Env, careful: set<Party>, actions: seq<Action>)
    requires Given(env, careful) && Run(env, careful, actions)
    ensures Inv(env, Replay(env, actions))
  {
    if actions != [] {
      var before := actions[..|actions| - 1];
      InvHolds(env, careful, before);
      var s := Replay(env, before);
      match actions[|actions| - 1]
      case Fund(coin) => FundKeeps(env, careful, s, coin);
      case Broadcast(tx) => BroadcastKeeps(env, careful, s, tx);
      case Confirm(tx) =>
        match CoinOf(tx.leaf) {
          case Prevault => ConfirmPrevaultKeeps(env, careful, s, tx);
          case Vault => ConfirmVaultKeeps(env, careful, s, tx);
          case Disbursement => ConfirmPrincipalKeeps(env, careful, s, tx);
          case Repayment => ConfirmRepaymentKeeps(env, careful, s, tx);
        }
      case Tick(seconds) => TickKeeps(env, careful, s, seconds);
    }
  }

  lemma BorrowerIsWhole(env: Env, careful: set<Party>, actions: seq<Action>)
    requires Given(env, careful) && Run(env, careful, actions)
    ensures BorrowerWhole(Replay(env, actions))
  {
    InvHolds(env, careful, actions);
  }

  /** With one secret for both hashes the lender moves the collateral into the vault
      before there is a principal to take. */
  lemma OneSecretStartsUnpaid(env: Env, careful: set<Party>) returns (run: seq<Action>)
    requires SoundTerms(env) && env.w == env.t
    ensures Run(env, careful, run) && !BorrowerWhole(Replay(env, run))
  {
    var move := Tx(Lender, Upgrade);
    run := [];
    var s := Start();
    run, s := Go(env, careful, run, s, Fund(Prevault));
    run, s := GoMined(env, careful, run, s, move);
  }

  /** A borrower who does not wait can repay, and have the repayment claimed, while
      the collateral is still in the pre-vault. */
  lemma PaidTooSoon(env: Env) returns (run: seq<Action>)
    requires SoundTerms(env) && !env.habits.awaitsVault
    ensures Run(env, {Borrower}, run)
    ensures Replay(env, run) ==
      State(0, Unspent(0), Unfunded, Spent(ClaimPrincipal, 0), Spent(ClaimRepayment, 0),
            map[TAKE := 0, Tx(Lender, ClaimRepayment) := 0], {env.w, env.t})
  {
    Gaps(env.loan, env.btc0, env.seq0);
    var collect := Tx(Lender, ClaimRepayment);
    run := PrincipalTaken(env, {Borrower});
    var s := Replay(env, run);
    run, s := Go(env, {Borrower}, run, s, Fund(Repayment));
    run, s := GoMined(env, {Borrower}, run, s, collect);
  }

  /** Once the sweep is open, a lender who holds w can move the collateral and sweep it. */
  lemma MoveAndSweep(env: Env, before: seq<Action>, s0: State) returns (run: seq<Action>)
    requires SoundTerms(env) && Run(env, {Borrower}, before) && Replay(env, before) == s0
    requires s0.prevault.Unspent? && env.w in s0.revealed && Ended(s0.repayment, ClaimRepayment)
    requires Mineable(env, Timeout, s0.now)
    requires Tx(Lender, Upgrade) !in s0.pending && Tx(Lender, Timeout) !in s0.pending
    ensures Run(env, {Borrower}, run) && !BorrowerWhole(Replay(env, run))
  {
    var move, sweep := Tx(Lender, Upgrade), Tx(Lender, Timeout);
    var s := s0;
    run, s := GoMined(env, {Borrower}, before, s, move);
    run, s := GoMined(env, {Borrower}, run, s, sweep);
  }

  lemma RepayingEarlyLoses(env: Env) returns (run: seq<Action>)
    requires SoundTerms(env) && !env.habits.awaitsVault
    ensures Run(env, {Borrower}, run) && !BorrowerWhole(Replay(env, run))
  {
    Gaps(env.loan, env.btc0, env.seq0);
    run := PaidTooSoon(env);
    var s := Replay(env, run);
    run, s := Go(env, {Borrower}, run, s, Tick(600 * (env.loan.recoverAfter - env.btc0 + 1)));
    run := MoveAndSweep(env, run, s);
  }

  /** A principal left unclaimed until it can be taken back. */
  lemma LeftTooLong(env: Env) returns (run: seq<Action>)
    requires SoundTerms(env)
    ensures Run(env, {Borrower}, run)
    ensures env.loan.dRefund > env.seq0
    ensures Replay(env, run) == State(60 * (env.loan.dRefund - env.seq0 + 1), Unspent(0), Unfunded, Unspent(0), Unfunded, map[], {})
  {
    Gaps(env.loan, env.btc0, env.seq0);
    run := [];
    var s := Start();
    run, s := Go(env, {Borrower}, run, s, Fund(Prevault));
    run, s := Go(env, {Borrower}, run, s, Fund(Disbursement));
    run, s := Go(env, {Borrower}, run, s, Tick(60 * (env.loan.dRefund - env.seq0 + 1)));
  }

  /** A borrower who takes the principal whatever the height shows w while the lender can
      still take the principal back, and has moved the collateral for nothing. */
  lemma ClaimingLateLoses(env: Env) returns (run: seq<Action>)
    requires SoundTerms(env) && !env.habits.mindsMargin
    ensures Run(env, {Borrower}, run) && !BorrowerWhole(Replay(env, run))
  {
    var back, move := Tx(Outsider, RefundPrincipal), Tx(Lender, Upgrade);
    run := LeftTooLong(env);
    var s := Replay(env, run);
    run, s := Go(env, {Borrower}, run, s, Broadcast(TAKE));
    run, s := GoMined(env, {Borrower}, run, s, back);
    run, s := GoMined(env, {Borrower}, run, s, move);
  }

  /** The loan runs: the principal is taken and the collateral is in the vault. */
  lemma LoanRuns(env: Env) returns (run: seq<Action>)
    requires SoundTerms(env)
    ensures Run(env, {Borrower}, run)
    ensures Replay(env, run) ==
      State(0, Spent(Upgrade, 0), Unspent(0), Spent(ClaimPrincipal, 0), Unfunded,
            map[TAKE := 0, Tx(Lender, Upgrade) := 0], {env.w})
  {
    var move := Tx(Lender, Upgrade);
    run := PrincipalTaken(env, {Borrower});
    var s := Replay(env, run);
    run, s := GoMined(env, {Borrower}, run, s, move);
  }

  /** A borrower who repays whatever the height can repay when the sweep is open already. */
  lemma RepaidTooLate(env: Env) returns (run: seq<Action>)
    requires SoundTerms(env) && !env.habits.repaysInTime
    ensures Run(env, {Borrower}, run) && env.loan.recoverAfter > env.btc0
    ensures var late := 600 * (env.loan.recoverAfter - env.btc0 + 1);
      Replay(env, run) ==
        State(late, Spent(Upgrade, 0), Unspent(0), Spent(ClaimPrincipal, 0), Unspent(late),
              map[TAKE := 0, Tx(Lender, Upgrade) := 0], {env.w})
  {
    Gaps(env.loan, env.btc0, env.seq0);
    run := LoanRuns(env);
    var s := Replay(env, run);
    run, s := Go(env, {Borrower}, run, s, Tick(600 * (env.loan.recoverAfter - env.btc0 + 1)));
    run, s := Go(env, {Borrower}, run, s, Fund(Repayment));
  }

  lemma RepayingLateLoses(env: Env) returns (run: seq<Action>)
    requires SoundTerms(env) && !env.habits.repaysInTime
    ensures Run(env, {Borrower}, run) && !BorrowerWhole(Replay(env, run))
  {
    var collect, sweep := Tx(Lender, ClaimRepayment), Tx(Lender, Timeout);
    run := RepaidTooLate(env);
    var s := Replay(env, run);
    run, s := GoMined(env, {Borrower}, run, s, collect);
    run, s := GoMined(env, {Borrower}, run, s, sweep);
  }

  /** Exactly when a careful borrower is safe from everyone else: the two hashes have
      different preimages, and the borrower has all three habits. */
  lemma BorrowerIsWholeExactly(env: Env)
    requires SoundTerms(env) && Prompt(env) && !env.oracleSigns
    ensures (forall actions :: Run(env, {Borrower}, actions) ==> BorrowerWhole(Replay(env, actions)))
       <==> env.loan.hW != env.loan.paymentHash
            && env.habits.awaitsVault && env.habits.mindsMargin && env.habits.repaysInTime
  {
    if env.w == env.t {
      var _ := OneSecretStartsUnpaid(env, {Borrower});
    } else if !env.habits.awaitsVault {
      var _ := RepayingEarlyLoses(env);
    } else if !env.habits.mindsMargin {
      var _ := ClaimingLateLoses(env);
    } else if !env.habits.repaysInTime {
      var _ := RepayingLateLoses(env);
    } else {
      forall actions | Run(env, {Borrower}, actions) ensures BorrowerWhole(Replay(env, actions)) {
        BorrowerIsWhole(env, {Borrower}, actions);
      }
    }
  }
}
