/** In every run of a careful lender, whatever anyone else does: the principal is not
    claimed while the collateral is aborted, and the collateral is not reclaimed
    without the repayment going to the lender. */
module LenderSafety {
  import opened Wrappers
  import opened Timelocks
  import opened Protocol

  const CLAIM := Tx(Lender, ClaimRepayment)
  const REFUND := Tx(Lender, RefundPrincipal)
  const MOVE := Tx(Lender, Upgrade)

  predicate Inv(env: Env, s: State) {
    var due := SeqReached(env, env.loan.dRefund);
    && Dated(s, s.prevault) && Dated(s, s.vault) && Dated(s, s.disbursement) && Dated(s, s.repayment)
    && InFlight(s, CLAIM, env.seqConfirm) && InFlight(s, REFUND, env.seqConfirm) && InFlight(s, MOVE, env.btcConfirm)
    // t is shown by the lender's own claim, and that claim cannot be beaten
    && (env.t in s.revealed ==> CLAIM in s.pending)
    && (CLAIM in s.pending ==>
          && SeqTip(env, s.pending[CLAIM]) < EffectiveRepayDeadline(env.loan)
          && (s.repayment.Spent? ==> s.repayment.leaf == ClaimRepayment))
    && (forall who :: Tx(who, Reclaim) in s.pending ==> env.t in s.revealed)
    && (Ended(s.vault, Reclaim) ==> env.t in s.revealed)
    // the principal is spent, one way or the other, soon after its deadline
    && (!s.disbursement.Unfunded? ==> !s.prevault.Unfunded?)
    && (s.disbursement.Unspent? ==>
          && s.disbursement.since <= due
          && (if REFUND in s.pending then s.pending[REFUND] <= due + env.reaction else s.now <= due + env.reaction))
    && (s.disbursement.Spent? ==>
          (Ended(s.disbursement, ClaimPrincipal) ==> s.disbursement.at <= due + env.reaction + env.seqConfirm))
    // a claimed principal moves the collateral in time
    && (s.prevault.Unspent? && !s.disbursement.Unfunded? ==>
          s.prevault.since <= if s.disbursement.Unspent? then s.disbursement.since else s.disbursement.at)
    && (s.prevault.Unspent? && Ended(s.disbursement, ClaimPrincipal) ==>
          if MOVE in s.pending then s.pending[MOVE] <= s.disbursement.at + env.reaction
          else s.now <= s.disbursement.at + env.reaction)
    && (Ended(s.prevault, Abort) ==> !s.disbursement.Unspent? && !Ended(s.disbursement, ClaimPrincipal))
    && (s.prevault.Spent? ==> s.prevault.leaf == Abort || s.prevault.leaf == Upgrade)
  }

  ghost predicate Given(env: Env, careful: set<Party>) {
    && SoundTerms(env) && Prompt(env) && env.w != env.t && Lender in careful
  }

  lemma FundKeeps(env: Env, careful: set<Party>, s: State, coin: Coin)
    requires Given(env, careful) && Inv(env, s) && Enabled(env, careful, s, Fund(coin))
    ensures Inv(env, After(env, s, Fund(coin)))
  {
    assert Careful(env, s, Lender, Fund(coin));
    if coin == Disbursement {
      Gaps(env.loan, BtcTip(env, s.now), SeqTip(env, s.now));
    }
  }

  lemma BroadcastKeeps(env: Env, careful: set<Party>, s: State, tx: Tx)
    requires Given(env, careful) && Inv(env, s) && Enabled(env, careful, s, Broadcast(tx))
    ensures Inv(env, After(env, s, Broadcast(tx)))
  {
    assert Careful(env, s, Lender, Broadcast(tx));
  }

  lemma TickKeeps(env: Env, careful: set<Party>, s: State, seconds: nat)
    requires Given(env, careful) && Inv(env, s) && Enabled(env, careful, s, Tick(seconds))
    ensures Inv(env, After(env, s, Tick(seconds)))
  {
    assert OnTime(env, s, ClaimRepayment, s.now + seconds);
    assert OnTime(env, s, RefundPrincipal, s.now + seconds);
    assert OnTime(env, s, Upgrade, s.now + seconds);
  }

  lemma ConfirmPrincipalKeeps(env: Env, careful: set<Party>, s: State, tx: Tx)
    requires Given(env, careful) && Inv(env, s) && Enabled(env, careful, s, Confirm(tx))
    requires CoinOf(tx.leaf) == Disbursement
    ensures Inv(env, After(env, s, Confirm(tx)))
  {}

  lemma ConfirmRepaymentKeeps(env: Env, careful: set<Party>, s: State, tx: Tx)
    requires Given(env, careful) && Inv(env, s) && Enabled(env, careful, s, Confirm(tx))
    requires CoinOf(tx.leaf) == Repayment
    ensures Inv(env, After(env, s, Confirm(tx)))
  {}

  lemma ConfirmVaultKeeps(env: Env, careful: set<Party>, s: State, tx: Tx)
    requires Given(env, careful) && Inv(env, s) && Enabled(env, careful, s, Confirm(tx))
    requires CoinOf(tx.leaf) == Vault
    ensures Inv(env, After(env, s, Confirm(tx)))
  {}

  /** An abort cannot be mined while the principal is there to be taken or has been. */
  lemma NoLateAbort(env: Env, s: State)
    requires SoundTerms(env) && Prompt(env) && Inv(env, s)
    requires s.prevault.Unspent? && Mineable(env, Abort, s.now)
    ensures !s.disbursement.Unspent? && !Ended(s.disbursement, ClaimPrincipal)
  {
    Gaps(env.loan, env.btc0, env.seq0);
  }

  lemma ConfirmPrevaultKeeps(env: Env, careful: set<Party>, s: State, tx: Tx)
    requires Given(env, careful) && Inv(env, s) && Enabled(env, careful, s, Confirm(tx))
    requires CoinOf(tx.leaf) == Prevault
    ensures Inv(env, After(env, s, Confirm(tx)))
  {
    if tx.leaf == Abort {
      NoLateAbort(env, s);
    }
  }

  lemma {:induction false} InvHolds(env: Env, careful: set<Party>, actions: seq<Action>)
    requires Given(env, careful) && Run(env, careful, actions)
    ensures Inv(env, Replay(env, actions))
  {
    if actions != [] {
      var before := actions[..|actions| - 1];
      InvHolds(env, careful, before);
      var s := Replay(env, before);
      match actions[|actions| - 1]
      case Fund(coin) => FundKeeps(env, careful, s, coin);
      case Broadcast(tx) => BroadcastKeeps(env, careful, s, tx);
      case Confirm(tx) =>
        match CoinOf(tx.leaf) {
          case Prevault => ConfirmPrevaultKeeps(env, careful, s, tx);
          case Vault => ConfirmVaultKeeps(env, careful, s, tx);
          case Disbursement => ConfirmPrincipalKeeps(env, careful, s, tx);
          case Repayment => ConfirmRepaymentKeeps(env, careful, s, tx);
        }
      case Tick(seconds) => TickKeeps(env, careful, s, seconds);
    }
  }

  lemma LenderIsWhole(env: Env, careful: set<Party>, actions: seq<Action>)
    requires Given(env, careful) && Run(env, careful, actions)
    ensures LenderWhole(Replay(env, actions))
  {
    InvHolds(env, careful, actions);
  }

  /** With one secret for both hashes the borrower takes the principal and reclaims the
      collateral, and there is no repayment at all. */
  lemma OneSecretLosesBoth(env: Env, careful: set<Party>) returns (run: seq<Action>)
    requires SoundTerms(env) && env.w == env.t
    ensures Run(env, careful, run) && !LenderWhole(Replay(env, run))
  {
    Gaps(env.loan, env.btc0, env.seq0);
    var reclaim := Tx(Borrower, Reclaim);
    run := PrincipalTaken(env, careful);
    var s := Replay(env, run);
    run, s := GoMined(env, careful, run, s, MOVE);
    run, s := GoMined(env, careful, run, s, reclaim);
  }

  /** Exactly when a careful lender is safe, whoever else is careful: the two hashes
      have different preimages. */
  lemma LenderIsWholeExactly(env: Env, careful: set<Party>)
    requires SoundTerms(env) && Prompt(env) && Lender in careful
    ensures (forall actions :: Run(env, careful, actions) ==> LenderWhole(Replay(env, actions)))
       <==> env.loan.hW != env.loan.paymentHash
  {
    if env.w == env.t {
      var _ := OneSecretLosesBoth(env, careful);
    } else {
      forall actions | Run(env, careful, actions) ensures LenderWhole(Replay(env, actions)) {
        LenderIsWhole(env, careful, actions);
      }
    }
  }
}
