/** The four deadlines of a cross-chain loan and the check every party runs on them. */
module Timelocks {
  import opened Wrappers

  const UPGRADE_MARGIN_SECONDS := 86_400
  const REPAY_MARGIN_SECONDS := 86_400
  const CLAIM_MARGIN_SECONDS := 7_200
  const TERM_MINIMUM_SECONDS := 86_400
  const CLAIM_MARGIN_BLOCKS := 120
  const MIN_UPGRADE_FEE := 10_000
  const LOCKTIME_THRESHOLD := 500_000_000

  /** A preimage one of the parties draws. */
  datatype Secret = Secret(id: nat)

  /** SHA-256 kept symbolic: a hash is the term that names its preimage. */
  datatype Hash = Sha256(preimage: Secret)

  /** The fields of a loan that the deadlines and the scripts of both chains read. */
  datatype BtcLoan = BtcLoan(
    recoverAfter: int, repayDeadline: int, abortAfter: int, dRefund: int,
    upgradeFee: int, paymentHash: Option<Hash>, hW: Option<Hash>)

  datatype Deadline = DRefund | RepayDeadline | AbortAfter | RecoverAfter

  datatype Problem =
    | TimeValued(which: Deadline)
    | PartialOrigination
    | PrincipalTooSoon
    | AbortTooSoon
    | RepayTooSoon
    | RecoverTooSoon
    | TermTooShort
    | SweepBeforeAbort
    | UpgradeFeeLow
    | SharedSecret

  function DeadlineOf(loan: BtcLoan, which: Deadline): int {
    match which
    case DRefund => loan.dRefund
    case RepayDeadline => loan.repayDeadline
    case AbortAfter => loan.abortAfter
    case RecoverAfter => loan.recoverAfter
  }

  function EffectiveRepayDeadline(loan: BtcLoan): int {
    loan.repayDeadline - CLAIM_MARGIN_BLOCKS
  }

  /** How far off a Bitcoin height is, at ten minutes a block. */
  function BtcSeconds(height: int, tip: int): int {
    600 * (height - tip)
  }

  /** How far off a Sequentia height is, at a minute a block. */
  function SeqSeconds(height: int, tip: int): int {
    60 * (height - tip)
  }

  predicate NamesOrigination(loan: BtcLoan) {
    loan.hW.Some? || loan.abortAfter != 0 || loan.dRefund != 0
  }

  predicate HeightsOnly(loan: BtcLoan) {
    forall which :: DeadlineOf(loan, which) < LOCKTIME_THRESHOLD
  }

  /** When two heights leave too little between them, an origination is half named,
      the upgrade's fee is too low or one secret opens both sides. */
  predicate Fault(p: Problem, loan: BtcLoan, btcHeight: int, seqHeight: int) {
    var btcAbort := BtcSeconds(loan.abortAfter, btcHeight);
    var btcRecover := BtcSeconds(loan.recoverAfter, btcHeight);
    var seqRefund := SeqSeconds(loan.dRefund, seqHeight);
    var seqRepay := SeqSeconds(loan.repayDeadline, seqHeight);
    var seqEffective := SeqSeconds(EffectiveRepayDeadline(loan), seqHeight);
    var whole := loan.hW.Some? && loan.abortAfter != 0 && loan.dRefund != 0;
    match p
    case TimeValued(_) => false
    case PartialOrigination => NamesOrigination(loan) && !whole
    case PrincipalTooSoon => whole && seqRefund < CLAIM_MARGIN_SECONDS
    case AbortTooSoon => whole && btcAbort - seqRefund < UPGRADE_MARGIN_SECONDS
    case RepayTooSoon => seqEffective < CLAIM_MARGIN_SECONDS
    case RecoverTooSoon => btcRecover - seqRepay < REPAY_MARGIN_SECONDS
    case TermTooShort => loan.dRefund != 0 && seqEffective - seqRefund < TERM_MINIMUM_SECONDS
    case SweepBeforeAbort => loan.abortAfter != 0 && btcRecover <= btcAbort
    case UpgradeFeeLow => loan.abortAfter != 0 && loan.upgradeFee < MIN_UPGRADE_FEE
    case SharedSecret => loan.paymentHash.Some? && loan.hW.Some? && loan.paymentHash == loan.hW
  }

  /** When a problem is one this loan has, seen from a pair of tips: no margin can be
      read while any deadline is a clock time. */
  predicate Applies(p: Problem, loan: BtcLoan, btcHeight: int, seqHeight: int) {
    if p.TimeValued? then DeadlineOf(loan, p.which) >= LOCKTIME_THRESHOLD
    else HeightsOnly(loan) && Fault(p, loan, btcHeight, seqHeight)
  }

  /** None of the problems applies. */
  ghost predicate Accepts(loan: BtcLoan, btcHeight: int, seqHeight: int) {
    forall p :: !Applies(p, loan, btcHeight, seqHeight)
  }

  /** Every problem but the shared secret is absent: the deadlines alone are sound. */
  ghost predicate DeadlinesSound(loan: BtcLoan, btcHeight: int, seqHeight: int) {
    forall p :: p != SharedSecret ==> !Applies(p, loan, btcHeight, seqHeight)
  }

  /** Every deadline is a height. */
  predicate InBlocks(loan: BtcLoan) {
    loan.dRefund < 500_000_000 && loan.repayDeadline < 500_000_000 && loan.abortAfter < 500_000_000 && loan.recoverAfter < 500_000_000
  }

  predicate Abortable(loan: BtcLoan) { loan.hW.Some? && loan.abortAfter != 0 && loan.dRefund != 0 }

  /** Each problem, in blocks and seconds. */
  lemma EachProblem(loan: BtcLoan, btc: int, sequentia: int)
    ensures Applies(TimeValued(DRefund), loan, btc, sequentia) <==> loan.dRefund >= 500_000_000
    ensures Applies(TimeValued(RepayDeadline), loan, btc, sequentia) <==> loan.repayDeadline >= 500_000_000
    ensures Applies(TimeValued(AbortAfter), loan, btc, sequentia) <==> loan.abortAfter >= 500_000_000
    ensures Applies(TimeValued(RecoverAfter), loan, btc, sequentia) <==> loan.recoverAfter >= 500_000_000
    ensures Applies(PartialOrigination, loan, btc, sequentia) <==>
      (InBlocks(loan) && !Abortable(loan) && !(loan.hW.None? && loan.abortAfter == 0 && loan.dRefund == 0))
    ensures Applies(PrincipalTooSoon, loan, btc, sequentia) <==>
      (InBlocks(loan) && Abortable(loan) && 60 * loan.dRefund < 60 * sequentia + 7_200)
    ensures Applies(AbortTooSoon, loan, btc, sequentia) <==>
      (InBlocks(loan) && Abortable(loan) && 600 * (loan.abortAfter - btc) < 60 * (loan.dRefund - sequentia) + 86_400)
    ensures Applies(RepayTooSoon, loan, btc, sequentia) <==>
      (InBlocks(loan) && 60 * (loan.repayDeadline - 120) < 60 * sequentia + 7_200)
    ensures Applies(RecoverTooSoon, loan, btc, sequentia) <==>
      (InBlocks(loan) && 600 * (loan.recoverAfter - btc) < 60 * (loan.repayDeadline - sequentia) + 86_400)
    ensures Applies(TermTooShort, loan, btc, sequentia) <==>
      (InBlocks(loan) && loan.dRefund != 0 && 60 * (loan.repayDeadline - 120) < 60 * loan.dRefund + 86_400)
    ensures Applies(SweepBeforeAbort, loan, btc, sequentia) <==>
      (InBlocks(loan) && loan.abortAfter != 0 && loan.recoverAfter <= loan.abortAfter)
    ensures Applies(UpgradeFeeLow, loan, btc, sequentia) <==>
      (InBlocks(loan) && loan.abortAfter != 0 && loan.upgradeFee < 10_000)
    ensures Applies(SharedSecret, loan, btc, sequentia) <==>
      (InBlocks(loan) && loan.hW.Some? && loan.paymentHash == loan.hW)
  {
    assert HeightsOnly(loan) <==> InBlocks(loan) by {
      assert DeadlineOf(loan, DRefund) == loan.dRefund && DeadlineOf(loan, RepayDeadline) == loan.repayDeadline;
      assert DeadlineOf(loan, AbortAfter) == loan.abortAfter && DeadlineOf(loan, RecoverAfter) == loan.recoverAfter;
    }
  }

  /** A loan that is safe to enter at these tips, in blocks and seconds. */
  predicate Safe(loan: BtcLoan, btc: int, sequentia: int) {
    && InBlocks(loan)
    && (|| (loan.hW.None? && loan.abortAfter == 0 && loan.dRefund == 0)
        || (&& loan.hW.Some? && loan.abortAfter != 0 && loan.dRefund != 0
            && 60 * (loan.dRefund - sequentia) >= 7_200
            && 600 * (loan.abortAfter - btc) - 60 * (loan.dRefund - sequentia) >= 86_400))
    && 60 * (loan.repayDeadline - 120 - sequentia) >= 7_200
    && 600 * (loan.recoverAfter - btc) - 60 * (loan.repayDeadline - sequentia) >= 86_400
    && (loan.dRefund != 0 ==> 60 * (loan.repayDeadline - 120 - loan.dRefund) >= 86_400)
    && (loan.abortAfter != 0 ==> loan.recoverAfter > loan.abortAfter && loan.upgradeFee >= 10_000)
    && (loan.hW.Some? ==> loan.paymentHash != loan.hW)
  }

  lemma AcceptsExactly(loan: BtcLoan, btc: int, sequentia: int)
    ensures Accepts(loan, btc, sequentia) <==> Safe(loan, btc, sequentia)
  {
    EachProblem(loan, btc, sequentia);
    if !Accepts(loan, btc, sequentia) {
      var p :| Applies(p, loan, btc, sequentia);
      if p.TimeValued? {
        assert DeadlineOf(loan, p.which) >= LOCKTIME_THRESHOLD;
      }
    }
  }

  /** Where in the check a problem is looked for. */
  function Rank(p: Problem): (k: nat)
    ensures k < 13
    ensures p.TimeValued? <==> k < 4
  {
    match p
    case TimeValued(DRefund) => 0
    case TimeValued(RepayDeadline) => 1
    case TimeValued(AbortAfter) => 2
    case TimeValued(RecoverAfter) => 3
    case PartialOrigination => 4
    case PrincipalTooSoon => 5
    case AbortTooSoon => 6
    case RepayTooSoon => 7
    case RecoverTooSoon => 8
    case TermTooShort => 9
    case SweepBeforeAbort => 10
    case UpgradeFeeLow => 11
    case SharedSecret => 12
  }

  /** A list that names each problem ranked below `k` that applies, and no other, in order. */
  ghost predicate Lists(problems: seq<Problem>, k: nat, applies: Problem -> bool) {
    && (forall p :: p in problems <==> Rank(p) < k && applies(p))
    && forall i, j :: 0 <= i < j < |problems| ==> Rank(problems[i]) < Rank(problems[j])
  }

  function At(k: nat): (p: Problem)
    requires k < 13
    ensures Rank(p) == k
  {
    if k == 0 then TimeValued(DRefund)
    else if k == 1 then TimeValued(RepayDeadline)
    else if k == 2 then TimeValued(AbortAfter)
    else if k == 3 then TimeValued(RecoverAfter)
    else if k == 4 then PartialOrigination
    else if k == 5 then PrincipalTooSoon
    else if k == 6 then AbortTooSoon
    else if k == 7 then RepayTooSoon
    else if k == 8 then RecoverTooSoon
    else if k == 9 then TermTooShort
    else if k == 10 then SweepBeforeAbort
    else if k == 11 then UpgradeFeeLow
    else SharedSecret
  }

  /** What the first `k` tests put on the list. */
  ghost function Found(k: nat, applies: Problem -> bool): seq<Problem>
    requires k <= 13
  {
    if k == 0 then []
    else Found(k - 1, applies) + if applies(At(k - 1)) then [At(k - 1)] else []
  }

  lemma AtRank(p: Problem)
    ensures At(Rank(p)) == p
  {}

  lemma ListsMore(before: seq<Problem>, k: nat, applies: Problem -> bool, p: Problem)
    requires Lists(before, k, applies) && Rank(p) == k
    ensures Lists(before + if applies(p) then [p] else [], k + 1, applies)
  {
    var after := before + if applies(p) then [p] else [];
    forall q ensures q in after <==> Rank(q) < k + 1 && applies(q) {
      AtRank(p);
      AtRank(q);
      assert q in before <==> Rank(q) < k && applies(q);
    }
  }

  lemma {:induction false} FoundLists(k: nat, applies: Problem -> bool)
    requires k <= 13
    ensures Lists(Found(k, applies), k, applies)
  {
    if k > 0 {
      FoundLists(k - 1, applies);
      ListsMore(Found(k - 1, applies), k - 1, applies, At(k - 1));
    }
  }

  /** One test of the check: the problem joins the list when it applies. */
  method Note(ghost k: nat, ghost applies: Problem -> bool, problems: seq<Problem>, p: Problem, found: bool)
    returns (r: seq<Problem>)
    requires k < 13 && Rank(p) == k && found == applies(p)
    requires problems == Found(k, applies)
    ensures r == Found(k + 1, applies)
  {
    assert p == At(k);
    r := if found then problems + [p] else problems;
  }

  /** Deadlines a node would read as clock times. */
  method ClockProblems(loan: BtcLoan, btcHeight: int, seqHeight: int, before: seq<Problem>) returns (problems: seq<Problem>)
    requires before == Found(0, (p: Problem) => Applies(p, loan, btcHeight, seqHeight))
    ensures problems == Found(4, (p: Problem) => Applies(p, loan, btcHeight, seqHeight))
  {
    ghost var applies := (p: Problem) => Applies(p, loan, btcHeight, seqHeight);
    problems := before;
    problems := Note(0, applies, problems, TimeValued(DRefund), loan.dRefund >= LOCKTIME_THRESHOLD);
    problems := Note(1, applies, problems, TimeValued(RepayDeadline), loan.repayDeadline >= LOCKTIME_THRESHOLD);
    problems := Note(2, applies, problems, TimeValued(AbortAfter), loan.abortAfter >= LOCKTIME_THRESHOLD);
    problems := Note(3, applies, problems, TimeValued(RecoverAfter), loan.recoverAfter >= LOCKTIME_THRESHOLD);
  }

  /** Whether the origination names everything an abort needs, and leaves time for it. */
  method OriginationProblems(loan: BtcLoan, btcHeight: int, seqHeight: int, before: seq<Problem>) returns (problems: seq<Problem>)
    requires HeightsOnly(loan)
    requires before == Found(4, (p: Problem) => Applies(p, loan, btcHeight, seqHeight))
    ensures problems == Found(7, (p: Problem) => Applies(p, loan, btcHeight, seqHeight))
  {
    ghost var applies := (p: Problem) => Applies(p, loan, btcHeight, seqHeight);
    var btcAbort := BtcSeconds(loan.abortAfter, btcHeight);
    var seqRefund := SeqSeconds(loan.dRefund, seqHeight);
    var whole := loan.hW.Some? && loan.abortAfter != 0 && loan.dRefund != 0;
    problems := before;
    problems := Note(4, applies, problems, PartialOrigination, NamesOrigination(loan) && !whole);
    problems := Note(5, applies, problems, PrincipalTooSoon, whole && seqRefund < CLAIM_MARGIN_SECONDS);
    problems := Note(6, applies, problems, AbortTooSoon, whole && btcAbort - seqRefund < UPGRADE_MARGIN_SECONDS);
  }

  /** Whether the term leaves time to repay, to claim and to reclaim. */
  method TermProblems(loan: BtcLoan, btcHeight: int, seqHeight: int, before: seq<Problem>) returns (problems: seq<Problem>)
    requires HeightsOnly(loan)
    requires before == Found(7, (p: Problem) => Applies(p, loan, btcHeight, seqHeight))
    ensures problems == Found(10, (p: Problem) => Applies(p, loan, btcHeight, seqHeight))
  {
    ghost var applies := (p: Problem) => Applies(p, loan, btcHeight, seqHeight);
    var btcRecover := BtcSeconds(loan.recoverAfter, btcHeight);
    var seqRefund := SeqSeconds(loan.dRefund, seqHeight);
    var seqRepay := SeqSeconds(loan.repayDeadline, seqHeight);
    var seqEffective := SeqSeconds(EffectiveRepayDeadline(loan), seqHeight);
    problems := before;
    problems := Note(7, applies, problems, RepayTooSoon, seqEffective < CLAIM_MARGIN_SECONDS);
    problems := Note(8, applies, problems, RecoverTooSoon, btcRecover - seqRepay < REPAY_MARGIN_SECONDS);
    problems := Note(9, applies, problems, TermTooShort, loan.dRefund != 0 && seqEffective - seqRefund < TERM_MINIMUM_SECONDS);
  }

  /** The order of the sweep and the abort, the fee of the move, and the two secrets. */
  method LastProblems(loan: BtcLoan, btcHeight: int, seqHeight: int, before: seq<Problem>) returns (problems: seq<Problem>)
    requires HeightsOnly(loan)
    requires before == Found(10, (p: Problem) => Applies(p, loan, btcHeight, seqHeight))
    ensures problems == Found(13, (p: Problem) => Applies(p, loan, btcHeight, seqHeight))
  {
    ghost var applies := (p: Problem) => Applies(p, loan, btcHeight, seqHeight);
    var btcAbort := BtcSeconds(loan.abortAfter, btcHeight);
    var btcRecover := BtcSeconds(loan.recoverAfter, btcHeight);
    problems := before;
    problems := Note(10, applies, problems, SweepBeforeAbort, loan.abortAfter != 0 && btcRecover <= btcAbort);
    problems := Note(11, applies, problems, UpgradeFeeLow, loan.abortAfter != 0 && loan.upgradeFee < MIN_UPGRADE_FEE);
    problems := Note(12, applies, problems, SharedSecret, loan.paymentHash.Some? && loan.hW.Some? && loan.paymentHash == loan.hW);
  }

  /** The check itself: it collects problems one test after another, and stops
      early when a deadline is a clock time, because no margin can then be read. */
  method TimelocksSane(loan: BtcLoan, btcHeight: int, seqHeight: int) returns (problems: seq<Problem>)
    ensures Lists(problems, 13, (p: Problem) => Applies(p, loan, btcHeight, seqHeight))
    ensures problems == [] <==> Safe(loan, btcHeight, seqHeight)
    ensures forall p :: p in problems <==> Applies(p, loan, btcHeight, seqHeight)
    ensures (exists p :: p in problems && p.TimeValued?) ==> forall p :: p in problems ==> p.TimeValued?
  {
    ghost var applies := (p: Problem) => Applies(p, loan, btcHeight, seqHeight);
    problems := ClockProblems(loan, btcHeight, seqHeight, []);
    FoundLists(4, applies);
    if problems == [] {
      forall which ensures DeadlineOf(loan, which) < LOCKTIME_THRESHOLD {
        assert TimeValued(which) !in problems;
      }
      problems := OriginationProblems(loan, btcHeight, seqHeight, problems);
      problems := TermProblems(loan, btcHeight, seqHeight, problems);
      problems := LastProblems(loan, btcHeight, seqHeight, problems);
      FoundLists(13, applies);
    } else {
      assert problems[0] in problems;
    }
    EmptyMeansAccepted(problems, loan, btcHeight, seqHeight);
    AcceptsExactly(loan, btcHeight, seqHeight);
  }

  lemma EmptyMeansAccepted(problems: seq<Problem>, loan: BtcLoan, btcHeight: int, seqHeight: int)
    requires Lists(problems, 13, (p: Problem) => Applies(p, loan, btcHeight, seqHeight))
    ensures problems == [] <==> Accepts(loan, btcHeight, seqHeight)
  {
    if problems == [] {
      forall p ensures !Applies(p, loan, btcHeight, seqHeight) {
        assert p !in problems;
      }
    } else {
      assert problems[0] in problems;
    }
  }
}
