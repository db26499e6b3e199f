/** An exit accounts for itself: the evidence a seizure's spender pushes, what reading it
    back finds, and what is said of the exit. */
module Explain {
  import opened Wrappers
  import opened Vault2
  import opened Compose2
  import opened Exits
  import Scan
  import T = Terms

  // ------------------------------------------------------------ the evidence

  /** A witness item: an eight-byte number, a signature, nothing, or other bytes. */
  datatype Item = Num(n: int) | Signature(sig: nat) | Empty | Push(id: Scan.Id)

  datatype Attested = Attested(price: nat, timestamp: nat, sig: nat)

  function SlotItems(slot: Option<Attested>): seq<Item> {
    match slot
    case None => [Num(0), Num(0), Empty]
    case Some(a) => [Num(a.price), Num(a.timestamp), Signature(a.sig)]
  }

  /** One slot for each key, the last key's first. */
  function SlotsData(slots: seq<Option<Attested>>): seq<Item> {
    if slots == [] then [] else SlotItems(slots[|slots| - 1]) + SlotsData(slots[..|slots| - 1])
  }

  lemma Regroup(a: seq<Item>, b: seq<Item>, c: seq<Item>)
    ensures a + (b + c) == (a + b) + c
  {}

  /** The last slot's items come first. */
  lemma LastSlot(slots: seq<Option<Attested>>, j: nat)
    requires j < |slots|
    ensures SlotsData(slots[..j + 1]) == SlotItems(slots[j]) + SlotsData(slots[..j])
  {
    assert slots[..j + 1][..j] == slots[..j];
  }

  method ThresholdData(slots: seq<Option<Attested>>) returns (data: seq<Item>)
    ensures data == SlotsData(slots)
  {
    data := [];
    var j := |slots|;
    assert slots[..j] == slots;
    while j > 0
      invariant 0 <= j <= |slots| && data + SlotsData(slots[..j]) == SlotsData(slots)
    {
      j := j - 1;
      LastSlot(slots, j);
      Regroup(data, SlotItems(slots[j]), SlotsData(slots[..j]));
      data := data + SlotItems(slots[j]);
    }
    assert data + [] == data;
  }

  /** The witness data of a seizure: flat for a loan that names one oracle, slots for a set. */
  function Evidence(t: T.LoanTerms, slots: seq<Option<Attested>>): seq<Item> {
    if t.oracles != [] then SlotsData(slots)
    else if |slots| == 1 && slots[0].Some? then
      var a := slots[0].value;
      [Signature(a.sig), Num(a.price), Num(a.timestamp)]
    else []
  }

  // --------------------------------------------------------------- reading it

  /** What is read of one key's attestation. */
  datatype Row = Row(key: nat, price: Option<int>, timestamp: Option<int>, present: bool, verified: bool)

  /** Whether a signature is a key's over a price and time of this market. */
  type Signed = (nat, int, int, nat) -> bool

  function Number(i: Item): Option<int> { if i.Num? then Some(i.n) else None }

  function ReadRow(signed: Signed, key: nat, price: Item, timestamp: Item, sig: Item): Row {
    Row(key, Number(price), Number(timestamp), sig != Empty,
        price.Num? && timestamp.Num? && sig.Signature? && signed(key, price.n, timestamp.n, sig.sig))
  }

  function RowAt(signed: Signed, keys: seq<nat>, data: seq<Item>, i: nat): Row
    requires i < |keys| && |data| >= 3 * |keys|
  {
    var base := (|keys| - 1 - i) * 3;
    ReadRow(signed, keys[i], data[base], data[base + 1], data[base + 2])
  }

  function Rows(signed: Signed, keys: seq<nat>, threshold: int, data: seq<Item>): seq<Row> {
    if |keys| == 1 && threshold == 1 then
      if |data| >= 3 then [ReadRow(signed, keys[0], data[1], data[2], data[0])] else []
    else if |data| < 3 * |keys| then []
    else seq(|keys|, i requires 0 <= i < |keys| => RowAt(signed, keys, data, i))
  }

  method ReadAttestations(signed: Signed, keys: seq<nat>, threshold: int, data: seq<Item>) returns (rows: seq<Row>)
    ensures rows == Rows(signed, keys, threshold, data)
  {
    rows := [];
    if |keys| == 1 && threshold == 1 {
      if |data| >= 3 {
        rows := rows + [ReadRow(signed, keys[0], data[1], data[2], data[0])];
      }
      return;
    }
    var n := |keys|;
    if |data| < 3 * n {
      return;
    }
    for i := 0 to n
      invariant |rows| == i && forall j :: 0 <= j < i ==> rows[j] == RowAt(signed, keys, data, j)
    {
      var base := (n - 1 - i) * 3;
      rows := rows + [ReadRow(signed, keys[i], data[base], data[base + 1], data[base + 2])];
    }
  }

  /** What a slot should be read as. */
  function Meant(signed: Signed, key: nat, slot: Option<Attested>): Row {
    match slot
    case None => Row(key, Some(0), Some(0), false, false)
    case Some(a) => Row(key, Some(a.price), Some(a.timestamp), true, signed(key, a.price, a.timestamp, a.sig))
  }

  ghost predicate ReadsAsMeant(signed: Signed, keys: seq<nat>, slots: seq<Option<Attested>>, rows: seq<Row>) {
    |rows| == |keys| == |slots| && forall i :: 0 <= i < |rows| ==> rows[i] == Meant(signed, keys[i], slots[i])
  }

  lemma {:induction false} SlotsLong(slots: seq<Option<Attested>>)
    ensures |SlotsData(slots)| == 3 * |slots|
  {
    if slots != [] {
      SlotsLong(slots[..|slots| - 1]);
    }
  }

  lemma {:induction false} SlotAt(slots: seq<Option<Attested>>, i: nat, at: nat, part: nat)
    requires i < |slots| && part < 3 && at == 3 * (|slots| - 1 - i) + part
    ensures at < |SlotsData(slots)| && SlotsData(slots)[at] == SlotItems(slots[i])[part]
  {
    var before := slots[..|slots| - 1];
    SlotsLong(before);
    if i < |before| {
      SlotAt(before, i, at - 3, part);
      assert before[i] == slots[i];
    }
  }

  lemma RowMeant(signed: Signed, keys: seq<nat>, slots: seq<Option<Attested>>, i: nat)
    requires i < |keys| == |slots|
    ensures |SlotsData(slots)| == 3 * |keys| && RowAt(signed, keys, SlotsData(slots), i) == Meant(signed, keys[i], slots[i])
  {
    SlotsLong(slots);
    var base := 3 * (|slots| - 1 - i);
    SlotAt(slots, i, base, 0);
    SlotAt(slots, i, base + 1, 1);
    SlotAt(slots, i, base + 2, 2);
  }

  /** The slots of a set of oracles read back as they were meant exactly when there is more
      than one oracle in the set; a set of one is read in the layout of a loan that names
      its oracle by itself. */
  lemma SlotsReadBack(signed: Signed, keys: seq<nat>, threshold: int, slots: seq<Option<Attested>>)
    requires |slots| == |keys| && 1 <= threshold <= |keys|
    ensures ReadsAsMeant(signed, keys, slots, Rows(signed, keys, threshold, SlotsData(slots))) <==> |keys| > 1
    ensures |keys| == 1 ==>
      var rows := Rows(signed, keys, threshold, SlotsData(slots));
      |rows| == 1 && rows[0].present && !rows[0].verified
  {
    SlotsLong(slots);
    if |keys| > 1 {
      var rows := Rows(signed, keys, threshold, SlotsData(slots));
      forall i | 0 <= i < |keys| ensures rows[i] == Meant(signed, keys[i], slots[i]) {
        RowMeant(signed, keys, slots, i);
      }
    } else {
      OneMisread(signed, keys, slots);
    }
  }

  lemma OneMisread(signed: Signed, keys: seq<nat>, slots: seq<Option<Attested>>)
    requires |slots| == |keys| == 1
    ensures var rows := Rows(signed, keys, 1, SlotsData(slots));
      |rows| == 1 && rows[0].present && !rows[0].verified && rows[0] != Meant(signed, keys[0], slots[0])
  {
    SlotsLong(slots);
    SlotAt(slots, 0, 0, 0);
    SlotAt(slots, 0, 1, 1);
    SlotAt(slots, 0, 2, 2);
  }

  // ------------------------------------------------------- judging the evidence

  datatype Problem =
    | Unverified(key: nat) | Early(key: nat) | TooFew | NoPrice | NotUnderStrike
    | LenderNotSeen | LenderShort | BorrowerShort | SweepShort

  function RowProblem(t: T.LoanTerms, row: Row): seq<Problem> {
    if row.present && !row.verified then [Unverified(row.key)]
    else if row.verified && row.timestamp.Some? && row.timestamp.value < t.notBefore then [Early(row.key)]
    else []
  }

  function RowProblems(t: T.LoanTerms, rows: seq<Row>): seq<Problem> {
    if rows == [] then [] else RowProblems(t, rows[..|rows| - 1]) + RowProblem(t, rows[|rows| - 1])
  }

  function Verified(rows: seq<Row>): nat {
    if rows == [] then 0 else Verified(rows[..|rows| - 1]) + (if rows[|rows| - 1].verified then 1 else 0)
  }

  predicate Priced(row: Row) { row.verified && row.price.Some? }

  /** The highest of the verified prices. */
  function PriceUsed(rows: seq<Row>): Option<int> {
    if rows == [] then None
    else
      var before, last := PriceUsed(rows[..|rows| - 1]), rows[|rows| - 1];
      if !Priced(last) then before
      else if before.Some? then Some(T.Max(before.value, last.price.value))
      else last.price
  }

  function PriceProblem(t: T.LoanTerms, exit: Scan.VaultState, used: Option<int>): seq<Problem> {
    match used
    case None => [NoPrice]
    case Some(price) => if exit == Scan.LIQUIDATED && price >= t.strike then [NotUnderStrike] else []
  }

  function EvidenceProblems(t: T.LoanTerms, exit: Scan.VaultState, rows: seq<Row>): seq<Problem> {
    RowProblems(t, rows) + (if Verified(rows) < T.Threshold(t) then [TooFew] else []) + PriceProblem(t, exit, PriceUsed(rows))
  }

  method JudgeEvidence(t: T.LoanTerms, exit: Scan.VaultState, rows: seq<Row>) returns (used: Option<int>, problems: seq<Problem>)
    ensures used == PriceUsed(rows) && problems == EvidenceProblems(t, exit, rows)
  {
    used, problems := None, [];
    var ok := 0;
    for i := 0 to |rows|
      invariant used == PriceUsed(rows[..i]) && problems == RowProblems(t, rows[..i]) && ok == Verified(rows[..i])
    {
      assert rows[..i + 1][..i] == rows[..i];
      var a := rows[i];
      if a.verified && a.price.Some? {
        used := if used.Some? then Some(T.Max(used.value, a.price.value)) else a.price;
      }
      if a.present && !a.verified {
        problems := problems + [Unverified(a.key)];
      } else if a.verified && a.timestamp.Some? && a.timestamp.value < t.notBefore {
        problems := problems + [Early(a.key)];
      }
      ok := if a.verified then ok + 1 else ok;
    }
    assert rows[..|rows|] == rows;
    if ok < T.Threshold(t) {
      problems := problems + [TooFew];
    }
    if used == None {
      problems := problems + [NoPrice];
    } else if exit == Scan.LIQUIDATED && used.value >= t.strike {
      problems := problems + [NotUnderStrike];
    }
  }

  // ------------------------------------------------------------- the payouts

  /** What an output pays someone of an asset: nothing when there is no such output, and no
      answer when it pays another, in another asset, or is blinded. */
  function Paid(outs: seq<Out>, i: nat, spk: Spk, asset: Id): Option<nat> {
    if i >= |outs| then Some(0)
    else if outs[i].spk != spk || outs[i].asset != asset || !outs[i].explicit then None
    else Some(outs[i].amount)
  }

  predicate Seized(exit: Scan.VaultState) { exit == Scan.LIQUIDATED || exit == Scan.DEFAULTED }

  /** What is said of an exit's payouts. */
  datatype Payouts = Payouts(
    lenderPaid: Option<nat>, seizePaid: Option<int>, seizeExpected: Option<int>,
    surplusPaid: Option<nat>, surplusExpected: Option<int>, problems: seq<Problem>)

  const NOTHING: Payouts := Payouts(None, None, None, None, None, [])

  function LenderProblem(loan: Loan, paid: Option<nat>): seq<Problem> {
    if paid.None? then [LenderNotSeen] else if paid.value < loan.debt then [LenderShort] else []
  }

  function Swept(loan: Loan, outs: seq<Out>, k: nat): Payouts {
    var swept := Paid(outs, 2 * k, loan.lender, loan.collateralAsset);
    Payouts(swept, swept, Some(loan.collateral), Some(0), Some(0),
            if swept.None? || swept.value < loan.collateral then [SweepShort] else [])
  }

  /** The payouts of an exit that returns something: with what was expected of it, if known. */
  function Settled(loan: Loan, outs: seq<Out>, k: nat, seize: Option<int>, surplus: Option<int>): Payouts {
    var lender, home := Paid(outs, 2 * k, loan.lender, loan.debtAsset), Paid(outs, 2 * k + 1, loan.borrower, loan.collateralAsset);
    var returned := if home.Some? then home.value else 0;
    Payouts(lender, if home.Some? then Some(loan.collateral - returned) else None, seize, Some(returned), surplus,
            LenderProblem(loan, lender) + (if surplus.Some? && returned < surplus.value then [BorrowerShort] else []))
  }

  /** No answer where the arithmetic has none: a price below one. */
  function PayoutsOf(t: T.LoanTerms, loan: Loan, exit: Scan.VaultState, used: Option<int>, outs: seq<Out>, k: nat): Option<Payouts>
    requires t.bonusDen > 0
  {
    if exit == Scan.RECOVERED then Some(Swept(loan, outs, k))
    else if exit == Scan.REPAID then Some(Settled(loan, outs, k, Some(0), Some(loan.collateral)))
    else if !Seized(exit) then Some(NOTHING)
    else if used.None? then Some(Settled(loan, outs, k, None, None))
    else if used.value < 1 then None
    else Some(Settled(loan, outs, k, Some(T.SeizureAt(t, used.value)), Some(T.SurplusAt(t, loan.collateral, used.value))))
  }

  method ReadPayouts(t: T.LoanTerms, loan: Loan, exit: Scan.VaultState, used: Option<int>, outs: seq<Out>, k: nat) returns (p: Option<Payouts>)
    requires t.bonusDen > 0
    ensures p == PayoutsOf(t, loan, exit, used, outs, k)
  {
    var o := NOTHING;
    if exit == Scan.RECOVERED {
      var swept := Paid(outs, 2 * k, loan.lender, loan.collateralAsset);
      o := o.(lenderPaid := swept, seizePaid := swept, seizeExpected := Some(loan.collateral), surplusPaid := Some(0), surplusExpected := Some(0));
      if swept.None? || swept.value < loan.collateral {
        o := o.(problems := o.problems + [SweepShort]);
      }
      assert o.problems == Swept(loan, outs, k).problems;
      return Some(o);
    }
    if exit != Scan.REPAID && !Seized(exit) {
      return Some(o);
    }
    o := o.(lenderPaid := Paid(outs, 2 * k, loan.lender, loan.debtAsset));
    var surplus := Paid(outs, 2 * k + 1, loan.borrower, loan.collateralAsset);
    o := o.(surplusPaid := if surplus.Some? then surplus else Some(0));
    if surplus.Some? {
      o := o.(seizePaid := Some(loan.collateral - surplus.value));
    }
    if exit == Scan.REPAID {
      o := o.(surplusExpected := Some(loan.collateral), seizeExpected := Some(0));
    } else if used.Some? {
      if used.value < 1 {
        return None;
      }
      o := o.(seizeExpected := Some(T.SeizureAt(t, used.value)), surplusExpected := Some(T.SurplusAt(t, loan.collateral, used.value)));
    }
    if o.lenderPaid.None? {
      o := o.(problems := o.problems + [LenderNotSeen]);
    } else if o.lenderPaid.value < loan.debt {
      o := o.(problems := o.problems + [LenderShort]);
    }
    if o.surplusExpected.Some? && o.surplusPaid.value < o.surplusExpected.value {
      o := o.(problems := o.problems + [BorrowerShort]);
    }
    assert o.problems == LenderProblem(loan, o.lenderPaid)
      + (if o.surplusExpected.Some? && o.surplusPaid.value < o.surplusExpected.value then [BorrowerShort] else []);
    return Some(o);
  }

  /** Whether an output can be read as paying someone an asset. */
  predicate Readable(outs: seq<Out>, i: nat, spk: Spk, asset: Id) {
    i < |outs| && outs[i].spk == spk && outs[i].asset == asset && outs[i].explicit
  }

  /** What a repayment or a seizure is said to have paid: what went to the lender and, out of
      the collateral, to the borrower, and the rest of it as seized. */
  lemma PayoutsSaid(t: T.LoanTerms, loan: Loan, exit: Scan.VaultState, used: Option<int>, outs: seq<Out>, k: nat)
    requires t.bonusDen > 0 && (exit == Scan.REPAID || Seized(exit)) && PayoutsOf(t, loan, exit, used, outs, k).Some?
    ensures var p := PayoutsOf(t, loan, exit, used, outs, k).value;
      var lender, home := Readable(outs, 2 * k, loan.lender, loan.debtAsset), Readable(outs, 2 * k + 1, loan.borrower, loan.collateralAsset);
      && (p.lenderPaid.None? <==> 2 * k < |outs| && !lender)
      && (p.lenderPaid.Some? ==> p.lenderPaid.value == if lender then outs[2 * k].amount else 0)
      && p.surplusPaid == Some(if home then outs[2 * k + 1].amount else 0)
      && (p.seizePaid.None? <==> 2 * k + 1 < |outs| && !home)
      && (p.seizePaid.Some? ==> p.seizePaid.value + p.surplusPaid.value == loan.collateral)
  {}

  /** What was to be expected: at a repayment all of the collateral home, at a price what it
      does not seize of it, and without one nothing. */
  lemma PayoutsExpected(t: T.LoanTerms, loan: Loan, exit: Scan.VaultState, used: Option<int>, outs: seq<Out>, k: nat)
    requires t.bonusDen > 0 && (exit == Scan.REPAID || Seized(exit)) && PayoutsOf(t, loan, exit, used, outs, k).Some?
    ensures var p := PayoutsOf(t, loan, exit, used, outs, k).value;
      && (exit == Scan.REPAID ==> p.seizeExpected == Some(0) && p.surplusExpected == Some(loan.collateral))
      && (Seized(exit) ==> (p.seizeExpected.Some? <==> used.Some?) && (p.surplusExpected.Some? <==> used.Some?))
      && (Seized(exit) && used.Some? ==>
            && p.seizeExpected == Some(T.SeizureAt(t, used.value))
            && p.surplusExpected.value == if p.seizeExpected.value < loan.collateral then loan.collateral - p.seizeExpected.value else 0)
  {}

  /** Which payout is called wrong. */
  lemma PayoutProblems(t: T.LoanTerms, loan: Loan, exit: Scan.VaultState, used: Option<int>, outs: seq<Out>, k: nat)
    requires t.bonusDen > 0 && PayoutsOf(t, loan, exit, used, outs, k).Some?
    ensures var p := PayoutsOf(t, loan, exit, used, outs, k).value;
      && (exit == Scan.REPAID || Seized(exit) ==>
            && (LenderNotSeen in p.problems <==> p.lenderPaid.None?)
            && (LenderShort in p.problems <==> p.lenderPaid.Some? && p.lenderPaid.value < loan.debt)
            && (BorrowerShort in p.problems <==> p.surplusExpected.Some? && p.surplusPaid.value < p.surplusExpected.value)
            && SweepShort !in p.problems)
      && (exit == Scan.RECOVERED ==>
            && (p.problems == [] || p.problems == [SweepShort])
            && (p.problems == [] <==>
                  if 2 * k >= |outs| then loan.collateral == 0
                  else Readable(outs, 2 * k, loan.lender, loan.collateralAsset) && outs[2 * k].amount >= loan.collateral)
            && p.lenderPaid == p.seizePaid && p.seizeExpected == Some(loan.collateral) && p.surplusPaid == p.surplusExpected == Some(0)
            && (Readable(outs, 2 * k, loan.lender, loan.collateralAsset) ==> p.lenderPaid == Some(outs[2 * k].amount)))
      && (exit != Scan.REPAID && !Seized(exit) && exit != Scan.RECOVERED ==> p == NOTHING)
  {}

  // -------------------------------------------------------------- explaining

  /** What a watcher takes an item for where it looks for a leaf or a selector. */
  type Coding = Item -> Scan.Id

  ghost predicate Coded(code: Coding) { forall id :: code(Push(id)) == id }

  function Codes(code: Coding, stack: seq<Item>): (ids: seq<Scan.Id>)
    ensures |ids| == |stack| && forall i :: 0 <= i < |ids| ==> ids[i] == code(stack[i])
  {
    seq(|stack|, i requires 0 <= i < |stack| => code(stack[i]))
  }

  /** The witness without leaf, control block and, in a single-leaf vault, selector. */
  function DataOf(v: Scan.Vault, stack: seq<Item>): seq<Item> {
    var tail := if v.singleLeaf then 3 else 2;
    if |stack| < tail then [] else stack[..|stack| - tail]
  }

  datatype Explanation = Explanation(
    exit: Scan.VaultState, attestations: seq<Row>, priceUsed: Option<int>, payouts: Payouts, problems: seq<Problem>)

  /** A vault's terms as the three modules that use them see them. */
  ghost predicate Agree(t: T.LoanTerms, loan: Loan, keys: seq<nat>) {
    T.Accepted(t) && loan.debt == t.debt && (if t.oracles == [] then |keys| == 1 else keys == t.oracles)
  }

  function Explained(signed: Signed, code: Coding, v: Scan.Vault, t: T.LoanTerms, loan: Loan, keys: seq<nat>,
                     stack: seq<Item>, outs: seq<Out>, k: nat): Option<Explanation>
    requires t.bonusDen > 0
  {
    var exit := Scan.NameExit(v, Codes(code, stack));
    var rows := if Seized(exit) then Rows(signed, keys, T.Threshold(t), DataOf(v, stack)) else [];
    var judged := if Seized(exit) then EvidenceProblems(t, exit, rows) else [];
    var payouts := PayoutsOf(t, loan, exit, PriceUsed(rows), outs, k);
    if payouts.None? then None
    else Some(Explanation(exit, rows, PriceUsed(rows), payouts.value, judged + payouts.value.problems))
  }

  method ExplainExit(signed: Signed, code: Coding, v: Scan.Vault, t: T.LoanTerms, loan: Loan, keys: seq<nat>,
                     stack: seq<Item>, outs: seq<Out>, k: nat) returns (e: Option<Explanation>)
    requires t.bonusDen > 0
    ensures e == Explained(signed, code, v, t, loan, keys, stack, outs, k)
  {
    var exit := Scan.NameExit(v, Codes(code, stack));
    var rows, used, problems := [], None, [];
    if Seized(exit) {
      rows := ReadAttestations(signed, keys, T.Threshold(t), DataOf(v, stack));
      used, problems := JudgeEvidence(t, exit, rows);
    }
    var p := ReadPayouts(t, loan, exit, used, outs, k);
    return if p.None? then None else Some(Explanation(exit, rows, used, p.value, problems + p.value.problems));
  }

  // ------------------------------------------------------ what no problem means

  ghost predicate Signers(rows: seq<Row>, signers: set<nat>) {
    forall i :: i in signers ==> i < |rows| && rows[i].verified
  }

  /** The evidence the covenant asks for: everything presented verifies and is not from
      before the loan, there is enough of it, and a liquidation is under the strike. */
  ghost predicate Proven(t: T.LoanTerms, exit: Scan.VaultState, rows: seq<Row>) {
    && (forall i :: 0 <= i < |rows| && rows[i].present ==> rows[i].verified && rows[i].timestamp.Some? && rows[i].timestamp.value >= t.notBefore)
    && (exists signers: set<nat> :: Signers(rows, signers) && |signers| >= T.Threshold(t))
    && (exit == Scan.LIQUIDATED ==> forall i :: 0 <= i < |rows| && Priced(rows[i]) ==> rows[i].price.value < t.strike)
  }

  /** The highest verified price. */
  ghost predicate HighestVerified(rows: seq<Row>, price: int) {
    && (exists i :: 0 <= i < |rows| && Priced(rows[i]) && rows[i].price.value == price)
    && (forall i :: 0 <= i < |rows| && Priced(rows[i]) ==> rows[i].price.value <= price)
  }

  predicate AtLeast(paid: Option<nat>, amount: int) { paid.Some? && paid.value >= amount }

  /** An output that cannot be read as the borrower's returns them nothing. */
  predicate Home(outs: seq<Out>, k: nat, loan: Loan, amount: int) {
    amount <= 0 || AtLeast(Paid(outs, 2 * k + 1, loan.borrower, loan.collateralAsset), amount)
  }

  ghost predicate Accounted(t: T.LoanTerms, loan: Loan, exit: Scan.VaultState, rows: seq<Row>, outs: seq<Out>, k: nat)
    requires t.bonusDen > 0
  {
    var credited := AtLeast(Paid(outs, 2 * k, loan.lender, loan.debtAsset), loan.debt);
    match exit
    case REPAID => credited && Home(outs, k, loan, loan.collateral)
    case RECOVERED => AtLeast(Paid(outs, 2 * k, loan.lender, loan.collateralAsset), loan.collateral)
    case LIQUIDATED => Proven(t, exit, rows) && credited
      && exists price: int :: price >= 1 && HighestVerified(rows, price) && Home(outs, k, loan, T.SurplusAt(t, loan.collateral, price))
    case DEFAULTED => Proven(t, exit, rows) && credited
      && exists price: int :: price >= 1 && HighestVerified(rows, price) && Home(outs, k, loan, T.SurplusAt(t, loan.collateral, price))
    case _ => true
  }

  lemma {:induction false} VerifiedSigners(rows: seq<Row>, signers: set<nat>)
    requires Signers(rows, signers)
    ensures |signers| <= Verified(rows)
  {
    if rows == [] {
      assert signers == {};
    } else {
      var last := |rows| - 1;
      forall i | i in signers - {last} ensures i < last && rows[..last][i].verified {
        assert rows[..last][i] == rows[i];
      }
      VerifiedSigners(rows[..last], signers - {last});
      assert signers <= (signers - {last}) + {last};
      Fewer(signers, (signers - {last}) + {last});
    }
  }

  lemma {:induction false} SignersOf(rows: seq<Row>) returns (signers: set<nat>)
    ensures |signers| == Verified(rows) && Signers(rows, signers)
  {
    signers := {};
    if rows != [] {
      var last := |rows| - 1;
      signers := SignersOf(rows[..last]);
      forall i | i in signers ensures i < last && rows[i].verified {
        assert rows[..last][i] == rows[i];
      }
      if rows[last].verified {
        signers := signers + {last};
      }
    }
  }

  lemma {:induction false} PriceUsedIs(rows: seq<Row>)
    ensures PriceUsed(rows).Some? ==> HighestVerified(rows, PriceUsed(rows).value)
    ensures PriceUsed(rows).None? ==> forall i :: 0 <= i < |rows| ==> !Priced(rows[i])
  {
    if rows != [] {
      var before := rows[..|rows| - 1];
      PriceUsedIs(before);
      assert forall i :: 0 <= i < |before| ==> before[i] == rows[i];
      if PriceUsed(before).Some? {
        var i :| 0 <= i < |before| && Priced(before[i]) && before[i].price.value == PriceUsed(before).value;
        assert Priced(rows[i]) && rows[i].price.value == PriceUsed(before).value;
      }
    }
  }

  lemma HighestOnce(rows: seq<Row>, a: int, b: int)
    requires HighestVerified(rows, a) && HighestVerified(rows, b)
    ensures a == b
  {
    var i :| 0 <= i < |rows| && Priced(rows[i]) && rows[i].price.value == a;
    var j :| 0 <= j < |rows| && Priced(rows[j]) && rows[j].price.value == b;
  }

  lemma {:induction false} NoRowProblem(t: T.LoanTerms, rows: seq<Row>)
    ensures RowProblems(t, rows) == [] <==> forall i :: 0 <= i < |rows| ==> RowProblem(t, rows[i]) == []
  {
    if rows != [] {
      var before := rows[..|rows| - 1];
      NoRowProblem(t, before);
      assert forall i :: 0 <= i < |before| ==> before[i] == rows[i];
      assert RowProblems(t, rows) == [] <==> RowProblems(t, before) == [] && RowProblem(t, rows[|rows| - 1]) == [];
    }
  }

  /** What every row read out of a witness is like. */
  ghost predicate Sound(rows: seq<Row>) {
    forall i :: 0 <= i < |rows| && rows[i].verified ==> rows[i].present && rows[i].price.Some? && rows[i].timestamp.Some?
  }

  lemma RowsSound(signed: Signed, keys: seq<nat>, threshold: int, data: seq<Item>)
    ensures Sound(Rows(signed, keys, threshold, data))
  {}

  lemma ProvenExactly(t: T.LoanTerms, exit: Scan.VaultState, rows: seq<Row>)
    requires Sound(rows)
    requires PriceUsed(rows).Some?
    ensures EvidenceProblems(t, exit, rows) == [] <==> Proven(t, exit, rows)
  {
    NoRowProblem(t, rows);
    PriceUsedIs(rows);
    var signers := SignersOf(rows);
    var price := PriceUsed(rows).value;
    if Proven(t, exit, rows) {
      var some: set<nat> :| Signers(rows, some) && |some| >= T.Threshold(t);
      VerifiedSigners(rows, some);
    }
    forall i | 0 <= i < |rows| ensures RowProblem(t, rows[i]) == []
      <==> (rows[i].present ==> rows[i].verified && rows[i].timestamp.Some? && rows[i].timestamp.value >= t.notBefore) {}
  }

  ghost predicate Unproven(rows: seq<Row>, key: nat) {
    exists i :: 0 <= i < |rows| && rows[i].key == key && rows[i].present && !rows[i].verified
  }

  ghost predicate TooEarly(t: T.LoanTerms, rows: seq<Row>, key: nat) {
    exists i :: 0 <= i < |rows| && rows[i].key == key && rows[i].verified && rows[i].timestamp.Some? && rows[i].timestamp.value < t.notBefore
  }

  /** Which evidence is called wrong. */
  lemma EvidenceSaid(t: T.LoanTerms, exit: Scan.VaultState, rows: seq<Row>)
    requires Sound(rows)
    ensures forall key :: Unverified(key) in EvidenceProblems(t, exit, rows) <==> Unproven(rows, key)
    ensures forall key :: Early(key) in EvidenceProblems(t, exit, rows) <==> TooEarly(t, rows, key)
    ensures TooFew in EvidenceProblems(t, exit, rows) <==> forall signers: set<nat> :: Signers(rows, signers) ==> |signers| < T.Threshold(t)
    ensures NoPrice in EvidenceProblems(t, exit, rows) <==> forall i :: 0 <= i < |rows| ==> !rows[i].verified
    ensures NotUnderStrike in EvidenceProblems(t, exit, rows) <==>
      (exit == Scan.LIQUIDATED && exists i :: 0 <= i < |rows| && rows[i].verified && rows[i].price.value >= t.strike)
  {
    RowsSaid(t, rows);
    PriceUsedIs(rows);
    var most := SignersOf(rows);
    forall signers: set<nat> | Signers(rows, signers) ensures |signers| <= Verified(rows) {
      VerifiedSigners(rows, signers);
    }
  }

  lemma {:induction false} RowsSaid(t: T.LoanTerms, rows: seq<Row>)
    ensures forall p :: p in RowProblems(t, rows) ==> p.Unverified? || p.Early?
    ensures forall key :: Unverified(key) in RowProblems(t, rows) <==> Unproven(rows, key)
    ensures forall key :: Early(key) in RowProblems(t, rows) <==> TooEarly(t, rows, key)
  {
    if rows != [] {
      var before, last := rows[..|rows| - 1], rows[|rows| - 1];
      RowsSaid(t, before);
      forall key ensures Unproven(rows, key) <==> Unproven(before, key) || RowProblem(t, last) == [Unverified(key)] {
        UnprovenMore(before, last, key);
        assert rows == before + [last];
      }
      forall key ensures TooEarly(t, rows, key) <==> TooEarly(t, before, key) || RowProblem(t, last) == [Early(key)] {
        EarlyMore(t, before, last, key);
        assert rows == before + [last];
      }
    }
  }

  lemma UnprovenMore(before: seq<Row>, last: Row, key: nat)
    ensures Unproven(before + [last], key) <==> Unproven(before, key) || (last.key == key && last.present && !last.verified)
  {
    var rows := before + [last];
    assert rows[|before|] == last && forall i :: 0 <= i < |before| ==> rows[i] == before[i];
  }

  lemma EarlyMore(t: T.LoanTerms, before: seq<Row>, last: Row, key: nat)
    ensures TooEarly(t, before + [last], key)
      <==> TooEarly(t, before, key) || (last.key == key && last.verified && last.timestamp.Some? && last.timestamp.value < t.notBefore)
  {
    var rows := before + [last];
    assert rows[|before|] == last && forall i :: 0 <= i < |before| ==> rows[i] == before[i];
  }

  lemma NothingProven(t: T.LoanTerms, exit: Scan.VaultState, rows: seq<Row>)
    requires PriceUsed(rows).None?
    ensures EvidenceProblems(t, exit, rows) != []
    ensures forall price :: !HighestVerified(rows, price)
  {
    PriceUsedIs(rows);
    var problems := EvidenceProblems(t, exit, rows);
    assert problems[|problems| - 1] == NoPrice;
  }

  /** An exit is explained without a problem exactly when its evidence is what the covenant
      asks for and its outputs are what the price buys. */
  lemma NoProblemExactly(signed: Signed, code: Coding, v: Scan.Vault, t: T.LoanTerms, loan: Loan, keys: seq<nat>,
                         stack: seq<Item>, outs: seq<Out>, k: nat)
    requires t.bonusDen > 0 && Explained(signed, code, v, t, loan, keys, stack, outs, k).Some?
    ensures var e := Explained(signed, code, v, t, loan, keys, stack, outs, k).value;
      e.problems == [] <==> Accounted(t, loan, e.exit, e.attestations, outs, k)
  {
    var e := Explained(signed, code, v, t, loan, keys, stack, outs, k).value;
    if Seized(e.exit) {
      RowsSound(signed, keys, T.Threshold(t), DataOf(v, stack));
      SeizedExactly(t, loan, e.exit, e.attestations, outs, k);
    }
  }

  lemma SeizedExactly(t: T.LoanTerms, loan: Loan, exit: Scan.VaultState, rows: seq<Row>, outs: seq<Out>, k: nat)
    requires t.bonusDen > 0 && Seized(exit) && Sound(rows)
    requires PayoutsOf(t, loan, exit, PriceUsed(rows), outs, k).Some?
    ensures EvidenceProblems(t, exit, rows) + PayoutsOf(t, loan, exit, PriceUsed(rows), outs, k).value.problems == []
      <==> Accounted(t, loan, exit, rows, outs, k)
  {
    if PriceUsed(rows).None? {
      NothingProven(t, exit, rows);
    } else {
      var used := PriceUsed(rows).value;
      ProvenExactly(t, exit, rows);
      PriceUsedIs(rows);
      forall price | HighestVerified(rows, price) ensures price == used { HighestOnce(rows, price, used); }
    }
  }

  // --------------------------------------------- what was composed is explained

  /** The slots of a choice among what the oracles said, none for those left out. */
  function Slots(given: seq<Option<Attested>>, chosen: set<nat>): (slots: seq<Option<Attested>>)
    ensures |slots| == |given|
  {
    seq(|given|, i requires 0 <= i < |given| => if i in chosen then given[i] else None)
  }

  /** What each oracle said, its signature judged. */
  function Judged(signed: Signed, keys: seq<nat>, given: seq<Option<Attested>>): seq<Option<T.Attestation>>
    requires |given| == |keys|
  {
    seq(|given|, i requires 0 <= i < |given| =>
      if given[i].None? then None
      else
        var a := given[i].value;
        Some(T.Attestation(a.price, a.timestamp, signed(keys[i], a.price, a.timestamp, a.sig))))
  }

  /** A choice a seizure can be composed from: enough usable attestations, the dearest at
      this price, and all under the strike for a liquidation. */
  ghost predicate Chosen(signed: Signed, t: T.LoanTerms, keys: seq<nat>, given: seq<Option<Attested>>, exit: Scan.VaultState, sel: T.Selection) {
    && |given| == |keys| && sel.price >= 1 && Seized(exit)
    && T.Qualifies(t, Judged(signed, keys, given), sel.slots) && T.Highest(Judged(signed, keys, given), sel.slots, sel.price)
    && (exit == Scan.LIQUIDATED ==> sel.price < t.strike)
  }

  /** A loan that names one oracle is read in the layout it is written in. */
  lemma FlatReadBack(signed: Signed, keys: seq<nat>, t: T.LoanTerms, slots: seq<Option<Attested>>)
    requires t.oracles == [] && |keys| == |slots| == 1 && slots[0].Some?
    ensures ReadsAsMeant(signed, keys, slots, Rows(signed, keys, T.Threshold(t), Evidence(t, slots)))
  {}

  /** Evidence that reads as it was meant is proven, at the price of the choice. */
  lemma ChosenProven(signed: Signed, t: T.LoanTerms, keys: seq<nat>, given: seq<Option<Attested>>, exit: Scan.VaultState,
                     sel: T.Selection, rows: seq<Row>)
    requires Chosen(signed, t, keys, given, exit, sel) && ReadsAsMeant(signed, keys, Slots(given, sel.slots), rows)
    ensures Proven(t, exit, rows) && HighestVerified(rows, sel.price)
  {
    var judged, slots := Judged(signed, keys, given), Slots(given, sel.slots);
    forall i | i in sel.slots ensures i < |rows| && Priced(rows[i]) && rows[i].price.value == given[i].value.price <= sel.price {
      assert T.Usable(t, judged[i]) && judged[i].value.price <= sel.price;
      assert slots[i] == given[i];
    }
    forall i | 0 <= i < |rows| && rows[i].present
      ensures rows[i].verified && rows[i].timestamp.Some? && rows[i].timestamp.value >= t.notBefore && i in sel.slots
    {
      assert slots[i].Some?;
      assert T.Usable(t, judged[i]);
    }
    assert Signers(rows, sel.slots);
    var top :| top in sel.slots && judged[top].value.price == sel.price;
    assert Priced(rows[top]) && rows[top].price.value == sel.price;
  }

  /** The seizure a composer is given; accepted terms make none below zero. */
  function Seize(t: T.LoanTerms, price: int): nat
    requires t.bonusDen > 0 && price >= 1
  {
    if T.SeizureAt(t, price) < 0 then 0 else T.SeizureAt(t, price)
  }

  lemma SeizureNat(t: T.LoanTerms, price: int)
    requires T.Accepted(t) && price >= 1
    ensures T.SeizureAt(t, price) >= 0
  {
    T.GrossCovers(t);
    T.Times(0, T.Gross(t), t.priceScale);
    T.CeilLeast(T.Gross(t) * t.priceScale, price, T.SeizureAt(t, price));
  }

  /** How an exit is taken: by its own leaf, or through a single leaf by its selector. */
  predicate Takes(v: Scan.Vault, leaf: Scan.Id, selector: Scan.Id, exit: Scan.VaultState) {
    leaf in v.leafNames &&
    match exit
    case REPAID => if v.singleLeaf then v.leafNames[leaf] == Scan.Whole && selector == 0 else v.leafNames[leaf] == Scan.Repay
    case LIQUIDATED => if v.singleLeaf then v.leafNames[leaf] == Scan.Whole && selector == 1 else v.leafNames[leaf] == Scan.Liquidate
    case DEFAULTED => if v.singleLeaf then v.leafNames[leaf] == Scan.Whole && selector == 2 else v.leafNames[leaf] == Scan.Default
    case RECOVERED => if v.singleLeaf then v.leafNames[leaf] == Scan.Whole && selector >= 3 else v.leafNames[leaf] == Scan.Recover
    case _ => false
  }

  /** Behind any evidence the leaf revealed names the exit, in a single-leaf vault by its
      selector, and leaves the evidence as the data. */
  lemma ExitNamed(code: Coding, v: Scan.Vault, data: seq<Item>, leaf: Scan.Id, selector: Scan.Id, control: Item, exit: Scan.VaultState)
    requires Coded(code) && Takes(v, leaf, selector, exit)
    ensures Scan.NameExit(v, Codes(code, WitnessOf(v, data, leaf, selector, control))) == exit
    ensures DataOf(v, WitnessOf(v, data, leaf, selector, control)) == data
  {
    var stack := WitnessOf(v, data, leaf, selector, control);
    var ids := Codes(code, stack);
    assert stack[|stack| - 2] == Push(leaf) && (v.singleLeaf ==> stack[|stack| - 3] == Push(selector));
    if v.singleLeaf {
      var before := ids[..|ids| - 3];
      Scan.SelectorNamesExit(v, before, selector, leaf, ids[|ids| - 1]);
      assert ids == before + [selector, leaf, ids[|ids| - 1]];
    } else {
      var before := ids[..|ids| - 2];
      Scan.LeafNamesExit(v, before, leaf, ids[|ids| - 1]);
      assert ids == before + [leaf, ids[|ids| - 1]];
    }
  }

  function WitnessOf(v: Scan.Vault, data: seq<Item>, leaf: Scan.Id, selector: Scan.Id, control: Item): seq<Item> {
    data + (if v.singleLeaf then [Push(selector)] else []) + [Push(leaf), control]
  }

  /** A composed seizure pays what its price buys. */
  lemma SeizurePays(t: T.LoanTerms, loan: Loan, price: int, vault: Coin, funding: seq<Coin>, taker: Spk, change: Spk, fee: FeeRule)
    requires T.Accepted(t) && price >= 1
    requires Seizure(loan, vault, Seize(t, price), funding, taker, change, fee).Some?
    ensures var outs := Seizure(loan, vault, Seize(t, price), funding, taker, change, fee).value.outs;
      && AtLeast(Paid(outs, 0, loan.lender, loan.debtAsset), loan.debt)
      && Home(outs, 0, loan, T.SurplusAt(t, loan.collateral, price))
  {
    SeizureNat(t, price);
    SeizureFits(loan, vault, Seize(t, price), funding, taker, change, fee);
  }

  /** Composed evidence is proven at the price of its choice, and that of a set of one oracle
      gives no price at all. */
  lemma EvidenceRead(signed: Signed, t: T.LoanTerms, loan: Loan, keys: seq<nat>, given: seq<Option<Attested>>,
                     exit: Scan.VaultState, sel: T.Selection)
    requires Agree(t, loan, keys) && Chosen(signed, t, keys, given, exit, sel)
    ensures var rows := Rows(signed, keys, T.Threshold(t), Evidence(t, Slots(given, sel.slots)));
      if |t.oracles| == 1 then PriceUsed(rows).None? && EvidenceProblems(t, exit, rows) != []
      else Proven(t, exit, rows) && PriceUsed(rows) == Some(sel.price) && HighestVerified(rows, sel.price)
  {
    var slots := Slots(given, sel.slots);
    var rows := Rows(signed, keys, T.Threshold(t), Evidence(t, slots));
    if |t.oracles| == 1 {
      SlotsReadBack(signed, keys, T.Threshold(t), slots);
      OneUnread(t, exit, rows);
    } else {
      if t.oracles == [] {
        OnlySlot(signed, t, keys, given, exit, sel);
        FlatReadBack(signed, keys, t, slots);
      } else {
        SlotsReadBack(signed, keys, T.Threshold(t), slots);
      }
      ChosenProven(signed, t, keys, given, exit, sel, rows);
      UsedIs(rows, sel.price);
    }
  }

  /** Evidence proven at a price, behind outputs that price buys, is explained. */
  lemma ProvenExplained(signed: Signed, code: Coding, v: Scan.Vault, t: T.LoanTerms, loan: Loan, keys: seq<nat>,
                        stack: seq<Item>, outs: seq<Out>, rows: seq<Row>, price: int)
    requires t.bonusDen > 0 && price >= 1 && Seized(Scan.NameExit(v, Codes(code, stack)))
    requires rows == Rows(signed, keys, T.Threshold(t), DataOf(v, stack))
    requires Proven(t, Scan.NameExit(v, Codes(code, stack)), rows) && PriceUsed(rows) == Some(price)
    requires AtLeast(Paid(outs, 0, loan.lender, loan.debtAsset), loan.debt) && Home(outs, 0, loan, T.SurplusAt(t, loan.collateral, price))
    ensures var e := Explained(signed, code, v, t, loan, keys, stack, outs, 0);
      e.Some? && e.value.problems == [] && e.value.priceUsed == Some(price)
  {
    PriceUsedIs(rows);
    NoProblemExactly(signed, code, v, t, loan, keys, stack, outs, 0);
  }

  /** Whatever seizure is composed, at maturity or before, from whatever choice of
      attestations: it is named, explained at the price it was composed at and found without
      a problem, exactly when the loan's oracles are not a set of one. */
  lemma SeizureExplained(signed: Signed, code: Coding, v: Scan.Vault, t: T.LoanTerms, loan: Loan, keys: seq<nat>,
                         given: seq<Option<Attested>>, sel: T.Selection, exit: Scan.VaultState, leaf: Scan.Id, selector: Scan.Id,
                         control: Item, vault: Coin, funding: seq<Coin>, taker: Spk, change: Spk, fee: FeeRule)
    requires Coded(code) && Agree(t, loan, keys)
    requires Takes(v, leaf, selector, exit) && Chosen(signed, t, keys, given, exit, sel)
    requires Seizure(loan, vault, Seize(t, sel.price), funding, taker, change, fee).Some?
    ensures var stack := WitnessOf(v, Evidence(t, Slots(given, sel.slots)), leaf, selector, control);
      var outs := Seizure(loan, vault, Seize(t, sel.price), funding, taker, change, fee).value.outs;
      var e := Explained(signed, code, v, t, loan, keys, stack, outs, 0);
      && e.Some? && e.value.exit == exit
      && (if |t.oracles| == 1 then e.value.problems != [] && e.value.priceUsed == None
          else e.value.problems == [] && e.value.priceUsed == Some(sel.price))
  {
    var data := Evidence(t, Slots(given, sel.slots));
    var stack, rows := WitnessOf(v, data, leaf, selector, control), Rows(signed, keys, T.Threshold(t), data);
    ExitNamed(code, v, data, leaf, selector, control, exit);
    EvidenceRead(signed, t, loan, keys, given, exit, sel);
    if |t.oracles| != 1 {
      var outs := Seizure(loan, vault, Seize(t, sel.price), funding, taker, change, fee).value.outs;
      SeizurePays(t, loan, sel.price, vault, funding, taker, change, fee);
      ProvenExplained(signed, code, v, t, loan, keys, stack, outs, rows, sel.price);
    }
  }

  lemma OnlySlot(signed: Signed, t: T.LoanTerms, keys: seq<nat>, given: seq<Option<Attested>>, exit: Scan.VaultState, sel: T.Selection)
    requires Chosen(signed, t, keys, given, exit, sel) && |keys| == 1
    ensures Slots(given, sel.slots)[0].Some?
  {
    var i :| i in sel.slots && i < |given| && Judged(signed, keys, given)[i].Some?;
  }

  lemma UsedIs(rows: seq<Row>, price: int)
    requires HighestVerified(rows, price)
    ensures PriceUsed(rows) == Some(price)
  {
    PriceUsedIs(rows);
    if PriceUsed(rows).Some? {
      HighestOnce(rows, price, PriceUsed(rows).value);
    }
  }

  /** A signature that is presented and does not verify is a problem and gives no price. */
  lemma OneUnread(t: T.LoanTerms, exit: Scan.VaultState, rows: seq<Row>)
    requires |rows| == 1 && rows[0].present && !rows[0].verified
    ensures PriceUsed(rows).None? && EvidenceProblems(t, exit, rows) != []
  {
    assert rows[..0] == [];
    NothingProven(t, exit, rows);
  }

  /** A composed repayment is named and explained without a problem. */
  lemma RepayExplained(signed: Signed, code: Coding, v: Scan.Vault, t: T.LoanTerms, loan: Loan, keys: seq<nat>,
                       leaf: Scan.Id, selector: Scan.Id, control: Item, vault: Coin, funding: seq<Coin>, change: Spk, fee: FeeRule)
    requires Coded(code) && t.bonusDen > 0 && vault.asset == loan.collateralAsset
    requires Takes(v, leaf, selector, Scan.REPAID) && Repay1(loan, vault, funding, change, fee).Some?
    ensures var outs := Repay1(loan, vault, funding, change, fee).value.outs;
      var e := Explained(signed, code, v, t, loan, keys, WitnessOf(v, [], leaf, selector, control), outs, 0);
      e.Some? && e.value.exit == Scan.REPAID && e.value.problems == []
  {
    ExitNamed(code, v, [], leaf, selector, control, Scan.REPAID);
    RepayFits(loan, vault, funding, change, fee);
  }

  /** So is a composed recovery. */
  lemma RecoverExplained(signed: Signed, code: Coding, v: Scan.Vault, t: T.LoanTerms, loan: Loan, keys: seq<nat>,
                         leaf: Scan.Id, selector: Scan.Id, control: Item, vault: Coin, funding: seq<Coin>, change: Spk, fee: FeeRule)
    requires Coded(code) && t.bonusDen > 0 && vault.asset == loan.collateralAsset
    requires Takes(v, leaf, selector, Scan.RECOVERED) && Recover1(loan, vault, funding, change, fee).Some?
    ensures var outs := Recover1(loan, vault, funding, change, fee).value.outs;
      var e := Explained(signed, code, v, t, loan, keys, WitnessOf(v, [], leaf, selector, control), outs, 0);
      e.Some? && e.value.exit == Scan.RECOVERED && e.value.problems == []
  {
    var outs := Recover1(loan, vault, funding, change, fee).value.outs;
    assert Paid(outs, 0, loan.lender, loan.collateralAsset) == Some(vault.amount) by {
      SweepFits(vault, loan.lender, funding, change, fee);
    }
    ExitNamed(code, v, [], leaf, selector, control, Scan.RECOVERED);
    SweptExplained(signed, code, v, t, loan, keys, WitnessOf(v, [], leaf, selector, control), outs);
  }

  /** A sweep that pays all the collateral is explained without a problem. */
  lemma SweptExplained(signed: Signed, code: Coding, v: Scan.Vault, t: T.LoanTerms, loan: Loan, keys: seq<nat>, stack: seq<Item>, outs: seq<Out>)
    requires t.bonusDen > 0 && Scan.NameExit(v, Codes(code, stack)) == Scan.RECOVERED
    requires AtLeast(Paid(outs, 0, loan.lender, loan.collateralAsset), loan.collateral)
    ensures var e := Explained(signed, code, v, t, loan, keys, stack, outs, 0);
      e.Some? && e.value.exit == Scan.RECOVERED && e.value.problems == []
  {
  }
}
