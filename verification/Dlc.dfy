/** Settling a loan by an oracle's attestation: one contract transaction per outcome, each
    signed under the point the attestation of that outcome will open. */
module Dlc {
  import opened Wrappers
  import opened Adaptor

  datatype Announcement = Announcement(oracle: nat, nonce: nat, outcomes: seq<Bytes>)

  /** A contract transaction but for its witness. */
  datatype Tx = Tx(funding: nat, outs: seq<(nat, nat)>, locktime: nat)

  /** The keys of a loan, what it put in, and the digest its settle leaf signs. */
  datatype Loan = Loan(borrower: nat, lender: nat, amount: nat, debt: nat, sighash: Tx -> Bytes)

  datatype Cet = Cet(tx: Tx, sig: AdaptorSig)

  // ------------------------------------------------------------ attestation

  function Announce(c: Curve, oracleSec: nat, nonceSec: nat, outcomes: seq<Bytes>): Announcement
    requires 0 < oracleSec < c.n && 0 < nonceSec < c.n
  {
    Announcement(X(c, oracleSec), X(c, nonceSec), outcomes)
  }

  /** What an attestation of this outcome will open; nothing for one not announced. */
  function AttestationPoint(c: Curve, ann: Announcement, outcome: Bytes): Option<nat>
    requires c.n > 2
  {
    if outcome !in ann.outcomes || LiftX(c, ann.nonce).None? || LiftX(c, ann.oracle).None? then None
    else
      var s := Add(c, ann.nonce, Mul(c, c.challenge(ann.nonce, ann.oracle, outcome) % c.n, ann.oracle));
      if s == 0 then None else Some(X(c, s))
  }

  function Attest(c: Curve, oracleSec: nat, nonceSec: nat, ann: Announcement, outcome: Bytes): nat
    requires 0 < oracleSec < c.n && 0 < nonceSec < c.n
  {
    Add(c, EvenScalar(c, nonceSec), Mul(c, c.challenge(ann.nonce, ann.oracle, outcome) % c.n, EvenScalar(c, oracleSec)))
  }

  predicate CheckAttestation(c: Curve, ann: Announcement, outcome: Bytes, s: nat)
    requires c.n > 2
  {
    0 < s < c.n && AttestationPoint(c, ann, outcome) == Some(X(c, s))
  }

  /** The oracle's scalar opens the announced point of its outcome, whatever the parities
      of its key and nonce - unless it is zero, which no point is. */
  lemma AttestationOpens(c: Curve, oracleSec: nat, nonceSec: nat, outcomes: seq<Bytes>, outcome: Bytes)
    requires Sound(c) && 0 < oracleSec < c.n && 0 < nonceSec < c.n && outcome in outcomes
    ensures var ann := Announce(c, oracleSec, nonceSec, outcomes);
      var s := Attest(c, oracleSec, nonceSec, ann, outcome);
      CheckAttestation(c, ann, outcome, s) <==> s != 0
  {
    EvenIsEven(c, oracleSec);
    EvenIsEven(c, nonceSec);
  }

  // --------------------------------------------------------------- verifying

  datatype Verdict = Accepted | Rejected(event: Bytes) | Raised

  /** One entry of the counterparty's set is ours, and signed under its outcome's point. */
  predicate Good(c: Curve, loan: Loan, ann: Announcement, signer: nat, event: Bytes, cet: Cet, mine: map<Bytes, Tx>)
    requires c.n > 2
  {
    && event in mine && mine[event] == cet.tx
    && AttestationPoint(c, ann, event).Some?
    && EncryptVerify(c, signer, loan.sighash(cet.tx), AttestationPoint(c, ann, event).value, cet.sig)
  }

  /** Check every counterparty transaction against one's own set. */
  method VerifyCets(c: Curve, loan: Loan, ann: Announcement, order: seq<Bytes>, cets: map<Bytes, Cet>, signer: nat,
                    mine: map<Bytes, Tx>) returns (verdict: Verdict)
    requires c.n > 2 && forall event :: event in cets <==> event in order
    ensures verdict == Accepted <==>
      mine.Keys == cets.Keys && forall event :: event in cets ==> Good(c, loan, ann, signer, event, cets[event], mine)
    ensures verdict.Rejected? ==> verdict.event in cets || verdict.event in mine
    ensures verdict == Raised ==> exists event :: event in cets && AttestationPoint(c, ann, event).None?
  {
    for i := 0 to |order|
      invariant forall j :: 0 <= j < i ==> Good(c, loan, ann, signer, order[j], cets[order[j]], mine)
    {
      var event := order[i];
      assert event in cets;
      if event !in mine || mine[event] != cets[event].tx {
        return Rejected(event);
      }
      var point := AttestationPoint(c, ann, event);
      if point.None? {
        return Raised;
      }
      if !EncryptVerify(c, signer, loan.sighash(cets[event].tx), point.value, cets[event].sig) {
        return Rejected(event);
      }
    }
    var missing := mine.Keys - cets.Keys;
    if missing != {} {
      var event :| event in missing;
      assert event in mine && event !in cets;
      return Rejected(event);
    }
    assert forall event :: event in cets ==> event in order && Good(c, loan, ann, signer, event, cets[event], mine);
    assert forall event :: event in mine ==> event in cets by {
      forall event | event in mine ensures event in cets {
        assert event !in missing;
      }
    }
    return Accepted;
  }

  // -------------------------------------------------------------- completing

  /** The settle leaf: the lender's signature under the borrower's. */
  predicate Settles(c: Curve, loan: Loan, tx: Tx, stack: seq<Sig>)
    requires c.n > 2
  {
    && |stack| == 2
    && Verify(c, loan.borrower, loan.sighash(tx), stack[1])
    && Verify(c, loan.lender, loan.sighash(tx), stack[0])
  }

  /** Decrypt the counterparty's signature, add one's own. */
  function CompleteCet(c: Curve, loan: Loan, ann: Announcement, mine: map<Bytes, Tx>, theirs: map<Bytes, Cet>,
                       outcome: Bytes, attestation: nat, sec: nat, k: nat, borrower: bool): Option<(Tx, seq<Sig>)>
    requires c.n > 2 && 0 < sec < c.n && 0 < k < c.n
  {
    if !CheckAttestation(c, ann, outcome, attestation) then None
    else if outcome !in theirs || outcome !in mine || mine[outcome] != theirs[outcome].tx then None
    else
      var decrypted := Decrypt(c, theirs[outcome].sig, attestation);
      if decrypted.None? then None
      else
        var own := Sign(c, sec, loan.sighash(mine[outcome]), k);
        Some((mine[outcome], if borrower then [decrypted.value, own] else [own, decrypted.value]))
  }

  /** A signature that passed, and the attestation of its outcome, settle. */
  lemma OneCompletes(c: Curve, loan: Loan, ann: Announcement, mine: map<Bytes, Tx>, theirs: map<Bytes, Cet>,
                     outcome: Bytes, s: nat, sec: nat, k: nat, borrower: bool)
    requires Sound(c) && 0 < sec < c.n && 0 < k < c.n && CheckAttestation(c, ann, outcome, s)
    requires X(c, sec) == if borrower then loan.borrower else loan.lender
    requires outcome in theirs
    requires Good(c, loan, ann, if borrower then loan.lender else loan.borrower, outcome, theirs[outcome], mine)
    ensures var done := CompleteCet(c, loan, ann, mine, theirs, outcome, s, sec, k, borrower);
      done.Some? && done.value.0 == mine[outcome] && Settles(c, loan, mine[outcome], done.value.1)
  {
    DecryptVerifies(c, if borrower then loan.lender else loan.borrower, loan.sighash(mine[outcome]), s, theirs[outcome].sig);
    SignVerifies(c, sec, loan.sighash(mine[outcome]), k);
  }

  /** Once a counterparty's set is accepted, the attestation of any announced outcome of
      one's own set settles it: a transaction one agreed to, spendable as it stands. */
  lemma SetCompletes(c: Curve, loan: Loan, oracleSec: nat, nonceSec: nat, outcomes: seq<Bytes>, mine: map<Bytes, Tx>,
                     theirs: map<Bytes, Cet>, outcome: Bytes, sec: nat, k: nat, borrower: bool)
    requires Sound(c) && 0 < oracleSec < c.n && 0 < nonceSec < c.n && 0 < sec < c.n && 0 < k < c.n
    requires X(c, sec) == if borrower then loan.borrower else loan.lender
    requires var ann, signer := Announce(c, oracleSec, nonceSec, outcomes), if borrower then loan.lender else loan.borrower;
      mine.Keys == theirs.Keys && forall event :: event in theirs ==> Good(c, loan, ann, signer, event, theirs[event], mine)
    requires outcome in mine
    ensures var ann := Announce(c, oracleSec, nonceSec, outcomes);
      var done := CompleteCet(c, loan, ann, mine, theirs, outcome, Attest(c, oracleSec, nonceSec, ann, outcome), sec, k, borrower);
      done.Some? && done.value.0 == mine[outcome] && Settles(c, loan, mine[outcome], done.value.1)
  {
    var ann := Announce(c, oracleSec, nonceSec, outcomes);
    assert outcome in theirs;
    EvenIsEven(c, oracleSec);
    EvenIsEven(c, nonceSec);
    AttestationOpens(c, oracleSec, nonceSec, outcomes, outcome);
    OneCompletes(c, loan, ann, mine, theirs, outcome, Attest(c, oracleSec, nonceSec, ann, outcome), sec, k, borrower);
  }

  /** What any scalar does to a signature encrypted to a point: there is nothing to decrypt
      to exactly when it takes the nonce to infinity; what it decrypts to is a signature under
      another nonce than the agreed one, unless it opens the point; and that verifies, under a
      nonce of even y, exactly when the challenge is the one agreed to, and under another
      exactly when it is the single one that takes the nonce to its negation. */
  lemma OnlyItsOutcome(c: Curve, signer: nat, msg: Bytes, point: nat, sig: AdaptorSig, s: nat)
    requires Sound(c) && Prime(c.n) && EncryptVerify(c, signer, msg, point, sig) && 0 < s < c.n
    ensures var agreed, nonce := Add(c, sig.r, point), Add(c, sig.r, X(c, s));
      && (nonce == agreed <==> X(c, s) == point)
      && (Decrypt(c, sig, s).None? <==> nonce == 0)
      && (nonce != 0 ==>
            var e, f := c.challenge(X(c, agreed), signer, msg) % c.n, c.challenge(X(c, nonce), signer, msg) % c.n;
            (Verify(c, signer, msg, Decrypt(c, sig, s).value) <==>
              if c.even(nonce) then f == e
              else Mul(c, f, signer) == Add(c, Mul(c, e, signer), Add(c, nonce, nonce))))
  {
    EvenIsEven(c, s);
    Wrap(sig.r + point, c.n);
    Wrap(sig.r + X(c, s), c.n);
    var nonce := Add(c, sig.r, X(c, s));
    if nonce != 0 {
      var e := c.challenge(X(c, Add(c, sig.r, point)), signer, msg) % c.n;
      var f := c.challenge(X(c, nonce), signer, msg) % c.n;
      EvenIsEven(c, nonce);
      MulOnce(c, e, f, signer);
      OtherNonce(c, sig.r, sig.s, X(c, s), nonce, Mul(c, e, signer), Mul(c, f, signer));
      Unshared(c, Add(c, sig.s, X(c, s)), X(c, nonce), f, signer);
      VerifiesAt(c, signer, msg, Decrypt(c, sig, s).value);
    }
  }

  /** A signature verifies exactly when its scalar is its nonce and the challenge's share. */
  lemma VerifiesAt(c: Curve, signer: nat, msg: Bytes, sig: Sig)
    requires Sound(c) && LiftX(c, signer).Some? && sig.s < c.n && 0 < sig.r < c.n && c.even(sig.r)
    ensures var f := c.challenge(sig.r, signer, msg) % c.n;
      Verify(c, signer, msg, sig) <==> sig.s == Add(c, sig.r, Mul(c, f, signer))
  {
    Unshared(c, sig.s, sig.r, c.challenge(sig.r, signer, msg) % c.n, signer);
  }

  /** The scalar of one nonce and share is that of another nonce and share exactly when the
      shares differ by what the nonces do. */
  lemma OtherNonce(c: Curve, r: nat, sum: nat, t: nat, nonce: nat, m: nat, m': nat)
    requires c.n > 2 && r < c.n && t < c.n && m < c.n && m' < c.n
    requires sum == Add(c, r, m) && nonce == Add(c, r, t) && nonce != 0
    ensures Add(c, sum, t) == Add(c, nonce, m') <==> m == m'
    ensures Add(c, sum, t) == Add(c, Neg(c, nonce), m') <==> m' == Add(c, m, Add(c, nonce, nonce))
  {
    assert Add(c, sum, t) == Add(c, nonce, m) by {
      AddAssociates(c, m, r, t);
      assert Add(c, m, r) == sum && Add(c, m, nonce) == Add(c, nonce, m);
    }
    AddCancels(c, nonce, m, m');
    var negated := Add(c, Neg(c, nonce), m');
    AddCancels(c, nonce, Add(c, nonce, m), negated);
    AddNegated(c, nonce, m');
    AddAssociates(c, nonce, nonce, m);
    assert Add(c, Add(c, nonce, nonce), m) == Add(c, m, Add(c, nonce, nonce));
  }

  // ----------------------------------------------------------------- buckets

  /** A bucket: at least its low edge, below its high one, open where it has none. */
  datatype Bucket = Bucket(low: Option<int>, high: Option<int>)

  predicate In(b: Bucket, price: int) {
    (b.low.None? || price >= b.low.value) && (b.high.None? || price < b.high.value)
  }

  function Edge(low: int, high: int, steps: int, i: int): int
    requires steps >= 1
  {
    if i >= steps then high else low + i * ((high - low) / steps)
  }

  /** The buckets of a price range. */
  method PriceBuckets(low: int, high: int, steps: int) returns (buckets: seq<Bucket>)
    requires steps >= 1 && high > low
    ensures |buckets| == steps + 2
    ensures buckets[0] == Bucket(None, Some(low)) && buckets[steps + 1] == Bucket(Some(high), None)
    ensures forall i :: 0 <= i < steps ==>
      buckets[i + 1] == Bucket(Some(Edge(low, high, steps, i)), Some(Edge(low, high, steps, i + 1)))
    ensures buckets[1].low == Some(low) && buckets[steps].high == Some(high)
  {
    var width := (high - low) / steps;
    buckets := [Bucket(None, Some(low))];
    var edge := low;
    for i := 0 to steps
      invariant |buckets| == i + 1 && buckets[0] == Bucket(None, Some(low))
      invariant edge == Edge(low, high, steps, i) && (i > 0 ==> buckets[i].high == Some(edge) && buckets[1].low == Some(low))
      invariant forall j :: 0 <= j < i ==>
        buckets[j + 1] == Bucket(Some(Edge(low, high, steps, j)), Some(Edge(low, high, steps, j + 1)))
    {
      var top := if i == steps - 1 then high else edge + width;
      buckets := buckets + [Bucket(Some(edge), Some(top))];
      edge := top;
    }
    buckets := buckets + [Bucket(Some(high), None)];
  }

  /** The edges rise to the top of the range. */
  lemma EdgesRise(low: int, high: int, steps: int, i: int, j: int)
    requires steps >= 1 && high > low && 0 <= i <= j <= steps
    ensures low <= Edge(low, high, steps, i) <= Edge(low, high, steps, j) <= high
  {
    var width := (high - low) / steps;
    Widths(i, j, width);
    Widths(j, steps, width);
    assert steps * width <= high - low;
  }

  lemma Widths(i: int, j: int, width: int)
    requires 0 <= i <= j && width >= 0
    ensures 0 <= i * width <= j * width
  {}

  /** Every price is in exactly one bucket: a bucket has its lower edge and not its upper one,
      all are as wide but the last, which goes on to the top, and two are open. */
  lemma OneBucket(low: int, high: int, steps: int, buckets: seq<Bucket>, price: int) returns (k: nat)
    requires steps >= 1 && high > low && |buckets| == steps + 2
    requires buckets[0] == Bucket(None, Some(low)) && buckets[steps + 1] == Bucket(Some(high), None)
    requires forall i :: 0 <= i < steps ==>
      buckets[i + 1] == Bucket(Some(Edge(low, high, steps, i)), Some(Edge(low, high, steps, i + 1)))
    ensures k < |buckets| && In(buckets[k], price)
    ensures forall j :: 0 <= j < |buckets| && In(buckets[j], price) ==> j == k
    ensures k == 0 <==> price < low
    ensures k == steps + 1 <==> price >= high
    ensures 1 <= k <= steps ==> var width := (high - low) / steps;
      low + (k - 1) * width <= price && (k < steps ==> price < low + k * width)
  {
    if price < low {
      k := 0;
    } else if price >= high {
      k := steps + 1;
    } else {
      k := 1;
      while price >= Edge(low, high, steps, k)
        invariant 1 <= k <= steps && price >= Edge(low, high, steps, k - 1)
        decreases steps - k
      {
        k := k + 1;
      }
    }
    forall j | 0 <= j < |buckets| && In(buckets[j], price) ensures j == k {
      if 1 <= j <= steps {
        assert buckets[j - 1 + 1] == Bucket(Some(Edge(low, high, steps, j - 1)), Some(Edge(low, high, steps, j)));
        EdgesRise(low, high, steps, j - 1, j);
        if 1 <= k <= steps {
          if j < k { EdgesRise(low, high, steps, j, k - 1); }
          if k < j { EdgesRise(low, high, steps, k, j - 1); }
        }
      }
    }
  }
}
