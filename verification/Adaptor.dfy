/** Schnorr adaptor signatures over BIP 340 (section "Verification"): a point is its
    discrete logarithm, a coordinate the one of a point and its negation that has even y. */
module Adaptor {
  import opened Wrappers

  /** A byte string, by number. */
  type Bytes = nat

  /** The group's order, which points have even y, and the tagged hashes. */
  datatype Curve = Curve(n: nat, even: nat -> bool, challenge: (nat, nat, Bytes) -> nat,
                         nonce: (nat, nat, nat, Bytes, nat) -> nat)

  /** Of a point and its negation exactly one has even y; there is none at infinity. */
  ghost predicate Sound(c: Curve) {
    && c.n > 2 && !c.even(0)
    && (forall p: nat, q: nat :: 0 < p < c.n && p + q == c.n ==> c.even(p) != c.even(q))
  }

  function Add(c: Curve, p: nat, q: nat): nat
    requires c.n > 0
  {
    (p + q) % c.n
  }

  function Mul(c: Curve, e: nat, p: nat): nat
    requires c.n > 0
  {
    (e * p) % c.n
  }

  function Neg(c: Curve, p: nat): nat
    requires p <= c.n
  {
    c.n - p
  }

  /** A scalar or its negation, whichever has a point of even y. */
  function EvenScalar(c: Curve, s: nat): nat
    requires 0 < s < c.n
  {
    if c.even(s) then s else Neg(c, s)
  }

  /** A point by its coordinate alone, and back: the even one, if there is one. */
  function X(c: Curve, p: nat): nat
    requires 0 < p < c.n
  {
    EvenScalar(c, p)
  }

  function LiftX(c: Curve, x: nat): Option<nat> {
    if 0 < x < c.n && c.even(x) then Some(x) else None
  }

  /** The signer's own nonce, with its parity, and the encrypted scalar. */
  datatype AdaptorSig = AdaptorSig(r: nat, s: nat)

  datatype Sig = Sig(r: nat, s: nat)

  // ---------------------------------------------------------------- signing

  function Candidate(c: Curve, x: nat, t: nat, msg: Bytes, aux: nat, counter: nat): nat
    requires c.n > 0
  {
    c.nonce(x, aux, t, msg, counter) % c.n
  }

  predicate Usable(c: Curve, k: nat, t: nat)
    requires c.n > 0
  {
    k != 0 && c.even(Add(c, k, t))
  }

  /** Encrypted signing: the nonce is drawn again until the final one has even y. */
  method EncryptSign(c: Curve, sec: nat, msg: Bytes, adaptor: nat, aux: nat) returns (sig: Option<AdaptorSig>)
    requires Sound(c)
    ensures sig.Some? ==>
      0 < sec < c.n && LiftX(c, adaptor).Some? && Signed(c, EvenScalar(c, sec), msg, adaptor, aux, sig.value)
    ensures sig.None? && 0 < sec < c.n && LiftX(c, adaptor).Some? ==>
      forall counter: nat :: counter < 256 ==> !Usable(c, Candidate(c, EvenScalar(c, sec), adaptor, msg, aux, counter), adaptor)
  {
    if !(0 < sec < c.n) {
      return None;
    }
    var x := EvenScalar(c, sec);
    var t := LiftX(c, adaptor);
    if t.None? {
      return None;
    }
    for counter := 0 to 256
      invariant forall j: nat :: j < counter ==> !Usable(c, Candidate(c, x, adaptor, msg, aux, j), adaptor)
    {
      var k := Candidate(c, x, adaptor, msg, aux, counter);
      if Usable(c, k, t.value) {
        var e := c.challenge(X(c, Add(c, k, t.value)), x, msg) % c.n;
        return Some(AdaptorSig(k, Add(c, k, Mul(c, e, x))));
      }
    }
    return None;
  }

  /** A signature made with the first nonce that will do. */
  ghost predicate Signed(c: Curve, x: nat, msg: Bytes, t: nat, aux: nat, sig: AdaptorSig)
    requires Sound(c)
  {
    && Usable(c, sig.r, t)
    && (exists counter: nat :: counter < 256 && sig.r == Candidate(c, x, t, msg, aux, counter)
          && forall j: nat :: j < counter ==> !Usable(c, Candidate(c, x, t, msg, aux, j), t))
    && 0 < Add(c, sig.r, t) < c.n
    && sig.s == Add(c, sig.r, Mul(c, c.challenge(X(c, Add(c, sig.r, t)), x, msg) % c.n, x))
  }

  predicate EncryptVerify(c: Curve, pubkey: nat, msg: Bytes, adaptor: nat, sig: AdaptorSig)
    requires c.n > 2
  {
    && 0 < sig.r < c.n && LiftX(c, pubkey).Some? && LiftX(c, adaptor).Some? && sig.s < c.n
    && var final := Add(c, sig.r, adaptor);
       && 0 < final < c.n && c.even(final)
       && sig.s == Add(c, sig.r, Mul(c, c.challenge(X(c, final), pubkey, msg) % c.n, pubkey))
  }

  /** The scalar that completes a signature encrypted to a secret's point. */
  function AdaptorScalar(c: Curve, secret: nat): nat
    requires 0 < secret < c.n
  {
    EvenScalar(c, secret)
  }

  function Decrypt(c: Curve, sig: AdaptorSig, secret: nat): Option<Sig>
    requires c.n > 2
  {
    if !(0 < secret < c.n) || !(0 < sig.r < c.n) || Add(c, sig.r, X(c, secret)) == 0 then None
    else Some(Sig(X(c, Add(c, sig.r, X(c, secret))), Add(c, sig.s, AdaptorScalar(c, secret))))
  }

  function Extract(c: Curve, sig: AdaptorSig, final: Sig): nat
    requires c.n > 0
  {
    (final.s - sig.s) % c.n
  }

  /** BIP 340, section "Verification". */
  predicate Verify(c: Curve, pubkey: nat, msg: Bytes, sig: Sig)
    requires c.n > 2
  {
    && LiftX(c, pubkey).Some? && sig.s < c.n
    && var e := c.challenge(sig.r, pubkey, msg) % c.n;
       var r := Add(c, sig.s, Mul(c, c.n - e, pubkey));
       && 0 < r < c.n && c.even(r) && X(c, r) == sig.r
  }

  /** BIP 340, section "Default Signing", with this nonce. */
  function Sign(c: Curve, sec: nat, msg: Bytes, k: nat): Sig
    requires 0 < sec < c.n && 0 < k < c.n
  {
    var x, r := EvenScalar(c, sec), EvenScalar(c, k);
    Sig(r, Add(c, r, Mul(c, c.challenge(r, x, msg) % c.n, x)))
  }

  // ---------------------------------------------------------------- algebra

  lemma Multiple(d: int, n: int)
    requires n > 0
    ensures (d > 0 ==> d * n >= n) && (d < 0 ==> d * n <= -n)
  {}

  lemma ModUnique(a: int, n: nat, r: nat, q: int)
    requires n > 0 && a == q * n + r && r < n
    ensures a % n == r
  {
    var d := a / n - q;
    assert a == (a / n) * n + a % n;
    assert d * n == r - a % n;
    Multiple(d, n);
  }

  /** Multiplying by the negated challenge negates the product. */
  lemma MulNeg(c: Curve, e: nat, p: nat)
    requires c.n > 0 && e < c.n
    ensures Mul(c, c.n - e, p) == (if Mul(c, e, p) == 0 then 0 else c.n - Mul(c, e, p))
  {
    var m, q := (e * p) % c.n, (e * p) / c.n;
    assert e * p == q * c.n + m;
    assert (c.n - e) * p == c.n * p - e * p == (p - q) * c.n - m by {
      assert (c.n - e) * p == c.n * p - e * p;
      assert (p - q) * c.n == c.n * p - q * c.n;
    }
    if m == 0 {
      ModUnique((c.n - e) * p, c.n, 0, p - q);
    } else {
      assert (p - q) * c.n - m == (p - q - 1) * c.n + (c.n - m);
      ModUnique((c.n - e) * p, c.n, c.n - m, p - q - 1);
    }
  }

  /** A nonce plus the challenge's share, less that share again, is the nonce. */
  lemma Unshared(c: Curve, s: nat, r: nat, e: nat, p: nat)
    requires c.n > 0 && e < c.n && s < c.n && r < c.n
    ensures s == Add(c, r, Mul(c, e, p)) <==> Add(c, s, Mul(c, c.n - e, p)) == r
  {
    MulNeg(c, e, p);
    Wrap(r + Mul(c, e, p), c.n);
    Wrap(s + Mul(c, c.n - e, p), c.n);
  }

  lemma Wrap(a: nat, n: nat)
    requires n > 0 && a < n + n
    ensures a % n == if a < n then a else a - n
  {
    ModUnique(a, n, if a < n then a else a - n, if a < n then 0 else 1);
  }

  lemma WrapBack(a: int, n: nat)
    requires n > 0 && 0 - n < a < n
    ensures a % n == if a < 0 then a + n else a
  {
    ModUnique(a, n, if a < 0 then a + n else a, if a < 0 then -1 else 0);
  }

  predicate Prime(n: nat) {
    n > 1 && forall d :: 1 < d < n ==> n % d != 0
  }

  /** Modulo a prime no two scalars but zero multiply to zero. */
  lemma {:induction false} NoZeroDivisors(n: nat, a: nat, b: nat)
    requires Prime(n) && 0 < a < n && 0 < b < n
    ensures (a * b) % n != 0
    decreases a
  {
    if a == 1 {
      ModUnique(b, n, b, 0);
    } else {
      var q, r, m := n / a, n % a, (a * b) / n;
      NoZeroDivisors(n, r, b);
      if (a * b) % n == 0 {
        assert a * b == m * n;
        assert r * b == (n - q * a) * b == n * b - q * (a * b) == n * b - q * (m * n) == (b - q * m) * n by {
          Distributes(n, q, a, b);
          Distributes(b, q, m, n);
          assert q * (m * n) == (q * m) * n;
        }
        ModUnique(r * b, n, 0, b - q * m);
      }
    }
  }

  lemma Distributes(x: int, q: int, a: int, b: int)
    ensures (x - q * a) * b == x * b - q * (a * b)
  {
    assert (q * a) * b == q * (a * b);
  }

  lemma MulMore(c: Curve, e: nat, f: nat, p: nat)
    requires Prime(c.n) && f < e < c.n && 0 < p < c.n
    ensures Mul(c, e, p) != Mul(c, f, p)
  {
    NoZeroDivisors(c.n, e - f, p);
    if Mul(c, e, p) == Mul(c, f, p) {
      var i, j := (e * p) / c.n, (f * p) / c.n;
      assert (e - f) * p == e * p - f * p == (i - j) * c.n by {
        assert i * c.n - j * c.n == (i - j) * c.n;
      }
      ModUnique((e - f) * p, c.n, 0, i - j);
    }
  }

  /** Hence a key's multiples by two scalars are the same only for the same scalar. */
  lemma MulOnce(c: Curve, e: nat, f: nat, p: nat)
    requires Prime(c.n) && e < c.n && f < c.n && 0 < p < c.n
    ensures Mul(c, e, p) == Mul(c, f, p) <==> e == f
  {
    if e < f {
      MulMore(c, f, e, p);
    } else if e > f {
      MulMore(c, e, f, p);
    }
  }

  lemma AddAssociates(c: Curve, x: nat, y: nat, z: nat)
    requires c.n > 0 && x < c.n && y < c.n && z < c.n
    ensures Add(c, Add(c, x, y), z) == Add(c, x, Add(c, y, z))
  {
    Wrap(x + y, c.n);
    Wrap(y + z, c.n);
    Wrap(Add(c, x, y) + z, c.n);
    Wrap(x + Add(c, y, z), c.n);
  }

  lemma AddCancels(c: Curve, a: nat, x: nat, y: nat)
    requires c.n > 0 && a < c.n && x < c.n && y < c.n
    ensures Add(c, a, x) == Add(c, a, y) <==> x == y
  {
    Wrap(a + x, c.n);
    Wrap(a + y, c.n);
  }

  lemma AddNegated(c: Curve, p: nat, x: nat)
    requires c.n > 0 && 0 < p < c.n && x < c.n
    ensures Add(c, p, Add(c, Neg(c, p), x)) == x
  {
    Wrap(Neg(c, p) + x, c.n);
    Wrap(p + Add(c, Neg(c, p), x), c.n);
  }

  lemma EvenIsEven(c: Curve, s: nat)
    requires Sound(c) && 0 < s < c.n
    ensures 0 < EvenScalar(c, s) < c.n && c.even(EvenScalar(c, s)) && LiftX(c, EvenScalar(c, s)) == Some(EvenScalar(c, s))
  {}

  // --------------------------------------------------------------- theorems

  /** What is signed verifies, whatever the parity of the key. */
  lemma SignedVerifies(c: Curve, sec: nat, msg: Bytes, adaptor: nat, aux: nat, sig: AdaptorSig)
    requires Sound(c) && 0 < sec < c.n && LiftX(c, adaptor).Some? && sig.r < c.n
    requires Signed(c, EvenScalar(c, sec), msg, adaptor, aux, sig)
    ensures EncryptVerify(c, X(c, sec), msg, adaptor, sig)
  {
    EvenIsEven(c, sec);
  }

  /** An encrypted signature verifies exactly when its final nonce has even y and the
      secret completes it to a signature that verifies, whatever the secret's parity. */
  lemma DecryptVerifies(c: Curve, pubkey: nat, msg: Bytes, secret: nat, sig: AdaptorSig)
    requires Sound(c) && 0 < secret < c.n && 0 < sig.r < c.n && sig.s < c.n
    ensures EncryptVerify(c, pubkey, msg, X(c, secret), sig) <==>
      && c.even(Add(c, sig.r, X(c, secret)))
      && Decrypt(c, sig, secret).Some? && Verify(c, pubkey, msg, Decrypt(c, sig, secret).value)
  {
    EvenIsEven(c, secret);
    var t := X(c, secret);
    var final := Add(c, sig.r, t);
    Wrap(sig.r + t, c.n);
    if final != 0 && c.even(final) {
      var e := c.challenge(X(c, final), pubkey, msg) % c.n;
      var s := Add(c, sig.s, t);
      Wrap(sig.s + t, c.n);
      Unshared(c, sig.s, sig.r, e, pubkey);
      Shifted(c, sig.s, sig.r, t, Mul(c, c.n - e, pubkey));
    }
  }

  lemma Shifted(c: Curve, s: nat, r: nat, t: nat, m: nat)
    requires c.n > 0 && s < c.n && r < c.n && t < c.n && m < c.n
    ensures Add(c, s, m) == r <==> Add(c, Add(c, s, t), m) == Add(c, r, t)
  {
    Wrap(s + m, c.n);
    Wrap(s + t, c.n);
    Wrap(r + t, c.n);
    Wrap(Add(c, s, t) + m, c.n);
  }

  /** Any signature that verifies under the final nonce of an encrypted one that verifies
      gives up the adaptor scalar. */
  lemma ExtractFinds(c: Curve, pubkey: nat, msg: Bytes, secret: nat, sig: AdaptorSig, final: Sig)
    requires Sound(c) && 0 < secret < c.n && EncryptVerify(c, pubkey, msg, X(c, secret), sig)
    requires Verify(c, pubkey, msg, final) && final.r == X(c, Add(c, sig.r, X(c, secret)))
    ensures Extract(c, sig, final) == AdaptorScalar(c, secret)
  {
    EvenIsEven(c, secret);
    var t := X(c, secret);
    var e := c.challenge(final.r, pubkey, msg) % c.n;
    var m := Mul(c, c.n - e, pubkey);
    Unshared(c, sig.s, sig.r, e, pubkey);
    assert Add(c, sig.s, m) == sig.r && Add(c, final.s, m) == Add(c, sig.r, t);
    Wrap(sig.s + m, c.n);
    Wrap(final.s + m, c.n);
    Wrap(sig.r + t, c.n);
    WrapBack(final.s - sig.s, c.n);
  }

  /** Hence the round trip: what decrypts is what extracts. */
  lemma RoundTrip(c: Curve, pubkey: nat, msg: Bytes, secret: nat, sig: AdaptorSig)
    requires Sound(c) && 0 < secret < c.n && EncryptVerify(c, pubkey, msg, X(c, secret), sig)
    ensures Decrypt(c, sig, secret).Some? && Extract(c, sig, Decrypt(c, sig, secret).value) == AdaptorScalar(c, secret)
    ensures X(c, Extract(c, sig, Decrypt(c, sig, secret).value)) == X(c, secret)
  {
    DecryptVerifies(c, pubkey, msg, secret, sig);
    EvenIsEven(c, secret);
    EvenIsEven(c, Add(c, sig.r, X(c, secret)));
    ExtractFinds(c, pubkey, msg, secret, sig, Decrypt(c, sig, secret).value);
  }

  /** A plain signature verifies, whatever the parities of key and nonce. */
  lemma SignVerifies(c: Curve, sec: nat, msg: Bytes, k: nat)
    requires Sound(c) && 0 < sec < c.n && 0 < k < c.n
    ensures Verify(c, X(c, sec), msg, Sign(c, sec, msg, k))
  {
    EvenIsEven(c, sec);
    EvenIsEven(c, k);
    var x, r := EvenScalar(c, sec), EvenScalar(c, k);
    var e := c.challenge(r, x, msg) % c.n;
    Unshared(c, Sign(c, sec, msg, k).s, r, e, x);
  }

  /** A group of five, with one key and one secret of odd y: what is asked of a curve can
      be had, and a signature under them is made, verifies and is completed. */
  lemma SmallCurve() returns (c: Curve, sig: AdaptorSig)
    ensures Sound(c) && c.n == 5 && Signed(c, EvenScalar(c, 4), 0, X(c, 4), 0, sig)
    ensures EncryptVerify(c, X(c, 4), 0, X(c, 4), sig)
    ensures Decrypt(c, sig, 4).Some? && Verify(c, X(c, 4), 0, Decrypt(c, sig, 4).value)
  {
    c := Curve(5, (p: nat) => p == 1 || p == 2, (r: nat, x: nat, m: Bytes) => 1, (x: nat, a: nat, t: nat, m: Bytes, n: nat) => 1);
    sig := AdaptorSig(1, 2);
    assert Add(c, 1, 1) == 2 && Mul(c, 1, 1) == 1 && Candidate(c, 1, 1, 0, 0, 0) == 1;
    assert Usable(c, 1, 1);
    assert Signed(c, 1, 0, 1, 0, sig) by {
      var counter: nat := 0;
      assert counter < 256 && sig.r == Candidate(c, 1, 1, 0, 0, counter);
    }
    SignedVerifies(c, 4, 0, X(c, 4), 0, sig);
    DecryptVerifies(c, X(c, 4), 0, 4, sig);
  }

  // ------------------------------------------------------- what is accepted

  /** A coordinate lifts to the even point that has it, and to nothing if no point does. */
  lemma LiftExactly(c: Curve, x: nat)
    requires Sound(c)
    ensures LiftX(c, x).Some? <==> exists p: nat :: 0 < p < c.n && X(c, p) == x
    ensures LiftX(c, x).Some? ==> 0 < LiftX(c, x).value < c.n && c.even(LiftX(c, x).value) && X(c, LiftX(c, x).value) == x
  {
    if p: nat :| 0 < p < c.n && X(c, p) == x {
      EvenIsEven(c, p);
    }
    if LiftX(c, x).Some? {
      assert X(c, x) == x;
    }
  }

  /** A signature verifies exactly when key and nonce are coordinates of points, its scalar is
      below the order, and is the nonce and the challenge's share of the key. */
  lemma VerifyExactly(c: Curve, pubkey: nat, msg: Bytes, sig: Sig)
    requires Sound(c)
    ensures Verify(c, pubkey, msg, sig) <==>
      && 0 < pubkey < c.n && c.even(pubkey) && 0 < sig.r < c.n && c.even(sig.r)
      && sig.s < c.n && sig.s == (sig.r + (c.challenge(sig.r, pubkey, msg) % c.n) * pubkey % c.n) % c.n
  {
    var e := c.challenge(sig.r, pubkey, msg) % c.n;
    if sig.s < c.n {
      var r := Add(c, sig.s, Mul(c, c.n - e, pubkey));
      Unshared(c, sig.s, r, e, pubkey);
      if sig.r < c.n {
        Unshared(c, sig.s, sig.r, e, pubkey);
      }
    }
  }

  /** An encrypted signature verifies exactly when its keys are coordinates, its nonce is not
      infinity, the nonce with the point added has even y and is not either, and its scalar is
      its own nonce and the share of the challenge under the other. */
  lemma EncryptVerifyExactly(c: Curve, pubkey: nat, msg: Bytes, adaptor: nat, sig: AdaptorSig)
    requires Sound(c)
    ensures EncryptVerify(c, pubkey, msg, adaptor, sig) <==>
      && 0 < pubkey < c.n && c.even(pubkey) && 0 < adaptor < c.n && c.even(adaptor) && 0 < sig.r < c.n
      && c.even((sig.r + adaptor) % c.n)
      && sig.s == (sig.r + (c.challenge((sig.r + adaptor) % c.n, pubkey, msg) % c.n) * pubkey % c.n) % c.n
  {
    if sig.r < c.n && adaptor < c.n {
      Wrap(sig.r + adaptor, c.n);
    }
  }

  /** Only a secret or a nonce that is no scalar, or a final nonce at infinity, leaves nothing
      to decrypt. */
  lemma DecryptRefuses(c: Curve, sig: AdaptorSig, secret: nat)
    requires Sound(c)
    ensures Decrypt(c, sig, secret).None? <==>
      || secret == 0 || secret >= c.n || sig.r == 0 || sig.r >= c.n
      || (sig.r + (if c.even(secret) then secret else c.n - secret)) % c.n == 0
  {}
}
