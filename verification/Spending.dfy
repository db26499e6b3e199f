/** Who can spend each leaf: the scripts of the two Bitcoin outputs run over a witness, and
    what that leaves of the conditions the protocol is played by. */
module Spending {
  import opened Wrappers
  import opened Taproot
  import Timelocks
  import P = Protocol

  /** What a witness pushes: bytes, or a key's signature of the transaction at hand. */
  datatype Element = Bytes(bytes: seq<Byte>) | Signature(key: seq<Byte>)

  type Hasher = seq<Byte> -> seq<Byte>

  /** A lock time of a script is reached by a transaction's when both are heights or both are
      times and it is no later. */
  predicate Reached(n: int, lock: nat) {
    0 <= n <= lock && (n < 500_000_000 <==> lock < 500_000_000)
  }

  /** One token; a stack is written bottom first. */
  function Perform(sha: Hasher, lock: nat, token: Token, stack: seq<Element>): Option<seq<Element>> {
    var n := |stack|;
    match token
    case Data(bytes) => Some(stack + [Bytes(bytes)])
    case Code(op) =>
      if 81 <= op <= 96 then Some(stack + [Bytes([op - 80])])
      else if n == 0 || !stack[n - 1].Bytes? then None
      else
        var top := stack[n - 1].bytes;
        if op == 0x75 then Some(stack[..n - 1])
        else if op == 0xa8 then Some(stack[..n - 1] + [Bytes(sha(top))])
        else if op == 0xb1 then if Reached(ReadNum(top), lock) then Some(stack) else None
        else if n == 1 then None
        else if op == 0x88 then if stack[n - 2] == Bytes(top) then Some(stack[..n - 2]) else None
        else if op == 0xad then if stack[n - 2] == Signature(top) then Some(stack[..n - 2]) else None
        else if op == 0xac then
          if stack[n - 2] == Signature(top) then Some(stack[..n - 2] + [Bytes([1])])
          else if stack[n - 2] == Bytes([]) then Some(stack[..n - 2] + [Bytes([])])
          else None
        else None
  }

  function Exec(sha: Hasher, lock: nat, tokens: seq<Token>, stack: seq<Element>): Option<seq<Element>> {
    if tokens == [] then Some(stack)
    else
      var next := Perform(sha, lock, tokens[0], stack);
      if next.None? then None else Exec(sha, lock, tokens[1..], next.value)
  }

  predicate True(e: Element) { e.Bytes? ==> ReadNum(e.bytes) != 0 }

  predicate Satisfied(end: Option<seq<Element>>) { end.Some? && |end.value| == 1 && True(end.value[0]) }

  /** A script is satisfied when it runs to its end and leaves one element, which is true. */
  predicate Accepts(sha: Hasher, lock: nat, script: seq<Byte>, stack: seq<Element>) {
    var tokens := ReadScript(script);
    tokens.Some? && Satisfied(Exec(sha, lock, tokens.value, stack))
  }

  // -------------------------------------------------------------- the shapes

  lemma One(sha: Hasher, lock: nat, token: Token, rest: seq<Token>, stack: seq<Element>)
    ensures var next := Perform(sha, lock, token, stack);
      Exec(sha, lock, [token] + rest, stack) == if next.None? then None else Exec(sha, lock, rest, next.value)
  {
    assert ([token] + rest)[1..] == rest;
  }

  lemma Checked(sha: Hasher, lock: nat, key: seq<Byte>, below: seq<Element>, top: Element)
    ensures Perform(sha, lock, Code(0xac), below + [top] + [Bytes(key)])
      == if top == Signature(key) then Some(below + [Bytes([1])]) else if top == Bytes([]) then Some(below + [Bytes([])]) else None
  {
    var pushed := below + [top] + [Bytes(key)];
    assert pushed[|pushed| - 1] == Bytes(key) && pushed[|pushed| - 2] == top && pushed[..|pushed| - 2] == below;
  }

  /** The last test of every leaf: a key's signature, and nothing under it. */
  lemma LastKey(sha: Hasher, lock: nat, key: seq<Byte>, stack: seq<Element>)
    ensures Satisfied(Exec(sha, lock, [Data(key)] + [Code(0xac)], stack)) <==> stack == [Signature(key)]
  {
    One(sha, lock, Data(key), [Code(0xac)], stack);
    One(sha, lock, Code(0xac), [], stack + [Bytes(key)]);
    assert [Code(0xac)] + [] == [Code(0xac)];
    if stack != [] {
      var below, top := stack[..|stack| - 1], stack[|stack| - 1];
      assert stack == below + [top];
      Checked(sha, lock, key, below, top);
      OneLeft(below, top, key);
    }
  }

  lemma OneLeft(below: seq<Element>, top: Element, key: seq<Byte>)
    ensures Satisfied(Some(below + [Bytes([1])])) <==> below == []
    ensures !Satisfied(Some(below + [Bytes([])]))
    ensures below + [top] == [Signature(key)] <==> below == [] && top == Signature(key)
  {
    assert Value([1]) == 1 by {
      assert [1][1..] == [];
    }
    if below == [] {
      assert below + [top] == [top] && (below + [Bytes([1])])[0] == Bytes([1]) && (below + [Bytes([])])[0] == Bytes([]);
    }
  }

  /** A key's signature taken off the stack before the rest. */
  lemma KeyFirst(sha: Hasher, lock: nat, key: seq<Byte>, rest: seq<Token>, stack: seq<Element>)
    ensures Exec(sha, lock, [Data(key)] + ([Code(0xad)] + rest), stack)
      == if stack != [] && stack[|stack| - 1] == Signature(key) then Exec(sha, lock, rest, stack[..|stack| - 1]) else None
  {
    var pushed := stack + [Bytes(key)];
    One(sha, lock, Data(key), [Code(0xad)] + rest, stack);
    One(sha, lock, Code(0xad), rest, pushed);
    if stack != [] {
      assert pushed[|pushed| - 2] == stack[|stack| - 1] && pushed[..|pushed| - 2] == stack[..|stack| - 1];
    }
  }

  /** The preimage of a hash taken off the stack before the rest. */
  lemma PreimageFirst(sha: Hasher, lock: nat, h: seq<Byte>, rest: seq<Token>, stack: seq<Element>)
    ensures Exec(sha, lock, [Code(0xa8)] + ([Data(h)] + ([Code(0x88)] + rest)), stack)
      == if stack != [] && stack[|stack| - 1].Bytes? && sha(stack[|stack| - 1].bytes) == h
         then Exec(sha, lock, rest, stack[..|stack| - 1]) else None
  {
    One(sha, lock, Code(0xa8), [Data(h)] + ([Code(0x88)] + rest), stack);
    if stack != [] && stack[|stack| - 1].Bytes? {
      var hashed := stack[..|stack| - 1] + [Bytes(sha(stack[|stack| - 1].bytes))];
      var pushed := hashed + [Bytes(h)];
      One(sha, lock, Data(h), [Code(0x88)] + rest, hashed);
      One(sha, lock, Code(0x88), rest, pushed);
      assert pushed[..|pushed| - 2] == stack[..|stack| - 1];
    }
  }

  /** A lock time that has to be reached before the rest. */
  lemma LockFirst(sha: Hasher, lock: nat, n: int, rest: seq<Token>, stack: seq<Element>)
    ensures Exec(sha, lock, [TokenOf(Num(n))] + ([Code(0xb1)] + ([Code(0x75)] + rest)), stack)
      == if Reached(n, lock) then Exec(sha, lock, rest, stack) else None
  {
    ScriptNumRead(n);
    var number := if 1 <= n <= 16 then [n] else ScriptNum(n);
    var pushed := stack + [Bytes(number)];
    assert ReadNum(number) == n by {
      if 1 <= n <= 16 {
        assert Value([n]) == n + 256 * Value([]);
      }
    }
    One(sha, lock, TokenOf(Num(n)), [Code(0xb1)] + ([Code(0x75)] + rest), stack);
    One(sha, lock, Code(0xb1), [Code(0x75)] + rest, pushed);
    One(sha, lock, Code(0x75), rest, pushed);
    assert pushed[..|pushed| - 1] == stack;
  }

  lemma TokensOf(items: seq<Item>)
    ensures items != [] ==> Tokens(items) == [TokenOf(items[0])] + Tokens(items[1..])
  {}

  lemma TimelockRuns(sha: Hasher, lock: nat, n: int, key: seq<Byte>, stack: seq<Element>)
    requires |ScriptNum(n)| < 76 && |key| < 76
    ensures Accepts(sha, lock, SerScript(TimelockedSingle(n, key)), stack) <==> Reached(n, lock) && stack == [Signature(key)]
  {
    var items := TimelockedSingle(n, key);
    ScriptRead(items);
    var last := [Data(key)] + [Code(0xac)];
    assert Tokens(items) == [TokenOf(Num(n))] + ([Code(0xb1)] + ([Code(0x75)] + last)) by {
      TokensOf(items);
      TokensOf(items[1..]);
      TokensOf(items[2..]);
      TokensOf(items[3..]);
      TokensOf(items[4..]);
    }
    LockFirst(sha, lock, n, last, stack);
    LastKey(sha, lock, key, stack);
  }

  lemma TwoOfTwoRuns(sha: Hasher, lock: nat, a: seq<Byte>, b: seq<Byte>, stack: seq<Element>)
    requires |a| < 76 && |b| < 76
    ensures Accepts(sha, lock, SerScript(TwoOfTwo(a, b)), stack) <==> stack == [Signature(b), Signature(a)]
  {
    var items := TwoOfTwo(a, b);
    ScriptRead(items);
    var last := [Data(b)] + [Code(0xac)];
    assert Tokens(items) == [Data(a)] + ([Code(0xad)] + last) by {
      TokensOf(items);
      TokensOf(items[1..]);
      TokensOf(items[2..]);
      TokensOf(items[3..]);
    }
    BothKeys(sha, lock, a, b, stack);
  }

  lemma BothKeys(sha: Hasher, lock: nat, a: seq<Byte>, b: seq<Byte>, stack: seq<Element>)
    ensures Satisfied(Exec(sha, lock, [Data(a)] + ([Code(0xad)] + ([Data(b)] + [Code(0xac)])), stack)) <==> stack == [Signature(b), Signature(a)]
  {
    KeyFirst(sha, lock, a, [Data(b)] + [Code(0xac)], stack);
    if stack != [] {
      LastKey(sha, lock, b, stack[..|stack| - 1]);
      assert stack == stack[..|stack| - 1] + [stack[|stack| - 1]];
    }
  }

  /** Two signatures over a preimage of a hash. */
  ghost predicate Both(sha: Hasher, h: seq<Byte>, a: seq<Byte>, b: seq<Byte>, stack: seq<Element>) {
    exists p :: sha(p) == h && stack == [Signature(b), Signature(a), Bytes(p)]
  }

  lemma BothIs(sha: Hasher, h: seq<Byte>, a: seq<Byte>, b: seq<Byte>, stack: seq<Element>)
    ensures Both(sha, h, a, b, stack) <==>
      && stack != [] && stack[|stack| - 1].Bytes? && sha(stack[|stack| - 1].bytes) == h
      && stack[..|stack| - 1] == [Signature(b), Signature(a)]
  {
    if stack != [] && stack[|stack| - 1].Bytes? && stack[..|stack| - 1] == [Signature(b), Signature(a)] {
      assert stack == [Signature(b), Signature(a), Bytes(stack[|stack| - 1].bytes)];
    }
  }

  lemma HashlockRuns(sha: Hasher, lock: nat, h: seq<Byte>, a: seq<Byte>, b: seq<Byte>, stack: seq<Element>)
    requires |h| < 76 && |a| < 76 && |b| < 76
    ensures Accepts(sha, lock, SerScript(HashlockedTwoOfTwo(h, a, b)), stack)
      <==> Both(sha, h, a, b, stack)
  {
    var items := HashlockedTwoOfTwo(h, a, b);
    ScriptRead(items);
    var keys := [Data(a)] + ([Code(0xad)] + ([Data(b)] + [Code(0xac)]));
    assert Tokens(items) == [Code(0xa8)] + ([Data(h)] + ([Code(0x88)] + keys)) by {
      TokensOf(items);
      TokensOf(items[1..]);
      TokensOf(items[2..]);
      TokensOf(items[3..]);
      TokensOf(items[4..]);
      TokensOf(items[5..]);
      TokensOf(items[6..]);
    }
    PreimageFirst(sha, lock, h, keys, stack);
    BothIs(sha, h, a, b, stack);
    if stack != [] {
      BothKeys(sha, lock, a, b, stack[..|stack| - 1]);
    }
  }

  // -------------------------------------------------------------- the leaves

  predicate OnBitcoin(leaf: P.Leaf) { P.CoinOf(leaf) == P.Prevault || P.CoinOf(leaf) == P.Vault }

  /** The script of each leaf of the two outputs on Bitcoin. */
  function LeafScript(l: Loan, leaf: P.Leaf): seq<Byte>
    requires Wellformed(l)
  {
    match leaf
    case Upgrade => Upgrade(l)
    case Abort => Abort(l)
    case Reclaim => Reclaim(l)
    case Seize => Seize(l)
    case Timeout => Timeout(l)
    case _ => []
  }

  /** What is meant to satisfy each leaf: the preimage and both signatures, the lender's and the
      oracle's, or one party's when its time has come. */
  ghost predicate Meant(sha: Hasher, lock: nat, l: Loan, leaf: P.Leaf, stack: seq<Element>) {
    match leaf
    case Upgrade => Both(sha, l.hW, l.borrower, l.lender, stack)
    case Abort => Reached(l.abortAfter, lock) && stack == [Signature(l.borrower)]
    case Reclaim => Both(sha, l.paymentHash, l.borrower, l.lender, stack)
    case Seize => stack == [Signature(l.oracle), Signature(l.lender)]
    case Timeout => Reached(l.recoverAfter, lock) && stack == [Signature(l.lender)]
    case _ => false
  }

  /** It is what does. */
  lemma LeafRuns(sha: Hasher, lock: nat, l: Loan, leaf: P.Leaf, stack: seq<Element>)
    requires Wellformed(l) && OnBitcoin(leaf)
    ensures Accepts(sha, lock, LeafScript(l, leaf), stack) <==> Meant(sha, lock, l, leaf, stack)
  {
    match leaf
    case Upgrade => HashlockRuns(sha, lock, l.hW, l.borrower, l.lender, stack);
    case Abort => TimelockRuns(sha, lock, l.abortAfter, l.borrower, stack);
    case Reclaim => HashlockRuns(sha, lock, l.paymentHash, l.borrower, l.lender, stack);
    case Seize => TwoOfTwoRuns(sha, lock, l.lender, l.oracle, stack);
    case Timeout => TimelockRuns(sha, lock, l.recoverAfter, l.lender, stack);
    case _ => assert false;
  }

  /** A spend of an output by a script that folds to its tree. */
  ghost predicate Spends(sha: Hasher, lock: nat, less: (Digest, Digest) -> bool, spk: Spk, stack: seq<Element>) {
    exists script, path :: Fold(less, Leaf(script), path) == spk.root && Accepts(sha, lock, script, stack)
  }

  /** By a tree of leaves, exactly what one of them accepts. */
  lemma TreeSpends(sha: Hasher, lock: nat, less: (Digest, Digest) -> bool, leaves: seq<seq<Byte>>, stack: seq<Element>)
    requires TotalOrder(less) && leaves != []
    ensures Spends(sha, lock, less, Taproot.Spk.Taproot(NUMS, Root(less, leaves)), stack)
      <==> exists i :: 0 <= i < |leaves| && Accepts(sha, lock, leaves[i], stack)
  {
    if i :| 0 <= i < |leaves| && Accepts(sha, lock, leaves[i], stack) {
      PathFolds(less, leaves, i);
    }
    if script, path :| Fold(less, Leaf(script), path) == Root(less, leaves) && Accepts(sha, lock, script, stack) {
      var i := OnlyLeaves(less, leaves, script, path);
    }
  }

  lemma TwoLeaves(sha: Hasher, lock: nat, less: (Digest, Digest) -> bool, a: seq<Byte>, b: seq<Byte>, stack: seq<Element>)
    requires TotalOrder(less)
    ensures Spends(sha, lock, less, Taproot.Spk.Taproot(NUMS, Root(less, [a, b])), stack)
      <==> Accepts(sha, lock, a, stack) || Accepts(sha, lock, b, stack)
  {
    var leaves := [a, b];
    TreeSpends(sha, lock, less, leaves, stack);
    assert leaves[0] == a && leaves[1] == b;
  }

  lemma ThreeLeaves(sha: Hasher, lock: nat, less: (Digest, Digest) -> bool, a: seq<Byte>, b: seq<Byte>, c: seq<Byte>, stack: seq<Element>)
    requires TotalOrder(less)
    ensures Spends(sha, lock, less, Taproot.Spk.Taproot(NUMS, Root(less, [a, b, c])), stack)
      <==> Accepts(sha, lock, a, stack) || Accepts(sha, lock, b, stack) || Accepts(sha, lock, c, stack)
  {
    var leaves := [a, b, c];
    TreeSpends(sha, lock, less, leaves, stack);
    assert leaves[0] == a && leaves[1] == b && leaves[2] == c;
  }

  /** All that can be done with the pre-vault: the borrower alone once it may be aborted, and
      before that nobody without both signatures and the secret. */
  lemma PrevaultSpends(sha: Hasher, lock: nat, less: (Digest, Digest) -> bool, l: Loan, stack: seq<Element>)
    requires TotalOrder(less) && Wellformed(l)
    ensures PrevaultSpk(less, l).internal == NUMS
    ensures Spends(sha, lock, less, PrevaultSpk(less, l), stack) <==>
      (Reached(l.abortAfter, lock) && stack == [Signature(l.borrower)]) || Both(sha, l.hW, l.borrower, l.lender, stack)
  {
    TwoLeaves(sha, lock, less, LeafScript(l, P.Upgrade), LeafScript(l, P.Abort), stack);
    LeafRuns(sha, lock, l, P.Upgrade, stack);
    LeafRuns(sha, lock, l, P.Abort, stack);
  }

  /** And with the vault: the borrower with the lender's secret and signature, the lender with
      the oracle's signature, or the lender alone once the time has come. */
  lemma VaultSpends(sha: Hasher, lock: nat, less: (Digest, Digest) -> bool, l: Loan, stack: seq<Element>)
    requires TotalOrder(less) && Wellformed(l)
    ensures FundingSpk(less, l).internal == NUMS
    ensures Spends(sha, lock, less, FundingSpk(less, l), stack) <==>
      || (Reached(l.recoverAfter, lock) && stack == [Signature(l.lender)])
      || stack == [Signature(l.oracle), Signature(l.lender)]
      || Both(sha, l.paymentHash, l.borrower, l.lender, stack)
  {
    ThreeLeaves(sha, lock, less, LeafScript(l, P.Reclaim), LeafScript(l, P.Seize), LeafScript(l, P.Timeout), stack);
    LeafRuns(sha, lock, l, P.Reclaim, stack);
    LeafRuns(sha, lock, l, P.Seize, stack);
    LeafRuns(sha, lock, l, P.Timeout, stack);
  }

  // ------------------------------------------------------------ the protocol

  /** The bytes of each secret, and the hash that stands for the protocol's. */
  datatype Coding = Coding(sha: Hasher, bytes: Timelocks.Secret -> seq<Byte>)

  /** The scripts are those of the protocol's loan, under a hash that tells secrets apart, and
      three keys that are not one another. */
  ghost predicate Matches(c: Coding, env: P.Env, l: Loan) {
    && Wellformed(l) && l.borrower != l.lender && l.borrower != l.oracle && l.lender != l.oracle
    && (forall x, y :: c.sha(c.bytes(x)) == c.sha(c.bytes(y)) ==> x == y)
    && env.loan.hW == Some(Timelocks.Sha256(env.w)) && l.hW == c.sha(c.bytes(env.w))
    && env.loan.paymentHash == Some(Timelocks.Sha256(env.t)) && l.paymentHash == c.sha(c.bytes(env.t))
    && env.loan.abortAfter == l.abortAfter && 0 < l.abortAfter < 500_000_000
    && env.loan.recoverAfter == l.recoverAfter && 0 < l.recoverAfter < 500_000_000
  }

  /** What a party can put in a witness: secrets it knows, its own signature, the one its
      counterparty gave for this leaf, and, where the oracle signs, the oracle's of a seizure. */
  ghost predicate Has(c: Coding, env: P.Env, s: P.State, l: Loan, who: P.Party, leaf: P.Leaf, e: Element) {
    match e
    case Bytes(bytes) => exists x :: bytes == c.bytes(x) && P.Knows(env, s, who, Some(Timelocks.Sha256(x)))
    case Signature(key) =>
      || (key == l.borrower && P.Signs(who, P.Borrower, leaf))
      || (key == l.lender && P.Signs(who, P.Lender, leaf))
      || (key == l.oracle && env.oracleSigns)
  }

  /** A transaction this party can make now: final in the next block, by this leaf, with a
      witness of what it has. */
  ghost predicate Makes(c: Coding, env: P.Env, s: P.State, l: Loan, who: P.Party, leaf: P.Leaf, lock: nat, stack: seq<Element>)
    requires Wellformed(l)
  {
    && (lock == 0 || lock < P.BtcTip(env, s.now))
    && (forall e :: e in stack ==> Has(c, env, s, l, who, leaf, e))
    && Accepts(c.sha, lock, LeafScript(l, leaf), stack)
  }

  /** The conditions the protocol is played by are those of the scripts: a party can witness a
      leaf and have it mined exactly when it can make a transaction that spends by it. */
  lemma ScriptsAreRules(c: Coding, env: P.Env, s: P.State, l: Loan, who: P.Party, leaf: P.Leaf)
    requires Matches(c, env, l) && OnBitcoin(leaf)
    ensures P.CanWitness(env, s, P.Tx(who, leaf)) && P.Mineable(env, leaf, s.now)
      <==> exists lock, stack :: Makes(c, env, s, l, who, leaf, lock, stack)
  {
    if P.CanWitness(env, s, P.Tx(who, leaf)) && P.Mineable(env, leaf, s.now) {
      var lock, stack := RuleHasScript(c, env, s, l, who, leaf);
    }
    if lock, stack :| Makes(c, env, s, l, who, leaf, lock, stack) {
      ScriptHasRule(c, env, s, l, who, leaf, lock, stack);
    }
  }

  lemma RuleHasScript(c: Coding, env: P.Env, s: P.State, l: Loan, who: P.Party, leaf: P.Leaf) returns (lock: nat, stack: seq<Element>)
    requires Matches(c, env, l) && OnBitcoin(leaf)
    requires P.CanWitness(env, s, P.Tx(who, leaf)) && P.Mineable(env, leaf, s.now)
    ensures Makes(c, env, s, l, who, leaf, lock, stack)
  {
    lock := if leaf == P.Abort then l.abortAfter else if leaf == P.Timeout then l.recoverAfter else 0;
    stack := match leaf
      case Upgrade => [Signature(l.lender), Signature(l.borrower), Bytes(c.bytes(env.w))]
      case Reclaim => [Signature(l.lender), Signature(l.borrower), Bytes(c.bytes(env.t))]
      case Seize => [Signature(l.oracle), Signature(l.lender)]
      case Abort => [Signature(l.borrower)]
      case _ => [Signature(l.lender)];
    LeafRuns(c.sha, lock, l, leaf, stack);
    forall e | e in stack ensures Has(c, env, s, l, who, leaf, e) {}
  }

  lemma ScriptHasRule(c: Coding, env: P.Env, s: P.State, l: Loan, who: P.Party, leaf: P.Leaf, lock: nat, stack: seq<Element>)
    requires Matches(c, env, l) && OnBitcoin(leaf) && Makes(c, env, s, l, who, leaf, lock, stack)
    ensures P.CanWitness(env, s, P.Tx(who, leaf)) && P.Mineable(env, leaf, s.now)
  {
    LeafRuns(c.sha, lock, l, leaf, stack);
    if leaf == P.Upgrade || leaf == P.Reclaim {
      var secret := if leaf == P.Upgrade then env.w else env.t;
      var p :| c.sha(p) == c.sha(c.bytes(secret)) && stack == [Signature(l.lender), Signature(l.borrower), Bytes(p)];
      assert Has(c, env, s, l, who, leaf, stack[0]) && Has(c, env, s, l, who, leaf, stack[1]) && Has(c, env, s, l, who, leaf, stack[2]);
    } else {
      assert Has(c, env, s, l, who, leaf, stack[0]);
      assert leaf == P.Seize ==> Has(c, env, s, l, who, leaf, stack[1]);
    }
  }
}
