/** Scripts, script trees and what an address commits to. Hashes are symbolic: a digest is
    the term that was hashed, and any total order sorts the halves of a branch. */
module Taproot {
  import opened Wrappers

  type Byte = b: int | 0 <= b < 256

  // ---------------------------------------------------------------- numbers

  function Magnitude(a: nat): seq<Byte>
    decreases a
  {
    if a == 0 then [] else [a % 256] + Magnitude(a / 256)
  }

  method MagnitudeBytes(n: nat) returns (out: seq<Byte>)
    ensures out == Magnitude(n)
  {
    var a := n;
    out := [];
    while a > 0
      invariant out + Magnitude(a) == Magnitude(n)
      decreases a
    {
      assert out + [a % 256] + Magnitude(a / 256) == out + ([a % 256] + Magnitude(a / 256));
      out := out + [a % 256];
      a := a / 256;
    }
    assert out + [] == out;
  }

  /** CScriptNum: little-endian, the sign in the top bit. */
  method ScriptNumBytes(n: int) returns (out: seq<Byte>)
    ensures out == ScriptNum(n)
  {
    if n == 0 {
      return [];
    }
    out := MagnitudeBytes(if n < 0 then -n else n);
    var top := out[|out| - 1];
    if top >= 128 {
      out := out + [if n < 0 then 128 else 0];
    } else if n < 0 {
      out := out[..|out| - 1] + [top + 128];
    }
  }

  function ScriptNum(n: int): seq<Byte> {
    if n == 0 then []
    else
      var m := Magnitude(if n < 0 then -n else n);
      var top := m[|m| - 1];
      if top >= 128 then m + [if n < 0 then 128 else 0]
      else if n < 0 then m[..|m| - 1] + [top + 128]
      else m
  }

  function Value(m: seq<Byte>): nat {
    if m == [] then 0 else m[0] + 256 * Value(m[1..])
  }

  /** The number a script reads. */
  function ReadNum(s: seq<Byte>): int {
    if s == [] then 0
    else
      var top := s[|s| - 1];
      if top >= 128 then -(Value(s[..|s| - 1] + [top - 128]) as int) else Value(s)
  }

  lemma {:induction false} MagnitudeValue(a: nat)
    ensures Value(Magnitude(a)) == a
    ensures a > 0 ==> |Magnitude(a)| > 0 && Magnitude(a)[|Magnitude(a)| - 1] > 0
    decreases a
  {
    if a > 0 {
      MagnitudeValue(a / 256);
      assert Magnitude(a)[1..] == Magnitude(a / 256);
    }
  }

  lemma {:induction false} TrailingZero(m: seq<Byte>)
    ensures Value(m + [0]) == Value(m)
  {
    if m == [] {
      assert (m + [0])[1..] == [];
    } else {
      TrailingZero(m[1..]);
      assert (m + [0])[1..] == m[1..] + [0];
    }
  }

  /** A number is read back from its script form, whatever its sign and size. */
  lemma ScriptNumRead(n: int)
    ensures ReadNum(ScriptNum(n)) == n
    ensures n != 0 ==> ScriptNum(n) != []
  {
    if n != 0 {
      var m := Magnitude(if n < 0 then -n else n);
      MagnitudeValue(if n < 0 then -n else n);
      TrailingZero(m);
      var s := ScriptNum(n);
      var top := m[|m| - 1];
      if top >= 128 {
        assert s[..|s| - 1] == m;
      } else if n < 0 {
        assert s[..|s| - 1] + [s[|s| - 1] - 128] == m;
      }
    }
  }

  // ---------------------------------------------------------------- scripts

  datatype Item = Op(code: Byte) | Num(n: int) | Push(data: seq<Byte>)

  /** What a script is made of once read: opcodes and pushes. */
  datatype Token = Code(op: Byte) | Data(bytes: seq<Byte>)

  function TokenOf(it: Item): Token {
    match it
    case Op(code) => Code(code)
    case Num(n) => if n == 0 then Data([]) else if 1 <= n <= 16 then Code(80 + n) else Data(ScriptNum(n))
    case Push(data) => Data(data)
  }

  /** Only short pushes, and opcodes above the push range. */
  predicate Writable(it: Item) {
    match TokenOf(it)
    case Code(op) => op >= 76
    case Data(bytes) => |bytes| < 76
  }

  function SerToken(t: Token): seq<Byte>
    requires t.Data? ==> |t.bytes| < 76
  {
    match t
    case Code(op) => [op]
    case Data(bytes) => [|bytes|] + bytes
  }

  function SerScript(items: seq<Item>): seq<Byte>
    requires forall i :: 0 <= i < |items| ==> Writable(items[i])
  {
    if items == [] then []
    else
      assert Writable(items[0]);
      SerToken(TokenOf(items[0])) + SerScript(items[1..])
  }

  function ReadScript(s: seq<Byte>): Option<seq<Token>>
    decreases |s|
  {
    if s == [] then Some([])
    else if s[0] >= 76 then
      var rest := ReadScript(s[1..]);
      if rest.None? then None else Some([Code(s[0])] + rest.value)
    else if |s| < 1 + s[0] then None
    else
      var rest := ReadScript(s[1 + s[0]..]);
      if rest.None? then None else Some([Data(s[1..1 + s[0]])] + rest.value)
  }

  function Tokens(items: seq<Item>): seq<Token> {
    if items == [] then [] else [TokenOf(items[0])] + Tokens(items[1..])
  }

  /** A script reads back as what was written: no two token lists share their bytes. */
  lemma {:induction false} ScriptRead(items: seq<Item>)
    requires forall i :: 0 <= i < |items| ==> Writable(items[i])
    ensures ReadScript(SerScript(items)) == Some(Tokens(items))
  {
    if items != [] {
      ScriptRead(items[1..]);
      var head, rest := SerToken(TokenOf(items[0])), SerScript(items[1..]);
      var s := head + rest;
      assert Writable(items[0]);
      match TokenOf(items[0])
      case Code(op) =>
        assert s[1..] == rest;
      case Data(bytes) =>
        assert s[1..1 + |bytes|] == bytes && s[1 + |bytes|..] == rest;
    }
  }

  // ----------------------------------------------------------------- leaves

  function TwoOfTwo(a: seq<Byte>, b: seq<Byte>): seq<Item> { [Push(a), Op(0xad), Push(b), Op(0xac)] }

  function TimelockedSingle(locktime: int, key: seq<Byte>): seq<Item> {
    [Num(locktime), Op(0xb1), Op(0x75), Push(key), Op(0xac)]
  }

  function HashlockedTwoOfTwo(h: seq<Byte>, a: seq<Byte>, b: seq<Byte>): seq<Item> {
    [Op(0xa8), Push(h), Op(0x88), Push(a), Op(0xad), Push(b), Op(0xac)]
  }

  // ------------------------------------------------------------------ trees

  datatype Digest = Leaf(script: seq<Byte>) | Pair(low: Digest, high: Digest)

  ghost predicate TotalOrder(less: (Digest, Digest) -> bool) {
    && (forall a, b :: a != b ==> less(a, b) != less(b, a))
    && (forall a :: !less(a, a))
  }

  function Branch(less: (Digest, Digest) -> bool, a: Digest, b: Digest): Digest {
    if less(a, b) then Pair(a, b) else Pair(b, a)
  }

  /** A branch gives up its halves but not which is which. */
  lemma BranchHalves(less: (Digest, Digest) -> bool, a: Digest, b: Digest, c: Digest, d: Digest)
    requires Branch(less, a, b) == Branch(less, c, d)
    ensures (a == c && b == d) || (a == d && b == c)
  {}

  function Root(less: (Digest, Digest) -> bool, leaves: seq<seq<Byte>>): Digest
    requires leaves != []
  {
    if |leaves| == 1 then Leaf(leaves[0])
    else Branch(less, Root(less, leaves[..|leaves| - 1]), Leaf(leaves[|leaves| - 1]))
  }

  /** The siblings from a leaf up to the root. */
  function Path(less: (Digest, Digest) -> bool, leaves: seq<seq<Byte>>, i: nat): seq<Digest>
    requires i < |leaves|
  {
    if |leaves| == 1 then []
    else
      var before, last := leaves[..|leaves| - 1], leaves[|leaves| - 1];
      if i == |before| then [Root(less, before)] else Path(less, before, i) + [Leaf(last)]
  }

  function Fold(less: (Digest, Digest) -> bool, leaf: Digest, path: seq<Digest>): Digest {
    if path == [] then leaf
    else Branch(less, Fold(less, leaf, path[..|path| - 1]), path[|path| - 1])
  }

  /** The tree of a flat list of leaves, a left-leaning chain. */
  method BuildTree(less: (Digest, Digest) -> bool, leaves: seq<seq<Byte>>) returns (root: Digest, paths: seq<seq<Digest>>)
    requires leaves != []
    ensures root == Root(less, leaves) && |paths| == |leaves|
    ensures forall i :: 0 <= i < |leaves| ==> paths[i] == Path(less, leaves, i)
  {
    root, paths := Leaf(leaves[0]), [[]];
    assert leaves[..1] == [leaves[0]];
    for n := 1 to |leaves|
      invariant |paths| == n && root == Root(less, leaves[..n])
      invariant forall i :: 0 <= i < n ==> paths[i] == Path(less, leaves[..n], i)
    {
      var hash := Leaf(leaves[n]);
      assert leaves[..n + 1][..n] == leaves[..n];
      var longer := [];
      for m := 0 to n
        invariant |longer| == m
        invariant forall i :: 0 <= i < m ==> longer[i] == Path(less, leaves[..n + 1], i)
      {
        longer := longer + [paths[m] + [hash]];
      }
      paths := longer + [[root]];
      root := Branch(less, root, hash);
    }
    assert leaves[..|leaves|] == leaves;
  }

  /** Every recorded path folds to the root, for any number of leaves. */
  lemma {:induction false} PathFolds(less: (Digest, Digest) -> bool, leaves: seq<seq<Byte>>, i: nat)
    requires TotalOrder(less) && i < |leaves|
    ensures Fold(less, Leaf(leaves[i]), Path(less, leaves, i)) == Root(less, leaves)
  {
    if |leaves| > 1 {
      var before, last := leaves[..|leaves| - 1], leaves[|leaves| - 1];
      if i < |before| {
        PathFolds(less, before, i);
        var p := Path(less, before, i);
        assert (p + [Leaf(last)])[..|p|] == p;
      } else {
        assert Path(less, leaves, i)[..0] == [];
      }
    }
  }

  /** Nothing else does: a script with any path to the root is one of the leaves, and by
      its own path. */
  lemma {:induction false} OnlyLeaves(less: (Digest, Digest) -> bool, leaves: seq<seq<Byte>>, script: seq<Byte>, path: seq<Digest>)
    returns (i: nat)
    requires TotalOrder(less) && leaves != [] && Fold(less, Leaf(script), path) == Root(less, leaves)
    ensures i < |leaves| && leaves[i] == script && path == Path(less, leaves, i)
  {
    if |leaves| == 1 {
      i := 0;
      assert path == [];
    } else {
      var before, last := leaves[..|leaves| - 1], leaves[|leaves| - 1];
      assert path != [];
      var p, h := path[..|path| - 1], path[|path| - 1];
      var x := Fold(less, Leaf(script), p);
      assert path == p + [h];
      BranchHalves(less, x, h, Root(less, before), Leaf(last));
      if x == Root(less, before) && h == Leaf(last) {
        i := OnlyLeaves(less, before, script, p);
      } else {
        i := |before|;
        assert p == [];
      }
    }
  }

  // ---------------------------------------------------------- the addresses

  /** A taproot output: keyless, but for the tree. */
  datatype Spk = Taproot(internal: nat, root: Digest)

  const NUMS: nat := 0

  datatype Loan = Loan(borrower: seq<Byte>, lender: seq<Byte>, oracle: seq<Byte>, paymentHash: seq<Byte>,
                       hW: seq<Byte>, recoverAfter: int, abortAfter: int)

  /** Keys and hashes are short enough to push, times short enough for a script. */
  predicate Wellformed(l: Loan) {
    && |l.borrower| < 76 && |l.lender| < 76 && |l.oracle| < 76 && |l.paymentHash| < 76 && |l.hW| < 76
    && |ScriptNum(l.recoverAfter)| < 76 && |ScriptNum(l.abortAfter)| < 76
  }

  function Reclaim(l: Loan): seq<Byte>
    requires Wellformed(l)
  {
    SerScript(HashlockedTwoOfTwo(l.paymentHash, l.borrower, l.lender))
  }

  function Seize(l: Loan): seq<Byte>
    requires Wellformed(l)
  {
    SerScript(TwoOfTwo(l.lender, l.oracle))
  }

  function Timeout(l: Loan): seq<Byte>
    requires Wellformed(l)
  {
    SerScript(TimelockedSingle(l.recoverAfter, l.lender))
  }

  function FundingSpk(less: (Digest, Digest) -> bool, l: Loan): Spk
    requires Wellformed(l)
  {
    Taproot(NUMS, Root(less, [Reclaim(l), Seize(l), Timeout(l)]))
  }

  function Upgrade(l: Loan): seq<Byte>
    requires Wellformed(l)
  {
    SerScript(HashlockedTwoOfTwo(l.hW, l.borrower, l.lender))
  }

  function Abort(l: Loan): seq<Byte>
    requires Wellformed(l)
  {
    SerScript(TimelockedSingle(l.abortAfter, l.borrower))
  }

  function PrevaultSpk(less: (Digest, Digest) -> bool, l: Loan): Spk
    requires Wellformed(l)
  {
    Taproot(NUMS, Root(less, [Upgrade(l), Abort(l)]))
  }

  lemma SameScript(a: seq<Item>, b: seq<Item>)
    requires forall i :: 0 <= i < |a| ==> Writable(a[i])
    requires forall i :: 0 <= i < |b| ==> Writable(b[i])
    requires SerScript(a) == SerScript(b)
    ensures Tokens(a) == Tokens(b)
  {
    ScriptRead(a);
    ScriptRead(b);
  }

  lemma NumToken(m: int, n: int)
    requires TokenOf(Num(m)) == TokenOf(Num(n))
    ensures m == n
  {
    ScriptNumRead(m);
    ScriptNumRead(n);
  }

  lemma {:induction false} TokensAt(items: seq<Item>, i: nat)
    ensures |Tokens(items)| == |items|
    ensures i < |items| ==> Tokens(items)[i] == TokenOf(items[i])
  {
    if items != [] {
      TokensAt(items[1..], if i > 0 then i - 1 else 0);
    }
  }

  lemma SameAt(a: seq<Item>, b: seq<Item>, i: nat)
    requires Tokens(a) == Tokens(b)
    ensures |a| == |b| && (i < |a| ==> TokenOf(a[i]) == TokenOf(b[i]))
  {
    TokensAt(a, i);
    TokensAt(b, i);
  }

  predicate Pushable(b: seq<Byte>) { |b| < 76 }

  lemma HashlockSame(h: seq<Byte>, a: seq<Byte>, b: seq<Byte>, h': seq<Byte>, a': seq<Byte>, b': seq<Byte>)
    requires Pushable(h) && Pushable(a) && Pushable(b) && Pushable(h') && Pushable(a') && Pushable(b')
    requires SerScript(HashlockedTwoOfTwo(h, a, b)) == SerScript(HashlockedTwoOfTwo(h', a', b'))
    ensures h == h' && a == a' && b == b'
  {
    var x, y := HashlockedTwoOfTwo(h, a, b), HashlockedTwoOfTwo(h', a', b');
    SameScript(x, y);
    SameAt(x, y, 1);
    SameAt(x, y, 3);
    SameAt(x, y, 5);
  }

  lemma TwoOfTwoSame(a: seq<Byte>, b: seq<Byte>, a': seq<Byte>, b': seq<Byte>)
    requires Pushable(a) && Pushable(b) && Pushable(a') && Pushable(b')
    requires SerScript(TwoOfTwo(a, b)) == SerScript(TwoOfTwo(a', b'))
    ensures a == a' && b == b'
  {
    SameScript(TwoOfTwo(a, b), TwoOfTwo(a', b'));
    SameAt(TwoOfTwo(a, b), TwoOfTwo(a', b'), 0);
    SameAt(TwoOfTwo(a, b), TwoOfTwo(a', b'), 2);
  }

  lemma TimelockSame(n: int, k: seq<Byte>, n': int, k': seq<Byte>)
    requires |ScriptNum(n)| < 76 && |ScriptNum(n')| < 76 && Pushable(k) && Pushable(k')
    requires SerScript(TimelockedSingle(n, k)) == SerScript(TimelockedSingle(n', k'))
    ensures n == n' && k == k'
  {
    var x, y := TimelockedSingle(n, k), TimelockedSingle(n', k');
    SameScript(x, y);
    SameAt(x, y, 0);
    SameAt(x, y, 3);
    NumToken(n, n');
  }

  /** The three kinds of leaf are never one script. */
  lemma LeavesDiffer(h: seq<Byte>, a: seq<Byte>, b: seq<Byte>, c: seq<Byte>, d: seq<Byte>, n: int, k: seq<Byte>)
    requires Pushable(h) && Pushable(a) && Pushable(b) && Pushable(c) && Pushable(d) && Pushable(k) && |ScriptNum(n)| < 76
    ensures SerScript(HashlockedTwoOfTwo(h, a, b)) != SerScript(TwoOfTwo(c, d))
    ensures SerScript(HashlockedTwoOfTwo(h, a, b)) != SerScript(TimelockedSingle(n, k))
  {
    if SerScript(HashlockedTwoOfTwo(h, a, b)) == SerScript(TwoOfTwo(c, d)) {
      SameScript(HashlockedTwoOfTwo(h, a, b), TwoOfTwo(c, d));
      SameAt(HashlockedTwoOfTwo(h, a, b), TwoOfTwo(c, d), 0);
    }
    if SerScript(HashlockedTwoOfTwo(h, a, b)) == SerScript(TimelockedSingle(n, k)) {
      SameScript(HashlockedTwoOfTwo(h, a, b), TimelockedSingle(n, k));
      SameAt(HashlockedTwoOfTwo(h, a, b), TimelockedSingle(n, k), 0);
    }
  }

  lemma TwoLeafRoot(less: (Digest, Digest) -> bool, a: seq<Byte>, b: seq<Byte>)
    ensures Root(less, [a, b]) == Branch(less, Leaf(a), Leaf(b))
  {
    assert [a, b][..1] == [a];
  }

  lemma ThreeLeafRoot(less: (Digest, Digest) -> bool, a: seq<Byte>, b: seq<Byte>, c: seq<Byte>)
    ensures Root(less, [a, b, c]) == Branch(less, Branch(less, Leaf(a), Leaf(b)), Leaf(c))
  {
    TwoLeafRoot(less, a, b);
    assert [a, b, c][..2] == [a, b];
  }

  /** Two-leaf and three-leaf trees with one root hold the same scripts, but for the order
      of the first two. */
  lemma TwoLeavesSame(less: (Digest, Digest) -> bool, a: seq<Byte>, b: seq<Byte>, a': seq<Byte>, b': seq<Byte>)
    requires Root(less, [a, b]) == Root(less, [a', b'])
    ensures (a == a' && b == b') || (a == b' && b == a')
  {
    TwoLeafRoot(less, a, b);
    TwoLeafRoot(less, a', b');
    BranchHalves(less, Leaf(a), Leaf(b), Leaf(a'), Leaf(b'));
  }

  lemma ThreeLeavesSame(less: (Digest, Digest) -> bool, a: seq<Byte>, b: seq<Byte>, c: seq<Byte>, a': seq<Byte>, b': seq<Byte>, c': seq<Byte>)
    requires Root(less, [a, b, c]) == Root(less, [a', b', c'])
    ensures c == c' && ((a == a' && b == b') || (a == b' && b == a'))
  {
    ThreeLeafRoot(less, a, b, c);
    ThreeLeafRoot(less, a', b', c');
    BranchHalves(less, Branch(less, Leaf(a), Leaf(b)), Leaf(c), Branch(less, Leaf(a'), Leaf(b')), Leaf(c'));
    BranchHalves(less, Leaf(a), Leaf(b), Leaf(a'), Leaf(b'));
  }

  lemma PrevaultGivesTerms(less: (Digest, Digest) -> bool, l: Loan, m: Loan)
    requires Wellformed(l) && Wellformed(m) && PrevaultSpk(less, l) == PrevaultSpk(less, m)
    ensures l.hW == m.hW && l.borrower == m.borrower && l.lender == m.lender && l.abortAfter == m.abortAfter
  {
    TwoLeavesSame(less, Upgrade(l), Abort(l), Upgrade(m), Abort(m));
    LeavesDiffer(l.hW, l.borrower, l.lender, [], [], m.abortAfter, m.borrower);
    HashlockSame(l.hW, l.borrower, l.lender, m.hW, m.borrower, m.lender);
    TimelockSame(l.abortAfter, l.borrower, m.abortAfter, m.borrower);
  }

  /** The pre-vault's address is its terms. */
  lemma PrevaultIsTerms(less: (Digest, Digest) -> bool, l: Loan, m: Loan)
    requires Wellformed(l) && Wellformed(m)
    ensures PrevaultSpk(less, l) == PrevaultSpk(less, m) <==>
      l.hW == m.hW && l.borrower == m.borrower && l.lender == m.lender && l.abortAfter == m.abortAfter
  {
    if PrevaultSpk(less, l) == PrevaultSpk(less, m) {
      PrevaultGivesTerms(less, l, m);
    } else if Upgrade(l) == Upgrade(m) {
      assert Abort(l) != Abort(m);
    }
  }

  lemma FundingGivesTerms(less: (Digest, Digest) -> bool, l: Loan, m: Loan)
    requires Wellformed(l) && Wellformed(m) && FundingSpk(less, l) == FundingSpk(less, m)
    ensures l.paymentHash == m.paymentHash && l.borrower == m.borrower && l.lender == m.lender
    ensures l.oracle == m.oracle && l.recoverAfter == m.recoverAfter
  {
    var lr, ls, lt := Reclaim(l), Seize(l), Timeout(l);
    var mr, ms, mt := Reclaim(m), Seize(m), Timeout(m);
    ThreeLeavesSame(less, lr, ls, lt, mr, ms, mt);
    LeavesDiffer(l.paymentHash, l.borrower, l.lender, m.lender, m.oracle, 0, []);
    HashlockSame(l.paymentHash, l.borrower, l.lender, m.paymentHash, m.borrower, m.lender);
    TwoOfTwoSame(l.lender, l.oracle, m.lender, m.oracle);
    TimelockSame(l.recoverAfter, l.lender, m.recoverAfter, m.lender);
  }

  /** The vault's address is its terms: the payment hash, the three keys and the time,
      though the halves of every branch are sorted. */
  lemma FundingIsTerms(less: (Digest, Digest) -> bool, l: Loan, m: Loan)
    requires Wellformed(l) && Wellformed(m)
    ensures FundingSpk(less, l) == FundingSpk(less, m) <==>
      && l.paymentHash == m.paymentHash && l.borrower == m.borrower && l.lender == m.lender
      && l.oracle == m.oracle && l.recoverAfter == m.recoverAfter
  {
    if FundingSpk(less, l) == FundingSpk(less, m) {
      FundingGivesTerms(less, l, m);
    } else if Reclaim(l) == Reclaim(m) && Seize(l) == Seize(m) {
      assert Timeout(l) != Timeout(m);
    }
  }
}
