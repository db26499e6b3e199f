/** The oracle's log: a line-oriented file bisected by byte offset and read in pages. */
module AttestationLog {
  import opened Wrappers

  datatype Attestation = Attestation(market: nat, timestamp: int, signature: nat)

  /** A line's bytes, the newline among them, and what it parses to, if anything. */
  datatype Line = Line(length: nat, parsed: Option<Attestation>)

  predicate Wellformed(lines: seq<Line>) { forall i :: 0 <= i < |lines| ==> lines[i].length >= 1 }

  /** Where a line starts. */
  function Start(lines: seq<Line>, i: nat): nat
    requires i <= |lines|
  {
    if i == 0 then 0 else Start(lines, i - 1) + lines[i - 1].length
  }

  function Size(lines: seq<Line>): nat { Start(lines, |lines|) }

  /** Timestamps do not fall down the file. */
  ghost predicate Ordered(lines: seq<Line>) {
    forall i, j :: 0 <= i < j < |lines| && lines[i].parsed.Some? && lines[j].parsed.Some?
      ==> lines[i].parsed.value.timestamp <= lines[j].parsed.value.timestamp
  }

  lemma {:induction false} StartsRise(lines: seq<Line>, i: nat, j: nat)
    requires Wellformed(lines) && i <= j <= |lines|
    ensures Start(lines, i) + (j - i) <= Start(lines, j)
  {
    if i < j {
      StartsRise(lines, i, j - 1);
    }
  }

  // ------------------------------------------------------------------- file

  /** An open log: reading moves the cursor past the line it is in. */
  class LogFile {
    const lines: seq<Line>
    var pos: nat

    constructor (lines: seq<Line>)
      ensures this.lines == lines && pos == 0
    {
      this.lines, this.pos := lines, 0;
    }

    method Seek(at: nat)
      modifies this
      ensures pos == at
    {
      pos := at;
    }

    /** The rest of the line the cursor is in; what it parses to only if that is all of it. */
    method ReadLine() returns (length: nat, parsed: Option<Attestation>, ghost i: nat)
      requires Wellformed(lines)
      modifies this
      ensures old(pos) >= Size(lines) ==> length == 0 && parsed == None && pos == old(pos)
      ensures old(pos) < Size(lines) ==>
        && i < |lines| && Start(lines, i) <= old(pos) < Start(lines, i + 1) == pos && length == pos - old(pos)
        && parsed == if old(pos) == Start(lines, i) then lines[i].parsed else None
    {
      var j, at := 0, 0;
      while j < |lines| && at + lines[j].length <= pos
        invariant j <= |lines| && at == Start(lines, j) && at <= pos
        invariant pos == old(pos)
      {
        at := at + lines[j].length;
        j := j + 1;
      }
      i := j;
      if j == |lines| {
        return 0, None, i;
      }
      StartsRise(lines, j + 1, |lines|);
      length, parsed := at + lines[j].length - pos, if pos == at then lines[j].parsed else None;
      pos := at + lines[j].length;
    }

    /** Where to start reading for a time: the start of a line, with only earlier ones before. */
    method Bisect(since: int) returns (lo: nat, ghost first: nat)
      requires Wellformed(lines) && Ordered(lines)
      modifies this
      ensures first <= |lines| && lo == Start(lines, first)
      ensures forall i :: 0 <= i < first && lines[i].parsed.Some? ==> lines[i].parsed.value.timestamp < since
    {
      var hi := Size_();
      lo, first := 0, 0;
      while lo < hi
        invariant first <= |lines| && lo == Start(lines, first)
        invariant forall i :: 0 <= i < first && lines[i].parsed.Some? ==> lines[i].parsed.value.timestamp < since
        decreases hi - lo
      {
        var mid := (lo + hi) / 2;
        Seek(mid);
        if mid > 0 {
          var _, _, _ := ReadLine();
        }
        var start := pos;
        ghost var i: nat;
        var length, parsed;
        length, parsed, i := ReadLine();
        if parsed.Some? && parsed.value.timestamp < since {
          if start + length <= mid {
            break;
          }
          lo := start + length;
          first := i + 1;
        } else {
          hi := mid;
        }
      }
    }

    method Size_() returns (size: nat)
      ensures size == Size(lines)
    {
      size := 0;
      for i := 0 to |lines|
        invariant size == Start(lines, i)
      {
        size := size + lines[i].length;
      }
    }

    /** One page: at most `limit` attestations of a window, and where the next page starts.
        A cursor is any offset; one inside a line stands for the line after it. */
    method ScanPage(q: Query, limit: nat, cursor: Option<int>) returns (out: seq<Attestation>, next: Option<nat>)
      requires Wellformed(lines) && Ordered(lines) && limit >= 1
      modifies this
      ensures exists i :: 0 <= i <= |lines| && Begins(lines, q, cursor, i) && IsPage(lines, i, q, limit, out, next)
    {
      var start: nat;
      ghost var first: nat;
      if cursor.Some? {
        var size := Size_();
        start := if cursor.value < 0 then 0 else if cursor.value > size then size else cursor.value;
        first := LineAfter(lines, start);
      } else if q.since.Some? {
        start, first := Bisect(q.since.value);
        StartIsAfter(lines, first);
      } else {
        start, first := 0, 0;
      }
      Seek(start);
      out, next := ReadPage(q, limit, first);
    }

    /** A page from the cursor on. */
    method ReadPage(q: Query, limit: nat, ghost first: nat) returns (out: seq<Attestation>, next: Option<nat>)
      requires Wellformed(lines) && limit >= 1 && Reaches(lines, pos, first)
      modifies this
      ensures IsPage(lines, first, q, limit, out, next)
    {
      out := [];
      ghost var i := first;
      JoinedNothing(Page(lines, i, q, limit));
      while true
        invariant Reaches(lines, pos, i)
        invariant |out| < limit
        invariant Page(lines, first, q, limit) == Joined(out, Page(lines, i, q, limit - |out|))
        decreases |lines| - i, Start(lines, i) - pos
      {
        StartsRise(lines, i, |lines|);
        var length, parsed;
        ghost var k: nat;
        ghost var was := pos;
        length, parsed, k := ReadLine();
        JoinedEnd(out);
        if length == 0 {
          assert i == |lines|;
          return out, None;
        }
        if was < Start(lines, i) {
          assert parsed == None && pos == Start(lines, i) by { InsideLine(lines, was, i, k); }
        } else {
          SameLine(lines, i, k);
          if limit - |out| > 1 && parsed.Some? {
            JoinedMore(out, parsed.value, Page(lines, i + 1, q, limit - |out| - 1));
          }
          i := i + 1;
        }
        if parsed.None? || (q.since.Some? && parsed.value.timestamp < q.since.value) {
          continue;
        }
        if q.until.Some? && parsed.value.timestamp > q.until.value {
          return out, None;
        }
        if q.market.Some? && parsed.value.market != q.market.value {
          continue;
        }
        out := out + [parsed.value];
        if |out| >= limit {
          return out, Some(pos);
        }
      }
    }
  }

  /** The first line that starts at or after an offset. */
  predicate Reaches(lines: seq<Line>, at: nat, i: nat) {
    i <= |lines| && at <= Start(lines, i) && (i > 0 ==> Start(lines, i - 1) < at)
  }

  ghost function LineAfter(lines: seq<Line>, at: nat): (i: nat)
    requires at <= Size(lines)
    ensures Reaches(lines, at, i)
  {
    LineFrom(lines, at, |lines|)
  }

  ghost function LineFrom(lines: seq<Line>, at: nat, i: nat): (first: nat)
    requires i <= |lines| && at <= Start(lines, i)
    ensures Reaches(lines, at, first)
  {
    if i == 0 || Start(lines, i - 1) < at then i else LineFrom(lines, at, i - 1)
  }

  lemma StartIsAfter(lines: seq<Line>, i: nat)
    requires Wellformed(lines) && i <= |lines|
    ensures Reaches(lines, Start(lines, i), i)
  {
    if i > 0 {
      StartsRise(lines, i - 1, i);
    }
  }

  /** An offset before a line's start but past the one before is inside that one. */
  lemma InsideLine(lines: seq<Line>, at: nat, i: nat, k: nat)
    requires Wellformed(lines) && Reaches(lines, at, i) && at < Start(lines, i)
    requires k < |lines| && Start(lines, k) <= at < Start(lines, k + 1)
    ensures i > 0 && k == i - 1 && at != Start(lines, k)
  {
    if k >= i {
      StartsRise(lines, i, k);
    } else if k < i - 1 {
      StartsRise(lines, k + 1, i - 1);
    }
  }

  lemma SameLine(lines: seq<Line>, i: nat, k: nat)
    requires Wellformed(lines) && i <= |lines| && k < |lines|
    requires Start(lines, k) <= Start(lines, i) < Start(lines, k + 1)
    ensures k == i
  {
    if i < k {
      StartsRise(lines, i, k);
    } else if k < i {
      StartsRise(lines, k + 1, i);
    }
  }

  // ------------------------------------------------------------------ paging

  datatype Query = Query(market: Option<nat>, since: Option<int>, until: Option<int>)

  predicate Early(q: Query, a: Attestation) { q.since.Some? && a.timestamp < q.since.value }

  predicate Late(q: Query, a: Attestation) { q.until.Some? && a.timestamp > q.until.value }

  predicate Matches(q: Query, a: Attestation) {
    !Early(q, a) && !Late(q, a) && (q.market.None? || a.market == q.market.value)
  }

  /** What the whole log holds for a query, from a line on. */
  function Window(lines: seq<Line>, i: nat, q: Query): seq<Attestation>
    requires i <= |lines|
    decreases |lines| - i
  {
    if i == |lines| then []
    else if lines[i].parsed.Some? && Matches(q, lines[i].parsed.value) then [lines[i].parsed.value] + Window(lines, i + 1, q)
    else Window(lines, i + 1, q)
  }

  /** Whether a line holds an attestation of the market asked for, from the first moment asked
      for to the last. */
  predicate Asked(l: Line, q: Query) {
    l.parsed.Some?
    && (q.market.Some? ==> l.parsed.value.market == q.market.value)
    && (q.since.Some? ==> q.since.value <= l.parsed.value.timestamp)
    && (q.until.Some? ==> l.parsed.value.timestamp <= q.until.value)
  }

  /** The window is what was asked for, line after line. */
  lemma {:induction false} WindowExactly(lines: seq<Line>, i: nat, q: Query) returns (at: seq<nat>)
    requires i <= |lines|
    ensures |at| == |Window(lines, i, q)| && (forall k :: 0 <= k < |at| ==> i <= at[k] < |lines|)
    ensures forall j: nat :: j in at <==> i <= j < |lines| && Asked(lines[j], q)
    ensures forall k, l :: 0 <= k < l < |at| ==> at[k] < at[l]
    ensures forall k :: 0 <= k < |at| ==> lines[at[k]].parsed == Some(Window(lines, i, q)[k])
    decreases |lines| - i
  {
    if i == |lines| {
      at := [];
    } else {
      var rest := WindowExactly(lines, i + 1, q);
      at := if Asked(lines[i], q) then [i] + rest else rest;
    }
  }

  /** One page from a line: what it holds, and the line after it unless the window ended. */
  function Page(lines: seq<Line>, i: nat, q: Query, limit: nat): (seq<Attestation>, Option<nat>)
    requires i <= |lines| && limit >= 1
    decreases |lines| - i
  {
    if i == |lines| then ([], None)
    else
      var p := lines[i].parsed;
      if p.Some? && Late(q, p.value) && !Early(q, p.value) then ([], None)
      else if p.None? || !Matches(q, p.value) then Page(lines, i + 1, q, limit)
      else if limit == 1 then ([p.value], Some(i + 1))
      else Joined([p.value], Page(lines, i + 1, q, limit - 1))
  }

  function Joined(head: seq<Attestation>, rest: (seq<Attestation>, Option<nat>)): (seq<Attestation>, Option<nat>) {
    (head + rest.0, rest.1)
  }

  lemma JoinedNothing(page: (seq<Attestation>, Option<nat>))
    ensures Joined([], page) == page
  {
    assert [] + page.0 == page.0;
  }

  lemma JoinedEnd(out: seq<Attestation>)
    ensures Joined(out, ([], None)) == (out, None)
  {
    assert out + [] == out;
  }

  lemma JoinedMore(out: seq<Attestation>, a: Attestation, page: (seq<Attestation>, Option<nat>))
    ensures Joined(out, Joined([a], page)) == Joined(out + [a], page)
  {
    assert out + ([a] + page.0) == (out + [a]) + page.0;
  }

  ghost predicate IsPage(lines: seq<Line>, i: nat, q: Query, limit: nat, out: seq<Attestation>, next: Option<nat>)
    requires i <= |lines| && limit >= 1
  {
    out == Page(lines, i, q, limit).0 && next == NextCursor(lines, Page(lines, i, q, limit).1)
  }

  function NextCursor(lines: seq<Line>, next: Option<nat>): Option<nat> {
    if next.Some? && next.value <= |lines| then Some(Start(lines, next.value)) else None
  }

  /** Where a page begins: at its cursor, or at a line nothing before which matches. */
  ghost predicate Begins(lines: seq<Line>, q: Query, cursor: Option<int>, i: nat)
    requires i <= |lines|
  {
    match cursor
    case Some(at) => Reaches(lines, if at < 0 then 0 else if at > Size(lines) then Size(lines) else at, i)
    case None => forall j :: 0 <= j < i && lines[j].parsed.Some? ==> Early(q, lines[j].parsed.value)
  }

  lemma {:induction false} PageNext(lines: seq<Line>, i: nat, q: Query, limit: nat)
    requires i <= |lines| && limit >= 1
    ensures Page(lines, i, q, limit).1.Some? ==>
      i < Page(lines, i, q, limit).1.value <= |lines| && |Page(lines, i, q, limit).0| == limit
    decreases |lines| - i
  {
    if i < |lines| {
      PageNext(lines, i + 1, q, limit);
      if limit > 1 {
        PageNext(lines, i + 1, q, limit - 1);
      }
    }
  }

  /** A cursor is handed on exactly from a page that is full: to the line after its last. */
  lemma {:induction false} HandsOn(lines: seq<Line>, i: nat, q: Query, limit: nat)
    requires i <= |lines| && limit >= 1
    ensures var (out, next) := Page(lines, i, q, limit);
      && |out| <= limit && (next.Some? <==> |out| == limit)
      && (next.Some? ==> i < next.value <= |lines| && lines[next.value - 1].parsed == Some(out[limit - 1]))
      && (next.Some? ==> NextCursor(lines, next) == Some(Start(lines, next.value)))
    decreases |lines| - i
  {
    if i < |lines| {
      HandsOn(lines, i + 1, q, limit);
      if limit > 1 {
        HandsOn(lines, i + 1, q, limit - 1);
      }
    }
  }

  /** Page after page, following each cursor to the next. */
  function Pages(lines: seq<Line>, i: nat, q: Query, limit: nat): seq<Attestation>
    requires i <= |lines| && limit >= 1
    decreases |lines| - i
  {
    var (out, next) := Page(lines, i, q, limit);
    PageNext(lines, i, q, limit);
    if next.None? then out else out + Pages(lines, next.value, q, limit)
  }

  lemma {:induction false} AllLate(lines: seq<Line>, i: nat, q: Query)
    requires i <= |lines| && forall j :: i <= j < |lines| && lines[j].parsed.Some? ==> Late(q, lines[j].parsed.value)
    ensures Window(lines, i, q) == []
    decreases |lines| - i
  {
    if i < |lines| {
      AllLate(lines, i + 1, q);
    }
  }

  /** What a page leaves for the ones after it. */
  function Rest(lines: seq<Line>, q: Query, next: Option<nat>): seq<Attestation> {
    if next.Some? && next.value <= |lines| then Window(lines, next.value, q) else []
  }

  lemma {:induction false} PageIsWindow(lines: seq<Line>, i: nat, q: Query, limit: nat)
    requires Ordered(lines) && i <= |lines| && limit >= 1
    ensures Window(lines, i, q) == Page(lines, i, q, limit).0 + Rest(lines, q, Page(lines, i, q, limit).1)
    decreases |lines| - i
  {
    if i < |lines| {
      var p := lines[i].parsed;
      if p.Some? && Late(q, p.value) && !Early(q, p.value) {
        AllLate(lines, i, q);
      } else if p.None? || !Matches(q, p.value) {
        PageIsWindow(lines, i + 1, q, limit);
      } else if limit > 1 {
        PageIsWindow(lines, i + 1, q, limit - 1);
        var page := Page(lines, i + 1, q, limit - 1);
        assert [p.value] + (page.0 + Rest(lines, q, page.1)) == ([p.value] + page.0) + Rest(lines, q, page.1);
      }
    }
  }

  lemma {:induction false} PagesAreWindow(lines: seq<Line>, i: nat, q: Query, limit: nat)
    requires Ordered(lines) && i <= |lines| && limit >= 1
    ensures Pages(lines, i, q, limit) == Window(lines, i, q)
    decreases |lines| - i
  {
    PageIsWindow(lines, i, q, limit);
    PageNext(lines, i, q, limit);
    var next := Page(lines, i, q, limit).1;
    if next.Some? {
      PagesAreWindow(lines, next.value, q, limit);
    }
  }

  lemma {:induction false} SkipEarly(lines: seq<Line>, i: nat, q: Query)
    requires i <= |lines| && forall j :: 0 <= j < i && lines[j].parsed.Some? ==> Early(q, lines[j].parsed.value)
    ensures Window(lines, 0, q) == Window(lines, i, q)
  {
    if i > 0 {
      SkipEarly(lines, i - 1, q);
    }
  }

  /** The cursor a page hands on begins the next page at its own line, and no other. */
  lemma CursorLands(lines: seq<Line>, q: Query, n: nat, i: nat)
    requires Wellformed(lines) && n <= |lines| && i <= |lines|
    ensures Begins(lines, q, Some(Start(lines, n)), i) <==> i == n
  {
    StartIsAfter(lines, n);
    StartsRise(lines, n, |lines|);
    if i < n {
      StartsRise(lines, i, n);
    } else if i > n {
      StartsRise(lines, n, i - 1);
    }
  }

  /** Following the cursors from a first page yields exactly what the whole log holds:
      nothing twice, nothing left out, whatever the page size. */
  lemma PagingExact(lines: seq<Line>, q: Query, limit: nat, i: nat)
    requires Ordered(lines) && limit >= 1 && i <= |lines| && Begins(lines, q, None, i)
    ensures Pages(lines, i, q, limit) == Window(lines, 0, q)
  {
    PagesAreWindow(lines, i, q, limit);
    SkipEarly(lines, i, q);
  }
}
