/** The book of cross-chain offers and takes: how many loans of an offer are left, what
    forgetting old takes does to that, and how a take's status may move. */
module Book {
  import opened Wrappers

  type Id = nat

  datatype Status =
    | Requested | Reserved | Pending | Signed | Disbursed | Live | Repaid | Claimed
    | Refunded | Aborted | Expired
    | Other(name: Id)

  /** `updated` is zero for a take never updated; `facts` are the other fields reported. */
  datatype Take = Take(offer: Id, status: Status, created: nat, updated: nat, facts: map<Id, Id>)

  datatype Offer = Offer(lots: nat, lotsTaken: nat, dead: bool, touched: nat)

  /** How long an unsigned and a signed take hold a lot; zero is for ever. */
  datatype Ttl = Ttl(take: nat, signed: nat)

  const DEFAULT: Ttl := Ttl(1800, 21600)

  // -------------------------------------------------------------------- lots

  predicate Unsigned(s: Status) { s == Requested || s == Reserved || s == Pending }

  predicate HoldsLot(t: Take, now: nat, ttl: Ttl) {
    if t.status == Aborted || t.status == Refunded || t.status == Expired then false
    else if Unsigned(t.status) then !(ttl.take > 0 && now > t.created + ttl.take)
    else if t.status == Signed then !(ttl.signed > 0 && now > t.created + ttl.signed)
    else true
  }

  function Holding(takes: map<Id, Take>, offer: Id, now: nat, ttl: Ttl): set<Id> {
    set id | id in takes && takes[id].offer == offer && HoldsLot(takes[id], now, ttl)
  }

  function Lots(o: Offer): nat { if o.lots == 0 then 1 else o.lots }

  function Left(o: Offer, held: nat): nat {
    if Lots(o) > o.lotsTaken + held then Lots(o) - o.lotsTaken - held else 0
  }

  /** Which takes hold a lot: an unsigned or a signed one for as long as its kind may, one
      that ended never, and any other always. */
  lemma HoldsExactly(t: Take, now: nat, ttl: Ttl)
    ensures HoldsLot(t, now, ttl) <==>
      && t.status !in [Aborted, Refunded, Expired]
      && (t.status in [Requested, Reserved, Pending] && ttl.take > 0 ==> now <= t.created + ttl.take)
      && (t.status == Signed && ttl.signed > 0 ==> now <= t.created + ttl.signed)
  {}

  /** What an offer has left: at least one lot to begin with, less those given up and held,
      never less than none. */
  lemma LeftExactly(o: Offer, held: nat)
    ensures Left(o, held) + o.lotsTaken + held >= (if o.lots == 0 then 1 else o.lots)
    ensures Left(o, held) > 0 ==> Left(o, held) + o.lotsTaken + held == (if o.lots == 0 then 1 else o.lots)
  {}

  // ----------------------------------------------------------------- pruning

  predicate Finished(s: Status) {
    s == Claimed || s == Refunded || s == Aborted || s == Expired || s == Requested || s == Reserved
  }

  function Touched(t: Take): nat { if t.updated > 0 then t.updated else t.created }

  predicate Prunable(t: Take, now: nat, maxAge: nat) {
    Finished(t.status) && Touched(t) > 0 && Touched(t) + maxAge < now
  }

  /** Which takes go: those past or short of a loan, by their last update or else creation. */
  lemma PrunableExactly(t: Take, now: nat, maxAge: nat)
    ensures Prunable(t, now, maxAge) <==>
      && t.status in [Claimed, Refunded, Aborted, Expired, Requested, Reserved]
      && (if t.updated > 0 then t.updated + maxAge < now else t.created > 0 && t.created + maxAge < now)
  {}

  function Kept(takes: map<Id, Take>, now: nat, maxAge: nat): map<Id, Take> {
    map id | id in takes && !Prunable(takes[id], now, maxAge) :: takes[id]
  }

  function Credited(takes: map<Id, Take>, offer: Id, now: nat, maxAge: nat): set<Id> {
    set id | id in takes && takes[id].offer == offer && Prunable(takes[id], now, maxAge) && HoldsLot(takes[id], now, DEFAULT)
  }

  /** An offer long dead that no take names any more. */
  ghost predicate Forgotten(o: Offer, offer: Id, takes: map<Id, Take>, now: nat, maxAge: nat) {
    o.dead && o.touched > 0 && o.touched + maxAge < now && forall id :: id in takes ==> takes[id].offer != offer
  }

  /** Every writer stamps a take's creation, and an update no earlier. */
  predicate Stamped(t: Take) { t.updated == 0 || t.created <= t.updated }

  /** When pruning is invisible to lots counted under these lifetimes. */
  predicate Harmless(maxAge: int, ttl: Ttl) {
    maxAge <= 0 || ttl.take == DEFAULT.take || (ttl.take > 0 && maxAge >= ttl.take && maxAge >= DEFAULT.take)
  }

  class CrossChainBook {
    var offers: map<Id, Offer>
    var takes: map<Id, Take>

    constructor (offers: map<Id, Offer>, takes: map<Id, Take>)
      ensures this.offers == offers && this.takes == takes
    {
      this.offers, this.takes := offers, takes;
    }

    /** One offer's lots left: a scan of every take. */
    method LotsLeft(offer: Id, now: nat, ttl: Ttl) returns (left: nat)
      ensures left == if offer in offers then Left(offers[offer], |Holding(takes, offer, now, ttl)|) else 0
    {
      if offer !in offers {
        return 0;
      }
      var held, todo := 0, takes.Keys;
      ghost var counted: map<Id, Take> := map[];
      while todo != {}
        invariant Split(takes, counted, todo)
        invariant held == |Holding(counted, offer, now, ttl)|
      {
        var id :| id in todo;
        HoldingMore(counted, id, takes[id], offer, now, ttl);
        if takes[id].offer == offer && HoldsLot(takes[id], now, ttl) {
          held := held + 1;
        }
        SplitMore(takes, counted, todo, id);
        counted, todo := counted[id := takes[id]], todo - {id};
      }
      assert counted == takes;
      left := Left(offers[offer], held);
    }

    /** What is held of every offer, in one pass over the takes. */
    method TallyAll(now: nat, ttl: Ttl) returns (held: map<Id, nat>)
      ensures Tallied(held, takes, now, ttl)
    {
      held := map[];
      var todo := takes.Keys;
      ghost var counted: map<Id, Take> := map[];
      while todo != {}
        invariant Split(takes, counted, todo) && Tallied(held, counted, now, ttl)
      {
        var id :| id in todo;
        TallyMore(held, counted, id, takes[id], now, ttl);
        held := Tally(held, takes[id], now, ttl);
        SplitMore(takes, counted, todo, id);
        counted, todo := counted[id := takes[id]], todo - {id};
      }
      AllSplit(takes, counted);
    }

    /** Every offer's lots left at once. */
    method LotsLeftAll(now: nat, ttl: Ttl) returns (left: map<Id, nat>)
      ensures left.Keys == offers.Keys
      ensures forall o :: o in offers ==> left[o] == Left(offers[o], |Holding(takes, o, now, ttl)|)
    {
      var held := TallyAll(now, ttl);
      left := LeftAfter(held);
      forall o | o in offers ensures left[o] == Left(offers[o], |Holding(takes, o, now, ttl)|) {
        TalliedAt(held, takes, o, now, ttl);
      }
    }

    function LeftAfter(held: map<Id, nat>): map<Id, nat>
      reads this
    {
      map o | o in offers :: Left(offers[o], if o in held then held[o] else 0)
    }

    /** Forget takes long finished, crediting to their offers the lots they hold. */
    method Prune(now: nat, maxAge: int)
      modifies this
      ensures maxAge <= 0 ==> takes == old(takes) && offers == old(offers)
      ensures maxAge > 0 ==> takes == Kept(old(takes), now, maxAge) && offers.Keys <= old(offers).Keys
      ensures maxAge > 0 ==> forall o :: o in offers ==>
        offers[o] == old(offers)[o].(lotsTaken := old(offers)[o].lotsTaken + |Credited(old(takes), o, now, maxAge)|)
      ensures maxAge > 0 ==> forall o :: o in old(offers) ==>
        (o !in offers <==> Forgotten(old(offers)[o], o, takes, now, maxAge))
    {
      if maxAge <= 0 {
        return;
      }
      PruneTakes(now, maxAge);
      var todo := offers.Keys;
      ghost var credited := offers;
      while todo != {}
        invariant todo <= offers.Keys <= credited.Keys
        invariant forall o :: o in offers ==> offers[o] == credited[o]
        invariant forall o :: o in credited && o !in todo ==> (o !in offers <==> Forgotten(credited[o], o, takes, now, maxAge))
        invariant takes == Kept(old(takes), now, maxAge)
      {
        var o :| o in todo;
        if offers[o].dead && offers[o].touched > 0 && offers[o].touched + maxAge < now
          && !(exists id :: id in takes && takes[id].offer == o) {
          offers := offers - {o};
        }
        todo := todo - {o};
      }
    }

    method PruneTakes(now: nat, maxAge: nat)
      modifies this
      ensures takes == Kept(old(takes), now, maxAge)
      ensures Crediting(old(offers), offers, old(takes), now, maxAge)
    {
      ghost var was := takes;
      var todo := takes.Keys;
      ghost var done: map<Id, Take> := map[];
      while todo != {}
        invariant Split(was, done, todo)
        invariant Pruning(was, takes, todo, now, maxAge)
        invariant Crediting(old(offers), offers, done, now, maxAge)
      {
        var id :| id in todo;
        var t := takes[id];
        CreditMore(old(offers), offers, done, id, t, now, maxAge);
        PruneMore(was, takes, todo, id, now, maxAge);
        offers := Credit(offers, t, now, maxAge);
        if Prunable(t, now, maxAge) {
          takes := takes - {id};
        }
        SplitMore(was, done, todo, id);
        done, todo := done[id := t], todo - {id};
      }
      assert done == was;
      assert takes == Kept(was, now, maxAge);
    }

    /** What of a report the book passes on: all of it, but a status that would be refused. */
    method ForwardOnly(id: Id, fields: Fields) returns (kept: Fields)
      ensures kept == Forward(if id in takes then takes[id].status else Requested, fields)
    {
      if fields.status.None? {
        return fields;
      }
      var now, want := if id in takes then takes[id].status else Requested, fields.status.value;
      if Terminal(now) && want != now {
        return fields.(status := None);
      }
      if Terminal(want) {
        return fields;
      }
      var a, b := Rank(now), Rank(want);
      if a.Some? && b.Some? && b.value < a.value {
        return fields.(status := None);
      }
      return fields;
    }

    /** Take up a report about a take, unless it would move the take back. */
    method UpdateTake(id: Id, fields: Fields, now: nat) returns (outcome: Outcome)
      modifies this`takes
      ensures id !in old(takes) ==> outcome == NoSuchTake && takes == old(takes)
      ensures id in old(takes) && !Moves(old(takes)[id].status, fields) ==> outcome == TakeMoved && takes == old(takes)
      ensures id in old(takes) && Moves(old(takes)[id].status, fields) ==>
        outcome == Updated && takes == old(takes)[id := Written(old(takes)[id], fields, now)]
    {
      if id !in takes {
        return NoSuchTake;
      }
      var t := takes[id];
      if fields.status.Some? {
        var want := fields.status.value;
        if Terminal(t.status) && want != t.status {
          return TakeMoved;
        }
        if !Terminal(want) {
          var a, b := Rank(t.status), Rank(want);
          if a.Some? && b.Some? && b.value < a.value {
            return TakeMoved;
          }
        }
      }
      takes := takes[id := Written(t, fields, now)];
      return Updated;
    }
  }

  /** A pass over the takes: those counted, and those still to do. */
  ghost predicate Split(takes: map<Id, Take>, counted: map<Id, Take>, todo: set<Id>) {
    && counted.Keys !! todo && counted.Keys + todo == takes.Keys
    && forall id :: id in counted ==> counted[id] == takes[id]
  }

  lemma SplitMore(takes: map<Id, Take>, counted: map<Id, Take>, todo: set<Id>, id: Id)
    requires Split(takes, counted, todo) && id in todo
    ensures Split(takes, counted[id := takes[id]], todo - {id})
  {}

  lemma AllSplit(takes: map<Id, Take>, counted: map<Id, Take>)
    requires Split(takes, counted, {})
    ensures counted == takes
  {}

  lemma HoldingMore(takes: map<Id, Take>, id: Id, t: Take, o: Id, now: nat, ttl: Ttl)
    requires id !in takes
    ensures |Holding(takes[id := t], o, now, ttl)|
      == |Holding(takes, o, now, ttl)| + (if t.offer == o && HoldsLot(t, now, ttl) then 1 else 0)
  {
    var before, after := Holding(takes, o, now, ttl), Holding(takes[id := t], o, now, ttl);
    forall x ensures x in after <==> x in before || (x == id && t.offer == o && HoldsLot(t, now, ttl)) {
      if x != id {
        assert x in takes[id := t] <==> x in takes;
      }
    }
    assert id !in before;
    assert after == before + (if t.offer == o && HoldsLot(t, now, ttl) then {id} else {});
  }

  ghost predicate Tallied(held: map<Id, nat>, counted: map<Id, Take>, now: nat, ttl: Ttl) {
    forall o :: |Holding(counted, o, now, ttl)| == if o in held then held[o] else 0
  }

  lemma TalliedAt(held: map<Id, nat>, counted: map<Id, Take>, o: Id, now: nat, ttl: Ttl)
    requires Tallied(held, counted, now, ttl)
    ensures |Holding(counted, o, now, ttl)| == if o in held then held[o] else 0
  {}

  function Tally(held: map<Id, nat>, t: Take, now: nat, ttl: Ttl): map<Id, nat> {
    if HoldsLot(t, now, ttl) then held[t.offer := (if t.offer in held then held[t.offer] else 0) + 1] else held
  }

  lemma TallyMore(held: map<Id, nat>, counted: map<Id, Take>, id: Id, t: Take, now: nat, ttl: Ttl)
    requires Tallied(held, counted, now, ttl) && id !in counted
    ensures Tallied(Tally(held, t, now, ttl), counted[id := t], now, ttl)
  {
    var next := Tally(held, t, now, ttl);
    forall o ensures |Holding(counted[id := t], o, now, ttl)| == if o in next then next[o] else 0 {
      HoldingMore(counted, id, t, o, now, ttl);
    }
  }

  /** Which takes are left part-way through a pass. */
  ghost predicate Pruning(was: map<Id, Take>, takes: map<Id, Take>, todo: set<Id>, now: nat, maxAge: nat) {
    && (forall id :: id in takes <==> id in was && (id in todo || !Prunable(was[id], now, maxAge)))
    && (forall id :: id in takes ==> takes[id] == was[id])
  }

  lemma PruneMore(was: map<Id, Take>, takes: map<Id, Take>, todo: set<Id>, id: Id, now: nat, maxAge: nat)
    requires Pruning(was, takes, todo, now, maxAge) && id in todo && id in was
    ensures Pruning(was, if Prunable(was[id], now, maxAge) then takes - {id} else takes, todo - {id}, now, maxAge)
  {}

  /** What forgetting a take does to the offers: the lot it holds goes with it. */
  function Credit(offers: map<Id, Offer>, t: Take, now: nat, maxAge: nat): map<Id, Offer> {
    if Prunable(t, now, maxAge) && t.offer in offers && HoldsLot(t, now, DEFAULT)
    then offers[t.offer := offers[t.offer].(lotsTaken := offers[t.offer].lotsTaken + 1)] else offers
  }

  ghost predicate Crediting(first: map<Id, Offer>, offers: map<Id, Offer>, done: map<Id, Take>, now: nat, maxAge: nat) {
    offers.Keys == first.Keys && forall o :: o in offers ==>
      offers[o] == first[o].(lotsTaken := first[o].lotsTaken + |Credited(done, o, now, maxAge)|)
  }

  lemma CreditOne(done: map<Id, Take>, id: Id, t: Take, o: Id, now: nat, maxAge: nat)
    requires id !in done
    ensures |Credited(done[id := t], o, now, maxAge)| == |Credited(done, o, now, maxAge)|
      + (if t.offer == o && Prunable(t, now, maxAge) && HoldsLot(t, now, DEFAULT) then 1 else 0)
  {
    assert Credited(done[id := t], o, now, maxAge) == Credited(done, o, now, maxAge)
      + (if t.offer == o && Prunable(t, now, maxAge) && HoldsLot(t, now, DEFAULT) then {id} else {});
  }

  lemma CreditMore(first: map<Id, Offer>, offers: map<Id, Offer>, done: map<Id, Take>, id: Id, t: Take, now: nat, maxAge: nat)
    requires id !in done && Crediting(first, offers, done, now, maxAge)
    ensures Crediting(first, Credit(offers, t, now, maxAge), done[id := t], now, maxAge)
  {
    var next := Credit(offers, t, now, maxAge);
    forall o | o in next ensures next[o] == first[o].(lotsTaken := first[o].lotsTaken + |Credited(done[id := t], o, now, maxAge)|) {
      CreditOne(done, id, t, o, now, maxAge);
    }
  }

  /** A take old enough to prune holds a lot now exactly when it is credited for one. */
  lemma PrunedHolds(t: Take, now: nat, maxAge: nat, ttl: Ttl)
    requires Stamped(t) && Prunable(t, now, maxAge) && maxAge > 0 && Harmless(maxAge, ttl)
    ensures HoldsLot(t, now, ttl) == HoldsLot(t, now, DEFAULT)
  {}

  /** Pruning leaves what a kept offer has left as it was. */
  lemma PruneInvisible(takes: map<Id, Take>, o: Id, offer: Offer, now: nat, maxAge: nat, ttl: Ttl)
    requires forall id :: id in takes ==> Stamped(takes[id])
    requires maxAge > 0 && Harmless(maxAge, ttl)
    ensures Left(offer.(lotsTaken := offer.lotsTaken + |Credited(takes, o, now, maxAge)|), |Holding(Kept(takes, now, maxAge), o, now, ttl)|)
      == Left(offer, |Holding(takes, o, now, ttl)|)
  {
    var credited, kept := Credited(takes, o, now, maxAge), Holding(Kept(takes, now, maxAge), o, now, ttl);
    forall id | id in takes && Prunable(takes[id], now, maxAge) ensures HoldsLot(takes[id], now, ttl) == HoldsLot(takes[id], now, DEFAULT) {
      PrunedHolds(takes[id], now, maxAge, ttl);
    }
    HoldingSplits(takes, o, now, maxAge, ttl);
    assert |credited + kept| == |credited| + |kept|;
  }

  lemma HoldingSplits(takes: map<Id, Take>, o: Id, now: nat, maxAge: nat, ttl: Ttl)
    requires forall id :: id in takes && Prunable(takes[id], now, maxAge) ==> HoldsLot(takes[id], now, ttl) == HoldsLot(takes[id], now, DEFAULT)
    ensures Holding(takes, o, now, ttl) == Credited(takes, o, now, maxAge) + Holding(Kept(takes, now, maxAge), o, now, ttl)
    ensures Credited(takes, o, now, maxAge) !! Holding(Kept(takes, now, maxAge), o, now, ttl)
  {}

  /** Under any other lifetimes some book shows it: one take is enough. */
  lemma PruneVisible(maxAge: nat, ttl: Ttl) returns (t: Take, now: nat, offer: Offer)
    requires !Harmless(maxAge, ttl)
    ensures Stamped(t)
    ensures var takes := map[0 := t];
      Left(offer.(lotsTaken := offer.lotsTaken + |Credited(takes, t.offer, now, maxAge)|), |Holding(Kept(takes, now, maxAge), t.offer, now, ttl)|)
        != Left(offer, |Holding(takes, t.offer, now, ttl)|)
  {
    var age := 1 + (if ttl.take == 0 then maxAge + 1800
                    else if ttl.take < 1800 then (if maxAge > ttl.take then maxAge else ttl.take)
                    else (if maxAge > 1800 then maxAge else 1800));
    t := Take(0, Requested, 1, 1, map[]);
    now := 1 + age;
    offer := Offer(2, 0, false, 0);
    var takes := map[0 := t];
    assert Prunable(t, now, maxAge) && HoldsLot(t, now, ttl) != HoldsLot(t, now, DEFAULT);
    assert Kept(takes, now, maxAge) == map[];
    assert Holding(map[], t.offer, now, ttl) == {};
    assert Credited(takes, t.offer, now, maxAge) == if HoldsLot(t, now, DEFAULT) then {0} else {};
    assert Holding(takes, t.offer, now, ttl) == if HoldsLot(t, now, ttl) then {0} else {};
  }

  // ------------------------------------------------------------- the ratchet

  datatype Fields = Fields(status: Option<Status>, facts: map<Id, Id>)

  datatype Outcome = Updated | TakeMoved | NoSuchTake

  predicate Terminal(s: Status) { s == Refunded || s == Aborted || s == Expired }

  function Rank(s: Status): Option<nat> {
    match s
    case Requested => Some(0)
    case Reserved => Some(1)
    case Pending => Some(2)
    case Signed => Some(3)
    case Disbursed => Some(4)
    case Live => Some(5)
    case Repaid => Some(6)
    case Claimed => Some(7)
    case _ => None
  }

  predicate Backward(now: Status, want: Status) {
    Rank(now).Some? && Rank(want).Some? && Rank(want).value < Rank(now).value
  }

  /** Whether a report of these fields is taken from this status. */
  predicate Moves(now: Status, fields: Fields) {
    fields.status.None? || fields.status.value == now || (!Terminal(now) && !Backward(now, fields.status.value))
  }

  function Forward(now: Status, fields: Fields): Fields {
    if fields.status.Some? && fields.status.value != now && (Terminal(now) || Backward(now, fields.status.value))
    then fields.(status := None) else fields
  }

  function Written(t: Take, fields: Fields, now: nat): Take {
    t.(status := if fields.status.Some? then fields.status.value else t.status,
       facts := t.facts + fields.facts, updated := now)
  }

  /** What is forwarded is never refused, and keeps every fact. */
  lemma ForwardMoves(now: Status, fields: Fields)
    ensures Moves(now, Forward(now, fields)) && Forward(now, fields).facts == fields.facts
    ensures Moves(now, fields) ==> Forward(now, fields) == fields
  {}

  /** A take after some reports, those refused leaving it as it is. */
  function Reported(t: Take, reports: seq<Fields>, now: nat): Take {
    if reports == [] then t
    else
      var before, fields := Reported(t, reports[..|reports| - 1], now), reports[|reports| - 1];
      if Moves(before.status, fields) then Written(before, fields, now) else before
  }

  predicate Known(reports: seq<Fields>) {
    forall i :: 0 <= i < |reports| && reports[i].status.Some? ==> !reports[i].status.value.Other?
  }

  /** Over any run of reports an end is where it ends, and with known statuses a rank never
      falls. */
  lemma {:induction false} RankNeverFalls(t: Take, reports: seq<Fields>, now: nat)
    ensures Terminal(t.status) ==> Reported(t, reports, now).status == t.status
    ensures Known(reports) && Rank(t.status).Some? ==>
      var s := Reported(t, reports, now).status;
      Terminal(s) || (Rank(s).Some? && Rank(s).value >= Rank(t.status).value)
  {
    if reports != [] {
      var before := reports[..|reports| - 1];
      RankNeverFalls(t, before, now);
      assert forall i :: 0 <= i < |before| ==> before[i] == reports[i];
    }
  }

  /** The steps of a take, in order. */
  const LADDER := [Requested, Reserved, Pending, Signed, Disbursed, Live, Repaid, Claimed]

  /** What is refused: leaving an end, and any step earlier on the ladder. */
  lemma MovesExactly(now: Status, want: Status, facts: map<Id, Id>)
    ensures Moves(now, Fields(None, facts))
    ensures Moves(now, Fields(Some(want), facts)) <==>
      want == now || (now !in [Refunded, Aborted, Expired] && !exists i, j :: 0 <= i < j < 8 && LADDER[i] == want && LADDER[j] == now)
  {
    assert forall i :: 0 <= i < 8 ==> Rank(LADDER[i]) == Some(i);
    if Backward(now, want) {
      assert LADDER[Rank(want).value] == want && LADDER[Rank(now).value] == now;
    }
  }

  /** Once the principal is paid no report with a known status frees the lot it was lent from,
      unless the take ended. */
  lemma LotStaysHeld(t: Take, reports: seq<Fields>, now: nat, at: nat, ttl: Ttl)
    requires t.status in [Disbursed, Live, Repaid, Claimed] && Known(reports)
    ensures var after := Reported(t, reports, now);
      HoldsLot(after, at, ttl) || after.status in [Refunded, Aborted, Expired]
  {
    RankNeverFalls(t, reports, now);
  }

  /** What a report that is taken leaves: the status it names, its facts over the old ones,
      and the time; offer and creation stay. */
  lemma WrittenIs(t: Take, fields: Fields, now: nat)
    ensures var w := Written(t, fields, now);
      && (fields.status.Some? ==> w.status == fields.status.value) && (fields.status.None? ==> w.status == t.status)
      && (forall k :: k in w.facts <==> k in t.facts || k in fields.facts)
      && (forall k :: k in w.facts ==> w.facts[k] == if k in fields.facts then fields.facts[k] else t.facts[k])
      && w.updated == now && w.offer == t.offer && w.created == t.created
  {}

  /** A status nobody knows undoes that: through it any step goes back to any other. */
  lemma UnknownUnratchets(t: Take, name: Id, back: Status, now: nat)
    requires !Terminal(t.status) && !Terminal(back)
    ensures Reported(t, [Fields(Some(Other(name)), map[]), Fields(Some(back), map[])], now).status == back
  {
    var reports := [Fields(Some(Other(name)), map[]), Fields(Some(back), map[])];
    assert reports[..1] == [reports[0]] && reports[..1][..0] == [];
    assert Reported(t, reports[..1], now).status == Other(name);
  }
}
