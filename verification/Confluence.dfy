/** Taking back what was read out of a replaced branch leaves the watcher where it was
    below it: reading branch A, undoing down to the common ancestor and reading branch B
    is reading branch B alone. */
module Confluence {
  import opened Wrappers
  import opened Scan

  function Created(e: Spend): Outpoint { Outpoint(e.tx.txid, 2 * e.k + 1) }

  function CreatedBy(es: seq<Spend>): set<Outpoint> { set i | 0 <= i < |es| :: Created(es[i]) }

  /** The index names the offer resting on a coin, and every open offer is in it. */
  ghost predicate WellPlaced(m: Maps) {
    && (forall op :: op in m.byOffer ==> m.byOffer[op] in m.offers && m.offers[m.byOffer[op]].coin == op)
    && (forall id :: id in m.offers && m.offers[id].status == Open ==>
          m.offers[id].coin in m.byOffer && m.byOffer[m.offers[id].coin] == id)
  }

  /** A watcher that has read nothing above `ancestor`, as far as its offers show. */
  ghost predicate Below(m: Maps, ancestor: nat) {
    WellPlaced(m) && forall id :: id in m.offers ==> !MovedAbove(m.offers[id], ancestor)
  }

  /** ... and its vaults: one closed in a block was closed at or below it and no lower than
      its funding. One closed from the mempool was closed in no block. */
  ghost predicate ClosedBelow(m: Maps, ancestor: nat) {
    forall id :: id in m.vaults ==>
      var v := m.vaults[id];
      if Settled(v) then v.fundingHeight <= v.spentHeight <= ancestor else v.spentHeight == 0
  }

  /** An input that moves an open offer to its remainder. */
  predicate Carries(m: Maps, e: Spend)
    requires e.k < |e.tx.vin|
  {
    var key := e.tx.vin[e.k].prev;
    && key in m.byOffer && m.byOffer[key] in m.offers && m.offers[m.byOffer[key]].status == Open
    && Moved(m.offers[m.byOffer[key]], e.tx, e.k, e.height).status == Open
  }

  /** The inputs of a branch that move an open offer to its remainder. */
  function Carrying(m: Maps, es: seq<Spend>): seq<Spend>
    requires Real(es)
  {
    if es == [] then []
    else
      var before, e := es[..|es| - 1], es[|es| - 1];
      Carrying(m, before) + (if Carries(Read(m, before), e) then [e] else [])
  }

  /** No two inputs make the same output, and the index has none they make. */
  ghost predicate Own(m: Maps, es: seq<Spend>) {
    && (forall i, j :: 0 <= i < j < |es| ==> Created(es[i]) != Created(es[j]))
    && (forall i :: 0 <= i < |es| ==> Created(es[i]) !in m.byOffer)
  }

  /** No offer is moved by the branch to a coin on which another rests already. */
  ghost predicate Fresh(m: Maps, es: seq<Spend>)
    requires Real(es)
  {
    Own(m, Carrying(m, es))
  }

  ghost predicate Above(es: seq<Spend>, ancestor: nat) {
    Real(es) && forall i :: 0 <= i < |es| ==> es[i].height > ancestor
  }

  function Lookup(index: map<Outpoint, Id>, op: Outpoint): Option<Id> {
    if op in index then Some(index[op]) else None
  }

  // ------------------------------------------------------- reading a branch

  /** An offer's moves since the ancestor lead back to where it was, over these coins. */
  predicate Descends(o0: Offer, o: Offer, ancestor: nat, trail: set<Outpoint>) {
    MovedAbove(o, ancestor) && Restore(o, ancestor) == o0 && Trail(o, ancestor) == trail
  }

  /** Offers with no trail are untouched; the others started open and are on their trail. */
  ghost predicate Accounted(m0: Maps, m: Maps, made: set<Outpoint>, trails: map<Id, set<Outpoint>>) {
    && m.offers.Keys == m0.offers.Keys && trails.Keys <= m0.offers.Keys
    && (forall id :: id in m0.offers && id !in trails ==> m.offers[id] == m0.offers[id])
    && (forall id :: id in trails ==>
          && m0.offers[id].status == Open
          && m.offers[id].coin in trails[id] && m0.offers[id].coin in trails[id]
          && trails[id] <= {m0.offers[id].coin} + made)
  }

  ghost predicate Apart(trails: map<Id, set<Outpoint>>) {
    forall a, b :: a in trails && b in trails && a != b ==> trails[a] !! trails[b]
  }

  ghost predicate OffTrail(trails: map<Id, set<Outpoint>>, op: Outpoint) {
    forall id :: id in trails ==> op !in trails[id]
  }

  /** Off every trail the index is what it was. */
  ghost predicate Elsewhere(m0: Maps, m: Maps, trails: map<Id, set<Outpoint>>) {
    forall op :: OffTrail(trails, op) ==> Lookup(m.byOffer, op) == Lookup(m0.byOffer, op)
  }

  predicate Unmade(m0: Maps, made: set<Outpoint>) { made !! m0.byOffer.Keys }

  /** What reading a branch from `m0` has done: each offer it moved has a trail of its
      own, made of its old coin and of outputs of the branch. */
  ghost predicate Reading(m0: Maps, m: Maps, made: set<Outpoint>, trails: map<Id, set<Outpoint>>) {
    && WellPlaced(m) && Unmade(m0, made)
    && Accounted(m0, m, made, trails) && Apart(trails) && Elsewhere(m0, m, trails)
  }

  ghost predicate Trailed(m0: Maps, m: Maps, ancestor: nat, trails: map<Id, set<Outpoint>>) {
    forall id :: id in trails ==>
      id in m0.offers && id in m.offers && Descends(m0.offers[id], m.offers[id], ancestor, trails[id])
  }

  lemma {:induction false} TrailCore(a: Offer, b: Offer, ancestor: nat)
    requires a.coin == b.coin && a.history == b.history
    ensures Trail(a, ancestor) == Trail(b, ancestor)
    decreases |a.history|
  {
    if MovedAbove(a, ancestor) {
      var last := a.history[|a.history| - 1];
      TrailCore(a.(history := a.history[..|a.history| - 1], coin := last.from),
                b.(history := b.history[..|b.history| - 1], coin := last.from), ancestor);
    }
  }

  /** One more move is one more step of the descent. */
  lemma MoveUndone(o: Offer, tx: Tx, k: nat, height: nat, ancestor: nat)
    requires k < |tx.vin| && height > ancestor && o.status == Open
    ensures var o' := Moved(o, tx, k, height);
      && Descends(Restore(o, ancestor), o', ancestor, {o'.coin} + Trail(o, ancestor))
      && o'.coin == if o'.status == Open then Outpoint(tx.txid, 2 * k + 1) else o.coin
  {
    var o' := Moved(o, tx, k, height);
    var last := o'.history[|o'.history| - 1];
    assert o'.history[..|o'.history| - 1] == o.history;
    assert o'.(history := o.history, coin := last.from, value := last.value, status := last.status) == o;
    TrailCore(o'.(history := o.history, coin := last.from), o, ancestor);
  }

  /** An offer moves: the maps and the trails after it. */
  ghost function Put(m: Maps, id: Id, o': Offer): Maps
    requires id in m.offers
  {
    var index := m.byOffer - {m.offers[id].coin};
    m.(offers := m.offers[id := o'], byOffer := if o'.status == Open then index[o'.coin := id] else index)
  }

  /** The coins an offer has been on, as the trails record them. */
  ghost function Walked(m: Maps, trails: map<Id, set<Outpoint>>, id: Id): set<Outpoint>
    requires id in m.offers
  {
    if id in trails then trails[id] else {m.offers[id].coin}
  }

  lemma PutPlaced(m: Maps, id: Id, o': Offer, created: Outpoint)
    requires WellPlaced(m) && id in m.offers && m.offers[id].status == Open
    requires o'.coin == if o'.status == Open then created else m.offers[id].coin
    requires o'.status == Open ==> created !in m.byOffer
    ensures WellPlaced(Put(m, id, o'))
  {}

  lemma PutAccounted(m0: Maps, m: Maps, made: set<Outpoint>, trails: map<Id, set<Outpoint>>,
                     id: Id, o': Offer, more: set<Outpoint>)
    requires Accounted(m0, m, made, trails)
    requires id in m.offers && m.offers[id].status == Open
    requires o'.coin in more || o'.coin == m.offers[id].coin
    ensures Accounted(m0, Put(m, id, o'), made + more, trails[id := {o'.coin} + Walked(m, trails, id)])
  {
    var trails' := trails[id := {o'.coin} + Walked(m, trails, id)];
    var offers' := m.offers[id := o'];
    assert Put(m, id, o').offers == offers';
    assert offers'.Keys == m0.offers.Keys && trails'.Keys <= m0.offers.Keys;
    forall a | a in trails'
      ensures m0.offers[a].status == Open && offers'[a].coin in trails'[a] && m0.offers[a].coin in trails'[a]
      ensures trails'[a] <= {m0.offers[a].coin} + (made + more)
    {
      if a == id {
        assert id !in trails ==> m.offers[id] == m0.offers[id];
        assert Walked(m, trails, id) <= {m0.offers[id].coin} + made;
      } else {
        assert a in trails && trails'[a] == trails[a] && offers'[a] == m.offers[a];
      }
    }
    forall a | a in m0.offers && a !in trails' ensures offers'[a] == m0.offers[a] {
      assert a !in trails && a != id;
    }
  }

  lemma PutApart(m0: Maps, m: Maps, made: set<Outpoint>, trails: map<Id, set<Outpoint>>,
                 id: Id, coin: Outpoint)
    requires WellPlaced(m0) && Unmade(m0, made) && Accounted(m0, m, made, trails) && Apart(trails)
    requires id in m.offers && m.offers[id].status == Open
    requires coin == m.offers[id].coin || (coin !in made && Unmade(m0, {coin}))
    ensures Apart(trails[id := {coin} + Walked(m, trails, id)])
  {
    assert m0.offers[id].status == Open;
    forall a | a in trails && a != id ensures trails[a] !! {coin} + Walked(m, trails, id) {
      assert m0.offers[a].coin != m0.offers[id].coin;
      assert trails[a] <= {m0.offers[a].coin} + made;
    }
  }

  lemma PutElsewhere(m0: Maps, m: Maps, trails: map<Id, set<Outpoint>>, id: Id, o': Offer)
    requires Elsewhere(m0, m, trails) && id in m.offers && m.offers[id].coin in Walked(m, trails, id)
    ensures Elsewhere(m0, Put(m, id, o'), trails[id := {o'.coin} + Walked(m, trails, id)])
  {
    var trails' := trails[id := {o'.coin} + Walked(m, trails, id)];
    forall op | OffTrail(trails', op) ensures Lookup(Put(m, id, o').byOffer, op) == Lookup(m0.byOffer, op) {
      assert op !in trails'[id];
      assert forall a :: a in trails ==> a in trails' && trails[a] <= trails'[a];
      assert OffTrail(trails, op);
    }
  }

  lemma Unrested(m0: Maps, m: Maps, made: set<Outpoint>, trails: map<Id, set<Outpoint>>, coin: Outpoint)
    requires WellPlaced(m0) && Accounted(m0, m, made, trails) && Elsewhere(m0, m, trails)
    requires coin !in made && Unmade(m0, {coin})
    ensures coin !in m.byOffer
  {
    forall a | a in trails ensures coin !in trails[a] {
      assert m0.offers[a].coin in m0.byOffer;
    }
    assert OffTrail(trails, coin) && Lookup(m.byOffer, coin) == Lookup(m0.byOffer, coin);
  }

  lemma PutReads(m0: Maps, m: Maps, made: set<Outpoint>, trails: map<Id, set<Outpoint>>,
                 id: Id, o': Offer, more: set<Outpoint>)
    requires WellPlaced(m0) && Reading(m0, m, made, trails)
    requires id in m.offers && m.offers[id].status == Open
    requires more !! made && Unmade(m0, more)
    requires if o'.status == Open then o'.coin in more else o'.coin == m.offers[id].coin
    ensures Reading(m0, Put(m, id, o'), made + more, trails[id := {o'.coin} + Walked(m, trails, id)])
  {
    if o'.status == Open {
      Unrested(m0, m, made, trails, o'.coin);
    }
    PutPlaced(m, id, o', o'.coin);
    PutAccounted(m0, m, made, trails, id, o', more);
    PutApart(m0, m, made, trails, id, o'.coin);
    PutElsewhere(m0, m, trails, id, o');
  }

  /** Where the trails lead, an offer that moves once more has the trail the maps record. */
  lemma HopTrailed(m0: Maps, m: Maps, e: Spend, ancestor: nat, trails: map<Id, set<Outpoint>>, id: Id)
    requires e.k < |e.tx.vin| && e.height > ancestor
    requires Trailed(m0, m, ancestor, trails) && id in m.offers && id in m0.offers && m.offers[id].status == Open
    requires id !in trails ==> m.offers[id] == m0.offers[id] && !MovedAbove(m0.offers[id], ancestor)
    ensures var o' := Moved(m.offers[id], e.tx, e.k, e.height);
      && Descends(m0.offers[id], o', ancestor, {o'.coin} + Walked(m, trails, id))
      && o'.coin == if o'.status == Open then Created(e) else m.offers[id].coin
  {
    MoveUndone(m.offers[id], e.tx, e.k, e.height, ancestor);
    if id in trails {
      assert Descends(m0.offers[id], m.offers[id], ancestor, trails[id]);
    }
  }

  /** One spend either moves the offer resting on its coin, or no offer at all. */
  lemma StepIsPut(m: Maps, e: Spend)
    requires e.k < |e.tx.vin| && WellPlaced(m)
    ensures var key := e.tx.vin[e.k].prev;
      if key in m.byOffer && m.offers[m.byOffer[key]].status == Open then
        var id := m.byOffer[key];
        var p := Put(m, id, Moved(m.offers[id], e.tx, e.k, e.height));
        Step(m, e).offers == p.offers && Step(m, e).byOffer == p.byOffer
      else Step(m, e).offers == m.offers && Step(m, e).byOffer == m.byOffer
  {
    var c := Close(m, e);
    assert c.offers == m.offers && c.byOffer == m.byOffer;
  }

  lemma PutTrailed(m0: Maps, m: Maps, ancestor: nat, trails: map<Id, set<Outpoint>>,
                   id: Id, o': Offer, trail: set<Outpoint>)
    requires Trailed(m0, m, ancestor, trails) && id in m0.offers && id in m.offers
    requires Descends(m0.offers[id], o', ancestor, trail)
    ensures Trailed(m0, Put(m, id, o'), ancestor, trails[id := trail])
  {}

  /** The output an input adds to those made. */
  function Made(m: Maps, e: Spend): set<Outpoint>
    requires e.k < |e.tx.vin|
  {
    if Carries(m, e) then {Created(e)} else {}
  }

  lemma StepReads(m0: Maps, m: Maps, e: Spend, ancestor: nat, made: set<Outpoint>, trails: map<Id, set<Outpoint>>)
    returns (trails': map<Id, set<Outpoint>>)
    requires e.k < |e.tx.vin| && e.height > ancestor
    requires Below(m0, ancestor) && Reading(m0, m, made, trails) && Trailed(m0, m, ancestor, trails)
    requires Made(m, e) !! made && Unmade(m0, Made(m, e))
    ensures Reading(m0, Step(m, e), made + Made(m, e), trails')
    ensures Trailed(m0, Step(m, e), ancestor, trails')
  {
    var key := e.tx.vin[e.k].prev;
    StepIsPut(m, e);
    if key in m.byOffer && m.offers[m.byOffer[key]].status == Open {
      trails' := MovingStepReads(m0, m, e, ancestor, made, trails, m.byOffer[key]);
    } else {
      trails' := trails;
      assert made + Made(m, e) == made;
      SameReading(m0, m, Step(m, e), ancestor, made, trails);
    }
  }

  lemma MovingStepReads(m0: Maps, m: Maps, e: Spend, ancestor: nat, made: set<Outpoint>,
                        trails: map<Id, set<Outpoint>>, id: Id)
    returns (trails': map<Id, set<Outpoint>>)
    requires e.k < |e.tx.vin| && e.height > ancestor
    requires Below(m0, ancestor) && Reading(m0, m, made, trails) && Trailed(m0, m, ancestor, trails)
    requires Made(m, e) !! made && Unmade(m0, Made(m, e))
    requires e.tx.vin[e.k].prev in m.byOffer && m.byOffer[e.tx.vin[e.k].prev] == id
    requires id in m.offers && m.offers[id].status == Open
    requires var p := Put(m, id, Moved(m.offers[id], e.tx, e.k, e.height));
      Step(m, e).offers == p.offers && Step(m, e).byOffer == p.byOffer
    ensures Reading(m0, Step(m, e), made + Made(m, e), trails')
    ensures Trailed(m0, Step(m, e), ancestor, trails')
  {
    var o' := Moved(m.offers[id], e.tx, e.k, e.height);
    trails' := trails[id := {o'.coin} + Walked(m, trails, id)];
    HopTrailed(m0, m, e, ancestor, trails, id);
    assert Carries(m, e) <==> o'.status == Open;
    PutReads(m0, m, made, trails, id, o', Made(m, e));
    PutTrailed(m0, m, ancestor, trails, id, o', trails'[id]);
    SameReading(m0, Put(m, id, o'), Step(m, e), ancestor, made + Made(m, e), trails');
  }

  lemma SameReading(m0: Maps, a: Maps, b: Maps, ancestor: nat, made: set<Outpoint>, trails: map<Id, set<Outpoint>>)
    requires a.offers == b.offers && a.byOffer == b.byOffer && Reading(m0, a, made, trails)
    ensures Reading(m0, b, made, trails)
    ensures Trailed(m0, a, ancestor, trails) ==> Trailed(m0, b, ancestor, trails)
  {}

  /** The outputs a branch moves offers to. */
  function MadeBy(m: Maps, es: seq<Spend>): set<Outpoint>
    requires Real(es)
  {
    CreatedBy(Carrying(m, es))
  }

  lemma OneMoreMade(m: Maps, es: seq<Spend>)
    requires Real(es) && es != [] && Fresh(m, es)
    ensures var before, e := es[..|es| - 1], es[|es| - 1];
      && Fresh(m, before) && MadeBy(m, es) == MadeBy(m, before) + Made(Read(m, before), e)
      && Made(Read(m, before), e) !! MadeBy(m, before) && Unmade(m, Made(Read(m, before), e))
  {
    var before, e := es[..|es| - 1], es[|es| - 1];
    var c, last := Carrying(m, before), if Carries(Read(m, before), e) then [e] else [];
    assert Carrying(m, es) == c + last;
    OwnPart(m, c, last);
    CreatedConcat(c, last);
    if last != [] {
      assert CreatedBy(last) == {Created(last[0])};
    }
  }

  lemma CreatedConcat(a: seq<Spend>, b: seq<Spend>)
    ensures CreatedBy(a + b) == CreatedBy(a) + CreatedBy(b)
  {
    assert forall i :: 0 <= i < |a| ==> a[i] == (a + b)[i];
    assert forall i :: 0 <= i < |b| ==> b[i] == (a + b)[|a| + i];
  }

  lemma OwnPart(m: Maps, a: seq<Spend>, b: seq<Spend>)
    requires Own(m, a + b)
    ensures Own(m, a) && Own(m, b) && CreatedBy(a) !! CreatedBy(b) && Unmade(m, CreatedBy(b))
  {
    assert forall i :: 0 <= i < |a| ==> a[i] == (a + b)[i];
    assert forall i :: 0 <= i < |b| ==> b[i] == (a + b)[|a| + i];
  }

  /** Reading a whole branch. */
  lemma {:induction false} BranchReads(m0: Maps, es: seq<Spend>, ancestor: nat)
    returns (trails: map<Id, set<Outpoint>>)
    requires Below(m0, ancestor) && Above(es, ancestor) && Fresh(m0, es)
    ensures Reading(m0, Read(m0, es), MadeBy(m0, es), trails) && Trailed(m0, Read(m0, es), ancestor, trails)
  {
    if es == [] {
      trails := map[];
    } else {
      var before, e := es[..|es| - 1], es[|es| - 1];
      OneMoreMade(m0, es);
      trails := BranchReads(m0, before, ancestor);
      trails := StepReads(m0, Read(m0, before), e, ancestor, MadeBy(m0, before), trails);
    }
  }

  // ---------------------------------------------------------------- undoing

  ghost predicate Listed(m: Maps, order: seq<Id>) {
    && (forall id :: id in m.offers <==> id in order)
    && (forall i, j :: 0 <= i < j < |order| ==> order[i] != order[j])
  }

  /** Where the index ends for a coin: with the offer whose trail it is on, if that offer
      started there, and nowhere if it only passed. */
  lemma {:induction false} ReindexedAt(m0: Maps, m: Maps, order: seq<Id>, ancestor: nat,
                                       trails: map<Id, set<Outpoint>>, op: Outpoint)
    requires forall i, j :: 0 <= i < j < |order| ==> order[i] != order[j]
    requires m.offers.Keys == m0.offers.Keys && Trailed(m0, m, ancestor, trails) && Apart(trails)
    requires forall id :: id in m.offers && id !in trails ==> !MovedAbove(m.offers[id], ancestor)
    ensures var index := ReindexAll(m.byOffer, m.offers, order, ancestor);
      && (forall id :: id in order && id in trails && op in trails[id] ==>
            Lookup(index, op) == if m0.offers[id].coin == op then Some(id) else None)
      && ((forall id :: id in order && id in trails ==> op !in trails[id]) ==> Lookup(index, op) == Lookup(m.byOffer, op))
  {
    if order != [] {
      var before, id := order[..|order| - 1], order[|order| - 1];
      assert order == before + [id];
      ReindexedAt(m0, m, before, ancestor, trails, op);
      if id in trails {
        assert Descends(m0.offers[id], m.offers[id], ancestor, trails[id]);
        assert m0.offers[id].coin in trails[id] by { RestoredOnTrail(m.offers[id], ancestor); }
      }
    }
  }

  lemma {:induction false} RestoredOnTrail(o: Offer, ancestor: nat)
    ensures Restore(o, ancestor).coin in Trail(o, ancestor)
    decreases |o.history|
  {
    if MovedAbove(o, ancestor) {
      var last := o.history[|o.history| - 1];
      var o1 := o.(history := o.history[..|o.history| - 1], coin := last.from, value := last.value, status := last.status);
      RestoredOnTrail(o1, ancestor);
      TrailCore(o1, o.(history := o.history[..|o.history| - 1], coin := last.from), ancestor);
    }
  }

  /** Where the index ends for one coin. */
  lemma CoinUndone(m0: Maps, m: Maps, order: seq<Id>, ancestor: nat, made: set<Outpoint>,
                   trails: map<Id, set<Outpoint>>, op: Outpoint)
    requires WellPlaced(m0) && Listed(m0, order) && Reading(m0, m, made, trails) && Trailed(m0, m, ancestor, trails)
    requires forall id :: id in m0.offers ==> !MovedAbove(m0.offers[id], ancestor)
    ensures Lookup(ReindexAll(m.byOffer, m.offers, order, ancestor), op) == Lookup(m0.byOffer, op)
  {
    ReindexedAt(m0, m, order, ancestor, trails, op);
    if id :| id in trails && op in trails[id] {
      assert id in order && m0.offers[id].status == Open;
      assert trails[id] <= {m0.offers[id].coin} + made;
      if op != m0.offers[id].coin {
        assert op in made && op !in m0.byOffer;
      }
    } else {
      assert OffTrail(trails, op);
    }
  }

  /** Undoing a branch gives every offer and the whole index back. */
  lemma BranchUndone(m0: Maps, es: seq<Spend>, order: seq<Id>, ancestor: nat, replaced: (nat, int) -> bool)
    requires Below(m0, ancestor) && Above(es, ancestor) && Fresh(m0, es) && Listed(m0, order)
    ensures var m := Undo(Read(m0, es), order, ancestor, replaced);
      m.offers == m0.offers && m.byOffer == m0.byOffer
  {
    var trails := BranchReads(m0, es, ancestor);
    var m := Read(m0, es);
    OffersUndone(m0, m, ancestor, MadeBy(m0, es), trails);
    forall op ensures Lookup(ReindexAll(m.byOffer, m.offers, order, ancestor), op) == Lookup(m0.byOffer, op) {
      CoinUndone(m0, m, order, ancestor, MadeBy(m0, es), trails, op);
    }
    SameLookups(ReindexAll(m.byOffer, m.offers, order, ancestor), m0.byOffer);
  }

  lemma OffersUndone(m0: Maps, m: Maps, ancestor: nat, made: set<Outpoint>, trails: map<Id, set<Outpoint>>)
    requires Reading(m0, m, made, trails) && Trailed(m0, m, ancestor, trails)
    requires forall id :: id in m0.offers ==> !MovedAbove(m0.offers[id], ancestor)
    ensures (map id | id in m.offers :: Restore(m.offers[id], ancestor)) == m0.offers
  {
    forall id | id in m0.offers ensures Restore(m.offers[id], ancestor) == m0.offers[id] {
      assert id in trails ==> Descends(m0.offers[id], m.offers[id], ancestor, trails[id]);
    }
  }

  lemma SameLookups(a: map<Outpoint, Id>, b: map<Outpoint, Id>)
    requires forall op :: Lookup(a, op) == Lookup(b, op)
    ensures a == b
  {
    forall op ensures op in a <==> op in b { assert Lookup(a, op) == Lookup(b, op); }
    forall op | op in a ensures a[op] == b[op] { assert Lookup(a, op) == Lookup(b, op); }
  }

  // ----------------------------------------------------------------- vaults

  /** Two records of a vault that say the same about its end in a block. */
  predicate SameVault(v: Vault, w: Vault) {
    && v.coin == w.coin && v.singleLeaf == w.singleLeaf && v.leafNames == w.leafNames
    && v.spentHeight == w.spentHeight && Settled(v) == Settled(w)
    && (Settled(v) ==> v.state == w.state && v.spentBy == w.spentBy)
  }

  /** Two watchers that agree on every offer, on the whole index and on every vault's end. */
  ghost predicate Same(a: Maps, b: Maps) {
    && a.offers == b.offers && a.byOffer == b.byOffer && a.byOutpoint == b.byOutpoint
    && a.vaults.Keys == b.vaults.Keys
    && (forall id :: id in a.vaults ==> SameVault(a.vaults[id], b.vaults[id]))
  }

  predicate VaultSince(v0: Vault, v: Vault, ancestor: nat) {
    || v == v0
    || (&& !Settled(v0) && v.spentHeight > ancestor
        && v == v0.(spentBy := v.spentBy, spentHeight := v.spentHeight, state := v.state))
  }

  ghost predicate VaultsSince(m0: Maps, m: Maps, ancestor: nat) {
    && m.vaults.Keys == m0.vaults.Keys && m.byOutpoint == m0.byOutpoint
    && forall id :: id in m.vaults ==> VaultSince(m0.vaults[id], m.vaults[id], ancestor)
  }

  lemma {:induction false} BranchCloses(m0: Maps, es: seq<Spend>, ancestor: nat)
    requires Above(es, ancestor)
    ensures VaultsSince(m0, Read(m0, es), ancestor)
  {
    if es != [] {
      BranchCloses(m0, es[..|es| - 1], ancestor);
      var m, e := Read(m0, es[..|es| - 1]), es[|es| - 1];
      assert Read(m0, es).vaults == Close(m, e).vaults;
    }
  }

  lemma CloseSame(a: Maps, b: Maps, e: Spend)
    requires e.k < |e.tx.vin| && Same(a, b)
    ensures Same(Close(a, e), Close(b, e))
  {
    var key := e.tx.vin[e.k].prev;
    if key in b.byOutpoint && b.byOutpoint[key] in b.vaults {
      var stack := e.tx.vin[e.k].stack;
      assert SameVault(a.vaults[b.byOutpoint[key]], b.vaults[b.byOutpoint[key]]);
      assert NameExit(a.vaults[b.byOutpoint[key]], stack) == NameExit(b.vaults[b.byOutpoint[key]], stack);
    }
  }

  lemma StepSame(a: Maps, b: Maps, e: Spend)
    requires e.k < |e.tx.vin| && Same(a, b)
    ensures Same(Step(a, e), Step(b, e))
  {
    CloseSame(a, b, e);
    var c, d := Close(a, e), Close(b, e);
    assert MoveOffer(c, e).vaults == c.vaults && MoveOffer(d, e).vaults == d.vaults;
    assert MoveOffer(c, e).offers == MoveOffer(d, e).offers && MoveOffer(c, e).byOffer == MoveOffer(d, e).byOffer;
  }

  lemma {:induction false} ReadSame(a: Maps, b: Maps, es: seq<Spend>)
    requires Real(es) && Same(a, b)
    ensures Same(Read(a, es), Read(b, es))
  {
    if es != [] {
      ReadSame(a, b, es[..|es| - 1]);
      StepSame(Read(a, es[..|es| - 1]), Read(b, es[..|es| - 1]), es[|es| - 1]);
    }
  }

  /** A vault's end in a block is put back by taking a branch back; a close seen only in the
      mempool is put back exactly when the branch does not close the vault. */
  lemma VaultUndone(v0: Vault, v: Vault, ancestor: nat, replaced: (nat, int) -> bool)
    requires VaultSince(v0, v, ancestor)
    requires if Settled(v0) then v0.fundingHeight <= v0.spentHeight <= ancestor else v0.spentHeight == 0
    ensures SameVault(RestoreVault(v, ancestor, replaced), v0)
    ensures !Settled(v0) && v0.spentBy != NONE ==>
      (RestoreVault(v, ancestor, replaced).spentBy == v0.spentBy <==> v.spentHeight <= ancestor)
  {}

  lemma UndoneIsSame(m0: Maps, es: seq<Spend>, order: seq<Id>, ancestor: nat, replaced: (nat, int) -> bool)
    requires Below(m0, ancestor) && ClosedBelow(m0, ancestor) && Above(es, ancestor) && Fresh(m0, es) && Listed(m0, order)
    ensures Same(Undo(Read(m0, es), order, ancestor, replaced), m0)
  {
    BranchUndone(m0, es, order, ancestor, replaced);
    BranchCloses(m0, es, ancestor);
    forall id | id in m0.vaults ensures SameVault(RestoreVault(Read(m0, es).vaults[id], ancestor, replaced), m0.vaults[id]) {
      VaultUndone(m0.vaults[id], Read(m0, es).vaults[id], ancestor, replaced);
    }
  }

  /** Reorg confluence. */
  lemma ReorgConfluence(m0: Maps, a: seq<Spend>, b: seq<Spend>, order: seq<Id>, ancestor: nat,
                        replaced: (nat, int) -> bool)
    requires Below(m0, ancestor) && ClosedBelow(m0, ancestor) && Above(a, ancestor) && Above(b, ancestor)
    requires Fresh(m0, a) && Listed(m0, order)
    ensures Same(Read(Undo(Read(m0, a), order, ancestor, replaced), b), Read(m0, b))
  {
    UndoneIsSame(m0, a, order, ancestor, replaced);
    ReadSame(Undo(Read(m0, a), order, ancestor, replaced), m0, b);
  }

  /** An offer moved to a coin on which another rests: taking that one input back is exact
      if and only if there is no such offer, whose place in the index is lost otherwise. */
  lemma TwoOnOneCoin(m0: Maps, e: Spend, order: seq<Id>, ancestor: nat, replaced: (nat, int) -> bool)
    requires Below(m0, ancestor) && Listed(m0, order)
    requires e.k < |e.tx.vin| && e.height > ancestor && e.tx.vin[e.k].prev != Created(e)
    ensures Undo(Read(m0, [e]), order, ancestor, replaced).byOffer == m0.byOffer
      <==> !(Carries(m0, e) && Created(e) in m0.byOffer)
  {
    OneRead(m0, e);
    if Carries(m0, e) && Created(e) in m0.byOffer {
      PlaceLost(m0, e, order, ancestor);
    } else {
      BranchUndone(m0, [e], order, ancestor, replaced);
    }
  }

  lemma OneRead(m0: Maps, e: Spend)
    requires e.k < |e.tx.vin|
    ensures Read(m0, [e]) == Step(m0, e)
    ensures Fresh(m0, [e]) <==> !(Carries(m0, e) && Created(e) in m0.byOffer)
  {
    assert [e][..0] == [] && Read(m0, []) == m0 && Carrying(m0, []) == [];
    assert Carrying(m0, [e]) == if Carries(m0, e) then [e] else [];
    assert Own(m0, [e]) <==> Created(e) !in m0.byOffer;
  }

  lemma PlaceLost(m0: Maps, e: Spend, order: seq<Id>, ancestor: nat)
    requires Below(m0, ancestor) && Listed(m0, order)
    requires e.k < |e.tx.vin| && e.height > ancestor && e.tx.vin[e.k].prev != Created(e) && Carries(m0, e)
    ensures Created(e) !in ReindexAll(Step(m0, e).byOffer, Step(m0, e).offers, order, ancestor)
  {
    var id := m0.byOffer[e.tx.vin[e.k].prev];
    var o' := Moved(m0.offers[id], e.tx, e.k, e.height);
    var trail := {o'.coin} + Walked(m0, map[], id);
    StepIsPut(m0, e);
    HopTrailed(m0, m0, e, ancestor, map[], id);
    PutTrailed(m0, m0, ancestor, map[], id, o', trail);
    ReindexedAt(m0, Step(m0, e), order, ancestor, map[id := trail], Created(e));
  }

  // ------------------------------------------------- from a base, over chains

  /** A chain whose spends above `low` a watcher at `low` can read and take back. */
  ghost predicate Readable(m: Maps, low: nat, chain: seq<Block>) {
    low < |chain| && Fresh(m, ChainSpends(chain, low, |chain| - 1))
  }

  lemma {:induction false} CarryingConcat(m: Maps, a: seq<Spend>, b: seq<Spend>)
    requires Real(a) && Real(b)
    ensures Carrying(m, a + b) == Carrying(m, a) + Carrying(Read(m, a), b)
  {
    if b == [] {
      assert a + b == a;
    } else {
      var before := b[..|b| - 1];
      CarryingConcat(m, a, before);
      ReadConcat(m, a, before);
      assert (a + b)[..|a + b| - 1] == a + before;
    }
  }

  lemma FreshPart(m: Maps, a: seq<Spend>, b: seq<Spend>)
    requires Real(a) && Real(b) && Fresh(m, a + b)
    ensures Fresh(m, a) && Own(m, Carrying(Read(m, a), b))
    ensures MadeBy(m, a) !! MadeBy(Read(m, a), b) && Unmade(m, MadeBy(Read(m, a), b))
  {
    CarryingConcat(m, a, b);
    OwnPart(m, Carrying(m, a), Carrying(Read(m, a), b));
  }

  /** No offer was moved above `high`. */
  ghost predicate ReadTo(m: Maps, high: nat) {
    forall id :: id in m.offers ==> !MovedAbove(m.offers[id], high)
  }

  lemma StepReadsTo(m: Maps, e: Spend, high: nat)
    requires e.k < |e.tx.vin| && e.height <= high && ReadTo(m, high)
    ensures ReadTo(Step(m, e), high)
  {
    var c, m' := Close(m, e), Step(m, e);
    assert c.offers == m.offers && m'.vaults == c.vaults;
    forall id | id in m'.offers ensures !MovedAbove(m'.offers[id], high) {
      if m'.offers[id] != m.offers[id] {
        var o := m.offers[id];
        assert m'.offers[id] == Moved(o, e.tx, e.k, e.height);
        assert Moved(o, e.tx, e.k, e.height).history[|o.history|].height == e.height;
      }
    }
  }

  /** Having read up to a height is being below it. */
  lemma {:induction false} ReadHeights(m: Maps, es: seq<Spend>, high: nat)
    requires ReadTo(m, high)
    requires Real(es) && forall i :: 0 <= i < |es| ==> es[i].height <= high
    ensures ReadTo(Read(m, es), high)
  {
    if es != [] {
      ReadHeights(m, es[..|es| - 1], high);
      StepReadsTo(Read(m, es[..|es| - 1]), es[|es| - 1], high);
    }
  }

  /** No offer rests on what the rest of the chain moves one to. */
  lemma RestIsFresh(m: Maps, a: seq<Spend>, b: seq<Spend>, low: nat)
    requires Below(m, low) && Above(a, low) && Real(b) && Fresh(m, a + b)
    ensures WellPlaced(Read(m, a)) && Fresh(Read(m, a), b)
  {
    FreshPart(m, a, b);
    var trails := BranchReads(m, a, low);
    var r, c := Read(m, a), Carrying(Read(m, a), b);
    forall i | 0 <= i < |c| ensures Created(c[i]) !in r.byOffer {
      assert Created(c[i]) in CreatedBy(c);
      Unrested(m, r, MadeBy(m, a), trails, Created(c[i]));
    }
  }

  /** A watcher that has read the first part of a chain can take the rest back. */
  lemma PartRead(m: Maps, a: seq<Spend>, b: seq<Spend>, low: nat, mid: nat)
    requires Below(m, low) && low <= mid && Real(a) && Real(b) && Fresh(m, a + b)
    requires Above(a, low) && forall i :: 0 <= i < |a| ==> a[i].height <= mid
    ensures Below(Read(m, a), mid) && Fresh(Read(m, a), b)
  {
    RestIsFresh(m, a, b, low);
    ReadHeights(m, a, mid);
  }

  // ------------------------------------------------------------- forgetting

  /** The moves a watcher remembers: those not in a block below `low`. */
  function Since(history: seq<Move>, low: nat): seq<Move> {
    if history == [] then []
    else
      var before, last := Since(history[..|history| - 1], low), history[|history| - 1];
      if last.height == 0 || last.height >= low then before + [last] else before
  }

  function Trim(o: Offer, low: nat): Offer { o.(history := Since(o.history, low)) }

  function Trimmed(offers: map<Id, Offer>, low: nat): map<Id, Offer> {
    map id | id in offers :: Trim(offers[id], low)
  }

  /** Moves in the order of their blocks. */
  predicate Rising(history: seq<Move>) {
    forall i, j :: 0 <= i < j < |history| ==> history[i].height <= history[j].height
  }

  lemma {:induction false} SinceBelow(history: seq<Move>, low: nat, high: nat)
    requires forall i :: 0 <= i < |history| ==> history[i].height <= high
    ensures forall i :: 0 <= i < |Since(history, low)| ==> Since(history, low)[i].height <= high
  {
    if history != [] {
      SinceBelow(history[..|history| - 1], low, high);
    }
  }

  /** Forgetting what is below a fork changes nothing of the descent to it. */
  lemma {:induction false} TrimRestores(o: Offer, low: nat, a: nat)
    requires Rising(o.history) && low <= a
    ensures Restore(Trim(o, low), a) == Trim(Restore(o, a), low)
    ensures Trail(Trim(o, low), a) == Trail(o, a) && MovedAbove(Trim(o, low), a) == MovedAbove(o, a)
    decreases |o.history|
  {
    if MovedAbove(o, a) {
      var last, before := o.history[|o.history| - 1], o.history[..|o.history| - 1];
      var t := Trim(o, low);
      assert t.history == Since(before, low) + [last];
      assert t.history[..|t.history| - 1] == Since(before, low);
      var o1 := o.(history := before, coin := last.from, value := last.value, status := last.status);
      TrimRestores(o1, low, a);
      TrailCore(o1, o.(history := before, coin := last.from), a);
      TrailCore(Trim(o1, low), t.(history := Since(before, low), coin := last.from), a);
    } else {
      SinceBelow(o.history, low, a);
    }
  }

  lemma {:induction false} TrimReindexes(index: map<Outpoint, Id>, offers: map<Id, Offer>, order: seq<Id>, low: nat, a: nat)
    requires low <= a && forall id :: id in offers ==> Rising(offers[id].history)
    ensures ReindexAll(index, Trimmed(offers, low), order, a) == ReindexAll(index, offers, order, a)
  {
    if order != [] {
      var id := order[|order| - 1];
      TrimReindexes(index, offers, order[..|order| - 1], low, a);
      if id in offers {
        TrimRestores(offers[id], low, a);
      }
    }
  }

  /** Undoing commutes with having forgotten. */
  lemma TrimUndoes(m: Maps, b: Maps, order: seq<Id>, low: nat, a: nat, replaced: (nat, int) -> bool)
    requires low <= a && m.offers == Trimmed(b.offers, low) && m.byOffer == b.byOffer
    requires forall id :: id in b.offers ==> Rising(b.offers[id].history)
    ensures Undo(m, order, a, replaced).offers == Trimmed(Undo(b, order, a, replaced).offers, low)
    ensures Undo(m, order, a, replaced).byOffer == Undo(b, order, a, replaced).byOffer
  {
    TrimReindexes(b.byOffer, b.offers, order, low, a);
    forall id | id in b.offers ensures Restore(Trim(b.offers[id], low), a) == Trim(Restore(b.offers[id], a), low) {
      TrimRestores(b.offers[id], low, a);
    }
  }

  lemma TrimMoved(o: Offer, low: nat, tx: Tx, k: nat, height: nat)
    requires k < |tx.vin| && low <= height
    ensures Moved(Trim(o, low), tx, k, height) == Trim(Moved(o, tx, k, height), low)
  {
    var last := Move(o.coin, o.value, o.status, height, tx.txid);
    assert (o.history + [last])[..|o.history|] == o.history;
  }

  lemma TrimPut(m: Maps, b: Maps, id: Id, o': Offer, low: nat)
    requires m.offers == Trimmed(b.offers, low) && m.byOffer == b.byOffer && id in b.offers
    ensures Put(m, id, Trim(o', low)).offers == Trimmed(Put(b, id, o').offers, low)
    ensures Put(m, id, Trim(o', low)).byOffer == Put(b, id, o').byOffer
  {}

  /** What one spend does to the offers and their index. */
  lemma StepOffers(m: Maps, e: Spend)
    requires e.k < |e.tx.vin|
    ensures var key := e.tx.vin[e.k].prev;
      if key in m.byOffer && m.byOffer[key] in m.offers && m.offers[m.byOffer[key]].status == Open then
        var p := Put(m, m.byOffer[key], Moved(m.offers[m.byOffer[key]], e.tx, e.k, e.height));
        Step(m, e).offers == p.offers && Step(m, e).byOffer == p.byOffer
      else Step(m, e).offers == m.offers && Step(m, e).byOffer == m.byOffer
  {
    var c := Close(m, e);
    assert c.offers == m.offers && c.byOffer == m.byOffer;
  }

  lemma TrimStep(m: Maps, b: Maps, e: Spend, low: nat)
    requires m.offers == Trimmed(b.offers, low) && m.byOffer == b.byOffer && e.k < |e.tx.vin| && low <= e.height
    ensures Step(m, e).offers == Trimmed(Step(b, e).offers, low) && Step(m, e).byOffer == Step(b, e).byOffer
  {
    var key := e.tx.vin[e.k].prev;
    StepOffers(m, e);
    StepOffers(b, e);
    if key in b.byOffer && b.byOffer[key] in b.offers {
      var id := b.byOffer[key];
      TrimMoved(b.offers[id], low, e.tx, e.k, e.height);
      TrimPut(m, b, id, Moved(b.offers[id], e.tx, e.k, e.height), low);
    }
  }

  /** Reading commutes with having forgotten. */
  lemma {:induction false} TrimReads(m: Maps, b: Maps, es: seq<Spend>, low: nat)
    requires m.offers == Trimmed(b.offers, low) && m.byOffer == b.byOffer
    requires Real(es) && forall i :: 0 <= i < |es| ==> low <= es[i].height
    ensures Read(m, es).offers == Trimmed(Read(b, es).offers, low) && Read(m, es).byOffer == Read(b, es).byOffer
  {
    if es != [] {
      TrimReads(m, b, es[..|es| - 1], low);
      TrimStep(Read(m, es[..|es| - 1]), Read(b, es[..|es| - 1]), es[|es| - 1], low);
    }
  }

  lemma {:induction false} SinceTwice(history: seq<Move>, low: nat, more: nat)
    ensures Since(Since(history, low), more) == Since(history, if low < more then more else low)
  {
    if history != [] {
      var before, last := history[..|history| - 1], history[|history| - 1];
      SinceTwice(before, low, more);
      var s := Since(before, low);
      if last.height == 0 || last.height >= low {
        assert (s + [last])[..|s|] == s;
      }
    }
  }

  lemma TrimTwice(offers: map<Id, Offer>, low: nat, more: nat)
    ensures Trimmed(Trimmed(offers, low), more) == Trimmed(offers, if low < more then more else low)
  {
    forall id | id in offers ensures Trim(Trim(offers[id], low), more) == Trim(offers[id], if low < more then more else low) {
      SinceTwice(offers[id].history, low, more);
    }
  }

  // ------------------------------------------------------- moves in order

  ghost predicate AllRising(m: Maps, high: nat) {
    forall id :: id in m.offers ==>
      Rising(m.offers[id].history) && forall i :: 0 <= i < |m.offers[id].history| ==> m.offers[id].history[i].height <= high
  }

  lemma StepRises(m: Maps, e: Spend, high: nat)
    requires AllRising(m, high) && e.k < |e.tx.vin| && high <= e.height
    ensures AllRising(Step(m, e), e.height)
  {
    assert Close(m, e).offers == m.offers;
    forall id | id in Step(m, e).offers
      ensures var h := Step(m, e).offers[id].history;
        Rising(h) && forall i :: 0 <= i < |h| ==> h[i].height <= e.height
    {
      if Step(m, e).offers[id] != m.offers[id] {
        assert Step(m, e).offers[id] == Moved(m.offers[id], e.tx, e.k, e.height);
      }
    }
  }

  /** Spends read in the order of their blocks. */
  predicate InOrder(es: seq<Spend>) {
    forall i, j :: 0 <= i < j < |es| ==> es[i].height <= es[j].height
  }

  lemma {:induction false} ReadRises(m: Maps, es: seq<Spend>, low: nat, high: nat)
    requires AllRising(m, low) && Above(es, low) && InOrder(es) && low <= high
    requires forall i :: 0 <= i < |es| ==> es[i].height <= high
    ensures AllRising(Read(m, es), high)
  {
    if es != [] {
      var e := es[|es| - 1];
      ReadRises(m, es[..|es| - 1], low, e.height);
      StepRises(Read(m, es[..|es| - 1]), e, e.height);
    }
  }

  lemma {:induction false} ChainInOrder(chain: seq<Block>, low: nat, high: nat)
    requires low <= high < |chain|
    ensures InOrder(ChainSpends(chain, low, high))
  {
    if low < high {
      ChainInOrder(chain, low, high - 1);
    }
  }
}
