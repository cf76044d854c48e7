/** Which disks the daemon can start on: recovery reserves the owner of every tree it finds. */
module IdentityRecovery {
  import opened Common
  import opened LocalIdentity

  /** No user owns trees of two names, and a name's trees have one owner. */
  ghost predicate Orderly(s: State) {
    && (forall n, m, u :: Owns(s, n, u) && Owns(s, m, u) ==> n == m)
    && (forall n, u, v :: Owns(s, n, u) && Owns(s, n, v) ==> u == v)
  }

  /** Records name their own Beds. This holds in every run. */
  ghost predicate Recorded(s: State) {
    && ROOT < s.min <= s.max
    && (forall n :: n in s.records ==> s.records[n].name == n)
  }

  /** The part of the disk that recovery has met so far is in order. */
  ghost predicate OrderlyOn(s: State, order: seq<Name>) {
    && (forall n, m, u :: n in order && m in order && Owns(s, n, u) && Owns(s, m, u) ==> n == m)
    && (forall n, u, v :: n in order && Owns(s, n, u) && Owns(s, n, v) ==> u == v)
  }

  predicate OwnerIsReserved(s: State, uids: map<Id, Uid>, n: Name, u: Uid) {
    Owns(s, n, u) ==> Lookup(uids, IdFor(s, n)) == Some(u)
  }

  predicate ReservationIsOwned(s: State, order: seq<Name>, uids: map<Id, Uid>, id: Id) {
    id in uids ==> id.name in order && id == IdFor(s, id.name) && Owns(s, id.name, uids[id])
  }

  /** The owners of these names are reserved for their identities, each for one, and nothing else is. */
  ghost predicate Reserved(s: State, order: seq<Name>, uids: map<Id, Uid>) {
    && (forall n, u {:trigger OwnerIsReserved(s, uids, n, u)} :: n in order ==> OwnerIsReserved(s, uids, n, u))
    && (forall id {:trigger ReservationIsOwned(s, order, uids, id)} :: ReservationIsOwned(s, order, uids, id))
    && (forall i, j :: i in uids && j in uids && uids[i] == uids[j] ==> i == j)
  }

  lemma ReservedIsOrderly(s: State, order: seq<Name>, uids: map<Id, Uid>)
    requires Recorded(s) && Reserved(s, order, uids)
    ensures OrderlyOn(s, order)
  {
    forall n, m, u | n in order && m in order && Owns(s, n, u) && Owns(s, m, u) ensures n == m {
      assert OwnerIsReserved(s, uids, n, u) && OwnerIsReserved(s, uids, m, u);
    }
    forall n, u, v | n in order && Owns(s, n, u) && Owns(s, n, v) ensures u == v {
      assert OwnerIsReserved(s, uids, n, u) && OwnerIsReserved(s, uids, n, v);
    }
  }

  /** A reservation is refused only for a second owner of the Bed or a second Bed of the owner. */
  lemma RefusalIsConflict(s: State, order: seq<Name>, uids: map<Id, Uid>, n: Name, u: Uid)
    requires Recorded(s) && n in order && Owns(s, n, u) && Reserve(s, uids, IdFor(s, n), u).None?
    requires forall id {:trigger ReservationIsOwned(s, order, uids, id)} :: ReservationIsOwned(s, order, uids, id)
    ensures !OrderlyOn(s, order)
  {
    var id := IdFor(s, n);
    if id in uids {
      assert ReservationIsOwned(s, order, uids, id);
    } else {
      var other :| other in uids && uids[other] == u;
      assert ReservationIsOwned(s, order, uids, other);
    }
  }

  /** One more owner of one more name. */
  lemma ReserveKeeps(s: State, order: seq<Name>, uids: map<Id, Uid>, n: Name, u: Uid)
    requires Recorded(s) && n in order && (Owns(s, n, u) || !(s.min <= u <= s.max))
    requires forall id {:trigger ReservationIsOwned(s, order, uids, id)} :: ReservationIsOwned(s, order, uids, id)
    requires forall i, j :: i in uids && j in uids && uids[i] == uids[j] ==> i == j
    requires Reserve(s, uids, IdFor(s, n), u).Some?
    ensures var w := Reserve(s, uids, IdFor(s, n), u).value;
            && (s.min <= u <= s.max ==> Lookup(w, IdFor(s, n)) == Some(u))
            && (forall id :: id in uids ==> id in w && w[id] == uids[id])
            && (forall id {:trigger ReservationIsOwned(s, order, w, id)} :: ReservationIsOwned(s, order, w, id))
            && (forall i, j :: i in w && j in w && w[i] == w[j] ==> i == j)
  {
    var w := Reserve(s, uids, IdFor(s, n), u).value;
    forall id ensures ReservationIsOwned(s, order, w, id) { assert ReservationIsOwned(s, order, uids, id); }
  }

  lemma ReserveOne(s: State, order: seq<Name>, uids: map<Id, Uid>, n: Name)
    requires Recorded(s) && Reserved(s, order, uids)
    ensures ReserveTrees(s, uids, n).Some? ==> Reserved(s, order + [n], ReserveTrees(s, uids, n).value)
    ensures ReserveTrees(s, uids, n).None? ==> !OrderlyOn(s, order + [n])
  {
    hide Reserve;
    var more := order + [n];
    forall id ensures ReservationIsOwned(s, more, uids, id) { assert ReservationIsOwned(s, order, uids, id); }
    var first := uids;
    if n in s.dirs {
      if Reserve(s, uids, IdFor(s, n), s.dirs[n]).None? {
        OnlyOwnersConflict(s, uids, n, s.dirs[n]);
        RefusalIsConflict(s, more, uids, n, s.dirs[n]);
        return;
      }
      ReserveKeeps(s, more, uids, n, s.dirs[n]);
      first := Reserve(s, uids, IdFor(s, n), s.dirs[n]).value;
    }
    if n in s.garbage {
      if Reserve(s, first, IdFor(s, n), s.garbage[n]).None? {
        OnlyOwnersConflict(s, first, n, s.garbage[n]);
        RefusalIsConflict(s, more, first, n, s.garbage[n]);
        return;
      }
      ReserveKeeps(s, more, first, n, s.garbage[n]);
    }
    var w := ReserveTrees(s, uids, n).value;
    forall m, u | m in more ensures OwnerIsReserved(s, w, m, u) {
      if m in order { assert OwnerIsReserved(s, uids, m, u); }
    }
  }

  lemma OnlyOwnersConflict(s: State, uids: map<Id, Uid>, n: Name, u: Uid)
    requires Reserve(s, uids, IdFor(s, n), u).None?
    ensures s.min <= u <= s.max
  {
  }

  lemma {:induction false} ReserveAllIsExact(s: State, order: seq<Name>)
    requires Recorded(s)
    ensures ReserveAll(s, order).Some? <==> OrderlyOn(s, order)
    ensures ReserveAll(s, order).Some? ==> Reserved(s, order, ReserveAll(s, order).value)
  {
    hide ReserveTrees;
    if order != [] {
      var rest := order[..|order| - 1];
      assert order == rest + [order[|order| - 1]];
      ReserveAllIsExact(s, rest);
      if ReserveAll(s, rest).Some? {
        ReserveOne(s, rest, ReserveAll(s, rest).value, order[|order| - 1]);
      } else {
        assert forall n :: n in rest ==> n in order;
      }
    }
    if ReserveAll(s, order).Some? { ReservedIsOrderly(s, order, ReserveAll(s, order).value); }
  }

  /**
  In whatever order recovery meets the names, it goes through if and only if no user owns trees of two
  names and no name has trees of two users.
  */
  lemma RecoveryIsExact(s: State, order: seq<Name>)
    requires Recorded(s) && Lists(s, order)
    ensures ReserveAll(s, order).Some? <==> Orderly(s)
  {
    ReserveAllIsExact(s, order);
    assert forall n, u :: Owns(s, n, u) ==> n in order;
  }

  lemma StepKeepsRecorded(s: State, t: Step)
    requires Recorded(s) && Enabled(s, t)
    ensures Recorded(Apply(s, t))
  {
  }

  lemma {:induction false} RunsAreRecorded(s: State, tr: Trace)
    requires Recorded(s) && ValidFrom(s, tr)
    ensures Recorded(From(s, tr))
  {
    hide Apply, Enabled, Recorded;
    match tr
    case Start =>
    case Then(before, t) =>
      RunsAreRecorded(s, before);
      StepKeepsRecorded(From(s, before), t);
  }

  /** So after any run at all, guarded or not, the daemon starts again if and only if the disk is in order. */
  lemma StartsExactlyWhenOrderly(s: State, tr: Trace, order: seq<Name>)
    requires Initial(s) && ValidFrom(s, tr) && !From(s, tr).up && Lists(From(s, tr), order)
    ensures Enabled(From(s, tr), Restart(order)) <==> Orderly(From(s, tr))
  {
    hide Apply, ReserveAll, Orderly;
    RunsAreRecorded(s, tr);
    RecoveryIsExact(From(s, tr), order);
  }
}
