/** What each TATP transaction does, told from the store that it finds. */
module TatpTransactions {
  import opened Replay
  import opened TatpModel

  lemma AfterOne(a: Step, s: Store)
    ensures After([a], s) == s + Effect(a, s)
  {
    assert After([a], s) == After([], s + Effect(a, s));
  }

  lemma AfterTwo(a: Step, b: Step, s: Store)
    ensures var t := s + Effect(a, s); After([a, b], s) == t + Effect(b, t)
  {
    var t := s + Effect(a, s);
    assert [a, b][1..] == [b] && [b][1..] == [];
    assert After([b], t) == After([], t + Effect(b, t));
  }

  lemma AfterThree(a: Step, b: Step, c: Step, s: Store)
    ensures
      var t := s + Effect(a, s);
      var u := t + Effect(b, t);
      After([a, b, c], s) == u + Effect(c, u)
  {
    var t := s + Effect(a, s);
    assert [a, b, c][1..] == [b, c];
    AfterTwo(b, c, t);
  }

  /** The id that the index on sub_nbr gives, -1 for an unknown number. */
  function IdOf(s: Store, subNbr: string): int { NumOr(s, SubNbr(subNbr), -1) }

  predicate HasForwarding(s: Store, id: int, sfType: int, startTime: int) { (sfType, startTime) in ForwardingsAt(s, id) }

  /** The rows of subscriber id are the same, but for the one of sfType and startTime. */
  predicate OtherForwardingsStay(s: Store, t: Store, id: int, sfType: int, startTime: int) {
    ForwardingsAt(t, id) - {(sfType, startTime)} == ForwardingsAt(s, id) - {(sfType, startTime)}
  }

  /** Nothing changed but the given cells. */
  ghost predicate OnlyChanged(s: Store, t: Store, cells: set<Cell>) { forall c | c !in cells :: SameAt(s, t, c) }

  /** The row is gone, whether it was there or not. */
  lemma DeletesForwarding(n: nat, subNbr: string, sfType: int, startTime: int, s: Store)
    ensures
      var t, id := After(TxnSteps(n, DeleteCallForwarding(subNbr, sfType, startTime)), s), IdOf(s, subNbr);
      && !HasForwarding(t, id, sfType, startTime) && OtherForwardingsStay(s, t, id, sfType, startTime)
      && Sid(t, n) == id && OnlyChanged(s, t, {Forwardings(id), HSid(n)})
      && (!HasForwarding(s, id, sfType, startTime) ==> SameAt(s, t, Forwardings(id)))
  {
    var txn := DeleteCallForwarding(subNbr, sfType, startTime);
    AfterTwo(Resolve(n, txn), DeleteForwarding(n, txn), s);
  }

  lemma InsertLeaves(n: nat, txn: Txn, u: Store, id: int)
    requires txn.InsertCallForwarding? && Sid(u, n) == id
    ensures
      var t := u + Effect(InsertForwarding(n, txn), u);
      && HasForwarding(t, id, txn.sfType, txn.startTime) && OtherForwardingsStay(u, t, id, txn.sfType, txn.startTime)
      && ForwardingsAt(t, id)[(txn.sfType, txn.startTime)]
         == (if HasForwarding(u, id, txn.sfType, txn.startTime) then ForwardingsAt(u, id)[(txn.sfType, txn.startTime)]
             else (txn.endTime, txn.numberx))
      && OnlyChanged(u, t, {Forwardings(id)})
      && (HasForwarding(u, id, txn.sfType, txn.startTime) ==> SameAt(u, t, Forwardings(id)))
  {
  }

  /** The row is there with the given end time and number, unless the subscriber had one of
      that facility and start time already: then that one stays. */
  lemma InsertsForwarding(n: nat, subNbr: string, sfType: int, startTime: int, endTime: int, numberx: string, s: Store)
    ensures
      var t, id := After(TxnSteps(n, InsertCallForwarding(subNbr, sfType, startTime, endTime, numberx)), s), IdOf(s, subNbr);
      && HasForwarding(t, id, sfType, startTime) && OtherForwardingsStay(s, t, id, sfType, startTime)
      && ForwardingsAt(t, id)[(sfType, startTime)]
         == (if HasForwarding(s, id, sfType, startTime) then ForwardingsAt(s, id)[(sfType, startTime)] else (endTime, numberx))
      && Sid(t, n) == id && Look(t, Seen(n)) == Look(s, Facilities(id))
      && OnlyChanged(s, t, {Forwardings(id), HSid(n), Seen(n)})
      && (HasForwarding(s, id, sfType, startTime) ==> SameAt(s, t, Forwardings(id)))
  {
    var txn := InsertCallForwarding(subNbr, sfType, startTime, endTime, numberx);
    var r := s + Effect(Resolve(n, txn), s);
    var u := r + Effect(ReadFacilities(n, txn), r);
    AfterThree(Resolve(n, txn), ReadFacilities(n, txn), InsertForwarding(n, txn), s);
    InsertLeaves(n, txn, u, IdOf(s, subNbr));
    assert SameAt(s, u, Forwardings(IdOf(s, subNbr)));
  }

  /** The subscriber moves and keeps its other columns; an unknown subscriber is a failure. */
  lemma MovesSubscriber(n: nat, subNbr: string, vlrLocation: int, s: Store)
    ensures
      var t, id := After(TxnSteps(n, UpdateLocation(subNbr, vlrLocation)), s), IdOf(s, subNbr);
      && Sid(t, n) == id
      && if IsSubscriber(s, id) then
           && IsSubscriber(t, id) && t[Subscriber(id)].row.vlrLocation == vlrLocation
           && t[Subscriber(id)].row.bit1 == s[Subscriber(id)].row.bit1
           && OnlyChanged(s, t, {Subscriber(id), HSid(n)})
         else Fault(id) in t && OnlyChanged(s, t, {Fault(id), HSid(n)})
  {
    var txn := UpdateLocation(subNbr, vlrLocation);
    AfterTwo(Resolve(n, txn), SetLocation(n, txn), s);
  }

  /** bit_1 of the subscriber and data_a of the facility are set, each if its row exists. */
  lemma UpdatesSubscriber(n: nat, sId: int, bit1: int, sfType: int, dataA: int, s: Store)
    ensures
      var t := After(TxnSteps(n, UpdateSubscriberData(sId, bit1, sfType, dataA)), s);
      && (IsSubscriber(s, sId) ==>
            && IsSubscriber(t, sId) && t[Subscriber(sId)].row.bit1 == bit1
            && t[Subscriber(sId)].row.vlrLocation == s[Subscriber(sId)].row.vlrLocation)
      && (!IsSubscriber(s, sId) ==> SameAt(s, t, Subscriber(sId)))
      && FacilitiesAt(t, sId).Keys == FacilitiesAt(s, sId).Keys
      && (forall f | f in FacilitiesAt(s, sId) :: FacilitiesAt(t, sId)[f] == if f == sfType then dataA else FacilitiesAt(s, sId)[f])
      && (sfType !in FacilitiesAt(s, sId) ==> SameAt(s, t, Facilities(sId)))
      && OnlyChanged(s, t, {Subscriber(sId), Facilities(sId)})
  {
    var txn := UpdateSubscriberData(sId, bit1, sfType, dataA);
    AfterTwo(SetBit1(n, txn), SetDataA(n, txn), s);
  }

  /** The reads see the row that is there, or that there is none, and change no row. */
  lemma ReadsSee(n: nat, sId: int, aiType: int, s: Store)
    ensures
      var t := After(TxnSteps(n, GetAccessData(sId, aiType)), s);
      Look(t, Seen(n)) == Look(s, AccessInfo(sId, aiType)) && OnlyChanged(s, t, {Seen(n)})
    ensures
      var t := After(TxnSteps(n, GetSubscriberData(sId)), s);
      Look(t, Seen(n)) == Look(s, Subscriber(sId)) && OnlyChanged(s, t, {Seen(n)})
    ensures After(TxnSteps(n, GetNewDestination), s) == s
  {
    AfterOne(ReadAccess(n, GetAccessData(sId, aiType)), s);
    AfterOne(ReadSubscriber(n, GetSubscriberData(sId)), s);
  }
}
