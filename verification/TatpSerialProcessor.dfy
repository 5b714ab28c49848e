/** The TATP serial processor in its own form.  The ghost log adds to the tables the resolved
    ids and what each read returned. */
module TatpSerialProcessor {
  import opened TatpModel
  import opened TatpSchedule
  import opened TatpTransactions

  function Tables(s: Store): Store { map c | c in s && !c.HSid? && !c.Seen? :: s[c] }

  lemma TablesAdd(s: Store, e: Store)
    ensures Tables(s + e) == Tables(s) + Tables(e)
  {
  }

  class SerialProcessor {
    var db: Store
    ghost var log: Store

    ghost predicate Valid()
      reads this
    {
      db == Tables(log)
    }

    constructor (tables: Store)
      requires forall c | c in tables :: !c.HSid? && !c.Seen?
      ensures Valid() && log == tables
    {
      db := tables;
      log := tables;
    }

    /** -1 if no subscriber has the number. */
    method GetSubscriberId(ghost n: nat, ghost txn: Txn, subNbr: string) returns (ret: int)
      requires Valid() && Fits(Resolve(n, txn)) && txn.subNbr == subNbr
      modifies this`log
      ensures Valid() && log == old(log) + Effect(Resolve(n, txn), old(log)) && Sid(log, n) == ret
    {
      ghost var e := Effect(Resolve(n, txn), log);
      ret := -1;
      if SubNbr(subNbr) in db && db[SubNbr(subNbr)].Num? {
        ret := db[SubNbr(subNbr)].num;
      }
      TablesAdd(log, e);
      log := log + e;
    }

    method DeleteCallForwardingRecord(ghost n: nat, ghost txn: Txn, sId: int, sfType: int, startTime: int)
      requires Valid() && txn.DeleteCallForwarding? && txn == DeleteCallForwarding(txn.subNbr, sfType, startTime) && Sid(log, n) == sId
      modifies this
      ensures Valid() && log == old(log) + Effect(DeleteForwarding(n, txn), old(log))
    {
      ghost var e := Effect(DeleteForwarding(n, txn), log);
      var rows := ForwardingsAt(db, sId);
      if (sfType, startTime) in rows {
        db := db[Forwardings(sId) := ForwardingsV(rows - {(sfType, startTime)})];
      }
      TablesAdd(log, e);
      log := log + e;
    }

    method InsertCallForwardingRecord(
      ghost n: nat, ghost txn: Txn, sId: int, sfType: int, startTime: int, endTime: int, numberx: string)
      requires Valid() && txn.InsertCallForwarding? && txn == InsertCallForwarding(txn.subNbr, sfType, startTime, endTime, numberx)
      requires Sid(log, n) == sId
      modifies this
      ensures Valid() && log == old(log) + Effect(InsertForwarding(n, txn), old(log))
    {
      ghost var e := Effect(InsertForwarding(n, txn), log);
      var rows := ForwardingsAt(db, sId);
      if (sfType, startTime) !in rows {
        db := db[Forwardings(sId) := ForwardingsV(rows[(sfType, startTime) := (endTime, numberx)])];
      }
      TablesAdd(log, e);
      log := log + e;
    }

    method GetAccessInfo(ghost n: nat, sId: int, aiType: int) returns (found: Value)
      requires Valid()
      modifies this`log
      ensures Valid() && log == old(log) + Effect(ReadAccess(n, GetAccessData(sId, aiType)), old(log)) && Look(log, Seen(n)) == found
    {
      ghost var e := Effect(ReadAccess(n, GetAccessData(sId, aiType)), log);
      found := Look(db, AccessInfo(sId, aiType));
      TablesAdd(log, e);
      log := log + e;
    }

    method ReadSubscriberData(ghost n: nat, sId: int) returns (found: Value)
      requires Valid()
      modifies this`log
      ensures Valid() && log == old(log) + Effect(ReadSubscriber(n, GetSubscriberData(sId)), old(log)) && Look(log, Seen(n)) == found
    {
      ghost var e := Effect(ReadSubscriber(n, GetSubscriberData(sId)), log);
      found := Look(db, Subscriber(sId));
      TablesAdd(log, e);
      log := log + e;
    }

    method GetSpecialFacilitySFType(ghost n: nat, ghost txn: Txn, sId: int) returns (found: Value)
      requires Valid() && txn.InsertCallForwarding? && Sid(log, n) == sId
      modifies this`log
      ensures Valid() && log == old(log) + Effect(ReadFacilities(n, txn), old(log)) && Look(log, Seen(n)) == found
      ensures Sid(log, n) == sId
    {
      ghost var e := Effect(ReadFacilities(n, txn), log);
      found := Look(db, Facilities(sId));
      TablesAdd(log, e);
      log := log + e;
    }

    method UpdateSubscriberVLRLocation(ghost n: nat, ghost txn: Txn, sId: int, vlrLocation: int)
      requires Valid() && txn.UpdateLocation? && txn == UpdateLocation(txn.subNbr, vlrLocation) && Sid(log, n) == sId && IsSubscriber(db, sId)
      modifies this
      ensures Valid() && log == old(log) + Effect(SetLocation(n, txn), old(log))
    {
      ghost var e := Effect(SetLocation(n, txn), log);
      var row := db[Subscriber(sId)].row;
      db := db[Subscriber(sId) := SubscriberV(row.(vlrLocation := vlrLocation))];
      TablesAdd(log, e);
      log := log + e;
    }

    method UpdateSubscriberBit1(ghost n: nat, ghost txn: Txn, sId: int, bit1: int)
      requires Valid() && txn.UpdateSubscriberData? && txn == UpdateSubscriberData(sId, bit1, txn.sfType, txn.dataA)
      modifies this
      ensures Valid() && log == old(log) + Effect(SetBit1(n, txn), old(log))
    {
      ghost var e := Effect(SetBit1(n, txn), log);
      if IsSubscriber(db, sId) {
        var row := db[Subscriber(sId)].row;
        db := db[Subscriber(sId) := SubscriberV(row.(bit1 := bit1))];
      }
      TablesAdd(log, e);
      log := log + e;
    }

    method UpdateSpecialFacilityDataA(ghost n: nat, ghost txn: Txn, sId: int, sfType: int, dataA: int)
      requires Valid() && txn.UpdateSubscriberData? && txn == UpdateSubscriberData(sId, txn.bit1, sfType, dataA)
      modifies this
      ensures Valid() && log == old(log) + Effect(SetDataA(n, txn), old(log))
    {
      ghost var e := Effect(SetDataA(n, txn), log);
      var rows := FacilitiesAt(db, sId);
      if sfType in rows {
        db := db[Facilities(sId) := FacilitiesV(rows[sfType := dataA])];
      }
      TablesAdd(log, e);
      log := log + e;
    }

    // ---- Whole transactions ----

    method Process(ghost n: nat, txn: Txn)
      requires Valid() && KnownTxn(txn, log)
      modifies this
      ensures Valid() && log == After(TxnSteps(n, txn), old(log))
    {
      match txn {
        case DeleteCallForwarding(subNbr, sfType, startTime) =>
          var sId := GetSubscriberId(n, txn, subNbr);
          DeleteCallForwardingRecord(n, txn, sId, sfType, startTime);
          AfterTwo(Resolve(n, txn), DeleteForwarding(n, txn), old(log));
        case GetAccessData(sId, aiType) =>
          var _ := GetAccessInfo(n, sId, aiType);
        case GetNewDestination =>
        case GetSubscriberData(sId) =>
          var _ := ReadSubscriberData(n, sId);
        case InsertCallForwarding(subNbr, sfType, startTime, endTime, numberx) =>
          var sId := GetSubscriberId(n, txn, subNbr);
          var _ := GetSpecialFacilitySFType(n, txn, sId);
          InsertCallForwardingRecord(n, txn, sId, sfType, startTime, endTime, numberx);
          AfterThree(Resolve(n, txn), ReadFacilities(n, txn), InsertForwarding(n, txn), old(log));
        case UpdateLocation(subNbr, vlrLocation) =>
          var sId := GetSubscriberId(n, txn, subNbr);
          UpdateSubscriberVLRLocation(n, txn, sId, vlrLocation);
          AfterTwo(Resolve(n, txn), SetLocation(n, txn), old(log));
        case UpdateSubscriberData(sId, bit1, sfType, dataA) =>
          UpdateSubscriberBit1(n, txn, sId, bit1);
          UpdateSpecialFacilityDataA(n, txn, sId, sfType, dataA);
          AfterTwo(SetBit1(n, txn), SetDataA(n, txn), old(log));
      }
    }

    /** Processes the queue up to its end marker, in order. */
    method Start(queue: seq<Txn>) returns (txnCnt: nat)
      requires Valid() && Known(queue, 0, |queue|, log)
      modifies this
      ensures Valid() && log == SerialStore(queue, 0, |queue|, old(log)) && txnCnt == |queue|
    {
      txnCnt := 0;
      while txnCnt < |queue|
        invariant txnCnt <= |queue| && Valid() && Known(queue, txnCnt, |queue|, log)
        invariant After(Steps(queue, txnCnt, |queue|), log) == After(Steps(queue, 0, |queue|), old(log))
      {
        ghost var n, s := txnCnt, log;
        AfterAppend(TxnSteps(n, queue[n]), Steps(queue, n + 1, |queue|), s);
        KnownSplit(queue, n, |queue|, s, TxnSteps(n, queue[n]));
        Process(n, queue[txnCnt]);
        txnCnt := txnCnt + 1;
      }
    }
  }
}
