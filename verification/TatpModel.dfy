/** The TATP store, transactions and steps, with their footprints.
    Read-only steps write what they see into a cell of their own, so that a store that agrees
    with the serial one also tells that every read saw what it would have seen serially. */
module TatpModel {
  import opened Replay

  // ---- Transactions ----

  datatype Txn =
    | DeleteCallForwarding(subNbr: string, sfType: int, startTime: int)
    | GetAccessData(sId: int, aiType: int)
    | GetNewDestination                                  // does nothing in the processors
    | GetSubscriberData(sId: int)
    | InsertCallForwarding(subNbr: string, sfType: int, startTime: int, endTime: int, numberx: string)
    | UpdateLocation(subNbr: string, vlrLocation: int)
    | UpdateSubscriberData(sId: int, bit1: int, sfType: int, dataA: int)

  // ---- Store ----

  datatype Cell =
    | SubNbr(subNbr: string)            // the index entry that leads from sub_nbr to s_id
    | Subscriber(s: int)
    | AccessInfo(s: int, aiType: int)
    | Facilities(s: int)                // SPECIAL_FACILITY rows of a subscriber: sf_type to data_a
    | Forwardings(s: int)               // CALL_FORWARDING rows of a subscriber
    | Fault(s: int)                     // set where the code would write through a null record of id s
    | HSid(n: nat)                      // dcf_s_ids, icf_s_ids, ul_s_ids
    | Seen(n: nat)                      // what the read step of transaction n returned

  datatype SubscriberRow = SubscriberRow(bit1: int, vlrLocation: int)

  datatype Value =
    | Num(num: int)
    | SubscriberV(row: SubscriberRow)
    | FacilitiesV(dataA: map<int, int>)
    | ForwardingsV(rows: map<(int, int), (int, string)>)
    | AccessV(data: string)
    | Nothing

  type Store = map<Cell, Value>

  predicate IsSubscriber(s: Store, id: int) { Subscriber(id) in s && s[Subscriber(id)].SubscriberV? }
  function NumOr(s: Store, c: Cell, default: int): int { if c in s && s[c].Num? then s[c].num else default }
  function ForwardingsAt(s: Store, id: int): map<(int, int), (int, string)> {
    if Forwardings(id) in s && s[Forwardings(id)].ForwardingsV? then s[Forwardings(id)].rows else map[]
  }
  function FacilitiesAt(s: Store, id: int): map<int, int> {
    if Facilities(id) in s && s[Facilities(id)].FacilitiesV? then s[Facilities(id)].dataA else map[]
  }
  function Look(s: Store, c: Cell): Value { if c in s then s[c] else Nothing }
  function Sid(s: Store, n: nat): int { NumOr(s, HSid(n), -1) }

  // ---- Steps ----

  datatype Step =
    | Resolve(n: nat, txn: Txn)             // getSubscriberId
    | DeleteForwarding(n: nat, txn: Txn)
    | ReadAccess(n: nat, txn: Txn)
    | ReadSubscriber(n: nat, txn: Txn)
    | ReadFacilities(n: nat, txn: Txn)
    | InsertForwarding(n: nat, txn: Txn)
    | SetLocation(n: nat, txn: Txn)
    | SetBit1(n: nat, txn: Txn)
    | SetDataA(n: nat, txn: Txn)

  /** The transaction has the parameters that the step uses. */
  predicate Fits(op: Step) {
    match op
    case Resolve(_, t) => t.DeleteCallForwarding? || t.InsertCallForwarding? || t.UpdateLocation?
    case DeleteForwarding(_, t) => t.DeleteCallForwarding?
    case ReadAccess(_, t) => t.GetAccessData?
    case ReadSubscriber(_, t) => t.GetSubscriberData?
    case ReadFacilities(_, t) => t.InsertCallForwarding?
    case InsertForwarding(_, t) => t.InsertCallForwarding?
    case SetLocation(_, t) => t.UpdateLocation?
    case SetBit1(_, t) => t.UpdateSubscriberData?
    case SetDataA(_, t) => t.UpdateSubscriberData?
  }

  /** The subscriber that a step works on, given the ids in h. */
  function Of(h: Store, op: Step): int {
    if op.txn.GetAccessData? || op.txn.GetSubscriberData? || op.txn.UpdateSubscriberData? then op.txn.sId else Sid(h, op.n)
  }

  function Effect(op: Step, s: Store): Store {
    if !Fits(op) then map[]
    else
      var id := Of(s, op);
      match op
      case Resolve(n, t) => map[HSid(n) := Num(NumOr(s, SubNbr(t.subNbr), -1))]
      case DeleteForwarding(n, t) =>
        if (t.sfType, t.startTime) !in ForwardingsAt(s, id) then map[]
        else map[Forwardings(id) := ForwardingsV(ForwardingsAt(s, id) - {(t.sfType, t.startTime)})]
      case ReadAccess(n, t) => map[Seen(n) := Look(s, AccessInfo(id, t.aiType))]
      case ReadSubscriber(n, t) => map[Seen(n) := Look(s, Subscriber(id))]
      case ReadFacilities(n, t) => map[Seen(n) := Look(s, Facilities(id))]
      case InsertForwarding(n, t) =>
        if (t.sfType, t.startTime) in ForwardingsAt(s, id) then map[]
        else map[Forwardings(id) := ForwardingsV(ForwardingsAt(s, id)[(t.sfType, t.startTime) := (t.endTime, t.numberx)])]
      case SetLocation(n, t) =>
        if !IsSubscriber(s, id) then map[Fault(id) := Num(1)]
        else map[Subscriber(id) := SubscriberV(s[Subscriber(id)].row.(vlrLocation := t.vlrLocation))]
      case SetBit1(n, t) =>
        if !IsSubscriber(s, id) then map[]
        else map[Subscriber(id) := SubscriberV(s[Subscriber(id)].row.(bit1 := t.bit1))]
      case SetDataA(n, t) =>
        if t.sfType !in FacilitiesAt(s, id) then map[]
        else map[Facilities(id) := FacilitiesV(FacilitiesAt(s, id)[t.sfType := t.dataA])]
  }

  function After(ops: seq<Step>, s: Store): Store {
    if ops == [] then s else After(ops[1..], s + Effect(ops[0], s))
  }

  // ---- The serial order ----

  function TxnSteps(n: nat, txn: Txn): seq<Step> {
    match txn
    case DeleteCallForwarding(_, _, _) => [Resolve(n, txn), DeleteForwarding(n, txn)]
    case GetAccessData(_, _) => [ReadAccess(n, txn)]
    case GetNewDestination => []
    case GetSubscriberData(_) => [ReadSubscriber(n, txn)]
    case InsertCallForwarding(_, _, _, _, _) => [Resolve(n, txn), ReadFacilities(n, txn), InsertForwarding(n, txn)]
    case UpdateLocation(_, _) => [Resolve(n, txn), SetLocation(n, txn)]
    case UpdateSubscriberData(_, _, _, _) => [SetBit1(n, txn), SetDataA(n, txn)]
  }

  function Steps(queue: seq<Txn>, lo: nat, hi: nat): seq<Step>
    requires lo <= hi <= |queue|
    decreases hi - lo
  {
    if lo == hi then [] else TxnSteps(lo, queue[lo]) + Steps(queue, lo + 1, hi)
  }

  function Rank(op: Step): nat {
    match op
    case Resolve(_, _) => 0 case ReadAccess(_, _) => 0 case ReadSubscriber(_, _) => 0
    case ReadFacilities(_, _) => 1 case SetBit1(_, _) => 1
    case _ => 2
  }

  predicate Before(a: Step, b: Step) { a.n < b.n || (a.n == b.n && Rank(a) < Rank(b)) }

  lemma SortedJoin(p: seq<Step>, q: seq<Step>)
    requires Sorted(p, Before) && Sorted(q, Before) && forall a, b | a in p && b in q :: Before(a, b)
    ensures Sorted(p + q, Before)
  {
  }

  lemma TxnStepsListed(n: nat, txn: Txn)
    ensures Sorted(TxnSteps(n, txn), Before)
    ensures forall op :: op in TxnSteps(n, txn) <==> op.n == n && op.txn == txn && Fits(op)
  {
  }

  ghost predicate Lists(queue: seq<Txn>, lo: nat, hi: nat, ops: seq<Step>)
    requires lo <= hi <= |queue|
  {
    Sorted(ops, Before) && forall op :: op in ops <==> lo <= op.n < hi && op.txn == queue[op.n] && Fits(op)
  }

  lemma OneMoreTxn(queue: seq<Txn>, lo: nat, next: nat, hi: nat, first: seq<Step>, rest: seq<Step>, all: seq<Step>)
    requires lo < hi <= |queue| && next == lo + 1 && first == TxnSteps(lo, queue[lo]) && all == first + rest
    requires Lists(queue, next, hi, rest)
    ensures Lists(queue, lo, hi, all)
  {
    TxnStepsListed(lo, queue[lo]);
    SortedJoin(first, rest);
    assert forall op :: op in all <==> op in first || op in rest;
  }

  lemma {:induction false} TxnsListed(queue: seq<Txn>, lo: nat, hi: nat, ops: seq<Step>)
    requires lo <= hi <= |queue| && ops == Steps(queue, lo, hi)
    ensures Lists(queue, lo, hi, ops)
    decreases hi - lo
  {
    if lo < hi {
      var first, rest := TxnSteps(lo, queue[lo]), Steps(queue, lo + 1, hi);
      TxnsListed(queue, lo + 1, hi, rest);
      OneMoreTxn(queue, lo, lo + 1, hi, first, rest, ops);
    }
  }

  /** The step list of a batch is in serial order and holds exactly the steps of its transactions. */
  lemma StepsListed(queue: seq<Txn>, lo: nat, hi: nat)
    requires lo <= hi <= |queue|
    ensures Sorted(Steps(queue, lo, hi), Before)
    ensures forall op :: op in Steps(queue, lo, hi) <==> lo <= op.n < hi && op.txn == queue[op.n] && Fits(op)
  {
    TxnsListed(queue, lo, hi, Steps(queue, lo, hi));
  }

  lemma {:induction false} StepsAppend(queue: seq<Txn>, lo: nat, mid: nat, hi: nat)
    requires lo <= mid <= hi <= |queue|
    ensures Steps(queue, lo, hi) == Steps(queue, lo, mid) + Steps(queue, mid, hi)
    decreases mid - lo
  {
    if lo < mid {
      StepsAppend(queue, lo + 1, mid, hi);
      JoinedLeft(TxnSteps(lo, queue[lo]), Steps(queue, lo + 1, mid), Steps(queue, mid, hi));
    } else {
      assert Steps(queue, lo, mid) == [];
    }
  }

  // ---- Footprints ----

  function Write(h: Store, op: Step): set<Cell> {
    if !Fits(op) then {}
    else
      match op
      case Resolve(n, _) => {HSid(n)}
      case DeleteForwarding(_, _) => {Forwardings(Of(h, op))}
      case InsertForwarding(_, _) => {Forwardings(Of(h, op))}
      case SetLocation(_, _) => {Subscriber(Of(h, op)), Fault(Of(h, op))}
      case SetBit1(_, _) => {Subscriber(Of(h, op))}
      case SetDataA(_, _) => {Facilities(Of(h, op))}
      case _ => {Seen(op.n)}
  }

  function Touch(h: Store, op: Step): set<Cell> {
    if !Fits(op) then {}
    else
      match op
      case Resolve(n, t) => {HSid(n), SubNbr(t.subNbr)}
      case DeleteForwarding(n, _) => {HSid(n), Forwardings(Of(h, op))}
      case InsertForwarding(n, _) => {HSid(n), Forwardings(Of(h, op))}
      case SetLocation(n, _) => {HSid(n), Subscriber(Of(h, op)), Fault(Of(h, op))}
      case SetBit1(_, _) => {Subscriber(Of(h, op))}
      case SetDataA(_, _) => {Facilities(Of(h, op))}
      case ReadAccess(n, t) => {Seen(n), AccessInfo(Of(h, op), t.aiType)}
      case ReadSubscriber(n, _) => {Seen(n), Subscriber(Of(h, op))}
      case ReadFacilities(n, _) => {Seen(n), HSid(n), Facilities(Of(h, op))}
  }

  function Sys(h: Store): System<Step, Cell, Value> {
    System(Effect, op => Touch(h, op), op => Write(h, op))
  }

  lemma {:induction false} AfterIsRun(h: Store, ops: seq<Step>, s: Store)
    ensures Run(Sys(h), ops, s) == After(ops, s)
  {
    if ops != [] { AfterIsRun(h, ops[1..], s + Effect(ops[0], s)); }
  }

  lemma {:induction false} AfterAppend(p: seq<Step>, q: seq<Step>, s: Store)
    ensures After(p + q, s) == After(q, After(p, s))
  {
    if p == [] {
      assert p + q == q;
    } else {
      assert (p + q)[1..] == p[1..] + q;
      AfterAppend(p[1..], q, s + Effect(p[0], s));
    }
  }

  lemma TameJoin(h: Store, p: seq<Step>, q: seq<Step>, s: Store)
    requires Tame(Sys(h), p, s) && Tame(Sys(h), q, After(p, s))
    ensures Tame(Sys(h), p + q, s)
  {
    AfterIsRun(h, p, s);
    TameAppend(Sys(h), p, q, s);
  }

  /** The step finds the id that h holds. */
  predicate Fed(h: Store, op: Step, s: Store) {
    op.Resolve? || SameAt(s, h, HSid(op.n))
  }

  lemma StepLocal(h: Store, op: Step, s: Store)
    requires Fed(h, op, s)
    ensures LocalAt(Sys(h), op, s)
  {
    assert op.Resolve? || Of(s, op) == Of(h, op);
    forall t | Agree(s, t, Touch(h, op)) ensures Effect(op, t) == Effect(op, s) {
      StepReads(h, op, s, t);
    }
  }

  lemma StepReads(h: Store, op: Step, s: Store, t: Store)
    requires Fed(h, op, s) && Agree(s, t, Touch(h, op))
    ensures Effect(op, t) == Effect(op, s)
  {
    if Fits(op) {
      var id := Of(h, op);
      assert HSid(op.n) in Touch(h, op) ==> SameAt(s, t, HSid(op.n));
      assert op.Resolve? || (Of(s, op) == id && Of(t, op) == id);
      match op
      case Resolve(_, x) => assert SubNbr(x.subNbr) in Touch(h, op);
      case DeleteForwarding(_, _) => assert Forwardings(id) in Touch(h, op);
      case InsertForwarding(_, _) => assert Forwardings(id) in Touch(h, op);
      case SetLocation(_, _) => assert Subscriber(id) in Touch(h, op);
      case SetBit1(_, _) => assert Subscriber(id) in Touch(h, op);
      case SetDataA(_, _) => assert Facilities(id) in Touch(h, op);
      case ReadAccess(_, x) => assert AccessInfo(id, x.aiType) in Touch(h, op);
      case ReadSubscriber(_, _) => assert Subscriber(id) in Touch(h, op);
      case ReadFacilities(_, _) => assert Facilities(id) in Touch(h, op);
    }
  }
}
