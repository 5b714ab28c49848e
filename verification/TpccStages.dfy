/** A delivery as the serial code runs it: stage by stage over all districts, with maps that
    are walked in any order.  It ends as the district-by-district order of the steps does. */
module TpccStages {
  import opened Replay
  import opened ForkJoin
  import opened TpccModel
  import opened TpccFootprint
  import opened TpccInvariant
  import opened TpccSerialRun
  import opened TpccSchedule

  /** Sub-transaction 1 of a delivery, for districts d and up. */
  function Stage1(n: nat, p: DeliveryParam, d: nat): seq<Step>
    decreases p, DISTRICTS_PER_WAREHOUSE - d
  {
    if d > DISTRICTS_PER_WAREHOUSE then [] else [Delivery1(n, p, d)] + Stage1(n, p, d + 1)
  }

  function Stage2(n: nat, p: DeliveryParam, order: seq<int>): seq<Step> {
    seq(|order|, i requires 0 <= i < |order| => Delivery2(n, p, order[i]))
  }

  function Stage3(n: nat, p: DeliveryParam, order: seq<int>): seq<Step> {
    seq(|order|, i requires 0 <= i < |order| => Delivery3(n, p, order[i]))
  }

  function Stage4(n: nat, p: DeliveryParam, order: seq<int>): seq<Step> {
    seq(|order|, i requires 0 <= i < |order| => Delivery4(n, p, order[i]))
  }

  /** An order in which an unordered map can be walked. */
  ghost predicate Walks(order: seq<int>, keys: set<int>) {
    Distinct(order) && forall d :: d in order <==> d in keys
  }

  lemma WalkInside(order: seq<int>, keys: set<int>)
    requires Walks(order, keys)
    ensures forall i | 0 <= i < |order| :: order[i] in keys
  {
    forall i | 0 <= i < |order| ensures order[i] in keys {
      var d := order[i];
      assert d in order;
    }
  }

  /** Steps of one delivery, those of each district in their own order. */
  ghost predicate DistrictWise(n: nat, p: DeliveryParam, ops: seq<Step>) {
    && (forall op | op in ops :: StepOf(op, n, Delivery(p)))
    && (forall i, j | 0 <= i < j < |ops| :: Major(ops[i]) == Major(ops[j]) ==> Minor(ops[i]) < Minor(ops[j]))
  }

  lemma DistrictsIndependent(h: Store, n: nat, p: DeliveryParam, a: Step, b: Step)
    requires StepOf(a, n, Delivery(p)) && StepOf(b, n, Delivery(p)) && a.d != b.d
    ensures Indep(Sys(h), a, b)
  {
    WriteTouches(h, a);
    WriteTouches(h, b);
    forall c | c in Touch(h, a) ensures c !in Touch(h, b) {
      TouchWithin(h, a, c);
      if c in Touch(h, b) { TouchWithin(h, b, c); }
    }
  }

  lemma DistrictWiseNoInversion(h: Store, n: nat, p: DeliveryParam, ops: seq<Step>)
    requires DistrictWise(n, p, ops)
    ensures NoInversion(Sys(h), ops, Before)
  {
    forall i, j | 0 <= i < j < |ops| && Before(ops[j], ops[i]) ensures Indep(Sys(h), ops[i], ops[j]) {
      assert ops[i] in ops && ops[j] in ops;
      DistrictsIndependent(h, n, p, ops[i], ops[j]);
    }
  }

  /** The footprint design of one delivery; the parallel configuration plays no part in it. */
  function OneDelivery(h: Store): Design<Step, Group, Cell, Value> {
    BatchDesign(Config(1, 0, _ => 0), h)
  }

  predicate IsDone(h: Store, n: nat, p: DeliveryParam, op: Step) {
    StepOf(op, n, Delivery(p)) && (op.Delivery1? || Delivered(h, n, op.d))
  }

  lemma Rearranged(h: Store, d: Design<Step, Group, Cell, Value>, ops: seq<Step>, other: seq<Step>, s: Store)
    requires d.sys == Sys(h) && d.before == Before
    requires Tame(Sys(h), ops, s) && Sorted(ops, Before)
    requires forall a, b :: Before(a, b) ==> a != b
    requires forall op | op in ops && d.home(op).None? :: d.sys.write(op) == {}
    requires Distinct(other) && NoInversion(Sys(h), other, Before)
    requires forall op :: op in other <==> op in ops && d.home(op).Some?
    ensures After(other, s) == After(ops, s)
  {
    var serial := Remaining(d, ops, []);
    RemainingFilters(d, ops, []);
    DropIdle(d, ops, s);
    assert Distinct(serial);
    SameMembers(other, serial);
    ReplayTheorem(Sys(h), serial, other, Before, s);
    AfterIsRun(h, other, s);
    AfterIsRun(h, ops, s);
  }

  lemma DistrictWiseDistinct(n: nat, p: DeliveryParam, ops: seq<Step>)
    requires DistrictWise(n, p, ops)
    ensures Distinct(ops)
  {
  }

  lemma DoneIsHoused(h: Store, n: nat, p: DeliveryParam, op: Step)
    requires StepOf(op, n, Delivery(p))
    ensures OneDelivery(h).home(op).Some? <==> IsDone(h, n, p, op)
    ensures OneDelivery(h).home(op).None? ==> Write(h, op) == {}
  {
  }

  /** Any district-wise order of the steps that a delivery performs ends in the same store. */
  lemma RearrangedDelivery(k: Scale, h: Store, n: nat, p: DeliveryParam, s: Store, other: seq<Step>)
    requires Consistent(k, s) && ValidTxn(k, Delivery(p)) && FreshFor(s, n)
    requires h == After(DeliverySteps(n, p, 1), s)
    requires DistrictWise(n, p, other) && forall op :: op in other <==> IsDone(h, n, p, op)
    ensures After(other, s) == h
  {
    var ops := DeliverySteps(n, p, 1);
    assert Tame(Sys(h), ops, s) by {
      TxnKeeps(k, h, n, Delivery(p), s);
      assert SameHandovers(h, h, n);
    }
    DeliveryStepsListed(n, p, 1);
    DistrictWiseDistinct(n, p, other);
    forall op | StepOf(op, n, Delivery(p))
      ensures (OneDelivery(h).home(op).Some? <==> IsDone(h, n, p, op)) && (OneDelivery(h).home(op).None? ==> Write(h, op) == {})
    {
      DoneIsHoused(h, n, p, op);
    }
    DistrictWiseNoInversion(h, n, p, other);
    Rearranged(h, OneDelivery(h), ops, other, s);
  }

  lemma {:induction false} Stage1Listed(n: nat, p: DeliveryParam, d: nat)
    requires 1 <= d
    ensures forall op :: op in Stage1(n, p, d) <==> StepOf(op, n, Delivery(p)) && op.Delivery1? && op.d >= d
    ensures forall i, j | 0 <= i < j < |Stage1(n, p, d)| :: Major(Stage1(n, p, d)[i]) < Major(Stage1(n, p, d)[j])
    decreases DISTRICTS_PER_WAREHOUSE - d
  {
    if d <= DISTRICTS_PER_WAREHOUSE {
      Stage1Listed(n, p, d + 1);
    }
  }

  /** The first stage, followed by whatever else the delivery performs in serial order. */
  lemma FirstStageFirst(h: Store, n: nat, p: DeliveryParam) returns (rest: seq<Step>)
    ensures Sorted(rest, Before) && forall op | op in rest :: StepOf(op, n, Delivery(p)) && !op.Delivery1?
    ensures forall op :: op in Stage1(n, p, 1) + rest <==> IsDone(h, n, p, op)
  {
    var first := Stage1(n, p, 1);
    rest := Remaining(OneDelivery(h), DeliverySteps(n, p, 1), first);
    Stage1Listed(n, p, 1);
    DeliveryStepsListed(n, p, 1);
    RemainingFilters(OneDelivery(h), DeliverySteps(n, p, 1), first);
    forall op ensures op in first + rest <==> IsDone(h, n, p, op) {
      assert op in first + rest <==> op in first || op in rest;
      if StepOf(op, n, Delivery(p)) { DoneIsHoused(h, n, p, op); }
    }
  }

  /** What the first stage hands over is what the whole delivery hands over. */
  lemma Stage1Handovers(k: Scale, h: Store, n: nat, p: DeliveryParam, s: Store)
    requires Consistent(k, s) && ValidTxn(k, Delivery(p)) && FreshFor(s, n)
    requires h == After(DeliverySteps(n, p, 1), s)
    ensures forall d :: SameAt(After(Stage1(n, p, 1), s), h, HNoId(n, d))
  {
    var rest := FirstStageFirst(h, n, p);
    FirstStageWise(h, n, p, rest);
    RearrangedDelivery(k, h, n, p, s, Stage1(n, p, 1) + rest);
    RestHandsNoIds(n, Stage1(n, p, 1), rest, s);
  }

  lemma FirstStageWise(h: Store, n: nat, p: DeliveryParam, rest: seq<Step>)
    requires Sorted(rest, Before) && forall op | op in rest :: StepOf(op, n, Delivery(p)) && !op.Delivery1?
    ensures DistrictWise(n, p, Stage1(n, p, 1) + rest)
  {
    Stage1Listed(n, p, 1);
    Stage1ThenRest(n, p, Stage1(n, p, 1), rest);
  }

  lemma RestHandsNoIds(n: nat, first: seq<Step>, rest: seq<Step>, s: Store)
    requires forall op | op in rest :: !op.Delivery1?
    ensures forall d :: SameAt(After(first, s), After(first + rest, s), HNoId(n, d))
  {
    AfterAppend(first, rest, s);
    forall d ensures SameAt(After(first, s), After(first + rest, s), HNoId(n, d)) {
      AfterFrame(rest, After(first, s), HNoId(n, d));
    }
  }

  lemma Stage1ThenRest(n: nat, p: DeliveryParam, first: seq<Step>, rest: seq<Step>)
    requires forall op | op in first + rest :: StepOf(op, n, Delivery(p))
    requires forall op | op in first :: op.Delivery1?
    requires forall i, j | 0 <= i < j < |first| :: Major(first[i]) < Major(first[j])
    requires Sorted(rest, Before) && forall op | op in rest :: !op.Delivery1?
    ensures DistrictWise(n, p, first + rest)
  {
    var all, m := first + rest, |first|;
    forall i, j | 0 <= i < j < |all| && Major(all[i]) == Major(all[j]) ensures Minor(all[i]) < Minor(all[j]) {
      if i < m {
        assert all[i] in first && all[j] in all;
        if j >= m { assert all[j] == rest[j - m] && all[j] in rest; }
      } else {
        assert all[i] in all && all[j] in all;
        assert Before(rest[i - m], rest[j - m]);
      }
    }
  }

  /** THE SERIAL ORDER OF STEPS.  The code runs a delivery stage by stage and walks its maps
      in an order of the library's choosing; the result is that of district by district. */
  lemma StagesAreSerial(k: Scale, n: nat, p: DeliveryParam, s: Store, o2: seq<int>, o3: seq<int>, o4: seq<int>, keys: set<int>)
    requires Consistent(k, s) && ValidTxn(k, Delivery(p)) && FreshFor(s, n)
    requires forall d :: d in keys <==> 1 <= d <= DISTRICTS_PER_WAREHOUSE && Delivered(After(Stage1(n, p, 1), s), n, d)
    requires Walks(o2, keys) && Walks(o3, keys) && Walks(o4, keys)
    ensures After(Stage1(n, p, 1) + Stage2(n, p, o2) + Stage3(n, p, o3) + Stage4(n, p, o4), s) == After(DeliverySteps(n, p, 1), s)
  {
    var h := After(DeliverySteps(n, p, 1), s);
    var s1, s2, s3, s4 := Stage1(n, p, 1), Stage2(n, p, o2), Stage3(n, p, o3), Stage4(n, p, o4);
    Stage1Handovers(k, h, n, p, s);
    Stage1Listed(n, p, 1);
    forall d ensures d in keys <==> 1 <= d <= DISTRICTS_PER_WAREHOUSE && Delivered(h, n, d) {
      assert SameAt(After(s1, s), h, HNoId(n, d));
    }
    StagesListed(h, n, p, o2, o3, o4, keys);
    StagesDistrictWise(n, p, o2, o3, o4, keys);
    RearrangedDelivery(k, h, n, p, s, s1 + s2 + s3 + s4);
  }

  lemma StagesListed(h: Store, n: nat, p: DeliveryParam, o2: seq<int>, o3: seq<int>, o4: seq<int>, keys: set<int>)
    requires forall d :: d in keys <==> 1 <= d <= DISTRICTS_PER_WAREHOUSE && Delivered(h, n, d)
    requires Walks(o2, keys) && Walks(o3, keys) && Walks(o4, keys)
    ensures forall op :: op in Stage1(n, p, 1) + Stage2(n, p, o2) + Stage3(n, p, o3) + Stage4(n, p, o4) <==> IsDone(h, n, p, op)
  {
    Stage1Listed(n, p, 1);
    MapStagesListed(n, p, o2, keys);
    MapStagesListed(n, p, o3, keys);
    MapStagesListed(n, p, o4, keys);
    FourParts(Stage1(n, p, 1), Stage2(n, p, o2), Stage3(n, p, o3), Stage4(n, p, o4));
  }

  lemma FourParts<T>(a: seq<T>, b: seq<T>, c: seq<T>, e: seq<T>)
    ensures forall x :: x in a + b + c + e <==> x in a || x in b || x in c || x in e
  {
  }

  lemma MapStagesListed(n: nat, p: DeliveryParam, order: seq<int>, keys: set<int>)
    requires Walks(order, keys)
    ensures forall op :: op in Stage2(n, p, order) <==> op.Delivery2? && op.n == n && op.dp == p && op.d in keys
    ensures forall op :: op in Stage3(n, p, order) <==> op.Delivery3? && op.n == n && op.dp == p && op.d in keys
    ensures forall op :: op in Stage4(n, p, order) <==> op.Delivery4? && op.n == n && op.dp == p && op.d in keys
  {
    WalkInside(order, keys);
    forall d | d in keys
      ensures Delivery2(n, p, d) in Stage2(n, p, order)
      ensures Delivery3(n, p, d) in Stage3(n, p, order)
      ensures Delivery4(n, p, d) in Stage4(n, p, order)
    {
      assert d in order;
      var i :| 0 <= i < |order| && order[i] == d;
      assert Stage2(n, p, order)[i] == Delivery2(n, p, d);
      assert Stage3(n, p, order)[i] == Delivery3(n, p, d);
      assert Stage4(n, p, order)[i] == Delivery4(n, p, d);
    }
  }

  lemma StagesDistrictWise(n: nat, p: DeliveryParam, o2: seq<int>, o3: seq<int>, o4: seq<int>, keys: set<int>)
    requires forall d | d in keys :: 1 <= d <= DISTRICTS_PER_WAREHOUSE
    requires Walks(o2, keys) && Walks(o3, keys) && Walks(o4, keys)
    ensures DistrictWise(n, p, Stage1(n, p, 1) + Stage2(n, p, o2) + Stage3(n, p, o3) + Stage4(n, p, o4))
  {
    Stage1Listed(n, p, 1);
    var s1, s2, s3, s4 := Stage1(n, p, 1), Stage2(n, p, o2), Stage3(n, p, o3), Stage4(n, p, o4);
    StageWise(n, p, s1, 1);
    MapStagesWise(n, p, o2, keys);
    MapStagesWise(n, p, o3, keys);
    MapStagesWise(n, p, o4, keys);
    JoinWise(n, p, s1, s2, 2);
    JoinWise(n, p, s1 + s2, s3, 3);
    JoinWise(n, p, s1 + s2 + s3, s4, 4);
  }

  lemma MapStagesWise(n: nat, p: DeliveryParam, order: seq<int>, keys: set<int>)
    requires forall d | d in keys :: 1 <= d <= DISTRICTS_PER_WAREHOUSE
    requires Walks(order, keys)
    ensures DistrictWise(n, p, Stage2(n, p, order)) && forall op | op in Stage2(n, p, order) :: Minor(op) == 2
    ensures DistrictWise(n, p, Stage3(n, p, order)) && forall op | op in Stage3(n, p, order) :: Minor(op) == 3
    ensures DistrictWise(n, p, Stage4(n, p, order)) && forall op | op in Stage4(n, p, order) :: Minor(op) == 4
  {
    WalkInside(order, keys);
    StageWise(n, p, Stage2(n, p, order), 2);
    StageWise(n, p, Stage3(n, p, order), 3);
    StageWise(n, p, Stage4(n, p, order), 4);
  }

  lemma StageWise(n: nat, p: DeliveryParam, ops: seq<Step>, minor: int)
    requires forall op | op in ops :: StepOf(op, n, Delivery(p)) && Minor(op) == minor
    requires forall i, j | 0 <= i < j < |ops| :: Major(ops[i]) != Major(ops[j])
    ensures DistrictWise(n, p, ops)
  {
  }

  lemma JoinWise(n: nat, p: DeliveryParam, a: seq<Step>, b: seq<Step>, minor: int)
    requires DistrictWise(n, p, a) && DistrictWise(n, p, b)
    requires (forall op | op in a :: Minor(op) < minor) && forall op | op in b :: Minor(op) == minor
    ensures DistrictWise(n, p, a + b)
  {
    var all, m := a + b, |a|;
    forall i, j | 0 <= i < j < |all| ensures Major(all[i]) == Major(all[j]) ==> Minor(all[i]) < Minor(all[j]) {
      if i < m {
        assert all[i] in a;
        if j >= m { assert all[j] == b[j - m] && all[j] in b; }
      } else {
        assert all[i] == b[i - m] && all[j] == b[j - m];
      }
    }
  }
}
