/** Replay of a serial run in another order.
    A store is a map from cells to values.  A step adds its effect, a small map, to the
    store.  The footprint of a step (the cells it touches and the cells it writes) need
    only be right at the states the serial run passes through. */
module Replay {

  datatype Option<+T> = None | Some(value: T)

  datatype System<!Op, !C, !V> = System(
    eff: (Op, map<C, V>) -> map<C, V>,
    touch: Op -> set<C>,
    write: Op -> set<C>)

  function Exec<Op, C, V>(sys: System<Op, C, V>, op: Op, s: map<C, V>): map<C, V> {
    s + sys.eff(op, s)
  }

  function Run<Op, C, V>(sys: System<Op, C, V>, ops: seq<Op>, s: map<C, V>): map<C, V> {
    if ops == [] then s else Run(sys, ops[1..], Exec(sys, ops[0], s))
  }

  /** The two stores hold the same, or both nothing, in every one of the cells. */
  ghost predicate Agree<C(!new), V>(s: map<C, V>, t: map<C, V>, cells: set<C>) {
    forall c | c in cells :: SameAt(s, t, c)
  }

  predicate SameAt<C, V(==)>(s: map<C, V>, t: map<C, V>, c: C) {
    (c in s <==> c in t) && (c in s ==> s[c] == t[c])
  }

  /** At s the step writes only its declared cells, and on every store that agrees with
      s on the declared touched cells it has the same effect. */
  ghost predicate LocalAt<Op, C(!new), V(!new)>(sys: System<Op, C, V>, op: Op, s: map<C, V>) {
    && sys.eff(op, s).Keys <= sys.write(op)
    && forall t :: Agree(s, t, sys.touch(op)) ==> sys.eff(op, t) == sys.eff(op, s)
  }

  /** Every step of the run is local at the state it runs in. */
  ghost predicate Tame<Op, C(!new), V(!new)>(sys: System<Op, C, V>, ops: seq<Op>, s: map<C, V>) {
    ops != [] ==> LocalAt(sys, ops[0], s) && Tame(sys, ops[1..], Exec(sys, ops[0], s))
  }

  ghost predicate Indep<Op, C, V>(sys: System<Op, C, V>, a: Op, b: Op) {
    sys.write(a) !! sys.touch(b) && sys.write(b) !! sys.touch(a) && sys.write(a) !! sys.write(b)
  }

  ghost predicate Sorted<Op>(ops: seq<Op>, before: (Op, Op) -> bool) {
    forall i, j | 0 <= i < j < |ops| :: before(ops[i], ops[j])
  }

  /** No two dependent steps stand in the order opposite to `before`. */
  ghost predicate NoInversion<Op, C, V>(sys: System<Op, C, V>, ops: seq<Op>, before: (Op, Op) -> bool) {
    forall i, j | 0 <= i < j < |ops| :: before(ops[j], ops[i]) ==> Indep(sys, ops[i], ops[j])
  }

  ghost predicate Carries(holds: nat -> bool, n: nat) { holds(n) ==> holds(n + 1) }

  /** Induction over a range of positions. */
  lemma {:induction false} Stepwise(holds: nat -> bool, lo: nat, hi: nat)
    requires lo <= hi && holds(lo)
    requires forall n: nat | lo <= n < hi :: Carries(holds, n)
    ensures holds(hi)
    decreases hi
  {
    if lo < hi {
      Stepwise(holds, lo, hi - 1);
      assert Carries(holds, hi - 1);
    }
  }

  lemma JoinedLeft<T>(a: seq<T>, b: seq<T>, c: seq<T>)
    ensures a + b + c == a + (b + c)
  {
  }

  lemma {:induction false} RunAppend<Op, C, V>(sys: System<Op, C, V>, p: seq<Op>, q: seq<Op>, s: map<C, V>)
    ensures Run(sys, p + q, s) == Run(sys, q, Run(sys, p, s))
  {
    if p == [] {
      assert p + q == q;
    } else {
      assert (p + q)[1..] == p[1..] + q;
      RunAppend(sys, p[1..], q, Exec(sys, p[0], s));
    }
  }

  lemma {:induction false} TameAppend<Op, C(!new), V(!new)>(sys: System<Op, C, V>, p: seq<Op>, q: seq<Op>, s: map<C, V>)
    ensures Tame(sys, p + q, s) <==> Tame(sys, p, s) && Tame(sys, q, Run(sys, p, s))
  {
    if p == [] {
      assert p + q == q;
    } else {
      assert (p + q)[1..] == p[1..] + q;
      TameAppend(sys, p[1..], q, Exec(sys, p[0], s));
    }
  }

  /** A cell that no step of a tame run writes keeps its content. */
  lemma {:induction false} TameFrame<Op, C(!new), V(!new)>(sys: System<Op, C, V>, ops: seq<Op>, s: map<C, V>, c: C)
    requires Tame(sys, ops, s)
    requires forall op | op in ops :: c !in sys.write(op)
    ensures SameAt(s, Run(sys, ops, s), c)
  {
    if ops != [] {
      TameFrame(sys, ops[1..], Exec(sys, ops[0], s), c);
    }
  }

  lemma LocalTransfer<Op, C(!new), V(!new)>(sys: System<Op, C, V>, op: Op, s: map<C, V>, t: map<C, V>)
    requires LocalAt(sys, op, s) && Agree(s, t, sys.touch(op))
    ensures LocalAt(sys, op, t) && sys.eff(op, t) == sys.eff(op, s)
  {
    forall u | Agree(t, u, sys.touch(op)) ensures sys.eff(op, u) == sys.eff(op, t) {
      assert Agree(s, u, sys.touch(op)) by {
        forall c | c in sys.touch(op) ensures SameAt(s, u, c) {
          assert SameAt(s, t, c) && SameAt(t, u, c);
        }
      }
    }
  }

  /** Independent local steps can be exchanged, and each stays local where it lands. */
  lemma Swap<Op, C(!new), V(!new)>(sys: System<Op, C, V>, a: Op, b: Op, s: map<C, V>)
    requires LocalAt(sys, a, s) && LocalAt(sys, b, Exec(sys, a, s)) && Indep(sys, a, b)
    ensures LocalAt(sys, b, s) && LocalAt(sys, a, Exec(sys, b, s))
    ensures Exec(sys, a, Exec(sys, b, s)) == Exec(sys, b, Exec(sys, a, s))
  {
    LocalTransfer(sys, b, Exec(sys, a, s), s);
    LocalTransfer(sys, a, s, Exec(sys, b, s));
  }

  lemma {:induction false} MoveToFront<Op, C(!new), V(!new)>(sys: System<Op, C, V>, p: seq<Op>, a: Op, s: map<C, V>)
    requires LocalAt(sys, a, s) && Tame(sys, p, Exec(sys, a, s))
    requires forall b | b in p :: Indep(sys, a, b)
    ensures Tame(sys, p + [a], s)
    ensures Run(sys, p + [a], s) == Run(sys, p, Exec(sys, a, s))
  {
    if p == [] {
      assert p + [a] == [a];
      assert Run(sys, [a], s) == Run(sys, [], Exec(sys, a, s));
    } else {
      var b := p[0];
      Swap(sys, a, b, s);
      MoveToFront(sys, p[1..], a, Exec(sys, b, s));
      assert (p + [a])[1..] == p[1..] + [a];
    }
  }

  /** Taking one step out leaves no inversion behind. */
  lemma DropKeepsOrder<Op, C, V>(sys: System<Op, C, V>, p: seq<Op>, a: Op, q: seq<Op>, before: (Op, Op) -> bool)
    requires NoInversion(sys, p + [a] + q, before)
    ensures NoInversion(sys, p + q, before)
  {
    var all, rest := p + [a] + q, p + q;
    forall i, j | 0 <= i < j < |rest| && before(rest[j], rest[i])
      ensures Indep(sys, rest[i], rest[j])
    {
      var i', j' := if i < |p| then i else i + 1, if j < |p| then j else j + 1;
      assert rest[i] == all[i'] && rest[j] == all[j'];
    }
  }

  /** What stands before the serially first step is independent of it. */
  lemma PassedOverIsIndependent<Op, C, V>(
      sys: System<Op, C, V>, serial: seq<Op>, p: seq<Op>, q: seq<Op>, before: (Op, Op) -> bool, b: Op)
    requires serial != [] && Sorted(serial, before) && b in p
    requires NoInversion(sys, p + [serial[0]] + q, before)
    requires multiset(p + q) == multiset(serial[1..])
    ensures Indep(sys, serial[0], b)
  {
    var all := p + [serial[0]] + q;
    var i :| 0 <= i < |p| && p[i] == b;
    assert b in multiset(p + q);
    var j :| 0 <= j < |serial[1..]| && serial[1..][j] == b;
    assert before(serial[0], serial[j + 1]);
    assert all[i] == b && all[|p|] == serial[0];
  }

  lemma SplitAround<Op>(serial: seq<Op>, other: seq<Op>) returns (p: seq<Op>, q: seq<Op>)
    requires serial != [] && multiset(other) == multiset(serial)
    ensures other == p + [serial[0]] + q && multiset(p + q) == multiset(serial[1..])
  {
    assert serial == [serial[0]] + serial[1..];
    assert serial[0] in multiset(other);
    var k :| 0 <= k < |other| && other[k] == serial[0];
    p, q := other[..k], other[k + 1..];
    assert other == p + [serial[0]] + q;
    assert multiset(p + q) + multiset{serial[0]} == multiset(other);
    assert multiset(serial[1..]) + multiset{serial[0]} == multiset(serial);
    assert multiset(p + q) == multiset(other) - multiset{serial[0]};
  }

  /** THE REPLAY THEOREM.  A rearrangement of a tame serial run that exchanges no
      dependent pair is itself tame and ends in the same store. */
  lemma {:induction false} ReplayTheorem<Op, C(!new), V(!new)>(
      sys: System<Op, C, V>, serial: seq<Op>, other: seq<Op>, before: (Op, Op) -> bool, s: map<C, V>)
    requires Tame(sys, serial, s) && Sorted(serial, before)
    requires multiset(other) == multiset(serial) && NoInversion(sys, other, before)
    ensures Tame(sys, other, s) && Run(sys, other, s) == Run(sys, serial, s)
    decreases |serial|
  {
    if serial == [] {
      assert |multiset(other)| == |other|;
      assert other == [];
    } else {
      var a := serial[0];
      var p, q := SplitAround(serial, other);
      var s' := Exec(sys, a, s);
      DropKeepsOrder(sys, p, a, q, before);
      ReplayTheorem(sys, serial[1..], p + q, before, s');
      TameAppend(sys, p, q, s');
      RunAppend(sys, p, q, s');
      forall b | b in p ensures Indep(sys, a, b) {
        PassedOverIsIndependent(sys, serial, p, q, before, b);
      }
      MoveToFront(sys, p, a, s);
      TameAppend(sys, p + [a], q, s);
      RunAppend(sys, p + [a], q, s);
    }
  }
}
