/** The pairwise gravitation pass: every unordered pair of the gravitating list attracts once
    per tick, with equal and opposite forces. */
module Gravity {
  import opened Geometry
  import opened Bodies

  /** The attraction between two bodies for a gravitational constant: the vector the tick
      computes as `normalise(d) * G m1 m2 / |d|^2` with `d` from the first body to the second.
      The square root behind the normalisation is not modelled, so the law is a parameter. */
  type PairLaw = (Particle, Particle, real) -> Vec

  // ---------------------------------------------------------------- the pairs, in loop order

  /** The inner loop's pairs for row i, up to but excluding column j: (i, i+1), ..., (i, j-1). */
  function Row(i: nat, j: nat): seq<(nat, nat)>
  {
    if j <= i + 1 then [] else Row(i, j - 1) + [(i, j - 1)]
  }

  /** The pairs of the first i rows of the nested loop over n bodies. */
  function PairsBefore(n: nat, i: nat): seq<(nat, nat)>
  {
    if i == 0 then [] else PairsBefore(n, i - 1) + Row(i - 1, n)
  }

  /** Every pair the nested loop over n bodies visits, in visiting order. */
  function Pairs(n: nat): seq<(nat, nat)>
  {
    PairsBefore(n, n)
  }

  predicate LexLess(p: (nat, nat), q: (nat, nat))
  {
    p.0 < q.0 || (p.0 == q.0 && p.1 < q.1)
  }

  predicate StrictlyOrdered(s: seq<(nat, nat)>)
  {
    forall a, b :: 0 <= a < b < |s| ==> LexLess(s[a], s[b])
  }

  lemma {:induction false} RowSpec(i: nat, j: nat)
    ensures |Row(i, j)| == if j > i then j - i - 1 else 0
    ensures forall k :: 0 <= k < |Row(i, j)| ==> Row(i, j)[k] == (i, i + 1 + k)
  {
    if j > i + 1 {
      RowSpec(i, j - 1);
    }
  }

  lemma CountStep(n: int, i: int)
    ensures i * (2 * n - i - 1) == (i - 1) * (2 * n - (i - 1) - 1) + 2 * (n - i)
  {
  }

  /** Column j of row i comes right after the columns before it. `next` stands for j + 1, so
      that a loop can state the step right after `j := j + 1` without the verifier re-deriving
      the row at the incremented index. */
  lemma RowSnoc(done: seq<(nat, nat)>, i: nat, j: nat, next: nat)
    requires i < j && next == j + 1
    ensures done + Row(i, next) == done + Row(i, j) + [(i, j)]
  {
    assert Row(i, next) == Row(i, j) + [(i, j)];
  }

  lemma {:induction false} PairsBeforeCount(n: nat, i: nat)
    requires i <= n
    ensures 2 * |PairsBefore(n, i)| == i * (2 * n - i - 1)
  {
    if i > 0 {
      var m := i - 1;
      PairsBeforeCount(n, m);
      RowSpec(m, n);
      assert |PairsBefore(n, i)| == |PairsBefore(n, m)| + (n - i);
      CountStep(n, i);
    }
  }

  lemma RowMembers(i: nat, n: nat)
    ensures forall p :: p in Row(i, n) <==> p.0 == i && i < p.1 < n
  {
    RowSpec(i, n);
    forall p: (nat, nat) | p.0 == i && i < p.1 < n ensures p in Row(i, n) {
      assert Row(i, n)[p.1 - i - 1] == p;
    }
  }

  lemma {:induction false} PairsBeforeMembers(n: nat, i: nat)
    ensures forall p :: p in PairsBefore(n, i) <==> p.0 < i && p.0 < p.1 < n
  {
    if i > 0 {
      PairsBeforeMembers(n, i - 1);
      RowMembers(i - 1, n);
      var a, r := PairsBefore(n, i - 1), Row(i - 1, n);
      assert PairsBefore(n, i) == a + r;
      forall p: (nat, nat) ensures p in a + r <==> p.0 < i && p.0 < p.1 < n {
        assert p in a + r <==> p in a || p in r;
        assert p in a <==> p.0 < i - 1 && p.0 < p.1 < n;
        assert p in r <==> p.0 == i - 1 && i - 1 < p.1 < n;
      }
    }
  }

  /** Two ordered runs, every element of the first before every element of the second,
      make an ordered run. */
  lemma ConcatOrdered(a: seq<(nat, nat)>, r: seq<(nat, nat)>)
    requires StrictlyOrdered(a) && StrictlyOrdered(r)
    requires forall x, y :: x in a && y in r ==> LexLess(x, y)
    ensures StrictlyOrdered(a + r)
  {
    forall x, y | 0 <= x < y < |a + r| ensures LexLess((a + r)[x], (a + r)[y]) {
      if y < |a| {
        assert (a + r)[x] == a[x] && (a + r)[y] == a[y];
      } else if x >= |a| {
        assert (a + r)[x] == r[x - |a|] && (a + r)[y] == r[y - |a|];
      } else {
        assert (a + r)[x] == a[x] && a[x] in a;
        assert (a + r)[y] == r[y - |a|] && r[y - |a|] in r;
      }
    }
  }

  lemma RowOrdered(i: nat, n: nat)
    ensures StrictlyOrdered(Row(i, n))
  {
    RowSpec(i, n);
  }

  lemma {:induction false} PairsBeforeOrdered(n: nat, i: nat)
    ensures StrictlyOrdered(PairsBefore(n, i))
  {
    if i > 0 {
      var a, r := PairsBefore(n, i - 1), Row(i - 1, n);
      assert PairsBefore(n, i) == a + r;
      PairsBeforeOrdered(n, i - 1);
      PairsBeforeMembers(n, i - 1);
      RowMembers(i - 1, n);
      RowOrdered(i - 1, n);
      ConcatOrdered(a, r);
    }
  }

  /** The nested loop visits each unordered pair i < j of n bodies exactly once, n(n-1)/2 in
      all, and never pairs a body with itself. */
  lemma PairsSpec(n: nat)
    ensures 2 * |Pairs(n)| == n * (n - 1)
    ensures forall p :: p in Pairs(n) <==> p.0 < p.1 < n
    ensures forall a, b :: 0 <= a < b < |Pairs(n)| ==> Pairs(n)[a] != Pairs(n)[b]
  {
    PairsBeforeCount(n, n);
    PairsBeforeMembers(n, n);
    PairsBeforeOrdered(n, n);
  }

  // ---------------------------------------------------------------- force accounting

  /** One call of the law on pair p: its force added to the first body and its negation to the
      second, one after the other. */
  function Step(forces: seq<Vec>, ps: seq<Particle>, g: real, law: PairLaw, p: (nat, nat)): seq<Vec>
  {
    if p.0 < |forces| && p.1 < |forces| && p.0 < |ps| && p.1 < |ps| then
      var f := law(ps[p.0], ps[p.1], g);
      var first := forces[p.0 := Add(forces[p.0], f)];
      first[p.1 := Add(first[p.1], Neg(f))]
    else forces
  }

  /** The force accumulators after the law has been applied to each of `pairs`, in order. */
  function ApplyPairs(forces: seq<Vec>, ps: seq<Particle>, g: real, law: PairLaw, pairs: seq<(nat, nat)>): seq<Vec>
  {
    if pairs == [] then forces
    else Step(ApplyPairs(forces, ps, g, law, pairs[..|pairs| - 1]), ps, g, law, pairs[|pairs| - 1])
  }

  /** A step on two distinct bodies adds f to the first, -f to the second and nothing else. */
  lemma StepSpec(forces: seq<Vec>, ps: seq<Particle>, g: real, law: PairLaw, i: nat, j: nat)
    requires i < j < |forces| && j < |ps|
    ensures |Step(forces, ps, g, law, (i, j))| == |forces|
    ensures Step(forces, ps, g, law, (i, j))[i] == Add(forces[i], law(ps[i], ps[j], g))
    ensures Step(forces, ps, g, law, (i, j))[j] == Add(forces[j], Neg(law(ps[i], ps[j], g)))
    ensures forall k :: 0 <= k < |forces| && k != i && k != j ==> Step(forces, ps, g, law, (i, j))[k] == forces[k]
  {
  }

  /** Newton's third law for the whole pass: whatever the law and the pairs, gravitation adds
      forces that sum to zero over all bodies. */
  lemma {:induction false} GravityConservesMomentum(forces: seq<Vec>, ps: seq<Particle>, g: real, law: PairLaw, pairs: seq<(nat, nat)>)
    ensures |ApplyPairs(forces, ps, g, law, pairs)| == |forces|
    ensures SumVec(ApplyPairs(forces, ps, g, law, pairs)) == SumVec(forces)
  {
    if pairs != [] {
      var prev := ApplyPairs(forces, ps, g, law, pairs[..|pairs| - 1]);
      GravityConservesMomentum(forces, ps, g, law, pairs[..|pairs| - 1]);
      var p := pairs[|pairs| - 1];
      if p.0 < |prev| && p.1 < |prev| && p.0 < |ps| && p.1 < |ps| {
        var f := law(ps[p.0], ps[p.1], g);
        var first := prev[p.0 := Add(prev[p.0], f)];
        SumVecUpdate(prev, p.0, Add(prev[p.0], f));
        SumVecUpdate(first, p.1, Add(first[p.1], Neg(f)));
      }
    }
  }

  // ---------------------------------------------------------------- closed form per body

  /** Sum over partners j in [lo, hi) of the force on body k as the first of the pair. */
  function PullFrom(ps: seq<Particle>, g: real, law: PairLaw, k: nat, lo: nat, hi: nat): Vec
    requires k < |ps| && hi <= |ps|
  {
    if hi <= lo then Zero else Add(PullFrom(ps, g, law, k, lo, hi - 1), law(ps[k], ps[hi - 1], g))
  }

  /** Sum over partners i in [0, hi) of the force on the first body when body k is the second. */
  function PushedBy(ps: seq<Particle>, g: real, law: PairLaw, k: nat, hi: nat): Vec
    requires k < |ps| && hi <= |ps|
  {
    if hi == 0 then Zero else Add(PushedBy(ps, g, law, k, hi - 1), law(ps[hi - 1], ps[k], g))
  }

  /** What gravitation adds to body k: the pulls from all later bodies, less the pulls that the
      earlier bodies received from it. */
  function NetGravity(ps: seq<Particle>, g: real, law: PairLaw, k: nat): Vec
    requires k < |ps|
  {
    Sub(PullFrom(ps, g, law, k, k + 1, |ps|), PushedBy(ps, g, law, k, k))
  }

  lemma {:induction false} ApplyPairsAppend(forces: seq<Vec>, ps: seq<Particle>, g: real, law: PairLaw, a: seq<(nat, nat)>, b: seq<(nat, nat)>)
    ensures ApplyPairs(forces, ps, g, law, a + b) == ApplyPairs(ApplyPairs(forces, ps, g, law, a), ps, g, law, b)
  {
    if b != [] {
      var m := |b| - 1;
      ApplyPairsAppend(forces, ps, g, law, a, b[..m]);
      assert (a + b)[..|a + b| - 1] == a + b[..m];
    } else {
      assert a + b == a;
    }
  }

  lemma ApplyPairsSnoc(forces: seq<Vec>, ps: seq<Particle>, g: real, law: PairLaw, pairs: seq<(nat, nat)>, p: (nat, nat))
    ensures ApplyPairs(forces, ps, g, law, pairs + [p]) == Step(ApplyPairs(forces, ps, g, law, pairs), ps, g, law, p)
  {
    assert (pairs + [p])[..|pairs|] == pairs;
  }

  /** The pass keeps one accumulator per body. */
  lemma {:induction false} ApplyPairsLength(forces: seq<Vec>, ps: seq<Particle>, g: real, law: PairLaw, pairs: seq<(nat, nat)>)
    ensures |ApplyPairs(forces, ps, g, law, pairs)| == |forces|
  {
    if pairs != [] {
      ApplyPairsLength(forces, ps, g, law, pairs[..|pairs| - 1]);
    }
  }

  /** The effect of row i, up to column j, on accumulator k. */
  lemma {:induction false} RowEffect(h: seq<Vec>, ps: seq<Particle>, g: real, law: PairLaw, i: nat, j: nat, k: nat)
    requires |h| == |ps| && i < j <= |ps| && k < |h|
    ensures |ApplyPairs(h, ps, g, law, Row(i, j))| == |h|
    ensures ApplyPairs(h, ps, g, law, Row(i, j))[k] ==
      (if k == i then Add(h[k], PullFrom(ps, g, law, i, i + 1, j))
       else if i < k < j then Add(h[k], Neg(law(ps[i], ps[k], g)))
       else h[k])
  {
    ApplyPairsLength(h, ps, g, law, Row(i, j));
    if j > i + 1 {
      var r := Row(i, j - 1);
      assert Row(i, j) == r + [(i, j - 1)];
      RowEffect(h, ps, g, law, i, j - 1, k);
      ApplyPairsLength(h, ps, g, law, r);
      var prev := ApplyPairs(h, ps, g, law, r);
      ApplyPairsSnoc(h, ps, g, law, r, (i, j - 1));
      StepSpec(prev, ps, g, law, i, j - 1);
      var now := Step(prev, ps, g, law, (i, j - 1));
      assert ApplyPairs(h, ps, g, law, Row(i, j)) == now;
      var f := law(ps[i], ps[j - 1], g);
      if k == i {
        var pull := PullFrom(ps, g, law, i, i + 1, j - 1);
        assert prev[k] == Add(h[k], pull);
        assert now[k] == Add(prev[k], f);
        AddAssoc(h[k], pull, f);
        assert PullFrom(ps, g, law, i, i + 1, j) == Add(pull, f);
      } else if k == j - 1 {
        assert prev[k] == h[k];
        assert now[k] == Add(h[k], Neg(f));
      } else {
        assert now[k] == prev[k];
      }
    } else {
      assert Row(i, j) == [];
      assert PullFrom(ps, g, law, i, i + 1, j) == Zero;
      AddZero(h[k]);
    }
  }

  /** After the first i rows, a body k >= i has only lost the pulls that rows 0 .. i-1 got from it. */
  lemma {:induction false} RowsPending(forces: seq<Vec>, ps: seq<Particle>, g: real, law: PairLaw, i: nat, k: nat)
    requires |forces| == |ps| && i <= k < |ps|
    ensures |ApplyPairs(forces, ps, g, law, PairsBefore(|ps|, i))| == |forces|
    ensures ApplyPairs(forces, ps, g, law, PairsBefore(|ps|, i))[k] == Add(forces[k], Neg(PushedBy(ps, g, law, k, i)))
  {
    var n := |ps|;
    ApplyPairsLength(forces, ps, g, law, PairsBefore(n, i));
    if i == 0 {
      assert ApplyPairs(forces, ps, g, law, PairsBefore(n, i)) == forces;
      assert PushedBy(ps, g, law, k, 0) == Zero;
      AddNegZero(forces[k]);
    } else {
      var before, row := PairsBefore(n, i - 1), Row(i - 1, n);
      assert PairsBefore(n, i) == before + row;
      RowsPending(forces, ps, g, law, i - 1, k);
      var h := ApplyPairs(forces, ps, g, law, before);
      ApplyPairsAppend(forces, ps, g, law, before, row);
      PendingStep(h, ps, g, law, i, k, forces[k]);
    }
  }

  /** Row i - 1 takes from a later body k the pull that body i - 1 receives from it. */
  lemma PendingStep(h: seq<Vec>, ps: seq<Particle>, g: real, law: PairLaw, i: nat, k: nat, base: Vec)
    requires |h| == |ps| && 0 < i <= k < |ps|
    requires h[k] == Add(base, Neg(PushedBy(ps, g, law, k, i - 1)))
    ensures |ApplyPairs(h, ps, g, law, Row(i - 1, |ps|))| == |h|
    ensures ApplyPairs(h, ps, g, law, Row(i - 1, |ps|))[k] == Add(base, Neg(PushedBy(ps, g, law, k, i)))
  {
    var pushed, f := PushedBy(ps, g, law, k, i - 1), law(ps[i - 1], ps[k], g);
    RowEffect(h, ps, g, law, i - 1, |ps|, k);
    assert PushedBy(ps, g, law, k, i) == Add(pushed, f);
    AddNegThenNeg(base, pushed, f);
  }

  /** The first i rows are the first i - 1 rows followed by row i - 1. */
  lemma RowSplit(forces: seq<Vec>, ps: seq<Particle>, g: real, law: PairLaw, i: nat)
    requires |forces| == |ps| && 0 < i <= |ps|
    ensures |ApplyPairs(forces, ps, g, law, PairsBefore(|ps|, i - 1))| == |forces|
    ensures ApplyPairs(forces, ps, g, law, PairsBefore(|ps|, i)) ==
      ApplyPairs(ApplyPairs(forces, ps, g, law, PairsBefore(|ps|, i - 1)), ps, g, law, Row(i - 1, |ps|))
  {
    var n := |ps|;
    ApplyPairsLength(forces, ps, g, law, PairsBefore(n, i - 1));
    assert PairsBefore(n, i) == PairsBefore(n, i - 1) + Row(i - 1, n);
    ApplyPairsAppend(forces, ps, g, law, PairsBefore(n, i - 1), Row(i - 1, n));
  }

  /** Row k completes body k: its pending losses meet the pulls from all later bodies. */
  lemma RowCompletes(forces: seq<Vec>, ps: seq<Particle>, g: real, law: PairLaw, k: nat)
    requires |forces| == |ps| && k < |ps|
    ensures |ApplyPairs(forces, ps, g, law, PairsBefore(|ps|, k + 1))| == |forces|
    ensures ApplyPairs(forces, ps, g, law, PairsBefore(|ps|, k + 1))[k] == Add(forces[k], NetGravity(ps, g, law, k))
  {
    var n := |ps|;
    ApplyPairsLength(forces, ps, g, law, PairsBefore(n, k + 1));
    RowSplit(forces, ps, g, law, k + 1);
    var h := ApplyPairs(forces, ps, g, law, PairsBefore(n, k));
    RowsPending(forces, ps, g, law, k, k);
    RowEffect(h, ps, g, law, k, n, k);
    var pushed, pull := PushedBy(ps, g, law, k, k), PullFrom(ps, g, law, k, k + 1, n);
    assert h[k] == Add(forces[k], Neg(pushed));
    assert ApplyPairs(h, ps, g, law, Row(k, n))[k] == Add(h[k], pull);
    AddNegThenAdd(forces[k], pushed, pull);
  }

  /** A row i - 1 beyond body k leaves body k alone. */
  lemma RowSkips(forces: seq<Vec>, ps: seq<Particle>, g: real, law: PairLaw, i: nat, k: nat)
    requires |forces| == |ps| && k + 1 < i <= |ps|
    ensures |ApplyPairs(forces, ps, g, law, PairsBefore(|ps|, i - 1))| == |forces|
    ensures |ApplyPairs(forces, ps, g, law, PairsBefore(|ps|, i))| == |forces|
    ensures ApplyPairs(forces, ps, g, law, PairsBefore(|ps|, i))[k] == ApplyPairs(forces, ps, g, law, PairsBefore(|ps|, i - 1))[k]
  {
    var n := |ps|;
    ApplyPairsLength(forces, ps, g, law, PairsBefore(n, i));
    RowSplit(forces, ps, g, law, i);
    RowEffect(ApplyPairs(forces, ps, g, law, PairsBefore(n, i - 1)), ps, g, law, i - 1, n, k);
  }

  /** After the first i rows, a body k < i has received its whole net pull. */
  lemma {:induction false} RowsDone(forces: seq<Vec>, ps: seq<Particle>, g: real, law: PairLaw, i: nat, k: nat)
    requires |forces| == |ps| && k < i <= |ps|
    ensures |ApplyPairs(forces, ps, g, law, PairsBefore(|ps|, i))| == |forces|
    ensures ApplyPairs(forces, ps, g, law, PairsBefore(|ps|, i))[k] == Add(forces[k], NetGravity(ps, g, law, k))
  {
    var n := |ps|;
    ApplyPairsLength(forces, ps, g, law, PairsBefore(n, i));
    var now, net := ApplyPairs(forces, ps, g, law, PairsBefore(n, i)), Add(forces[k], NetGravity(ps, g, law, k));
    if k + 1 == i {
      RowCompletes(forces, ps, g, law, k);
      assert PairsBefore(n, k + 1) == PairsBefore(n, i);
      assert now[k] == net;
    } else {
      var prev := ApplyPairs(forces, ps, g, law, PairsBefore(n, i - 1));
      RowsDone(forces, ps, g, law, i - 1, k);
      assert prev[k] == net;
      RowSkips(forces, ps, g, law, i, k);
      assert now[k] == prev[k];
    }
  }

  /** The pass in closed form: each body gains exactly its net pull, whatever it held before. */
  lemma GravityClosedForm(forces: seq<Vec>, ps: seq<Particle>, g: real, law: PairLaw)
    requires |forces| == |ps|
    ensures |ApplyPairs(forces, ps, g, law, Pairs(|ps|))| == |forces|
    ensures forall k :: 0 <= k < |forces| ==>
      ApplyPairs(forces, ps, g, law, Pairs(|ps|))[k] == Add(forces[k], NetGravity(ps, g, law, k))
  {
    ApplyPairsLength(forces, ps, g, law, Pairs(|ps|));
    forall k | 0 <= k < |forces|
      ensures ApplyPairs(forces, ps, g, law, Pairs(|ps|))[k] == Add(forces[k], NetGravity(ps, g, law, k))
    {
      RowsDone(forces, ps, g, law, |ps|, k);
    }
  }

  // ---------------------------------------------------------------- the imperative pass

  /** `newtonian(m1, m2, G)`. The source also evaluates `Vector.mult(f, timestamp - tick)`, but
      that returns a new vector which is dropped, so the time step has no effect. There is no
      guard for coincident bodies: whatever the law yields is applied. */
  method Newtonian(m1: Body, m2: Body, g: real, law: PairLaw)
    modifies m1`force, m2`force
    ensures m1 != m2 ==>
      m1.force == Add(old(m1.force), law(ParticleOf(m1), ParticleOf(m2), g)) &&
      m2.force == Add(old(m2.force), Neg(law(ParticleOf(m1), ParticleOf(m2), g)))
    ensures m1 == m2 ==>
      m1.force == Add(Add(old(m1.force), law(ParticleOf(m1), ParticleOf(m2), g)), Neg(law(ParticleOf(m1), ParticleOf(m2), g)))
  {
    var f := law(ParticleOf(m1), ParticleOf(m2), g);
    m1.ApplyForce(f);
    m2.ApplyForce(Neg(f));
  }

  lemma PosesFixParticles(bs: seq<Body>, poses: seq<Pose>, ps: seq<Particle>)
    requires Poses(bs) == poses
    requires |ps| == |poses| && forall k :: 0 <= k < |ps| ==> ps[k] == poses[k].particle
    ensures Particles(bs) == ps
  {
  }

  /** One iteration of the inner loop, `newtonian(matter[i], matter[j], G)`: with the pairs
      `done` already applied, it applies `done + [(i, j)]` and moves no body. */
  method VisitPair(matter: array<Body>, i: nat, j: nat, g: real, law: PairLaw,
                   ghost forces0: seq<Vec>, ghost ps: seq<Particle>, ghost done: seq<(nat, nat)>, ghost poses0: seq<Pose>)
    requires Distinct(matter[..]) && i < j < matter.Length
    requires Forces(matter[..]) == ApplyPairs(forces0, ps, g, law, done)
    requires Particles(matter[..]) == ps && Poses(matter[..]) == poses0
    modifies matter[i], matter[j]
    ensures Forces(matter[..]) == ApplyPairs(forces0, ps, g, law, done + [(i, j)])
    ensures Particles(matter[..]) == ps && Poses(matter[..]) == poses0
  {
    ghost var before := Forces(matter[..]);
    Newtonian(matter[i], matter[j], g, law);
    PosesFixParticles(matter[..], poses0, ps);
    StepSpec(before, ps, g, law, i, j);
    ApplyPairsSnoc(forces0, ps, g, law, done, (i, j));
  }

  /** The inner loop for row i: `newtonian(matter[i], matter[j], G)` for j from i + 1 up.
      Given the pairs `done` already visited, it extends them by the row. */
  method GravitateRow(matter: array<Body>, i: nat, g: real, law: PairLaw,
                      ghost forces0: seq<Vec>, ghost ps: seq<Particle>, ghost done: seq<(nat, nat)>)
    returns (ghost visited: seq<(nat, nat)>)
    requires Distinct(matter[..]) && i < matter.Length
    requires Particles(matter[..]) == ps
    requires Forces(matter[..]) == ApplyPairs(forces0, ps, g, law, done)
    modifies set k | 0 <= k < matter.Length :: matter[k]
    ensures visited == done + Row(i, matter.Length)
    ensures Forces(matter[..]) == ApplyPairs(forces0, ps, g, law, visited)
    ensures Particles(matter[..]) == ps
    ensures Poses(matter[..]) == old(Poses(matter[..]))
  {
    var n := matter.Length;
    ghost var poses0 := Poses(matter[..]);
    var j: nat := i + 1;
    visited := done + Row(i, j);
    assert visited == done;
    while j < n
      invariant i < j <= n
      invariant visited == done + Row(i, j)
      invariant Forces(matter[..]) == ApplyPairs(forces0, ps, g, law, visited)
      invariant Particles(matter[..]) == ps
      invariant Poses(matter[..]) == poses0
    {
      VisitPair(matter, i, j, g, law, forces0, ps, visited, poses0);
      visited := visited + [(i, j)];
      var column := j;
      j := j + 1;
      RowSnoc(done, i, column, j);
    }
  }

  /** The two nested loops of the tick over the gravitating list. */
  method Gravitate(matter: array<Body>, g: real, law: PairLaw) returns (ghost visited: seq<(nat, nat)>)
    requires Distinct(matter[..])
    modifies set k | 0 <= k < matter.Length :: matter[k]
    ensures visited == Pairs(matter.Length)
    ensures Forces(matter[..]) == ApplyPairs(old(Forces(matter[..])), old(Particles(matter[..])), g, law, visited)
    ensures Poses(matter[..]) == old(Poses(matter[..]))
  {
    var n := matter.Length;
    ghost var forces0 := Forces(matter[..]);
    ghost var poses0 := Poses(matter[..]);
    ghost var ps := Particles(matter[..]);
    visited := [];
    var i: nat := 0;
    while i < n
      invariant i <= n
      invariant visited == PairsBefore(n, i)
      invariant Forces(matter[..]) == ApplyPairs(forces0, ps, g, law, visited)
      invariant Particles(matter[..]) == ps
      invariant Poses(matter[..]) == poses0
    {
      visited := GravitateRow(matter, i, g, law, forces0, ps, visited);
      var row := i;
      i := i + 1;
      PairsNext(n, row, i);
    }
  }

  /** The rows before i + 1 are the rows before i, then row i. `next` stands for i + 1 for the
      same reason as in `RowSnoc`. */
  lemma PairsNext(n: nat, i: nat, next: nat)
    requires next == i + 1
    ensures PairsBefore(n, next) == PairsBefore(n, i) + Row(i, n)
  {
  }

  /** Applied to the gravitating list, the pass leaves the total force unchanged. */
  lemma GravitateConserves(forces: seq<Vec>, ps: seq<Particle>, g: real, law: PairLaw)
    ensures SumVec(ApplyPairs(forces, ps, g, law, Pairs(|forces|))) == SumVec(forces)
  {
    GravityConservesMomentum(forces, ps, g, law, Pairs(|forces|));
  }
}
