/**
 * The QUBO coefficient dictionary `Q` of the scripts, keyed by ordered pairs of
 * variable names, and the two ways the scripts write into it: accumulation
 * (missing keys default to 0, then `+=`) and plain overwriting (`Q[k] = v`).
 * A pass is described by the list of updates it performs, in order.
 */
module Qubo {
  import opened Names

  /** An ordered pair of variables; (v, v) holds the linear term of v. */
  type Key = (Var, Var)

  type Coefficients = map<Key, real>

  /** One write into the dictionary: the key and the value added or stored. */
  type Update = (Key, real)

  /** The coefficient of a key, 0 when the key is absent. */
  function Get(Q: Coefficients, k: Key): real
  {
    if k in Q then Q[k] else 0.0
  }

  /** `if k not in Q: Q[k] = 0` followed by `Q[k] += d`. */
  function Accumulate(Q: Coefficients, u: Update): Coefficients
  {
    Q[u.0 := Get(Q, u.0) + u.1]
  }

  /** The dictionary after accumulating every update, in order. */
  function AddAll(Q: Coefficients, us: seq<Update>): Coefficients
  {
    if us == [] then Q else Accumulate(AddAll(Q, us[..|us| - 1]), us[|us| - 1])
  }

  /** The dictionary after storing every update, in order (last write wins). */
  function SetAll(Q: Coefficients, us: seq<Update>): Coefficients
  {
    if us == [] then Q else SetAll(Q, us[..|us| - 1])[us[|us| - 1].0 := us[|us| - 1].1]
  }

  /** The keys some update writes. */
  function KeySet(us: seq<Update>): set<Key>
  {
    set i | 0 <= i < |us| :: us[i].0
  }

  /** Sum of the values of the updates aimed at k. */
  function DeltaSum(us: seq<Update>, k: Key): real
  {
    if us == [] then 0.0
    else DeltaSum(us[..|us| - 1], k) + (if us[|us| - 1].0 == k then us[|us| - 1].1 else 0.0)
  }

  /** Number of updates aimed at k. */
  function Hits(us: seq<Update>, k: Key): nat
  {
    if us == [] then 0
    else Hits(us[..|us| - 1], k) + (if us[|us| - 1].0 == k then 1 else 0)
  }

  /** No key is written twice. */
  predicate NoDupKeys(us: seq<Update>)
  {
    forall a, b :: 0 <= a < b < |us| ==> us[a].0 != us[b].0
  }

  /** Every update carries the value w. */
  predicate AllWeights(us: seq<Update>, w: real)
  {
    forall x :: 0 <= x < |us| ==> us[x].1 == w
  }

  lemma AddAllSnoc(Q: Coefficients, us: seq<Update>, u: Update)
    ensures AddAll(Q, us + [u]) == Accumulate(AddAll(Q, us), u)
  {
    assert (us + [u])[..|us|] == us;
  }

  lemma SetAllSnoc(Q: Coefficients, us: seq<Update>, u: Update)
    ensures SetAll(Q, us + [u]) == SetAll(Q, us)[u.0 := u.1]
  {
    assert (us + [u])[..|us|] == us;
  }

  lemma {:induction false} AddAllConcat(Q: Coefficients, a: seq<Update>, b: seq<Update>)
    ensures AddAll(Q, a + b) == AddAll(AddAll(Q, a), b)
    decreases |b|
  {
    if b == [] {
      assert a + b == a;
    } else {
      var b' := b[..|b| - 1];
      assert a + b == (a + b') + [b[|b| - 1]];
      assert b == b' + [b[|b| - 1]];
      AddAllSnoc(Q, a + b', b[|b| - 1]);
      AddAllSnoc(AddAll(Q, a), b', b[|b| - 1]);
      AddAllConcat(Q, a, b');
    }
  }

  lemma {:induction false} SetAllConcat(Q: Coefficients, a: seq<Update>, b: seq<Update>)
    ensures SetAll(Q, a + b) == SetAll(SetAll(Q, a), b)
    decreases |b|
  {
    if b == [] {
      assert a + b == a;
    } else {
      var b' := b[..|b| - 1];
      assert a + b == (a + b') + [b[|b| - 1]];
      assert b == b' + [b[|b| - 1]];
      SetAllSnoc(Q, a + b', b[|b| - 1]);
      SetAllSnoc(SetAll(Q, a), b', b[|b| - 1]);
      SetAllConcat(Q, a, b');
    }
  }

  lemma KeySetSnoc(us: seq<Update>, u: Update)
    ensures KeySet(us + [u]) == KeySet(us) + {u.0}
  {
    var l := us + [u];
    forall k | k in KeySet(l) ensures k in KeySet(us) + {u.0} {
      var i :| 0 <= i < |l| && l[i].0 == k;
      if i < |us| { assert us[i] == l[i]; }
    }
    forall k | k in KeySet(us) ensures k in KeySet(l) {
      var i :| 0 <= i < |us| && us[i].0 == k;
      assert l[i] == us[i];
    }
    assert l[|us|] == u;
  }

  lemma KeySetConcat(a: seq<Update>, b: seq<Update>)
    ensures KeySet(a + b) == KeySet(a) + KeySet(b)
  {
    var l := a + b;
    forall k | k in KeySet(l) ensures k in KeySet(a) + KeySet(b) {
      var i :| 0 <= i < |l| && l[i].0 == k;
      if i < |a| { assert a[i] == l[i]; } else { assert b[i - |a|] == l[i]; }
    }
    forall k | k in KeySet(a) + KeySet(b) ensures k in KeySet(l) {
      if k in KeySet(a) {
        var i :| 0 <= i < |a| && a[i].0 == k;
        assert l[i] == a[i];
      } else {
        var i :| 0 <= i < |b| && b[i].0 == k;
        assert l[|a| + i] == b[i];
      }
    }
  }

  /**
   * Accumulation: the keys are the old keys plus every key written, and each
   * coefficient is its old value (0 if absent) plus the sum of all updates
   * aimed at it, so a repeated update counts as many times as it occurs.
   */
  lemma {:induction false} AddAllAt(Q: Coefficients, us: seq<Update>)
    ensures AddAll(Q, us).Keys == Q.Keys + KeySet(us)
    ensures forall k :: Get(AddAll(Q, us), k) == Get(Q, k) + DeltaSum(us, k)
  {
    if us != [] {
      var us' := us[..|us| - 1];
      assert us == us' + [us[|us| - 1]];
      AddAllAt(Q, us');
      KeySetSnoc(us', us[|us| - 1]);
    }
  }

  /** Overwriting: the keys are the old keys plus every key written. */
  lemma {:induction false} SetAllKeys(Q: Coefficients, us: seq<Update>)
    ensures SetAll(Q, us).Keys == Q.Keys + KeySet(us)
  {
    if us != [] {
      var us' := us[..|us| - 1];
      assert us == us' + [us[|us| - 1]];
      SetAllKeys(Q, us');
      KeySetSnoc(us', us[|us| - 1]);
    }
  }

  /** Overwriting: a key no update writes keeps its old coefficient. */
  lemma {:induction false} SetAllUntouched(Q: Coefficients, us: seq<Update>, k: Key)
    requires k !in KeySet(us)
    ensures (k in SetAll(Q, us) <==> k in Q) && Get(SetAll(Q, us), k) == Get(Q, k)
  {
    if us != [] {
      var us' := us[..|us| - 1];
      assert us == us' + [us[|us| - 1]];
      KeySetSnoc(us', us[|us| - 1]);
      SetAllUntouched(Q, us', k);
    }
  }

  /** Overwriting: a key holds the value of the last update that writes it. */
  lemma {:induction false} SetAllLast(Q: Coefficients, us: seq<Update>, i: nat)
    requires i < |us|
    requires forall j :: i < j < |us| ==> us[j].0 != us[i].0
    ensures us[i].0 in SetAll(Q, us) && SetAll(Q, us)[us[i].0] == us[i].1
  {
    if i < |us| - 1 {
      var us' := us[..|us| - 1];
      SetAllLast(Q, us', i);
    }
  }

  /** Overwriting with one value w leaves w at every key written. */
  lemma {:induction false} SetAllConstant(Q: Coefficients, us: seq<Update>, w: real, k: Key)
    requires AllWeights(us, w) && k in KeySet(us)
    ensures k in SetAll(Q, us) && SetAll(Q, us)[k] == w
  {
    var us' := us[..|us| - 1];
    assert us == us' + [us[|us| - 1]];
    KeySetSnoc(us', us[|us| - 1]);
    if us[|us| - 1].0 != k {
      SetAllConstant(Q, us', w, k);
    }
  }

  /** With a constant value w, the sum aimed at k is w times the number of hits. */
  lemma {:induction false} DeltaSumConstant(us: seq<Update>, w: real, k: Key)
    requires AllWeights(us, w)
    ensures DeltaSum(us, k) == w * (Hits(us, k) as real)
  {
    if us != [] {
      DeltaSumConstant(us[..|us| - 1], w, k);
    }
  }

  /** Accumulating one value w: each coefficient grows by w per update aimed at it. */
  lemma {:induction false} AddAllConstant(Q: Coefficients, us: seq<Update>, w: real)
    requires AllWeights(us, w)
    ensures AddAll(Q, us).Keys == Q.Keys + KeySet(us)
    ensures forall k :: Get(AddAll(Q, us), k) == Get(Q, k) + w * (Hits(us, k) as real)
  {
    AddAllAt(Q, us);
    forall k ensures Get(AddAll(Q, us), k) == Get(Q, k) + w * (Hits(us, k) as real) {
      DeltaSumConstant(us, w, k);
    }
  }

  /** A key no update writes receives nothing. */
  lemma {:induction false} DeltaSumOutside(us: seq<Update>, k: Key)
    requires forall x :: 0 <= x < |us| ==> us[x].0 != k
    ensures DeltaSum(us, k) == 0.0
  {
    if us != [] {
      DeltaSumOutside(us[..|us| - 1], k);
    }
  }

  /**
   * Accumulating one value w without repeated keys: a written key grows by
   * exactly w, any other key keeps its coefficient.
   */
  lemma {:induction false} AddAllOnce(Q: Coefficients, us: seq<Update>, w: real, k: Key)
    requires NoDupKeys(us) && AllWeights(us, w)
    ensures k in KeySet(us) ==> k in AddAll(Q, us) && AddAll(Q, us)[k] == Get(Q, k) + w
    ensures k !in KeySet(us) ==> (k in AddAll(Q, us) <==> k in Q) && Get(AddAll(Q, us), k) == Get(Q, k)
  {
    HitsNoDup(us, k);
    AddAllConstant(Q, us, w);
  }

  lemma {:induction false} HitsConcat(a: seq<Update>, b: seq<Update>, k: Key)
    ensures Hits(a + b, k) == Hits(a, k) + Hits(b, k)
    decreases |b|
  {
    if b == [] {
      assert a + b == a;
    } else {
      var b' := b[..|b| - 1];
      assert (a + b)[..|a + b| - 1] == a + b';
      HitsConcat(a, b', k);
    }
  }

  /** A key no update writes is never hit. */
  lemma {:induction false} HitsOutside(us: seq<Update>, k: Key)
    requires k !in KeySet(us)
    ensures Hits(us, k) == 0
  {
    if us != [] {
      var us' := us[..|us| - 1];
      assert us == us' + [us[|us| - 1]];
      KeySetSnoc(us', us[|us| - 1]);
      HitsOutside(us', k);
    }
  }

  /** Without repeated keys, every written key is hit exactly once. */
  lemma {:induction false} HitsNoDup(us: seq<Update>, k: Key)
    requires NoDupKeys(us)
    ensures Hits(us, k) == if k in KeySet(us) then 1 else 0
  {
    if us != [] {
      var us' := us[..|us| - 1];
      assert us == us' + [us[|us| - 1]];
      KeySetSnoc(us', us[|us| - 1]);
      HitsNoDup(us', k);
      if us[|us| - 1].0 == k {
        assert k !in KeySet(us') by {
          forall i | 0 <= i < |us'| ensures us'[i].0 != k {
            assert us'[i] == us[i];
          }
        }
      }
    }
  }

  /** Without repeated keys, the number of keys written is the number of updates. */
  lemma {:induction false} NoDupKeyCount(us: seq<Update>)
    requires NoDupKeys(us)
    ensures |KeySet(us)| == |us|
  {
    if us != [] {
      var us' := us[..|us| - 1];
      assert us == us' + [us[|us| - 1]];
      KeySetSnoc(us', us[|us| - 1]);
      NoDupKeyCount(us');
      assert us[|us| - 1].0 !in KeySet(us') by {
        forall i | 0 <= i < |us'| ensures us'[i].0 != us[|us| - 1].0 {
          assert us'[i] == us[i];
        }
      }
    }
  }

  lemma NoDupConcat(a: seq<Update>, b: seq<Update>)
    requires NoDupKeys(a) && NoDupKeys(b) && KeySet(a) !! KeySet(b)
    ensures NoDupKeys(a + b)
  {
    var l := a + b;
    forall x, y | 0 <= x < y < |l| ensures l[x].0 != l[y].0 {
      if y < |a| {
        assert l[x] == a[x] && l[y] == a[y];
      } else if x >= |a| {
        assert l[x] == b[x - |a|] && l[y] == b[y - |a|];
      } else {
        assert l[x] == a[x] && l[y] == b[y - |a|];
        assert l[x].0 in KeySet(a) && l[y].0 in KeySet(b);
      }
    }
  }

  lemma AllWeightsConcat(a: seq<Update>, b: seq<Update>, w: real)
    requires AllWeights(a, w) && AllWeights(b, w)
    ensures AllWeights(a + b, w)
  {
    var l := a + b;
    forall x | 0 <= x < |l| ensures l[x].1 == w {
      if x < |a| { assert l[x] == a[x]; } else { assert l[x] == b[x - |a|]; }
    }
  }

  // ---------------------------------------------------------------------------
  // QUBO energy: the sum over the keys of Q[(a, b)] * x_a * x_b, for the
  // assignment that sets exactly the variables in `on` to 1.
  // ---------------------------------------------------------------------------

  /** The contribution of one key to the energy. */
  function Term(Q: Coefficients, k: Key, on: set<Var>): real
  {
    if k.0 in on && k.1 in on then Get(Q, k) else 0.0
  }

  /** The energy summed over a set of keys. */
  ghost function EnergyOver(Q: Coefficients, ks: set<Key>, on: set<Var>): real
    decreases ks
  {
    if ks == {} then 0.0
    else
      var k :| k in ks;
      Term(Q, k, on) + EnergyOver(Q, ks - {k}, on)
  }

  /** The energy of the whole coefficient map. */
  ghost function Energy(Q: Coefficients, on: set<Var>): real
  {
    EnergyOver(Q, Q.Keys, on)
  }

  /** Any key of a set can be taken out of the energy sum first. */
  lemma {:induction false} EnergyOverRemove(Q: Coefficients, ks: set<Key>, k: Key, on: set<Var>)
    requires k in ks
    ensures EnergyOver(Q, ks, on) == Term(Q, k, on) + EnergyOver(Q, ks - {k}, on)
    decreases ks
  {
    var j :| j in ks && EnergyOver(Q, ks, on) == Term(Q, j, on) + EnergyOver(Q, ks - {j}, on);
    if j != k {
      EnergyOverRemove(Q, ks - {j}, k, on);
      EnergyOverRemove(Q, ks - {k}, j, on);
      assert ks - {j} - {k} == ks - {k} - {j};
    }
  }

  /** The energy over a set of keys depends only on the coefficients there. */
  lemma {:induction false} EnergyOverAgree(Q: Coefficients, Q': Coefficients, ks: set<Key>, on: set<Var>)
    requires forall k :: k in ks ==> Get(Q, k) == Get(Q', k)
    ensures EnergyOver(Q, ks, on) == EnergyOver(Q', ks, on)
    decreases ks
  {
    if ks != {} {
      var k :| k in ks;
      EnergyOverRemove(Q, ks, k, on);
      EnergyOverRemove(Q', ks, k, on);
      EnergyOverAgree(Q, Q', ks - {k}, on);
    }
  }

  /** Energy of the updates themselves: each counts when both its variables are on. */
  function UpdatesEnergy(us: seq<Update>, on: set<Var>): real
  {
    if us == [] then 0.0
    else
      var u := us[|us| - 1];
      UpdatesEnergy(us[..|us| - 1], on) + (if u.0.0 in on && u.0.1 in on then u.1 else 0.0)
  }

  /** Number of updates whose two variables are both on. */
  function SelectedHits(us: seq<Update>, on: set<Var>): nat
  {
    if us == [] then 0
    else
      var u := us[|us| - 1];
      SelectedHits(us[..|us| - 1], on) + (if u.0.0 in on && u.0.1 in on then 1 else 0)
  }

  lemma {:induction false} SelectedHitsConcat(a: seq<Update>, b: seq<Update>, on: set<Var>)
    ensures SelectedHits(a + b, on) == SelectedHits(a, on) + SelectedHits(b, on)
    decreases |b|
  {
    if b == [] {
      assert a + b == a;
    } else {
      var b' := b[..|b| - 1];
      assert (a + b)[..|a + b| - 1] == a + b';
      SelectedHitsConcat(a, b', on);
    }
  }

  /** With a constant value w, the updates' energy is w per selected update. */
  lemma {:induction false} UpdatesEnergyConstant(us: seq<Update>, w: real, on: set<Var>)
    requires AllWeights(us, w)
    ensures UpdatesEnergy(us, on) == w * (SelectedHits(us, on) as real)
  {
    if us != [] {
      UpdatesEnergyConstant(us[..|us| - 1], w, on);
    }
  }

  /** One accumulation raises the energy by d exactly when both variables are on. */
  lemma AccumulateEnergy(Q: Coefficients, u: Update, on: set<Var>)
    ensures Energy(Accumulate(Q, u), on)
         == Energy(Q, on) + (if u.0.0 in on && u.0.1 in on then u.1 else 0.0)
  {
    var Q' := Accumulate(Q, u);
    var k := u.0;
    EnergyOverRemove(Q', Q'.Keys, k, on);
    EnergyOverAgree(Q', Q, Q'.Keys - {k}, on);
    if k in Q {
      assert Q'.Keys == Q.Keys;
      EnergyOverRemove(Q, Q.Keys, k, on);
    } else {
      assert Q'.Keys - {k} == Q.Keys;
    }
  }

  /** Accumulating a list of updates adds exactly their energy. */
  lemma {:induction false} AddAllEnergy(Q: Coefficients, us: seq<Update>, on: set<Var>)
    ensures Energy(AddAll(Q, us), on) == Energy(Q, on) + UpdatesEnergy(us, on)
  {
    if us != [] {
      AddAllEnergy(Q, us[..|us| - 1], on);
      AccumulateEnergy(AddAll(Q, us[..|us| - 1]), us[|us| - 1], on);
    }
  }

  /**
   * When no key repeats and each written key holds its update's value, the
   * energy over the written keys equals the updates' energy.
   */
  lemma {:induction false} EnergyOverWritten(Q: Coefficients, us: seq<Update>, on: set<Var>)
    requires NoDupKeys(us)
    requires forall x :: 0 <= x < |us| ==> Get(Q, us[x].0) == us[x].1
    ensures EnergyOver(Q, KeySet(us), on) == UpdatesEnergy(us, on)
  {
    if us != [] {
      var us' := us[..|us| - 1];
      var u := us[|us| - 1];
      assert us == us' + [u];
      KeySetSnoc(us', u);
      assert u.0 !in KeySet(us') by {
        forall i | 0 <= i < |us'| ensures us'[i].0 != u.0 {
          assert us'[i] == us[i];
        }
      }
      assert KeySet(us) - {u.0} == KeySet(us');
      EnergyOverRemove(Q, KeySet(us), u.0, on);
      EnergyOverWritten(Q, us', on);
    }
  }
}
