/** The grip search of the application (`expand_grips`): the orbit of the
    whole generator configuration under its own rotations, collecting every
    circle of a reached configuration whose region holds the seed. */
module Grips {
  import opened Points
  import opened Circles
  import opened Search

  /** `GripSet`: one configuration of all the generators, in generator order. */
  datatype GripSet = GripSet(circles: seq<RotCircle>)

  /** `GripSet::rotate_by`: every circle of the configuration, the pivot
      included, rotated by the circle at `index`. */
  function RotateBy(env: Env, gs: GripSet, index: nat): (r: GripSet)
    requires index < |gs.circles|
    ensures |r.circles| == |gs.circles|
  {
    var pivot := gs.circles[index];
    GripSet(seq(|gs.circles|, k requires 0 <= k < |gs.circles| =>
      RotateCircle(pivot, env.turn(pivot.step), gs.circles[k])))
  }

  /** `gs` has one circle per generator, with the generator's radius, order
      and orientation; only the centres may differ. */
  ghost predicate AlignedWith(gens: seq<RotCircle>, gs: GripSet)
  {
    && |gs.circles| == |gens|
    && forall k :: 0 <= k < |gens| ==>
         gs.circles[k].rad == gens[k].rad && gs.circles[k].step == gens[k].step &&
         gs.circles[k].inverted == gens[k].inverted
  }

  /** Rotating a configuration moves centres only. */
  lemma RotateByAligned(env: Env, gens: seq<RotCircle>, gs: GripSet, index: nat)
    requires AlignedWith(gens, gs) && index < |gs.circles|
    ensures AlignedWith(gens, RotateBy(env, gs, index))
  {
    var r := RotateBy(env, gs, index);
    forall k | 0 <= k < |gens|
      ensures r.circles[k].rad == gens[k].rad && r.circles[k].step == gens[k].step &&
              r.circles[k].inverted == gens[k].inverted
    {
      var pivot := gs.circles[index];
      assert r.circles[k] == RotateCircle(pivot, env.turn(pivot.step), gs.circles[k]);
    }
  }

  /** The pivot stays where it is. */
  lemma RotateByPivot(env: Env, gs: GripSet, index: nat)
    requires index < |gs.circles|
    ensures RotateBy(env, gs, index).circles[index] == gs.circles[index]
  {
    var pivot := gs.circles[index];
    RotateCircleSelf(pivot, env.turn(pivot.step));
  }

  /** The rotation is rigid: the distances between the centres are kept. */
  lemma RotateByRigid(env: Env, gs: GripSet, index: nat, k1: nat, k2: nat)
    requires index < |gs.circles| && k1 < |gs.circles| && k2 < |gs.circles|
    requires IsUnit(env.turn(gs.circles[index].step))
    ensures var r := RotateBy(env, gs, index);
      DistSq(r.circles[k1].cen, r.circles[k2].cen) == DistSq(gs.circles[k1].cen, gs.circles[k2].cen)
  {
    var pivot := gs.circles[index];
    RotateIsometry(pivot, env.turn(pivot.step), gs.circles[k1].cen, gs.circles[k2].cen);
  }

  /** The rotation carries each region onto the rotated circle's region: a
      point lies in a circle of the configuration exactly when its image
      lies in the image of that circle. */
  lemma RotateByEquivariant(env: Env, gs: GripSet, index: nat, k: nat, p: Pos)
    requires index < |gs.circles| && k < |gs.circles|
    requires IsUnit(env.turn(gs.circles[index].step))
    ensures var pivot := gs.circles[index];
      Contains(RotateBy(env, gs, index).circles[k], Rotate(env, pivot, p)) <==> Contains(gs.circles[k], p)
  {
    var pivot := gs.circles[index];
    RotateCircleContains(pivot, env.turn(pivot.step), gs.circles[k], p);
  }

  // ---------------------------------------------------------------
  // Keys
  // ---------------------------------------------------------------

  /** `approx_hash` of a `GripSet`: the keys of the centres, in order. Radii,
      orders and orientations are not part of it. */
  function SetHash(env: Env, gs: GripSet): (r: seq<seq<int>>)
    ensures |r| == |gs.circles|
  {
    seq(|gs.circles|, k requires 0 <= k < |gs.circles| => PosHash(gs.circles[k].cen, env.floatHash))
  }

  /** Two configurations share a key exactly when they have the same number
      of circles and each pair of corresponding centres shares a key. */
  lemma SetHashEq(env: Env, g1: GripSet, g2: GripSet)
    ensures SetHash(env, g1) == SetHash(env, g2) <==>
      |g1.circles| == |g2.circles| &&
      forall k :: 0 <= k < |g1.circles| ==>
        PosHash(g1.circles[k].cen, env.floatHash) == PosHash(g2.circles[k].cen, env.floatHash)
  {
    if SetHash(env, g1) == SetHash(env, g2) {
      forall k | 0 <= k < |g1.circles|
        ensures PosHash(g1.circles[k].cen, env.floatHash) == PosHash(g2.circles[k].cen, env.floatHash)
      {
        assert SetHash(env, g1)[k] == SetHash(env, g2)[k];
      }
    }
  }

  /** The contents of the set of configurations. */
  function SetHashes(env: Env, gripsets: seq<GripSet>): set<seq<seq<int>>>
  {
    set a | 0 <= a < |gripsets| :: SetHash(env, gripsets[a])
  }

  lemma SetHashesPush(env: Env, gripsets: seq<GripSet>, gs: GripSet)
    ensures SetHashes(env, gripsets + [gs]) == SetHashes(env, gripsets) + {SetHash(env, gs)}
  {
    var s := gripsets + [gs];
    forall key | key in SetHashes(env, s)
      ensures key in SetHashes(env, gripsets) + {SetHash(env, gs)}
    {
      var a :| 0 <= a < |s| && key == SetHash(env, s[a]);
      if a < |gripsets| {
        assert s[a] == gripsets[a];
      }
    }
    forall key | key in SetHashes(env, gripsets)
      ensures key in SetHashes(env, s)
    {
      var a :| 0 <= a < |gripsets| && key == SetHash(env, gripsets[a]);
      assert s[a] == gripsets[a];
    }
    assert s[|gripsets|] == gs;
  }

  /** Every entry names a generator. */
  ghost predicate Indexed(n: nat, grips: seq<(Pos, nat)>)
  {
    forall m :: 0 <= m < |grips| ==> grips[m].1 < n
  }

  /** The key under which the grip set files grip `e`: the key of the
      circle centred at `e.0` with the radius and order of generator `e.1`. */
  function GripKey(env: Env, gens: seq<RotCircle>, e: (Pos, nat)): CircleKey
    requires e.1 < |gens|
  {
    CircleKey(PosHash(e.0, env.floatHash), env.floatHash(gens[e.1].rad), gens[e.1].step)
  }

  /** A circle aligned with generator `k` is filed under the key of its
      centre and `k`. */
  lemma AlignedGripKey(env: Env, gens: seq<RotCircle>, c: RotCircle, k: nat)
    requires k < |gens| && c.rad == gens[k].rad && c.step == gens[k].step
    ensures RotCircleHash(c, env.floatHash) == GripKey(env, gens, (c.cen, k))
  {
  }

  /** The contents of the grip set. */
  function GripKeys(env: Env, gens: seq<RotCircle>, grips: seq<(Pos, nat)>): set<CircleKey>
    requires Indexed(|gens|, grips)
  {
    set m | 0 <= m < |grips| :: GripKey(env, gens, grips[m])
  }

  lemma GripKeysPush(env: Env, gens: seq<RotCircle>, grips: seq<(Pos, nat)>, e: (Pos, nat))
    requires Indexed(|gens|, grips) && e.1 < |gens|
    ensures Indexed(|gens|, grips + [e])
    ensures GripKeys(env, gens, grips + [e]) == GripKeys(env, gens, grips) + {GripKey(env, gens, e)}
  {
    var s := grips + [e];
    assert Indexed(|gens|, s) by {
      forall m | 0 <= m < |s| ensures s[m].1 < |gens| {
        if m < |grips| {
          assert s[m] == grips[m];
        }
      }
    }
    forall key | key in GripKeys(env, gens, s)
      ensures key in GripKeys(env, gens, grips) + {GripKey(env, gens, e)}
    {
      var m :| 0 <= m < |s| && key == GripKey(env, gens, s[m]);
      if m < |grips| {
        assert s[m] == grips[m];
      }
    }
    forall key | key in GripKeys(env, gens, grips)
      ensures key in GripKeys(env, gens, s)
    {
      var m :| 0 <= m < |grips| && key == GripKey(env, gens, grips[m]);
      assert s[m] == grips[m];
    }
    assert s[|grips|] == e;
  }

  /** A longer list that starts with `grips` files every key `grips` does. */
  lemma GripKeysExtend(env: Env, gens: seq<RotCircle>, grips: seq<(Pos, nat)>, more: seq<(Pos, nat)>)
    requires Indexed(|gens|, grips) && Indexed(|gens|, more)
    requires |grips| <= |more| && more[..|grips|] == grips
    ensures GripKeys(env, gens, grips) <= GripKeys(env, gens, more)
  {
    forall key | key in GripKeys(env, gens, grips)
      ensures key in GripKeys(env, gens, more)
    {
      var m :| 0 <= m < |grips| && key == GripKey(env, gens, grips[m]);
      assert more[m] == grips[m];
    }
  }

  // ---------------------------------------------------------------
  // The initial grips
  // ---------------------------------------------------------------

  /** The grips of the generators themselves, among the first `n`: the
      centre and index of each generator whose region holds the seed, in
      generator order. */
  function BaseGrips(gens: seq<RotCircle>, seed: Pos, n: nat): seq<(Pos, nat)>
    requires n <= |gens|
  {
    if n == 0 then []
    else
      var tail := if Contains(gens[n - 1], seed) then [(gens[n - 1].cen, n - 1)] else [];
      BaseGrips(gens, seed, n - 1) + tail
  }

  /** The initial grips are exactly the generators that hold the seed, each
      once, in increasing index order. */
  lemma {:induction false} BaseGripsSpec(gens: seq<RotCircle>, seed: Pos, n: nat)
    requires n <= |gens|
    ensures var b := BaseGrips(gens, seed, n);
      && |b| <= n
      && (forall m :: 0 <= m < |b| ==>
            b[m].1 < n && Contains(gens[b[m].1], seed) && b[m].0 == gens[b[m].1].cen)
      && (forall m1, m2 :: 0 <= m1 < m2 < |b| ==> b[m1].1 < b[m2].1)
      && (forall k :: 0 <= k < n && Contains(gens[k], seed) ==> (gens[k].cen, k) in b)
  {
    if n > 0 {
      BaseGripsSpec(gens, seed, n - 1);
      var prev := BaseGrips(gens, seed, n - 1);
      var b := BaseGrips(gens, seed, n);
      assert forall m :: 0 <= m < |prev| ==> b[m] == prev[m];
      if Contains(gens[n - 1], seed) {
        assert b[|prev|] == (gens[n - 1].cen, n - 1);
      } else {
        assert b == prev;
      }
    }
  }

  /** The filtered loop of `expand_grips` over the generators: every
      generator whose region holds the seed is filed in the grip set and
      listed with its index. */
  method InitialGrips(env: Env, gens: seq<RotCircle>, seed: Pos)
    returns (grips: seq<(Pos, nat)>, keys: set<CircleKey>)
    ensures grips == BaseGrips(gens, seed, |gens|)
    ensures Indexed(|gens|, grips) && keys == GripKeys(env, gens, grips)
  {
    grips, keys := [], {};
    var k := 0;
    while k < |gens|
      invariant k <= |gens|
      invariant grips == BaseGrips(gens, seed, k)
      invariant Indexed(|gens|, grips) && keys == GripKeys(env, gens, grips)
    {
      var g := gens[k];
      if Contains(g, seed) {
        AlignedGripKey(env, gens, g, k);
        GripKeysPush(env, gens, grips, (g.cen, k));
        keys := keys + {RotCircleHash(g, env.floatHash)};
        grips := grips + [(g.cen, k)];
      }
      k := k + 1;
    }
  }

  // ---------------------------------------------------------------
  // Invariants of the search
  // ---------------------------------------------------------------

  /** Configuration `b` is the rotation of an earlier configuration, among
      the first `bound`, by one of its circles that holds the seed. */
  ghost predicate Derived(env: Env, seed: Pos, gripsets: seq<GripSet>, b: nat, bound: nat)
    requires b < |gripsets|
  {
    exists a, j :: 0 <= a < b && a < bound && 0 <= j < |gripsets[a].circles| &&
      Contains(gripsets[a].circles[j], seed) && gripsets[b] == RotateBy(env, gripsets[a], j)
  }

  /** The configuration list of `expand_grips`: it starts with the
      generators, every configuration is aligned with them, each later one
      was reached by rotating one of the first `bound`, and no two share a
      key. */
  ghost predicate GripSetList(env: Env, gens: seq<RotCircle>, seed: Pos, gripsets: seq<GripSet>, bound: nat)
  {
    && |gripsets| >= 1
    && gripsets[0] == GripSet(gens)
    && (forall a {:trigger AlignedWith(gens, gripsets[a])} :: 0 <= a < |gripsets| ==> AlignedWith(gens, gripsets[a]))
    && (forall b {:trigger Derived(env, seed, gripsets, b, bound)} :: 0 < b < |gripsets| ==> Derived(env, seed, gripsets, b, bound))
    && (forall a1, a2 :: 0 <= a1 < a2 < |gripsets| ==> SetHash(env, gripsets[a1]) != SetHash(env, gripsets[a2]))
  }

  /** `e` is a grip of some configuration in the list: circle `e.1` of that
      configuration is centred at `e.0` and holds the seed. */
  ghost predicate IsGrip(seed: Pos, gripsets: seq<GripSet>, e: (Pos, nat))
  {
    exists a :: 0 <= a < |gripsets| && e.1 < |gripsets[a].circles| &&
      gripsets[a].circles[e.1].cen == e.0 && Contains(gripsets[a].circles[e.1], seed)
  }

  /** The grip list: it starts with the initial grips `base`, every entry
      is a grip of a listed configuration, and every entry after `base` has
      a key no earlier entry has. */
  ghost predicate GripList(env: Env, gens: seq<RotCircle>, seed: Pos, base: seq<(Pos, nat)>,
                           grips: seq<(Pos, nat)>, gripsets: seq<GripSet>)
  {
    && |base| <= |grips| && grips[..|base|] == base
    && Indexed(|gens|, grips)
    && (forall m {:trigger IsGrip(seed, gripsets, grips[m])} :: 0 <= m < |grips| ==> IsGrip(seed, gripsets, grips[m]))
    && (forall m1, m2 :: 0 <= m1 < m2 < |grips| && |base| <= m2 ==>
          GripKey(env, gens, grips[m1]) != GripKey(env, gens, grips[m2]))
  }

  /** The grips among the first `upTo` circles of `gs` are filed in `keys`. */
  ghost predicate Covered(env: Env, gens: seq<RotCircle>, seed: Pos, gs: GripSet, keys: set<CircleKey>, upTo: nat)
  {
    forall k :: 0 <= k < upTo && k < |gens| && k < |gs.circles| && Contains(gs.circles[k], seed) ==>
      GripKey(env, gens, (gs.circles[k].cen, k)) in keys
  }

  /** The first `upTo` rotations of `gs` that the loop tries are filed in
      `hashes`. */
  ghost predicate SetExpanded(env: Env, seed: Pos, gs: GripSet, hashes: set<seq<seq<int>>>, upTo: nat)
  {
    forall j :: 0 <= j < upTo && j < |gs.circles| && Contains(gs.circles[j], seed) ==>
      SetHash(env, RotateBy(env, gs, j)) in hashes
  }

  lemma DerivedWeaken(env: Env, seed: Pos, gripsets: seq<GripSet>, b: nat, bound: nat, bound': nat)
    requires b < |gripsets| && bound <= bound'
    requires Derived(env, seed, gripsets, b, bound)
    ensures Derived(env, seed, gripsets, b, bound')
  {
    var a, j :| 0 <= a < b && a < bound && 0 <= j < |gripsets[a].circles| &&
      Contains(gripsets[a].circles[j], seed) && gripsets[b] == RotateBy(env, gripsets[a], j);
  }

  lemma GripSetListWeaken(env: Env, gens: seq<RotCircle>, seed: Pos, gripsets: seq<GripSet>,
                          bound: nat, bound': nat)
    requires bound <= bound' && GripSetList(env, gens, seed, gripsets, bound)
    ensures GripSetList(env, gens, seed, gripsets, bound')
  {
    forall b | 0 < b < |gripsets|
      ensures Derived(env, seed, gripsets, b, bound')
    {
      DerivedWeaken(env, seed, gripsets, b, bound, bound');
    }
  }

  // ---------------------------------------------------------------
  // The order of the two lists
  // ---------------------------------------------------------------

  /** Configuration `b` is the rotation of configuration `from[b].0` by its
      circle `from[b].1`, which holds the seed. */
  ghost predicate SetsProduced(env: Env, seed: Pos, gripsets: seq<GripSet>, from: seq<(nat, nat)>)
    requires |from| == |gripsets|
  {
    forall b {:trigger from[b]} :: 0 < b < |gripsets| ==>
      && from[b].0 < b && from[b].1 < |gripsets[from[b].0].circles|
      && Contains(gripsets[from[b].0].circles[from[b].1], seed)
      && gripsets[b] == RotateBy(env, gripsets[from[b].0], from[b].1)
  }

  /** The configurations come in the order in which their (configuration,
      circle) pairs are tried. */
  ghost predicate SetsInTriedOrder(from: seq<(nat, nat)>)
  {
    forall b1, b2 {:trigger TriedBefore(from[b1].0, from[b1].1, from[b2].0, from[b2].1)} ::
      0 < b1 < b2 < |from| ==> TriedBefore(from[b1].0, from[b1].1, from[b2].0, from[b2].1)
  }

  /** Each configuration was appended by the first pair tried whose
      rotation has its key. */
  ghost predicate SetsFirstWithKey(env: Env, gens: seq<RotCircle>, seed: Pos, gripsets: seq<GripSet>,
                                   from: seq<(nat, nat)>)
    requires |from| == |gripsets|
  {
    forall b, a, j {:trigger TriedBefore(a, j, from[b].0, from[b].1)} ::
      (&& 0 < b < |gripsets| && 0 <= a < |gripsets| && 0 <= j < |gens| && j < |gripsets[a].circles|
       && TriedBefore(a, j, from[b].0, from[b].1) && Contains(gripsets[a].circles[j], seed)) ==>
      SetHash(env, RotateBy(env, gripsets[a], j)) != SetHash(env, gripsets[b])
  }

  /** The order in which `expand_grips` appends configurations: `from[b]`
      is the pair that produced configuration `b`, the configurations come
      in the order in which their pairs are tried, and each was appended by
      the first pair tried whose rotation has its key. */
  ghost predicate SetOrder(env: Env, gens: seq<RotCircle>, seed: Pos, gripsets: seq<GripSet>,
                           from: seq<(nat, nat)>)
  {
    && |from| == |gripsets|
    && SetsProduced(env, seed, gripsets, from)
    && SetsInTriedOrder(from)
    && SetsFirstWithKey(env, gens, seed, gripsets, from)
  }

  /** Grip `m` is circle `grips[m].1` of configuration `owner[m]`, which
      holds the seed; the initial grips belong to the generators themselves
      (configuration 0) and every later grip to a later configuration. */
  ghost predicate GripsProduced(seed: Pos, base: seq<(Pos, nat)>, grips: seq<(Pos, nat)>,
                                owner: seq<nat>, gripsets: seq<GripSet>)
    requires |owner| == |grips|
  {
    forall m {:trigger owner[m]} :: 0 <= m < |grips| ==>
      && owner[m] < |gripsets| && grips[m].1 < |gripsets[owner[m]].circles|
      && gripsets[owner[m]].circles[grips[m].1].cen == grips[m].0
      && Contains(gripsets[owner[m]].circles[grips[m].1], seed)
      && (m < |base| <==> owner[m] == 0)
  }

  /** The grips come in the order in which (configuration, circle) pairs
      are visited. */
  ghost predicate GripsInTriedOrder(grips: seq<(Pos, nat)>, owner: seq<nat>)
    requires |owner| == |grips|
  {
    forall m1, m2 {:trigger TriedBefore(owner[m1], grips[m1].1, owner[m2], grips[m2].1)} ::
      0 <= m1 < m2 < |grips| ==> TriedBefore(owner[m1], grips[m1].1, owner[m2], grips[m2].1)
  }

  /** Every grip after the initial ones is the first holder of the seed
      visited with its key. */
  ghost predicate GripsFirstWithKey(env: Env, gens: seq<RotCircle>, seed: Pos, base: seq<(Pos, nat)>,
                                    grips: seq<(Pos, nat)>, owner: seq<nat>, gripsets: seq<GripSet>)
    requires |owner| == |grips| && Indexed(|gens|, grips)
  {
    forall m, a, k {:trigger TriedBefore(a, k, owner[m], grips[m].1)} ::
      (&& |base| <= m < |grips| && 0 <= a < |gripsets| && 0 <= k < |gens| && k < |gripsets[a].circles|
       && TriedBefore(a, k, owner[m], grips[m].1) && Contains(gripsets[a].circles[k], seed)) ==>
      GripKey(env, gens, (gripsets[a].circles[k].cen, k)) != GripKey(env, gens, grips[m])
  }

  /** The order in which `expand_grips` lists grips: the initial grips in
      generator order, then the grips of each new configuration, in the
      order in which the configurations are reached and, within one, in
      circle order, each the first holder visited with its key. */
  ghost predicate GripOrder(env: Env, gens: seq<RotCircle>, seed: Pos, base: seq<(Pos, nat)>,
                            grips: seq<(Pos, nat)>, owner: seq<nat>, gripsets: seq<GripSet>)
  {
    && |owner| == |grips| && |base| <= |grips| && Indexed(|gens|, grips)
    && GripsProduced(seed, base, grips, owner, gripsets)
    && GripsInTriedOrder(grips, owner)
    && GripsFirstWithKey(env, gens, seed, base, grips, owner, gripsets)
  }

  /** Every pair tried before `(i, j)` has its rotation filed. */
  ghost predicate SetsFiled(env: Env, gens: seq<RotCircle>, seed: Pos, gripsets: seq<GripSet>, i: nat, j: nat)
  {
    && i < |gripsets|
    && (forall a {:trigger SetExpanded(env, seed, gripsets[a], SetHashes(env, gripsets), |gens|)} ::
          0 <= a < i ==> SetExpanded(env, seed, gripsets[a], SetHashes(env, gripsets), |gens|))
    && SetExpanded(env, seed, gripsets[i], SetHashes(env, gripsets), j)
  }

  /** The facts about appending the rotation of configuration `i` by its
      circle `j`: every configuration so far came from a pair tried before
      it, every pair tried before it is filed, and the rotation has a new
      key. */
  ghost predicate SetPushOk(env: Env, gens: seq<RotCircle>, seed: Pos, gripsets: seq<GripSet>,
                            from: seq<(nat, nat)>, i: nat, j: nat)
  {
    && |from| == |gripsets| && i < |gripsets| && j < |gens| && j < |gripsets[i].circles|
    && (forall b :: 0 < b < |gripsets| ==> TriedBefore(from[b].0, from[b].1, i, j))
    && SetsFiled(env, gens, seed, gripsets, i, j)
    && Contains(gripsets[i].circles[j], seed)
    && SetHash(env, RotateBy(env, gripsets[i], j)) !in SetHashes(env, gripsets)
  }

  lemma SetsProducedPush(env: Env, gens: seq<RotCircle>, seed: Pos, gripsets: seq<GripSet>,
                         from: seq<(nat, nat)>, i: nat, j: nat)
    requires SetPushOk(env, gens, seed, gripsets, from, i, j) && SetsProduced(env, seed, gripsets, from)
    ensures SetsProduced(env, seed, gripsets + [RotateBy(env, gripsets[i], j)], from + [(i, j)])
  {
    var s, f := gripsets + [RotateBy(env, gripsets[i], j)], from + [(i, j)];
    forall b | 0 < b < |s|
      ensures && f[b].0 < b && f[b].1 < |s[f[b].0].circles| && Contains(s[f[b].0].circles[f[b].1], seed)
              && s[b] == RotateBy(env, s[f[b].0], f[b].1)
    {
      if b == |gripsets| {
        assert s[i] == gripsets[i];
      } else {
        assert f[b] == from[b] && s[b] == gripsets[b] && s[from[b].0] == gripsets[from[b].0];
      }
    }
  }

  lemma SetsInTriedOrderPush(env: Env, gens: seq<RotCircle>, seed: Pos, gripsets: seq<GripSet>,
                             from: seq<(nat, nat)>, i: nat, j: nat)
    requires SetPushOk(env, gens, seed, gripsets, from, i, j) && SetsInTriedOrder(from)
    ensures SetsInTriedOrder(from + [(i, j)])
    ensures forall b :: 0 < b < |from| + 1 ==> TriedBefore((from + [(i, j)])[b].0, (from + [(i, j)])[b].1, i, j + 1)
  {
    var f := from + [(i, j)];
    forall b1, b2 | 0 < b1 < b2 < |f|
      ensures TriedBefore(f[b1].0, f[b1].1, f[b2].0, f[b2].1)
    {
      assert f[b1] == from[b1];
      if b2 < |from| {
        assert f[b2] == from[b2];
      }
    }
    forall b | 0 < b < |f|
      ensures TriedBefore(f[b].0, f[b].1, i, j + 1)
    {
      if b < |from| {
        assert f[b] == from[b];
      }
    }
  }

  lemma SetsFirstWithKeyPush(env: Env, gens: seq<RotCircle>, seed: Pos, gripsets: seq<GripSet>,
                             from: seq<(nat, nat)>, i: nat, j: nat)
    requires SetPushOk(env, gens, seed, gripsets, from, i, j)
    requires SetsProduced(env, seed, gripsets, from) && SetsFirstWithKey(env, gens, seed, gripsets, from)
    ensures SetsFirstWithKey(env, gens, seed, gripsets + [RotateBy(env, gripsets[i], j)], from + [(i, j)])
  {
    var s, f := gripsets + [RotateBy(env, gripsets[i], j)], from + [(i, j)];
    forall b, a, j' | && 0 < b < |s| && 0 <= a < |s| && 0 <= j' < |gens| && j' < |s[a].circles|
                      && TriedBefore(a, j', f[b].0, f[b].1) && Contains(s[a].circles[j'], seed)
      ensures SetHash(env, RotateBy(env, s[a], j')) != SetHash(env, s[b])
    {
      if b == |gripsets| {
        assert s[a] == gripsets[a];
        assert TriedBefore(a, j', i, j);
        if a < i {
          assert SetExpanded(env, seed, gripsets[a], SetHashes(env, gripsets), |gens|);
        }
      } else {
        assert f[b] == from[b] && s[b] == gripsets[b];
        assert s[a] == gripsets[a];
      }
    }
  }

  lemma SetOrderPush(env: Env, gens: seq<RotCircle>, seed: Pos, gripsets: seq<GripSet>,
                     from: seq<(nat, nat)>, i: nat, j: nat)
    requires SetOrder(env, gens, seed, gripsets, from) && SetPushOk(env, gens, seed, gripsets, from, i, j)
    ensures SetOrder(env, gens, seed, gripsets + [RotateBy(env, gripsets[i], j)], from + [(i, j)])
    ensures forall b :: 0 < b < |from| + 1 ==> TriedBefore((from + [(i, j)])[b].0, (from + [(i, j)])[b].1, i, j + 1)
  {
    SetsProducedPush(env, gens, seed, gripsets, from, i, j);
    SetsInTriedOrderPush(env, gens, seed, gripsets, from, i, j);
    SetsFirstWithKeyPush(env, gens, seed, gripsets, from, i, j);
  }

  /** `owner` extended by `n` grips of configuration `b`. */
  function OwnerPush(owner: seq<nat>, n: nat, b: nat): (r: seq<nat>)
    ensures |r| == |owner| + n
    ensures forall m :: 0 <= m < |owner| ==> r[m] == owner[m]
    ensures forall m :: |owner| <= m < |r| ==> r[m] == b
  {
    owner + seq(n, _ => b)
  }

  /** The facts about appending configuration `gs` with the grips listed
      for it: every earlier configuration's grips are filed, and the grips
      of `gs` were listed by the pass over its circles. */
  ghost predicate GripPushOk(env: Env, gens: seq<RotCircle>, seed: Pos, grips: seq<(Pos, nat)>,
                             gripsets: seq<GripSet>, gs: GripSet, grips': seq<(Pos, nat)>, keys': set<CircleKey>)
  {
    && |gripsets| > 0 && Indexed(|gens|, grips)
    && EmitInv(env, gens, seed, gs, grips, grips', keys', |gens|)
    && (forall a {:trigger Covered(env, gens, seed, gripsets[a], GripKeys(env, gens, grips), |gens|)} ::
          0 <= a < |gripsets| ==> Covered(env, gens, seed, gripsets[a], GripKeys(env, gens, grips), |gens|))
  }

  lemma GripsProducedPush(env: Env, gens: seq<RotCircle>, seed: Pos, base: seq<(Pos, nat)>,
                          grips: seq<(Pos, nat)>, owner: seq<nat>, gripsets: seq<GripSet>,
                          gs: GripSet, grips': seq<(Pos, nat)>, keys': set<CircleKey>)
    requires GripPushOk(env, gens, seed, grips, gripsets, gs, grips', keys')
    requires |owner| == |grips| && |base| <= |grips| && GripsProduced(seed, base, grips, owner, gripsets)
    ensures GripsProduced(seed, base, grips', OwnerPush(owner, |grips'| - |grips|, |gripsets|), gripsets + [gs])
  {
    var s, o := gripsets + [gs], OwnerPush(owner, |grips'| - |grips|, |gripsets|);
    forall m | 0 <= m < |grips'|
      ensures && o[m] < |s| && grips'[m].1 < |s[o[m]].circles|
              && s[o[m]].circles[grips'[m].1].cen == grips'[m].0
              && Contains(s[o[m]].circles[grips'[m].1], seed)
              && (m < |base| <==> o[m] == 0)
    {
      if m < |grips| {
        assert o[m] == owner[m] && grips'[m] == grips[m] && s[owner[m]] == gripsets[owner[m]];
      } else {
        assert s[|gripsets|] == gs;
      }
    }
  }

  lemma GripsInTriedOrderPush(env: Env, gens: seq<RotCircle>, seed: Pos,
                              grips: seq<(Pos, nat)>, owner: seq<nat>, gripsets: seq<GripSet>,
                              gs: GripSet, grips': seq<(Pos, nat)>, keys': set<CircleKey>)
    requires GripPushOk(env, gens, seed, grips, gripsets, gs, grips', keys')
    requires |owner| == |grips| && GripsInTriedOrder(grips, owner)
    requires forall m :: 0 <= m < |grips| ==> owner[m] < |gripsets|
    ensures GripsInTriedOrder(grips', OwnerPush(owner, |grips'| - |grips|, |gripsets|))
  {
    var o := OwnerPush(owner, |grips'| - |grips|, |gripsets|);
    forall m1, m2 | 0 <= m1 < m2 < |grips'|
      ensures TriedBefore(o[m1], grips'[m1].1, o[m2], grips'[m2].1)
    {
      if m2 < |grips| {
        assert o[m1] == owner[m1] && grips'[m1] == grips[m1];
        assert o[m2] == owner[m2] && grips'[m2] == grips[m2];
      } else if m1 < |grips| {
        assert o[m1] == owner[m1];
      }
    }
  }

  lemma GripsFirstWithKeyPush(env: Env, gens: seq<RotCircle>, seed: Pos, base: seq<(Pos, nat)>,
                              grips: seq<(Pos, nat)>, owner: seq<nat>, gripsets: seq<GripSet>,
                              gs: GripSet, grips': seq<(Pos, nat)>, keys': set<CircleKey>)
    requires GripPushOk(env, gens, seed, grips, gripsets, gs, grips', keys')
    requires |owner| == |grips| && |base| <= |grips|
    requires forall m :: 0 <= m < |grips| ==> owner[m] < |gripsets|
    requires GripsFirstWithKey(env, gens, seed, base, grips, owner, gripsets)
    ensures GripsFirstWithKey(env, gens, seed, base, grips', OwnerPush(owner, |grips'| - |grips|, |gripsets|),
                              gripsets + [gs])
  {
    var s, o := gripsets + [gs], OwnerPush(owner, |grips'| - |grips|, |gripsets|);
    forall m, a, k | && |base| <= m < |grips'| && 0 <= a < |s| && 0 <= k < |gens| && k < |s[a].circles|
                     && TriedBefore(a, k, o[m], grips'[m].1) && Contains(s[a].circles[k], seed)
      ensures GripKey(env, gens, (s[a].circles[k].cen, k)) != GripKey(env, gens, grips'[m])
    {
      if m < |grips| {
        assert o[m] == owner[m] && grips'[m] == grips[m] && s[a] == gripsets[a];
      } else if a < |gripsets| {
        assert s[a] == gripsets[a];
        assert Covered(env, gens, seed, gripsets[a], GripKeys(env, gens, grips), |gens|);
        var key := GripKey(env, gens, (gripsets[a].circles[k].cen, k));
        assert key in GripKeys(env, gens, grips);
        var m1 :| 0 <= m1 < |grips| && key == GripKey(env, gens, grips[m1]);
        assert grips'[m1] == grips[m1];
      } else {
        assert s[a] == gs;
      }
    }
  }

  lemma GripOrderPush(env: Env, gens: seq<RotCircle>, seed: Pos, base: seq<(Pos, nat)>,
                      grips: seq<(Pos, nat)>, owner: seq<nat>, gripsets: seq<GripSet>,
                      gs: GripSet, grips': seq<(Pos, nat)>, keys': set<CircleKey>)
    requires GripOrder(env, gens, seed, base, grips, owner, gripsets)
    requires GripPushOk(env, gens, seed, grips, gripsets, gs, grips', keys')
    ensures GripOrder(env, gens, seed, base, grips', OwnerPush(owner, |grips'| - |grips|, |gripsets|),
                      gripsets + [gs])
  {
    assert forall m :: 0 <= m < |grips| ==> owner[m] < |gripsets|;
    GripsProducedPush(env, gens, seed, base, grips, owner, gripsets, gs, grips', keys');
    GripsInTriedOrderPush(env, gens, seed, grips, owner, gripsets, gs, grips', keys');
    GripsFirstWithKeyPush(env, gens, seed, base, grips, owner, gripsets, gs, grips', keys');
  }

  // ---------------------------------------------------------------
  // Listing the grips of a new configuration
  // ---------------------------------------------------------------

  /** What holds part-way through listing the grips of `gs`, after its first
      `k` circles: the list extends `start` by at most one entry per circle
      tried, each new entry is a grip of `gs`, the new entries come in
      circle order, no new entry repeats a key, no earlier circle of `gs`
      holding the seed has the key of a new entry, `keys` holds exactly the
      keys of the list, and the first `k` grips of `gs` are filed. */
  ghost predicate EmitInv(env: Env, gens: seq<RotCircle>, seed: Pos, gs: GripSet,
                          start: seq<(Pos, nat)>, grips: seq<(Pos, nat)>, keys: set<CircleKey>, k: nat)
  {
    && AlignedWith(gens, gs) && k <= |gens|
    && Indexed(|gens|, grips)
    && |start| <= |grips| <= |start| + k && grips[..|start|] == start
    && keys == GripKeys(env, gens, grips)
    && (forall m :: |start| <= m < |grips| ==>
          grips[m].1 < k && gs.circles[grips[m].1].cen == grips[m].0 && Contains(gs.circles[grips[m].1], seed))
    && (forall m1, m2 :: 0 <= m1 < m2 < |grips| && |start| <= m2 ==>
          GripKey(env, gens, grips[m1]) != GripKey(env, gens, grips[m2]))
    && (forall m1, m2 :: |start| <= m1 < m2 < |grips| ==> grips[m1].1 < grips[m2].1)
    && (forall m, k' :: |start| <= m < |grips| && 0 <= k' < grips[m].1 && Contains(gs.circles[k'], seed) ==>
          GripKey(env, gens, (gs.circles[k'].cen, k')) != GripKey(env, gens, grips[m]))
    && Covered(env, gens, seed, gs, keys, k)
  }

  lemma EmitSkip(env: Env, gens: seq<RotCircle>, seed: Pos, gs: GripSet,
                 start: seq<(Pos, nat)>, grips: seq<(Pos, nat)>, keys: set<CircleKey>, k: nat)
    requires EmitInv(env, gens, seed, gs, start, grips, keys, k) && k < |gens|
    requires !Contains(gs.circles[k], seed) || RotCircleHash(gs.circles[k], env.floatHash) in keys
    ensures EmitInv(env, gens, seed, gs, start, grips, keys, k + 1)
  {
    AlignedGripKey(env, gens, gs.circles[k], k);
  }

  lemma EmitPush(env: Env, gens: seq<RotCircle>, seed: Pos, gs: GripSet,
                 start: seq<(Pos, nat)>, grips: seq<(Pos, nat)>, keys: set<CircleKey>, k: nat)
    requires EmitInv(env, gens, seed, gs, start, grips, keys, k) && k < |gens|
    requires Contains(gs.circles[k], seed) && RotCircleHash(gs.circles[k], env.floatHash) !in keys
    ensures EmitInv(env, gens, seed, gs, start, grips + [(gs.circles[k].cen, k)],
                    keys + {RotCircleHash(gs.circles[k], env.floatHash)}, k + 1)
  {
    var e := (gs.circles[k].cen, k);
    var s := grips + [e];
    AlignedGripKey(env, gens, gs.circles[k], k);
    GripKeysPush(env, gens, grips, e);
    assert s[..|grips|] == grips;
    assert s[..|start|] == start;
    forall m | |start| <= m < |s|
      ensures s[m].1 < k + 1 && gs.circles[s[m].1].cen == s[m].0 && Contains(gs.circles[s[m].1], seed)
    {
      if m < |grips| {
        assert s[m] == grips[m];
      }
    }
    forall m1, m2 | 0 <= m1 < m2 < |s| && |start| <= m2
      ensures GripKey(env, gens, s[m1]) != GripKey(env, gens, s[m2])
    {
      assert s[m1] == grips[m1];
      if m2 == |grips| {
        assert GripKey(env, gens, grips[m1]) in GripKeys(env, gens, grips);
      } else {
        assert s[m2] == grips[m2];
      }
    }
    EmitPushOrdered(env, gens, seed, gs, start, grips, keys, k);
  }

  /** A grip listed at circle `k` comes after the earlier new grips, and no
      earlier circle holding the seed has its key. */
  lemma EmitPushOrdered(env: Env, gens: seq<RotCircle>, seed: Pos, gs: GripSet,
                        start: seq<(Pos, nat)>, grips: seq<(Pos, nat)>, keys: set<CircleKey>, k: nat)
    requires EmitInv(env, gens, seed, gs, start, grips, keys, k) && k < |gens|
    requires Contains(gs.circles[k], seed) && RotCircleHash(gs.circles[k], env.floatHash) !in keys
    ensures var s := grips + [(gs.circles[k].cen, k)];
      && (forall m1, m2 :: |start| <= m1 < m2 < |s| ==> s[m1].1 < s[m2].1)
      && (forall m, k' :: |start| <= m < |s| && 0 <= k' < s[m].1 && Contains(gs.circles[k'], seed) ==>
            GripKey(env, gens, (gs.circles[k'].cen, k')) != GripKey(env, gens, s[m]))
  {
    var s := grips + [(gs.circles[k].cen, k)];
    AlignedGripKey(env, gens, gs.circles[k], k);
    forall m1, m2 | |start| <= m1 < m2 < |s|
      ensures s[m1].1 < s[m2].1
    {
      assert s[m1] == grips[m1];
      if m2 < |grips| {
        assert s[m2] == grips[m2];
      }
    }
    forall m, k' | |start| <= m < |s| && 0 <= k' < s[m].1 && Contains(gs.circles[k'], seed)
      ensures GripKey(env, gens, (gs.circles[k'].cen, k')) != GripKey(env, gens, s[m])
    {
      if m < |grips| {
        assert s[m] == grips[m];
      } else {
        assert GripKey(env, gens, (gs.circles[k'].cen, k')) in keys;
      }
    }
  }

  /** The inner loop of `expand_grips` over a newly reached configuration:
      each circle that holds the seed and whose key is new is filed and
      listed with its index. */
  method EmitGrips(env: Env, gens: seq<RotCircle>, seed: Pos, gs: GripSet,
                   grips: seq<(Pos, nat)>, keys: set<CircleKey>)
    returns (grips': seq<(Pos, nat)>, keys': set<CircleKey>)
    requires EmitInv(env, gens, seed, gs, grips, grips, keys, 0)
    ensures EmitInv(env, gens, seed, gs, grips, grips', keys', |gens|)
  {
    grips', keys' := grips, keys;
    var k := 0;
    while k < |gs.circles|
      invariant EmitInv(env, gens, seed, gs, grips, grips', keys', k)
    {
      var grip := gs.circles[k];
      if Contains(grip, seed) && RotCircleHash(grip, env.floatHash) !in keys' {
        EmitPush(env, gens, seed, gs, grips, grips', keys', k);
        keys' := keys' + {RotCircleHash(grip, env.floatHash)};
        grips' := grips' + [(grip.cen, k)];
      } else {
        EmitSkip(env, gens, seed, gs, grips, grips', keys', k);
      }
      k := k + 1;
    }
  }

  // ---------------------------------------------------------------
  // Expanding one configuration
  // ---------------------------------------------------------------

  /** Appending a new rotation of configuration `i` keeps the configuration
      list well formed. */
  lemma GripSetListPush(env: Env, gens: seq<RotCircle>, seed: Pos, gripsets: seq<GripSet>,
                                           i: nat, j: nat)
    requires GripSetList(env, gens, seed, gripsets, i + 1)
    requires i < |gripsets| && j < |gripsets[i].circles| && Contains(gripsets[i].circles[j], seed)
    requires SetHash(env, RotateBy(env, gripsets[i], j)) !in SetHashes(env, gripsets)
    ensures GripSetList(env, gens, seed, gripsets + [RotateBy(env, gripsets[i], j)], i + 1)
  {
    var gs := RotateBy(env, gripsets[i], j);
    RotateByAligned(env, gens, gripsets[i], j);
    AlignedPush(gens, gripsets, gs);
    DerivedPush(env, seed, gripsets, i, j, i + 1);
    DistinctPush(env, gripsets, gs);
  }

  lemma AlignedPush(gens: seq<RotCircle>, gripsets: seq<GripSet>, gs: GripSet)
    requires forall a :: 0 <= a < |gripsets| ==> AlignedWith(gens, gripsets[a])
    requires AlignedWith(gens, gs)
    ensures forall a :: 0 <= a < |gripsets| + 1 ==> AlignedWith(gens, (gripsets + [gs])[a])
  {
    var s := gripsets + [gs];
    forall a | 0 <= a < |s|
      ensures AlignedWith(gens, s[a])
    {
      if a < |gripsets| {
        assert s[a] == gripsets[a];
      }
    }
  }

  lemma DerivedPush(env: Env, seed: Pos, gripsets: seq<GripSet>, i: nat, j: nat, bound: nat)
    requires i < |gripsets| && i < bound && j < |gripsets[i].circles| && Contains(gripsets[i].circles[j], seed)
    requires forall b :: 0 < b < |gripsets| ==> Derived(env, seed, gripsets, b, bound)
    ensures var s := gripsets + [RotateBy(env, gripsets[i], j)];
      forall b :: 0 < b < |s| ==> Derived(env, seed, s, b, bound)
  {
    var s := gripsets + [RotateBy(env, gripsets[i], j)];
    forall b | 0 < b < |s|
      ensures Derived(env, seed, s, b, bound)
    {
      DerivedPushOne(env, seed, gripsets, i, j, b, bound);
    }
  }

  lemma DerivedPushOne(env: Env, seed: Pos, gripsets: seq<GripSet>, i: nat, j: nat, b: nat, bound: nat)
    requires i < |gripsets| && i < bound && j < |gripsets[i].circles| && Contains(gripsets[i].circles[j], seed)
    requires 0 < b <= |gripsets|
    requires b < |gripsets| ==> Derived(env, seed, gripsets, b, bound)
    ensures Derived(env, seed, gripsets + [RotateBy(env, gripsets[i], j)], b, bound)
  {
    var s := gripsets + [RotateBy(env, gripsets[i], j)];
    if b < |gripsets| {
      var a, j' :| 0 <= a < b && a < bound && 0 <= j' < |gripsets[a].circles| &&
        Contains(gripsets[a].circles[j'], seed) && gripsets[b] == RotateBy(env, gripsets[a], j');
      assert s[a] == gripsets[a] && s[b] == gripsets[b];
    } else {
      assert s[i] == gripsets[i];
    }
  }

  lemma DistinctPush(env: Env, gripsets: seq<GripSet>, gs: GripSet)
    requires forall a1, a2 :: 0 <= a1 < a2 < |gripsets| ==> SetHash(env, gripsets[a1]) != SetHash(env, gripsets[a2])
    requires SetHash(env, gs) !in SetHashes(env, gripsets)
    ensures var s := gripsets + [gs];
      forall a1, a2 :: 0 <= a1 < a2 < |s| ==> SetHash(env, s[a1]) != SetHash(env, s[a2])
  {
    var s := gripsets + [gs];
    forall a1, a2 | 0 <= a1 < a2 < |s|
      ensures SetHash(env, s[a1]) != SetHash(env, s[a2])
    {
      assert s[a1] == gripsets[a1];
      if a2 == |gripsets| {
        assert SetHash(env, gripsets[a1]) in SetHashes(env, gripsets);
      } else {
        assert s[a2] == gripsets[a2];
      }
    }
  }

  /** The grips listed for a new configuration `gs`, appended to the list,
      keep it a grip list of the configuration list with `gs` appended. */
  lemma GripListPush(env: Env, gens: seq<RotCircle>, seed: Pos, base: seq<(Pos, nat)>,
                                        grips: seq<(Pos, nat)>, grips': seq<(Pos, nat)>, keys': set<CircleKey>,
                                        gripsets: seq<GripSet>, gs: GripSet)
    requires GripList(env, gens, seed, base, grips, gripsets)
    requires EmitInv(env, gens, seed, gs, grips, grips', keys', |gens|)
    ensures GripList(env, gens, seed, base, grips', gripsets + [gs])
  {
    var s := gripsets + [gs];
    assert grips'[..|base|] == grips'[..|grips|][..|base|];
    forall m | 0 <= m < |grips'|
      ensures IsGrip(seed, s, grips'[m])
    {
      if m < |grips| {
        assert grips'[m] == grips[m];
        assert IsGrip(seed, gripsets, grips[m]);
        var a :| 0 <= a < |gripsets| && grips[m].1 < |gripsets[a].circles| &&
          gripsets[a].circles[grips[m].1].cen == grips[m].0 && Contains(gripsets[a].circles[grips[m].1], seed);
        assert s[a] == gripsets[a];
      } else {
        assert s[|gripsets|] == gs;
      }
    }
    forall m1, m2 | 0 <= m1 < m2 < |grips'| && |base| <= m2
      ensures GripKey(env, gens, grips'[m1]) != GripKey(env, gens, grips'[m2])
    {
      if m2 < |grips| {
        assert grips'[m1] == grips[m1] && grips'[m2] == grips[m2];
      }
    }
  }

  /** The lists part-way through expanding configuration `i`, after its
      first `j` circles: the configuration list extends the list `start` the
      pass began with by at most one per circle tried, and the two key sets
      hold exactly the keys of the two lists. */
  ghost predicate ListsInv(env: Env, gens: seq<RotCircle>, seed: Pos, base: seq<(Pos, nat)>,
                           start: seq<GripSet>, gripsets: seq<GripSet>, setKeys: set<seq<seq<int>>>,
                           grips: seq<(Pos, nat)>, keys: set<CircleKey>, i: nat, j: nat)
  {
    && i < |start| && j <= |gens|
    && GripSetList(env, gens, seed, gripsets, i + 1)
    && |start| <= |gripsets| <= |start| + j && gripsets[..|start|] == start
    && setKeys == SetHashes(env, gripsets)
    && GripList(env, gens, seed, base, grips, gripsets)
    && keys == GripKeys(env, gens, grips)
  }

  /** What is filed part-way through expanding configuration `i`: the grips
      of every listed configuration, the rotations of every earlier
      configuration, and the first `j` rotations of configuration `i`. */
  ghost predicate FiledInv(env: Env, gens: seq<RotCircle>, seed: Pos, gripsets: seq<GripSet>,
                           setKeys: set<seq<seq<int>>>, keys: set<CircleKey>, i: nat, j: nat)
  {
    && i < |gripsets|
    && (forall a {:trigger Covered(env, gens, seed, gripsets[a], keys, |gens|)} :: 0 <= a < |gripsets| ==> Covered(env, gens, seed, gripsets[a], keys, |gens|))
    && (forall a {:trigger SetExpanded(env, seed, gripsets[a], setKeys, |gens|)} :: 0 <= a < i ==> SetExpanded(env, seed, gripsets[a], setKeys, |gens|))
    && SetExpanded(env, seed, gripsets[i], setKeys, j)
  }

  /** The order of both lists part-way through expanding configuration
      `i`, after its first `j` circles: every configuration came from a pair
      tried before `(i, j)`. */
  ghost predicate OrderInv(env: Env, gens: seq<RotCircle>, seed: Pos, base: seq<(Pos, nat)>,
                           gripsets: seq<GripSet>, from: seq<(nat, nat)>,
                           grips: seq<(Pos, nat)>, owner: seq<nat>, i: nat, j: nat)
  {
    && SetOrder(env, gens, seed, gripsets, from)
    && (forall b :: 0 < b < |gripsets| ==> TriedBefore(from[b].0, from[b].1, i, j))
    && GripOrder(env, gens, seed, base, grips, owner, gripsets)
  }

  ghost predicate SetEntryInv(env: Env, gens: seq<RotCircle>, seed: Pos, base: seq<(Pos, nat)>,
                              start: seq<GripSet>, gripsets: seq<GripSet>, from: seq<(nat, nat)>,
                              setKeys: set<seq<seq<int>>>, grips: seq<(Pos, nat)>, owner: seq<nat>,
                              keys: set<CircleKey>, i: nat, j: nat)
  {
    && ListsInv(env, gens, seed, base, start, gripsets, setKeys, grips, keys, i, j)
    && FiledInv(env, gens, seed, gripsets, setKeys, keys, i, j)
    && OrderInv(env, gens, seed, base, gripsets, from, grips, owner, i, j)
  }

  /** Trying circle `j` of configuration `i` without appending anything. */
  lemma SetSkip(env: Env, gens: seq<RotCircle>, seed: Pos, base: seq<(Pos, nat)>,
                start: seq<GripSet>, gripsets: seq<GripSet>, from: seq<(nat, nat)>, setKeys: set<seq<seq<int>>>,
                grips: seq<(Pos, nat)>, owner: seq<nat>, keys: set<CircleKey>, i: nat, j: nat)
    requires SetEntryInv(env, gens, seed, base, start, gripsets, from, setKeys, grips, owner, keys, i, j)
    requires j < |gens| && j < |gripsets[i].circles|
    requires !Contains(gripsets[i].circles[j], seed) ||
             SetHash(env, RotateBy(env, gripsets[i], j)) in setKeys
    ensures SetEntryInv(env, gens, seed, base, start, gripsets, from, setKeys, grips, owner, keys, i, j + 1)
  {
    assert forall b :: 0 < b < |gripsets| ==> TriedBefore(from[b].0, from[b].1, i, j + 1);
  }

  /** Appending the rotation of configuration `i` by circle `j`, with the
      grips listed for it, keeps both lists in order. */
  lemma OrderPush(env: Env, gens: seq<RotCircle>, seed: Pos, base: seq<(Pos, nat)>,
                  start: seq<GripSet>, gripsets: seq<GripSet>, from: seq<(nat, nat)>, setKeys: set<seq<seq<int>>>,
                  grips: seq<(Pos, nat)>, owner: seq<nat>, keys: set<CircleKey>, i: nat, j: nat,
                  grips': seq<(Pos, nat)>, keys': set<CircleKey>)
    requires SetEntryInv(env, gens, seed, base, start, gripsets, from, setKeys, grips, owner, keys, i, j)
    requires j < |gens| && j < |gripsets[i].circles| && Contains(gripsets[i].circles[j], seed)
    requires SetHash(env, RotateBy(env, gripsets[i], j)) !in setKeys
    requires EmitInv(env, gens, seed, RotateBy(env, gripsets[i], j), grips, grips', keys', |gens|)
    ensures OrderInv(env, gens, seed, base, gripsets + [RotateBy(env, gripsets[i], j)], from + [(i, j)],
                     grips', OwnerPush(owner, |grips'| - |grips|, |gripsets|), i, j + 1)
  {
    assert SetsFiled(env, gens, seed, gripsets, i, j);
    SetOrderPush(env, gens, seed, gripsets, from, i, j);
    GripOrderPush(env, gens, seed, base, grips, owner, gripsets, RotateBy(env, gripsets[i], j), grips', keys');
  }

  /** Everything filed stays filed as the lists grow. */
  lemma FiledPush(env: Env, gens: seq<RotCircle>, seed: Pos, gripsets: seq<GripSet>,
                                     setKeys: set<seq<seq<int>>>, keys: set<CircleKey>, keys': set<CircleKey>,
                                     i: nat, j: nat)
    requires FiledInv(env, gens, seed, gripsets, setKeys, keys, i, j)
    requires j < |gripsets[i].circles| && keys <= keys'
    requires Covered(env, gens, seed, RotateBy(env, gripsets[i], j), keys', |gens|)
    ensures var gs := RotateBy(env, gripsets[i], j);
      FiledInv(env, gens, seed, gripsets + [gs], setKeys + {SetHash(env, gs)}, keys', i, j + 1)
  {
    var gs := RotateBy(env, gripsets[i], j);
    var s, setKeys' := gripsets + [gs], setKeys + {SetHash(env, gs)};
    forall a | 0 <= a < |s|
      ensures Covered(env, gens, seed, s[a], keys', |gens|)
    {
      if a < |gripsets| {
        assert s[a] == gripsets[a];
        assert Covered(env, gens, seed, gripsets[a], keys, |gens|);
      }
    }
    forall a | 0 <= a < i
      ensures SetExpanded(env, seed, s[a], setKeys', |gens|)
    {
      assert s[a] == gripsets[a];
      assert SetExpanded(env, seed, gripsets[a], setKeys, |gens|);
    }
    assert s[i] == gripsets[i];
  }

  /** The lists stay well formed when the rotation by circle `j` of
      configuration `i` is appended with its grips. */
  lemma ListsPush(env: Env, gens: seq<RotCircle>, seed: Pos, base: seq<(Pos, nat)>,
                start: seq<GripSet>, gripsets: seq<GripSet>, setKeys: set<seq<seq<int>>>,
                grips: seq<(Pos, nat)>, keys: set<CircleKey>, i: nat, j: nat,
                grips': seq<(Pos, nat)>, keys': set<CircleKey>)
    requires ListsInv(env, gens, seed, base, start, gripsets, setKeys, grips, keys, i, j) && j < |gens|
    requires i < |gripsets| && j < |gripsets[i].circles| && Contains(gripsets[i].circles[j], seed)
    requires SetHash(env, RotateBy(env, gripsets[i], j)) !in setKeys
    requires EmitInv(env, gens, seed, RotateBy(env, gripsets[i], j), grips, grips', keys', |gens|)
    ensures var gs := RotateBy(env, gripsets[i], j);
      ListsInv(env, gens, seed, base, start, gripsets + [gs], setKeys + {SetHash(env, gs)},
               grips', keys', i, j + 1)
  {
    var gs := RotateBy(env, gripsets[i], j);
    var s := gripsets + [gs];
    GripSetListPush(env, gens, seed, gripsets, i, j);
    assert s[..|start|] == gripsets[..|start|];
    SetHashesPush(env, gripsets, gs);
    GripListPush(env, gens, seed, base, grips, grips', keys', gripsets, gs);
  }

  /** Trying circle `j` of configuration `i` and appending its rotation,
      whose grips have been listed. */
  lemma SetPush(env: Env, gens: seq<RotCircle>, seed: Pos, base: seq<(Pos, nat)>,
                start: seq<GripSet>, gripsets: seq<GripSet>, from: seq<(nat, nat)>, setKeys: set<seq<seq<int>>>,
                grips: seq<(Pos, nat)>, owner: seq<nat>, keys: set<CircleKey>, i: nat, j: nat,
                grips': seq<(Pos, nat)>, keys': set<CircleKey>)
    requires SetEntryInv(env, gens, seed, base, start, gripsets, from, setKeys, grips, owner, keys, i, j)
    requires j < |gens| && j < |gripsets[i].circles| && Contains(gripsets[i].circles[j], seed)
    requires SetHash(env, RotateBy(env, gripsets[i], j)) !in setKeys
    requires EmitInv(env, gens, seed, RotateBy(env, gripsets[i], j), grips, grips', keys', |gens|)
    ensures SetEntryInv(env, gens, seed, base, start, gripsets + [RotateBy(env, gripsets[i], j)], from + [(i, j)],
                        setKeys + {SetHash(env, RotateBy(env, gripsets[i], j))},
                        grips', OwnerPush(owner, |grips'| - |grips|, |gripsets|), keys', i, j + 1)
  {
    ListsPush(env, gens, seed, base, start, gripsets, setKeys, grips, keys, i, j, grips', keys');
    GripKeysExtend(env, gens, grips, grips');
    FiledPush(env, gens, seed, gripsets, setKeys, keys, keys', i, j);
    OrderPush(env, gens, seed, base, start, gripsets, from, setKeys, grips, owner, keys, i, j, grips', keys');
  }

  /** One step of the loop of `expand_grips` over the circles of
      configuration `i`: if circle `j` holds the seed and the rotation by it
      has a new key, the rotation is filed, its grips are listed, and it is
      appended. */
  method TryCircle(env: Env, gens: seq<RotCircle>, seed: Pos, base: seq<(Pos, nat)>, start: seq<GripSet>,
                   gripsets: seq<GripSet>, ghost from: seq<(nat, nat)>, setKeys: set<seq<seq<int>>>,
                   grips: seq<(Pos, nat)>, ghost owner: seq<nat>, keys: set<CircleKey>, i: nat, j: nat)
    returns (gripsets': seq<GripSet>, ghost from': seq<(nat, nat)>, setKeys': set<seq<seq<int>>>,
             grips': seq<(Pos, nat)>, ghost owner': seq<nat>, keys': set<CircleKey>)
    requires SetEntryInv(env, gens, seed, base, start, gripsets, from, setKeys, grips, owner, keys, i, j)
    requires j < |gens|
    ensures SetEntryInv(env, gens, seed, base, start, gripsets', from', setKeys', grips', owner', keys', i, j + 1)
  {
    gripsets', from', setKeys', grips', owner', keys' := gripsets, from, setKeys, grips, owner, keys;
    assert AlignedWith(gens, gripsets[i]);
    var g := gripsets[i].circles[j];
    if Contains(g, seed) {
      var newSet := RotateBy(env, gripsets[i], j);
      if SetHash(env, newSet) !in setKeys {
        RotateByAligned(env, gens, gripsets[i], j);
        var g2, k2 := EmitGrips(env, gens, seed, newSet, grips, keys);
        SetPush(env, gens, seed, base, start, gripsets, from, setKeys, grips, owner, keys, i, j, g2, k2);
        setKeys' := setKeys + {SetHash(env, newSet)};
        grips', keys' := g2, k2;
        owner' := OwnerPush(owner, |g2| - |grips|, |gripsets|);
        gripsets', from' := gripsets + [newSet], from + [(i, j)];
        return;
      }
    }
    SetSkip(env, gens, seed, base, start, gripsets, from, setKeys, grips, owner, keys, i, j);
  }

  /** One pass of the loop of `expand_grips` over the circles of
      configuration `i`. */
  method ExpandGripSet(env: Env, gens: seq<RotCircle>, seed: Pos, base: seq<(Pos, nat)>,
                       gripsets: seq<GripSet>, ghost from: seq<(nat, nat)>, setKeys: set<seq<seq<int>>>,
                       grips: seq<(Pos, nat)>, ghost owner: seq<nat>, keys: set<CircleKey>, i: nat)
    returns (gripsets': seq<GripSet>, ghost from': seq<(nat, nat)>, setKeys': set<seq<seq<int>>>,
             grips': seq<(Pos, nat)>, ghost owner': seq<nat>, keys': set<CircleKey>)
    requires SetEntryInv(env, gens, seed, base, gripsets, gripsets, from, setKeys, grips, owner, keys, i, 0)
    ensures SetEntryInv(env, gens, seed, base, gripsets, gripsets', from', setKeys', grips', owner', keys', i, |gens|)
  {
    gripsets', from', setKeys', grips', owner', keys' := gripsets, from, setKeys, grips, owner, keys;
    var n := |gripsets[i].circles|;
    assert AlignedWith(gens, gripsets[i]);
    var j := 0;
    while j < n
      invariant j <= n
      invariant SetEntryInv(env, gens, seed, base, gripsets, gripsets', from', setKeys', grips', owner', keys', i, j)
    {
      gripsets', from', setKeys', grips', owner', keys' :=
        TryCircle(env, gens, seed, base, gripsets, gripsets', from', setKeys', grips', owner', keys', i, j);
      j := j + 1;
    }
  }

  // ---------------------------------------------------------------
  // expand_grips
  // ---------------------------------------------------------------

  /** What holds before the outer loop of `expand_grips` expands
      configuration `i`: the lists are well formed, the key sets hold their
      keys, every reached configuration's grips are filed, every rotation of
      the first `i` configurations is filed, and at most one configuration
      was added per circle of an expanded configuration. */
  ghost predicate GripsInv(env: Env, gens: seq<RotCircle>, seed: Pos, base: seq<(Pos, nat)>,
                           gripsets: seq<GripSet>, from: seq<(nat, nat)>, setKeys: set<seq<seq<int>>>,
                           grips: seq<(Pos, nat)>, owner: seq<nat>, keys: set<CircleKey>, i: nat)
  {
    && i <= |gripsets|
    && GripSetList(env, gens, seed, gripsets, i)
    && SetOrder(env, gens, seed, gripsets, from)
    && (forall b :: 0 < b < |gripsets| ==> from[b].0 < i)
    && GripOrder(env, gens, seed, base, grips, owner, gripsets)
    && setKeys == SetHashes(env, gripsets)
    && GripList(env, gens, seed, base, grips, gripsets)
    && keys == GripKeys(env, gens, grips)
    && (forall a {:trigger Covered(env, gens, seed, gripsets[a], keys, |gens|)} :: 0 <= a < |gripsets| ==> Covered(env, gens, seed, gripsets[a], keys, |gens|))
    && (forall a {:trigger SetExpanded(env, seed, gripsets[a], setKeys, |gens|)} :: 0 <= a < i ==> SetExpanded(env, seed, gripsets[a], setKeys, |gens|))
    && |gripsets| <= 1 + Budget(i, |gens|)
  }

  /** The state after the initial grips are listed. */
  lemma GripsStart(env: Env, gens: seq<RotCircle>, seed: Pos,
                                      base: seq<(Pos, nat)>, keys: set<CircleKey>)
    requires base == BaseGrips(gens, seed, |gens|)
    requires Indexed(|gens|, base) && keys == GripKeys(env, gens, base)
    ensures GripsInv(env, gens, seed, base, [GripSet(gens)], [(0, 0)], {SetHash(env, GripSet(gens))},
                     base, seq(|base|, _ => 0), keys, 0)
  {
    var gs := GripSet(gens);
    var gripsets := [gs];
    BaseGripsSpec(gens, seed, |gens|);
    SetHashesPush(env, [], gs);
    assert [] + [gs] == gripsets;
    assert base[..|base|] == base;
    forall m | 0 <= m < |base|
      ensures IsGrip(seed, gripsets, base[m])
    {
      assert gripsets[0].circles[base[m].1] == gens[base[m].1];
    }
    forall k | 0 <= k < |gens| && Contains(gs.circles[k], seed)
      ensures GripKey(env, gens, (gs.circles[k].cen, k)) in keys
    {
      var m :| 0 <= m < |base| && base[m] == (gens[k].cen, k);
    }
    BaseOrder(env, gens, seed);
  }

  /** The initial grips, all credited to the generators, are in search
      order. */
  lemma BaseOrder(env: Env, gens: seq<RotCircle>, seed: Pos)
    ensures SetOrder(env, gens, seed, [GripSet(gens)], [(0, 0)])
    ensures GripOrder(env, gens, seed, BaseGrips(gens, seed, |gens|), BaseGrips(gens, seed, |gens|),
                      seq(|BaseGrips(gens, seed, |gens|)|, _ => 0), [GripSet(gens)])
  {
    var base := BaseGrips(gens, seed, |gens|);
    var owner: seq<nat> := seq(|base|, _ => 0);
    var gripsets := [GripSet(gens)];
    BaseGripsSpec(gens, seed, |gens|);
    forall m | 0 <= m < |base|
      ensures gripsets[owner[m]].circles[base[m].1] == gens[base[m].1]
    {
    }
    assert GripsProduced(seed, base, base, owner, gripsets);
    forall m1, m2 | 0 <= m1 < m2 < |base|
      ensures TriedBefore(owner[m1], base[m1].1, owner[m2], base[m2].1)
    {
    }
  }

  /** Moving from the outer loop into the pass over configuration `i`. */
  lemma EnterSet(env: Env, gens: seq<RotCircle>, seed: Pos, base: seq<(Pos, nat)>,
                 gripsets: seq<GripSet>, from: seq<(nat, nat)>, setKeys: set<seq<seq<int>>>,
                 grips: seq<(Pos, nat)>, owner: seq<nat>, keys: set<CircleKey>, i: nat)
    requires GripsInv(env, gens, seed, base, gripsets, from, setKeys, grips, owner, keys, i) && i < |gripsets|
    ensures SetEntryInv(env, gens, seed, base, gripsets, gripsets, from, setKeys, grips, owner, keys, i, 0)
  {
    GripSetListWeaken(env, gens, seed, gripsets, i, i + 1);
    assert gripsets[..|gripsets|] == gripsets;
  }

  /** Finishing the pass over configuration `i` moves the outer loop on. */
  lemma LeaveSet(env: Env, gens: seq<RotCircle>, seed: Pos, base: seq<(Pos, nat)>,
                 start: seq<GripSet>, gripsets: seq<GripSet>, from: seq<(nat, nat)>, setKeys: set<seq<seq<int>>>,
                 grips: seq<(Pos, nat)>, owner: seq<nat>, keys: set<CircleKey>, i: nat)
    requires |start| <= 1 + Budget(i, |gens|)
    requires SetEntryInv(env, gens, seed, base, start, gripsets, from, setKeys, grips, owner, keys, i, |gens|)
    ensures GripsInv(env, gens, seed, base, gripsets, from, setKeys, grips, owner, keys, i + 1)
  {
    assert Budget(i + 1, |gens|) == Budget(i, |gens|) + |gens|;
    assert forall a :: 0 <= a < i + 1 ==> SetExpanded(env, seed, gripsets[a], setKeys, |gens|);
  }

  /** `expand_grips`: the grips of the seed, i.e. the circles of every
      configuration reachable from the generators by at most `depth` rounds
      of rotations whose regions hold the seed, each listed as its centre
      and generator index. The initial grips come first; every later grip
      has a key no earlier one has; every listed grip is a grip of a reached
      configuration and every grip of a reached configuration is listed up
      to its key; the first `depth` configurations (or all, if fewer) had
      every rotation tried; at most `depth * |gens|` configurations were
      added. The configuration list is returned as well. Both lists are in
      search order: each configuration comes from the first (configuration,
      circle) pair, tried in that order, whose rotation gives its hash, and
      each grip after the initial ones from the first (configuration,
      circle) pair whose circle has its key; the ghost `from` and `owner`
      name those pairs and configurations. */
  method ExpandGrips(env: Env, gens: seq<RotCircle>, depth: nat, seed: Pos)
    returns (grips: seq<(Pos, nat)>, gripsets: seq<GripSet>, ghost from: seq<(nat, nat)>, ghost owner: seq<nat>)
    ensures GripSetList(env, gens, seed, gripsets, depth)
    ensures GripList(env, gens, seed, BaseGrips(gens, seed, |gens|), grips, gripsets)
    ensures SetOrder(env, gens, seed, gripsets, from)
    ensures GripOrder(env, gens, seed, BaseGrips(gens, seed, |gens|), grips, owner, gripsets)
    ensures forall a :: 0 <= a < |gripsets| ==>
      Covered(env, gens, seed, gripsets[a], GripKeys(env, gens, grips), |gens|)
    ensures forall a :: 0 <= a < |gripsets| && a < depth ==>
      SetExpanded(env, seed, gripsets[a], SetHashes(env, gripsets), |gens|)
    ensures |gripsets| <= 1 + depth * |gens|
  {
    var baseGrips := GripSet(gens);
    gripsets := [baseGrips];
    from := [(0, 0)];
    var setKeys := {SetHash(env, baseGrips)};
    var base, keys := InitialGrips(env, gens, seed);
    grips := base;
    owner := seq(|base|, _ => 0);
    GripsStart(env, gens, seed, base, keys);
    var i := 0;
    while i < depth
      invariant i <= depth
      invariant GripsInv(env, gens, seed, base, gripsets, from, setKeys, grips, owner, keys, i)
    {
      if i >= |gripsets| {
        break;
      }
      EnterSet(env, gens, seed, base, gripsets, from, setKeys, grips, owner, keys, i);
      ghost var before := gripsets;
      gripsets, from, setKeys, grips, owner, keys :=
        ExpandGripSet(env, gens, seed, base, gripsets, from, setKeys, grips, owner, keys, i);
      LeaveSet(env, gens, seed, base, before, gripsets, from, setKeys, grips, owner, keys, i);
      i := i + 1;
    }
    GripSetListWeaken(env, gens, seed, gripsets, i, depth);
    BudgetBound(i, depth, |gens|);
  }

  /** Reaching any configuration besides the generators, or listing any
      grip, needs a generator whose region holds the seed: with none, the
      search reaches nothing and the list is empty. */
  lemma GripsNeedHolder(env: Env, gens: seq<RotCircle>, seed: Pos, bound: nat,
                                           grips: seq<(Pos, nat)>, gripsets: seq<GripSet>)
    requires GripSetList(env, gens, seed, gripsets, bound)
    requires GripList(env, gens, seed, BaseGrips(gens, seed, |gens|), grips, gripsets)
    ensures (|gripsets| > 1 || grips != []) ==> exists k :: 0 <= k < |gens| && Contains(gens[k], seed)
  {
    if |gripsets| > 1 {
      assert Derived(env, seed, gripsets, 1, bound);
      var a, j :| 0 <= a < 1 && a < bound && 0 <= j < |gripsets[a].circles| &&
        Contains(gripsets[a].circles[j], seed) && gripsets[1] == RotateBy(env, gripsets[a], j);
      assert Contains(gens[j], seed);
    } else if grips != [] {
      var e := grips[0];
      assert IsGrip(seed, gripsets, e);
      var a :| 0 <= a < |gripsets| && e.1 < |gripsets[a].circles| &&
        gripsets[a].circles[e.1].cen == e.0 && Contains(gripsets[a].circles[e.1], seed);
      assert Contains(gens[e.1], seed);
    }
  }
}
