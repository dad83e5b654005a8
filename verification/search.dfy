/** The budgeted breadth-first search for the orbit of a seed point under
    the generators (`expand_seed`), and the environment shared with the
    search over generator configurations in module Grips. */
module Search {
  import opened Points
  import opened Circles

  /** What the searches take from outside the modelled core: the cosine and
      sine of `TAU / step`, the hash map's float bucketing, the
      curvature-dependent distance and distance to infinity, the conversion
      of a circle of the current geometry to its on-screen centre and
      radius, and the colour the palette picks for a given count. */
  datatype Env = Env(
    turn: nat -> Turn,
    floatHash: real -> int,
    dist: (Pos, Pos) -> real,
    distToInf: Pos -> real,
    project: (Pos, real) -> (Pos, real),
    palette: nat -> Rgba)

  /** A generator's rotation of a point. */
  function Rotate(env: Env, g: RotCircle, p: Pos): Pos
  {
    RotatePoint(g, env.turn(g.step), p)
  }

  /** The key under which the point set files a point. */
  function Key(env: Env, p: Pos): seq<int>
  {
    PosHash(p, env.floatHash)
  }

  function Min(a: real, b: real): (m: real)
    ensures m <= a && m <= b && (m == a || m == b)
  {
    if b < a then b else a
  }

  function Abs(x: real): (r: real)
    ensures r >= 0.0 && (r == x || r == -x)
  {
    if x < 0.0 then -x else x
  }

  // ---------------------------------------------------------------
  // Packing radius
  // ---------------------------------------------------------------

  /** How far `p` is from the circle of generator `g`. */
  function Gap(env: Env, g: RotCircle, p: Pos): real
  {
    Abs(env.dist(g.cen, p) - g.rad)
  }

  /** The `point_max_rad` closure: the least gap from `p` to any generator's
      circle, folded with `min` from the first generator on. There is no
      value for an empty generator list. */
  function PointMaxRad(env: Env, gens: seq<RotCircle>, p: Pos): real
    requires |gens| > 0
    decreases |gens|
  {
    if |gens| == 1 then Gap(env, gens[0], p)
    else Min(PointMaxRad(env, gens[..|gens| - 1], p), Gap(env, gens[|gens| - 1], p))
  }

  /** `point_max_rad` is the least gap to any generator's circle. */
  lemma {:induction false} PointMaxRadIsLeast(env: Env, gens: seq<RotCircle>, p: Pos)
    requires |gens| > 0
    ensures forall k :: 0 <= k < |gens| ==> PointMaxRad(env, gens, p) <= Gap(env, gens[k], p)
    ensures exists k :: 0 <= k < |gens| && PointMaxRad(env, gens, p) == Gap(env, gens[k], p)
    decreases |gens|
  {
    if |gens| == 1 {
      assert PointMaxRad(env, gens, p) == Gap(env, gens[0], p);
    } else {
      var init := gens[..|gens| - 1];
      PointMaxRadIsLeast(env, init, p);
      assert forall k :: 0 <= k < |init| ==> init[k] == gens[k];
      var w :| 0 <= w < |init| && PointMaxRad(env, init, p) == Gap(env, init[w], p);
      if PointMaxRad(env, gens, p) == PointMaxRad(env, init, p) {
        assert PointMaxRad(env, gens, p) == Gap(env, gens[w], p);
      } else {
        assert PointMaxRad(env, gens, p) == Gap(env, gens[|gens| - 1], p);
      }
    }
  }

  /** `max_rad` after the search: `point_max_rad` folded with `min` over the
      points in the order they were found. */
  function MinGap(env: Env, gens: seq<RotCircle>, points: seq<(Pos, nat)>): real
    requires |gens| > 0 && |points| > 0
    decreases |points|
  {
    if |points| == 1 then PointMaxRad(env, gens, points[0].0)
    else Min(MinGap(env, gens, points[..|points| - 1]), PointMaxRad(env, gens, points[|points| - 1].0))
  }

  /** The packing radius is the least `point_max_rad` over the points found. */
  lemma {:induction false} MinGapIsLeast(env: Env, gens: seq<RotCircle>, points: seq<(Pos, nat)>)
    requires |gens| > 0 && |points| > 0
    ensures forall k :: 0 <= k < |points| ==> MinGap(env, gens, points) <= PointMaxRad(env, gens, points[k].0)
    ensures exists k :: 0 <= k < |points| && MinGap(env, gens, points) == PointMaxRad(env, gens, points[k].0)
    decreases |points|
  {
    if |points| == 1 {
      assert MinGap(env, gens, points) == PointMaxRad(env, gens, points[0].0);
    } else {
      var init := points[..|points| - 1];
      MinGapIsLeast(env, gens, init);
      assert forall k :: 0 <= k < |init| ==> init[k] == points[k];
      var w :| 0 <= w < |init| && MinGap(env, gens, init) == PointMaxRad(env, gens, init[w].0);
      if MinGap(env, gens, points) == MinGap(env, gens, init) {
        assert MinGap(env, gens, points) == PointMaxRad(env, gens, points[w].0);
      } else {
        assert MinGap(env, gens, points) == PointMaxRad(env, gens, points[|points| - 1].0);
      }
    }
  }

  // ---------------------------------------------------------------
  // expand_seed: the orbit search
  // ---------------------------------------------------------------

  /** `q` is the image of `p` under a generator whose region holds `p`. */
  ghost predicate Successor(env: Env, gens: seq<RotCircle>, p: Pos, q: Pos)
  {
    exists j :: 0 <= j < |gens| && Contains(gens[j], p) && q == Rotate(env, gens[j], p)
  }

  /** The keys of all points found so far: the contents of the point set. */
  function Keys(env: Env, points: seq<(Pos, nat)>): set<seq<int>>
  {
    set k | 0 <= k < |points| :: Key(env, points[k].0)
  }

  lemma KeysPush(env: Env, points: seq<(Pos, nat)>, e: (Pos, nat))
    ensures Keys(env, points + [e]) == Keys(env, points) + {Key(env, e.0)}
  {
    var ps := points + [e];
    forall key | key in Keys(env, ps)
      ensures key in Keys(env, points) + {Key(env, e.0)}
    {
      var k :| 0 <= k < |ps| && key == Key(env, ps[k].0);
      if k < |points| {
        assert ps[k] == points[k];
      }
    }
    forall key | key in Keys(env, points)
      ensures key in Keys(env, ps)
    {
      var k :| 0 <= k < |points| && key == Key(env, points[k].0);
      assert ps[k] == points[k];
    }
    assert ps[|points|] == e;
  }

  /** The work list `expand_seed` builds: it starts at the seed, each later
      entry records the earlier entry it was rotated from, the parents come
      in breadth-first order, and no two entries share a key. */
  ghost predicate OrbitList(env: Env, gens: seq<RotCircle>, seed: Pos, points: seq<(Pos, nat)>)
  {
    && OrbitCore(env, seed, points)
    && (forall k :: 0 < k < |points| ==>
          points[k].1 < k && Successor(env, gens, points[points[k].1].0, points[k].0))
    && (forall k1, k2 :: 0 < k1 < k2 < |points| ==> points[k1].1 <= points[k2].1)
  }

  /** The part of `OrbitList` that the search order does not already give:
      the list starts at the seed and no two entries share a key. */
  ghost predicate OrbitCore(env: Env, seed: Pos, points: seq<(Pos, nat)>)
  {
    && |points| >= 1
    && points[0] == (seed, 0)
    && (forall k1, k2 :: 0 <= k1 < k2 < |points| ==> Key(env, points[k1].0) != Key(env, points[k2].0))
  }

  /** Every successor of entry `k` is already in the list, up to its key. */
  ghost predicate Expanded(env: Env, gens: seq<RotCircle>, points: seq<(Pos, nat)>, k: nat, upTo: nat)
    requires k < |points| && upTo <= |gens|
  {
    forall j :: 0 <= j < upTo && Contains(gens[j], points[k].0) ==>
      Key(env, Rotate(env, gens[j], points[k].0)) in Keys(env, points)
  }

  /** Pair `(i1, j1)` is tried before pair `(i2, j2)`: the search expands
      the entries in list order, and each entry by the generators in
      ascending order. */
  predicate TriedBefore(i1: int, j1: int, i2: int, j2: int)
  {
    i1 < i2 || (i1 == i2 && j1 < j2)
  }

  /** Entry `k` is the image of entry `points[k].1` under generator
      `via[k]`, whose region holds that entry. */
  ghost predicate Produced(env: Env, gens: seq<RotCircle>, points: seq<(Pos, nat)>, via: seq<nat>)
    requires |via| == |points|
  {
    forall k {:trigger via[k]} :: 0 < k < |points| ==>
      && via[k] < |gens| && points[k].1 < k
      && Contains(gens[via[k]], points[points[k].1].0)
      && points[k].0 == Rotate(env, gens[via[k]], points[points[k].1].0)
  }

  /** The entries come in the order in which their pairs are tried. */
  ghost predicate InTriedOrder(points: seq<(Pos, nat)>, via: seq<nat>)
    requires |via| == |points|
  {
    forall k1, k2 {:trigger TriedBefore(points[k1].1, via[k1], points[k2].1, via[k2])} ::
      0 < k1 < k2 < |points| ==> TriedBefore(points[k1].1, via[k1], points[k2].1, via[k2])
  }

  /** Each entry was appended by the first pair tried whose image has its
      key: no pair tried before it yields that key. */
  ghost predicate FirstWithKey(env: Env, gens: seq<RotCircle>, points: seq<(Pos, nat)>, via: seq<nat>)
    requires |via| == |points|
  {
    forall k, i, j {:trigger TriedBefore(i, j, points[k].1, via[k])} ::
      (&& 0 < k < |points| && 0 <= i < |points| && 0 <= j < |gens|
       && TriedBefore(i, j, points[k].1, via[k]) && Contains(gens[j], points[i].0)) ==>
      Key(env, Rotate(env, gens[j], points[i].0)) != Key(env, points[k].0)
  }

  /** The order in which `expand_seed` appends: `via[k]` is the generator
      that produced entry `k`, the entries come in the order in which their
      (parent, generator) pairs are tried, and each entry was appended by
      the first pair tried whose image has its key. */
  ghost predicate SearchOrder(env: Env, gens: seq<RotCircle>, points: seq<(Pos, nat)>, via: seq<nat>)
  {
    && |via| == |points|
    && Produced(env, gens, points, via)
    && InTriedOrder(points, via)
    && FirstWithKey(env, gens, points, via)
  }

  /** Every pair tried before `(i, j)` whose generator holds its entry has
      its image in the list, up to its key. */
  ghost predicate Filed(env: Env, gens: seq<RotCircle>, points: seq<(Pos, nat)>, i: int, j: int)
  {
    forall i', j' {:trigger TriedBefore(i', j', i, j)} ::
      (&& 0 <= i' < |points| && 0 <= j' < |gens| && TriedBefore(i', j', i, j)
       && Contains(gens[j'], points[i'].0)) ==>
      Key(env, Rotate(env, gens[j'], points[i'].0)) in Keys(env, points)
  }

  /** Once every pair of the first `i` entries has been tried, those entries
      are expanded. */
  lemma FiledExpanded(env: Env, gens: seq<RotCircle>, points: seq<(Pos, nat)>, i: nat)
    requires Filed(env, gens, points, i, 0)
    ensures forall k :: 0 <= k < |points| && k < i ==> Expanded(env, gens, points, k, |gens|)
  {
    forall k, j | 0 <= k < |points| && k < i && 0 <= j < |gens| && Contains(gens[j], points[k].0)
      ensures Key(env, Rotate(env, gens[j], points[k].0)) in Keys(env, points)
    {
      assert TriedBefore(k, j, i, 0);
    }
  }

  /** Appending an entry with a new key keeps the list starting at the
      seed with distinct keys. */
  lemma PushKeepsCore(env: Env, seed: Pos, points: seq<(Pos, nat)>, e: (Pos, nat))
    requires OrbitCore(env, seed, points)
    requires Key(env, e.0) !in Keys(env, points)
    ensures OrbitCore(env, seed, points + [e])
  {
    var ps := points + [e];
    forall k1, k2 | 0 <= k1 < k2 < |ps|
      ensures Key(env, ps[k1].0) != Key(env, ps[k2].0)
    {
      if k2 == |points| {
        assert Key(env, points[k1].0) in Keys(env, points);
      }
    }
  }

  /** In search order, a list that starts at the seed with distinct keys is
      an orbit list: `via` names the generator behind each entry, and the
      parents follow the order of the pairs. */
  lemma OrderedOrbitList(env: Env, gens: seq<RotCircle>, seed: Pos, points: seq<(Pos, nat)>, via: seq<nat>)
    requires OrbitCore(env, seed, points) && |via| == |points|
    requires Produced(env, gens, points, via) && InTriedOrder(points, via)
    ensures OrbitList(env, gens, seed, points)
  {
    forall k | 0 < k < |points|
      ensures points[k].1 < k && Successor(env, gens, points[points[k].1].0, points[k].0)
    {
      var j := via[k];
      assert 0 <= j < |gens| && Contains(gens[j], points[points[k].1].0);
    }
    forall k1, k2 | 0 < k1 < k2 < |points|
      ensures points[k1].1 <= points[k2].1
    {
      assert TriedBefore(points[k1].1, via[k1], points[k2].1, via[k2]);
    }
  }

  /** The facts about an append at pair `(i, j)`: the pairs of the list
      so far were all tried before it, every pair tried before it is filed,
      and its image has a new key. */
  ghost predicate PushOk(env: Env, gens: seq<RotCircle>, points: seq<(Pos, nat)>, via: seq<nat>,
                         i: nat, j: nat, q: Pos)
  {
    && |via| == |points| && i < |points| && j < |gens|
    && (forall k :: 0 < k < |points| ==> TriedBefore(points[k].1, via[k], i, j))
    && Filed(env, gens, points, i, j)
    && Contains(gens[j], points[i].0) && q == Rotate(env, gens[j], points[i].0)
    && Key(env, q) !in Keys(env, points)
  }

  lemma PushProduced(env: Env, gens: seq<RotCircle>, points: seq<(Pos, nat)>, via: seq<nat>,
                     i: nat, j: nat, q: Pos)
    requires PushOk(env, gens, points, via, i, j, q) && Produced(env, gens, points, via)
    ensures Produced(env, gens, points + [(q, i)], via + [j])
  {
    var ps, vs := points + [(q, i)], via + [j];
    forall k | 0 < k < |ps|
      ensures vs[k] < |gens| && ps[k].1 < k && Contains(gens[vs[k]], ps[ps[k].1].0) &&
              ps[k].0 == Rotate(env, gens[vs[k]], ps[ps[k].1].0)
    {
      if k == |points| {
        assert ps[ps[k].1] == points[i];
      } else {
        assert ps[k] == points[k] && vs[k] == via[k] && ps[ps[k].1] == points[points[k].1];
      }
    }
  }

  lemma PushInTriedOrder(env: Env, gens: seq<RotCircle>, points: seq<(Pos, nat)>, via: seq<nat>,
                         i: nat, j: nat, q: Pos)
    requires PushOk(env, gens, points, via, i, j, q) && InTriedOrder(points, via)
    ensures InTriedOrder(points + [(q, i)], via + [j])
    ensures forall k :: 0 < k < |points| + 1 ==>
      TriedBefore((points + [(q, i)])[k].1, (via + [j])[k], i, j + 1)
  {
    var ps, vs := points + [(q, i)], via + [j];
    forall k1, k2 | 0 < k1 < k2 < |ps|
      ensures TriedBefore(ps[k1].1, vs[k1], ps[k2].1, vs[k2])
    {
      assert ps[k1] == points[k1] && vs[k1] == via[k1];
      if k2 < |points| {
        assert ps[k2] == points[k2] && vs[k2] == via[k2];
      }
    }
    forall k | 0 < k < |ps|
      ensures TriedBefore(ps[k].1, vs[k], i, j + 1)
    {
      if k < |points| {
        assert ps[k] == points[k] && vs[k] == via[k];
      }
    }
  }

  lemma PushFirstWithKey(env: Env, gens: seq<RotCircle>, points: seq<(Pos, nat)>, via: seq<nat>,
                         i: nat, j: nat, q: Pos)
    requires PushOk(env, gens, points, via, i, j, q)
    requires Produced(env, gens, points, via) && FirstWithKey(env, gens, points, via)
    ensures FirstWithKey(env, gens, points + [(q, i)], via + [j])
  {
    var ps, vs := points + [(q, i)], via + [j];
    forall k, i', j' | && 0 < k < |ps| && 0 <= i' < |ps| && 0 <= j' < |gens|
                       && TriedBefore(i', j', ps[k].1, vs[k]) && Contains(gens[j'], ps[i'].0)
      ensures Key(env, Rotate(env, gens[j'], ps[i'].0)) != Key(env, ps[k].0)
    {
      if k == |points| {
        assert ps[i'] == points[i'];
        assert TriedBefore(i', j', i, j);
      } else {
        assert ps[k] == points[k] && vs[k] == via[k];
        assert ps[i'] == points[i'];
      }
    }
  }

  lemma PushFiled(env: Env, gens: seq<RotCircle>, points: seq<(Pos, nat)>, via: seq<nat>,
                  i: nat, j: nat, q: Pos)
    requires PushOk(env, gens, points, via, i, j, q)
    ensures Filed(env, gens, points + [(q, i)], i, j + 1)
  {
    var ps := points + [(q, i)];
    KeysPush(env, points, (q, i));
    forall i', j' | && 0 <= i' < |ps| && 0 <= j' < |gens| && TriedBefore(i', j', i, j + 1)
                    && Contains(gens[j'], ps[i'].0)
      ensures Key(env, Rotate(env, gens[j'], ps[i'].0)) in Keys(env, ps)
    {
      assert ps[i'] == points[i'];
      if i' != i || j' != j {
        assert TriedBefore(i', j', i, j);
      }
    }
  }

  /** Appending the image of entry `i` under generator `j`, when every
      earlier pair has been tried and the image's key is new, keeps the
      search order and files pair `(i, j)`. */
  lemma PushKeepsOrder(env: Env, gens: seq<RotCircle>, points: seq<(Pos, nat)>, via: seq<nat>,
                       i: nat, j: nat, q: Pos)
    requires SearchOrder(env, gens, points, via)
    requires PushOk(env, gens, points, via, i, j, q)
    ensures SearchOrder(env, gens, points + [(q, i)], via + [j])
    ensures forall k :: 0 < k < |points| + 1 ==>
      TriedBefore((points + [(q, i)])[k].1, (via + [j])[k], i, j + 1)
    ensures Filed(env, gens, points + [(q, i)], i, j + 1)
  {
    PushProduced(env, gens, points, via, i, j, q);
    PushInTriedOrder(env, gens, points, via, i, j, q);
    PushFirstWithKey(env, gens, points, via, i, j, q);
    PushFiled(env, gens, points, via, i, j, q);
  }

  /** What holds part-way through expanding entry `i`, after the first `j`
      generators: the list extends the list `start` the pass began with by at
      most one entry per generator tried, it is in search order with every
      entry appended by a pair tried before `(i, j)`, the point set holds
      exactly the keys of the list, every pair tried so far is filed, and
      `maxRad` is the packing radius so far. */
  ghost predicate EntryInv(env: Env, gens: seq<RotCircle>, seed: Pos, start: seq<(Pos, nat)>,
                           points: seq<(Pos, nat)>, via: seq<nat>, seen: set<seq<int>>,
                           i: nat, j: nat, maxRad: real)
  {
    && EntryState(env, gens, seed, start, points, seen, i, j, maxRad)
    && EntryOrder(env, gens, points, via, i, j)
  }

  /** The list, its keys and its radius part-way through the pass. */
  ghost predicate EntryState(env: Env, gens: seq<RotCircle>, seed: Pos, start: seq<(Pos, nat)>,
                             points: seq<(Pos, nat)>, seen: set<seq<int>>, i: nat, j: nat, maxRad: real)
  {
    && |gens| > 0 && i < |start| && j <= |gens|
    && OrbitCore(env, seed, points)
    && |start| <= |points| <= |start| + j && points[..|start|] == start
    && seen == Keys(env, points)
    && maxRad == MinGap(env, gens, points)
  }

  /** The search order part-way through the pass over entry `i`. */
  ghost predicate EntryOrder(env: Env, gens: seq<RotCircle>, points: seq<(Pos, nat)>, via: seq<nat>,
                             i: nat, j: nat)
  {
    && SearchOrder(env, gens, points, via)
    && (forall k :: 0 < k < |points| ==> TriedBefore(points[k].1, via[k], i, j))
    && Filed(env, gens, points, i, j)
  }

  /** Trying generator `j` without appending anything. */
  lemma SkipStep(env: Env, gens: seq<RotCircle>, seed: Pos, start: seq<(Pos, nat)>,
                 points: seq<(Pos, nat)>, via: seq<nat>, seen: set<seq<int>>, i: nat, j: nat, maxRad: real)
    requires EntryInv(env, gens, seed, start, points, via, seen, i, j, maxRad) && j < |gens|
    requires !Contains(gens[j], points[i].0) || Key(env, Rotate(env, gens[j], points[i].0)) in seen
    ensures EntryInv(env, gens, seed, start, points, via, seen, i, j + 1, maxRad)
  {
    forall i', j' | 0 <= i' < |points| && 0 <= j' < |gens| && TriedBefore(i', j', i, j + 1) &&
                    Contains(gens[j'], points[i'].0)
      ensures Key(env, Rotate(env, gens[j'], points[i'].0)) in Keys(env, points)
    {
      if i' != i || j' != j {
        assert TriedBefore(i', j', i, j);
      }
    }
  }

  /** Trying generator `j` and appending its image of entry `i`. */
  lemma PushStep(env: Env, gens: seq<RotCircle>, seed: Pos, start: seq<(Pos, nat)>,
                 points: seq<(Pos, nat)>, via: seq<nat>, seen: set<seq<int>>, i: nat, j: nat, maxRad: real)
    requires EntryInv(env, gens, seed, start, points, via, seen, i, j, maxRad) && j < |gens|
    requires Contains(gens[j], points[i].0)
    requires Key(env, Rotate(env, gens[j], points[i].0)) !in seen
    ensures var q := Rotate(env, gens[j], points[i].0);
      EntryInv(env, gens, seed, start, points + [(q, i)], via + [j], seen + {Key(env, q)}, i, j + 1,
               Min(maxRad, PointMaxRad(env, gens, q)))
  {
    var q := Rotate(env, gens[j], points[i].0);
    PushState(env, gens, seed, start, points, seen, i, j, maxRad);
    assert PushOk(env, gens, points, via, i, j, q);
    PushKeepsOrder(env, gens, points, via, i, j, q);
  }

  /** Appending the image of entry `i`, whose key is new, keeps the keys
      distinct, files its key and lowers the radius. */
  lemma PushState(env: Env, gens: seq<RotCircle>, seed: Pos, start: seq<(Pos, nat)>,
                  points: seq<(Pos, nat)>, seen: set<seq<int>>, i: nat, j: nat, maxRad: real)
    requires EntryState(env, gens, seed, start, points, seen, i, j, maxRad) && j < |gens|
    requires Contains(gens[j], points[i].0)
    requires Key(env, Rotate(env, gens[j], points[i].0)) !in seen
    ensures var q := Rotate(env, gens[j], points[i].0);
      EntryState(env, gens, seed, start, points + [(q, i)], seen + {Key(env, q)}, i, j + 1,
                 Min(maxRad, PointMaxRad(env, gens, q)))
  {
    var q := Rotate(env, gens[j], points[i].0);
    var ps := points + [(q, i)];
    PushKeepsCore(env, seed, points, (q, i));
    KeysPush(env, points, (q, i));
    assert ps[..|points|] == points;
    assert ps[..|start|] == start;
  }

  /** One pass of the inner loop of `expand_seed`: the entry at index `i` is
      expanded by every generator in order, and each image whose key is new
      is appended with parent `i`. */
  method ExpandEntry(env: Env, gens: seq<RotCircle>, seed: Pos, points: seq<(Pos, nat)>, ghost via: seq<nat>,
                     seen: set<seq<int>>, i: nat, maxRad: real)
    returns (points': seq<(Pos, nat)>, ghost via': seq<nat>, seen': set<seq<int>>, maxRad': real)
    requires EntryInv(env, gens, seed, points, points, via, seen, i, 0, maxRad)
    ensures EntryInv(env, gens, seed, points, points', via', seen', i, |gens|, maxRad')
  {
    points', via', seen', maxRad' := points, via, seen, maxRad;
    var j := 0;
    while j < |gens|
      invariant j <= |gens|
      invariant EntryInv(env, gens, seed, points, points', via', seen', i, j, maxRad')
    {
      var g := gens[j];
      var p := points'[i].0;
      if Contains(g, p) && Key(env, Rotate(env, g, p)) !in seen' {
        var q := Rotate(env, g, p);
        PushStep(env, gens, seed, points, points', via', seen', i, j, maxRad');
        seen' := seen' + {Key(env, q)};
        points' := points' + [(q, i)];
        via' := via' + [j];
        maxRad' := Min(maxRad', PointMaxRad(env, gens, q));
      } else {
        SkipStep(env, gens, seed, points, points', via', seen', i, j, maxRad');
      }
      j := j + 1;
    }
  }

  /** What holds before the outer loop of `expand_seed` processes entry `i`. */
  ghost predicate OrbitInv(env: Env, gens: seq<RotCircle>, seed: Pos, points: seq<(Pos, nat)>,
                           via: seq<nat>, seen: set<seq<int>>, i: nat, maxRad: real)
  {
    && |gens| > 0 && i <= |points|
    && OrbitCore(env, seed, points)
    && SearchOrder(env, gens, points, via)
    && seen == Keys(env, points)
    && (forall k :: 0 < k < |points| ==> points[k].1 < i)
    && Filed(env, gens, points, i, 0)
    && |points| <= 1 + Budget(i, |gens|)
    && maxRad == MinGap(env, gens, points)
  }

  /** `i * n`, accumulated one pass at a time. */
  function Budget(i: nat, n: nat): nat
  {
    if i == 0 then 0 else Budget(i - 1, n) + n
  }

  lemma {:induction false} BudgetBound(i: nat, depth: nat, n: nat)
    requires i <= depth
    ensures Budget(i, n) <= depth * n
    decreases depth
  {
    if depth == 0 {
    } else if i == depth {
      BudgetBound(i - 1, depth - 1, n);
    } else {
      BudgetBound(i, depth - 1, n);
    }
  }

  /** The outer loop moves into the pass over entry `i`. */
  lemma EnterEntry(env: Env, gens: seq<RotCircle>, seed: Pos, points: seq<(Pos, nat)>,
                   via: seq<nat>, seen: set<seq<int>>, i: nat, maxRad: real)
    requires OrbitInv(env, gens, seed, points, via, seen, i, maxRad) && i < |points|
    ensures EntryInv(env, gens, seed, points, points, via, seen, i, 0, maxRad)
  {
    assert points[..|points|] == points;
  }

  /** Expanding entry `i` moves the outer loop to `i + 1`. */
  lemma OrbitStep(env: Env, gens: seq<RotCircle>, seed: Pos, before: seq<(Pos, nat)>,
                  points: seq<(Pos, nat)>, via: seq<nat>, seen: set<seq<int>>, i: nat, maxRad: real)
    requires |before| <= 1 + Budget(i, |gens|)
    requires EntryInv(env, gens, seed, before, points, via, seen, i, |gens|, maxRad)
    ensures OrbitInv(env, gens, seed, points, via, seen, i + 1, maxRad)
  {
    assert Budget(i + 1, |gens|) == Budget(i, |gens|) + |gens|;
    forall i', j' | 0 <= i' < |points| && 0 <= j' < |gens| && TriedBefore(i', j', i + 1, 0) &&
                    Contains(gens[j'], points[i'].0)
      ensures Key(env, Rotate(env, gens[j'], points[i'].0)) in Keys(env, points)
    {
      assert TriedBefore(i', j', i, |gens|);
    }
  }

  /** One iteration of the outer loop of `expand_seed`: entry `i` is
      expanded by every generator. */
  method ExpandNext(env: Env, gens: seq<RotCircle>, seed: Pos, points: seq<(Pos, nat)>, ghost via: seq<nat>,
                    seen: set<seq<int>>, i: nat, maxRad: real)
    returns (points': seq<(Pos, nat)>, ghost via': seq<nat>, seen': set<seq<int>>, maxRad': real)
    requires OrbitInv(env, gens, seed, points, via, seen, i, maxRad) && i < |points|
    ensures OrbitInv(env, gens, seed, points', via', seen', i + 1, maxRad')
  {
    EnterEntry(env, gens, seed, points, via, seen, i, maxRad);
    points', via', seen', maxRad' := ExpandEntry(env, gens, seed, points, via, seen, i, maxRad);
    OrbitStep(env, gens, seed, points, points', via', seen', i, maxRad');
  }

  /** The state before the first iteration: the list holds the seed alone. */
  lemma OrbitStart(env: Env, gens: seq<RotCircle>, seed: Pos)
    requires |gens| > 0
    ensures OrbitInv(env, gens, seed, [(seed, 0)], [0], {Key(env, seed)}, 0, PointMaxRad(env, gens, seed))
  {
    KeysPush(env, [], (seed, 0));
    assert [] + [(seed, 0)] == [(seed, 0)];
  }

  /** The search loop of `expand_seed` (the orbit of `seed`, at most `depth`
      entries expanded) together with the packing radius it tracks. `via`
      records, for each entry after the seed, the generator that produced
      it. */
  method SearchOrbit(env: Env, gens: seq<RotCircle>, depth: nat, seed: Pos)
    returns (points: seq<(Pos, nat)>, maxRad: real, ghost via: seq<nat>)
    requires |gens| > 0
    ensures OrbitList(env, gens, seed, points)
    ensures SearchOrder(env, gens, points, via)
    ensures forall k :: 0 < k < |points| ==> points[k].1 < depth
    ensures forall k :: 0 <= k < |points| && k < depth ==> Expanded(env, gens, points, k, |gens|)
    ensures |points| <= 1 + depth * |gens|
    ensures maxRad == MinGap(env, gens, points)
  {
    maxRad := PointMaxRad(env, gens, seed);
    points := [(seed, 0)];
    via := [0];
    var seen := {Key(env, seed)};
    OrbitStart(env, gens, seed);
    var i := 0;
    while i < depth
      invariant i <= depth
      invariant OrbitInv(env, gens, seed, points, via, seen, i, maxRad)
    {
      if i >= |points| {
        break;
      }
      points, via, seen, maxRad := ExpandNext(env, gens, seed, points, via, seen, i, maxRad);
      i := i + 1;
    }
    OrbitDone(env, gens, depth, seed, points, via, seen, i, maxRad);
  }

  /** When the loop stops, at the depth or at the end of the list, the
      search has done what `SearchOrbit` promises. */
  lemma OrbitDone(env: Env, gens: seq<RotCircle>, depth: nat, seed: Pos, points: seq<(Pos, nat)>,
                  via: seq<nat>, seen: set<seq<int>>, i: nat, maxRad: real)
    requires OrbitInv(env, gens, seed, points, via, seen, i, maxRad)
    requires i <= depth && (i == depth || i >= |points|)
    ensures OrbitList(env, gens, seed, points)
    ensures forall k :: 0 < k < |points| ==> points[k].1 < depth
    ensures forall k :: 0 <= k < |points| && k < depth ==> Expanded(env, gens, points, k, |gens|)
    ensures |points| <= 1 + depth * |gens|
  {
    OrderedOrbitList(env, gens, seed, points, via);
    FiledExpanded(env, gens, points, i);
    BudgetBound(i, depth, |gens|);
  }

  // ---------------------------------------------------------------
  // The search result is determined by its contract
  // ---------------------------------------------------------------

  /** What `SearchOrbit` promises about its list, the packing radius and
      the length bound aside, less the parts of `OrbitList` that the search
      order implies (`OrderedOrbitList`). */
  ghost predicate Searched(env: Env, gens: seq<RotCircle>, seed: Pos, depth: nat,
                           points: seq<(Pos, nat)>, via: seq<nat>)
  {
    && OrbitCore(env, seed, points)
    && SearchOrder(env, gens, points, via)
    && (forall k :: 0 < k < |points| ==> points[k].1 < depth)
    && (forall k :: 0 <= k < |points| && k < depth ==> Expanded(env, gens, points, k, |gens|))
  }

  /** Two searched lists that agree before index `m`, where the pair that
      appended entry `m` of `a` is not tried after the one of `b`, agree at
      `m` too: both entries are the image of the same first pair with a new
      key. */
  lemma EntryAgree(env: Env, gens: seq<RotCircle>, seed: Pos, depth: nat,
                   a: seq<(Pos, nat)>, va: seq<nat>, b: seq<(Pos, nat)>, vb: seq<nat>, m: nat)
    requires Searched(env, gens, seed, depth, a, va) && Searched(env, gens, seed, depth, b, vb)
    requires 0 < m < |a| && m < |b|
    requires forall k :: 0 <= k < m ==> a[k] == b[k]
    requires !TriedBefore(b[m].1, vb[m], a[m].1, va[m])
    ensures a[m] == b[m] && va[m] == vb[m]
  {
    var p, v := a[m].1, va[m];
    assert p < m && v < |gens| && Contains(gens[v], a[p].0) && a[m].0 == Rotate(env, gens[v], a[p].0);
    assert a[p] == b[p];
    var key := Key(env, a[m].0);
    assert Expanded(env, gens, b, p, |gens|);
    assert key in Keys(env, b);
    // Not before `m`: `a` and `b` agree there, and keys are distinct in `a`.
    forall k | 0 <= k < m
      ensures Key(env, b[k].0) != key
    {
      assert a[k] == b[k];
    }
    // Not after `m`: pair (p, v) is tried before the pair of each later entry.
    forall k | m < k < |b|
      ensures Key(env, b[k].0) != key
    {
      assert TriedBefore(b[m].1, vb[m], b[k].1, vb[k]);
      assert TriedBefore(p, v, b[k].1, vb[k]);
    }
    var w :| 0 <= w < |b| && Key(env, b[w].0) == key;
    assert w == m;
    // At `m`, (p, v) is not tried before the pair of `b[m]` either.
    assert !TriedBefore(p, v, b[m].1, vb[m]);
    assert p == b[m].1 && v == vb[m];
  }

  /** Two searched lists that agree before index `m` agree at `m`. */
  lemma NextAgree(env: Env, gens: seq<RotCircle>, seed: Pos, depth: nat,
                  a: seq<(Pos, nat)>, va: seq<nat>, b: seq<(Pos, nat)>, vb: seq<nat>, m: nat)
    requires Searched(env, gens, seed, depth, a, va) && Searched(env, gens, seed, depth, b, vb)
    requires 0 < m < |a| && m < |b|
    requires forall k :: 0 <= k < m ==> a[k] == b[k]
    ensures a[m] == b[m] && va[m] == vb[m]
  {
    if TriedBefore(b[m].1, vb[m], a[m].1, va[m]) {
      EntryAgree(env, gens, seed, depth, b, vb, a, va, m);
    } else {
      EntryAgree(env, gens, seed, depth, a, va, b, vb, m);
    }
  }

  /** Two searched lists that agree on their first `n` entries agree on the
      generators that produced them. */
  lemma {:induction false} PrefixAgree(env: Env, gens: seq<RotCircle>, seed: Pos, depth: nat,
                                       a: seq<(Pos, nat)>, va: seq<nat>, b: seq<(Pos, nat)>, vb: seq<nat>, n: nat)
    requires Searched(env, gens, seed, depth, a, va) && Searched(env, gens, seed, depth, b, vb)
    requires n <= |a| && n <= |b|
    ensures forall k :: 0 <= k < n ==> a[k] == b[k]
    ensures forall k :: 0 < k < n ==> va[k] == vb[k]
  {
    if n > 1 {
      PrefixAgree(env, gens, seed, depth, a, va, b, vb, n - 1);
      NextAgree(env, gens, seed, depth, a, va, b, vb, n - 1);
    }
  }

  /** A searched list `b` that agrees with the searched list `a` on its
      first `n` entries, and has an entry at `n`, forces an entry at `n` in
      `a`: the pair that appended `b[n]` was tried in `a` too, and its key
      is filed there at a later index. */
  lemma NextEntry(env: Env, gens: seq<RotCircle>, seed: Pos, depth: nat,
                  a: seq<(Pos, nat)>, va: seq<nat>, b: seq<(Pos, nat)>, vb: seq<nat>, n: nat)
    requires Searched(env, gens, seed, depth, a, va) && Searched(env, gens, seed, depth, b, vb)
    requires 0 < n <= |a| && n < |b|
    requires forall k :: 0 <= k < n ==> a[k] == b[k]
    ensures n < |a|
  {
    assert vb[n] < |gens|;
    var p := b[n].1;
    assert a[p] == b[p];
    assert Expanded(env, gens, a, p, |gens|);
    var key := Key(env, b[n].0);
    assert key in Keys(env, a);
    forall k | 0 <= k < n
      ensures Key(env, a[k].0) != key
    {
      assert a[k] == b[k];
    }
    var w :| 0 <= w < |a| && Key(env, a[w].0) == key;
  }

  /** The contract of the search determines its list: two lists that both
      satisfy it are equal. */
  lemma SearchedUnique(env: Env, gens: seq<RotCircle>, seed: Pos, depth: nat,
                       a: seq<(Pos, nat)>, va: seq<nat>, b: seq<(Pos, nat)>, vb: seq<nat>)
    requires Searched(env, gens, seed, depth, a, va) && Searched(env, gens, seed, depth, b, vb)
    ensures a == b
  {
    var n := if |a| <= |b| then |a| else |b|;
    PrefixAgree(env, gens, seed, depth, a, va, b, vb, n);
    if n < |b| {
      NextEntry(env, gens, seed, depth, a, va, b, vb, n);
    }
    if n < |a| {
      NextEntry(env, gens, seed, depth, b, vb, a, va, n);
    }
  }

  // ---------------------------------------------------------------
  // expand_seed: drawing the orbit
  // ---------------------------------------------------------------

  /** The last radius of `radii`, or `r0` before the first. */
  function LastOr(r0: real, radii: seq<real>): real
  {
    if radii == [] then r0 else radii[|radii| - 1]
  }

  /** The radii the drawing loop hands out: starting from `r0`, each entry
      lowers the running radius to at most its own distance to infinity. */
  function Radii(env: Env, r0: real, points: seq<(Pos, nat)>): (radii: seq<real>)
    ensures |radii| == |points|
    decreases |points|
  {
    if points == [] then []
    else
      var prev := Radii(env, r0, points[..|points| - 1]);
      prev + [Min(LastOr(r0, prev), env.distToInf(points[|points| - 1].0))]
  }

  /** The radii never grow, never exceed the starting radius, and each is
      within the distance to infinity of its own point. */
  lemma {:induction false} RadiiShrink(env: Env, r0: real, points: seq<(Pos, nat)>)
    ensures var radii := Radii(env, r0, points);
      (forall k :: 0 <= k < |radii| ==> radii[k] <= r0 && radii[k] <= env.distToInf(points[k].0)) &&
      (forall k1, k2 :: 0 <= k1 <= k2 < |radii| ==> radii[k2] <= radii[k1])
    decreases |points|
  {
    if points != [] {
      var init := points[..|points| - 1];
      RadiiShrink(env, r0, init);
      var prev := Radii(env, r0, init);
      var radii := Radii(env, r0, points);
      assert radii == prev + [Min(LastOr(r0, prev), env.distToInf(points[|points| - 1].0))];
      assert forall k :: 0 <= k < |init| ==> init[k] == points[k];
      assert forall k :: 0 <= k < |prev| ==> radii[k] == prev[k];
    }
  }

  /** The colour `[0.5, 0.5, 0.5, 1]`. */
  const Grey: Rgba := Rgba(0.5, 0.5, 0.5, 1.0)

  /** The colour of every circle of one orbit: grey when the search found
      more points than the depth budget, else the palette's colour for the
      count plus one. */
  function OrbitColour(env: Env, count: nat, depth: nat): Rgba
  {
    if count > depth then Grey else env.palette(count + 1)
  }

  /** The on-screen circle for a point and a radius of the current geometry. */
  function Draw(env: Env, p: Pos, rad: real, col: Rgba): Circle
  {
    var (cen, r) := env.project(p, rad);
    Circle(Vec2(cen.x, cen.y), r, col)
  }

  /** The circles drawn for `points`, one per entry and in order. */
  function Rendered(env: Env, r0: real, points: seq<(Pos, nat)>, col: Rgba): (out: seq<Circle>)
    ensures |out| == |points|
    ensures forall k :: 0 <= k < |out| ==> out[k].col == col
  {
    var radii := Radii(env, r0, points);
    seq(|points|, k requires 0 <= k < |points| => Draw(env, points[k].0, radii[k], col))
  }

  lemma RenderedPush(env: Env, r0: real, points: seq<(Pos, nat)>, k: nat, col: Rgba)
    requires k < |points|
    ensures Rendered(env, r0, points[..k + 1], col)
         == Rendered(env, r0, points[..k], col)
            + [Draw(env, points[k].0, LastOr(r0, Radii(env, r0, points[..k + 1])), col)]
  {
    var ps := points[..k + 1];
    assert ps[..k] == points[..k];
    var radii := Radii(env, r0, ps);
    assert forall m :: 0 <= m < k ==> radii[m] == Radii(env, r0, points[..k])[m];
  }

  /** The drawing loop of `expand_seed`: appends one circle per entry of
      `points`, in order, each with the running radius lowered to the
      entry's distance to infinity. */
  method DrawOrbit(env: Env, points: seq<(Pos, nat)>, maxRad: real, col: Rgba, circles: seq<Circle>)
    returns (circles': seq<Circle>)
    ensures circles' == circles + Rendered(env, maxRad, points, col)
  {
    var rad := maxRad;
    circles' := circles;
    var k := 0;
    while k < |points|
      invariant k <= |points|
      invariant rad == LastOr(maxRad, Radii(env, maxRad, points[..k]))
      invariant circles' == circles + Rendered(env, maxRad, points[..k], col)
    {
      rad := Min(rad, env.distToInf(points[k].0));
      var (cen, r) := env.project(points[k].0, rad);
      RenderedPush(env, maxRad, points, k, col);
      assert points[..k + 1][..k] == points[..k];
      circles' := circles' + [Circle(Vec2(cen.x, cen.y), r, col)];
      k := k + 1;
    }
    assert points[..k] == points;
  }

  /** `expand_seed`: runs the orbit search from `seed` and appends one drawn
      circle per point found, in order, to `circles`; the earlier contents
      of `circles` are kept. The work list is returned as well. */
  method ExpandSeed(env: Env, gens: seq<RotCircle>, depth: nat, seed: Pos, circles: seq<Circle>)
    returns (circles': seq<Circle>, points: seq<(Pos, nat)>, ghost via: seq<nat>)
    requires |gens| > 0
    ensures OrbitList(env, gens, seed, points)
    ensures SearchOrder(env, gens, points, via)
    ensures forall k :: 0 < k < |points| ==> points[k].1 < depth
    ensures forall k :: 0 <= k < |points| && k < depth ==> Expanded(env, gens, points, k, |gens|)
    ensures |points| <= 1 + depth * |gens|
    ensures circles' == circles + Rendered(env, MinGap(env, gens, points), points,
                                           OrbitColour(env, |points|, depth))
    ensures |circles'| == |circles| + |points| && circles'[..|circles|] == circles
    ensures |points| > depth ==> forall k :: |circles| <= k < |circles'| ==> circles'[k].col == Grey
  {
    var maxRad;
    points, maxRad, via := SearchOrbit(env, gens, depth, seed);
    var col := if |points| > depth then Grey else env.palette(|points| + 1);
    circles' := DrawOrbit(env, points, maxRad, col, circles);
  }
}
