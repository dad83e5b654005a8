# Pentagon Gardening Simulator — a verified model of its core

Pentagon Gardening Simulator draws circle-packing patterns. A set of
rotation generators (`RotCircle`: a centre, a radius, an order `step` and an
`inverted` flag) act on the plane. Each generator rotates the points of its
own region by `TAU / step` about its centre.

The application runs two budgeted breadth-first searches:

- `expand_seed` finds the orbit of a seed point. Each point found becomes a
  disk, drawn as large as the packing allows.
- `expand_grips` finds the orbit of the whole generator configuration (a
  `GripSet`). It collects the "grips": generators whose region holds the
  seed.

Around these sit Möbius transforms on the complex plane, and two small
pieces of GPU bookkeeping. One is a vertex buffer that is reallocated only
when the data outgrows it. The other is a padding routine that makes every
upload a multiple of wgpu's copy alignment.

Modules, one file each:

| file | module | models |
|---|---|---|
| points.dfy | `Points` | `Pos`: squared distance, complex arithmetic, approximate hash |
| circles.dfy | `Circles` | `Circle`, `CircleInstance`, `RotCircle`: rotation, containment, hash |
| mobius.dfy | `Mobius` | `MobiusTransform`: identity, application, inverse, product, `normalise` |
| search.dfy | `Search` | `expand_seed` and the environment shared by both searches |
| grips.dfy | `Grips` | `GripSet`, `rotate_by`, the configuration hash, `expand_grips` |
| gfx.dfy | `Gfx` | `pad_buffer_to_wgpu_copy_buffer_alignment` |
| cache.dfy | `Cache` | `CachedDynamicBuffer` |

Conventions:

- `f64` and `f32` values are mathematical reals.
- The cosine and sine of `TAU / step` are a pair `Turn(cos, sin)` supplied
  by the caller. Lemmas that need a true rotation require
  `cos^2 + sin^2 == 1`.
- Square roots are a parameter `sqrt`.
- The approximate hash map is a set of keys. Its float bucketing is a
  parameter `h: real -> int`.
- Both searches get what lies outside the modelled files through one
  value, `Search.Env`:
  - the distance of the current geometry (`dist_in_space`);
  - `dist_to_inf`;
  - the conversion of a circle to its on-screen centre and radius
    (`euclidean_centre_radius`);
  - the palette colour for a count;
  - the turn for each order;
  - the float hash.
- The operators of `Pos` (`+`, `-`, `*`, `/`, `conjugate`, `ORIGIN`) that
  `mobius.rs` relies on are defined outside the modelled files. They are
  modelled as ordinary complex arithmetic: `Points.Add`, `Points.Neg`,
  `Points.Sub`, `Points.Scale`, `Points.Conj`, `Points.Mul`, `Points.Div`
  and `Points.Origin`. The lemmas `NormSqMul` to `DivCancelFactor` state
  the facts about them that the Möbius proofs use.
- The searches are methods with loops that mirror the source loops,
  including the `break` when the work index reaches the end of the list.
  `MobiusTransform::normalise` and `CachedDynamicBuffer` are classes whose
  methods update fields in place.

## Model

| member | source | states |
|---|---|---|
| Points.New | src/geom/points.rs:30-32 | the point has exactly the given coordinates |
| Points.DistSq | src/geom/points.rs:33-35 | the squared distance is never negative |
| Points.DistSqSelf | src/geom/points.rs:33-35 | a point is at squared distance 0 from itself |
| Points.DistSqSymmetric | src/geom/points.rs:33-35 | `a.dist_sq(b) == b.dist_sq(a)` |
| Points.Dist | src/geom/points.rs:36-38 | the square root (a parameter) of `dist_sq` |
| Points.NormSq | src/geom/mobius.rs:37 | the squared modulus is `dist_sq` to the origin |
| Points.NormSqMul | src/geom/mobius.rs:25 | the squared modulus of a product is the product of the squared moduli |
| Points.NormSqMulNonZero | src/geom/mobius.rs:25 | a product of non-zero numbers is non-zero |
| Points.DivMulCancel | src/geom/mobius.rs:25 | `(p / q) * q == p` for non-zero `q` |
| Points.DivUnique | src/geom/mobius.rs:25 | `p / q` is the only `z` with `z * q == p` |
| Points.DivCancelFactor | src/geom/mobius.rs:25 | a common non-zero factor cancels from a quotient |
| Points.PosHash | src/geom/points.rs:44-51 | the hash has two components, one per coordinate |
| Points.PosHashEq | src/geom/points.rs:44-51 | two points share a hash exactly when x falls in the same bucket as x, and y as y |
| Circles.GetInstance | src/geom/circles.rs:11-17 | the colour is kept; every point of the unit disk lands where the circle's point `centre + radius*(u,v)` lands under the screen scale |
| Circles.New | src/geom/circles.rs:29-36 | the generator has exactly the given centre, radius, order and orientation |
| Circles.RotatePoint | src/geom/circles.rs:38-48 | translate to the centre, turn by `(cos, sin)`, translate back; its properties are the `Rotate*` lemmas below |
| Circles.Reverse | src/geom/circles.rs:38-48 | helper for `RotateUndo`: the turn by the opposite angle, which is again a true rotation |
| Circles.RotateKeepsRadius | src/geom/circles.rs:38-48 | a rotation keeps a point's squared distance to the centre |
| Circles.CentreFixed | src/geom/circles.rs:38-48 | the centre is a fixed point of `rotate_point` |
| Circles.RotateIsometry | src/geom/circles.rs:38-48 | a rotation keeps the squared distance between any two points |
| Circles.RotateUndo | src/geom/circles.rs:38-48 | the turn by the opposite angle undoes `rotate_point` |
| Circles.Contains | src/geom/circles.rs:57-59 | strictly inside the radius, exclusive-or `inverted`; its properties are the next three lemmas |
| Circles.ContainsRotated | src/geom/circles.rs:38-59 | a point is in the generator's region exactly when its rotated image is |
| Circles.InvertedComplement | src/geom/circles.rs:57-59 | flipping `inverted` negates `contains` exactly |
| Circles.OnBoundary | src/geom/circles.rs:58 | a point at squared distance exactly `rad*rad` is contained only by an inverted generator |
| Circles.RotateCircle | src/geom/circles.rs:50-55 | the centre is rotated; radius, order and orientation are copied |
| Circles.RotateCircleSelf | src/geom/circles.rs:50-55 | rotating a generator through its own action leaves it unchanged |
| Circles.RotateCircleContains | src/geom/circles.rs:50-59 | rotating a generator and a point together keeps the point on the same side |
| Circles.RotCircleHash | src/geom/circles.rs:62-76 | the key is the centre's hash, the radius bucket and the exact order |
| Circles.RotCircleHashEq | src/geom/circles.rs:62-76 | two generators share a key exactly when centre and radius buckets and the order agree |
| Circles.HashIgnoresInverted | src/geom/circles.rs:62-76 | the key does not depend on `inverted` |
| Mobius.Ident | src/geom/mobius.rs:12-17 | the matrix `[[1, 0], [0, 1]]`; `IdentFixes`, `IdentLeft` and `IdentRight` state what it does |
| Mobius.ApplyTo | src/geom/mobius.rs:23-26 | `(a z + b) / (c z + d)`, defined where the denominator is non-zero; composed in `ComposeApply` |
| Mobius.Inverse | src/geom/mobius.rs:28-31 | the adjugate `[[d, -b], [-c, a]]`; its partners are `InverseInverse`, `InverseTimesSelf`, `InverseUndoes` |
| Mobius.Compose | src/geom/mobius.rs:58-70 | the 2x2 complex matrix product; its partners are `IdentLeft`, `IdentRight`, `ComposeApply` |
| Mobius.IdentFixes | src/geom/mobius.rs:12-26 | `IDENT` is defined everywhere and fixes every point |
| Mobius.InverseInverse | src/geom/mobius.rs:28-31 | `inverse` is an involution |
| Mobius.InverseTimesSelf | src/geom/mobius.rs:28-70 | `m.inverse() * m` is `ad - bc` times the identity |
| Mobius.IdentLeft | src/geom/mobius.rs:58-70 | `IDENT * m == m` |
| Mobius.IdentRight | src/geom/mobius.rs:58-70 | `m * IDENT == m` |
| Mobius.ComposeApply | src/geom/mobius.rs:23-70 | `(m * n).apply_to(z) == m.apply_to(n.apply_to(z))` wherever both sides are defined |
| Mobius.InverseUndoes | src/geom/mobius.rs:23-31 | with `ad - bc != 0`, applying `m` then `m.inverse()` returns the starting point |
| Mobius.EuclideanNormalised | src/geom/mobius.rs:43-47 | Euclidean `normalise` zeroes `c`, keeps `b`, and scales `a` and `d` by real factors |
| Mobius.SameTopRowFactor | src/geom/mobius.rs:36-54 | the curved branches scale `a` and `b` by the one factor `1/(abs(a)^2+abs(b)^2)` |
| Mobius.TopRowNormSq | src/geom/mobius.rs:36-54 | after a curved `normalise`, `abs(a)^2 + abs(b)^2` is the reciprocal of its old value |
| Mobius.CrossTermSign | src/geom/mobius.rs:36-54 | spherical and hyperbolic agree on `a`, `b`, `d`, and their `c` entries are negations |
| Mobius.CrossTermRelation | src/geom/mobius.rs:41-53 | the new `c` satisfies `c conj(a) == -d conj(b)` (spherical) or `== d conj(b)` (hyperbolic) |
| Mobius.Normalised | src/geom/mobius.rs:33-56 | the matrix each branch of `normalise` builds; described by the four lemmas above |
| Mobius.MobiusTransform.constructor | src/geom/mobius.rs:19-21 | the transform holds the given matrix |
| Mobius.MobiusTransform.Normalise | src/geom/mobius.rs:33-56 | the in-place rewrite leaves exactly the matrix `Normalised` describes |
| Search.Gap | src/main.rs:96 | the distance of a point from a generator's circle, `abs(dist - rad)` |
| Search.PointMaxRad | src/main.rs:93-99 | the `min` fold of the gaps over the generators, undefined for none; characterised by `PointMaxRadIsLeast` |
| Search.MinGap | src/main.rs:100-114 | the `min` fold of `point_max_rad` over the points in the order found; characterised by `MinGapIsLeast` |
| Search.PointMaxRadIsLeast | src/main.rs:93-99 | `point_max_rad` is at most every generator's gap and equal to one of them |
| Search.MinGapIsLeast | src/main.rs:100-114 | the packing radius is the least `point_max_rad` over the points found, attained by one of them |
| Search.KeysPush | src/main.rs:112-113 | inserting a point adds exactly its key to the point set |
| Search.PushKeepsCore | src/main.rs:110-113 | appending a point whose key is new keeps the list starting at the seed with no key repeated |
| Search.OrderedOrbitList | src/main.rs:105-118 | a list in search order that starts at the seed with distinct keys has each entry the image of an earlier entry, with parents in breadth-first order |
| Search.PushState | src/main.rs:110-115 | appending a new image of entry `i` keeps the keys distinct, files its key and lowers the radius to the new minimum |
| Search.SkipStep | src/main.rs:109-117 | a generator that does not hold the point, or yields a known key, leaves the state as it was |
| Search.PushStep | src/main.rs:110-115 | a new image is appended with parent `i`, its key filed and the radius lowered |
| Search.ExpandEntry | src/main.rs:109-117 | after one pass every image of entry `i` is in the point set, at most one entry per generator is added, and the list stays in search order (see `SearchOrbit`) |
| Search.BudgetBound | src/main.rs:105-108 | helper for the length bound: `i * n <= depth * n` for `i <= depth`; the link to the number of points is made by the loop invariant of `SearchOrbit` |
| Search.OrbitStep | src/main.rs:105-117 | a finished pass advances the loop invariant to the next index |
| Search.SearchOrbit | src/main.rs:93-118 | the list starts at `(seed, 0)`, every later entry is an image of an earlier one, no two keys repeat, the first `depth` entries are fully expanded, `len <= 1 + depth * n`, and the radius is the packing radius; the list is in search order: the ghost `via[k]` is the generator whose image of entry `points[k].1` is entry `k`, the (parent, generator) pairs increase lexicographically along the list, and no pair tried before `(points[k].1, via[k])` gives an image with the key of entry `k` |
| Search.ExpandNext | src/main.rs:105-117 | one outer iteration moves the loop invariant from `i` to `i + 1` |
| Search.FiledExpanded | src/main.rs:105-117 | once every pair with parent below `i` has been tried, the first `i` entries are expanded |
| Search.PushProduced | src/main.rs:110-113 | the appended entry is the image of entry `i` under generator `j` |
| Search.PushInTriedOrder | src/main.rs:109-113 | the pairs stay in lexicographic order and all precede `(i, j + 1)` |
| Search.PushFirstWithKey | src/main.rs:109-113 | the appended entry is the first image tried with its key, and earlier entries keep that property |
| Search.PushFiled | src/main.rs:109-113 | every pair up to `(i, j)` has its image's key filed |
| Search.PushKeepsOrder | src/main.rs:109-113 | appending a new image keeps the search order and files pair `(i, j)` |
| Search.EnterEntry | src/main.rs:105-109 | the outer invariant gives the pass invariant at generator 0 |
| Search.OrbitStart | src/main.rs:100-104 | the list holding the seed alone satisfies the loop invariant |
| Search.OrbitDone | src/main.rs:105-108 | at exit the list is an orbit list, every parent index is below `depth`, the first `depth` entries are expanded and the length bound holds |
| Search.EntryAgree | src/main.rs:105-117 | two searched lists agreeing before index `m` agree at `m` when `a`'s pair at `m` is not tried after `b`'s |
| Search.NextAgree | src/main.rs:105-117 | two searched lists agreeing before `m` agree at `m`, entry and generator |
| Search.PrefixAgree | src/main.rs:105-117 | two searched lists agree on their common prefix, entries and generators |
| Search.NextEntry | src/main.rs:105-117 | a searched list cannot stop where another searched list that agrees with it goes on |
| Search.SearchedUnique | src/main.rs:105-117 | the contract of `SearchOrbit` determines the point list: any two lists meeting it are equal |
| Search.Radii | src/main.rs:134 | one radius per point |
| Search.RadiiShrink | src/main.rs:134 | the radii never grow, never exceed the packing radius, and stay within each point's distance to infinity |
| Search.OrbitColour | src/main.rs:120-133 | grey when the orbit has more points than the depth, else the palette colour for the count plus one |
| Search.Draw | src/main.rs:135-141 | the drawn circle: the on-screen centre and radius of the point and radius, with the colour |
| Search.Rendered | src/main.rs:119-142 | one circle per point, each with the orbit's colour |
| Search.RenderedPush | src/main.rs:132-141 | drawing one more point appends one circle |
| Search.DrawOrbit | src/main.rs:132-141 | appends exactly the rendered circles after the earlier contents |
| Search.ExpandSeed | src/main.rs:92-143 | the orbit properties of the search (only the first `depth` entries are expanded: every later entry's parent index is below `depth`), one circle per point in order after the earlier contents, and all grey when the orbit outgrows the depth; the points are in search order, as in `SearchOrbit` |
| Grips.RotateBy | src/main.rs:463-470 | the rotated configuration has the same length |
| Grips.RotateByAligned | src/main.rs:463-470 | member `k` keeps `rad`, `step` and `inverted` of member `k` |
| Grips.RotateByPivot | src/main.rs:463-470 | the pivot generator stays where it is |
| Grips.RotateByRigid | src/main.rs:463-470 | distances between the members' centres are kept |
| Grips.RotateByEquivariant | src/main.rs:463-470 | member `k` of the image holds the rotated point exactly when member `k` held the point |
| Grips.SetHash | src/main.rs:472-486 | one hash per member |
| Grips.SetHashEq | src/main.rs:481-484 | two configurations share a hash exactly when they have equal length and member-wise equal centre hashes |
| Grips.SetHashesPush | src/main.rs:174 | inserting a configuration adds exactly its hash |
| Grips.AlignedGripKey | src/main.rs:177 | an aligned member's key is the key recorded for its grip |
| Grips.GripKeysPush | src/main.rs:177-178 | recording a grip adds exactly its key |
| Grips.GripKeysExtend | src/main.rs:177-178 | keys only accumulate |
| Grips.BaseGrips | src/main.rs:157-165 | the filter of the generators holding the seed, as `(centre, index)`; characterised by `BaseGripsSpec` |
| Grips.BaseGripsSpec | src/main.rs:157-165 | the initial grips are the generators holding the seed, each with its own centre, in ascending index, all of them |
| Grips.InitialGrips | src/main.rs:157-165 | the initial loop yields exactly those grips and files their keys |
| Grips.DerivedWeaken | src/main.rs:167-170 | a configuration derived from an earlier index stays derived under a larger bound |
| Grips.GripSetListWeaken | src/main.rs:167-170 | the list invariant holds for any larger bound |
| Grips.EmitSkip | src/main.rs:175-181 | a member that does not hold the seed, or whose key is known, emits nothing |
| Grips.EmitPush | src/main.rs:175-181 | a new holder of the seed is emitted with its centre and index, and its key filed |
| Grips.EmitGrips | src/main.rs:175-181 | after the emission loop every holder's key is filed, the new grips are exactly new holders, their member indices ascend, and each is the first member visited with its key |
| Grips.EmitPushOrdered | src/main.rs:175-181 | an emitted grip has a larger index than those before it and no earlier holder of the configuration has its key |
| Grips.GripSetListPush | src/main.rs:172-182 | pushing a new rotated configuration keeps it aligned, derived from an earlier one and hash-distinct |
| Grips.AlignedPush | src/main.rs:182 | every configuration stays aligned with the generators |
| Grips.DerivedPush | src/main.rs:173-182 | every later configuration is a `rotate_by` image of an earlier one about a holder of the seed |
| Grips.DerivedPushOne | src/main.rs:173-182 | the derivation of one configuration survives a push |
| Grips.DistinctPush | src/main.rs:174 | configuration hashes stay pairwise distinct |
| Grips.GripListPush | src/main.rs:175-182 | the grip list stays sound and its keys distinct |
| Grips.SetSkip | src/main.rs:171-173 | a member that does not hold the seed, or a known configuration, changes nothing |
| Grips.FiledPush | src/main.rs:174-182 | every configuration stays covered and every expanded one stays expanded |
| Grips.ListsPush | src/main.rs:172-182 | pushing a configuration keeps the list invariants |
| Grips.SetPush | src/main.rs:172-182 | pushing a configuration keeps the pass invariant |
| Grips.TryCircle | src/main.rs:172-183 | one iteration of the inner loop keeps the pass invariant |
| Grips.ExpandGripSet | src/main.rs:171-184 | after the inner loop, configuration `i` is fully expanded and both lists stay in search order |
| Grips.GripsStart | src/main.rs:146-165 | the set-up establishes the outer invariant |
| Grips.EnterSet | src/main.rs:167-171 | the outer invariant gives the pass invariant |
| Grips.LeaveSet | src/main.rs:167-185 | a finished pass advances the outer invariant |
| Grips.BaseOrder | src/main.rs:157-166 | the generators come first, and the initial grips, all of configuration 0, are in ascending index |
| Grips.SetsProducedPush | src/main.rs:172-174 | the appended configuration is `rotate_by` of configuration `i` about its circle `j` |
| Grips.SetsInTriedOrderPush | src/main.rs:167-174 | the (configuration, circle) pairs stay in lexicographic order |
| Grips.SetsFirstWithKeyPush | src/main.rs:172-174 | the appended configuration is the first rotation tried with its hash, and earlier ones keep that property |
| Grips.SetOrderPush | src/main.rs:167-174 | appending a new configuration keeps the configuration order, and every pair precedes `(i, j + 1)` |
| Grips.GripsProducedPush | src/main.rs:175-181 | each emitted grip is a holder of the new configuration, which is its owner |
| Grips.GripsInTriedOrderPush | src/main.rs:167-181 | the grips stay in (configuration, member) order |
| Grips.GripsFirstWithKeyPush | src/main.rs:167-181 | each grip after the initial ones stays the first holder visited with its key |
| Grips.GripOrderPush | src/main.rs:167-181 | appending a configuration with its grips keeps the grip order |
| Grips.OrderPush | src/main.rs:172-182 | pushing a configuration keeps both lists in search order |
| Grips.ExpandGrips | src/main.rs:145-188 | the configurations start at the generators, each later one derives from an earlier one, hashes are distinct, the first `depth` are expanded, `len <= 1 + depth * n`; the grips start with the initial grips, every grip holds the seed, loop keys are distinct, and every holder's key is filed; both lists are in search order: the ghost `from[b]` is the (configuration, circle) pair whose rotation gave configuration `b`, these pairs increase lexicographically, and no earlier pair gives the same hash; the ghost `owner[m]` is the configuration of grip `m`, the (owner, index) pairs increase lexicographically, and every grip after the initial ones is the first holder visited with its key |
| Grips.GripsNeedHolder | src/main.rs:157-187 | when no generator holds the seed, nothing but the starting configuration and no grip results |
| Gfx.PadToCopyAlignment | src/gfx/mod.rs:15-24 | the input is a prefix, every appended element is the default, the byte length is positive and aligned, and no shorter extension is aligned |
| Gfx.PaddedUnique | src/gfx/mod.rs:17-23 | the padding of a buffer is unique |
| Gfx.PaddedKeepsAligned | src/gfx/mod.rs:17-21 | a non-empty aligned buffer is returned unchanged |
| Gfx.PaddedEmptyGrows | src/gfx/mod.rs:19 | an empty buffer always gains an element |
| Gfx.PaddedBound | src/gfx/mod.rs:17-23 | fewer than 4 elements are added to a non-empty buffer, and at most 4 to an empty one |
| Cache.Buffer.constructor | src/gfx/cache.rs:35-39 | a fresh buffer has the requested size |
| Cache.CachedDynamicBuffer.constructor | src/gfx/cache.rs:15-23 | nothing is allocated and no length is recorded |
| Cache.CachedDynamicBuffer.AtLenAtLeast | src/gfx/cache.rs:25-42 | a length is recorded exactly when a buffer exists; the new length is the larger of the old length and `n`, or `n`; the old buffer is returned when it is large enough, otherwise a fresh one of `n * element_size` bytes |
| Cache.CachedDynamicBuffer.SliceBounds | src/gfx/cache.rs:51-53 | the range `0 .. n * element_size` |
| Cache.CachedDynamicBuffer.SliceFits | src/gfx/cache.rs:44-53 | the range of at most the recorded length lies inside the buffer |
| Cache.CachedDynamicBuffer.Slice | src/gfx/cache.rs:44-50 | the length grows as in `AtLenAtLeast`, the cached buffer is kept when it fits and replaced by a fresh one of `n` elements otherwise; the buffer the program expects is always present and the range lies inside it |
| Cache.CachedDynamicBuffer.WriteAll | src/gfx/cache.rs:55-67 | the data come back unchanged; the written data is their padding, aligned and inside the buffer; the length becomes the larger of the old length and the padded length (or the padded length); the cached buffer is written when the padded data fits, else a fresh one of the padded length; the slice views the buffer written |

## Left out

- `src/main.rs` and `src/geom/circles.rs` are from different revisions.
  `src/main.rs:96` reads `c.circle.cen` and `c.circle.rad` and calls
  `dist_in_space`; `src/main.rs:134-136` call `dist_to_inf` and a
  three-argument `Circle::new`. Yet `App::circles` is a `Vec<RotCircle>`
  (`src/main.rs:55`), and the `RotCircle` of
  `src/geom/circles.rs:21-27` has no `circle` field. The model reads
  `c.circle.X` as `c.X` on that `RotCircle`. Both searches use its
  Euclidean `contains` (`src/geom/circles.rs:57-59`) and `rotate_point`.
  Only the packing radius (`Search.Gap`) uses the curvature-dependent
  distance, supplied as `env.dist`.
- The user interface, window, input, sliders, `gen_circles` and the
  autofill and pixel-mask code: they are front-end plumbing and `f32`
  pixel arithmetic.
- The GPU pipeline (draw calls, shaders, shared state): wgpu calls with no
  logic of their own. A wgpu buffer is an object with a size. The queue
  write of `write_all` is returned as the `written` output.
- Trigonometry. `rotate_point` takes its cosine and sine as a `Turn`. The
  fact that `step` rotations return to the start needs real trigonometry
  and is not stated.
- Square roots (`Pos::dist`, `normalise`) are an uninterpreted parameter.
  Curved `normalise` therefore is not shown to produce a unit top row.
  What is shown (`Mobius.TopRowNormSq`) is that it replaces
  `abs(a)^2 + abs(b)^2` by its reciprocal, because it divides by that sum
  and not by its square root.
- `dist_in_space`, `dist_to_inf`, `euclidean_centre_radius`, the colour
  palette and `calculate_hash` are not part of this model. They enter as
  functions of `Search.Env`.
- The float bucketing of the approximate hash map is a parameter. The map
  is a set of keys, and an insert reports "new" exactly when its key was
  absent.
- Floating point: rounding, NaN, infinities and the `f32`/`f64`
  conversions of points and circles.
- Integer widths: `u32` for `step` and `depth`, `usize` for lengths, and
  the `points.len() as u32` comparison with `depth`. Overflow of
  `min_len * element_size` is not modelled either.
- `src/puzzle/*` and the `Curvature` default: not used by the core.
- Mobius.MobiusTransform.Normalise: requires `CanNormalise`, i.e. that
  every divisor is non-zero. The program would produce infinities or NaN
  for a degenerate matrix.
- Search.ExpandSeed: requires a non-empty generator list, because
  `point_max_rad` panics on an empty one. It returns its work list as an
  extra output so that its contract can speak about the points found.
- Grips.ExpandGrips: returns the grips instead of overwriting `*grips`,
  and returns the configuration work list as an extra output. Key
  distinctness is stated only for grips emitted inside the loop. The
  initial loop ignores the insert result, so two identical generators
  that both hold the seed give duplicate initial grips.
- Search.RadiiShrink: the radii are stated against `dist_to_inf` and the
  packing radius only. What `euclidean_centre_radius` makes of them on
  screen is outside the model.
- Gfx.PadToCopyAlignment: requires a positive element size. For a
  zero-sized element the program's loop never ends. `COPY_BUFFER_ALIGNMENT`
  is wgpu's constant 4.
- Cache.CachedDynamicBuffer.WriteAll: uses the buffer's own element size
  for the padding. The program pads with `size_of::<T>()` of the written
  type, which is the same type at the only call site (`CircleInstance`).
  Labels and usage flags of the buffer are not modelled.
