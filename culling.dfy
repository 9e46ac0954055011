// The reference meaning of one pass of the loop in animate() (script.js:95-102),
// stated per element of the array as it was when the pass began. The loop
// walks forward by index and splices a particle out when its alpha is below
// zero; since the index still advances, the particle that slides into the
// vacated slot is passed over until the next frame.
module Culling {
  import opened Particles

  /** What one pass does to a particle. */
  datatype Fate =
    | Updated   // examined with alpha >= 0: drawn, then stepped
    | Removed   // examined with alpha < 0: spliced out
    | Skipped   // slid into the slot of a removed particle: left as it is

  /** The fates of s[j..] when the loop examines s[j] next. */
  function FatesFrom(s: seq<PState>, j: nat): (f: seq<Fate>)
    requires j <= |s|
    ensures |f| == |s| - j
    ensures j < |s| ==> f[0] != Skipped
    decreases |s| - j
  {
    if j == |s| then []
    else if s[j].alpha < 0.0 then
      if j + 1 == |s| then [Removed] else [Removed, Skipped] + FatesFrom(s, j + 2)
    else [Updated] + FatesFrom(s, j + 1)
  }

  /** The fate of every particle in one pass over s. */
  function Fates(s: seq<PState>): (f: seq<Fate>)
    ensures |f| == |s|
  {
    FatesFrom(s, 0)
  }

  /** The ascending positions, below j, of the particles a pass with fates f keeps. */
  function Kept(f: seq<Fate>, j: nat): (ids: seq<nat>)
    requires j <= |f|
    ensures |ids| <= j
    ensures forall m :: 0 <= m < |ids| ==> ids[m] < j && f[ids[m]] != Removed
    ensures forall m1, m2 :: 0 <= m1 < m2 < |ids| ==> ids[m1] < ids[m2]
  {
    if j == 0 then [] else Kept(f, j - 1) + if f[j - 1] != Removed then [j - 1] else []
  }

  /** Every particle below j that the pass does not remove is kept. */
  lemma {:induction false} KeptComplete(f: seq<Fate>, j: nat, k: nat)
    requires k < j <= |f| && f[k] != Removed
    ensures k in Kept(f, j)
  {
    if k < j - 1 {
      KeptComplete(f, j - 1, k);
    }
  }

  /** A removal below j leaves fewer than j positions. */
  lemma {:induction false} KeptShorter(f: seq<Fate>, j: nat, k: nat)
    requires k < j <= |f| && f[k] == Removed
    ensures |Kept(f, j)| < j
  {
    if k < j - 1 {
      KeptShorter(f, j - 1, k);
    }
  }

  /** The elements of r at the positions ids, in that order. */
  function Pick<T>(r: seq<T>, ids: seq<nat>): seq<T>
    requires forall m :: 0 <= m < |ids| ==> ids[m] < |r|
  {
    seq(|ids|, m requires 0 <= m < |ids| => r[ids[m]])
  }

  /** A particle's values after the pass, given its fate. */
  function Effect(p: PState, fate: Fate): PState {
    if fate == Updated then Step(p) else p
  }

  /** No element occurs twice. */
  ghost predicate Distinct<T>(r: seq<T>) {
    forall a, b :: 0 <= a < b < |r| ==> r[a] != r[b]
  }

  /** The values of the particles left in the store after one pass over s. */
  function Tick(s: seq<PState>): (t: seq<PState>)
    ensures |t| <= |s|
  {
    var f := Fates(s);
    Pick(seq(|s|, k requires 0 <= k < |s| => Effect(s[k], f[k])), Kept(f, |s|))
  }

  /** The m-th particle left after a pass is the m-th kept one, after its fate. */
  lemma TickAt(s: seq<PState>, m: nat)
    requires m < |Kept(Fates(s), |s|)|
    ensures |Tick(s)| == |Kept(Fates(s), |s|)|
    ensures Tick(s)[m] == Effect(s[Kept(Fates(s), |s|)[m]], Fates(s)[Kept(Fates(s), |s|)[m]])
  {
  }

  /** The draw calls a pass makes on the particles below j: one for each
      updated particle, in array order, with the values it had before its step. */
  function Draws(s: seq<PState>, f: seq<Fate>, j: nat): seq<DrawCall>
    requires j <= |s| == |f|
  {
    if j == 0 then [] else Draws(s, f, j - 1) + if f[j - 1] == Updated then [DrawOf(s[j - 1])] else []
  }

  lemma {:induction false} FatesFromShape(s: seq<PState>, j: nat, k: nat)
    requires j <= k < |s|
    ensures var f := FatesFrom(s, j);
      && (f[k - j] == Removed ==> s[k].alpha < 0.0)
      && (f[k - j] != Skipped ==> (f[k - j] == Removed <==> s[k].alpha < 0.0))
      && (f[k - j] == Skipped <==> j < k && f[k - j - 1] == Removed)
    decreases |s| - j
  {
    var f := FatesFrom(s, j);
    if k == j {
    } else if s[j].alpha < 0.0 {
      if k > j + 1 {
        var g := FatesFrom(s, j + 2);
        assert f == [Removed, Skipped] + g;
        FatesFromShape(s, j + 2, k);
        assert f[k - j] == g[k - j - 2];
        if k == j + 2 {
          assert f[k - j - 1] == Skipped;
        } else {
          assert f[k - j - 1] == g[k - j - 3];
        }
      }
    } else {
      var g := FatesFrom(s, j + 1);
      assert f == [Updated] + g;
      FatesFromShape(s, j + 1, k);
      assert f[k - j] == g[k - j - 1];
      if k > j + 1 {
        assert f[k - j - 1] == g[k - j - 2];
      }
    }
  }

  /** What happens to the particle at position k in one pass: it is removed
      only if its alpha is below zero; a particle the loop examines is removed
      exactly when its alpha is below zero (and updated otherwise); and a
      particle is passed over exactly when its left neighbour was removed. */
  lemma FateOf(s: seq<PState>, k: nat)
    requires k < |s|
    ensures Fates(s)[k] == Removed ==> s[k].alpha < 0.0
    ensures Fates(s)[k] == Updated <==> Fates(s)[k] != Skipped && s[k].alpha >= 0.0
    ensures Fates(s)[k] == Skipped <==> 0 < k && Fates(s)[k - 1] == Removed
  {
    FatesFromShape(s, 0, k);
  }

  lemma {:induction false} FirstDeadFrom(s: seq<PState>, j: nat, k: nat)
    requires j <= k < |s| && s[k].alpha < 0.0
    requires forall m :: j <= m < k ==> s[m].alpha >= 0.0
    ensures FatesFrom(s, j)[k - j] == Removed
    ensures forall m :: 0 <= m < k - j ==> FatesFrom(s, j)[m] == Updated
    decreases k - j
  {
    if j < k {
      FirstDeadFrom(s, j + 1, k);
      assert FatesFrom(s, j) == [Updated] + FatesFrom(s, j + 1);
    }
  }

  /** Every particle in front of the first dead one is updated, and the first
      dead one is removed: a pass over a store holding a dead particle always
      shrinks the store. */
  lemma FirstDeadIsRemoved(s: seq<PState>, k: nat)
    requires k < |s| && s[k].alpha < 0.0
    requires forall m :: 0 <= m < k ==> s[m].alpha >= 0.0
    ensures Fates(s)[k] == Removed
    ensures forall m :: 0 <= m < k ==> Fates(s)[m] == Updated
    ensures |Tick(s)| < |s|
  {
    FirstDeadFrom(s, 0, k);
    KeptShorter(Fates(s), |s|, k);
  }

  /** A particle whose alpha is below zero is never drawn: every draw call of
      a pass carries a non-negative alpha. */
  lemma {:induction false} DrawsAreLive(s: seq<PState>, f: seq<Fate>, j: nat)
    requires j <= |s| == |f|
    requires forall k :: 0 <= k < |s| && f[k] == Updated ==> s[k].alpha >= 0.0
    ensures forall d :: d in Draws(s, f, j) ==> d.alpha >= 0.0
  {
    if j > 0 {
      DrawsAreLive(s, f, j - 1);
    }
  }

  lemma PassDrawsOnlyLive(s: seq<PState>)
    ensures forall d :: d in Draws(s, Fates(s), |s|) ==> d.alpha >= 0.0
  {
    forall k | 0 <= k < |s| && Fates(s)[k] == Updated
      ensures s[k].alpha >= 0.0
    {
      FateOf(s, k);
    }
    DrawsAreLive(s, Fates(s), |s|);
  }

  /** A particle with alpha >= 0 is kept, stepped once unless it was passed over. */
  lemma {:induction false} LiveParticleKept(s: seq<PState>, k: nat)
    requires k < |s| && s[k].alpha >= 0.0
    ensures k in Kept(Fates(s), |s|)
    ensures Fates(s)[k] == Updated || (0 < k && s[k - 1].alpha < 0.0 && Fates(s)[k] == Skipped)
  {
    FateOf(s, k);
    KeptComplete(Fates(s), |s|, k);
    if Fates(s)[k] == Skipped {
      FateOf(s, k - 1);
    }
  }

  /** The particle that slides into the slot of a removed one is neither
      updated nor removed in that pass, whatever its alpha: it stays in the
      store as it was, even when its own alpha is below zero. */
  lemma {:induction false} SkippedLeftAlone(s: seq<PState>, k: nat)
    requires 0 < k < |s| && Fates(s)[k - 1] == Removed
    ensures Fates(s)[k] == Skipped
    ensures k in Kept(Fates(s), |s|)
    ensures Effect(s[k], Fates(s)[k]) == s[k]
  {
    FateOf(s, k);
    KeptComplete(Fates(s), |s|, k);
  }

  /** The particle right after a removed one survives the pass with its values
      unchanged, whatever its alpha: it is still in the store afterwards. */
  lemma {:induction false} SkippedSurvives(s: seq<PState>, k: nat)
    requires 0 < k < |s| && Fates(s)[k - 1] == Removed
    ensures s[k] in Tick(s)
  {
    SkippedLeftAlone(s, k);
    var ids := Kept(Fates(s), |s|);
    var m :| 0 <= m < |ids| && ids[m] == k;
    TickAt(s, m);
  }

  /** A store of exactly two dead particles: the pass removes the first and
      passes over the second, which is left in the store, still dead, until
      the next frame. */
  lemma DeadPairKeepsSecond(p: PState, q: PState)
    requires p.alpha < 0.0 && q.alpha < 0.0
    ensures Fates([p, q]) == [Removed, Skipped]
    ensures Tick([p, q]) == [q]
  {
    assert FatesFrom([p, q], 2) == [];
    assert Kept([Removed, Skipped], 1) == [];
  }

  // Steps of the loop in animate(): f is the fate sequence of the whole pass,
  // j the position of the next particle the loop examines, and each lemma
  // states the step in the exact form the loop's ghost bookkeeping takes.

  /** The loop is about to examine s[j], the particle it examines next. */
  ghost predicate Examines(s: seq<PState>, j: nat)
  {
    j <= |s| && FatesFrom(s, j) == Fates(s)[j..]
  }

  lemma ExaminesStart(s: seq<PState>)
    ensures Examines(s, 0)
  {
  }

  lemma ExaminesAfterUpdate(s: seq<PState>, j: nat)
    requires Examines(s, j) && j < |s| && s[j].alpha >= 0.0
    ensures Fates(s)[j] == Updated && Examines(s, j + 1)
  {
    var f := Fates(s);
    assert FatesFrom(s, j) == [Updated] + FatesFrom(s, j + 1);
    assert f[j..] == [f[j]] + f[j + 1..];
  }

  lemma ExaminesAfterRemoval(s: seq<PState>, j: nat)
    requires Examines(s, j) && j < |s| && s[j].alpha < 0.0
    ensures Fates(s)[j] == Removed
    ensures j + 1 < |s| ==> Fates(s)[j + 1] == Skipped && Examines(s, j + 2)
  {
    var f := Fates(s);
    if j + 1 < |s| {
      assert FatesFrom(s, j) == [Removed, Skipped] + FatesFrom(s, j + 2);
      assert f[j..] == [f[j], f[j + 1]] + f[j + 2..];
    }
  }

  lemma PickNext<T>(r: seq<T>, ids: seq<nat>, k: nat)
    requires k < |r| && forall m :: 0 <= m < |ids| ==> ids[m] < |r|
    ensures Pick(r, ids) + r[k..] == Pick(r, ids + [k]) + r[k + 1..]
  {
    var lhs := Pick(r, ids) + r[k..];
    var rhs := Pick(r, ids + [k]) + r[k + 1..];
    assert |lhs| == |rhs|;
    forall m | 0 <= m < |lhs|
      ensures lhs[m] == rhs[m]
    {
      if m < |ids| {
        assert (ids + [k])[m] == ids[m];
      } else if m > |ids| {
        assert rhs[m] == r[k + 1 + (m - |ids| - 1)];
      }
    }
  }

  /** splice(i, 1) where the first i elements are kept and the rest is r[j..]. */
  lemma SpliceAt<T>(kept: seq<T>, r: seq<T>, j: nat)
    requires j < |r|
    ensures var a := kept + r[j..]; a[..|kept|] + a[|kept| + 1..] == kept + r[j + 1..]
  {
    var a := kept + r[j..];
    assert a[..|kept|] == kept;
    assert a[|kept| + 1..] == r[j + 1..];
  }

  /** The array a in the middle of a pass over the objects r with values s:
      the particles below j have met their fate, a holds the kept ones
      followed by r[j..], and the loop index i points at r[j], or one past
      the kept ones when the last particle was spliced out. */
  ghost predicate Arranged<T>(r: seq<T>, s: seq<PState>, j: nat, i: nat, a: seq<T>)
  {
    && j <= |r| == |s|
    && (j < |r| ==> Examines(s, j))
    && a == Pick(r, Kept(Fates(s), j)) + r[j..]
    && (i == |Kept(Fates(s), j)| || (j == |r| && i == |Kept(Fates(s), j)| + 1))
  }

  lemma ArrangedStart<T>(r: seq<T>, s: seq<PState>)
    requires |r| == |s|
    ensures Arranged(r, s, 0, 0, r)
    ensures Draws(s, Fates(s), 0) == []
  {
  }

  /** While the index is inside the array, it points at r[j]. */
  lemma ArrangedAt<T>(r: seq<T>, s: seq<PState>, j: nat, i: nat, a: seq<T>)
    requires Arranged(r, s, j, i, a) && i < |a|
    ensures j < |r| && a[i] == r[j]
  {
  }

  /** The loop has reached the end of the array: every particle has met its fate. */
  lemma ArrangedEnd<T>(r: seq<T>, s: seq<PState>, j: nat, i: nat, a: seq<T>)
    requires Arranged(r, s, j, i, a) && i >= |a|
    ensures j == |r| && a == Pick(r, Kept(Fates(s), |r|))
  {
  }

  /** splice(i, 1) of a dead particle: it is removed, and the one that slides
      into slot i, if any, is passed over. */
  lemma ArrangedAfterRemoval<T>(r: seq<T>, s: seq<PState>, j: nat, i: nat, a: seq<T>)
    requires Arranged(r, s, j, i, a) && i < |a| && j < |s| && s[j].alpha < 0.0
    ensures var j' := if j + 1 < |r| then j + 2 else j + 1;
      && Arranged(r, s, j', i + 1, a[..i] + a[i + 1..])
      && Draws(s, Fates(s), j') == Draws(s, Fates(s), j)
      && (forall k :: j <= k < j' ==> Effect(s[k], Fates(s)[k]) == s[k])
  {
    if j + 1 < |r| {
      RemovalThenSkip(r, s, j, i, a);
    } else {
      RemovalOfLast(r, s, j, i, a);
    }
  }

  lemma RemovalThenSkip<T>(r: seq<T>, s: seq<PState>, j: nat, i: nat, a: seq<T>)
    requires Arranged(r, s, j, i, a) && i < |a| && j + 1 < |s| && s[j].alpha < 0.0
    ensures Arranged(r, s, j + 2, i + 1, a[..i] + a[i + 1..])
    ensures Draws(s, Fates(s), j + 2) == Draws(s, Fates(s), j)
    ensures Fates(s)[j] == Removed && Fates(s)[j + 1] == Skipped
  {
    ExaminesAfterRemoval(s, j);
    SpliceThenSkipLayout(r, s, j, i, a);
    DrawsWithout(s, Fates(s), j);
    DrawsWithout(s, Fates(s), j + 1);
  }

  lemma SpliceThenSkipLayout<T>(r: seq<T>, s: seq<PState>, j: nat, i: nat, a: seq<T>)
    requires Arranged(r, s, j, i, a) && i < |a| && j + 1 < |s| && s[j].alpha < 0.0
    ensures a[..i] + a[i + 1..] == Pick(r, Kept(Fates(s), j + 2)) + r[j + 2..]
    ensures i + 1 == |Kept(Fates(s), j + 2)|
  {
    var f := Fates(s);
    var ids := Kept(f, j);
    assert i == |ids| && a == Pick(r, ids) + r[j..];
    ExaminesAfterRemoval(s, j);
    SkipAfterRemoval(r, f, j, ids);
    SpliceAt(Pick(r, ids), r, j);
    assert a[..i] + a[i + 1..] == Pick(r, ids) + r[j + 1..];
    PickNext(r, ids, j + 1);
  }

  lemma SkipAfterRemoval<T>(r: seq<T>, f: seq<Fate>, j: nat, ids: seq<nat>)
    requires j + 1 < |f| == |r| && f[j] == Removed && f[j + 1] == Skipped && ids == Kept(f, j)
    ensures Kept(f, j + 2) == ids + [j + 1]
  {
    assert Kept(f, j + 1) == ids;
  }

  /** A particle that is not updated adds no draw call. */
  lemma DrawsWithout(s: seq<PState>, f: seq<Fate>, j: nat)
    requires j < |s| == |f| && f[j] != Updated
    ensures Draws(s, f, j + 1) == Draws(s, f, j)
  {
  }

  lemma RemovalOfLast<T>(r: seq<T>, s: seq<PState>, j: nat, i: nat, a: seq<T>)
    requires Arranged(r, s, j, i, a) && i < |a| && j + 1 == |s| && s[j].alpha < 0.0
    ensures Arranged(r, s, j + 1, i + 1, a[..i] + a[i + 1..])
    ensures Draws(s, Fates(s), j + 1) == Draws(s, Fates(s), j)
    ensures Fates(s)[j] == Removed
  {
    var f := Fates(s);
    var ids := Kept(f, j);
    ExaminesAfterRemoval(s, j);
    SpliceAt(Pick(r, ids), r, j);
    assert Kept(f, j + 1) == ids;
  }

  /** update() of a live particle: it is updated, drawn, and kept. */
  lemma ArrangedAfterUpdate<T>(r: seq<T>, s: seq<PState>, j: nat, i: nat, a: seq<T>)
    requires Arranged(r, s, j, i, a) && i < |a| && j < |s| && s[j].alpha >= 0.0
    ensures Arranged(r, s, j + 1, i + 1, a)
    ensures Fates(s)[j] == Updated
    ensures Draws(s, Fates(s), j + 1) == Draws(s, Fates(s), j) + [DrawOf(s[j])]
  {
    var f := Fates(s);
    var ids := Kept(f, j);
    ExaminesAfterUpdate(s, j);
    assert Kept(f, j + 1) == ids + [j];
    PickNext(r, ids, j);
  }

  /** Picking ascending positions out of a sequence without repeats gives a
      sequence without repeats. */
  lemma PickDistinct<T>(r: seq<T>, ids: seq<nat>)
    requires Distinct(r)
    requires forall m :: 0 <= m < |ids| ==> ids[m] < |r|
    requires forall m1, m2 :: 0 <= m1 < m2 < |ids| ==> ids[m1] < ids[m2]
    ensures Distinct(Pick(r, ids))
  {
  }
}
