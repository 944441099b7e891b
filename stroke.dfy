/** The CPU side of one stroke segment: resampling the segment into evenly spaced
    brush stamps, and packing the stamps into instanced draws of bounded size. */
module Stroke {
  import opened Geometry
  import opened Commands

  /** The instancing limit per draw in both components. */
  const InstanceCountPerBatch := 200

  /** The distance along the segment at which stamp `i` is placed. */
  function Offset(i: int, step: real): real { (i as real) * step }

  lemma OffsetMonotone(i: int, j: int, step: real)
    requires step > 0.0 && i <= j
    ensures Offset(i, step) <= Offset(j, step)
  {
    assert Offset(j, step) - Offset(i, step) == ((j - i) as real) * step;
  }

  lemma OffsetNext(i: int, step: real)
    ensures Offset(i + 1, step) == Offset(i, step) + step
  {
    assert ((i + 1) as real) * step == (i as real) * step + 1.0 * step;
  }

  /** How many stamps a segment of length `len` gets with spacing `step`: exactly
      the offsets 0, step, 2*step, ... that do not pass `len`. At least one when
      `len >= 0`, so a zero-length segment still gets a stamp. */
  function StampCount(len: real, step: real): (k: nat)
    requires step > 0.0
    ensures forall i {:trigger Offset(i, step)} :: 0 <= i ==> (Offset(i, step) <= len <==> i < k)
    ensures len >= 0.0 ==> k == (len / step).Floor + 1
    ensures len < 0.0 ==> k == 0
  {
    if len < 0.0 then
      assert forall i {:trigger Offset(i, step)} :: 0 <= i ==> Offset(i, step) >= 0.0 by {
        forall i | 0 <= i ensures Offset(i, step) >= 0.0 { OffsetMonotone(0, i, step); }
      }
      0
    else
      var q := len / step;
      assert q * step == len;
      assert q >= 0.0;
      forall i | 0 <= i ensures Offset(i, step) <= len <==> i <= q.Floor {
        OffsetDivides(i, step, len);
      }
      q.Floor + 1
  }

  lemma OffsetDivides(i: int, step: real, len: real)
    requires step > 0.0
    ensures Offset(i, step) <= len <==> i <= (len / step).Floor
  {
    var q := len / step;
    assert q * step == len;
    MulMonotone(i as real, q, step);
  }

  lemma MulMonotone(a: real, b: real, s: real)
    requires s > 0.0
    ensures a <= b <==> a * s <= b * s
  {
    var as_, bs := a * s, b * s;
    assert bs - as_ == (b - a) * s;
    if a <= b {
      assert (b - a) * s >= 0.0;
    } else {
      assert (a - b) * s > 0.0;
    }
  }

  /** The transform of stamp `i`: the path point at `Offset(i, step)` moved down
      and left by half a brush, so that the brush is centred on the path, with no
      rotation and a uniform scale of `size`. */
  function StampAt(begin: Vec2, dir: Vec2, step: real, size: real, i: int): Trs
  {
    var pt := Sub(Add(begin, Scale(dir, Offset(i, step))), Scale(One2, size * 0.5));
    Trs(Vec3(pt.x, pt.y, 0.0), IdentityRotation, Vec3(size, size, size))
  }

  /** The first `k` stamps of a segment. */
  function Stamps(begin: Vec2, dir: Vec2, step: real, size: real, k: nat): seq<Trs>
  {
    seq(k, i requires 0 <= i < k => StampAt(begin, dir, step, size, i))
  }

  /** Stamp `i` is centred on the path point at `Offset(i, step)`, has identity
      rotation, uniform scale `size`, and lies in the z = 0 plane. */
  lemma StampPlacement(begin: Vec2, dir: Vec2, step: real, size: real, k: nat, i: nat)
    requires i < k
    ensures var s := Stamps(begin, dir, step, size, k);
      && |s| == k
      && s[i].rotation == IdentityRotation
      && s[i].scale == Vec3(size, size, size)
      && s[i].translation.z == 0.0
      && Add(Vec2(s[i].translation.x, s[i].translation.y), Vec2(size / 2.0, size / 2.0))
         == Add(begin, Scale(dir, Offset(i, step)))
  {
  }

  /** The instance transforms of all draws in a command list, in order. */
  function Flatten(cmds: seq<Command>): seq<Trs>
  {
    if cmds == [] then []
    else (if cmds[0].DrawMeshInstanced? then cmds[0].instances else []) + Flatten(cmds[1..])
  }

  lemma {:induction false} FlattenAppend(a: seq<Command>, b: seq<Command>)
    ensures Flatten(a + b) == Flatten(a) + Flatten(b)
  {
    if a == [] {
      assert a + b == b;
    } else {
      assert (a + b)[1..] == a[1..] + b;
      FlattenAppend(a[1..], b);
    }
  }

  /** The number of instances all draws of a command list carry together. */
  function InstanceTotal(cmds: seq<Command>): nat
  {
    if cmds == [] then 0
    else (if cmds[0].DrawMeshInstanced? then |cmds[0].instances| else 0) + InstanceTotal(cmds[1..])
  }

  lemma {:induction false} InstanceTotalIsFlattenLength(cmds: seq<Command>)
    ensures InstanceTotal(cmds) == |Flatten(cmds)|
  {
    if cmds != [] { InstanceTotalIsFlattenLength(cmds[1..]); }
  }

  /** ceil(k / InstanceCountPerBatch). */
  function BatchCountFor(k: nat): nat
  {
    (k + InstanceCountPerBatch - 1) / InstanceCountPerBatch
  }

  /** The draws the batching loop issues for the stamps `s`: full draws of
      `InstanceCountPerBatch` instances while more than that many stamps remain,
      then one draw of the rest. */
  function Batches(s: seq<Trs>): seq<Command>
    decreases |s|
  {
    if |s| == 0 then []
    else if |s| <= InstanceCountPerBatch then [DrawMeshInstanced(s)]
    else [DrawMeshInstanced(s[..InstanceCountPerBatch])] + Batches(s[InstanceCountPerBatch..])
  }

  /** Every draw carries between 1 and 200 instances, every draw but the last
      carries exactly 200, the draws together carry exactly the stamps in order,
      and there are ceil(K / 200) of them. */
  lemma {:induction false} BatchesShape(s: seq<Trs>)
    decreases |s|
    ensures var r := Batches(s);
      && (forall j :: 0 <= j < |r| ==>
            r[j].DrawMeshInstanced? && 0 < |r[j].instances| <= InstanceCountPerBatch)
      && (forall j :: 0 <= j < |r| - 1 ==> |r[j].instances| == InstanceCountPerBatch)
      && Flatten(r) == s
      && |r| == BatchCountFor(|s|)
  {
    if |s| == 0 {
    } else if |s| <= InstanceCountPerBatch {
      assert Flatten([DrawMeshInstanced(s)]) == s + Flatten([]);
    } else {
      var c := InstanceCountPerBatch;
      BatchesShape(s[c..]);
      var rest := Batches(s[c..]);
      var r := [DrawMeshInstanced(s[..c])] + rest;
      assert r[1..] == rest;
      assert s == s[..c] + s[c..];
    }
  }

  /** The last draw carries the remainder: `K mod 200`, or 200 when 200 divides `K`. */
  lemma LastBatch(s: seq<Trs>)
    requires |s| > 0
    ensures var r := Batches(s);
      && |r| > 0 && r[|r| - 1].DrawMeshInstanced?
      && |r[|r| - 1].instances|
        == (if |s| % InstanceCountPerBatch == 0 then InstanceCountPerBatch else |s| % InstanceCountPerBatch)
  {
    var r := Batches(s);
    BatchesShape(s);
    InstanceTotalIsFlattenLength(r);
    FullThenLast(r);
  }

  lemma {:induction false} FullThenLast(r: seq<Command>)
    requires |r| > 0
    requires forall j :: 0 <= j < |r| ==> r[j].DrawMeshInstanced?
    requires forall j :: 0 <= j < |r| - 1 ==> |r[j].instances| == InstanceCountPerBatch
    ensures InstanceTotal(r) == (|r| - 1) * InstanceCountPerBatch + |r[|r| - 1].instances|
  {
    if |r| > 1 {
      FullThenLast(r[1..]);
    }
  }

  /** Splitting the stamps after a whole number of full draws splits the draws. */
  lemma {:induction false} BatchesAppend(s: seq<Trs>, t: seq<Trs>)
    requires |s| % InstanceCountPerBatch == 0
    decreases |s|
    ensures Batches(s + t) == Batches(s) + Batches(t)
  {
    var c := InstanceCountPerBatch;
    if |s| == 0 {
      assert s + t == t;
    } else if |s + t| <= c {
      assert |s| == c && t == [];
      assert s + t == s;
    } else {
      calc {
        Batches(s + t);
        [DrawMeshInstanced((s + t)[..c])] + Batches((s + t)[c..]);
        { assert (s + t)[..c] == s[..c]; assert (s + t)[c..] == s[c..] + t; }
        [DrawMeshInstanced(s[..c])] + Batches(s[c..] + t);
        { BatchesAppend(s[c..], t); }
        [DrawMeshInstanced(s[..c])] + (Batches(s[c..]) + Batches(t));
        { BatchesUnfold(s); }
        Batches(s) + Batches(t);
      }
    }
  }

  /** One full draw, then the draws of what follows it. */
  lemma BatchesUnfold(s: seq<Trs>)
    requires |s| >= InstanceCountPerBatch
    ensures Batches(s) == [DrawMeshInstanced(s[..InstanceCountPerBatch])] + Batches(s[InstanceCountPerBatch..])
  {
    if |s| == InstanceCountPerBatch {
      assert s[..InstanceCountPerBatch] == s;
      assert s[InstanceCountPerBatch..] == [];
    }
  }

  /** When `len` and `dir` measure the segment from `begin` to `end`, every stamp
      centre lies on that segment, at fraction `t` of the way, and the last stamp
      is less than one step short of `end`. A zero-length segment gets exactly one
      stamp, at `begin`. */
  lemma StampsFollowSegment(begin: Vec2, end: Vec2, len: real, dir: Vec2, step: real, i: nat)
    requires step > 0.0 && Measures(Sub(end, begin), len, dir)
    requires i < StampCount(len, step)
    ensures var t := if len == 0.0 then 0.0 else Offset(i, step) / len;
      && 0.0 <= t <= 1.0
      && Add(begin, Scale(dir, Offset(i, step))) == Add(begin, Scale(Sub(end, begin), t))
    ensures len - Offset(StampCount(len, step) - 1, step) < step
    ensures len == 0.0 ==> StampCount(len, step) == 1 && Add(begin, Scale(dir, Offset(i, step))) == begin
  {
    var k := StampCount(len, step);
    OffsetMonotone(0, i, step);
    OffsetNext(k - 1, step);
    assert Offset(k, step) > len;
    if len == 0.0 {
      assert i == 0;
    } else {
      DirectionTimesOffset(Sub(end, begin), len, dir, Offset(i, step));
    }
  }

  lemma DirectionTimesOffset(v: Vec2, len: real, dir: Vec2, o: real)
    requires len > 0.0 && Scale(dir, len) == v && 0.0 <= o <= len
    ensures 0.0 <= o / len <= 1.0
    ensures Scale(dir, o) == Scale(v, o / len)
  {
    var t := o / len;
    assert t * len == o;
    assert v.x == dir.x * len && v.y == dir.y * len;
    assert v.x * t == dir.x * (len * t);
    assert v.y * t == dir.y * (len * t);
  }

  /** What one painted segment records: ceil(K / 200) draws holding exactly the K
      stamps in order, K = floor(len / step) + 1. */
  lemma StrokeDraws(begin: Vec2, dir: Vec2, len: real, step: real, size: real)
    requires step > 0.0 && len >= 0.0
    ensures var k := StampCount(len, step);
      var r := Batches(Stamps(begin, dir, step, size, k));
      && k == (len / step).Floor + 1
      && |r| == BatchCountFor(k) > 0
      && InstanceTotal(r) == k
      && Flatten(r) == Stamps(begin, dir, step, size, k)
      && (forall j :: 0 <= j < |r| ==>
            r[j].DrawMeshInstanced? && 0 < |r[j].instances| <= InstanceCountPerBatch)
      && (forall j :: 0 <= j < |r| - 1 ==> |r[j].instances| == InstanceCountPerBatch)
  {
    var k := StampCount(len, step);
    var s := Stamps(begin, dir, step, size, k);
    BatchesShape(s);
    InstanceTotalIsFlattenLength(Batches(s));
  }

  /** A drag of 100 units with spacing 5 gets 21 stamps in one draw; 2000 units
      get 401 stamps in three draws, the last holding one. */
  lemma SampleDrags(begin: Vec2, dir: Vec2, size: real)
    ensures StampCount(100.0, 5.0) == 21
    ensures |Batches(Stamps(begin, dir, 5.0, size, 21))| == 1
    ensures StampCount(2000.0, 5.0) == 401
    ensures var r := Batches(Stamps(begin, dir, 5.0, size, 401));
      |r| == 3 && r[2].DrawMeshInstanced? && |r[2].instances| == 1
  {
    BatchesShape(Stamps(begin, dir, 5.0, size, 21));
    BatchesShape(Stamps(begin, dir, 5.0, size, 401));
    LastBatch(Stamps(begin, dir, 5.0, size, 401));
  }

  /** Flushing the full buffer after `f` stamps extends the full draws by one. */
  lemma FlushStep(all: seq<Trs>, f: nat)
    requires f % InstanceCountPerBatch == 0 && f + InstanceCountPerBatch <= |all|
    ensures Batches(all[..f]) + [DrawMeshInstanced(all[f..f + InstanceCountPerBatch])]
            == Batches(all[..f + InstanceCountPerBatch])
  {
    var c := InstanceCountPerBatch;
    assert all[..f + c] == all[..f] + all[f..f + c];
    BatchesAppend(all[..f], all[f..f + c]);
  }

  /** The final draw of the `1..200` buffered stamps after `f` flushed ones completes the draws. */
  lemma FinalStep(all: seq<Trs>, f: nat)
    requires f % InstanceCountPerBatch == 0 && f < |all| <= f + InstanceCountPerBatch
    ensures Batches(all[..f]) + [DrawMeshInstanced(all[f..])] == Batches(all)
  {
    assert all == all[..f] + all[f..];
    BatchesAppend(all[..f], all[f..]);
  }

  /** The draws that one `while (offset <= len)` loop appends to `pre`, using `arr`
      as the reusable instance buffer. The loop writes only below `arr.Length`,
      flushes a full buffer when one more stamp is due, and issues a final draw
      for what is left. */
  method EmitStamps(arr: array<Trs>, pre: seq<Command>, begin: Vec2, dir: Vec2,
                    len: real, step: real, size: real) returns (cb: seq<Command>)
    requires arr.Length == InstanceCountPerBatch
    requires step > 0.0
    modifies arr
    ensures cb == pre + Batches(Stamps(begin, dir, step, size, StampCount(len, step)))
  {
    var cap := arr.Length;
    ghost var k := StampCount(len, step);
    ghost var all := Stamps(begin, dir, step, size, k);
    ghost var i := 0;
    ghost var flushed := 0;
    var offset := 0.0;
    var instCount := 0;
    cb := pre;
    while offset <= len
      invariant 0 <= i <= k
      invariant offset == Offset(i, step)
      invariant 0 <= instCount <= cap
      invariant 0 <= flushed && flushed + instCount == i && flushed % cap == 0
      invariant i > 0 ==> instCount > 0
      invariant cb == pre + Batches(all[..flushed])
      invariant arr[..instCount] == all[flushed..i]
      decreases k - i
    {
      assert i < k;
      if instCount >= cap {
        FlushStep(all, flushed);
        cb := cb + [DrawMeshInstanced(arr[..instCount])];
        flushed := flushed + cap;
        instCount := 0;
      }
      var tmpPt := Add(begin, Scale(dir, offset));
      tmpPt := Sub(tmpPt, Scale(One2, size * 0.5));
      OffsetNext(i, step);
      offset := offset + step;
      arr[instCount] := Trs(Vec3(tmpPt.x, tmpPt.y, 0.0), IdentityRotation, Vec3(size, size, size));
      assert arr[instCount] == all[i];
      instCount := instCount + 1;
      i := i + 1;
    }
    assert i == k;
    if instCount > 0 {
      FinalStep(all, flushed);
      assert arr[..instCount] == all[flushed..];
      cb := cb + [DrawMeshInstanced(arr[..instCount])];
      assert cb == pre + Batches(all);
    } else {
      assert all[..flushed] == all;
      assert cb == pre + Batches(all);
    }
  }
}
