/** The scratch-off component: a drag over the mask image is turned into brush
    stamps that are drawn, batch by batch, into a persistent mask texture; a
    compute pass summarises the mask on request. */
module Scratch {
  import opened Wrappers
  import opened Geometry
  import opened Commands
  import opened Stroke

  /** What the statistics pass reports: how many mask texels are non-zero and the
      sum of the texel values. */
  datatype StatData = StatData(nonZeroCount: int, pixelValSum: real)

  const ZeroStat := StatData(0, 0.0)

  /** One operation on the statistics compute buffer and shader, as issued. */
  datatype ComputeOp =
    | Upload(data: StatData)
    | Dispatch(kernel: int, groupsX: int, groupsY: int, groupsZ: int)
    | Readback

  /** The mouse status of one frame: 0 none, 1 down, 2 hold, 3 up. */
  datatype MouseStatus = NoButton | Down | Hold | Up

  /** A press in this frame wins over a held button, which wins over a release. */
  function ButtonStatus(pressed: bool, held: bool, released: bool): (m: MouseStatus)
    ensures m == Down <==> pressed
    ensures m == Hold <==> !pressed && held
    ensures m == Up <==> !pressed && !held && released
  {
    if pressed then Down else if held then Hold else if released then Up else NoButton
  }

  /** The rejection test of the input handler as the code writes it: `y` is
      compared with both the width and the height of the mask, and `x` with
      nothing but zero. */
  predicate Rejected(p: Vec2, maskSize: Vec2)
  {
    p.x < 0.0 || p.y < 0.0 || p.y >= maskSize.x || p.y >= maskSize.y
  }

  /** Every abscissa from zero up is accepted: the test has no right-hand bound. */
  lemma RejectionIgnoresRightEdge(p: Vec2, maskSize: Vec2, x: real)
    requires p.x >= 0.0 && x >= 0.0
    ensures Rejected(p, maskSize) == Rejected(Vec2(x, p.y), maskSize)
    ensures maskSize.x > 0.0 && maskSize.y > 0.0 ==> !Rejected(Vec2(maskSize.x + x, 0.0), maskSize)
  {
  }

  /** `Vector2.Distance(p, q) > threshold`, stated on the squared distance. */
  predicate MovedBeyond(p: Vec2, q: Vec2, threshold: real)
  {
    threshold < 0.0 || SqDist(p, q) > threshold * threshold
  }

  /** For the true distance `d` (the non-negative root of the squared distance),
      `d > threshold` is exactly `MovedBeyond`. */
  lemma DistanceComparison(p: Vec2, q: Vec2, threshold: real, d: real)
    requires d >= 0.0 && d * d == SqDist(p, q)
    ensures d > threshold <==> MovedBeyond(p, q, threshold)
  {
    if threshold >= 0.0 {
      if d > threshold {
        SquareLess(d, threshold);
      } else if d < threshold {
        SquareLess(threshold, d);
      }
    }
  }

  lemma SquareLess(a: real, b: real)
    requires 0.0 <= b < a
    ensures b * b < a * a
  {
    var aa, ba, bb := a * a, b * a, b * b;
    assert ba < aa by { assert (a - b) * a > 0.0; }
    assert bb <= ba by { assert b * (a - b) >= 0.0; }
  }

  /** C#'s `(int)` conversion of a float: truncation toward zero. */
  function TruncateToInt(r: real): (n: int)
    ensures r >= 0.0 ==> 0 <= n && n as real <= r < n as real + 1.0
    ensures r < 0.0 ==> n <= 0 && n as real - 1.0 < r <= n as real
  {
    if r >= 0.0 then r.Floor else -((-r).Floor)
  }

  /** `size / 8` in C#: the number of whole 8-texel thread groups along one axis
      (truncating division, so that part of a group is never dispatched). */
  function GroupCount(size: int): (n: int)
    ensures size >= 0 ==> n >= 0 && 8 * n <= size < 8 * n + 8
    ensures size < 0 ==> n <= 0 && 8 * n - 8 < size <= 8 * n
  {
    if size >= 0 then size / 8 else -((-size) / 8)
  }

  class ScratchImage {
    // Configuration, as set in the inspector.
    const hasUiCamera: bool
    const brushTex: Option<Texture>
    const brushSize: real
    const paintStep: real
    const moveThreshold: real
    const brushAlpha: real
    const hasStatShader: bool
    /** The size of the mask image's rectangle, in local units. */
    const maskSize: Vec2

    // Resources made once by Init.
    const rtWidth: int
    const rtHeight: int
    const proj: Projection
    const quad: Mesh
    const arrInstancingMatrixs: array<Trs>
    const statShaderKernel: int
    const statData: array<StatData>

    // State.
    var isDirty: bool
    var beginPos: Vec2
    var endPos: Vec2
    var lastPoint: Vec2
    /** The command list being recorded. */
    var cb: seq<Command>
    /** Every command list handed to `Graphics.ExecuteCommandBuffer`, in order. */
    var executed: seq<seq<Command>>
    /** The paint material's `_MainTex` and `_BrushAlpha`. */
    var materialTex: Texture
    var materialAlpha: real
    /** Every operation issued on the compute buffer and statistics shader. */
    var computeLog: seq<ComputeOp>

    ghost predicate Valid()
      reads this
    {
      && arrInstancingMatrixs.Length == InstanceCountPerBatch
      && paintStep > 0.0
      && (statShaderKernel != -1 ==> statData.Length == 1)
    }

    /** `Start`: `Init` followed by `ResetMask`. The kernel index is what
        `FindKernel("CSMain")` returns when a statistics shader is assigned. */
    constructor (hasUiCamera: bool, brushTex: Option<Texture>, brushSize: real,
                 paintStep: real, moveThreshold: real, brushAlpha: real,
                 hasStatShader: bool, csMainKernel: nat, maskSize: Vec2)
      requires paintStep > 0.0
      ensures Valid()
      ensures this.hasUiCamera == hasUiCamera && this.brushTex == brushTex
      ensures this.brushSize == brushSize && this.paintStep == paintStep
      ensures this.moveThreshold == moveThreshold && this.brushAlpha == brushAlpha
      ensures this.hasStatShader == hasStatShader && this.maskSize == maskSize
      ensures rtWidth == TruncateToInt(maskSize.x) && rtHeight == TruncateToInt(maskSize.y)
      ensures proj == Ortho(0.0, rtWidth as real, 0.0, rtHeight as real, -1.0, 1.0)
      ensures quad == UnitQuad()
      ensures fresh(arrInstancingMatrixs) && fresh(statData)
      ensures statShaderKernel == if hasStatShader then csMainKernel else -1
      ensures lastPoint == Zero2 && beginPos == Zero2 && endPos == Zero2
      ensures !isDirty && computeLog == []
      ensures cb == PaintContext(Some(ClearColor), proj) && executed == [cb]
    {
      this.hasUiCamera := hasUiCamera;
      this.brushTex := brushTex;
      this.brushSize := brushSize;
      this.paintStep := paintStep;
      this.moveThreshold := moveThreshold;
      this.brushAlpha := brushAlpha;
      this.hasStatShader := hasStatShader;
      this.maskSize := maskSize;
      lastPoint := Zero2;
      beginPos := Zero2;
      endPos := Zero2;
      isDirty := false;
      quad := UnitQuad();
      var w := TruncateToInt(maskSize.x);
      var h := TruncateToInt(maskSize.y);
      rtWidth := w;
      rtHeight := h;
      arrInstancingMatrixs := new Trs[InstanceCountPerBatch];
      proj := Ortho(0.0, w as real, 0.0, h as real, -1.0, 1.0);
      // Placeholders for the material's asset values, which Start leaves alone;
      // BuildCommands sets both before any draw, and no contract depends on them.
      materialTex := WhiteTexture;
      materialAlpha := brushAlpha;
      cb := [];
      executed := [];
      computeLog := [];
      if hasStatShader {
        statData := new StatData[1];
        statShaderKernel := csMainKernel;
      } else {
        statData := new StatData[0];
        statShaderKernel := -1;
      }
      new;
      ResetMask();
    }

    /** Clears the mask: records the clearing preamble, submits it, and drops any
        segment that was waiting to be painted. */
    method ResetMask()
      modifies this`cb, this`executed, this`isDirty
      ensures cb == PaintContext(Some(ClearColor), proj)
      ensures executed == old(executed) + [cb]
      ensures !isDirty
    {
      SetupPaintContext(true);
      executed := executed + [cb];
      isDirty := false;
    }

    /** Reads the statistics: without a statistics shader, a zero result and no
        GPU work; otherwise the counter is zeroed and uploaded, whole 8x8 thread
        groups are dispatched over the mask, and what the GPU wrote back (the
        parameter `readback`) is returned. */
    method GetStatData(readback: StatData) returns (d: StatData)
      requires Valid()
      modifies statData, this`computeLog
      ensures statShaderKernel == -1 ==> d == ZeroStat && computeLog == old(computeLog)
      ensures statShaderKernel == -1 ==> unchanged(statData)
      ensures statShaderKernel != -1 ==>
        && computeLog == old(computeLog)
             + [Upload(ZeroStat), Dispatch(statShaderKernel, GroupCount(rtWidth), GroupCount(rtHeight), 1), Readback]
        && statData[0] == readback && d == readback
    {
      if statShaderKernel == -1 {
        return ZeroStat;
      }
      statData[0] := StatData(0, 0.0);
      computeLog := computeLog + [Upload(statData[0])];
      computeLog := computeLog + [Dispatch(statShaderKernel, GroupCount(rtWidth), GroupCount(rtHeight), 1)];
      statData[0] := readback;
      computeLog := computeLog + [Readback];
      d := statData[0];
    }

    /** Paints the pending segment, if any, and makes its end the next segment's
        beginning. `len` and `dir` are the magnitude and direction of the pending
        segment. */
    method LateUpdate(len: real, dir: Vec2)
      requires Valid()
      requires isDirty ==> Measures(Sub(endPos, beginPos), len, dir)
      modifies this`cb, this`isDirty, this`materialTex, this`materialAlpha,
               this`executed, this`beginPos, arrInstancingMatrixs
      ensures !old(isDirty) ==> unchanged(this) && unchanged(arrInstancingMatrixs)
      ensures old(isDirty) ==>
        && !isDirty
        && cb == PaintContext(None, proj)
                 + Batches(Stamps(old(beginPos), dir, paintStep, brushSize, StampCount(len, paintStep)))
        && executed == old(executed) + [cb]
        && beginPos == endPos == old(endPos)
        && materialTex == (if brushTex.Some? then brushTex.value else WhiteTexture)
        && materialAlpha == brushAlpha
    {
      var painted := BuildCommands(len, dir);
      if painted {
        executed := executed + [cb];
        beginPos := endPos;
      }
    }

    /** Records the draws of the pending segment. Nothing is recorded and nothing
        changes when no segment is pending; otherwise the list holds the paint
        preamble (no clear) followed by the batched stamps of the segment from
        `beginPos` along `dir` for length `len`, and the segment is no longer
        pending. */
    method BuildCommands(len: real, dir: Vec2) returns (painted: bool)
      requires Valid()
      requires isDirty ==> Measures(Sub(endPos, beginPos), len, dir)
      modifies this`cb, this`isDirty, this`materialTex, this`materialAlpha, arrInstancingMatrixs
      ensures painted == old(isDirty)
      ensures !painted ==> unchanged(this) && unchanged(arrInstancingMatrixs)
      ensures painted ==>
        && !isDirty
        && cb == PaintContext(None, proj)
                 + Batches(Stamps(beginPos, dir, paintStep, brushSize, StampCount(len, paintStep)))
        && materialTex == (if brushTex.Some? then brushTex.value else WhiteTexture)
        && materialAlpha == brushAlpha
      ensures painted ==> forall c :: c in cb ==> !c.ClearRenderTarget?
    {
      if !isDirty {
        return false;
      }
      materialTex := if brushTex.Some? then brushTex.value else WhiteTexture;
      materialAlpha := brushAlpha;
      SetupPaintContext(false);
      ghost var pre := cb;
      cb := EmitStamps(arrInstancingMatrixs, cb, beginPos, dir, len, paintStep, brushSize);
      ghost var draws := Batches(Stamps(beginPos, dir, paintStep, brushSize, StampCount(len, paintStep)));
      BatchesShape(Stamps(beginPos, dir, paintStep, brushSize, StampCount(len, paintStep)));
      assert forall c :: c in draws ==> c.DrawMeshInstanced?;
      assert forall c :: c in cb ==> c in pre || c in draws;
      isDirty := false;
      painted := true;
    }

    /** Starts the command list: clear it, bind the mask texture, clear the mask
        to transparent when `clearRT`, and set the pixel-exact projection. */
    method SetupPaintContext(clearRT: bool)
      modifies this`cb
      ensures cb == PaintContext(if clearRT then Some(ClearColor) else None, proj)
      ensures cb[0] == SetRenderTarget && cb[|cb| - 1] == SetViewProjectionMatrices(proj)
      ensures (exists c :: c in cb && c.ClearRenderTarget?) <==> clearRT
    {
      cb := [];
      cb := cb + [SetRenderTarget];
      if clearRT {
        cb := cb + [ClearRenderTarget(true, true, ClearColor)];
      }
      cb := cb + [SetViewProjectionMatrices(proj)];
      if clearRT {
        assert cb[1] in cb;
      }
    }

    /** Handles the mouse for one frame, given the button state and the pointer
        position in the mask's local coordinates. Without a UI camera, without a
        button, or for a rejected point nothing changes. A press starts a segment;
        a held button extends it only when the pointer moved more than
        `moveThreshold` since the last accepted point; a release always ends it.
        Extending and ending mark the segment pending. */
    method CheckInput(pressed: bool, held: bool, released: bool, localPt: Vec2)
      modifies this`beginPos, this`endPos, this`lastPoint, this`isDirty
      ensures var status := ButtonStatus(pressed, held, released);
        var accepted := hasUiCamera && status != NoButton && !Rejected(localPt, maskSize);
        && (!accepted ==> unchanged(this))
        && (accepted && status == Down ==>
              beginPos == lastPoint == localPt && endPos == old(endPos) && isDirty == old(isDirty))
        && (accepted && status == Hold && MovedBeyond(localPt, old(lastPoint), moveThreshold) ==>
              endPos == lastPoint == localPt && isDirty && beginPos == old(beginPos))
        && (accepted && status == Hold && !MovedBeyond(localPt, old(lastPoint), moveThreshold) ==>
              unchanged(this))
        && (accepted && status == Up ==>
              endPos == lastPoint == localPt && isDirty && beginPos == old(beginPos))
      ensures old(isDirty) ==> isDirty
    {
      if !hasUiCamera {
        return;
      }
      var status := ButtonStatus(pressed, held, released);
      if status == NoButton {
        return;
      }
      if localPt.x < 0.0 || localPt.y < 0.0 || localPt.y >= maskSize.x || localPt.y >= maskSize.y {
        return;
      }
      match status {
        case Down =>
          beginPos := localPt;
          lastPoint := localPt;
        case Hold =>
          if MovedBeyond(localPt, lastPoint, moveThreshold) {
            endPos := localPt;
            lastPoint := localPt;
            isDirty := true;
          }
        case Up =>
          endPos := localPt;
          lastPoint := localPt;
          isDirty := true;
      }
    }
  }
}
