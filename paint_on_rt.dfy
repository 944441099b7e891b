/** The test variant of the painting loop: every frame it repaints, into a freshly
    cleared 600x600 texture, one fixed segment from `offsetFrom` to `offsetTo`. */
module PaintTest {
  import opened Wrappers
  import opened Geometry
  import opened Commands
  import opened Stroke

  /** A missing brush texture is replaced by the white one; an assigned one is
      kept, so replacing a second time changes nothing. */
  function BrushOrWhite(t: Option<Texture>): (r: Option<Texture>)
    ensures r.Some?
    ensures t.None? ==> r == Some(WhiteTexture)
    ensures t.Some? ==> r == t
  {
    if t.None? then Some(WhiteTexture) else t
  }

  /** The size of the texture `Start` creates. */
  const TextureSize := 600

  class PaintOnRT {
    // Configuration, as set in the inspector.
    const hasMaskImg: bool
    const offsetFrom: Vec2
    const offsetTo: Vec2
    const brushSize: real
    const precision: real
    var brushTex: Option<Texture>

    // The component's own state.
    var enabled: bool
    ghost var started: bool
    var rtWidth: int
    var rtHeight: int
    var proj: Projection
    var quad: Mesh
    var arrMatrixs: array<Trs>
    var isDirty: bool
    var beginPos: Vec2
    var endPos: Vec2
    /** The command list being recorded. */
    var cb: seq<Command>
    /** Every command list handed to `Graphics.ExecuteCommandBuffer`, in order. */
    var executed: seq<seq<Command>>

    /** The state after a successful `Start`, which the engine's per-frame calls assume. */
    ghost predicate Ready()
      reads this
    {
      started && arrMatrixs.Length == InstanceCountPerBatch && precision > 0.0
    }

    /** The component as the scene creates it, before `Start`. */
    constructor (hasMaskImg: bool, brushTex: Option<Texture>, offsetFrom: Vec2, offsetTo: Vec2,
                 brushSize: real, precision: real)
      requires precision > 0.0
      ensures this.hasMaskImg == hasMaskImg && this.brushTex == brushTex
      ensures this.offsetFrom == offsetFrom && this.offsetTo == offsetTo
      ensures this.brushSize == brushSize && this.precision == precision
      ensures enabled && !started && !isDirty && cb == [] && executed == []
      ensures beginPos == Zero2 && endPos == Zero2
    {
      this.hasMaskImg := hasMaskImg;
      this.brushTex := brushTex;
      this.offsetFrom := offsetFrom;
      this.offsetTo := offsetTo;
      this.brushSize := brushSize;
      this.precision := precision;
      enabled := true;
      started := false;
      rtWidth, rtHeight := 0, 0;
      proj := Ortho(0.0, 0.0, 0.0, 0.0, -1.0, 1.0);
      // The mesh and the array are not built before Start; these values stand for that.
      quad := UnitQuad();
      arrMatrixs := new Trs[0];
      isDirty := false;
      beginPos, endPos := Zero2, Zero2;
      cb, executed := [], [];
    }

    /** Without a mask image the component disables itself and does nothing else;
        otherwise it makes its buffers, records the clearing preamble, and has no
        segment pending. */
    method Start()
      requires precision > 0.0
      modifies this
      ensures !hasMaskImg ==>
        && !enabled
        && started == old(started) && cb == old(cb) && executed == old(executed)
        && brushTex == old(brushTex) && isDirty == old(isDirty) && arrMatrixs == old(arrMatrixs)
        && rtWidth == old(rtWidth) && rtHeight == old(rtHeight) && proj == old(proj) && quad == old(quad)
      ensures hasMaskImg ==>
        && Ready() && fresh(arrMatrixs) && enabled == old(enabled)
        && rtWidth == TextureSize && rtHeight == TextureSize
        && proj == Ortho(0.0, TextureSize as real, 0.0, TextureSize as real, -1.0, 1.0)
        && quad == UnitQuad()
        && cb == PaintContext(Some(GreenColor), proj)
        && brushTex == BrushOrWhite(old(brushTex))
        && !isDirty && executed == old(executed)
      ensures beginPos == old(beginPos) && endPos == old(endPos)
    {
      if !hasMaskImg {
        enabled := false;
        return;
      }
      arrMatrixs := new Trs[InstanceCountPerBatch];
      rtWidth, rtHeight := TextureSize, TextureSize;
      Init();
      cb := [];
      ResetCB(true);
      isDirty := false;
      started := true;
    }

    /** Builds the stamp mesh and the projection for the texture. */
    method Init()
      modifies this`quad, this`proj
      ensures quad == UnitQuad()
      ensures proj == Ortho(0.0, rtWidth as real, 0.0, rtHeight as real, -1.0, 1.0)
    {
      quad := UnitQuad();
      proj := Ortho(0.0, rtWidth as real, 0.0, rtHeight as real, -1.0, 1.0);
    }

    /** Restarts the command list: bind the texture, clear it to green when
        `clearRT`, set the projection; and replace a missing brush by white. */
    method ResetCB(clearRT: bool)
      modifies this`cb, this`brushTex
      ensures cb == PaintContext(if clearRT then Some(GreenColor) else None, proj)
      ensures brushTex == BrushOrWhite(old(brushTex))
    {
      cb := [];
      cb := cb + [SetRenderTarget];
      if clearRT {
        cb := cb + [ClearRenderTarget(true, true, GreenColor)];
      }
      cb := cb + [SetViewProjectionMatrices(proj)];
      if brushTex.None? {
        brushTex := Some(WhiteTexture);
      }
    }

    /** Marks the segment pending, so that it is rebuilt and submitted every frame.
        `len` and `dir` are the magnitude and direction of `offsetTo - offsetFrom`. */
    method LateUpdate(len: real, dir: Vec2)
      requires Ready()
      requires Measures(Sub(offsetTo, offsetFrom), len, dir)
      modifies this`isDirty, this`beginPos, this`endPos, this`cb, this`brushTex,
               this`executed, arrMatrixs
      ensures !isDirty && beginPos == offsetFrom && endPos == offsetTo
      ensures cb == PaintContext(Some(GreenColor), proj)
                    + Batches(Stamps(offsetFrom, dir, precision, brushSize, StampCount(len, precision)))
      ensures executed == old(executed) + [cb]
      ensures brushTex == BrushOrWhite(old(brushTex))
    {
      isDirty := true;
      var painted := BuildCommands(len, dir);
      if painted {
        executed := executed + [cb];
      }
    }

    /** Records the fixed segment when one is pending: both ends are reset to the
        configured offsets, the texture is cleared, and the segment's stamps are
        batched. Nothing changes when no segment is pending. */
    method BuildCommands(len: real, dir: Vec2) returns (painted: bool)
      requires Ready()
      requires isDirty ==> Measures(Sub(offsetTo, offsetFrom), len, dir)
      modifies this`isDirty, this`beginPos, this`endPos, this`cb, this`brushTex, arrMatrixs
      ensures painted == old(isDirty)
      ensures !painted ==> unchanged(this) && unchanged(arrMatrixs)
      ensures painted ==>
        && !isDirty && beginPos == offsetFrom && endPos == offsetTo
        && cb == PaintContext(Some(GreenColor), proj)
                 + Batches(Stamps(offsetFrom, dir, precision, brushSize, StampCount(len, precision)))
        && brushTex == BrushOrWhite(old(brushTex))
    {
      if !isDirty {
        return false;
      }
      beginPos := offsetFrom;
      endPos := offsetTo;
      ResetCB(true);
      cb := EmitStamps(arrMatrixs, cb, beginPos, dir, len, precision, brushSize);
      isDirty := false;
      painted := true;
    }
  }
}
