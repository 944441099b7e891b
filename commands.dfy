/** The command list a component records and later submits in one piece. Only the
    recorded values are modelled; what the GPU does with them is not. */
module Commands {
  import opened Wrappers
  import opened Geometry

  datatype Color = Color(r: real, g: real, b: real, a: real)

  const ClearColor := Color(0.0, 0.0, 0.0, 0.0)
  const GreenColor := Color(0.0, 1.0, 0.0, 1.0)

  /** `Matrix4x4.Ortho(left, right, bottom, top, zNear, zFar)`. */
  datatype Projection = Ortho(left: real, right: real, bottom: real, top: real, zNear: real, zFar: real)

  /** The built-in white texture, or a texture the designer assigned. */
  datatype Texture = WhiteTexture | AssetTexture(id: nat)

  /** One recorded command. The view matrix is always the identity, the draws always
      use the unit quad and the paint material, and a draw keeps a copy of the
      instance matrices it was given; its instance count is `|instances|`. */
  datatype Command =
    | SetRenderTarget
    | ClearRenderTarget(clearDepth: bool, clearColor: bool, color: Color)
    | SetViewProjectionMatrices(proj: Projection)
    | DrawMeshInstanced(instances: seq<Trs>)

  /** The preamble both components record before painting: bind the mask texture,
      optionally clear it to a colour, and set a pixel-exact projection. */
  function PaintContext(clear: Option<Color>, proj: Projection): (r: seq<Command>)
    ensures clear.None? ==> |r| == 2
    ensures clear.Some? ==> |r| == 3 && r[1] == ClearRenderTarget(true, true, clear.value)
    ensures r[0] == SetRenderTarget && r[|r| - 1] == SetViewProjectionMatrices(proj)
    ensures forall c :: c in r ==> !c.DrawMeshInstanced?
  {
    [SetRenderTarget]
    + (if clear.Some? then [ClearRenderTarget(true, true, clear.value)] else [])
    + [SetViewProjectionMatrices(proj)]
  }
}
