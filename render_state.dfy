/**
 * The types of the luminance graphics library that the manifests of
 * src/graphics/render/deserializations.rs and src/graphics/tess.rs are
 * translated into.  They belong to the library; only their shape matters here.
 */
module Luminance {
  import opened Wrappers
  import opened Ints

  datatype Equation = Additive | Subtract | ReverseSubtract | Min | Max

  datatype Factor =
    | One | Zero | SrcColor | SrcColorComplement | DestColor | DestColorComplement
    | SrcAlpha | SrcAlphaComplement | DstAlpha | DstAlphaComplement | SrcAlphaSaturate

  datatype Blending = Blending(equation: Equation, src: Factor, dst: Factor)

  datatype BlendingMode = Combined(blending: Blending) | Separate(rgb: Blending, alpha: Blending)

  datatype DepthComparison = Never | Always | Equal | NotEqual | Less | LessOrEqual | Greater | GreaterOrEqual

  datatype DepthWrite = On | Off

  datatype FaceCullingOrder = CW | CCW

  datatype FaceCullingMode = Front | Back | Both

  datatype FaceCulling = FaceCulling(order: FaceCullingOrder, mode: FaceCullingMode)

  datatype ScissorRegion = ScissorRegion(x: u32, y: u32, width: u32, height: u32)

  datatype RenderState = RenderState(
    blending: Option<BlendingMode>,
    depthTest: Option<DepthComparison>,
    depthWrite: DepthWrite,
    faceCulling: Option<FaceCulling>,
    scissor: Option<ScissorRegion>)

  /** `RenderState::default()`: no blending, depth test `Less`, depth write on, no culling, no scissor. */
  const DefaultRenderState := RenderState(None, Some(Less), On, None, None)

  /** `set_blending(b)`: one blending for colour and alpha, or none. */
  function SetBlending(s: RenderState, b: Option<Blending>): RenderState
  {
    s.(blending := if b.Some? then Some(Combined(b.value)) else None)
  }

  /** `set_blending_separate(rgb, alpha)`. */
  function SetBlendingSeparate(s: RenderState, rgb: Blending, alpha: Blending): RenderState
  {
    s.(blending := Some(Separate(rgb, alpha)))
  }

  /** `tess::Mode`: the primitive a tessellation is drawn with. */
  datatype Mode = Point | Line | LineStrip | Triangle | TriangleFan | TriangleStrip | Patch(size: nat)

  /**
   * A tessellation builder, as the settings applied to the one `new_tess()`
   * returns; `None` is a setting left at the library's default.
   */
  datatype TessBuilder = TessBuilder(mode: Option<Mode>, renderVertexNb: Option<nat>, renderInstanceNb: Option<nat>)

  const NewTess := TessBuilder(None, None, None)
}

/**
 * The manifest forms of the render state in
 * src/graphics/render/deserializations.rs and their `From` conversions into
 * luminance's types.  Every conversion maps a variant to its namesake and is
 * a bijection, with one exception: the factor `SrcAlphaComplement` is
 * converted to `DstAlphaComplement`, so two manifest factors give the same
 * luminance factor and none gives `SrcAlphaComplement`.
 */
module RenderStates {
  import opened Wrappers
  import opened Ints
  import L = Luminance

  datatype EquationDef = Additive | Subtract | ReverseSubtract | Min | Max

  datatype FactorDef =
    | One | Zero | SrcColor | SrcColorComplement | DestColor | DestColorComplement
    | SrcAlpha | SrcAlphaComplement | DstAlpha | DstAlphaComplement | SrcAlphaSaturate

  datatype BlendingDef = BlendingDef(equation: EquationDef, src: FactorDef, dst: FactorDef)

  datatype BlendingModeDef = Combined(blending: BlendingDef) | Separate(rgb: BlendingDef, alpha: BlendingDef)

  datatype DepthComparisonDef = Never | Always | Equal | NotEqual | Less | LessOrEqual | Greater | GreaterOrEqual

  datatype DepthWriteDef = On | Off

  datatype FaceCullingOrderDef = CW | CCW

  datatype FaceCullingModeDef = Front | Back | Both

  datatype FaceCullingDef = FaceCullingDef(order: FaceCullingOrderDef, mode: FaceCullingModeDef)

  datatype ScissorRegionDef = ScissorRegionDef(x: u32, y: u32, width: u32, height: u32)

  datatype RenderStateDef = RenderStateDef(
    blending: Option<BlendingModeDef>,
    depthTest: Option<DepthComparisonDef>,
    depthWrite: DepthWriteDef,
    faceCulling: Option<FaceCullingDef>,
    scissor: Option<ScissorRegionDef>)

  function EquationFrom(e: EquationDef): (r: L.Equation)
    ensures EquationDefOf(r) == e
  {
    match e
    case Additive => L.Additive
    case Subtract => L.Subtract
    case ReverseSubtract => L.ReverseSubtract
    case Min => L.Min
    case Max => L.Max
  }

  /** The manifest form of a luminance equation: the inverse of `EquationFrom`. */
  function EquationDefOf(e: L.Equation): EquationDef
  {
    match e
    case Additive => Additive
    case Subtract => Subtract
    case ReverseSubtract => ReverseSubtract
    case Min => Min
    case Max => Max
  }

  lemma EquationBijective(d: EquationDef, e: L.Equation)
    ensures EquationDefOf(EquationFrom(d)) == d
    ensures EquationFrom(EquationDefOf(e)) == e
  {
  }

  /** `From<FactorDef> for Factor`, as written: `SrcAlphaComplement` becomes `DstAlphaComplement`. */
  function FactorFrom(f: FactorDef): (r: L.Factor)
    ensures f != SrcAlphaComplement ==> FactorDefOf(r) == f
    ensures f == SrcAlphaComplement ==> r == L.DstAlphaComplement
  {
    match f
    case One => L.One
    case Zero => L.Zero
    case SrcColor => L.SrcColor
    case SrcColorComplement => L.SrcColorComplement
    case DestColor => L.DestColor
    case DestColorComplement => L.DestColorComplement
    case SrcAlpha => L.SrcAlpha
    case SrcAlphaComplement => L.DstAlphaComplement
    case DstAlpha => L.DstAlpha
    case DstAlphaComplement => L.DstAlphaComplement
    case SrcAlphaSaturate => L.SrcAlphaSaturate
  }

  /** The manifest factor of the same name as a luminance factor. */
  function FactorDefOf(f: L.Factor): FactorDef
  {
    match f
    case One => One
    case Zero => Zero
    case SrcColor => SrcColor
    case SrcColorComplement => SrcColorComplement
    case DestColor => DestColor
    case DestColorComplement => DestColorComplement
    case SrcAlpha => SrcAlpha
    case SrcAlphaComplement => SrcAlphaComplement
    case DstAlpha => DstAlpha
    case DstAlphaComplement => DstAlphaComplement
    case SrcAlphaSaturate => SrcAlphaSaturate
  }

  /** Every factor but `SrcAlphaComplement` keeps its name through the conversion. */
  lemma FactorKeepsOtherNames(d: FactorDef)
    requires d != SrcAlphaComplement
    ensures FactorDefOf(FactorFrom(d)) == d
  {
  }

  /**
   * The factor conversion is neither injective nor surjective:
   * `SrcAlphaComplement` and `DstAlphaComplement` both become
   * `DstAlphaComplement`, and no manifest factor becomes `SrcAlphaComplement`.
   */
  lemma FactorNotInjective(d: FactorDef)
    ensures FactorFrom(SrcAlphaComplement) == FactorFrom(DstAlphaComplement) == L.DstAlphaComplement
    ensures FactorFrom(d) != L.SrcAlphaComplement
    ensures FactorFrom(d) == L.DstAlphaComplement <==> d == SrcAlphaComplement || d == DstAlphaComplement
  {
  }

  function BlendingFrom(b: BlendingDef): (r: L.Blending)
    ensures r.equation == EquationFrom(b.equation) && r.src == FactorFrom(b.src) && r.dst == FactorFrom(b.dst)
  {
    L.Blending(EquationFrom(b.equation), FactorFrom(b.src), FactorFrom(b.dst))
  }

  /** `From<BlendingDef> for Option<Blending>`: always a blending. */
  function OptionBlendingFrom(b: BlendingDef): (r: Option<L.Blending>)
    ensures r == Some(BlendingFrom(b))
  {
    Some(L.Blending(EquationFrom(b.equation), FactorFrom(b.src), FactorFrom(b.dst)))
  }

  function DepthComparisonFrom(d: DepthComparisonDef): (r: L.DepthComparison)
    ensures DepthComparisonDefOf(r) == d
  {
    match d
    case Never => L.Never
    case Always => L.Always
    case Equal => L.Equal
    case NotEqual => L.NotEqual
    case Less => L.Less
    case LessOrEqual => L.LessOrEqual
    case Greater => L.Greater
    case GreaterOrEqual => L.GreaterOrEqual
  }

  function DepthComparisonDefOf(d: L.DepthComparison): DepthComparisonDef
  {
    match d
    case Never => Never
    case Always => Always
    case Equal => Equal
    case NotEqual => NotEqual
    case Less => Less
    case LessOrEqual => LessOrEqual
    case Greater => Greater
    case GreaterOrEqual => GreaterOrEqual
  }

  lemma DepthComparisonBijective(d: DepthComparisonDef, c: L.DepthComparison)
    ensures DepthComparisonDefOf(DepthComparisonFrom(d)) == d
    ensures DepthComparisonFrom(DepthComparisonDefOf(c)) == c
  {
  }

  function DepthWriteFrom(d: DepthWriteDef): (r: L.DepthWrite)
    ensures DepthWriteDefOf(r) == d
  {
    match d
    case On => L.On
    case Off => L.Off
  }

  function DepthWriteDefOf(d: L.DepthWrite): DepthWriteDef
  {
    match d
    case On => On
    case Off => Off
  }

  lemma DepthWriteBijective(d: DepthWriteDef, w: L.DepthWrite)
    ensures DepthWriteDefOf(DepthWriteFrom(d)) == d
    ensures DepthWriteFrom(DepthWriteDefOf(w)) == w
  {
  }

  function FaceCullingOrderFrom(o: FaceCullingOrderDef): (r: L.FaceCullingOrder)
    ensures FaceCullingOrderDefOf(r) == o
  {
    match o
    case CW => L.CW
    case CCW => L.CCW
  }

  function FaceCullingOrderDefOf(o: L.FaceCullingOrder): FaceCullingOrderDef
  {
    match o
    case CW => CW
    case CCW => CCW
  }

  lemma FaceCullingOrderBijective(d: FaceCullingOrderDef, o: L.FaceCullingOrder)
    ensures FaceCullingOrderDefOf(FaceCullingOrderFrom(d)) == d
    ensures FaceCullingOrderFrom(FaceCullingOrderDefOf(o)) == o
  {
  }

  function FaceCullingModeFrom(m: FaceCullingModeDef): (r: L.FaceCullingMode)
    ensures FaceCullingModeDefOf(r) == m
  {
    match m
    case Front => L.Front
    case Back => L.Back
    case Both => L.Both
  }

  function FaceCullingModeDefOf(m: L.FaceCullingMode): FaceCullingModeDef
  {
    match m
    case Front => Front
    case Back => Back
    case Both => Both
  }

  lemma FaceCullingModeBijective(d: FaceCullingModeDef, m: L.FaceCullingMode)
    ensures FaceCullingModeDefOf(FaceCullingModeFrom(d)) == d
    ensures FaceCullingModeFrom(FaceCullingModeDefOf(m)) == m
  {
  }

  function FaceCullingFrom(fc: FaceCullingDef): (r: L.FaceCulling)
    ensures r.order == FaceCullingOrderFrom(fc.order) && r.mode == FaceCullingModeFrom(fc.mode)
  {
    L.FaceCulling(FaceCullingOrderFrom(fc.order), FaceCullingModeFrom(fc.mode))
  }

  function ScissorRegionFrom(sc: ScissorRegionDef): (r: L.ScissorRegion)
    ensures r.x == sc.x && r.y == sc.y && r.width == sc.width && r.height == sc.height
  {
    L.ScissorRegion(sc.x, sc.y, sc.width, sc.height)
  }

  /** `From<RenderStateDef> for RenderState`: luminance's default state with the manifest's settings applied. */
  function RenderStateFrom(rs: RenderStateDef): (r: L.RenderState)
    ensures rs.scissor.None? <==> r.scissor.None?
    ensures rs.scissor.Some? ==> r.scissor.value == ScissorRegionFrom(rs.scissor.value)
    ensures rs.depthTest.None? <==> r.depthTest.None?
    ensures rs.depthTest.Some? ==> r.depthTest.value == DepthComparisonFrom(rs.depthTest.value)
    ensures r.depthWrite == DepthWriteFrom(rs.depthWrite)
    ensures rs.faceCulling.None? <==> r.faceCulling.None?
    ensures rs.faceCulling.Some? ==> r.faceCulling.value == FaceCullingFrom(rs.faceCulling.value)
    ensures rs.blending.None? ==> r.blending == L.DefaultRenderState.blending
    ensures rs.blending.Some? && rs.blending.value.Combined? ==>
              r.blending == Some(L.Combined(BlendingFrom(rs.blending.value.blending)))
    ensures rs.blending.Some? && rs.blending.value.Separate? ==>
              r.blending == Some(L.Separate(BlendingFrom(rs.blending.value.rgb), BlendingFrom(rs.blending.value.alpha)))
  {
    var base := L.DefaultRenderState
      .(scissor := if rs.scissor.Some? then Some(ScissorRegionFrom(rs.scissor.value)) else None)
      .(depthTest := if rs.depthTest.Some? then Some(DepthComparisonFrom(rs.depthTest.value)) else None)
      .(depthWrite := DepthWriteFrom(rs.depthWrite))
      .(faceCulling := if rs.faceCulling.Some? then Some(FaceCullingFrom(rs.faceCulling.value)) else None);
    match rs.blending
    case Some(Combined(b)) => L.SetBlending(base, OptionBlendingFrom(b))
    case Some(Separate(rgb, alpha)) => L.SetBlendingSeparate(base, BlendingFrom(rgb), BlendingFrom(alpha))
    case None => base
  }

  function BlendingDefOf(b: L.Blending): BlendingDef
  {
    BlendingDef(EquationDefOf(b.equation), FactorDefOf(b.src), FactorDefOf(b.dst))
  }

  /** The manifest that names the settings of a luminance render state. */
  function RenderStateDefOf(s: L.RenderState): RenderStateDef
  {
    RenderStateDef(
      if s.blending.None? then None
      else if s.blending.value.Combined? then Some(Combined(BlendingDefOf(s.blending.value.blending)))
      else Some(Separate(BlendingDefOf(s.blending.value.rgb), BlendingDefOf(s.blending.value.alpha))),
      if s.depthTest.Some? then Some(DepthComparisonDefOf(s.depthTest.value)) else None,
      DepthWriteDefOf(s.depthWrite),
      if s.faceCulling.Some? then Some(FaceCullingDef(FaceCullingOrderDefOf(s.faceCulling.value.order), FaceCullingModeDefOf(s.faceCulling.value.mode))) else None,
      if s.scissor.Some? then Some(ScissorRegionDef(s.scissor.value.x, s.scissor.value.y, s.scissor.value.width, s.scissor.value.height)) else None)
  }

  ghost predicate AvoidsSrcAlphaComplement(b: BlendingDef)
  {
    b.src != SrcAlphaComplement && b.dst != SrcAlphaComplement
  }

  /** No blending factor of the manifest is the one the conversion renames. */
  ghost predicate FactorsConvertible(rs: RenderStateDef)
  {
    rs.blending.Some? ==>
      match rs.blending.value
      case Combined(b) => AvoidsSrcAlphaComplement(b)
      case Separate(rgb, alpha) => AvoidsSrcAlphaComplement(rgb) && AvoidsSrcAlphaComplement(alpha)
  }

  lemma BlendingRoundTrip(b: BlendingDef)
    requires AvoidsSrcAlphaComplement(b)
    ensures BlendingDefOf(BlendingFrom(b)) == b
  {
    EquationBijective(b.equation, L.Additive);
    FactorKeepsOtherNames(b.src);
    FactorKeepsOtherNames(b.dst);
  }

  /**
   * The conversion loses nothing but the renamed factor: a manifest without
   * `SrcAlphaComplement` is recovered from the render state it produces.
   */
  lemma RenderStateRoundTrip(rs: RenderStateDef)
    requires FactorsConvertible(rs)
    ensures RenderStateDefOf(RenderStateFrom(rs)) == rs
  {
    var r := RenderStateFrom(rs);
    if rs.blending.Some? {
      match rs.blending.value
      case Combined(b) => BlendingRoundTrip(b);
      case Separate(rgb, alpha) => BlendingRoundTrip(rgb); BlendingRoundTrip(alpha);
    }
    if rs.depthTest.Some? {
      DepthComparisonBijective(rs.depthTest.value, L.Never);
    }
    DepthWriteBijective(rs.depthWrite, L.On);
    if rs.faceCulling.Some? {
      FaceCullingOrderBijective(rs.faceCulling.value.order, L.CW);
      FaceCullingModeBijective(rs.faceCulling.value.mode, L.Front);
    }
  }

  /** Two manifests differing only in that factor give the same render state. */
  lemma RenderStateCollision(e: EquationDef, f: FactorDef, base: RenderStateDef)
    ensures var a := base.(blending := Some(Combined(BlendingDef(e, SrcAlphaComplement, f))));
            var b := base.(blending := Some(Combined(BlendingDef(e, DstAlphaComplement, f))));
            a != b && RenderStateFrom(a) == RenderStateFrom(b)
  {
  }
}
