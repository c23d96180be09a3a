/**
 * The compositor filter graph built by the background job: overlay geometry from the
 * base video's dimensions and the settings, then an ordered chain of stages that pass
 * named pads ("labels") from one to the next and end in an overlay onto the base video.
 */
module FilterGraph {
  import opened Wrappers
  import opened Settings

  /** The operation of one stage, with the parameters the job writes into it. */
  datatype Op =
    | Scale(width: int, height: int)                  // scale=W:H
    | ColorBalance(rm: real, gm: real, bm: real)      // colorbalance=rm=..:gm=..:bm=..
    | Transparency(alpha: real)                       // format=rgba,colorchannelmixer=aa=A
    | Split                                           // split
    | BoxBlur(radius: int, power: int)                // boxblur=R:P
    | Overlay                                         // overlay
    | DrawGrid(spacing: int, thickness: int, color: string, opacity: real)  // drawgrid=w=iw:h=S:t=T:c=C@O
    | Flicker(alpha: real)                            // colorchannelmixer=aa=A
    | Composite(x: int, y: int)                       // overlay=X:Y:enable='gte(t,0)'

  /** One `[in]...op...[out]...` element of the filter_complex list. */
  datatype Stage = Stage(inputs: seq<Label>, op: Op, outputs: seq<Label>)

  /** Pixel size and top-left position of the overlay on the base frame. */
  datatype Geometry = Geometry(width: int, height: int, x: int, y: int)

  /** The kinds of stage, one per place in the fixed pipeline order. */
  datatype StageKind =
    | ScaleKind | TintKind | TransparencyKind | SplitKind | BlurKind
    | GlowOverlayKind | ScanlinesKind | FlickerKind | CompositeKind

  /** The pads that stages read and write; Name gives the text between the brackets. */
  datatype Label =
    | Base0 | Overlay1 | Scaled | Tinted | Transparent | GlowInput | Main | Glow | Glowed
    | Scanlined | Flickered | Output
  {
    function Name(): string {
      match this
      case Base0 => "0:v"
      case Overlay1 => "1:v"
      case Scaled => "scaled"
      case Tinted => "tinted"
      case Transparent => "transparent"
      case GlowInput => "glow_input"
      case Main => "main"
      case Glow => "glow"
      case Glowed => "glowed"
      case Scanlined => "scanlined"
      case Flickered => "flickered"
      case Output => "output"
    }
  }

  /** The fixed order in which stage kinds may appear. */
  const PipelineOrder := [ScaleKind, TintKind, TransparencyKind, SplitKind, BlurKind,
                          GlowOverlayKind, ScanlinesKind, FlickerKind, CompositeKind]

  function Max(a: int, b: int): int { if a >= b then a else b }

  function KindOf(op: Op): StageKind {
    match op
    case Scale(_, _) => ScaleKind
    case ColorBalance(_, _, _) => TintKind
    case Transparency(_) => TransparencyKind
    case Split => SplitKind
    case BoxBlur(_, _) => BlurKind
    case Overlay => GlowOverlayKind
    case DrawGrid(_, _, _, _) => ScanlinesKind
    case Flicker(_) => FlickerKind
    case Composite(_, _) => CompositeKind
  }

  function Kinds(g: seq<Stage>): (ks: seq<StageKind>)
    ensures |ks| == |g|
  {
    if g == [] then [] else [KindOf(g[0].op)] + Kinds(g[1..])
  }

  /** Whether the settings switch a stage kind on. */
  predicate Enabled(s: HologramSettings, k: StageKind) {
    match k
    case TintKind => s.blueTint
    case SplitKind => s.glowIntensity > 0.0
    case BlurKind => s.glowIntensity > 0.0
    case GlowOverlayKind => s.glowIntensity > 0.0
    case ScanlinesKind => s.scanlines
    case FlickerKind => s.flickerIntensity > 0.0
    case _ => true
  }

  /** The kinds of `order` that the settings switch on, in the order given. */
  function Selected(order: seq<StageKind>, s: HologramSettings): seq<StageKind> {
    if order == [] then []
    else (if Enabled(s, order[0]) then [order[0]] else []) + Selected(order[1..], s)
  }

  // ----- numbers computed by the job -----

  /** Overlay size is the base size scaled by hologram_size; its position is the free
      space times the position fractions; every product goes through int(). */
  function OverlayGeometry(baseWidth: int, baseHeight: int, s: HologramSettings): Geometry {
    var w := Trunc(baseWidth as real * s.hologramSize);
    var h := Trunc(baseHeight as real * s.hologramSize);
    Geometry(w, h,
             Trunc((baseWidth - w) as real * s.hologramPositionX),
             Trunc((baseHeight - h) as real * s.hologramPositionY))
  }

  function GlowRadius(s: HologramSettings): int { Max(2, Trunc(s.glowIntensity * 10.0)) }

  /** Python's `h // 100`: for a positive divisor Dafny's `/` is floor division too. */
  function ScanlineSpacing(height: int): int { Max(2, height / 100) }

  function FlickerAlpha(s: HologramSettings): real { 1.0 - s.flickerIntensity * 0.3 }

  // ----- the graph, segment by segment -----

  function TintLabel(s: HologramSettings): Label { if s.blueTint then Tinted else Scaled }
  function GlowLabel(s: HologramSettings): Label { if s.glowIntensity > 0.0 then Glowed else Transparent }
  function ScanlinesLabel(s: HologramSettings): Label { if s.scanlines then Scanlined else GlowLabel(s) }
  function FlickerLabel(s: HologramSettings): Label { if s.flickerIntensity > 0.0 then Flickered else ScanlinesLabel(s) }

  function ScaleStages(geo: Geometry): seq<Stage> {
    [Stage([Overlay1], Scale(geo.width, geo.height), [Scaled])]
  }

  function TintStages(s: HologramSettings): seq<Stage> {
    if s.blueTint then [Stage([Scaled], ColorBalance(-0.3, -0.2, 0.5), [Tinted])] else []
  }

  function TransparencyStages(s: HologramSettings): seq<Stage> {
    [Stage([TintLabel(s)], Transparency(s.transparency), [Transparent])]
  }

  function GlowStages(s: HologramSettings): seq<Stage> {
    if s.glowIntensity > 0.0 then
      [Stage([Transparent], Split, [GlowInput, Main]),
       Stage([GlowInput], BoxBlur(GlowRadius(s), 1), [Glow]),
       Stage([Glow, Main], Overlay, [Glowed])]
    else []
  }

  function ScanlineStages(geo: Geometry, s: HologramSettings): seq<Stage> {
    if s.scanlines then
      [Stage([GlowLabel(s)], DrawGrid(ScanlineSpacing(geo.height), 1, "cyan", 0.3), [Scanlined])]
    else []
  }

  function FlickerStages(s: HologramSettings): seq<Stage> {
    if s.flickerIntensity > 0.0 then [Stage([ScanlinesLabel(s)], Flicker(FlickerAlpha(s)), [Flickered])] else []
  }

  function CompositeStages(geo: Geometry, s: HologramSettings): seq<Stage> {
    [Stage([Base0, FlickerLabel(s)], Composite(geo.x, geo.y), [Output])]
  }

  /** The effect chain: every stage before the final overlay onto the base video. */
  function Effects(geo: Geometry, s: HologramSettings): seq<Stage> {
    ScaleStages(geo) + TintStages(s) + TransparencyStages(s) + GlowStages(s)
    + ScanlineStages(geo, s) + FlickerStages(s)
  }

  /** The whole filter_complex list for an overlay of geometry `geo`. */
  function Graph(geo: Geometry, s: HologramSettings): seq<Stage> {
    Effects(geo, s) + CompositeStages(geo, s)
  }

  /**
   * The builder as the job runs it: append to a list and move the current label along.
   */
  method BuildFilterGraph(geo: Geometry, s: HologramSettings) returns (filterComplex: seq<Stage>)
    ensures filterComplex == Graph(geo, s)
    ensures WellFormed(filterComplex)
    ensures Kinds(filterComplex) == Selected(PipelineOrder, s)
  {
    filterComplex := [];
    filterComplex := filterComplex + [Stage([Overlay1], Scale(geo.width, geo.height), [Scaled])];
    var lastFilter: Label;
    if s.blueTint {
      filterComplex := filterComplex + [Stage([Scaled], ColorBalance(-0.3, -0.2, 0.5), [Tinted])];
      lastFilter := Tinted;
    } else {
      lastFilter := Scaled;
    }
    assert filterComplex == ScaleStages(geo) + TintStages(s) && lastFilter == TintLabel(s);
    filterComplex := filterComplex + [Stage([lastFilter], Transparency(s.transparency), [Transparent])];
    lastFilter := Transparent;
    ghost var done := filterComplex;
    if s.glowIntensity > 0.0 {
      var glowRadius := Max(2, Trunc(s.glowIntensity * 10.0));
      filterComplex := filterComplex + [Stage([lastFilter], Split, [GlowInput, Main])];
      filterComplex := filterComplex + [Stage([GlowInput], BoxBlur(glowRadius, 1), [Glow])];
      filterComplex := filterComplex + [Stage([Glow, Main], Overlay, [Glowed])];
      lastFilter := Glowed;
    }
    assert filterComplex == done + GlowStages(s) && lastFilter == GlowLabel(s);
    done := filterComplex;
    if s.scanlines {
      var scanlineHeight := Max(2, geo.height / 100);
      filterComplex := filterComplex + [Stage([lastFilter], DrawGrid(scanlineHeight, 1, "cyan", 0.3), [Scanlined])];
      lastFilter := Scanlined;
    }
    assert filterComplex == done + ScanlineStages(geo, s) && lastFilter == ScanlinesLabel(s);
    done := filterComplex;
    if s.flickerIntensity > 0.0 {
      var alphaValue := 1.0 - s.flickerIntensity * 0.3;
      filterComplex := filterComplex + [Stage([lastFilter], Flicker(alphaValue), [Flickered])];
      lastFilter := Flickered;
    }
    assert filterComplex == done + FlickerStages(s) && lastFilter == FlickerLabel(s);
    assert filterComplex == Effects(geo, s);
    filterComplex := filterComplex + [Stage([Base0, lastFilter], Composite(geo.x, geo.y), [Output])];
    GraphIsWellFormed(geo, s);
    StageOrderIsFixed(geo, s);
  }

  // ----- pad bookkeeping: what it means for the chain to have no dangling label -----

  /** Runs the stages in order over the multiset of pads not yet consumed: each stage
      must find its inputs open, consumes them and opens its outputs; None if a stage
      reads a pad that is not open. */
  function Flow(g: seq<Stage>, open: multiset<Label>): Option<multiset<Label>> {
    if g == [] then Some(open)
    else if multiset(g[0].inputs) <= open
    then Flow(g[1..], open - multiset(g[0].inputs) + multiset(g[0].outputs))
    else None
  }

  /** Every stage reads only pads that are open, both input videos are consumed and the
      only pad left over at the end is [output], the one the command maps. */
  predicate WellFormed(g: seq<Stage>) {
    Flow(g, multiset{Base0, Overlay1}) == Some(multiset{Output})
  }

  function Then(r: Option<multiset<Label>>, g: seq<Stage>): Option<multiset<Label>> {
    match r
    case None => None
    case Some(m) => Flow(g, m)
  }

  /** Running two lists one after the other is running the first, then the second. */
  lemma {:induction false} FlowAppend(a: seq<Stage>, b: seq<Stage>, open: multiset<Label>)
    ensures Flow(a + b, open) == Then(Flow(a, open), b)
  {
    if a == [] {
      assert a + b == b;
    } else {
      assert (a + b)[0] == a[0];
      assert (a + b)[1..] == a[1..] + b;
      if multiset(a[0].inputs) <= open {
        FlowAppend(a[1..], b, open - multiset(a[0].inputs) + multiset(a[0].outputs));
      }
    }
  }

  /** A segment turns the single open overlay pad `from` into `to`, leaving the base pad open. */
  predicate Moves(seg: seq<Stage>, from: Label, to: Label) {
    Flow(seg, multiset{Base0, from}) == Some(multiset{Base0, to})
  }

  lemma MovesCompose(a: seq<Stage>, b: seq<Stage>, x: Label, y: Label, z: Label)
    requires Moves(a, x, y) && Moves(b, y, z)
    ensures Moves(a + b, x, z)
  {
    FlowAppend(a, b, multiset{Base0, x});
  }

  lemma SingleStageMoves(st: Stage, from: Label, to: Label)
    requires st.inputs == [from] && st.outputs == [to] && from != Base0
    ensures Moves([st], from, to)
  {
    var open := multiset{Base0, from};
    assert multiset(st.inputs) == multiset{from};
    assert open - multiset{from} + multiset{to} == multiset{Base0, to};
    assert [st][1..] == [];
  }

  lemma OptionalMoves(seg: seq<Stage>, on: bool, from: Label, to: Label)
    requires on ==> |seg| == 1 && seg[0].inputs == [from] && seg[0].outputs == [to] && from != Base0
    requires !on ==> seg == [] && to == from
    ensures Moves(seg, from, to)
  {
    if on {
      assert seg == [seg[0]];
      SingleStageMoves(seg[0], from, to);
    }
  }

  lemma GlowMoves(s: HologramSettings)
    ensures Moves(GlowStages(s), Transparent, GlowLabel(s))
  {
    if s.glowIntensity > 0.0 {
      var g := GlowStages(s);
      var m0 := multiset{Base0, Transparent};
      var m1 := multiset{Base0, GlowInput, Main};
      var m2 := multiset{Base0, Glow, Main};
      var m3 := multiset{Base0, Glowed};
      assert multiset(g[0].inputs) == multiset{Transparent};
      assert m0 - multiset{Transparent} + multiset{GlowInput, Main} == m1;
      assert Flow(g, m0) == Flow(g[1..], m1);
      assert multiset(g[1].inputs) == multiset{GlowInput};
      assert m1 - multiset{GlowInput} + multiset{Glow} == m2;
      assert Flow(g[1..], m1) == Flow(g[2..], m2);
      assert multiset(g[2].inputs) == multiset{Glow, Main};
      assert m2 - multiset{Glow, Main} + multiset{Glowed} == m3;
      assert Flow(g[2..], m2) == Flow(g[3..], m3);
      assert g[3..] == [];
    }
  }

  /** The effect chain takes the overlay input to the label the final overlay reads. */
  lemma EffectsMove(geo: Geometry, s: HologramSettings)
    ensures Moves(Effects(geo, s), Overlay1, FlickerLabel(s))
  {
    var scale := ScaleStages(geo);
    var tint := TintStages(s);
    var transparency := TransparencyStages(s);
    SingleStageMoves(scale[0], Overlay1, Scaled);
    assert scale == [scale[0]];
    OptionalMoves(tint, s.blueTint, Scaled, TintLabel(s));
    MovesCompose(scale, tint, Overlay1, Scaled, TintLabel(s));
    SingleStageMoves(transparency[0], TintLabel(s), Transparent);
    assert transparency == [transparency[0]];
    MovesCompose(scale + tint, transparency, Overlay1, TintLabel(s), Transparent);
    GlowMoves(s);
    MovesCompose(scale + tint + transparency, GlowStages(s), Overlay1, Transparent, GlowLabel(s));
    OptionalMoves(ScanlineStages(geo, s), s.scanlines, GlowLabel(s), ScanlinesLabel(s));
    MovesCompose(scale + tint + transparency + GlowStages(s), ScanlineStages(geo, s),
                 Overlay1, GlowLabel(s), ScanlinesLabel(s));
    OptionalMoves(FlickerStages(s), s.flickerIntensity > 0.0, ScanlinesLabel(s), FlickerLabel(s));
    MovesCompose(scale + tint + transparency + GlowStages(s) + ScanlineStages(geo, s), FlickerStages(s),
                 Overlay1, ScanlinesLabel(s), FlickerLabel(s));
  }

  /** No stage reads a pad that is not open and nothing but [output] is left dangling. */
  lemma GraphIsWellFormed(geo: Geometry, s: HologramSettings)
    ensures WellFormed(Graph(geo, s))
  {
    var composite := CompositeStages(geo, s);
    var open := multiset{Base0, FlickerLabel(s)};
    EffectsMove(geo, s);
    FlowAppend(Effects(geo, s), composite, multiset{Base0, Overlay1});
    assert multiset(composite[0].inputs) == open;
    assert open - open + multiset{Output} == multiset{Output};
    assert Flow(composite, open) == Flow(composite[1..], multiset{Output});
    assert composite[1..] == [];
  }

  // ----- order and count -----

  lemma {:induction false} KindsAppend(a: seq<Stage>, b: seq<Stage>)
    ensures Kinds(a + b) == Kinds(a) + Kinds(b)
  {
    if a == [] {
      assert a + b == b;
    } else {
      assert (a + b)[0] == a[0];
      assert (a + b)[1..] == a[1..] + b;
      KindsAppend(a[1..], b);
    }
  }

  lemma {:induction false} SelectedAppend(a: seq<StageKind>, b: seq<StageKind>, s: HologramSettings)
    ensures Selected(a + b, s) == Selected(a, s) + Selected(b, s)
  {
    if a == [] {
      assert a + b == b;
    } else {
      assert (a + b)[0] == a[0];
      assert (a + b)[1..] == a[1..] + b;
      SelectedAppend(a[1..], b, s);
    }
  }

  lemma SelectedSingle(k: StageKind, s: HologramSettings)
    ensures Selected([k], s) == if Enabled(s, k) then [k] else []
  {
    assert [k][1..] == [];
  }

  lemma KindsSingle(st: Stage)
    ensures Kinds([st]) == [KindOf(st.op)]
  {
    assert [st][1..] == [];
  }

  lemma GlowKinds(s: HologramSettings)
    ensures Kinds(GlowStages(s)) == Selected([SplitKind, BlurKind, GlowOverlayKind], s)
  {
    var g := GlowStages(s);
    var ks := [SplitKind, BlurKind, GlowOverlayKind];
    assert ks[1..] == [BlurKind, GlowOverlayKind] && ks[1..][1..] == [GlowOverlayKind];
    SelectedSingle(GlowOverlayKind, s);
    assert Selected(ks[1..], s) == Selected([BlurKind] + [GlowOverlayKind], s);
    if s.glowIntensity > 0.0 {
      assert g[1..] == [g[1], g[2]] && g[1..][1..] == [g[2]];
      KindsSingle(g[2]);
      assert Kinds(g[1..]) == [BlurKind, GlowOverlayKind];
    }
  }

  /** The pipeline order, cut where the graph's segments are cut. */
  lemma SelectedBySegment(s: HologramSettings)
    ensures Selected(PipelineOrder, s)
            == Selected([ScaleKind], s) + Selected([TintKind], s) + Selected([TransparencyKind], s)
               + Selected([SplitKind, BlurKind, GlowOverlayKind], s) + Selected([ScanlinesKind], s)
               + Selected([FlickerKind], s) + Selected([CompositeKind], s)
  {
    var p1, p2, p3, p4 := [ScaleKind], [TintKind], [TransparencyKind], [SplitKind, BlurKind, GlowOverlayKind];
    var p5, p6, p7 := [ScanlinesKind], [FlickerKind], [CompositeKind];
    assert PipelineOrder == p1 + p2 + p3 + p4 + p5 + p6 + p7;
    SelectedAppend(p1, p2, s);
    SelectedAppend(p1 + p2, p3, s);
    SelectedAppend(p1 + p2 + p3, p4, s);
    SelectedAppend(p1 + p2 + p3 + p4, p5, s);
    SelectedAppend(p1 + p2 + p3 + p4 + p5, p6, s);
    SelectedAppend(p1 + p2 + p3 + p4 + p5 + p6, p7, s);
  }

  lemma KindsBySegment(geo: Geometry, s: HologramSettings)
    ensures Kinds(Graph(geo, s))
            == Kinds(ScaleStages(geo)) + Kinds(TintStages(s)) + Kinds(TransparencyStages(s))
               + Kinds(GlowStages(s)) + Kinds(ScanlineStages(geo, s)) + Kinds(FlickerStages(s))
               + Kinds(CompositeStages(geo, s))
  {
    var scale := ScaleStages(geo);
    var tint := TintStages(s);
    var transparency := TransparencyStages(s);
    var glow := GlowStages(s);
    var scan := ScanlineStages(geo, s);
    var flicker := FlickerStages(s);
    KindsAppend(scale, tint);
    KindsAppend(scale + tint, transparency);
    KindsAppend(scale + tint + transparency, glow);
    KindsAppend(scale + tint + transparency + glow, scan);
    KindsAppend(scale + tint + transparency + glow + scan, flicker);
    KindsAppend(Effects(geo, s), CompositeStages(geo, s));
  }

  lemma OptionalKinds(seg: seq<Stage>, k: StageKind, s: HologramSettings)
    requires Enabled(s, k) ==> |seg| == 1 && KindOf(seg[0].op) == k
    requires !Enabled(s, k) ==> seg == []
    ensures Kinds(seg) == Selected([k], s)
  {
    SelectedSingle(k, s);
    if Enabled(s, k) {
      assert seg == [seg[0]];
      KindsSingle(seg[0]);
    }
  }

  /** Each segment holds the kinds its slice of the pipeline order enables: the
      segments up to the transparency stage. */
  lemma EarlySegmentKinds(geo: Geometry, s: HologramSettings)
    ensures Kinds(ScaleStages(geo)) == Selected([ScaleKind], s)
    ensures Kinds(TintStages(s)) == Selected([TintKind], s)
    ensures Kinds(TransparencyStages(s)) == Selected([TransparencyKind], s)
  {
    OptionalKinds(ScaleStages(geo), ScaleKind, s);
    OptionalKinds(TintStages(s), TintKind, s);
    OptionalKinds(TransparencyStages(s), TransparencyKind, s);
  }

  /** The same for the segments from the scanlines on. */
  lemma LateSegmentKinds(geo: Geometry, s: HologramSettings)
    ensures Kinds(ScanlineStages(geo, s)) == Selected([ScanlinesKind], s)
    ensures Kinds(FlickerStages(s)) == Selected([FlickerKind], s)
    ensures Kinds(CompositeStages(geo, s)) == Selected([CompositeKind], s)
  {
    OptionalKinds(ScanlineStages(geo, s), ScanlinesKind, s);
    OptionalKinds(FlickerStages(s), FlickerKind, s);
    OptionalKinds(CompositeStages(geo, s), CompositeKind, s);
  }

  /** Stage kinds come out in the pipeline order, each exactly when the settings enable it. */
  lemma StageOrderIsFixed(geo: Geometry, s: HologramSettings)
    ensures Kinds(Graph(geo, s)) == Selected(PipelineOrder, s)
  {
    KindsBySegment(geo, s);
    SelectedBySegment(s);
    EarlySegmentKinds(geo, s);
    GlowKinds(s);
    LateSegmentKinds(geo, s);
  }

  function Count(b: bool): nat { if b then 1 else 0 }

  /** 3 + tint + 3·glow + scanlines + flicker stages. */
  lemma StageCount(geo: Geometry, s: HologramSettings)
    ensures |Graph(geo, s)| == 3 + Count(s.blueTint) + 3 * Count(s.glowIntensity > 0.0)
                               + Count(s.scanlines) + Count(s.flickerIntensity > 0.0)
  {
  }

  /** With every effect off the graph is scale, transparency and the composite. */
  lemma MinimalGraph(geo: Geometry, s: HologramSettings)
    requires !s.blueTint && s.glowIntensity <= 0.0 && !s.scanlines && s.flickerIntensity <= 0.0
    ensures Graph(geo, s) == [Stage([Overlay1], Scale(geo.width, geo.height), [Scaled]),
                              Stage([Scaled], Transparency(s.transparency), [Transparent]),
                              Stage([Base0, Transparent], Composite(geo.x, geo.y), [Output])]
  {
  }

  // ----- how the labels chain -----

  /** Stage k takes as its first input the first output of stage k - 1. */
  predicate ReadsPrevious(g: seq<Stage>, k: int)
    requires 1 <= k < |g|
  {
    |g[k].inputs| >= 1 && |g[k - 1].outputs| >= 1 && g[k].inputs[0] == g[k - 1].outputs[0]
  }

  /** Every stage after the first reads first what the stage before it wrote first. */
  predicate Linked(g: seq<Stage>) {
    forall k :: 1 <= k < |g| ==> ReadsPrevious(g, k)
  }

  /** A segment is linked, reads `from` first and leaves `to` as its first output;
      an empty segment passes `from` on unchanged. */
  predicate Passes(seg: seq<Stage>, from: Label, to: Label) {
    if seg == [] then from == to
    else && Linked(seg)
         && |seg[0].inputs| >= 1 && seg[0].inputs[0] == from
         && |seg[|seg| - 1].outputs| >= 1 && seg[|seg| - 1].outputs[0] == to
  }

  lemma PassesCompose(a: seq<Stage>, b: seq<Stage>, x: Label, y: Label, z: Label)
    requires Passes(a, x, y) && Passes(b, y, z)
    ensures Passes(a + b, x, z)
  {
    if a == [] {
      assert a + b == b;
    } else if b == [] {
      assert a + b == a;
    } else {
      var g := a + b;
      forall k | 1 <= k < |g|
        ensures ReadsPrevious(g, k)
      {
        if k < |a| {
          assert ReadsPrevious(a, k);
          assert g[k] == a[k] && g[k - 1] == a[k - 1];
        } else if k == |a| {
          assert g[k] == b[0] && g[k - 1] == a[|a| - 1];
        } else {
          assert ReadsPrevious(b, k - |a|);
          assert g[k] == b[k - |a|] && g[k - 1] == b[k - 1 - |a|];
        }
      }
    }
  }

  lemma EffectsPass(geo: Geometry, s: HologramSettings)
    ensures Passes(Effects(geo, s), Overlay1, FlickerLabel(s))
  {
    var scale := ScaleStages(geo);
    var tint := TintStages(s);
    var transparency := TransparencyStages(s);
    var glow := GlowStages(s);
    var scan := ScanlineStages(geo, s);
    var flicker := FlickerStages(s);
    assert Passes(scale, Overlay1, Scaled);
    assert Passes(tint, Scaled, TintLabel(s));
    PassesCompose(scale, tint, Overlay1, Scaled, TintLabel(s));
    assert Passes(transparency, TintLabel(s), Transparent);
    PassesCompose(scale + tint, transparency, Overlay1, TintLabel(s), Transparent);
    assert Passes(glow, Transparent, GlowLabel(s));
    PassesCompose(scale + tint + transparency, glow, Overlay1, Transparent, GlowLabel(s));
    assert Passes(scan, GlowLabel(s), ScanlinesLabel(s));
    PassesCompose(scale + tint + transparency + glow, scan, Overlay1, GlowLabel(s), ScanlinesLabel(s));
    assert Passes(flicker, ScanlinesLabel(s), FlickerLabel(s));
    PassesCompose(scale + tint + transparency + glow + scan, flicker, Overlay1, ScanlinesLabel(s), FlickerLabel(s));
  }

  /** The first stage reads [1:v] and every effect stage reads first what the stage before
      it wrote first (the code's `last_filter`). */
  lemma EffectsChain(geo: Geometry, s: HologramSettings)
    ensures var e := Effects(geo, s);
      && e[0].inputs == [Overlay1] && Linked(e) && e[|e| - 1].outputs == [FlickerLabel(s)]
  {
    EffectsPass(geo, s);
    var e := Effects(geo, s);
    assert e[0] == ScaleStages(geo)[0];
    var last := if s.flickerIntensity > 0.0 then FlickerStages(s)
                else if s.scanlines then ScanlineStages(geo, s)
                else if s.glowIntensity > 0.0 then GlowStages(s)
                else TransparencyStages(s);
    assert e[|e| - 1] == last[|last| - 1];
  }

  /** The glow overlay reads the blurred copy and the split's second branch. */
  lemma GlowOverlayReadsBothBranches(geo: Geometry, s: HologramSettings)
    ensures var g := Graph(geo, s);
      forall k :: 0 <= k < |g| && g[k].op == Overlay ==>
        2 <= k && g[k].inputs == [Glow, Main] && g[k - 1].outputs == [Glow] && g[k - 2].outputs == [GlowInput, Main]
  {
    var g := Graph(geo, s);
    var before := ScaleStages(geo) + TintStages(s) + TransparencyStages(s);
    var glow := GlowStages(s);
    var after := ScanlineStages(geo, s) + FlickerStages(s) + CompositeStages(geo, s);
    assert g == before + glow + after;
    forall k | 0 <= k < |g| && g[k].op == Overlay
      ensures 2 <= k && g[k].inputs == [Glow, Main] && g[k - 1].outputs == [Glow] && g[k - 2].outputs == [GlowInput, Main]
    {
      if |before| <= k < |before| + |glow| {
        assert g[k] == glow[k - |before|];
        assert k == |before| + 2;
        assert g[k - 1] == glow[1] && g[k - 2] == glow[0];
      }
    }
  }

  /** The last stage overlays the effect chain's output onto [0:v] at the computed position,
      and it is the one stage that writes [output]. */
  lemma FinalOverlay(geo: Geometry, s: HologramSettings)
    ensures var g := Graph(geo, s);
      && g[|g| - 1] == Stage([Base0, g[|g| - 2].outputs[0]], Composite(geo.x, geo.y), [Output])
      && forall k :: 0 <= k < |g| - 1 ==> Output !in g[k].outputs
  {
    var e := Effects(geo, s);
    var g := Graph(geo, s);
    EffectsChain(geo, s);
    assert g[|g| - 2] == e[|e| - 1];
    assert forall k :: 0 <= k < |e| ==> g[k] == e[k] && Output !in e[k].outputs;
  }

  // ----- numeric parameters -----

  /** What each stage's parameters are, in terms of the geometry and settings. */
  predicate ParametersFollow(op: Op, geo: Geometry, s: HologramSettings) {
    match op
    case Scale(w, h) => w == geo.width && h == geo.height
    case ColorBalance(rm, gm, bm) => rm == -0.3 && gm == -0.2 && bm == 0.5
    case Transparency(a) => a == s.transparency
    case Split => true
    case BoxBlur(r, p) => r == Max(2, Trunc(s.glowIntensity * 10.0)) && r >= 2 && p == 1
    case Overlay => true
    case DrawGrid(sp, t, c, o) => sp == Max(2, geo.height / 100) && sp >= 2 && t == 1 && c == "cyan" && o == 0.3
    case Flicker(a) => a == 1.0 - 0.3 * s.flickerIntensity && a < 1.0
    case Composite(x, y) => x == geo.x && y == geo.y
  }

  /** Glow radius and scanline spacing are at least 2; a flicker stage always lowers
      alpha below 1; transparency is passed through unchanged. */
  lemma EffectParameters(geo: Geometry, s: HologramSettings)
    ensures forall st :: st in Graph(geo, s) ==> ParametersFollow(st.op, geo, s)
  {
    var front := ScaleStages(geo) + TintStages(s) + TransparencyStages(s);
    var back := ScanlineStages(geo, s) + FlickerStages(s) + CompositeStages(geo, s);
    assert Graph(geo, s) == front + GlowStages(s) + back;
    forall st | st in front
      ensures ParametersFollow(st.op, geo, s)
    {
    }
    forall st | st in GlowStages(s)
      ensures ParametersFollow(st.op, geo, s)
    {
    }
    forall st | st in back
      ensures ParametersFollow(st.op, geo, s)
    {
    }
  }

  // ----- geometry -----

  lemma ScaledFits(n: int, f: real)
    requires n >= 0 && 0.0 <= f <= 1.0
    ensures 0 <= Trunc(n as real * f) <= n
  {
    assert 0.0 <= n as real * f <= n as real * 1.0;
    TruncOfInteger(n);
    TruncMonotone(n as real * f, n as real);
  }

  lemma HorizontalFits(baseWidth: int, baseHeight: int, s: HologramSettings)
    requires baseWidth >= 0 && baseHeight >= 0 && 0.0 <= s.hologramSize <= 1.0
    requires 0.0 <= s.hologramPositionX <= 1.0 && 0.0 <= s.hologramPositionY <= 1.0
    ensures 0 <= OverlayGeometry(baseWidth, baseHeight, s).width <= baseWidth
    ensures 0 <= OverlayGeometry(baseWidth, baseHeight, s).x
              <= baseWidth - OverlayGeometry(baseWidth, baseHeight, s).width
  {
    ScaledFits(baseWidth, s.hologramSize);
    ScaledFits(baseWidth - OverlayGeometry(baseWidth, baseHeight, s).width, s.hologramPositionX);
  }

  lemma VerticalFits(baseWidth: int, baseHeight: int, s: HologramSettings)
    requires baseWidth >= 0 && baseHeight >= 0 && 0.0 <= s.hologramSize <= 1.0
    requires 0.0 <= s.hologramPositionX <= 1.0 && 0.0 <= s.hologramPositionY <= 1.0
    ensures 0 <= OverlayGeometry(baseWidth, baseHeight, s).height <= baseHeight
    ensures 0 <= OverlayGeometry(baseWidth, baseHeight, s).y
              <= baseHeight - OverlayGeometry(baseWidth, baseHeight, s).height
  {
    ScaledFits(baseHeight, s.hologramSize);
    ScaledFits(baseHeight - OverlayGeometry(baseWidth, baseHeight, s).height, s.hologramPositionY);
  }

  /** The overlay rectangle lies within a baseWidth x baseHeight frame. */
  predicate InsideFrame(geo: Geometry, baseWidth: int, baseHeight: int) {
    && 0 <= geo.width <= baseWidth && 0 <= geo.height <= baseHeight
    && 0 <= geo.x <= baseWidth - geo.width && 0 <= geo.y <= baseHeight - geo.height
  }

  /** For size and position fractions in [0, 1] the overlay lies inside the base frame. */
  lemma OverlayInsideFrame(baseWidth: int, baseHeight: int, s: HologramSettings)
    requires baseWidth >= 0 && baseHeight >= 0
    requires 0.0 <= s.hologramSize <= 1.0
    requires 0.0 <= s.hologramPositionX <= 1.0 && 0.0 <= s.hologramPositionY <= 1.0
    ensures InsideFrame(OverlayGeometry(baseWidth, baseHeight, s), baseWidth, baseHeight)
  {
    HorizontalFits(baseWidth, baseHeight, s);
    VerticalFits(baseWidth, baseHeight, s);
  }

  /** Size 1 at position (0, 0) covers the base frame exactly. */
  lemma FullSizeFillsFrame(baseWidth: int, baseHeight: int, s: HologramSettings)
    requires s.hologramSize == 1.0 && s.hologramPositionX == 0.0 && s.hologramPositionY == 0.0
    ensures OverlayGeometry(baseWidth, baseHeight, s) == Geometry(baseWidth, baseHeight, 0, 0)
  {
    TruncOfInteger(baseWidth);
    TruncOfInteger(baseHeight);
  }

  /** 640x480 at size 0.5 and position (1, 0) with every effect off: a 320x240 overlay at
      (320, 0) and the three-stage graph. */
  lemma Example640x480()
    ensures var s := HologramSettings(0.5, 1.0, 0.0, 0.0, 0.0, false, false, 0.0, 1.0);
      && OverlayGeometry(640, 480, s) == Geometry(320, 240, 320, 0)
      && Graph(OverlayGeometry(640, 480, s), s)
         == [Stage([Overlay1], Scale(320, 240), [Scaled]),
             Stage([Scaled], Transparency(1.0), [Transparent]),
             Stage([Base0, Transparent], Composite(320, 0), [Output])]
  {
    var s := HologramSettings(0.5, 1.0, 0.0, 0.0, 0.0, false, false, 0.0, 1.0);
    assert 640 as real * 0.5 == 320.0;
    assert 480 as real * 0.5 == 240.0;
    TruncOfInteger(320);
    TruncOfInteger(240);
    TruncOfInteger(0);
  }

  /** Small sizes are not rejected: the graph is still built, with a zero-pixel scale. */
  lemma TinySizeIsNotRejected()
    ensures var s := DefaultSettings.(hologramSize := 0.001);
      Graph(OverlayGeometry(640, 480, s), s)[0].op == Scale(0, 0)
  {
    var s := DefaultSettings.(hologramSize := 0.001);
    assert 640 as real * 0.001 == 0.64;
    assert 480 as real * 0.001 == 0.48;
  }
}
