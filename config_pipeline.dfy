/** The configuration pipeline as a specification: the register-programming
    events one command produces, and the fixed order they come in. */
module ConfigPipeline {
  import opened Fimg2d
  import opened OperatorReducer

  /** Position of each kind of event in the programming order of a command. */
  function Rank(ev: HwEvent): (r: nat)
  {
    match ev
    case Reset => 0
    case SetFgColor(_) => 1
    case SetColorFill(_) => 2
    case EnableAlpha(_) => 3
    case SetAlphaComposite(_, _) => 4
    case SetPremultiplied => 5
    case SetSrcType(_) => 6
    case SetDstType(_) => 7
    case SetSrcImage(_) => 8
    case SetSrcRect(_) => 9
    case SetSrcRepeat(_) => 10
    case SetSrcScaling(_, _) => 11
    case EnableMsk => 12
    case SetMskImage(_) => 13
    case SetMskRect(_) => 14
    case SetMskRepeat(_) => 15
    case SetMskScaling(_, _) => 16
    case SetDstImage(_) => 17
    case SetDstRect(_) => 18
    case EnableClipping(_) => 19
    case SetBluescreen(_) => 20
    case SetRotation(_) => 21
    case EnableDithering => 22
    case EnableIrq => 23
    case ClearIrq => 24
    case StartBlit => 25
    case DisableIrq => 26
  }

  /** The first event of t has a rank in [lo, hi) and the rest of t is
      ranked above it: so ranks strictly increase along t, each kind occurs
      at most once, and all come in the fixed order (RankedIncreasing). */
  predicate Ranked(t: seq<HwEvent>, lo: nat, hi: nat)
    decreases |t|
  {
    t == [] || (lo <= Rank(t[0]) < hi && Ranked(t[1..], Rank(t[0]) + 1, hi))
  }

  lemma {:induction false} RankedConcat(a: seq<HwEvent>, b: seq<HwEvent>, lo: nat, mid: nat, hi: nat)
    requires lo <= mid <= hi
    requires Ranked(a, lo, mid) && Ranked(b, mid, hi)
    ensures Ranked(a + b, lo, hi)
    decreases |a|
  {
    if a == [] {
      assert a + b == b;
      RankedFrom(b, lo, mid, hi);
    } else {
      assert (a + b)[0] == a[0] && (a + b)[1..] == a[1..] + b;
      RankedConcat(a[1..], b, Rank(a[0]) + 1, mid, hi);
    }
  }

  /** A trace ranked from mid is ranked from any lower bound. */
  lemma RankedFrom(t: seq<HwEvent>, lo: nat, mid: nat, hi: nat)
    requires lo <= mid && Ranked(t, mid, hi)
    ensures Ranked(t, lo, hi)
  {
  }

  /** Every event of a trace ranked within [lo, hi) has its rank there. */
  lemma {:induction false} RankedBounds(t: seq<HwEvent>, lo: nat, hi: nat)
    requires Ranked(t, lo, hi)
    ensures forall i :: 0 <= i < |t| ==> lo <= Rank(t[i]) < hi
    decreases |t|
  {
    if t != [] {
      RankedBounds(t[1..], Rank(t[0]) + 1, hi);
      forall i | 0 < i < |t| ensures lo <= Rank(t[i]) < hi {
        assert t[i] == t[1..][i - 1];
      }
    }
  }

  /** Ranks strictly increase along a ranked trace. */
  lemma {:induction false} RankedIncreasing(t: seq<HwEvent>, lo: nat, hi: nat)
    requires Ranked(t, lo, hi)
    ensures forall i, j :: 0 <= i < j < |t| ==> Rank(t[i]) < Rank(t[j])
    decreases |t|
  {
    if t != [] {
      var rest := t[1..];
      RankedBounds(rest, Rank(t[0]) + 1, hi);
      RankedIncreasing(rest, Rank(t[0]) + 1, hi);
      forall i, j | 0 <= i < j < |t| ensures Rank(t[i]) < Rank(t[j]) {
        assert t[j] == rest[j - 1];
        if i > 0 {
          assert t[i] == rest[i - 1];
        }
      }
    }
  }

  function Opt(c: bool, ev: HwEvent): (t: seq<HwEvent>)
    ensures t == [] || t == [ev]
  {
    if c then [ev] else []
  }

  /** Source data mode: the constant-colour generator for the two fill
      operators and for a source without an address, else memory. */
  function SrcSel(cmd: BltCmd, op: BlitOp): (sel: ImageSel)
    ensures sel == ImgFgColor <==> op in {SolidFill, Clr} || !cmd.src.Addressed()
  {
    if op == SolidFill || op == Clr || !cmd.src.Addressed() then ImgFgColor else ImgMemory
  }

  /** Destination data mode: the constant-colour generator when the destination
      is only written (fills and Src), else memory. */
  function DstSel(op: BlitOp): (sel: ImageSel)
    ensures sel == ImgFgColor <==> op in {SolidFill, Clr, Src}
  {
    if op in {SolidFill, Clr, Src} then ImgFgColor else ImgMemory
  }

  /** Colour and blend-unit setup for the reduced operator op: the fill
      colour for the two fill operators, else the constant colour of a source
      without an address, alpha blending with op, and premultiplication
      compensation for non-premultiplied input. */
  function ColorSetup(cmd: BltCmd, op: BlitOp): (t: seq<HwEvent>)
    ensures Ranked(t, 1, 6)
    ensures op == SolidFill ==> t == [SetFgColor(cmd.param.solidColor)]
    ensures op == Clr ==> t == [SetColorFill(0)]
  {
    if op == SolidFill then [SetFgColor(cmd.param.solidColor)]
    else if op == Clr then [SetColorFill(0)]
    else BlendSetup(cmd, op)
  }

  function BlendSetup(cmd: BltCmd, op: BlitOp): (t: seq<HwEvent>)
    ensures Ranked(t, 1, 6)
  {
    var p := cmd.param;
    var a := Opt(!cmd.src.Addressed(), SetFgColor(p.solidColor));
    var b := [EnableAlpha(p.gAlpha), SetAlphaComposite(op, p.gAlpha)];
    var c := Opt(p.premult == NonPremultiplied, SetPremultiplied);
    RankedConcat(a, b, 1, 3, 5);
    RankedConcat(a + b, c, 1, 5, 6);
    a + b + c
  }

  /** A ranked trace stays ranked behind an event ranked below it. */
  lemma RankedCons(x: HwEvent, t: seq<HwEvent>, lo: nat, hi: nat)
    requires lo <= Rank(x) < hi && Ranked(t, Rank(x) + 1, hi)
    ensures Ranked([x] + t, lo, hi)
  {
    assert ([x] + t)[0] == x && ([x] + t)[1..] == t;
  }

  lemma RankedOpt(c: bool, ev: HwEvent, lo: nat, hi: nat)
    requires lo <= Rank(ev) < hi
    ensures Ranked(Opt(c, ev), lo, hi)
  {
    if c {
      assert [ev][1..] == [];
    }
  }

  function SrcSetup(cmd: BltCmd): (t: seq<HwEvent>)
    ensures Ranked(t, 8, 12)
    ensures t != [] <==> cmd.src.Addressed()
  {
    var p := cmd.param;
    if cmd.src.Addressed() then
      var scaling := Opt(p.scaling.mode != 0, SetSrcScaling(p.scaling, p.repeat));
      RankedOpt(p.scaling.mode != 0, SetSrcScaling(p.scaling, p.repeat), 11, 12);
      RankedCons(SetSrcRepeat(p.repeat), scaling, 10, 12);
      RankedCons(SetSrcRect(cmd.src.rect), [SetSrcRepeat(p.repeat)] + scaling, 9, 12);
      RankedCons(SetSrcImage(cmd.src), [SetSrcRect(cmd.src.rect)] + ([SetSrcRepeat(p.repeat)] + scaling), 8, 12);
      [SetSrcImage(cmd.src)] + ([SetSrcRect(cmd.src.rect)] + ([SetSrcRepeat(p.repeat)] + scaling))
    else []
  }

  function MskSetup(cmd: BltCmd): (t: seq<HwEvent>)
    ensures Ranked(t, 12, 17)
    ensures t != [] <==> cmd.msk.Addressed()
  {
    var p := cmd.param;
    if cmd.msk.Addressed() then
      var scaling := Opt(p.scaling.mode != 0, SetMskScaling(p.scaling, p.repeat));
      RankedOpt(p.scaling.mode != 0, SetMskScaling(p.scaling, p.repeat), 16, 17);
      RankedCons(SetMskRepeat(p.repeat), scaling, 15, 17);
      RankedCons(SetMskRect(cmd.msk.rect), [SetMskRepeat(p.repeat)] + scaling, 14, 17);
      RankedCons(SetMskImage(cmd.msk), [SetMskRect(cmd.msk.rect)] + ([SetMskRepeat(p.repeat)] + scaling), 13, 17);
      RankedCons(EnableMsk, [SetMskImage(cmd.msk)] + ([SetMskRect(cmd.msk.rect)] + ([SetMskRepeat(p.repeat)] + scaling)), 12, 17);
      [EnableMsk] + ([SetMskImage(cmd.msk)] + ([SetMskRect(cmd.msk.rect)] + ([SetMskRepeat(p.repeat)] + scaling)))
    else []
  }

  function DstSetup(cmd: BltCmd): (t: seq<HwEvent>)
    ensures Ranked(t, 17, 20)
    ensures t != [] <==> cmd.dst.Addressed()
  {
    var clip := cmd.param.clipping;
    if cmd.dst.Addressed() then
      RankedOpt(clip.enable, EnableClipping(clip), 19, 20);
      RankedCons(SetDstRect(cmd.dst.rect), Opt(clip.enable, EnableClipping(clip)), 18, 20);
      RankedCons(SetDstImage(cmd.dst), [SetDstRect(cmd.dst.rect)] + Opt(clip.enable, EnableClipping(clip)), 17, 20);
      [SetDstImage(cmd.dst)] + ([SetDstRect(cmd.dst.rect)] + Opt(clip.enable, EnableClipping(clip)))
    else []
  }

  /** Colour key, rotation and dithering, after all surfaces. */
  function PostSetup(cmd: BltCmd): (t: seq<HwEvent>)
    ensures Ranked(t, 20, 23)
  {
    var p := cmd.param;
    var bluscr := Opt(p.bluscr.mode != 0, SetBluescreen(p.bluscr));
    var rotation := Opt(p.rotate != 0, SetRotation(p.rotate));
    var dither := Opt(p.dither, EnableDithering);
    RankedOpt(p.bluscr.mode != 0, SetBluescreen(p.bluscr), 20, 21);
    RankedOpt(p.rotate != 0, SetRotation(p.rotate), 21, 22);
    RankedOpt(p.dither, EnableDithering, 22, 23);
    RankedConcat(bluscr, rotation, 20, 21, 22);
    RankedConcat(bluscr + rotation, dither, 20, 22, 23);
    bluscr + rotation + dither
  }

  /** The events configure issues for a command: a reset, then nothing more
      when the reduced operator is the no-op Dst; otherwise the programming
      of ProgramFor for the reduced operator. */
  function ConfigureTrace(cmd: BltCmd): (t: seq<HwEvent>)
    ensures |t| >= 1 && t[0] == Reset
  {
    var op := FastOp(cmd);
    if op == Dst then [Reset] else [Reset] + ProgramFor(cmd, op)
  }

  /** Colour and blend setup followed by the two data modes. */
  function ModeSetup(cmd: BltCmd, op: BlitOp): (t: seq<HwEvent>)
    ensures Ranked(t, 1, 8)
    ensures |t| == |ColorSetup(cmd, op)| + 2
    ensures t[|t| - 2] == SetSrcType(SrcSel(cmd, op)) && t[|t| - 1] == SetDstType(DstSel(op))
  {
    var a := ColorSetup(cmd, op);
    var b := [SetSrcType(SrcSel(cmd, op)), SetDstType(DstSel(op))];
    RankedConcat(a, b, 1, 6, 8);
    a + b
  }

  /** The source, mask and destination surfaces that have an address. */
  function SurfaceSetup(cmd: BltCmd): (t: seq<HwEvent>)
    ensures Ranked(t, 8, 20)
  {
    RankedConcat(SrcSetup(cmd), MskSetup(cmd), 8, 12, 17);
    RankedConcat(SrcSetup(cmd) + MskSetup(cmd), DstSetup(cmd), 8, 17, 20);
    SrcSetup(cmd) + MskSetup(cmd) + DstSetup(cmd)
  }

  /** Everything configure programs after the reset for the reduced operator
      op: colour and blend setup, the two data modes, the surfaces, and the
      colour-key, rotation and dither stages. */
  function ProgramFor(cmd: BltCmd, op: BlitOp): (t: seq<HwEvent>)
    ensures Ranked(t, 1, 23)
    ensures |t| >= |ModeSetup(cmd, op)|
    ensures t[..|ModeSetup(cmd, op)|] == ModeSetup(cmd, op)
  {
    var a := ModeSetup(cmd, op);
    RankedConcat(a, SurfaceSetup(cmd), 1, 8, 20);
    RankedConcat(a + SurfaceSetup(cmd), PostSetup(cmd), 1, 20, 23);
    AppendAssoc(a, SurfaceSetup(cmd), PostSetup(cmd));
    a + SurfaceSetup(cmd) + PostSetup(cmd)
  }

  lemma AppendAssoc<T>(a: seq<T>, b: seq<T>, c: seq<T>)
    ensures (a + b) + c == a + (b + c)
  {
  }

  /** ConfigureTrace for a command that is not skipped, split into the
      stages in which the register layer is programmed. */
  lemma ConfigureTraceParts(cmd: BltCmd, before: seq<HwEvent>)
    requires FastOp(cmd) != Dst
    ensures before + ConfigureTrace(cmd) ==
      before + [Reset] + ModeSetup(cmd, FastOp(cmd)) + SurfaceSetup(cmd) + PostSetup(cmd)
  {
    var op := FastOp(cmd);
    AppendAssoc(ModeSetup(cmd, op), SurfaceSetup(cmd), PostSetup(cmd));
    AppendAssoc([Reset], ModeSetup(cmd, op) + SurfaceSetup(cmd), PostSetup(cmd));
    AppendAssoc([Reset], ModeSetup(cmd, op), SurfaceSetup(cmd));
    AppendAssoc(before, [Reset] + ModeSetup(cmd, op) + SurfaceSetup(cmd), PostSetup(cmd));
    AppendAssoc(before, [Reset] + ModeSetup(cmd, op), SurfaceSetup(cmd));
    AppendAssoc(before, [Reset], ModeSetup(cmd, op));
  }

  /** Events of one hardware start (run): interrupts on and cleared, then start. */
  const RunTrace: seq<HwEvent> := [EnableIrq, ClearIrq, StartBlit]

  /** Events of stop on a finished blit: interrupts off and cleared. */
  const StopTrace: seq<HwEvent> := [DisableIrq, ClearIrq]

  lemma ConfigureTraceRanked(cmd: BltCmd)
    ensures Ranked(ConfigureTrace(cmd), 0, 23)
  {
    var op := FastOp(cmd);
    if op != Dst {
      ResetThenProgram(cmd, op);
    } else {
      assert ConfigureTrace(cmd)[1..] == [];
    }
  }

  lemma ResetThenProgram(cmd: BltCmd, op: BlitOp)
    ensures Ranked([Reset] + ProgramFor(cmd, op), 0, 23)
  {
    RankedCons(Reset, ProgramFor(cmd, op), 0, 23);
  }

  /** Configure programs every stage in one fixed order, each at most once,
      and never touches the interrupt or start controls. */
  lemma ConfigureInFixedOrder(cmd: BltCmd)
    ensures forall i, j :: 0 <= i < j < |ConfigureTrace(cmd)| ==>
      Rank(ConfigureTrace(cmd)[i]) < Rank(ConfigureTrace(cmd)[j])
    ensures forall i :: 0 <= i < |ConfigureTrace(cmd)| ==> Rank(ConfigureTrace(cmd)[i]) < 23
  {
    ConfigureTraceRanked(cmd);
    RankedIncreasing(ConfigureTrace(cmd), 0, 23);
    RankedBounds(ConfigureTrace(cmd), 0, 23);
  }

  /** Configure programs nothing beyond the reset exactly when the reduced
      operator is the no-op Dst; otherwise it selects both data modes. */
  lemma ConfigureSkipsOnlyForDst(cmd: BltCmd)
    ensures ConfigureTrace(cmd) == [Reset] <==> FastOp(cmd) == Dst
    ensures FastOp(cmd) != Dst ==>
      SetSrcType(SrcSel(cmd, FastOp(cmd))) in ConfigureTrace(cmd) &&
      SetDstType(DstSel(FastOp(cmd))) in ConfigureTrace(cmd)
  {
    var t := ConfigureTrace(cmd);
    var op := FastOp(cmd);
    if op != Dst {
      var m := ModeSetup(cmd, op);
      var pf := ProgramFor(cmd, op);
      assert t == [Reset] + pf;
      assert pf[|m| - 2] == m[|m| - 2] && pf[|m| - 1] == m[|m| - 1];
      assert t[|m| - 1] == SetSrcType(SrcSel(cmd, op));
      assert t[|m|] == SetDstType(DstSel(op));
    }
  }

  /** An event whose rank lies outside [lo, hi) does not occur in a trace
      ranked within [lo, hi). */
  lemma NotInRanked(t: seq<HwEvent>, lo: nat, hi: nat, x: HwEvent)
    requires Ranked(t, lo, hi)
    requires Rank(x) < lo || hi <= Rank(x)
    ensures x !in t
  {
    forall i | 0 <= i < |t| ensures t[i] != x {
    }
  }

  /** In three consecutive ranked stages, an event ranked for the middle
      stage can only come from it. */
  lemma InMiddleStage(m: seq<HwEvent>, c: seq<HwEvent>, d: seq<HwEvent>, lo: nat, hi: nat, top: nat, x: HwEvent)
    requires Ranked(m, 0, lo) && Ranked(c, lo, hi) && Ranked(d, hi, top)
    requires lo <= Rank(x) < hi
    ensures x in m + c + d <==> x in c
  {
    NotInRanked(m, 0, lo, x);
    NotInRanked(d, hi, top, x);
  }

  /** An event ranked below a ranked suffix can only come from the prefix. */
  lemma InPrefix(c: seq<HwEvent>, d: seq<HwEvent>, lo: nat, hi: nat, x: HwEvent)
    requires Ranked(d, lo, hi) && Rank(x) < lo
    ensures x in c + d <==> x in c
  {
    NotInRanked(d, lo, hi, x);
  }

  /** Among the events programmed for operator op, those ranked below the
      surfaces all come from the mode setup. */
  lemma InModeStage(cmd: BltCmd, op: BlitOp, x: HwEvent)
    requires Rank(x) < 8
    ensures x in ProgramFor(cmd, op) <==> x in ModeSetup(cmd, op)
  {
    InPrefix(ModeSetup(cmd, op) + SurfaceSetup(cmd), PostSetup(cmd), 20, 23, x);
    InPrefix(ModeSetup(cmd, op), SurfaceSetup(cmd), 8, 20, x);
  }

  /** Among the mode setup events, those ranked below the data modes all
      come from the colour and blend setup. */
  lemma ModeSetupColor(cmd: BltCmd, op: BlitOp, x: HwEvent)
    requires Rank(x) < 6
    ensures x in ModeSetup(cmd, op) <==> x in ColorSetup(cmd, op)
  {
    var ty := [SetSrcType(SrcSel(cmd, op)), SetDstType(DstSel(op))];
    assert Ranked(ty, 6, 8) by {
      assert ty[1..] == [SetDstType(DstSel(op))];
      RankedOpt(true, SetDstType(DstSel(op)), 7, 8);
    }
    InPrefix(ColorSetup(cmd, op), ty, 6, 8, x);
  }

  /** Among the events programmed for operator op, the colour, fill and
      blend events (ranks 1 to 5) all come from the colour and blend setup. */
  lemma InColorStage(cmd: BltCmd, op: BlitOp, x: HwEvent)
    requires 1 <= Rank(x) < 6
    ensures x in ProgramFor(cmd, op) <==> x in ColorSetup(cmd, op)
  {
    InModeStage(cmd, op, x);
    ModeSetupColor(cmd, op, x);
  }

  /** Among the events programmed for operator op, the surface events
      (ranks 8 to 19) all come from the surface setup. */
  lemma InSurfaceStage(cmd: BltCmd, op: BlitOp, x: HwEvent)
    requires 8 <= Rank(x) < 20
    ensures x in ProgramFor(cmd, op) <==> x in SurfaceSetup(cmd)
  {
    RankedFrom(ModeSetup(cmd, op), 0, 1, 8);
    InMiddleStage(ModeSetup(cmd, op), SurfaceSetup(cmd), PostSetup(cmd), 8, 20, 23, x);
  }

  /** The data modes chosen for op are programmed. */
  lemma ProgramSelectsModes(cmd: BltCmd, op: BlitOp)
    ensures SetSrcType(SrcSel(cmd, op)) in ProgramFor(cmd, op)
    ensures SetDstType(DstSel(op)) in ProgramFor(cmd, op)
  {
    var m := ModeSetup(cmd, op);
    assert ProgramFor(cmd, op)[|m| - 2] == m[|m| - 2];
    assert ProgramFor(cmd, op)[|m| - 1] == m[|m| - 1];
  }

  /** The colour and blend setup for op contains the blend with op exactly
      when op is not a fill, and premultiplication compensation in addition
      only for non-premultiplied input. */
  lemma ColorSetupBlends(cmd: BltCmd, op: BlitOp)
    ensures SetAlphaComposite(op, cmd.param.gAlpha) in ColorSetup(cmd, op) <==> op !in {SolidFill, Clr}
    ensures SetPremultiplied in ColorSetup(cmd, op) <==>
      op !in {SolidFill, Clr} && cmd.param.premult == NonPremultiplied
  {
    if op != SolidFill && op != Clr {
      var p := cmd.param;
      var a := Opt(!cmd.src.Addressed(), SetFgColor(p.solidColor));
      var b := [EnableAlpha(p.gAlpha), SetAlphaComposite(op, p.gAlpha)];
      var c := Opt(p.premult == NonPremultiplied, SetPremultiplied);
      assert ColorSetup(cmd, op) == a + b + c;
    }
  }

  /** Programming for operator op enables alpha compositing with op exactly
      when op is not a fill. */
  lemma ProgramBlendsWith(cmd: BltCmd, op: BlitOp)
    ensures SetAlphaComposite(op, cmd.param.gAlpha) in ProgramFor(cmd, op) <==> op !in {SolidFill, Clr}
  {
    ColorSetupBlends(cmd, op);
    InColorStage(cmd, op, SetAlphaComposite(op, cmd.param.gAlpha));
  }

  /** Programming for operator op compensates for non-premultiplied input
      exactly when op is not a fill. */
  lemma ProgramCompensatesPremult(cmd: BltCmd, op: BlitOp)
    ensures SetPremultiplied in ProgramFor(cmd, op) <==>
      op !in {SolidFill, Clr} && cmd.param.premult == NonPremultiplied
  {
    ColorSetupBlends(cmd, op);
    InColorStage(cmd, op, SetPremultiplied);
  }

  /** The surface setup programs each surface exactly when it has an address. */
  lemma SurfaceSetupAddressed(cmd: BltCmd)
    ensures SetSrcImage(cmd.src) in SurfaceSetup(cmd) <==> cmd.src.Addressed()
    ensures SetMskImage(cmd.msk) in SurfaceSetup(cmd) <==> cmd.msk.Addressed()
    ensures SetDstImage(cmd.dst) in SurfaceSetup(cmd) <==> cmd.dst.Addressed()
  {
    assert Rank(SetSrcImage(cmd.src)) == 8 && Rank(SetMskImage(cmd.msk)) == 13 && Rank(SetDstImage(cmd.dst)) == 17;
    var s, m, d := SrcSetup(cmd), MskSetup(cmd), DstSetup(cmd);
    assert SurfaceSetup(cmd) == s + m + d;
    NotInRanked(m, 12, 17, SetSrcImage(cmd.src));
    NotInRanked(d, 17, 20, SetSrcImage(cmd.src));
    NotInRanked(s, 8, 12, SetMskImage(cmd.msk));
    NotInRanked(d, 17, 20, SetMskImage(cmd.msk));
    NotInRanked(s, 8, 12, SetDstImage(cmd.dst));
    NotInRanked(m, 12, 17, SetDstImage(cmd.dst));
    if cmd.src.Addressed() { assert s[0] == SetSrcImage(cmd.src); }
    if cmd.msk.Addressed() { assert m[1] == SetMskImage(cmd.msk); }
    if cmd.dst.Addressed() { assert d[0] == SetDstImage(cmd.dst); }
  }

  /** Programming for any operator sets up each surface exactly when it has
      an address. */
  lemma ProgramSetsAddressedSurfaces(cmd: BltCmd, op: BlitOp)
    ensures SetSrcImage(cmd.src) in ProgramFor(cmd, op) <==> cmd.src.Addressed()
    ensures SetMskImage(cmd.msk) in ProgramFor(cmd, op) <==> cmd.msk.Addressed()
    ensures SetDstImage(cmd.dst) in ProgramFor(cmd, op) <==> cmd.dst.Addressed()
  {
    assert Rank(SetSrcImage(cmd.src)) == 8 && Rank(SetMskImage(cmd.msk)) == 13 && Rank(SetDstImage(cmd.dst)) == 17;
    SurfaceSetupAddressed(cmd);
    InSurfaceStage(cmd, op, SetSrcImage(cmd.src));
    InSurfaceStage(cmd, op, SetMskImage(cmd.msk));
    InSurfaceStage(cmd, op, SetDstImage(cmd.dst));
  }

  /** An event other than the reset is in the configure trace exactly when
      the command is not skipped and the event is programmed for the reduced
      operator. */
  lemma InConfigureTrace(cmd: BltCmd, x: HwEvent)
    requires x != Reset
    ensures x in ConfigureTrace(cmd) <==> FastOp(cmd) != Dst && x in ProgramFor(cmd, FastOp(cmd))
  {
  }

  /** Alpha compositing is enabled with the reduced operator and the global
      alpha exactly when that operator is neither a fill nor the no-op, and
      premultiplication compensation in addition only for non-premultiplied
      input. */
  lemma ConfigureBlendsWithReducedOp(cmd: BltCmd)
    ensures SetAlphaComposite(FastOp(cmd), cmd.param.gAlpha) in ConfigureTrace(cmd) <==>
      FastOp(cmd) !in {SolidFill, Clr, Dst}
    ensures SetPremultiplied in ConfigureTrace(cmd) <==>
      FastOp(cmd) !in {SolidFill, Clr, Dst} && cmd.param.premult == NonPremultiplied
  {
    ProgramBlendsWith(cmd, FastOp(cmd));
    ProgramCompensatesPremult(cmd, FastOp(cmd));
    InConfigureTrace(cmd, SetAlphaComposite(FastOp(cmd), cmd.param.gAlpha));
    InConfigureTrace(cmd, SetPremultiplied);
  }

  /** Each surface is programmed exactly when it has an address and the
      command is not skipped. */
  lemma ConfigureProgramsAddressedSurfaces(cmd: BltCmd)
    ensures SetSrcImage(cmd.src) in ConfigureTrace(cmd) <==> FastOp(cmd) != Dst && cmd.src.Addressed()
    ensures SetMskImage(cmd.msk) in ConfigureTrace(cmd) <==> FastOp(cmd) != Dst && cmd.msk.Addressed()
    ensures SetDstImage(cmd.dst) in ConfigureTrace(cmd) <==> FastOp(cmd) != Dst && cmd.dst.Addressed()
  {
    ProgramSetsAddressedSurfaces(cmd, FastOp(cmd));
    InConfigureTrace(cmd, SetSrcImage(cmd.src));
    InConfigureTrace(cmd, SetMskImage(cmd.msk));
    InConfigureTrace(cmd, SetDstImage(cmd.dst));
  }

  /** The colour stage loads the constant colour for a solid fill and for a
      blending operator whose source has no address, loads the zero fill for
      Clr, and enables global alpha for every operator other than a fill. */
  lemma ColorStageContents(cmd: BltCmd, op: BlitOp)
    ensures SetFgColor(cmd.param.solidColor) in ColorSetup(cmd, op) <==>
      op == SolidFill || (op != Clr && !cmd.src.Addressed())
    ensures SetColorFill(0) in ColorSetup(cmd, op) <==> op == Clr
    ensures EnableAlpha(cmd.param.gAlpha) in ColorSetup(cmd, op) <==> op !in {SolidFill, Clr}
  {
    if op != SolidFill && op != Clr {
      var p := cmd.param;
      var a := Opt(!cmd.src.Addressed(), SetFgColor(p.solidColor));
      var b := [EnableAlpha(p.gAlpha), SetAlphaComposite(op, p.gAlpha)];
      var c := Opt(p.premult == NonPremultiplied, SetPremultiplied);
      assert ColorSetup(cmd, op) == a + b + c;
    }
  }

  /** An addressed source gets its rectangle and repeat mode, and its
      scaling exactly when scaling is requested. */
  lemma SrcStageContents(cmd: BltCmd)
    ensures SetSrcRect(cmd.src.rect) in SrcSetup(cmd) <==> cmd.src.Addressed()
    ensures SetSrcRepeat(cmd.param.repeat) in SrcSetup(cmd) <==> cmd.src.Addressed()
    ensures SetSrcScaling(cmd.param.scaling, cmd.param.repeat) in SrcSetup(cmd) <==>
      cmd.src.Addressed() && cmd.param.scaling.mode != 0
  {
    if cmd.src.Addressed() {
      var p := cmd.param;
      var scaling := Opt(p.scaling.mode != 0, SetSrcScaling(p.scaling, p.repeat));
      assert SrcSetup(cmd) == [SetSrcImage(cmd.src), SetSrcRect(cmd.src.rect), SetSrcRepeat(p.repeat)] + scaling;
    }
  }

  /** An addressed mask enables the mask unit and gets its rectangle and
      repeat mode, and its scaling exactly when scaling is requested. */
  lemma MskStageContents(cmd: BltCmd)
    ensures EnableMsk in MskSetup(cmd) <==> cmd.msk.Addressed()
    ensures SetMskRect(cmd.msk.rect) in MskSetup(cmd) <==> cmd.msk.Addressed()
    ensures SetMskRepeat(cmd.param.repeat) in MskSetup(cmd) <==> cmd.msk.Addressed()
    ensures SetMskScaling(cmd.param.scaling, cmd.param.repeat) in MskSetup(cmd) <==>
      cmd.msk.Addressed() && cmd.param.scaling.mode != 0
  {
    if cmd.msk.Addressed() {
      var p := cmd.param;
      var scaling := Opt(p.scaling.mode != 0, SetMskScaling(p.scaling, p.repeat));
      assert MskSetup(cmd) ==
        [EnableMsk, SetMskImage(cmd.msk), SetMskRect(cmd.msk.rect), SetMskRepeat(p.repeat)] + scaling;
    }
  }

  /** An addressed destination gets its rectangle, and clipping exactly
      when clipping is enabled. */
  lemma DstStageContents(cmd: BltCmd)
    ensures SetDstRect(cmd.dst.rect) in DstSetup(cmd) <==> cmd.dst.Addressed()
    ensures EnableClipping(cmd.param.clipping) in DstSetup(cmd) <==>
      cmd.dst.Addressed() && cmd.param.clipping.enable
  {
    if cmd.dst.Addressed() {
      var clip := cmd.param.clipping;
      assert DstSetup(cmd) == [SetDstImage(cmd.dst), SetDstRect(cmd.dst.rect)] + Opt(clip.enable, EnableClipping(clip));
    }
  }

  /** Colour key, rotation and dithering are each programmed exactly when
      requested. */
  lemma PostStageContents(cmd: BltCmd)
    ensures SetBluescreen(cmd.param.bluscr) in PostSetup(cmd) <==> cmd.param.bluscr.mode != 0
    ensures SetRotation(cmd.param.rotate) in PostSetup(cmd) <==> cmd.param.rotate != 0
    ensures EnableDithering in PostSetup(cmd) <==> cmd.param.dither
  {
  }

  /** Among the surface events, those ranked for the source come from the
      source stage. */
  lemma InSrcStage(cmd: BltCmd, x: HwEvent)
    requires 8 <= Rank(x) < 12
    ensures x in SurfaceSetup(cmd) <==> x in SrcSetup(cmd)
  {
    NotInRanked(MskSetup(cmd), 12, 17, x);
    NotInRanked(DstSetup(cmd), 17, 20, x);
  }

  /** Among the surface events, those ranked for the mask come from the
      mask stage. */
  lemma InMskStage(cmd: BltCmd, x: HwEvent)
    requires 12 <= Rank(x) < 17
    ensures x in SurfaceSetup(cmd) <==> x in MskSetup(cmd)
  {
    NotInRanked(SrcSetup(cmd), 8, 12, x);
    NotInRanked(DstSetup(cmd), 17, 20, x);
  }

  /** Among the surface events, those ranked for the destination come from
      the destination stage. */
  lemma InDstStage(cmd: BltCmd, x: HwEvent)
    requires 17 <= Rank(x) < 20
    ensures x in SurfaceSetup(cmd) <==> x in DstSetup(cmd)
  {
    NotInRanked(SrcSetup(cmd), 8, 12, x);
    NotInRanked(MskSetup(cmd), 12, 17, x);
  }

  /** Among the events programmed for operator op, those ranked after the
      surfaces come from the colour-key, rotation and dither stages. */
  lemma InPostStage(cmd: BltCmd, op: BlitOp, x: HwEvent)
    requires 20 <= Rank(x) < 23
    ensures x in ProgramFor(cmd, op) <==> x in PostSetup(cmd)
  {
    RankedConcat(ModeSetup(cmd, op), SurfaceSetup(cmd), 1, 8, 20);
    NotInRanked(ModeSetup(cmd, op) + SurfaceSetup(cmd), 1, 20, x);
  }

  /** A colour or blend event is in the configure trace exactly when the
      command is not skipped and the colour stage of the reduced operator
      holds it. */
  lemma InConfigureColorStage(cmd: BltCmd, x: HwEvent)
    requires 1 <= Rank(x) < 6
    ensures x in ConfigureTrace(cmd) <==> FastOp(cmd) != Dst && x in ColorSetup(cmd, FastOp(cmd))
  {
    InConfigureTrace(cmd, x);
    InColorStage(cmd, FastOp(cmd), x);
  }

  /** A surface event is in the configure trace exactly when the command is
      not skipped and the surface setup holds it. */
  lemma InConfigureSurfaceStage(cmd: BltCmd, x: HwEvent)
    requires 8 <= Rank(x) < 20
    ensures x in ConfigureTrace(cmd) <==> FastOp(cmd) != Dst && x in SurfaceSetup(cmd)
  {
    InConfigureTrace(cmd, x);
    InSurfaceStage(cmd, FastOp(cmd), x);
  }

  /** A colour-key, rotation or dither event is in the configure trace
      exactly when the command is not skipped and the last stages hold it. */
  lemma InConfigurePostStage(cmd: BltCmd, x: HwEvent)
    requires 20 <= Rank(x) < 23
    ensures x in ConfigureTrace(cmd) <==> FastOp(cmd) != Dst && x in PostSetup(cmd)
  {
    InConfigureTrace(cmd, x);
    InPostStage(cmd, FastOp(cmd), x);
  }

  /** Configure loads the constant colour for a solid fill and for a
      blending operator whose source has no address, the zero fill exactly
      for Clr, and enables global alpha exactly for a blending operator. */
  lemma ConfigureLoadsColors(cmd: BltCmd)
    ensures SetFgColor(cmd.param.solidColor) in ConfigureTrace(cmd) <==>
      FastOp(cmd) == SolidFill || (FastOp(cmd) !in {Clr, Dst} && !cmd.src.Addressed())
    ensures SetColorFill(0) in ConfigureTrace(cmd) <==> FastOp(cmd) == Clr
    ensures EnableAlpha(cmd.param.gAlpha) in ConfigureTrace(cmd) <==> FastOp(cmd) !in {SolidFill, Clr, Dst}
  {
    var p := cmd.param;
    assert Rank(SetFgColor(p.solidColor)) == 1 && Rank(SetColorFill(0)) == 2 && Rank(EnableAlpha(p.gAlpha)) == 3;
    ColorStageContents(cmd, FastOp(cmd));
    InConfigureColorStage(cmd, SetFgColor(p.solidColor));
    InConfigureColorStage(cmd, SetColorFill(0));
    InConfigureColorStage(cmd, EnableAlpha(p.gAlpha));
  }

  /** Configure sets the rectangle and repeat mode of an addressed source,
      and its scaling exactly when scaling is requested. */
  lemma ConfigureSrcStage(cmd: BltCmd)
    ensures SetSrcRect(cmd.src.rect) in ConfigureTrace(cmd) <==> FastOp(cmd) != Dst && cmd.src.Addressed()
    ensures SetSrcRepeat(cmd.param.repeat) in ConfigureTrace(cmd) <==> FastOp(cmd) != Dst && cmd.src.Addressed()
    ensures SetSrcScaling(cmd.param.scaling, cmd.param.repeat) in ConfigureTrace(cmd) <==>
      FastOp(cmd) != Dst && cmd.src.Addressed() && cmd.param.scaling.mode != 0
  {
    var p := cmd.param;
    assert Rank(SetSrcRect(cmd.src.rect)) == 9 && Rank(SetSrcRepeat(p.repeat)) == 10;
    assert Rank(SetSrcScaling(p.scaling, p.repeat)) == 11;
    SrcStageContents(cmd);
    InConfigureSurfaceStage(cmd, SetSrcRect(cmd.src.rect));
    InSrcStage(cmd, SetSrcRect(cmd.src.rect));
    InConfigureSurfaceStage(cmd, SetSrcRepeat(p.repeat));
    InSrcStage(cmd, SetSrcRepeat(p.repeat));
    InConfigureSurfaceStage(cmd, SetSrcScaling(p.scaling, p.repeat));
    InSrcStage(cmd, SetSrcScaling(p.scaling, p.repeat));
  }

  /** Configure enables the mask unit and sets the rectangle and repeat mode
      of an addressed mask, and its scaling exactly when scaling is
      requested. */
  lemma ConfigureMskStage(cmd: BltCmd)
    ensures EnableMsk in ConfigureTrace(cmd) <==> FastOp(cmd) != Dst && cmd.msk.Addressed()
    ensures SetMskRect(cmd.msk.rect) in ConfigureTrace(cmd) <==> FastOp(cmd) != Dst && cmd.msk.Addressed()
    ensures SetMskRepeat(cmd.param.repeat) in ConfigureTrace(cmd) <==> FastOp(cmd) != Dst && cmd.msk.Addressed()
    ensures SetMskScaling(cmd.param.scaling, cmd.param.repeat) in ConfigureTrace(cmd) <==>
      FastOp(cmd) != Dst && cmd.msk.Addressed() && cmd.param.scaling.mode != 0
  {
    var p := cmd.param;
    assert Rank(EnableMsk) == 12 && Rank(SetMskRect(cmd.msk.rect)) == 14 && Rank(SetMskRepeat(p.repeat)) == 15;
    assert Rank(SetMskScaling(p.scaling, p.repeat)) == 16;
    MskStageContents(cmd);
    InConfigureSurfaceStage(cmd, EnableMsk);
    InMskStage(cmd, EnableMsk);
    InConfigureSurfaceStage(cmd, SetMskRect(cmd.msk.rect));
    InMskStage(cmd, SetMskRect(cmd.msk.rect));
    InConfigureSurfaceStage(cmd, SetMskRepeat(p.repeat));
    InMskStage(cmd, SetMskRepeat(p.repeat));
    InConfigureSurfaceStage(cmd, SetMskScaling(p.scaling, p.repeat));
    InMskStage(cmd, SetMskScaling(p.scaling, p.repeat));
  }

  /** Configure sets the rectangle of an addressed destination, and enables
      clipping exactly when it is requested for an addressed destination. */
  lemma ConfigureDstStage(cmd: BltCmd)
    ensures SetDstRect(cmd.dst.rect) in ConfigureTrace(cmd) <==> FastOp(cmd) != Dst && cmd.dst.Addressed()
    ensures EnableClipping(cmd.param.clipping) in ConfigureTrace(cmd) <==>
      FastOp(cmd) != Dst && cmd.dst.Addressed() && cmd.param.clipping.enable
  {
    var p := cmd.param;
    assert Rank(SetDstRect(cmd.dst.rect)) == 18 && Rank(EnableClipping(p.clipping)) == 19;
    DstStageContents(cmd);
    InConfigureSurfaceStage(cmd, SetDstRect(cmd.dst.rect));
    InDstStage(cmd, SetDstRect(cmd.dst.rect));
    InConfigureSurfaceStage(cmd, EnableClipping(p.clipping));
    InDstStage(cmd, EnableClipping(p.clipping));
  }

  /** Configure programs the colour key, the rotation and dithering each
      exactly when requested, unless the command is skipped. */
  lemma ConfigurePostStages(cmd: BltCmd)
    ensures SetBluescreen(cmd.param.bluscr) in ConfigureTrace(cmd) <==>
      FastOp(cmd) != Dst && cmd.param.bluscr.mode != 0
    ensures SetRotation(cmd.param.rotate) in ConfigureTrace(cmd) <==> FastOp(cmd) != Dst && cmd.param.rotate != 0
    ensures EnableDithering in ConfigureTrace(cmd) <==> FastOp(cmd) != Dst && cmd.param.dither
  {
    var p := cmd.param;
    assert Rank(SetBluescreen(p.bluscr)) == 20 && Rank(SetRotation(p.rotate)) == 21 && Rank(EnableDithering) == 22;
    PostStageContents(cmd);
    InConfigurePostStage(cmd, SetBluescreen(p.bluscr));
    InConfigurePostStage(cmd, SetRotation(p.rotate));
    InConfigurePostStage(cmd, EnableDithering);
  }

  /** Programming for a solid fill points both ports at the constant colour
      generator. */
  lemma SolidFillModes(cmd: BltCmd)
    ensures SetSrcType(ImgFgColor) in ProgramFor(cmd, SolidFill)
    ensures SetDstType(ImgFgColor) in ProgramFor(cmd, SolidFill)
  {
    assert SrcSel(cmd, SolidFill) == ImgFgColor && DstSel(SolidFill) == ImgFgColor;
    ProgramSelectsModes(cmd, SolidFill);
  }

  /** Programming for a solid fill loads the colour into the constant colour
      generator and sets up no blending. */
  lemma SolidFillColor(cmd: BltCmd)
    ensures SetFgColor(cmd.param.solidColor) in ProgramFor(cmd, SolidFill)
    ensures EnableAlpha(cmd.param.gAlpha) !in ProgramFor(cmd, SolidFill)
  {
    assert Rank(SetFgColor(cmd.param.solidColor)) == 1 && Rank(EnableAlpha(cmd.param.gAlpha)) == 3;
    InColorStage(cmd, SolidFill, SetFgColor(cmd.param.solidColor));
    InColorStage(cmd, SolidFill, EnableAlpha(cmd.param.gAlpha));
  }

  /** A command reduced to a solid fill loads its colour into the constant
      colour generator, points both ports at it and sets up no blending. */
  lemma SolidFillProgramming(cmd: BltCmd)
    requires FastOp(cmd) == SolidFill
    ensures SetSrcType(ImgFgColor) in ConfigureTrace(cmd) && SetDstType(ImgFgColor) in ConfigureTrace(cmd)
    ensures SetFgColor(cmd.param.solidColor) in ConfigureTrace(cmd)
    ensures EnableAlpha(cmd.param.gAlpha) !in ConfigureTrace(cmd)
  {
    SolidFillModes(cmd);
    SolidFillColor(cmd);
    InConfigureTrace(cmd, SetSrcType(ImgFgColor));
    InConfigureTrace(cmd, SetDstType(ImgFgColor));
    InConfigureTrace(cmd, SetFgColor(cmd.param.solidColor));
    InConfigureTrace(cmd, EnableAlpha(cmd.param.gAlpha));
  }

  /** A source-over of an opaque constant colour at full global alpha
      without a mask becomes a solid fill: both ports take the constant
      colour, no blending is set up, and neither a source nor a mask surface
      is programmed; the destination surface still is when it has an
      address. */
  lemma OpaqueConstantSrcOverFills(cmd: BltCmd)
    requires cmd.op == SrcOver && !cmd.src.Addressed() && !cmd.msk.Addressed()
    requires cmd.param.solidColor >= 0xff00_0000 && cmd.param.gAlpha == 0xff
    ensures FastOp(cmd) == SolidFill
    ensures SetSrcType(ImgFgColor) in ConfigureTrace(cmd) && SetDstType(ImgFgColor) in ConfigureTrace(cmd)
    ensures SetFgColor(cmd.param.solidColor) in ConfigureTrace(cmd)
    ensures EnableAlpha(cmd.param.gAlpha) !in ConfigureTrace(cmd)
    ensures SetSrcImage(cmd.src) !in ConfigureTrace(cmd) && SetMskImage(cmd.msk) !in ConfigureTrace(cmd)
    ensures SetDstImage(cmd.dst) in ConfigureTrace(cmd) <==> cmd.dst.Addressed()
  {
    ConstantSourceOpaque(cmd);
    assert FastOp(cmd) == SolidFill;
    SolidFillProgramming(cmd);
    ConfigureProgramsAddressedSurfaces(cmd);
  }

  /** A source-in onto a destination format with an alpha channel, without a
      mask, is not simplified: the full blend setup with SrcIn is programmed
      and the destination is read from memory. */
  lemma SrcInOntoAlphaDestinationBlends(cmd: BltCmd)
    requires cmd.op == SrcIn && cmd.dst.fmt == Argb8888 && !cmd.msk.Addressed()
    ensures FastOp(cmd) == SrcIn
    ensures SetAlphaComposite(SrcIn, cmd.param.gAlpha) in ConfigureTrace(cmd)
    ensures SetDstType(ImgMemory) in ConfigureTrace(cmd)
    ensures SetSrcType(if cmd.src.Addressed() then ImgMemory else ImgFgColor) in ConfigureTrace(cmd)
  {
    assert FastOp(cmd) == SrcIn;
    ConfigureSkipsOnlyForDst(cmd);
    ConfigureBlendsWithReducedOp(cmd);
  }
}
