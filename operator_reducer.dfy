/** The operator reducer: rewrites a requested compositing operator into a
    cheaper equivalent one when the alpha facts of the command allow it. */
module OperatorReducer {
  import opened Fimg2d

  /** A format without an alpha channel makes every pixel fully opaque. */
  function IsOpaque(fmt: ColorFormat): (noAlpha: bool)
    ensures !noAlpha <==> fmt in {Argb8888, Argb1555, Argb4444}
  {
    match fmt
    case Argb8888 | Argb1555 | Argb4444 => false
    case OtherFormat(_) => true
  }

  /** Top byte of a 32-bit ARGB colour. */
  function AlphaByte(color: u32): (a: int)
    ensures 0 <= a <= 0xff
  {
    (color as int / 0x100_0000) % 0x100
  }

  /** The source alpha the reducer assumes: the constant colour's alpha byte
      for a source without an address, else 0xff or 0 by its format. */
  function SrcAlpha(cmd: BltCmd): (sa: int)
    ensures 0 <= sa <= 0xff
    ensures cmd.src.Addressed() ==> (sa == 0xff <==> IsOpaque(cmd.src.fmt))
  {
    if !cmd.src.Addressed() then AlphaByte(cmd.param.solidColor)
    else if IsOpaque(cmd.src.fmt) then 0xff else 0
  }

  /** The destination alpha the reducer assumes: 0xff or 0 by its format. */
  function DstAlpha(cmd: BltCmd): (da: int)
  {
    if IsOpaque(cmd.dst.fmt) then 0xff else 0
  }

  predicate SrcOpaque(cmd: BltCmd) { SrcAlpha(cmd) == 0xff }
  predicate DstOpaque(cmd: BltCmd) { DstAlpha(cmd) == 0xff }
  predicate GlobalOpaque(cmd: BltCmd) { cmd.param.gAlpha == 0xff }

  /** The operator after the Porter-Duff simplification switch, before the
      solid-fill upgrade (only meaningful when there is no mask). */
  function SwitchedOp(cmd: BltCmd): (fop: BlitOp)
  {
    var sa, da, ga := SrcOpaque(cmd), DstOpaque(cmd), GlobalOpaque(cmd);
    match cmd.op
    case SrcOver => if sa && ga then Src else cmd.op
    case DstOver => if da then Dst else cmd.op
    case SrcIn => if da then Src else cmd.op
    case DstIn => if sa && ga then Dst else cmd.op
    case SrcOut => if da then Clr else cmd.op
    case DstOut => if sa && ga then Clr else cmd.op
    case SrcAtop => if sa && da && ga then Src else cmd.op
    case DstAtop => if sa && da && ga then Dst else cmd.op
    case _ => cmd.op
  }

  /** The reduced operator. A masked command keeps its operator; otherwise the
      result is the requested operator or one of Src, Dst, Clr, SolidFill. */
  function FastOp(cmd: BltCmd): (r: BlitOp)
    ensures cmd.msk.Addressed() ==> r == cmd.op
    ensures r == cmd.op || r in {Src, Dst, Clr, SolidFill}
  {
    if cmd.msk.Addressed() then cmd.op
    else
      var fop := SwitchedOp(cmd);
      if fop == Src && !cmd.src.Addressed() && GlobalOpaque(cmd) then SolidFill else fop
  }

  /** A constant-colour source counts as opaque exactly when its colour is at
      least 0xff000000, i.e. its alpha byte is 0xff. */
  lemma ConstantSourceOpaque(cmd: BltCmd)
    requires !cmd.src.Addressed()
    ensures SrcOpaque(cmd) <==> cmd.param.solidColor >= 0xff00_0000
  {
    var c := cmd.param.solidColor as int;
    assert c / 0x100_0000 < 0x100;
    if c >= 0xff00_0000 {
      assert c / 0x100_0000 >= 0xff;
    } else {
      assert c / 0x100_0000 < 0xff;
    }
  }

  /** Where a Dst (no-op) result comes from. */
  lemma FastOpYieldsDst(cmd: BltCmd)
    ensures FastOp(cmd) == Dst <==>
      cmd.op == Dst ||
      (!cmd.msk.Addressed() &&
        ((cmd.op == DstOver && DstOpaque(cmd)) ||
         (cmd.op == DstIn && SrcOpaque(cmd) && GlobalOpaque(cmd)) ||
         (cmd.op == DstAtop && SrcOpaque(cmd) && DstOpaque(cmd) && GlobalOpaque(cmd))))
  {
  }

  /** Where a Clr result comes from. */
  lemma FastOpYieldsClr(cmd: BltCmd)
    ensures FastOp(cmd) == Clr <==>
      cmd.op == Clr ||
      (!cmd.msk.Addressed() &&
        ((cmd.op == SrcOut && DstOpaque(cmd)) ||
         (cmd.op == DstOut && SrcOpaque(cmd) && GlobalOpaque(cmd))))
  {
  }

  /** The switch produces Src exactly under these conditions. */
  predicate SimplifiesToSrc(cmd: BltCmd)
  {
    cmd.op == Src ||
    (cmd.op == SrcOver && SrcOpaque(cmd) && GlobalOpaque(cmd)) ||
    (cmd.op == SrcIn && DstOpaque(cmd)) ||
    (cmd.op == SrcAtop && SrcOpaque(cmd) && DstOpaque(cmd) && GlobalOpaque(cmd))
  }

  /** SolidFill is returned when requested, or as the upgrade of a Src result
      for a constant-colour source at full global alpha without a mask. */
  lemma FastOpYieldsSolidFill(cmd: BltCmd)
    ensures FastOp(cmd) == SolidFill <==>
      cmd.op == SolidFill ||
      (!cmd.msk.Addressed() && !cmd.src.Addressed() && GlobalOpaque(cmd) && SimplifiesToSrc(cmd))
  {
  }

  /** Src is returned when the switch yields Src and the upgrade does not apply. */
  lemma FastOpYieldsSrc(cmd: BltCmd)
    ensures FastOp(cmd) == Src <==>
      (cmd.op == Src && (cmd.msk.Addressed() || cmd.src.Addressed() || !GlobalOpaque(cmd))) ||
      (!cmd.msk.Addressed() && SimplifiesToSrc(cmd) && (cmd.src.Addressed() || !GlobalOpaque(cmd)))
  {
  }

  /** Reducing an already reduced command changes nothing. */
  lemma FastOpIdempotent(cmd: BltCmd)
    ensures FastOp(cmd.(op := FastOp(cmd))) == FastOp(cmd)
  {
  }

  // ---------------------------------------------------------------------
  // Porter-Duff semantics: result = Fa * source + Fb * destination, with the
  // factors on the scale 0..255 (255 stands for 1).

  datatype Factor = Zero | One | SrcA | InvSrcA | DstA | InvDstA

  function Eval(f: Factor, sa: int, da: int): (w: int)
  {
    match f
    case Zero => 0
    case One => 0xff
    case SrcA => sa
    case InvSrcA => 0xff - sa
    case DstA => da
    case InvDstA => 0xff - da
  }

  predicate IsPorterDuff(op: BlitOp) { !op.OtherOp? }

  /** The (Fa, Fb) factor pair of each Porter-Duff operator. A solid fill is
      Src with the constant colour as the source. */
  function Factors(op: BlitOp): (fab: (Factor, Factor))
    requires IsPorterDuff(op)
  {
    match op
    case SolidFill => (One, Zero)
    case Src => (One, Zero)
    case Dst => (Zero, One)
    case Clr => (Zero, Zero)
    case SrcOver => (One, InvSrcA)
    case DstOver => (InvDstA, One)
    case SrcIn => (DstA, Zero)
    case DstIn => (Zero, SrcA)
    case SrcOut => (InvDstA, Zero)
    case DstOut => (Zero, InvSrcA)
    case SrcAtop => (DstA, InvSrcA)
    case DstAtop => (InvDstA, SrcA)
  }

  /** The blend weights an operator gives a pixel pair, whose source alpha (after
      global alpha) is sa and whose destination alpha is da. */
  function Weights(op: BlitOp, sa: int, da: int): (w: (int, int))
    requires IsPorterDuff(op)
  {
    (Eval(Factors(op).0, sa, da), Eval(Factors(op).1, sa, da))
  }

  /** The reduction is sound: for every pixel pair consistent with the opacity
      facts the reducer relied on, the reduced operator blends with the same
      weights as the requested one. */
  lemma FastOpPreservesBlend(cmd: BltCmd, sa: int, da: int)
    requires IsPorterDuff(cmd.op)
    requires 0 <= sa <= 0xff && 0 <= da <= 0xff
    requires SrcOpaque(cmd) && GlobalOpaque(cmd) ==> sa == 0xff
    requires DstOpaque(cmd) ==> da == 0xff
    ensures IsPorterDuff(FastOp(cmd))
    ensures Weights(FastOp(cmd), sa, da) == Weights(cmd.op, sa, da)
  {
  }
}
