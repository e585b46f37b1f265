/** Values the FIMG2D 4.x blitter works on: blit commands, their images and
    parameters, and the register-programming events the blitter issues. */
module Fimg2d {

  newtype u8 = x: int | 0 <= x < 0x100
  newtype u32 = x: int | 0 <= x < 0x1_0000_0000

  /** Pixel formats. The blitter only tells apart the three formats that carry
      an alpha channel; every other format is represented by its code. */
  datatype ColorFormat = Argb8888 | Argb1555 | Argb4444 | OtherFormat(code: nat)

  /** Compositing operators: the Porter-Duff operators, the two synthetic
      shortcuts (SolidFill, Clr) and, by code, the rest of the enumeration. */
  datatype BlitOp =
    | SolidFill | Clr | Src | Dst
    | SrcOver | DstOver | SrcIn | DstIn | SrcOut | DstOut | SrcAtop | DstAtop
    | OtherOp(code: nat)

  datatype Rect = Rect(x1: int, y1: int, x2: int, y2: int)

  /** An image slot of a command. Address type 0 is "no address": the image is
      not backed by memory (for a source, the constant colour stands in). */
  datatype Image = Image(addrType: nat, fmt: ColorFormat, rect: Rect)
  {
    predicate Addressed() { addrType != 0 }
  }

  datatype Premult = Premultiplied | NonPremultiplied
  datatype Repeat = Repeat(mode: nat)
  datatype Scaling = Scaling(mode: nat)
  datatype Clipping = Clipping(enable: bool, rect: Rect)
  datatype Bluescreen = Bluescreen(mode: nat)

  datatype Param = Param(
    solidColor: u32,
    gAlpha: u8,
    premult: Premult,
    repeat: Repeat,
    scaling: Scaling,
    clipping: Clipping,
    bluscr: Bluescreen,
    rotate: nat,
    dither: bool)

  /** Identity of the submission context that owns a command. */
  type CtxId = nat

  datatype BltCmd = BltCmd(
    op: BlitOp,
    param: Param,
    src: Image,
    msk: Image,
    dst: Image,
    seqNo: nat,
    ctx: CtxId)

  /** Data source of the source or destination read port. */
  datatype ImageSel = ImgMemory | ImgFgColor

  /** One call into the register layer, in the order the blitter issues it. */
  datatype HwEvent =
    | Reset
    | SetFgColor(color: u32)
    | SetColorFill(fill: u32)
    | EnableAlpha(ga: u8)
    | SetAlphaComposite(op: BlitOp, ga: u8)
    | SetPremultiplied
    | SetSrcType(srcSel: ImageSel)
    | SetDstType(dstSel: ImageSel)
    | SetSrcImage(srcImg: Image)
    | SetSrcRect(srcRect: Rect)
    | SetSrcRepeat(srcRepeat: Repeat)
    | SetSrcScaling(srcScaling: Scaling, srcScalingRepeat: Repeat)
    | EnableMsk
    | SetMskImage(mskImg: Image)
    | SetMskRect(mskRect: Rect)
    | SetMskRepeat(mskRepeat: Repeat)
    | SetMskScaling(mskScaling: Scaling, mskScalingRepeat: Repeat)
    | SetDstImage(dstImg: Image)
    | SetDstRect(dstRect: Rect)
    | EnableClipping(clip: Clipping)
    | SetBluescreen(bluscr: Bluescreen)
    | SetRotation(rotate: nat)
    | EnableDithering
    | EnableIrq
    | ClearIrq
    | StartBlit
    | DisableIrq
}
