# FIMG2D 4.x blitter: a verified model

This project models the blit engine of the Samsung Exynos FIMG2D 4.x 2D
graphics accelerator driver (`fimg2d4x_blt.c`). It covers:

- **The operator reducer.** `is_opaque` and `fast_op` rewrite a requested
  Porter-Duff operator into a cheaper one (SRC, DST, CLR or SOLID_FILL) when
  the alpha facts of the command allow it: opaque formats, a constant-colour
  source and full global alpha.
- **The configure pipeline.** `fimg2d4x_configure` resets the engine and picks
  the source and destination select modes from the reduced operator. It then
  programs the colour/blend stage, the source, mask and destination surfaces,
  bluescreen, rotation and dithering, always in that order. A DST result
  (a no-op) makes it stop right after the reset and return -1. Every register
  helper call is modelled as one event (`HwEvent`) appended to a trace.
- **The blitter loop.** `fimg2d4x_bitblt` drains the command queue one command
  at a time. A device error skips the hardware for all later commands. Each
  command marks the engine busy, is configured, is started (`fimg2d4x_run`)
  and is waited for (`fimg2d4x_blit_wait`). The command is then deleted, and
  its context is woken when it has no more commands in flight. The completion
  interrupt handler `fimg2d4x_stop` clears `busy` once the blit is done.

Layout:

- `types.dfy` (module `Fimg2d`): commands, images, parameters and register events.
- `operator_reducer.dfy` (module `OperatorReducer`): `IsOpaque` and `FastOp`. It
  also gives an independent Porter-Duff factor semantics, which is used to prove
  that every reduction keeps the blend weights.
- `config_pipeline.dfy` (module `ConfigPipeline`): `ConfigureTrace`, the event
  trace of one `configure` call, built stage by stage. Every event has a stage
  rank, and the lemmas show that the trace is strictly ordered by rank. The
  module also proves what is programmed and under which condition.
- `blitter.dfy` (module `Blitter`): the engine state as a value (`Engine`).
  The functions `Execute`, `Step` and `Drain` specify one command, one loop
  iteration and the whole loop. The class `Fimg2dControl` holds the driver's
  mutable state (`busy`, `err`, `active`, the queue, the per-context command
  counts, the register trace and the woken contexts). Its methods `Configure`,
  `Run`, `Stop`, `BlitWait` and `Bitblt` are proved against those functions.

The hardware's behaviour is an oracle `hw: nat -> HwOutcome`, indexed by the
number of commands dequeued so far. Each command's blit can finish in time,
finish only when the status is rechecked after the timeout, or hang.

## Model

All source paths are under `drivers/media/video/exynos/fimg2d/`.

| member | source | states |
|---|---|---|
| OperatorReducer.IsOpaque | drivers/media/video/exynos/fimg2d/fimg2d4x_blt.c:105-116 | a format counts as opaque exactly when it is not one of ARGB_8888, ARGB_1555, ARGB_4444 |
| OperatorReducer.SrcAlpha | drivers/media/video/exynos/fimg2d/fimg2d4x_blt.c:132-138 | the assumed source alpha lies in 0..255; for a source with an address it is 0xff exactly when the source format is opaque |
| OperatorReducer.ConstantSourceOpaque | drivers/media/video/exynos/fimg2d/fimg2d4x_blt.c:135-136 | a source without an address counts as opaque exactly when its solid colour is at least 0xff000000 |
| OperatorReducer.FastOp | drivers/media/video/exynos/fimg2d/fimg2d4x_blt.c:118-189 | a command with a mask keeps its operator; any other result is the requested operator or one of SRC, DST, CLR, SOLID_FILL. Its parts are `AlphaByte` (line 136), `SrcAlpha`, `DstAlpha` (line 133) and `SwitchedOp` (the switch at 140-183) |
| OperatorReducer.FastOpYieldsDst | drivers/media/video/exynos/fimg2d/fimg2d4x_blt.c:129-183 | the result is DST exactly when DST was requested, or there is no mask and one of these holds: DST_OVER with an opaque destination; DST_IN with an opaque source at global alpha 255; DST_ATOP with all three opaque |
| OperatorReducer.FastOpYieldsClr | drivers/media/video/exynos/fimg2d/fimg2d4x_blt.c:129-183 | the result is CLR exactly when CLR was requested, or there is no mask and one of these holds: SRC_OUT with an opaque destination; DST_OUT with an opaque source at global alpha 255 |
| OperatorReducer.FastOpYieldsSrc | drivers/media/video/exynos/fimg2d/fimg2d4x_blt.c:129-188 | the result is SRC exactly when the switch yields SRC (or SRC was requested, or a mask is present) and the solid-fill upgrade does not apply |
| OperatorReducer.FastOpYieldsSolidFill | drivers/media/video/exynos/fimg2d/fimg2d4x_blt.c:185-188 | the result is SOLID_FILL exactly when SOLID_FILL was requested, or an unmasked command would reduce to SRC while its source has no address and its global alpha is 255 |
| OperatorReducer.FastOpIdempotent | drivers/media/video/exynos/fimg2d/fimg2d4x_blt.c:118-189 | reducing an already reduced command changes nothing |
| OperatorReducer.FastOpPreservesBlend | drivers/media/video/exynos/fimg2d/fimg2d4x_blt.c:140-186 | for every pixel pair consistent with the opacity facts, the reduced operator has the same Porter-Duff source and destination weights as the requested one |
| ConfigPipeline.SrcSel | drivers/media/video/exynos/fimg2d/fimg2d4x_blt.c:209-228 | the source port reads the foreground colour exactly for SOLID_FILL, for CLR, or when the source has no address |
| ConfigPipeline.DstSel | drivers/media/video/exynos/fimg2d/fimg2d4x_blt.c:209-231 | the destination port reads the foreground colour exactly for SOLID_FILL, CLR and SRC |
| ConfigPipeline.ColorSetup | drivers/media/video/exynos/fimg2d/fimg2d4x_blt.c:213-238 | the colour stage stays in ranks 1..5 in order; SOLID_FILL programs only the foreground colour, and CLR only a fill with 0 |
| ConfigPipeline.BlendSetup | drivers/media/video/exynos/fimg2d/fimg2d4x_blt.c:224-236 | the general-operator colour and blend events stay in ranks 1..5, in order; what they contain is stated by ColorStageContents |
| ConfigPipeline.ModeSetup | drivers/media/video/exynos/fimg2d/fimg2d4x_blt.c:213-241 | the colour stage is followed by exactly two events: the source type, then the destination type |
| ConfigPipeline.SrcSetup | drivers/media/video/exynos/fimg2d/fimg2d4x_blt.c:243-250 | the source stage is ordered, and non-empty exactly when the source has an address; its contents are stated by SrcStageContents |
| ConfigPipeline.MskSetup | drivers/media/video/exynos/fimg2d/fimg2d4x_blt.c:252-260 | the mask stage is ordered, and non-empty exactly when the mask has an address; its contents are stated by MskStageContents |
| ConfigPipeline.DstSetup | drivers/media/video/exynos/fimg2d/fimg2d4x_blt.c:262-268 | the destination stage is ordered, and non-empty exactly when the destination has an address; its contents are stated by DstStageContents |
| ConfigPipeline.PostSetup | drivers/media/video/exynos/fimg2d/fimg2d4x_blt.c:270-280 | bluescreen, rotation and dithering come last, in that order; which of them occur is stated by PostStageContents |
| ConfigPipeline.SurfaceSetup | drivers/media/video/exynos/fimg2d/fimg2d4x_blt.c:243-268 | the source, mask and destination stages come in that order |
| ConfigPipeline.ProgramFor | drivers/media/video/exynos/fimg2d/fimg2d4x_blt.c:213-280 | everything programmed after the reset is strictly ordered by stage, and begins with the mode setup |
| ConfigPipeline.ConfigureTrace | drivers/media/video/exynos/fimg2d/fimg2d4x_blt.c:191-283 | configure always begins with a reset |
| ConfigPipeline.ConfigureInFixedOrder | drivers/media/video/exynos/fimg2d/fimg2d4x_blt.c:191-283 | configure's register calls are in strictly increasing stage order, with no interrupt or start events among them |
| ConfigPipeline.ConfigureSkipsOnlyForDst | drivers/media/video/exynos/fimg2d/fimg2d4x_blt.c:206-241 | configure issues only the reset exactly when the reduced operator is DST; otherwise it programs both select modes |
| ConfigPipeline.ProgramSelectsModes | drivers/media/video/exynos/fimg2d/fimg2d4x_blt.c:240-241 | both the source and the destination select are always programmed |
| ConfigPipeline.ColorSetupBlends | drivers/media/video/exynos/fimg2d/fimg2d4x_blt.c:213-237 | alpha compositing is programmed exactly for operators other than SOLID_FILL and CLR; premultiplied compensation, in addition, exactly for non-premultiplied input |
| ConfigPipeline.ProgramBlendsWith | drivers/media/video/exynos/fimg2d/fimg2d4x_blt.c:233-234 | the programmed stages contain the alpha-composite event exactly for operators other than SOLID_FILL and CLR |
| ConfigPipeline.ProgramCompensatesPremult | drivers/media/video/exynos/fimg2d/fimg2d4x_blt.c:235-236 | the premultiplied event is programmed exactly for a blending operator with non-premultiplied input |
| ConfigPipeline.SurfaceSetupAddressed | drivers/media/video/exynos/fimg2d/fimg2d4x_blt.c:243-268 | each of the source, mask and destination images is set exactly when it has an address |
| ConfigPipeline.ProgramSetsAddressedSurfaces | drivers/media/video/exynos/fimg2d/fimg2d4x_blt.c:243-268 | the same holds for all the stages after the reset |
| ConfigPipeline.ConfigureBlendsWithReducedOp | drivers/media/video/exynos/fimg2d/fimg2d4x_blt.c:211-237 | configure programs alpha compositing with the reduced operator exactly when that operator is not SOLID_FILL, CLR or DST; premultiplied compensation exactly when, in addition, the input is non-premultiplied |
| ConfigPipeline.ConfigureProgramsAddressedSurfaces | drivers/media/video/exynos/fimg2d/fimg2d4x_blt.c:222-268 | configure sets each image exactly when the reduced operator is not DST and that image has an address |
| ConfigPipeline.ColorStageContents | drivers/media/video/exynos/fimg2d/fimg2d4x_blt.c:213-237 | the colour stage loads the solid colour exactly for SOLID_FILL or for a blending operator whose source has no address; it loads the zero fill exactly for CLR; it enables global alpha exactly for operators other than SOLID_FILL and CLR |
| ConfigPipeline.SrcStageContents | drivers/media/video/exynos/fimg2d/fimg2d4x_blt.c:243-250 | the source rectangle and repeat mode are set exactly for an addressed source; source scaling exactly when, in addition, a scaling mode is requested |
| ConfigPipeline.MskStageContents | drivers/media/video/exynos/fimg2d/fimg2d4x_blt.c:252-260 | the mask unit is enabled, and the mask rectangle and repeat mode set, exactly for an addressed mask; mask scaling exactly when, in addition, a scaling mode is requested |
| ConfigPipeline.DstStageContents | drivers/media/video/exynos/fimg2d/fimg2d4x_blt.c:262-268 | the destination rectangle is set exactly for an addressed destination; clipping exactly when, in addition, clipping is enabled |
| ConfigPipeline.PostStageContents | drivers/media/video/exynos/fimg2d/fimg2d4x_blt.c:270-280 | bluescreen exactly for a non-zero bluescreen mode, rotation exactly for a non-zero rotation, dithering exactly when dithering is requested |
| ConfigPipeline.ConfigureLoadsColors | drivers/media/video/exynos/fimg2d/fimg2d4x_blt.c:211-237 | configure loads the solid colour exactly when the reduced operator is SOLID_FILL, or is a blending operator (not CLR or DST) and the source has no address; it loads the zero fill exactly for CLR; it enables global alpha exactly when the reduced operator is not SOLID_FILL, CLR or DST |
| ConfigPipeline.ConfigureSrcStage | drivers/media/video/exynos/fimg2d/fimg2d4x_blt.c:243-250 | configure sets the source rectangle and repeat mode exactly when the command is not skipped and the source has an address; source scaling exactly when, in addition, scaling is requested |
| ConfigPipeline.ConfigureMskStage | drivers/media/video/exynos/fimg2d/fimg2d4x_blt.c:252-260 | configure enables the mask and sets its rectangle and repeat mode exactly when the command is not skipped and the mask has an address; mask scaling exactly when, in addition, scaling is requested |
| ConfigPipeline.ConfigureDstStage | drivers/media/video/exynos/fimg2d/fimg2d4x_blt.c:262-268 | configure sets the destination rectangle exactly when the command is not skipped and the destination has an address; clipping exactly when, in addition, clipping is enabled |
| ConfigPipeline.ConfigurePostStages | drivers/media/video/exynos/fimg2d/fimg2d4x_blt.c:270-280 | configure programs the bluescreen, the rotation and dithering each exactly when the command is not skipped and that stage is requested |
| ConfigPipeline.SolidFillModes | drivers/media/video/exynos/fimg2d/fimg2d4x_blt.c:214-215 | a solid fill selects the foreground colour for both ports |
| ConfigPipeline.SolidFillColor | drivers/media/video/exynos/fimg2d/fimg2d4x_blt.c:214-217 | a solid fill programs the solid colour and does not enable global alpha |
| ConfigPipeline.SolidFillProgramming | drivers/media/video/exynos/fimg2d/fimg2d4x_blt.c:211-241 | when the reduced operator is SOLID_FILL, configure selects the foreground colour for both ports, programs the solid colour and does not enable alpha |
| ConfigPipeline.OpaqueConstantSrcOverFills | drivers/media/video/exynos/fimg2d/fimg2d4x_blt.c:211-268 | an unmasked SRC_OVER from an opaque constant colour at global alpha 255 becomes a solid fill; no source or mask image is set, and the destination image is set exactly when it has an address |
| ConfigPipeline.SrcInOntoAlphaDestinationBlends | drivers/media/video/exynos/fimg2d/fimg2d4x_blt.c:211-241 | an unmasked SRC_IN onto an ARGB_8888 destination is kept, blended with SRC_IN and written to a destination in memory |
| Blitter.Stopped | drivers/media/video/exynos/fimg2d/fimg2d4x_blt.c:293-302 | stop clears busy exactly when the blit is done, and leaves err alone |
| Blitter.Wait | drivers/media/video/exynos/fimg2d/fimg2d4x_blt.c:36-45 | after the wait, err is set exactly when it was set already or the blit hung; busy is cleared only by completion in time; queue, counts and wake-ups are unchanged |
| Blitter.Delete | drivers/media/video/exynos/fimg2d/fimg2d4x_blt.c:86-87 | deleting drops the queue head and lowers its context's count to the number of its commands still queued |
| Blitter.Retire | drivers/media/video/exynos/fimg2d/fimg2d4x_blt.c:86-91 | after the deletion, the owner is woken exactly when it has no command left in the queue |
| Blitter.Execute | drivers/media/video/exynos/fimg2d/fimg2d4x_blt.c:67-85 | one command's hardware phase: nothing happens after an earlier error; otherwise err is set exactly when the command runs and hangs, and busy stays set exactly when the command is a no-op or did not complete in time |
| Blitter.Step | drivers/media/video/exynos/fimg2d/fimg2d4x_blt.c:66-92 | one loop iteration consumes the queue head and keeps the counts consistent; err and busy as for Execute; the owner is woken exactly when none of its commands remain |
| Blitter.Drain | drivers/media/video/exynos/fimg2d/fimg2d4x_blt.c:66-92 | the loop empties the queue and leaves every context with a count of zero |
| Blitter.ConfigureDoesNotStart | drivers/media/video/exynos/fimg2d/fimg2d4x_blt.c:191-283 | configure never starts the engine |
| Blitter.IssuedStartsOnce | drivers/media/video/exynos/fimg2d/fimg2d4x_blt.c:75-84 | a command that is configured and run starts the engine once if its reduced operator is not DST, and never otherwise |
| Blitter.StepStartsOnlyRunnable | drivers/media/video/exynos/fimg2d/fimg2d4x_blt.c:66-92 | one iteration starts the engine once when there is no error and the reduced operator is not DST, and never otherwise |
| Blitter.DrainStartsEachRunOnce | drivers/media/video/exynos/fimg2d/fimg2d4x_blt.c:66-92 | the loop starts the engine exactly once per command it actually runs, that is, per non-DST command dequeued before the first hang |
| Blitter.OpaqueDstAtopIsSkipped | drivers/media/video/exynos/fimg2d/fimg2d4x_blt.c:73-77 | an unmasked DST_ATOP with opaque source and destination at global alpha 255 reduces to DST: only a reset is issued, the engine is not started, busy stays set, no error arises and the command is dequeued |
| Blitter.HangSkipsLaterCommands | drivers/media/video/exynos/fimg2d/fimg2d4x_blt.c:36-45 | when the first command hangs, the loop ends with err and busy set, having issued nothing after that command's configure and run |
| Blitter.DrainAfterErrorSkipsHardware | drivers/media/video/exynos/fimg2d/fimg2d4x_blt.c:68-71 | once err is set, the loop issues nothing more and leaves busy alone |
| Blitter.DrainErrorExactly | drivers/media/video/exynos/fimg2d/fimg2d4x_blt.c:36-92 | the loop ends with err set exactly when err was set already or some queued command runs and hangs |
| Blitter.DrainWakesLastOwners | drivers/media/video/exynos/fimg2d/fimg2d4x_blt.c:86-91 | the loop wakes each context when its last queued command is deleted, in that order |
| Blitter.LastOwnersAreOwners | drivers/media/video/exynos/fimg2d/fimg2d4x_blt.c:89-91 | a context is woken exactly when it owns some queued command |
| Blitter.LastOwnersDistinct | drivers/media/video/exynos/fimg2d/fimg2d4x_blt.c:89-91 | no context is woken twice |
| Blitter.Fimg2dControl.Configure | drivers/media/video/exynos/fimg2d/fimg2d4x_blt.c:191-283 | returns -1 exactly when the reduced operator is DST, else 0, and appends exactly the configure trace |
| Blitter.Fimg2dControl.ProgramSrc | drivers/media/video/exynos/fimg2d/fimg2d4x_blt.c:243-250 | appends exactly the source stage |
| Blitter.Fimg2dControl.ProgramMsk | drivers/media/video/exynos/fimg2d/fimg2d4x_blt.c:252-260 | appends exactly the mask stage |
| Blitter.Fimg2dControl.ProgramDst | drivers/media/video/exynos/fimg2d/fimg2d4x_blt.c:262-268 | appends exactly the destination stage |
| Blitter.Fimg2dControl.ProgramPostStages | drivers/media/video/exynos/fimg2d/fimg2d4x_blt.c:270-280 | appends exactly the bluescreen, rotation and dithering stage |
| Blitter.Fimg2dControl.Run | drivers/media/video/exynos/fimg2d/fimg2d4x_blt.c:285-291 | appends enable-irq, clear-irq, start, in that order |
| Blitter.Fimg2dControl.Stop | drivers/media/video/exynos/fimg2d/fimg2d4x_blt.c:293-302 | the new state is the stop transition of the old one |
| Blitter.Fimg2dControl.BlitWait | drivers/media/video/exynos/fimg2d/fimg2d4x_blt.c:36-45 | the new state is the wait transition of the old one |
| Blitter.Fimg2dControl.Dispatch | drivers/media/video/exynos/fimg2d/fimg2d4x_blt.c:73-84 | the new state is Execute of the old one |
| Blitter.Fimg2dControl.DelCommand | drivers/media/video/exynos/fimg2d/fimg2d4x_blt.c:86-87 | the new state is Delete of the old one |
| Blitter.Fimg2dControl.BlitHead | drivers/media/video/exynos/fimg2d/fimg2d4x_blt.c:67-91 | the new state is Step of the old one; `active` is outside its frame, so one iteration leaves it unchanged |
| Blitter.Fimg2dControl.Bitblt | drivers/media/video/exynos/fimg2d/fimg2d4x_blt.c:52-103 | the new state is Drain of the old one (so every property proved about Drain holds of the driver loop), and active is cleared |

## Left out

- Clock gating (`fimg2d_clk_on`/`off`) and `pm_runtime_get_sync`/`put_sync` have no effect on the modelled state.
- Waiting, waking and interrupts are concurrency, which is not modelled. The wait's outcome comes from the oracle `hw`. Completion in time is modelled as the interrupt handler running `stop` with the blit done inside the wait.
- `wake_up_all` and `wake_up` of the wait queues are recorded as the list of woken contexts. The wake-up inside `stop` is not recorded.
- The register helpers (`fimg2d4x_set_*`, `fimg2d4x_reset`, …) are recorded as trace events, not as register values. DMA addresses (`cmd->dma[...]`) are dropped.
- The 2-second timeout value, `fimg2d_dump_command`, the trace points, `printk` and the debug output are left out.
- `fimg2d4x_pre_bitblt` has an empty body and is left out.
- `fimg2d4x_dump` only dumps the registers for diagnostics (through `fimg2d4x_dump_regs`) and is left out.
- `fimg2d_register_ops` only installs the function pointers and is left out. The model calls the methods directly.
- `fimg2d_get_first_command` and `fimg2d_del_command` (in fimg2d_ctx.c) are not part of this model. They are modelled by their interface: the queue head, then dropping it and lowering the owner's `ncmd`.
- `fimg2d.h` is not part of this model. Pixel formats and operators other than the ones the blitter names are carried as codes (`OtherFormat`, `OtherOp`).
- Setting `active` to 1 happens in the caller, outside this file. The model only clears it at the end of `Bitblt`.
- Behaviour of the code that a reader may not expect, which the model keeps:
  - `busy` stays set after a command that reduces to DST, because configure returns before the run. It also stays set after a blit that only completes on the recheck following the timeout.
  - SOLID_FILL is also the result when SOLID_FILL itself was requested.
  - In the opaque constant-colour SRC_OVER case the destination surface is still programmed when it has an address.
