/** The blitter: the single drain loop that takes commands off the queue,
    configures and starts the engine, waits for completion, and retires each
    command, with the busy flag and the sticky device-error flag. */
module Blitter {
  import opened Fimg2d
  import opened OperatorReducer
  import opened ConfigPipeline

  /** What the hardware does with one started blit: the completion interrupt
      arrives within the timeout, or the wait times out and the done-status
      re-check finds it finished, or finds it still running. */
  datatype HwOutcome = DoneInTime | DoneOnRecheck | Hung

  /** The blitter state the drain loop reads and writes. */
  datatype Engine = Engine(
    busy: bool,
    err: bool,
    queue: seq<BltCmd>,
    ncmd: map<CtxId, nat>,
    trace: seq<HwEvent>,
    woken: seq<CtxId>)

  /** Number of queued commands owned by context c. */
  function Count(q: seq<BltCmd>, c: CtxId): (n: nat)
    ensures n <= |q|
  {
    if q == [] then 0 else (if q[0].ctx == c then 1 else 0) + Count(q[1..], c)
  }

  /** Every queued command's context has a counter, and each counter holds
      the number of that context's commands still queued. */
  ghost predicate Consistent(e: Engine)
  {
    (forall c :: Count(e.queue, c) > 0 ==> c in e.ncmd) &&
    (forall c :: c in e.ncmd ==> e.ncmd[c] == Count(e.queue, c))
  }

  /** Stop: on a finished blit, interrupts off and cleared and busy dropped. */
  function Stopped(e: Engine, blitDone: bool): (r: Engine)
    ensures r.busy == (e.busy && !blitDone) && r.err == e.err
  {
    if blitDone then e.(busy := false, trace := e.trace + StopTrace) else e
  }

  /** The bounded wait: busy is cleared only by stop on completion; after a
      timeout a failed re-check sets the sticky error. */
  function Wait(e: Engine, o: HwOutcome): (r: Engine)
    ensures r.err <==> e.err || o == Hung
    ensures r.busy <==> e.busy && o != DoneInTime
    ensures r.queue == e.queue && r.ncmd == e.ncmd && r.woken == e.woken
  {
    match o
    case DoneInTime => Stopped(e, true)
    case DoneOnRecheck => e
    case Hung => e.(err := true)
  }

  /** Delete the head command: it leaves the queue and its context has one
      command fewer in flight. */
  function Delete(e: Engine): (r: Engine)
    requires Consistent(e) && e.queue != []
    ensures Consistent(r)
    ensures r.queue == e.queue[1..] && r.ncmd.Keys == e.ncmd.Keys
    ensures r.ncmd[e.queue[0].ctx] == Count(e.queue[1..], e.queue[0].ctx)
    ensures r.busy == e.busy && r.err == e.err && r.trace == e.trace && r.woken == e.woken
  {
    var c := e.queue[0].ctx;
    e.(queue := e.queue[1..], ncmd := e.ncmd[c := e.ncmd[c] - 1])
  }

  /** Delete the head command and wake its context if that was its last one. */
  function Retire(e: Engine): (r: Engine)
    requires Consistent(e) && e.queue != []
    ensures Consistent(r)
    ensures r.queue == e.queue[1..] && r.ncmd.Keys == e.ncmd.Keys
    ensures r.busy == e.busy && r.err == e.err && r.trace == e.trace
    ensures r.woken == e.woken + (if Count(e.queue[1..], e.queue[0].ctx) > 0 then [] else [e.queue[0].ctx])
  {
    var c := e.queue[0].ctx;
    var d := Delete(e);
    if d.ncmd[c] == 0 then d.(woken := d.woken + [c]) else d
  }

  /** A command runs on the hardware and hangs: it is configured (the
      reduced operator is not the no-op Dst) and the hardware hangs. */
  predicate RunsAndHangs(cmd: BltCmd, o: HwOutcome)
  {
    FastOp(cmd) != Dst && o == Hung
  }

  /** Some command of q, whose i-th hardware outcome is hw(k + i), is started
      on the hardware and hangs. */
  predicate SomeCommandHangs(q: seq<BltCmd>, hw: nat -> HwOutcome, k: nat)
    decreases |q|
  {
    q != [] && (RunsAndHangs(q[0], hw(k)) || SomeCommandHangs(q[1..], hw, k + 1))
  }

  /** The hardware part of one iteration on the head command: nothing once
      the device error is set; otherwise busy is set and the command
      configured, and unless configure reports the no-op Dst, the blit is
      started and waited for. */
  function Execute(e: Engine, o: HwOutcome): (r: Engine)
    requires e.queue != []
    ensures r.queue == e.queue && r.ncmd == e.ncmd && r.woken == e.woken
    ensures r.err <==> e.err || RunsAndHangs(e.queue[0], o)
    ensures e.err ==> r == e
    ensures !e.err ==> (r.busy <==> FastOp(e.queue[0]) == Dst || o != DoneInTime)
  {
    var cmd := e.queue[0];
    if e.err then e
    else
      var configured := e.(busy := true, trace := e.trace + ConfigureTrace(cmd));
      if FastOp(cmd) == Dst then configured
      else Wait(configured.(trace := configured.trace + RunTrace), o)
  }

  /** One drain-loop iteration on the head command, given the hardware outcome. */
  function Step(e: Engine, o: HwOutcome): (r: Engine)
    requires Consistent(e) && e.queue != []
    ensures Consistent(r) && r.queue == e.queue[1..] && r.ncmd.Keys == e.ncmd.Keys
    ensures r.err <==> e.err || RunsAndHangs(e.queue[0], o)
    ensures e.err ==> r.trace == e.trace && r.busy == e.busy
    ensures !e.err ==> (r.busy <==> FastOp(e.queue[0]) == Dst || o != DoneInTime)
    ensures r.woken == e.woken + (if Count(e.queue[1..], e.queue[0].ctx) > 0 then [] else [e.queue[0].ctx])
  {
    Retire(Execute(e, o))
  }

  /** The drain loop from state e; hw(k + i) is the outcome of the i-th
      command still queued in e. */
  function Drain(e: Engine, hw: nat -> HwOutcome, k: nat): (r: Engine)
    requires Consistent(e)
    ensures Consistent(r) && r.queue == [] && r.ncmd.Keys == e.ncmd.Keys
    ensures forall c :: c in r.ncmd ==> r.ncmd[c] == 0
    decreases |e.queue|
  {
    if e.queue == [] then e else Drain(Step(e, hw(k)), hw, k + 1)
  }

  /** Number of hardware starts recorded in a trace. */
  function Starts(t: seq<HwEvent>): (n: nat)
    ensures n <= |t|
    decreases |t|
  {
    if t == [] then 0 else (if t[0] == StartBlit then 1 else 0) + Starts(t[1..])
  }

  lemma {:induction false} StartsAppend(a: seq<HwEvent>, b: seq<HwEvent>)
    ensures Starts(a + b) == Starts(a) + Starts(b)
    decreases |a|
  {
    if a == [] {
      assert a + b == b;
    } else {
      assert (a + b)[0] == a[0] && (a + b)[1..] == a[1..] + b;
      StartsAppend(a[1..], b);
    }
  }

  lemma {:induction false} NoStartWithout(t: seq<HwEvent>)
    requires StartBlit !in t
    ensures Starts(t) == 0
    decreases |t|
  {
    if t != [] {
      assert StartBlit !in t[1..] by {
        forall i | 0 <= i < |t[1..]| ensures t[1..][i] != StartBlit {
          assert t[1..][i] == t[i + 1];
        }
      }
      NoStartWithout(t[1..]);
    }
  }

  /** Configure never starts the hardware. */
  lemma ConfigureDoesNotStart(cmd: BltCmd)
    ensures Starts(ConfigureTrace(cmd)) == 0
  {
    ConfigureTraceRanked(cmd);
    NotInRanked(ConfigureTrace(cmd), 0, 23, StartBlit);
    NoStartWithout(ConfigureTrace(cmd));
  }

  /** The events one iteration issues for cmd while the error is clear:
      configure, then, unless the command is skipped, run, and stop when the
      completion interrupt arrives in time. */
  function Issued(cmd: BltCmd, o: HwOutcome): (t: seq<HwEvent>)
  {
    if FastOp(cmd) == Dst then ConfigureTrace(cmd)
    else ConfigureTrace(cmd) + RunTrace + (if o == DoneInTime then StopTrace else [])
  }

  /** The events of an iteration whose error is clear follow the trace
      before it. */
  lemma ExecuteIssues(e: Engine, o: HwOutcome)
    requires e.queue != []
    ensures Execute(e, o).trace == e.trace + (if e.err then [] else Issued(e.queue[0], o))
  {
    var cmd := e.queue[0];
    if !e.err && FastOp(cmd) != Dst {
      var w := if o == DoneInTime then StopTrace else [];
      ExecuteWaits(e, o);
      WaitTrace(e.(busy := true, trace := e.trace + ConfigureTrace(cmd) + RunTrace), o);
      AppendAssoc4(e.trace, ConfigureTrace(cmd), RunTrace, w);
    }
  }

  lemma ExecuteWaits(e: Engine, o: HwOutcome)
    requires e.queue != [] && !e.err && FastOp(e.queue[0]) != Dst
    ensures Execute(e, o) ==
      Wait(e.(busy := true, trace := e.trace + ConfigureTrace(e.queue[0]) + RunTrace), o)
  {
  }

  lemma WaitTrace(e: Engine, o: HwOutcome)
    ensures Wait(e, o).trace == e.trace + (if o == DoneInTime then StopTrace else [])
  {
  }

  lemma AppendAssoc4<T>(a: seq<T>, b: seq<T>, c: seq<T>, d: seq<T>)
    ensures a + b + c + d == a + (b + c + d)
  {
  }

  /** A run between two start-free traces is the only start. */
  lemma StartsAroundRun(c: seq<HwEvent>, w: seq<HwEvent>)
    requires Starts(c) == 0 && Starts(w) == 0
    ensures Starts(c + RunTrace + w) == 1
  {
    assert Starts(RunTrace) == 1 by {
      assert RunTrace[1..][1..][1..] == [];
    }
    StartsAppend(c, RunTrace);
    StartsAppend(c + RunTrace, w);
  }

  lemma StopDoesNotStart()
    ensures Starts(StopTrace) == 0
  {
    assert StopTrace[1..][1..] == [];
  }

  /** Exactly one hardware start per iteration on a command that is not
      skipped, none for a skipped one. */
  lemma IssuedStartsOnce(cmd: BltCmd, o: HwOutcome)
    ensures Starts(Issued(cmd, o)) == if FastOp(cmd) != Dst then 1 else 0
  {
    ConfigureDoesNotStart(cmd);
    if FastOp(cmd) != Dst {
      if o == DoneInTime {
        StopDoesNotStart();
        StartsAroundRun(ConfigureTrace(cmd), StopTrace);
      } else {
        StartsAroundRun(ConfigureTrace(cmd), []);
      }
    }
  }

  /** The hardware part of one iteration starts the hardware exactly once
      when the error is clear and the command is not skipped. */
  lemma ExecuteStartsOnlyRunnable(e: Engine, o: HwOutcome)
    requires e.queue != []
    ensures Starts(Execute(e, o).trace) ==
      Starts(e.trace) + (if !e.err && FastOp(e.queue[0]) != Dst then 1 else 0)
  {
    ExecuteIssues(e, o);
    if e.err {
      assert Execute(e, o).trace == e.trace;
    } else {
      IssuedStartsOnce(e.queue[0], o);
      StartsAppend(e.trace, Issued(e.queue[0], o));
    }
  }

  /** One iteration starts the hardware exactly once when the error is clear
      and the command is not skipped, and otherwise not at all. */
  lemma StepStartsOnlyRunnable(e: Engine, o: HwOutcome)
    requires Consistent(e) && e.queue != []
    ensures Starts(Step(e, o).trace) ==
      Starts(e.trace) + (if !e.err && FastOp(e.queue[0]) != Dst then 1 else 0)
  {
    ExecuteStartsOnlyRunnable(e, o);
  }

  /** How many commands of q the drain starts on the hardware when entered
      with error flag err: each command up to and including the first that
      hangs, except those reduced to the no-op Dst. */
  function Runs(q: seq<BltCmd>, hw: nat -> HwOutcome, k: nat, err: bool): (n: nat)
    ensures n <= |q|
    decreases |q|
  {
    if q == [] || err then 0
    else (if FastOp(q[0]) != Dst then 1 else 0) + Runs(q[1..], hw, k + 1, RunsAndHangs(q[0], hw(k)))
  }

  /** The drain starts the hardware once for every command it runs, and for
      no other. */
  lemma {:induction false} DrainStartsEachRunOnce(e: Engine, hw: nat -> HwOutcome, k: nat)
    requires Consistent(e)
    ensures Starts(Drain(e, hw, k).trace) == Starts(e.trace) + Runs(e.queue, hw, k, e.err)
    decreases |e.queue|
  {
    if e.queue != [] {
      var s := Step(e, hw(k));
      StepStartsOnlyRunnable(e, hw(k));
      DrainStartsEachRunOnce(s, hw, k + 1);
      assert Drain(e, hw, k) == Drain(s, hw, k + 1);
      if e.err {
        RunsAfterError(e.queue[1..], hw, k + 1);
      }
    }
  }

  lemma RunsAfterError(q: seq<BltCmd>, hw: nat -> HwOutcome, k: nat)
    ensures Runs(q, hw, k, true) == 0
  {
  }

  /** A destination-atop of an opaque memory source onto an opaque
      destination at full global alpha without a mask is the no-op Dst: the
      iteration only resets the engine, never starts it, leaves busy set,
      and still retires the command. */
  lemma OpaqueDstAtopIsSkipped(e: Engine, o: HwOutcome)
    requires Consistent(e) && e.queue != [] && !e.err
    requires e.queue[0].op == DstAtop && !e.queue[0].msk.Addressed()
    requires e.queue[0].src.Addressed() && IsOpaque(e.queue[0].src.fmt)
    requires IsOpaque(e.queue[0].dst.fmt) && e.queue[0].param.gAlpha == 0xff
    ensures FastOp(e.queue[0]) == Dst
    ensures Step(e, o).trace == e.trace + [Reset]
    ensures Starts(Step(e, o).trace) == Starts(e.trace)
    ensures Step(e, o).busy && !Step(e, o).err
    ensures Step(e, o).queue == e.queue[1..]
  {
    assert FastOp(e.queue[0]) == Dst;
    ExecuteIssues(e, o);
    StepStartsOnlyRunnable(e, o);
  }

  /** A command that is started and hangs sets the error, leaves busy set,
      and the rest of the queue is drained without touching the hardware. */
  lemma HangSkipsLaterCommands(e: Engine, hw: nat -> HwOutcome, k: nat)
    requires Consistent(e) && e.queue != [] && !e.err
    requires RunsAndHangs(e.queue[0], hw(k))
    ensures Drain(e, hw, k).err && Drain(e, hw, k).busy
    ensures Drain(e, hw, k).trace == e.trace + ConfigureTrace(e.queue[0]) + RunTrace
  {
    var s := Step(e, hw(k));
    ExecuteIssues(e, hw(k));
    assert s.trace == e.trace + ConfigureTrace(e.queue[0]) + RunTrace;
    DrainAfterErrorSkipsHardware(s, hw, k + 1);
    assert Drain(e, hw, k) == Drain(s, hw, k + 1);
  }

  /** Once the sticky error is set, the rest of the queue is drained without
      touching the hardware: no configure, no run, busy unchanged. */
  lemma {:induction false} DrainAfterErrorSkipsHardware(e: Engine, hw: nat -> HwOutcome, k: nat)
    requires Consistent(e) && e.err
    ensures Drain(e, hw, k).err
    ensures Drain(e, hw, k).trace == e.trace
    ensures Drain(e, hw, k).busy == e.busy
    decreases |e.queue|
  {
    if e.queue != [] {
      DrainAfterErrorSkipsHardware(Step(e, hw(k)), hw, k + 1);
    }
  }

  /** The drain ends in error exactly when the error was already set or some
      command was started on the hardware and hung. */
  lemma {:induction false} DrainErrorExactly(e: Engine, hw: nat -> HwOutcome, k: nat)
    requires Consistent(e)
    ensures Drain(e, hw, k).err <==> e.err || SomeCommandHangs(e.queue, hw, k)
    decreases |e.queue|
  {
    if e.queue != [] {
      DrainErrorExactly(Step(e, hw(k)), hw, k + 1);
    }
  }

  /** The contexts of q in the order their last command appears in q. */
  function LastOwners(q: seq<BltCmd>): (owners: seq<CtxId>)
    ensures |owners| <= |q|
    decreases |q|
  {
    if q == [] then []
    else (if Count(q[1..], q[0].ctx) > 0 then [] else [q[0].ctx]) + LastOwners(q[1..])
  }

  /** The drain wakes each context when its last queued command is retired,
      in queue order, after the wake-ups recorded before. */
  lemma {:induction false} DrainWakesLastOwners(e: Engine, hw: nat -> HwOutcome, k: nat)
    requires Consistent(e)
    ensures Drain(e, hw, k).woken == e.woken + LastOwners(e.queue)
    decreases |e.queue|
  {
    if e.queue != [] {
      var s := Step(e, hw(k));
      DrainWakesLastOwners(s, hw, k + 1);
      var x := if Count(e.queue[1..], e.queue[0].ctx) > 0 then [] else [e.queue[0].ctx];
      assert s.woken == e.woken + x;
      assert LastOwners(e.queue) == x + LastOwners(e.queue[1..]);
      assert Drain(e, hw, k) == Drain(s, hw, k + 1);
      AppendAssoc(e.woken, x, LastOwners(e.queue[1..]));
    }
  }

  /** Exactly the contexts with a queued command are woken ... */
  lemma {:induction false} LastOwnersAreOwners(q: seq<BltCmd>, c: CtxId)
    ensures c in LastOwners(q) <==> Count(q, c) > 0
    decreases |q|
  {
    if q != [] {
      LastOwnersAreOwners(q[1..], c);
    }
  }

  /** ... and each of them once. */
  lemma {:induction false} LastOwnersDistinct(q: seq<BltCmd>)
    ensures forall i, j :: 0 <= i < j < |LastOwners(q)| ==> LastOwners(q)[i] != LastOwners(q)[j]
    decreases |q|
  {
    if q != [] {
      LastOwnersDistinct(q[1..]);
      LastOwnersAreOwners(q[1..], q[0].ctx);
    }
  }

  /** The driver's blitter state: the engine flags, the command queue with
      its per-context counters, the register events issued so far and the
      contexts woken so far. */
  class Fimg2dControl {
    var busy: bool
    var active: bool
    var err: bool
    var queue: seq<BltCmd>
    var ncmd: map<CtxId, nat>
    var trace: seq<HwEvent>
    ghost var woken: seq<CtxId>

    ghost function State(): Engine
      reads this
    {
      Engine(busy, err, queue, ncmd, trace, woken)
    }

    constructor ()
      ensures State() == Engine(false, false, [], map[], [], []) && !active
    {
      busy, active, err := false, false, false;
      queue, ncmd, trace := [], map[], [];
      woken := [];
    }

    /** Program the engine for cmd; -1 when the reduced operator is the
        no-op Dst (nothing programmed beyond the reset), else 0. */
    method Configure(cmd: BltCmd) returns (ret: int)
      modifies this`trace
      ensures ret == (if FastOp(cmd) == Dst then -1 else 0)
      ensures trace == old(trace) + ConfigureTrace(cmd)
    {
      var p := cmd.param;
      trace := trace + [Reset];
      ghost var mark := trace;
      var srcsel, dstsel := ImgMemory, ImgMemory;
      var op := FastOp(cmd);
      if op == SolidFill {
        srcsel, dstsel := ImgFgColor, ImgFgColor;
        trace := trace + [SetFgColor(p.solidColor)];
      } else if op == Clr {
        srcsel, dstsel := ImgFgColor, ImgFgColor;
        trace := trace + [SetColorFill(0)];
      } else if op == Dst {
        return -1;
      } else {
        if !cmd.src.Addressed() {
          srcsel := ImgFgColor;
          trace := trace + [SetFgColor(p.solidColor)];
        }
        if op == Src {
          dstsel := ImgFgColor;
        }
        trace := trace + [EnableAlpha(p.gAlpha)];
        trace := trace + [SetAlphaComposite(op, p.gAlpha)];
        if p.premult == NonPremultiplied {
          trace := trace + [SetPremultiplied];
        }
      }
      assert trace == mark + ColorSetup(cmd, op);
      assert srcsel == SrcSel(cmd, op) && dstsel == DstSel(op);
      trace := trace + [SetSrcType(srcsel), SetDstType(dstsel)];
      AppendAssoc(mark, ColorSetup(cmd, op), [SetSrcType(srcsel), SetDstType(dstsel)]);
      assert trace == mark + ModeSetup(cmd, op);

      mark := trace;
      ProgramSrc(cmd);
      ProgramMsk(cmd);
      AppendAssoc(mark, SrcSetup(cmd), MskSetup(cmd));
      ProgramDst(cmd);
      AppendAssoc(mark, SrcSetup(cmd) + MskSetup(cmd), DstSetup(cmd));
      assert trace == mark + SurfaceSetup(cmd);
      ProgramPostStages(cmd);
      ConfigureTraceParts(cmd, old(trace));
      ret := 0;
    }

    /** Source surface: image, rectangle, repeat and, if requested, scaling. */
    method ProgramSrc(cmd: BltCmd)
      modifies this`trace
      ensures trace == old(trace) + SrcSetup(cmd)
    {
      var p := cmd.param;
      if cmd.src.Addressed() {
        trace := trace + [SetSrcImage(cmd.src), SetSrcRect(cmd.src.rect), SetSrcRepeat(p.repeat)];
        if p.scaling.mode != 0 {
          trace := trace + [SetSrcScaling(p.scaling, p.repeat)];
        }
      }
    }

    /** Mask surface: mask unit on, image, rectangle, repeat and, if
        requested, scaling. */
    method ProgramMsk(cmd: BltCmd)
      modifies this`trace
      ensures trace == old(trace) + MskSetup(cmd)
    {
      var p := cmd.param;
      if cmd.msk.Addressed() {
        trace := trace + [EnableMsk, SetMskImage(cmd.msk), SetMskRect(cmd.msk.rect), SetMskRepeat(p.repeat)];
        if p.scaling.mode != 0 {
          trace := trace + [SetMskScaling(p.scaling, p.repeat)];
        }
      }
    }

    /** Destination surface: image, rectangle and, if requested, clipping. */
    method ProgramDst(cmd: BltCmd)
      modifies this`trace
      ensures trace == old(trace) + DstSetup(cmd)
    {
      var p := cmd.param;
      if cmd.dst.Addressed() {
        trace := trace + [SetDstImage(cmd.dst), SetDstRect(cmd.dst.rect)];
        if p.clipping.enable {
          trace := trace + [EnableClipping(p.clipping)];
        }
      }
    }

    /** Bluescreen, then rotation, then dithering, each only if requested. */
    method ProgramPostStages(cmd: BltCmd)
      modifies this`trace
      ensures trace == old(trace) + PostSetup(cmd)
    {
      var p := cmd.param;
      ghost var o1 := Opt(p.bluscr.mode != 0, SetBluescreen(p.bluscr));
      ghost var o2 := Opt(p.rotate != 0, SetRotation(p.rotate));
      ghost var o3 := Opt(p.dither, EnableDithering);
      if p.bluscr.mode != 0 {
        trace := trace + [SetBluescreen(p.bluscr)];
      }
      if p.rotate != 0 {
        trace := trace + [SetRotation(p.rotate)];
      }
      AppendAssoc(old(trace), o1, o2);
      if p.dither {
        trace := trace + [EnableDithering];
      }
      AppendAssoc(old(trace), o1 + o2, o3);
    }

    /** Start the configured blit. */
    method Run()
      modifies this`trace
      ensures trace == old(trace) + RunTrace
    {
      trace := trace + [EnableIrq];
      trace := trace + [ClearIrq];
      trace := trace + [StartBlit];
    }

    /** Completion handler: when the engine reports the blit done, turn the
        interrupt off and clear busy; otherwise change nothing. */
    method Stop(blitDone: bool)
      modifies this`busy, this`trace
      ensures State() == Stopped(old(State()), blitDone)
    {
      if blitDone {
        trace := trace + [DisableIrq];
        trace := trace + [ClearIrq];
        busy := false;
      }
    }

    /** Wait for busy to drop; on timeout re-check the done status once and
        set the sticky error if the engine is still running. */
    method BlitWait(o: HwOutcome)
      modifies this`busy, this`err, this`trace
      ensures State() == Wait(old(State()), o)
    {
      if o == DoneInTime {
        // the completion interrupt runs stop before the wait returns
        Stop(true);
      } else {
        var done := o == DoneOnRecheck;
        if !done {
          err := true;
        }
      }
    }

    /** One iteration of the drain loop on the head command: unless the
        device error is set, mark busy, configure, and (unless configure
        reports the no-op) run and wait; then delete the command and wake
        its context if that was its last command. */
    method BlitHead(o: HwOutcome)
      requires Consistent(State()) && queue != []
      modifies this`busy, this`err, this`queue, this`ncmd, this`trace, this`woken
      ensures State() == Step(old(State()), o)
    {
      var cmd := queue[0];
      if !err {
        Dispatch(cmd, o);
      }
      DelCommand();
      // wake up the context once its last command is gone
      if ncmd[cmd.ctx] == 0 {
        woken := woken + [cmd.ctx];
      }
    }

    /** Mark the engine busy, configure it for cmd and, unless configure
        reports the no-op, start the blit and wait for it. */
    method Dispatch(cmd: BltCmd, o: HwOutcome)
      requires queue != [] && cmd == queue[0] && !err
      modifies this`busy, this`err, this`trace
      ensures State() == Execute(old(State()), o)
    {
      busy := true;
      var ret := Configure(cmd);
      if ret == 0 {
        Run();
        BlitWait(o);
      }
    }

    /** Remove the head command from the queue and decrement its context's
        count of commands in flight. */
    method DelCommand()
      requires Consistent(State()) && queue != []
      modifies this`queue, this`ncmd
      ensures State() == Delete(old(State()))
    {
      var c := queue[0].ctx;
      queue, ncmd := queue[1..], ncmd[c := ncmd[c] - 1];
    }

    /** The blitter work function: drain the queue, then mark the loop
        inactive. hw(k) is the hardware outcome of the k-th command taken. */
    method Bitblt(hw: nat -> HwOutcome)
      requires Consistent(State())
      modifies this
      ensures !active
      ensures State() == Drain(old(State()), hw, 0)
    {
      var k := 0;
      while queue != []
        invariant Consistent(State())
        invariant Drain(State(), hw, k) == Drain(old(State()), hw, 0)
        decreases |queue|
      {
        BlitHead(hw(k));
        k := k + 1;
      }
      active := false;
    }
  }
}
