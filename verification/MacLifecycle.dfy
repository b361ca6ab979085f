/**
The MAC core's life cycle as a concurrent machine: core init, start, stop and
exit, configuration calls and the beacon work (all under the mutex, though stop
drops it while it waits for the interrupt handlers), the hard interrupt handler
(which takes only the hard interrupt lock) and the interrupt thread.

Every step is one access, or one stretch under the hard interrupt lock.
*/
module MacLifecycle {

  datatype Status = UNINIT | INITIALIZED | STARTED

  /** Who holds the mutex, and how far it got. */
  datatype Holder =
    | Free
    | Init1   // data structures reset, chip not initialized yet
    | Init2   // chip initialized, status not set yet
    | Start1  // interrupt line requested
    | Start2  // status set
    | Start3  // MAC enabled, interrupts still off
    | Stop1   // status set, interrupts still on
    | Stop2   // handlers gone, MAC not suspended yet
    | Thread  // the interrupt thread
    | Config  // a configuration call

  /** What handle_irq_beacon did to the interrupt mask. */
  datatype BeaconIrq = Keep | Arm | Disarm

  /** A 32-bit register or mask, as the numbers of the bits that are set. */
  type Bits = set<nat>

  const IRQ_BEACON: Bits := {1}

  /** The reason register of a device that is gone reads as all ones. */
  predicate AllOnes(b: Bits) {
    forall n :: 0 <= n < 32 ==> n in b
  }

  datatype State = State(
    status: Status,
    holder: Holder,
    stopping: bool,    // a stop is between its two halves
    hooked: bool,      // the interrupt line is requested
    hard: bool,        // a hard handler has passed its status check
    woken: bool,       // the thread has been woken and has not taken it up yet; a second wake changes nothing
    waiting: bool,     // the thread has taken a wake up and waits for the mutex
    irqMask: Bits,     // dev->irq_mask
    genMask: Bits,     // GEN_IRQ_MASK
    irqReason: Bits,   // dev->irq_reason
    acked: Bits,       // reasons acknowledged and not yet read by a thread run
    suspended: int,    // dev->mac_suspended
    depth: nat,        // suspends the holder has not undone
    enabled: bool,     // MACCTL_ENABLED
    chipUp: bool)      // chip init has run

  datatype Event =
    | Init(mask: Bits) | ChipInit | InitDone | InitFail | Exit
    | StartIrq(ok: bool) | StartStatus | StartEnable | StartMask
    | StopStatus | StopMask | FreeIrq | StopRelock | StopSuspend
    | HardCheck | HardBody(reason: Bits)
    | ThreadWake | ThreadStart | ThreadBeacon(change: BeaconIrq) | ThreadEnd | ThreadFatal
    | Work(change: BeaconIrq)
    | ConfigStart | Suspend | Resume

  const INITIAL := State(UNINIT, Free, false, false, false, false, false, {}, {}, {}, {}, 0, 0, false, false)

  function SuspendOnce(s: State): State {
    s.(enabled := if s.suspended == 0 then false else s.enabled, suspended := s.suspended + 1)
  }

  function EnableOnce(s: State): State {
    s.(suspended := s.suspended - 1, enabled := if s.suspended == 1 then true else s.enabled)
  }

  function Changed(mask: Bits, change: BeaconIrq): (m: Bits)
    ensures change.Arm? ==> 1 in m
    ensures change.Disarm? ==> 1 !in m
    ensures forall n :: n != 1 || change.Keep? ==> (n in m <==> n in mask)
  {
    match change
    case Keep => mask
    case Arm => mask + IRQ_BEACON
    case Disarm => mask - IRQ_BEACON
  }

  /** b43_do_interrupt. */
  function WithInterrupt(s: State, reason: Bits): State {
    var r := reason * s.irqMask;
    if AllOnes(reason) || r == {} then s
    else s.(genMask := {}, irqReason := r, acked := s.acked + r, woken := true)
  }

  /** b43_do_beacon_update_trigger_work. */
  function BeaconWork(s: State, change: BeaconIrq): State {
    var mask := Changed(s.irqMask, change);
    s.(irqMask := mask, genMask := if mask != s.irqMask && s.genMask != {} then mask else s.genMask)
  }

  /** A step that is not possible in a state changes nothing. */
  function Step(s: State, e: Event): State {
    match e
    case Init(mask) =>
      if s.holder.Free? && s.status.UNINIT? && !s.stopping
      then s.(holder := Init1, irqMask := mask, irqReason := {}, suspended := 1, depth := 0) else s
    case ChipInit =>
      if s.holder.Init1? then s.(holder := Init2, enabled := false, chipUp := true) else s
    case InitDone =>
      if s.holder.Init2? && s.depth == 0 then s.(holder := Free, status := INITIALIZED) else s
    case InitFail =>
      if s.holder.Init1? || s.holder.Init2? then s.(holder := Free, chipUp := false, depth := 0) else s
    case Exit =>
      if s.holder.Free? && s.status.INITIALIZED? && !s.stopping then s.(status := UNINIT, chipUp := false) else s
    case StartIrq(ok) =>
      if s.holder.Free? && s.status.INITIALIZED? && !s.stopping && ok
      then s.(holder := Start1, hooked := true) else s
    case StartStatus => if s.holder.Start1? then s.(holder := Start2, status := STARTED) else s
    case StartEnable => if s.holder.Start2? then EnableOnce(s).(holder := Start3) else s
    case StartMask => if s.holder.Start3? then s.(holder := Free, genMask := s.irqMask) else s
    case StopStatus =>
      if s.holder.Free? && s.status.STARTED? && !s.stopping
      then s.(holder := Stop1, status := INITIALIZED, stopping := true) else s
    case StopMask => if s.holder.Stop1? then s.(holder := Free, genMask := {}) else s
    case FreeIrq =>
      if s.stopping && !s.holder.Stop1? && !s.holder.Thread? && !s.hard && !s.woken && !s.waiting
      then s.(hooked := false) else s
    case StopRelock => if s.holder.Free? && s.stopping && !s.hooked then s.(holder := Stop2) else s
    case StopSuspend => if s.holder.Stop2? then SuspendOnce(s).(holder := Free, stopping := false) else s
    case HardCheck => if s.hooked && s.status.STARTED? && !s.hard then s.(hard := true) else s
    case HardBody(reason) => if s.hard then WithInterrupt(s, reason).(hard := false) else s
    case ThreadWake =>
      if s.woken && !s.waiting && !s.holder.Thread? then s.(woken := false, waiting := true) else s
    case ThreadStart =>
      if s.holder.Free? && s.waiting then
        var s := s.(waiting := false);
        if s.status.STARTED? then s.(holder := Thread, acked := s.acked - s.irqReason) else s
      else s
    case ThreadBeacon(change) =>
      if s.holder.Thread? then s.(irqMask := Changed(s.irqMask, change)) else s
    case ThreadEnd => if s.holder.Thread? then s.(holder := Free, genMask := s.irqMask) else s
    case ThreadFatal => if s.holder.Thread? then s.(holder := Free) else s
    case Work(change) => if s.holder.Free? && !s.status.UNINIT? then BeaconWork(s, change) else s
    case ConfigStart =>
      if s.holder.Free? && !s.status.UNINIT? then SuspendOnce(s).(holder := Config, depth := 1) else s
    case Suspend =>
      if s.holder.Config? || s.holder.Init2? then SuspendOnce(s).(depth := s.depth + 1) else s
    case Resume =>
      if (s.holder.Config? || s.holder.Init2?) && s.depth > 0 then
        var s := EnableOnce(s).(depth := s.depth - 1);
        if s.holder.Config? && s.depth == 0 then s.(holder := Free) else s
      else s
  }

  function Run(s: State, es: seq<Event>): State
    decreases |es|
  {
    if es == [] then s else Run(Step(s, es[0]), es[1..])
  }

  // ---------------------------------------------------------------- every run

  /** Started, or on the way to or from it with the MAC on. */
  predicate MacOn(s: State) {
    match s.holder
    case Start1 => false
    case Start2 => false
    case Start3 => true
    case Init1 => false
    case Init2 => false
    case _ => s.status.STARTED? || s.stopping
  }

  /** True after every step, on shared interrupt lines too. */
  ghost predicate Always(s: State) {
    // the refcount and the hardware bit
    && (s.chipUp ==> (s.enabled <==> s.suspended == 0))
    && (s.chipUp || s.holder.Init1? ==>
          s.suspended == (if MacOn(s) then 0 else 1) + (if s.holder.Config? || s.holder.Init2? then s.depth else 0))
    && (s.chipUp <==> !s.status.UNINIT? || s.holder.Init2?)
    // who may be where
    && (s.holder.Init1? || s.holder.Init2? ==> s.status.UNINIT? && !s.stopping)
    && (s.holder.Init1? ==> s.depth == 0)
    && (s.holder.Start1? ==> s.status.INITIALIZED? && !s.stopping && s.hooked)
    && (s.holder.Start2? || s.holder.Start3? ==> s.status.STARTED? && s.hooked)
    && (s.holder.Stop1? || s.holder.Stop2? ==> s.stopping)
    && (s.holder.Stop2? ==> !s.hooked)
    && (s.holder.Config? ==> s.depth > 0 && !s.status.UNINIT?)
    && (s.holder.Thread? ==> s.status.STARTED? && s.hooked)
    && (s.stopping ==> s.status.INITIALIZED?)
    && (s.status.STARTED? || s.holder.Stop1? ==> s.hooked)
    && (s.hooked ==> s.status.STARTED? || s.stopping || s.holder.Start1?)
    && (!s.hooked ==> !s.hard && !s.woken && !s.waiting)
    && (s.holder.Thread? ==> !s.waiting)
    // interrupts are on only while started, or until the stop has switched them off
    && (s.genMask != {} ==> s.status.STARTED? || s.holder.Stop1?)
  }

  lemma InitExitAlways(s: State, e: Event)
    requires Always(s) && (e.Init? || e.ChipInit? || e.InitDone? || e.InitFail? || e.Exit?)
    ensures Always(Step(s, e))
  {
  }

  lemma StartAlways(s: State, e: Event)
    requires Always(s) && (e.StartIrq? || e.StartStatus? || e.StartEnable? || e.StartMask?)
    ensures Always(Step(s, e))
  {
  }

  lemma StopAlways(s: State, e: Event)
    requires Always(s) && (e.StopStatus? || e.StopMask? || e.FreeIrq? || e.StopRelock? || e.StopSuspend?)
    ensures Always(Step(s, e))
  {
  }

  lemma ConfigAlways(s: State, e: Event)
    requires Always(s) && (e.ConfigStart? || e.Suspend? || e.Resume?)
    ensures Always(Step(s, e))
  {
  }

  lemma HandlerAlways(s: State, e: Event)
    requires Always(s) && (e.HardCheck? || e.HardBody? || e.ThreadWake? || e.ThreadStart? || e.ThreadBeacon? || e.ThreadEnd? || e.ThreadFatal? || e.Work?)
    ensures Always(Step(s, e))
  {
  }

  lemma StepAlways(s: State, e: Event)
    requires Always(s)
    ensures Always(Step(s, e))
  {
    if e.Init? || e.ChipInit? || e.InitDone? || e.InitFail? || e.Exit? {
      InitExitAlways(s, e);
    } else if e.StartIrq? || e.StartStatus? || e.StartEnable? || e.StartMask? {
      StartAlways(s, e);
    } else if e.StopStatus? || e.StopMask? || e.FreeIrq? || e.StopRelock? || e.StopSuspend? {
      StopAlways(s, e);
    } else if e.ConfigStart? || e.Suspend? || e.Resume? {
      ConfigAlways(s, e);
    } else {
      HandlerAlways(s, e);
    }
  }

  lemma {:induction false} RunAlways(s: State, es: seq<Event>)
    requires Always(s)
    ensures Always(Run(s, es))
    decreases |es|
  {
    if es != [] {
      StepAlways(s, es[0]);
      RunAlways(Step(s, es[0]), es[1..]);
    }
  }

  /**
  In every reachable state from chip init on the MAC is enabled exactly when
  nobody suspends it, and with no operation under way the count is 0 when started, 1 when initialized.
  */
  lemma SuspendCount(es: seq<Event>)
    ensures var s := Run(INITIAL, es);
            && (s.chipUp ==> (s.enabled <==> s.suspended == 0))
            && (!s.status.UNINIT? ==> s.chipUp)
            && (s.holder.Free? && !s.stopping && s.status.STARTED? ==> s.suspended == 0)
            && (s.holder.Free? && !s.stopping && s.status.INITIALIZED? ==> s.suspended == 1)
  {
    RunAlways(INITIAL, es);
  }

  /** When stop takes the mutex again the handlers are gone and interrupts are off: its warning never fires. */
  lemma StopFindsInterruptsOff(es: seq<Event>)
    ensures var s := Run(INITIAL, es);
            s.holder.Stop2? ==> s.genMask == {} && !s.woken && !s.waiting && !s.hard && s.suspended == 0
  {
    RunAlways(INITIAL, es);
  }

  // ---------------------------------------------------------------- interrupts on, no handler pending

  /** A call of the hard handler that finds a reason of its own and wakes the thread. */
  predicate Wakes(s: State, e: Event) {
    e.HardBody? && s.hard && !AllOnes(e.reason) && e.reason * s.irqMask != {}
  }

  predicate Starting(h: Holder) {
    h.Start1? || h.Start2? || h.Start3?
  }

  /** A step that switches interrupts on: the end of a start and the end of a thread run. */
  predicate SwitchesOn(s: State, e: Event) {
    s.irqMask != {} && ((e.StartMask? && s.holder.Start3?) || (e.ThreadEnd? && s.holder.Thread?))
  }

  /**
  Whether a waking call has come since the line was requested (while a start is
  under way) or since the thread took its wake up (otherwise).
  */
  function Disturbed(s: State, e: Event, late: bool): bool {
    if (e.StartIrq? || (e.ThreadWake? && !Starting(s.holder))) && Step(s, e) != s then false else late || Wakes(s, e)
  }

  /** In no step of the run interrupts go on after a waking call has come since the start or thread run began. */
  ghost predicate NeverLate(s: State, es: seq<Event>, late: bool)
    decreases |es|
  {
    es == [] || (!(SwitchesOn(s, es[0]) && late) && NeverLate(Step(s, es[0]), es[1..], Disturbed(s, es[0], late)))
  }

  /** Interrupts that are on are the ones asked for, and no thread run is outstanding. */
  ghost predicate Clear(s: State) {
    s.genMask != {} ==> s.genMask == s.irqMask && !s.woken && !s.waiting && !s.holder.Thread?
  }

  ghost predicate AlwaysClear(s: State, es: seq<Event>)
    decreases |es|
  {
    Clear(s) && (es == [] || AlwaysClear(Step(s, es[0]), es[1..]))
  }

  /** What `late` means for whoever is about to switch interrupts on. */
  ghost predicate Tracked(s: State, late: bool) {
    && Clear(s)
    && (Starting(s.holder) ==> ((s.woken || s.waiting) <==> late) && (late ==> s.irqMask != {}))
    && (!Starting(s.holder) && (s.waiting || s.holder.Thread?) ==> (s.woken <==> late))
  }

  lemma WakeTracked(s: State, reason: Bits, late: bool)
    requires Always(s) && Tracked(s, late)
    ensures Tracked(Step(s, HardBody(reason)), Disturbed(s, HardBody(reason), late))
  {
  }

  lemma SwitchTracked(s: State, e: Event, late: bool)
    requires Always(s) && Tracked(s, late) && (e.StartMask? || e.ThreadEnd?)
    ensures if SwitchesOn(s, e) && late then !Clear(Step(s, e)) else Tracked(Step(s, e), Disturbed(s, e, late))
  {
  }

  lemma ThreadTracked(s: State, e: Event, late: bool)
    requires Always(s) && Tracked(s, late) && (e.ThreadWake? || e.ThreadStart? || e.ThreadBeacon? || e.ThreadFatal? || e.Work?)
    ensures Tracked(Step(s, e), Disturbed(s, e, late))
  {
  }

  lemma OtherTracked(s: State, e: Event, late: bool)
    requires Always(s) && Tracked(s, late) && !e.HardBody? && !e.StartMask? && !e.ThreadEnd?
    requires !e.ThreadWake? && !e.ThreadStart? && !e.ThreadBeacon? && !e.ThreadFatal? && !e.Work?
    ensures Tracked(Step(s, e), Disturbed(s, e, late))
  {
  }

  lemma StepTracked(s: State, e: Event, late: bool)
    requires Always(s) && Tracked(s, late)
    ensures if SwitchesOn(s, e) && late then !Clear(Step(s, e)) else Tracked(Step(s, e), Disturbed(s, e, late))
  {
    if e.HardBody? {
      WakeTracked(s, e.reason, late);
    } else if e.StartMask? || e.ThreadEnd? {
      SwitchTracked(s, e, late);
    } else if e.ThreadWake? || e.ThreadStart? || e.ThreadBeacon? || e.ThreadFatal? || e.Work? {
      ThreadTracked(s, e, late);
    } else {
      OtherTracked(s, e, late);
    }
  }

  lemma {:induction false} RunClear(s: State, es: seq<Event>, late: bool)
    requires Always(s) && Tracked(s, late)
    ensures AlwaysClear(s, es) <==> NeverLate(s, es, late)
    decreases |es|
  {
    if es != [] {
      StepAlways(s, es[0]);
      StepTracked(s, es[0], late);
      if SwitchesOn(s, es[0]) && late {
        assert !AlwaysClear(Step(s, es[0]), es[1..]);
      } else {
        RunClear(Step(s, es[0]), es[1..], Disturbed(s, es[0], late));
      }
    }
  }

  /**
  On any line, shared or not: a nonzero GEN_IRQ_MASK is irq_mask with no handler
  pending or running in every state of a run, if and only if no start and no
  thread run of it switches interrupts on after a waking call that came since it
  began.
  */
  lemma InterruptsOnExactly(es: seq<Event>)
    ensures AlwaysClear(INITIAL, es) <==> NeverLate(INITIAL, es, false)
  {
    RunClear(INITIAL, es, false);
  }

  /** Whatever comes, interrupts are on only in a started device, or until the stop has written the zero. */
  lemma InterruptsOnlyStarted(es: seq<Event>)
    ensures var s := Run(INITIAL, es); s.genMask != {} ==> s.status.STARTED? || s.holder.Stop1?
  {
    RunAlways(INITIAL, es);
  }

  // ---------------------------------------------------------------- no reason lost

  /** Every acknowledged reason that no thread run has read yet is there for the next one to read. */
  ghost predicate Kept(s: State) {
    s.acked <= if s.woken || s.waiting then s.irqReason else {}
  }

  ghost predicate AlwaysKept(s: State, es: seq<Event>)
    decreases |es|
  {
    Kept(s) && (es == [] || AlwaysKept(Step(s, es[0]), es[1..]))
  }

  /** A thread run that finds the device stopped leaves what is still to be read to nobody. */
  ghost predicate Drops(s: State, e: Event) {
    e.ThreadStart? && s.holder.Free? && s.waiting && !s.status.STARTED? && !s.woken && s.acked != {}
  }

  /** A waking call overwrites nothing that is still to be read: what it saves covers it.  No run drops anything. */
  ghost predicate Covers(s: State, e: Event) {
    (Wakes(s, e) ==> s.acked <= e.reason * s.irqMask) && !Drops(s, e)
  }

  ghost predicate AlwaysCovers(s: State, es: seq<Event>)
    decreases |es|
  {
    es == [] || (Covers(s, es[0]) && AlwaysCovers(Step(s, es[0]), es[1..]))
  }

  /** A call of the hard handler can lose a reason, and when it does. */
  lemma WakeKeeps(s: State, reason: Bits)
    requires Kept(s)
    ensures Kept(Step(s, HardBody(reason))) <==> Covers(s, HardBody(reason))
  {
    if Wakes(s, HardBody(reason)) {
      var r := reason * s.irqMask;
      assert s.acked + r <= r <==> s.acked <= r;
    }
  }

  lemma OtherKeeps(s: State, e: Event)
    requires Always(s) && Kept(s) && !e.HardBody?
    ensures Kept(Step(s, e)) <==> Covers(s, e)
  {
  }

  lemma {:induction false} RunKept(s: State, es: seq<Event>)
    requires Always(s) && Kept(s)
    ensures AlwaysKept(s, es) <==> AlwaysCovers(s, es)
    decreases |es|
  {
    if es != [] {
      StepAlways(s, es[0]);
      if es[0].HardBody? { WakeKeeps(s, es[0].reason); } else { OtherKeeps(s, es[0]); }
      if Kept(Step(s, es[0])) {
        RunKept(Step(s, es[0]), es[1..]);
      } else {
        assert !AlwaysKept(Step(s, es[0]), es[1..]);
      }
    }
  }

  /**
  On any line: in every state of a run each acknowledged reason has been read by
  a thread run or is there for the one outstanding to read, if and only if every
  waking call of it covers what was still to be read and no thread run finds the
  device stopped with something left to read.
  */
  lemma ReasonsKeptExactly(es: seq<Event>)
    ensures AlwaysKept(INITIAL, es) <==> AlwaysCovers(INITIAL, es)
  {
    RunKept(INITIAL, es);
  }

  // ---------------------------------------------------------------- timely calls

  /** A waking call comes while no thread run is outstanding or under way and no start is. */
  ghost predicate Timely(s: State, e: Event) {
    Wakes(s, e) ==> !s.woken && !s.waiting && !s.holder.Thread? && !Starting(s.holder)
  }

  ghost predicate TimelyRun(s: State, es: seq<Event>)
    decreases |es|
  {
    es == [] || (Timely(s, es[0]) && TimelyRun(Step(s, es[0]), es[1..]))
  }

  /** At most one thread run is outstanding or under way. */
  predicate AtMostOne(s: State) {
    !(s.woken && s.waiting) && !(s.woken && s.holder.Thread?) && !(s.waiting && s.holder.Thread?)
  }

  lemma StepAtMostOne(s: State, e: Event)
    requires Always(s) && AtMostOne(s) && Timely(s, e)
    ensures AtMostOne(Step(s, e))
  {
  }

  lemma {:induction false} RunTimely(s: State, es: seq<Event>, late: bool)
    requires Always(s) && AtMostOne(s) && TimelyRun(s, es)
    requires late ==> !Starting(s.holder) && !s.waiting && !s.holder.Thread?
    ensures NeverLate(s, es, late) && AtMostOne(Run(s, es))
    decreases |es|
  {
    if es != [] {
      StepAlways(s, es[0]);
      StepAtMostOne(s, es[0]);
      RunTimely(Step(s, es[0]), es[1..], Disturbed(s, es[0], late));
    }
  }

  /** No thread run finds the device stopped with something left to read. */
  ghost predicate NeverDrops(s: State, es: seq<Event>)
    decreases |es|
  {
    es == [] || (!Drops(s, es[0]) && NeverDrops(Step(s, es[0]), es[1..]))
  }

  lemma {:induction false} RunTimelyKept(s: State, es: seq<Event>)
    requires Always(s) && Kept(s) && TimelyRun(s, es)
    ensures AlwaysCovers(s, es) <==> NeverDrops(s, es)
    decreases |es|
  {
    if es != [] {
      StepAlways(s, es[0]);
      assert Covers(s, es[0]) <==> !Drops(s, es[0]);
      if es[0].HardBody? { WakeKeeps(s, es[0].reason); } else { OtherKeeps(s, es[0]); }
      if !Drops(s, es[0]) {
        RunTimelyKept(Step(s, es[0]), es[1..]);
      }
    }
  }

  /**
  Timely calls are enough for interrupts, never leave more than one thread run
  outstanding, and lose no reason except to a stop; other calls are free to come.
  */
  lemma TimelyIsEnough(es: seq<Event>)
    requires TimelyRun(INITIAL, es)
    ensures AlwaysClear(INITIAL, es) && AtMostOne(Run(INITIAL, es))
    ensures AlwaysKept(INITIAL, es) <==> NeverDrops(INITIAL, es)
  {
    RunTimely(INITIAL, es, false);
    RunTimelyKept(INITIAL, es);
    InterruptsOnExactly(es);
    ReasonsKeptExactly(es);
  }

  // ---------------------------------------------------------------- an interrupt line of its own

  /** The device raises its line only while it has some interrupts enabled. */
  ghost predicate Exclusive(s: State, e: Event) {
    e.HardCheck? ==> s.genMask != {}
  }

  ghost predicate ExclusiveRun(s: State, es: seq<Event>)
    decreases |es|
  {
    es == [] || (Exclusive(s, es[0]) && ExclusiveRun(Step(s, es[0]), es[1..]))
  }

  ghost predicate OneHandler(s: State) {
    && (s.genMask != {} || s.hard || Starting(s.holder) ==> !s.woken && !s.waiting && !s.holder.Thread?)
    && !((s.genMask != {} || s.hard) && Starting(s.holder))
    && AtMostOne(s)
  }

  lemma StepOneHandler(s: State, e: Event)
    requires Always(s) && OneHandler(s) && Exclusive(s, e)
    ensures OneHandler(Step(s, e)) && Timely(s, e)
  {
  }

  lemma {:induction false} RunOneHandler(s: State, es: seq<Event>)
    requires Always(s) && OneHandler(s) && ExclusiveRun(s, es)
    ensures TimelyRun(s, es)
    decreases |es|
  {
    if es != [] {
      StepAlways(s, es[0]);
      StepOneHandler(s, es[0]);
      RunOneHandler(Step(s, es[0]), es[1..]);
    }
  }

  /** On a line of the device's own every call is timely. */
  lemma OwnLine(es: seq<Event>)
    requires ExclusiveRun(INITIAL, es)
    ensures TimelyRun(INITIAL, es)
  {
    RunOneHandler(INITIAL, es);
  }

  // ---------------------------------------------------------------- a shared line

  const BRING_UP: seq<Event> := [Init({2, 29}), ChipInit, InitDone, StartIrq(true), StartStatus, StartEnable]

  /** Two calls for another device while a start is under way, and what follows. */
  const OVERTAKEN: seq<Event> := [HardCheck, HardBody({2}), HardCheck, HardBody({29}), StartMask, ThreadWake, ThreadStart]

  /** The device after a bring-up, interrupts on or still off. */
  function Up(holder: Holder, hard: bool, woken: bool, waiting: bool, genMask: Bits, reason: Bits, acked: Bits): State {
    State(STARTED, holder, false, true, hard, woken, waiting, {2, 29}, genMask, reason, acked, 0, 0, true, true)
  }

  lemma BroughtUp()
    ensures Run(INITIAL, BRING_UP) == Up(Start3, false, false, false, {}, {}, {})
  {
    var es := BRING_UP;
    assert es[..6] == es;
    RunPrefix(INITIAL, es, 0);
    RunPrefix(INITIAL, es, 1);
    RunPrefix(INITIAL, es, 2);
    assert Run(INITIAL, es[..3]) == State(INITIALIZED, Free, false, false, false, false, false, {2, 29}, {}, {}, {}, 1, 0, false, true);
    RunPrefix(INITIAL, es, 3);
    RunPrefix(INITIAL, es, 4);
    RunPrefix(INITIAL, es, 5);
  }

  lemma NotAllOnes(b: Bits)
    requires 0 !in b
    ensures !AllOnes(b)
  {
  }

  lemma TwoCalls()
    ensures Step(Up(Start3, false, false, false, {}, {}, {}), HardCheck) == Up(Start3, true, false, false, {}, {}, {})
    ensures Step(Up(Start3, true, false, false, {}, {}, {}), HardBody({2})) == Up(Start3, false, true, false, {}, {2}, {2})
    ensures Step(Up(Start3, false, true, false, {}, {2}, {2}), HardCheck) == Up(Start3, true, true, false, {}, {2}, {2})
    ensures Step(Up(Start3, true, true, false, {}, {2}, {2}), HardBody({29})) == Up(Start3, false, true, false, {}, {29}, {2, 29})
  {
    NotAllOnes({2});
    NotAllOnes({29});
    assert {2} * {2, 29} == {2} && {29} * {2, 29} == {29};
    assert {} + {2} == {2} && {2} + {29} == {2, 29};
  }

  lemma ThenTheThread()
    ensures Step(Up(Start3, false, true, false, {}, {29}, {2, 29}), StartMask) == Up(Free, false, true, false, {2, 29}, {29}, {2, 29})
    ensures Step(Up(Free, false, true, false, {2, 29}, {29}, {2, 29}), ThreadWake) == Up(Free, false, false, true, {2, 29}, {29}, {2, 29})
    ensures Step(Up(Free, false, false, true, {2, 29}, {29}, {2, 29}), ThreadStart) == Up(Thread, false, false, false, {2, 29}, {29}, {2})
  {
    assert {2, 29} - {29} == {2};
  }

  /** The states the run goes through. */
  lemma Overtaken()
    ensures var s := Up(Start3, false, false, false, {}, {}, {});
            && Run(s, OVERTAKEN[..5]) == Up(Free, false, true, false, {2, 29}, {29}, {2, 29})
            && Run(s, OVERTAKEN[..7]) == Up(Thread, false, false, false, {2, 29}, {29}, {2})
  {
    var s := Up(Start3, false, false, false, {}, {}, {});
    hide Step, Up;
    TwoCalls();
    ThenTheThread();
    assert OVERTAKEN[..0] == [];
    RunPrefix(s, OVERTAKEN, 0);
    RunPrefix(s, OVERTAKEN, 1);
    RunPrefix(s, OVERTAKEN, 2);
    RunPrefix(s, OVERTAKEN, 3);
    RunPrefix(s, OVERTAKEN, 4);
    RunPrefix(s, OVERTAKEN, 5);
    RunPrefix(s, OVERTAKEN, 6);
  }

  lemma AfterBringUp(n: nat)
    requires n <= |OVERTAKEN|
    ensures Run(INITIAL, BRING_UP + OVERTAKEN[..n]) == Run(Up(Start3, false, false, false, {}, {}, {}), OVERTAKEN[..n])
  {
    var es := BRING_UP + OVERTAKEN[..n];
    RunSplit(INITIAL, es, 6);
    assert es[..6] == BRING_UP && es[6..] == OVERTAKEN[..n];
    BroughtUp();
  }

  /**
  Both conditions can fail on a shared line: start switches interrupts on with
  the thread woken, and the thread run then reads one reason of the two that
  were acknowledged; no run is left to read the other.
  */
  lemma SharedLine()
    ensures var s := Run(INITIAL, BRING_UP + OVERTAKEN[..5]); s.genMask != {} && s.woken
    ensures var s := Run(INITIAL, BRING_UP + OVERTAKEN);
            s.holder == Thread && s.irqReason == {29} && s.acked == {2} && !s.woken && !s.waiting
  {
    AfterBringUp(5);
    AfterBringUp(7);
    Overtaken();
    assert OVERTAKEN[..7] == OVERTAKEN;
  }

  lemma {:induction false} RunSplit(s: State, es: seq<Event>, n: nat)
    requires n <= |es|
    ensures Run(s, es) == Run(Run(s, es[..n]), es[n..])
    decreases |es|
  {
    if n == 0 {
      assert es[..0] == [] && es[0..] == es;
    } else {
      RunSplit(Step(s, es[0]), es[1..], n - 1);
      assert es[..n][1..] == es[1..][..n - 1] && es[1..][n - 1..] == es[n..];
    }
  }

  lemma RunPrefix(s: State, es: seq<Event>, n: nat)
    requires n < |es|
    ensures Run(s, es[..n + 1]) == Step(Run(s, es[..n]), es[n])
  {
    assert es[..n + 1] == es[..n] + [es[n]];
    RunOne(s, es[..n], es[n]);
  }

  lemma RunOne(s: State, es: seq<Event>, e: Event)
    ensures Run(s, es + [e]) == Step(Run(s, es), e)
  {
    RunSplit(s, es + [e], |es|);
    assert (es + [e])[..|es|] == es && (es + [e])[|es|..] == [e] && [e][1..] == [];
    assert Run(Run(s, es), [e]) == Step(Run(s, es), e);
  }

  // ---------------------------------------------------------------- the driver's code

  /** A call of the hard handler: turned away at the status check, or all the way through. */
  ghost predicate HardCall(call: seq<Event>) {
    call == [] || (|call| == 2 && call[0] == HardCheck && call[1].HardBody?)
  }

  /**
  A run of the interrupt thread: it starts, handles a beacon interrupt if it was
  handed one, and leaves with the mask switched back on, unless a fatal DMA error
  makes it leave at once.
  */
  ghost predicate ThreadRun(run: seq<Event>, started: bool, fatal: bool, beacon: bool) {
    if !started then run == [ThreadStart] else
      && |run| >= 2 && run[0] == ThreadStart && run[|run| - 1] == (if fatal then ThreadFatal else ThreadEnd)
      && ((exists i :: 0 <= i < |run| && run[i].ThreadBeacon?) <==> beacon && !fatal)
  }

  lemma FatalRun(call: seq<Event>, beacon: bool)
    requires HardCall(call)
    ensures ThreadRun([ThreadStart] + (call + [ThreadFatal]), true, true, beacon)
  {
  }

  lemma PlainRun(call: seq<Event>, handled: seq<Event>, last: seq<Event>, beacon: bool)
    requires HardCall(call) && HardCall(last)
    requires if beacon then |handled| == 1 && handled[0].ThreadBeacon? else handled == []
    ensures ThreadRun([ThreadStart] + (call + handled + last + [ThreadEnd]), true, false, beacon)
  {
    var run := [ThreadStart] + (call + handled + last + [ThreadEnd]);
    if beacon {
      assert run[1 + |call|] == handled[0];
    }
  }

  /** The same event so many times over. */
  function Times(e: Event, n: nat): seq<Event> {
    seq(n, _ => e)
  }

  /** A configuration call with `nested` balanced suspends inside. */
  function ConfigRun(nested: nat): seq<Event> {
    [ConfigStart] + Times(Suspend, nested) + Times(Resume, nested + 1)
  }

  lemma OnceMore(es: seq<Event>, e: Event, n: nat)
    ensures es + Times(e, n) + [e] == es + Times(e, n + 1)
  {
    assert Times(e, n) + [e] == Times(e, n + 1);
  }

  /**
  The driver's functions over the device's fields and registers.  `trace` is
  the run of the machine above that has happened so far; between two steps of a
  function the other contexts may add steps of their own.
  */
  class MacCore {
    var status: Status
    var hooked: bool
    var irqMask: Bits
    var genMask: Bits
    var irqReason: Bits
    var suspended: int
    var enabled: bool
    var hard: bool
    var woken: bool
    var waiting: bool
    var depth: nat
    ghost var holder: Holder
    ghost var stopping: bool
    ghost var acked: Bits
    ghost var chipUp: bool
    ghost var trace: seq<Event>

    ghost function View(): State
      reads this
    {
      State(status, holder, stopping, hooked, hard, woken, waiting, irqMask, genMask, irqReason, acked,
            suspended, depth, enabled, chipUp)
    }

    /** The fields are where the machine is after `trace`. */
    ghost predicate Valid()
      reads this
    {
      View() == Run(INITIAL, trace)
    }

    constructor ()
      ensures Valid() && View() == INITIAL
    {
      status, hooked, irqMask, genMask, irqReason := UNINIT, false, {}, {}, {};
      suspended, enabled := 0, false;
      holder, stopping, hard, acked, depth, chipUp := Free, false, false, {}, 0, false;
      woken, waiting := false, false;
      trace := [];
    }

    /** The fields have just made step `e`. */
    ghost method Record(e: Event, before: State)
      requires before == Run(INITIAL, trace) && View() == Step(before, e)
      modifies `trace
      ensures Valid() && trace == old(trace) + [e]
    {
      RunOne(INITIAL, trace, e);
      trace := trace + [e];
    }

    /** b43_mac_suspend; the poll for the microcode may time out, which is only reported. */
    method MacSuspend()
      modifies `suspended, `enabled
      ensures View() == SuspendOnce(old(View()))
    {
      if suspended == 0 {
        enabled := false;
        var i := 75;
        var suspendedSeen: bool := *;
        while i > 0 && !suspendedSeen {
          suspendedSeen := *;
          i := i - 1;
        }
      }
      suspended := suspended + 1;
    }

    /** b43_mac_enable. */
    method MacEnable()
      modifies `suspended, `enabled
      ensures View() == EnableOnce(old(View()))
    {
      suspended := suspended - 1;
      if suspended == 0 {
        enabled := true;
      }
    }

    /** b43_do_interrupt, under the hard interrupt lock; `reason` is what the register reads. */
    method DoInterrupt(reason: Bits) returns (wake: bool)
      requires Valid() && hard
      modifies `genMask, `irqReason, `acked, `woken, `hard, `trace
      ensures Valid() && trace == old(trace) + [HardBody(reason)]
      ensures !hard && woken == (old(woken) || wake)
    {
      ghost var before := View();
      wake := SaveReason(reason);
      hard := false;
      assert Step(before, HardBody(reason)) == WithInterrupt(before, reason).(hard := false);
      Record(HardBody(reason), before);
    }

    method SaveReason(reason: Bits) returns (wake: bool)
      modifies `genMask, `irqReason, `acked, `woken
      ensures View() == WithInterrupt(old(View()), reason)
      ensures woken == (old(woken) || wake)
    {
      var masked := reason * irqMask;
      if AllOnes(reason) || masked == {} { return false; }
      genMask := {};
      irqReason := masked;
      acked := acked + masked;
      woken := true;
      return true;
    }

    /** b43_interrupt_handler: the status check, then the body under the lock. */
    method HardIrq() returns (ghost call: seq<Event>)
      requires Valid()
      modifies `genMask, `irqReason, `acked, `woken, `hard, `trace
      ensures Valid() && trace == old(trace) + call
      ensures HardCall(call) && (call != [] <==> hooked && !old(hard) && status == STARTED)
      ensures hard ==> old(hard)
      ensures call == [] ==> irqReason == old(irqReason) && woken == old(woken) && hard == old(hard)
    {
      call := [];
      if !hooked || hard || status != STARTED { return; }
      ghost var before := View();
      hard := true;
      Record(HardCheck, before);
      var reason: Bits := *;
      var wake := DoInterrupt(reason);
      call := [HardCheck, HardBody(reason)];
    }

    /** b43_do_beacon_update_trigger_work: `change` is what the beacon handler did to the mask. */
    method BeaconUpdateTriggerWork(change: BeaconIrq)
      requires Valid() && holder == Free && status != UNINIT
      modifies `irqMask, `genMask, `trace
      ensures Valid() && trace == old(trace) + [Work(change)]
    {
      ghost var before := View();
      FollowMask(change);
      Record(Work(change), before);
    }

    method FollowMask(change: BeaconIrq)
      modifies `irqMask, `genMask
      ensures View() == BeaconWork(old(View()), change)
    {
      var oldIrqMask := irqMask;
      irqMask := Changed(irqMask, change);
      if oldIrqMask != irqMask {
        if genMask != {} {
          genMask := irqMask;
        }
      }
    }

    /** The thread takes up its wake-up and goes for the mutex. */
    method ThreadTakeUp()
      requires Valid() && holder == Free && woken && !waiting
      modifies `woken, `waiting, `trace
      ensures Valid() && trace == old(trace) + [ThreadWake] && !woken && waiting
    {
      ghost var before := View();
      woken := false;
      waiting := true;
      Record(ThreadWake, before);
    }

    method TakeInterrupt() returns (run: bool)
      requires holder == Free && waiting
      modifies `waiting, `acked, `holder
      ensures View() == Step(old(View()), ThreadStart)
      ensures !waiting && (run <==> status == STARTED)
      ensures holder == if run then Thread else Free
    {
      waiting := false;
      run := status == STARTED;
      if run {
        acked := acked - irqReason;
        holder := Thread;
      }
    }

    /** The thread gets the mutex; a device no longer started is left alone. */
    method ThreadTake() returns (run: bool)
      requires Valid() && holder == Free && waiting
      modifies `waiting, `acked, `holder, `trace
      ensures Valid() && trace == old(trace) + [ThreadStart]
      ensures !waiting && (run <==> status == STARTED)
      ensures holder == if run then Thread else Free
    {
      ghost var before := View();
      run := TakeInterrupt();
      Record(ThreadStart, before);
    }

    method ThreadBeaconIrq() returns (change: BeaconIrq)
      requires Valid() && holder == Thread
      modifies `irqMask, `trace
      ensures Valid() && trace == old(trace) + [ThreadBeacon(change)] && irqMask == Changed(old(irqMask), change)
    {
      ghost var before := View();
      change := *;
      irqMask := Changed(irqMask, change);
      Record(ThreadBeacon(change), before);
    }

    method ThreadLeave(reenable: bool)
      requires Valid() && holder == Thread
      modifies `genMask, `holder, `trace
      ensures Valid() && trace == old(trace) + [if reenable then ThreadEnd else ThreadFatal]
      ensures holder == Free && genMask == if reenable then irqMask else old(genMask)
    {
      ghost var before := View();
      if reenable { genMask := irqMask; }
      holder := Free;
      Record(if reenable then ThreadEnd else ThreadFatal, before);
    }

    /** The part of the thread behind its status check. */
    method ThreadBody(reason: Bits) returns (fatal: bool, ghost run: seq<Event>)
      requires Valid() && holder == Thread
      modifies `genMask, `irqReason, `irqMask, `acked, `woken, `hard, `holder, `trace
      ensures Valid() && trace == old(trace) + run && holder == Free
      ensures ThreadRun([ThreadStart] + run, true, fatal, 1 in reason)
      ensures !fatal ==> genMask == irqMask
      ensures hard ==> old(hard)
    {
      hide *;
      ghost var call := HardIrq();
      fatal := *;
      if fatal {
        ThreadLeave(false);
        run := call + [ThreadFatal];
        FatalRun(call, 1 in reason);
        return;
      }
      ghost var handled: seq<Event> := [];
      if 1 in reason {
        var change := ThreadBeaconIrq();
        handled := [ThreadBeacon(change)];
      }
      ghost var last := HardIrq();
      ThreadLeave(true);
      run := call + handled + last + [ThreadEnd];
      PlainRun(call, handled, last, 1 in reason);
    }

    /** b43_do_interrupt_thread under the mutex, hard interrupts coming between its steps. */
    method InterruptThread() returns (fatal: bool, reason: Bits, ghost run: seq<Event>)
      requires Valid() && holder == Free && waiting
      modifies `genMask, `irqReason, `irqMask, `acked, `woken, `waiting, `hard, `holder, `trace
      ensures Valid() && trace == old(trace) + run && holder == Free && !waiting
      ensures reason == old(irqReason) && ThreadRun(run, status == STARTED, fatal, 1 in reason)
      ensures status == STARTED && !fatal ==> genMask == irqMask
      ensures status != STARTED ==> woken == old(woken) && hard == old(hard)
      ensures hard ==> old(hard)
    {
      fatal, reason := false, irqReason;
      var started := ThreadTake();
      run := [ThreadStart];
      if !started { return; }
      ghost var rest;
      fatal, rest := ThreadBody(reason);
      run := [ThreadStart] + rest;
    }

    /** b43_interrupt_thread_handler, from the wake-up on; more hard interrupts may come before it has the mutex. */
    method ThreadHandler() returns (fatal: bool, reason: Bits, ghost call: seq<Event>, ghost run: seq<Event>)
      requires Valid() && holder == Free && woken && !waiting
      modifies `genMask, `irqReason, `irqMask, `acked, `woken, `waiting, `hard, `holder, `trace
      ensures Valid() && trace == old(trace) + [ThreadWake] + call + run && holder == Free && !waiting
      ensures HardCall(call) && (call == [] ==> reason == old(irqReason))
      ensures ThreadRun(run, status == STARTED, fatal, 1 in reason)
      ensures status == STARTED && !fatal ==> genMask == irqMask
      ensures status != STARTED ==> !woken && hard == old(hard)
    {
      hide HardCall, ThreadRun, Valid;
      ThreadTakeUp();
      call := HardIrq();
      fatal, reason, run := InterruptThread();
    }

    /** setup_struct_wldev_for_init: the MAC counts as suspended once. */
    method SetupForInit(mask: Bits)
      requires Valid() && status == UNINIT && holder == Free && !stopping
      modifies `irqReason, `irqMask, `suspended, `depth, `holder, `trace
      ensures Valid() && trace == old(trace) + [Init(mask)] && holder == Init1
      ensures suspended == 1 && irqMask == mask && depth == 0
    {
      ghost var before := View();
      irqReason := {};
      irqMask := mask;
      suspended := 1;
      depth := 0;
      holder := Init1;
      Record(Init(mask), before);
    }

    /** b43_chip_init writes MACCTL without the enable bit. */
    method InitChip()
      requires Valid() && holder == Init1
      modifies `enabled, `chipUp, `holder, `trace
      ensures Valid() && trace == old(trace) + [ChipInit] && holder == Init2 && !enabled
    {
      ghost var before := View();
      enabled := false;
      chipUp := true;
      holder := Init2;
      Record(ChipInit, before);
    }

    method FinishInit(ok: bool)
      requires Valid() && (holder == Init2 || (holder == Init1 && !ok)) && depth == 0 && status == UNINIT
      modifies `status, `holder, `chipUp, `depth, `trace
      ensures Valid() && trace == old(trace) + [if ok then InitDone else InitFail]
      ensures holder == Free && status == if ok then INITIALIZED else UNINIT
    {
      ghost var before := View();
      if ok { status := INITIALIZED; } else { chipUp := false; }
      holder := Free;
      Record(if ok then InitDone else InitFail, before);
    }

    /** b43_wireless_core_init; `chip` is whether the chip came up, `rest` whether everything after it did too. */
    method CoreInit(mask: Bits, chip: bool, rest: bool) returns (ok: bool)
      requires Valid() && status == UNINIT && holder == Free && !stopping
      modifies `status, `irqReason, `irqMask, `suspended, `enabled, `depth, `holder, `chipUp, `trace
      ensures ok == (chip && rest) && Valid() && holder == Free
      ensures trace == old(trace) + [Init(mask)] + (if chip then [ChipInit] else []) + [if ok then InitDone else InitFail]
      ensures status == if ok then INITIALIZED else UNINIT
      ensures ok ==> suspended == 1 && !enabled && irqMask == mask
    {
      SetupForInit(mask);
      if chip { InitChip(); }
      ok := chip && rest;
      FinishInit(ok);
    }

    method RequestIrq()
      requires Valid() && holder == Free && status == INITIALIZED && !stopping
      modifies `hooked, `holder, `trace
      ensures Valid() && trace == old(trace) + [StartIrq(true)] && holder == Start1 && hooked
    {
      ghost var before := View();
      hooked := true;
      holder := Start1;
      Record(StartIrq(true), before);
    }

    method SetStarted()
      requires Valid() && holder == Start1
      modifies `status, `holder, `trace
      ensures Valid() && trace == old(trace) + [StartStatus] && holder == Start2 && status == STARTED
    {
      ghost var before := View();
      status := STARTED;
      holder := Start2;
      Record(StartStatus, before);
    }

    method StartDataFlow()
      requires Valid() && holder == Start2
      modifies `suspended, `enabled, `holder, `trace
      ensures Valid() && trace == old(trace) + [StartEnable] && holder == Start3
      ensures suspended == old(suspended) - 1
    {
      ghost var before := View();
      MacEnable();
      holder := Start3;
      Record(StartEnable, before);
    }

    method InterruptsOnAtStart()
      requires Valid() && holder == Start3
      modifies `genMask, `holder, `trace
      ensures Valid() && trace == old(trace) + [StartMask] && holder == Free && genMask == irqMask
      ensures !stopping
    {
      RunAlways(INITIAL, trace);
      ghost var before := View();
      genMask := irqMask;
      holder := Free;
      Record(StartMask, before);
    }

    /** b43_wireless_core_start, hard interrupts coming between its steps. */
    method CoreStart(irqOk: bool) returns (started: bool)
      requires Valid() && holder == Free && status == INITIALIZED && !stopping
      modifies `status, `hooked, `genMask, `irqReason, `suspended, `enabled, `hard, `woken, `holder, `acked, `trace
      ensures Valid() && old(trace) <= trace && holder == Free
      ensures started == irqOk
      ensures status == if started then STARTED else INITIALIZED
      ensures started ==> hooked && suspended == 0 && enabled && genMask == irqMask
      ensures !started ==> unchanged(this)
    {
      hide Valid;
      if !irqOk { return false; }
      ReadyToRun();
      StartDataFlow();
      ghost var _ := HardIrq();
      InterruptsOnAtStart();
      RunsFreely();
      started := true;
    }

    /** A started device nobody is working on has its MAC enabled. */
    lemma RunsFreely()
      requires Valid() && status == STARTED && holder == Free && !stopping
      ensures suspended == 0 && enabled
    {
      SuspendCount(trace);
    }

    method ReadyToRun()
      requires Valid() && holder == Free && status == INITIALIZED && !stopping
      modifies `status, `hooked, `genMask, `irqReason, `hard, `woken, `holder, `acked, `trace
      ensures Valid() && old(trace) <= trace && holder == Start2 && status == STARTED && hooked
    {
      RequestIrq();
      ghost var _ := HardIrq();
      SetStarted();
      ghost var _ := HardIrq();
    }

    method ConfigLock()
      requires Valid() && holder == Free && status != UNINIT
      modifies `suspended, `enabled, `holder, `depth, `trace
      ensures Valid() && trace == old(trace) + [ConfigStart] && holder == Config && depth == 1
      ensures suspended == old(suspended) + 1
    {
      ghost var before := View();
      MacSuspend();
      holder := Config;
      depth := 1;
      Record(ConfigStart, before);
    }

    method NestedSuspend()
      requires Valid() && holder == Config
      modifies `suspended, `enabled, `depth, `trace
      ensures Valid() && trace == old(trace) + [Suspend] && depth == old(depth) + 1
      ensures suspended == old(suspended) + 1
    {
      ghost var before := View();
      MacSuspend();
      depth := depth + 1;
      Record(Suspend, before);
    }

    method LeaveSuspend()
      requires holder == Config && depth > 0
      modifies `suspended, `enabled, `depth, `holder
      ensures View() == Step(old(View()), Resume)
      ensures depth == old(depth) - 1 && suspended == old(suspended) - 1
      ensures holder == if depth == 0 then Free else Config
    {
      MacEnable();
      depth := depth - 1;
      if depth == 0 { holder := Free; }
    }

    method NestedEnable()
      requires Valid() && holder == Config && depth > 0
      modifies `suspended, `enabled, `depth, `holder, `trace
      ensures Valid() && trace == old(trace) + [Resume] && depth == old(depth) - 1
      ensures suspended == old(suspended) - 1
      ensures holder == if depth == 0 then Free else Config
    {
      ghost var before := View();
      LeaveSuspend();
      Record(Resume, before);
    }

    /** b43_op_config and its like: a suspend, any balanced suspends inside, an enable. */
    method OpConfig(nested: nat)
      requires Valid() && holder == Free && status != UNINIT
      modifies `suspended, `enabled, `depth, `holder, `trace
      ensures Valid() && trace == old(trace) + ConfigRun(nested) && holder == Free
      ensures suspended == old(suspended) && enabled == old(enabled)
    {
      RunAlways(INITIAL, trace);
      ConfigLock();
      SuspendNested(nested);
      EnableNested();
      RunAlways(INITIAL, trace);
      assert old(trace) + [ConfigStart] + Times(Suspend, nested) + Times(Resume, nested + 1) == old(trace) + ConfigRun(nested);
    }

    method SuspendNested(n: nat)
      requires Valid() && holder == Config
      modifies `suspended, `enabled, `depth, `trace
      ensures Valid() && trace == old(trace) + Times(Suspend, n)
      ensures depth == old(depth) + n && suspended == old(suspended) + n
    {
      for i := 0 to n
        invariant Valid() && trace == old(trace) + Times(Suspend, i)
        invariant depth == old(depth) + i && suspended == old(suspended) + i
      {
        NestedSuspend();
        OnceMore(old(trace), Suspend, i);
      }
    }

    method EnableNested()
      requires Valid() && holder == Config && depth > 0
      modifies `suspended, `enabled, `depth, `holder, `trace
      ensures Valid() && trace == old(trace) + Times(Resume, old(depth))
      ensures depth == 0 && suspended == old(suspended) - old(depth) && holder == Free
    {
      ghost var n := 0;
      while depth > 0
        invariant n + depth == old(depth)
        invariant Valid() && trace == old(trace) + Times(Resume, n)
        invariant suspended == old(suspended) - n
        invariant holder == if depth > 0 then Config else Free
      {
        NestedEnable();
        OnceMore(old(trace), Resume, n);
        n := n + 1;
      }
    }

    method MarkStopped()
      requires Valid() && holder == Free && status == STARTED && !stopping
      modifies `status, `holder, `stopping, `trace
      ensures Valid() && trace == old(trace) + [StopStatus]
      ensures holder == Stop1 && stopping && status == INITIALIZED
    {
      ghost var before := View();
      status := INITIALIZED;
      holder := Stop1;
      stopping := true;
      Record(StopStatus, before);
    }

    method InterruptsOff()
      requires Valid() && holder == Stop1
      modifies `genMask, `holder, `trace
      ensures Valid() && trace == old(trace) + [StopMask] && holder == Free && genMask == {}
    {
      ghost var before := View();
      genMask := {};
      holder := Free;
      Record(StopMask, before);
    }

    /** free_irq: waits for a hard handler and for every wake-up, while others may have the mutex. */
    method SynchronizeAndFreeIrq()
      requires Valid() && holder == Free && stopping && status == INITIALIZED
      modifies `genMask, `irqReason, `irqMask, `acked, `woken, `waiting, `hard, `holder, `hooked, `trace
      modifies `suspended, `enabled, `depth
      ensures Valid() && old(trace) <= trace && holder == Free && !hooked
    {
      hide Valid;
      MutexFree();
      if hard {
        var reason: Bits := *;
        var wake := DoInterrupt(reason);
      }
      DrainThread();
      MutexFree();
      Unhook();
      MutexFree();
    }

    /** A run that waits for the mutex, and a wake-up still to be taken: both find the device stopped. */
    method DrainThread()
      requires Valid() && holder == Free && stopping && status == INITIALIZED && !hard
      modifies `genMask, `irqReason, `irqMask, `acked, `woken, `waiting, `hard, `holder, `trace
      modifies `suspended, `enabled, `depth
      ensures Valid() && old(trace) <= trace && holder == Free && !hard && !woken && !waiting
    {
      hide Valid, ThreadRun, HardCall;
      MutexFree();
      if waiting {
        var _, _, _ := InterruptThread();
      }
      MutexFree();
      if woken {
        var _, _, _, _ := ThreadHandler();
      }
    }

    method Unhook()
      requires Valid() && holder == Free && stopping && !hard && !woken && !waiting
      modifies `hooked, `trace
      ensures Valid() && trace == old(trace) + [FreeIrq] && !hooked
    {
      ghost var before := View();
      hooked := false;
      Record(FreeIrq, before);
    }

    method Relock()
      requires Valid() && holder == Free && stopping && !hooked
      modifies `holder, `trace
      ensures Valid() && trace == old(trace) + [StopRelock] && holder == Stop2
    {
      ghost var before := View();
      holder := Stop2;
      Record(StopRelock, before);
    }

    method SuspendAtStop()
      requires Valid() && holder == Stop2
      modifies `suspended, `enabled, `stopping, `holder, `trace
      ensures Valid() && trace == old(trace) + [StopSuspend] && holder == Free && !stopping
      ensures suspended == old(suspended) + 1 && (old(suspended) == 0 ==> !enabled)
    {
      ghost var before := View();
      MacSuspend();
      stopping := false;
      holder := Free;
      Record(StopSuspend, before);
    }

    /**
    b43_wireless_core_stop: mark the device stopped, switch interrupts off, drop
    the mutex and wait for the handlers, take it again, suspend the MAC.  While
    the mutex is free, configuration calls and beacon work may come.
    */
    method CoreStop()
      requires Valid() && holder == Free && status == STARTED && !stopping
      modifies `status, `hooked, `irqMask, `genMask, `irqReason, `suspended, `enabled, `hard, `woken, `waiting, `depth,
               `holder, `stopping, `acked, `trace
      ensures Valid() && old(trace) <= trace && holder == Free && !stopping
      ensures status == INITIALIZED && !hooked && genMask == {} && suspended == 1 && !enabled
    {
      MarkStopped();
      InterruptsOff();
      SynchronizeAndFreeIrq();
      Relock();
      StopFindsInterruptsOff(trace);
      SuspendAtStop();
    }

    /** Configuration calls and beacon work while a stop has dropped the mutex. */
    method MutexFree()
      requires Valid() && holder == Free && stopping && status == INITIALIZED
      modifies `irqMask, `genMask, `suspended, `enabled, `depth, `holder, `trace
      ensures Valid() && old(trace) <= trace && holder == Free
    {
      var calls: int :| 0 <= calls;
      for i := 0 to calls
        invariant Valid() && old(trace) <= trace && holder == Free
      {
        var config: bool := *;
        if config {
          var nested: int :| 0 <= nested;
          OpConfig(nested);
        } else {
          var change: BeaconIrq := *;
          BeaconUpdateTriggerWork(change);
        }
      }
    }

    /** b43_wireless_core_exit. */
    method CoreExit()
      requires Valid() && holder == Free && !stopping && status == INITIALIZED
      modifies `status, `chipUp, `trace
      ensures Valid() && trace == old(trace) + [Exit] && status == UNINIT
    {
      ghost var before := View();
      status := UNINIT;
      chipUp := false;
      Record(Exit, before);
    }
  }
}
