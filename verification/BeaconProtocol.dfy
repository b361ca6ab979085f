/**
The beacon double buffer: mac80211 hands over a new beacon at any time, a
handler run (from the work item or the interrupt thread, one at a time) copies
it into one of two template slots and marks the slot valid, and the microcode
clears a valid bit or raises the interrupt at any time.

The hard interrupt handler saves the reason if the interrupt is asked for at
that moment; the thread runs the handler on the saved reason later, whether or
not the interrupt is still asked for by then.

A handler run is a sequence of small steps here, and updates and microcode
steps may come between any two of them.  Writing a template from the current
beacon is one step; setting its `uploaded` flag, which the driver does after
dropping the beacon lock, is the next.
*/
module BeaconProtocol {
  import opened Pairs

  type Beacon = nat

  /** Where a handler run stands: `mark` is the slot to make valid, `both` says slot 1 is still to upload. */
  datatype Pc =
    | Idle
    | Rearm
    | Upload(slot: nat, both: bool, mark: nat)
    | Flag(slot: nat, both: bool, mark: nat)
    | ReadCmd(mark: nat)
    | WriteCmd(mark: nat, cmd: Pair<bool>)

  datatype State = State(
    current: Option<Beacon>,
    uploaded: Pair<bool>,
    template: Pair<Option<Beacon>>,
    valid: Pair<bool>,
    virgin: bool,
    work: bool,
    armed: bool,      // the interrupt is in irq_mask
    reason: bool,     // the interrupt is raised
    latched: nat,     // thread runs outstanding that will find it in the saved reason
    handed: bool,
    pc: Pc)
  // `handed` only records, for the theorems, that the current beacon was made
  // valid in some slot since it became current.

  datatype Event =
    | Update(beacon: Beacon)
    | Microcode(slot: nat)
    | Raise
    | HardIrq(runs: nat)   // the reason is saved; `runs` thread runs are outstanding then
    | Lose(left: nat)      // a saved reason is overwritten, or its run returns before it looks at it
    | StartWork(beaconing: bool)
    | StartIrq(beaconing: bool)
    | Handler(cloned: bool)

  const INITIAL := State(None, Pair(false, false), Pair(None, None), Pair(false, false), true,
                         false, false, false, 0, false, Idle)

  /** The head of handle_irq_beacon: mode check, interrupt off, valid bits read, path chosen. */
  function Enter(s: State, beaconing: bool): State {
    if !beaconing then s
    else
      var s := s.(armed := false);
      if s.valid.c0 && s.valid.c1 then s.(pc := Rearm)
      else if s.virgin then s.(virgin := false, pc := Upload(0, true, 0))
      else if !s.valid.c0 then s.(pc := Upload(0, false, 0))
      else s.(pc := Upload(1, false, 1))
  }

  function Next(both: bool, mark: nat): Pc {
    if both then Upload(1, false, mark) else ReadCmd(mark)
  }

  /** One small step of a running handler; `cloned` says whether the beacon could be cloned. */
  function HandlerStep(s: State, cloned: bool): State {
    match s.pc
    case Idle => s
    case Rearm => s.(reason := true, armed := true, pc := Idle)
    case Upload(slot, both, mark) =>
      if s.uploaded.Get(slot) then s.(pc := Next(both, mark))
      else s.(template := if cloned then s.template.Set(slot, s.current) else s.template,
              pc := Flag(slot, both, mark))
    case Flag(slot, both, mark) => s.(uploaded := s.uploaded.Set(slot, true), pc := Next(both, mark))
    case ReadCmd(mark) => s.(pc := WriteCmd(mark, s.valid.Set(mark, true)))
    case WriteCmd(mark, cmd) =>
      s.(valid := cmd, handed := s.handed || s.uploaded.Get(mark), pc := Idle)
  }

  function Step(s: State, e: Event): State {
    match e
    case Update(b) => s.(current := Some(b), uploaded := Pair(false, false), work := true, handed := false)
    case Microcode(k) => s.(valid := s.valid.Set(k, false))
    case Raise => s.(reason := true)
    case HardIrq(runs) => if s.reason && s.armed && runs > 0 then s.(reason := false, latched := runs) else s
    case Lose(left) => if left < s.latched then s.(latched := left) else s
    case StartWork(beaconing) =>
      if s.pc.Idle? && s.work then Enter(s.(work := false), beaconing) else s
    case StartIrq(beaconing) =>
      if s.pc.Idle? && s.latched > 0 then Enter(s.(latched := s.latched - 1), beaconing) else s
    case Handler(cloned) => HandlerStep(s, cloned)
  }

  function Run(s: State, es: seq<Event>): State
    decreases |es|
  {
    if es == [] then s else Run(Step(s, es[0]), es[1..])
  }

  lemma {:induction false} RunAppend(s: State, es: seq<Event>, fs: seq<Event>)
    ensures Run(s, es + fs) == Run(Run(s, es), fs)
    decreases |es|
  {
    if es == [] {
      assert es + fs == fs;
    } else {
      assert (es + fs)[0] == es[0] && (es + fs)[1..] == es[1..] + fs;
      RunAppend(Step(s, es[0]), es[1..], fs);
    }
  }

  // ---------------------------------------------------------------- safety, over every run

  /** What every reachable state satisfies, whatever the interleaving. */
  ghost predicate Inv(s: State) {
    && (s.virgin ==> s.pc.Idle? && !s.valid.c0 && !s.valid.c1 && !s.uploaded.c0 && !s.uploaded.c1)
    && PcInv(s.valid, s.pc)
  }

  /** Slots a handler run will still upload or mark exist and are not valid. */
  ghost predicate PcInv(valid: Pair<bool>, pc: Pc) {
    match pc
    case Upload(slot, both, mark) =>
      slot <= 1 && mark <= 1 && !valid.Get(slot) && !valid.Get(mark) && (both ==> !valid.c1)
    case Flag(slot, both, mark) =>
      slot <= 1 && mark <= 1 && !valid.Get(slot) && !valid.Get(mark) && (both ==> !valid.c1)
    case ReadCmd(mark) => mark <= 1 && !valid.Get(mark)
    case WriteCmd(mark, cmd) =>
      mark <= 1 && cmd.Get(mark) && (valid.c0 ==> cmd.c0) && (valid.c1 ==> cmd.c1)
    case _ => true
  }

  lemma UploadInv(s: State, cloned: bool)
    requires Inv(s) && (s.pc.Upload? || s.pc.Flag?)
    ensures Inv(HandlerStep(s, cloned))
  {
  }

  lemma HandlerInv(s: State, cloned: bool)
    requires Inv(s)
    ensures Inv(HandlerStep(s, cloned))
  {
    if s.pc.Upload? || s.pc.Flag? { UploadInv(s, cloned); }
  }

  lemma StepInv(s: State, e: Event)
    requires Inv(s)
    ensures Inv(Step(s, e))
  {
    if e.Handler? { HandlerInv(s, e.cloned); }
  }

  lemma {:induction false} RunInv(s: State, es: seq<Event>)
    requires Inv(s)
    ensures Inv(Run(s, es))
    decreases |es|
  {
    if es != [] {
      StepInv(s, es[0]);
      RunInv(Step(s, es[0]), es[1..]);
    }
  }

  /** The step that writes a template, whether or not the frame could be cloned and whatever the template held. */
  predicate Writes(s: State, e: Event, k: nat) {
    e.Handler? && s.pc.Upload? && s.pc.slot == k && !s.uploaded.Get(k)
  }

  /** No step of any run writes a template whose valid bit is set, and no other step changes one. */
  lemma NoWriteWhileValid(es: seq<Event>, e: Event, k: nat)
    requires k <= 1
    ensures var s := Run(INITIAL, es);
            && (Writes(s, e, k) ==> !s.valid.Get(k))
            && (Step(s, e).template.Get(k) != s.template.Get(k) ==> Writes(s, e, k))
  {
    RunInv(INITIAL, es);
  }

  /** Only the last step of a handler run sets a valid bit, and it never clears one. */
  lemma ValidBits(es: seq<Event>, e: Event, k: nat)
    requires k <= 1
    ensures var s := Run(INITIAL, es);
            && (Step(s, e).valid.Get(k) && !s.valid.Get(k) ==> e.Handler? && s.pc.WriteCmd? && s.pc.cmd.Get(k))
            && (s.valid.Get(k) && !Step(s, e).valid.Get(k) ==> e.Microcode?)
  {
    RunInv(INITIAL, es);
  }

  // ---------------------------------------------------------------- freshness, over clean runs

  /**
  A clean event does not fall into the gaps the driver leaves open: an update
  between a template's write and its flag, a beacon that could not be cloned,
  and a saved reason that is lost.
  */
  ghost predicate Clean(s: State, e: Event) {
    && (e.Update? ==> !s.pc.Flag?)
    && (e.Lose? ==> e.left >= s.latched)
    && (e.Handler? && s.pc.Upload? && !s.uploaded.Get(s.pc.slot) ==> e.cloned)
  }

  ghost predicate CleanRun(s: State, es: seq<Event>)
    decreases |es|
  {
    es == [] || (Clean(s, es[0]) && CleanRun(Step(s, es[0]), es[1..]))
  }

  /** An uploaded slot holds the current beacon; nothing an update asked for is forgotten. */
  ghost predicate Fresh(s: State) {
    && (s.current.None? ==> !s.work && !s.armed && s.latched == 0 && s.pc.Idle? && !s.uploaded.c0 && !s.uploaded.c1)
    && (s.uploaded.c0 ==> s.template.c0 == s.current)
    && (s.uploaded.c1 ==> s.template.c1 == s.current)
    && (s.pc.Flag? ==> s.template.Get(s.pc.slot) == s.current)
    && (s.pc.Upload? || s.pc.Flag? ==>
          s.uploaded.Get(s.pc.mark) || s.work || s.pc.mark == s.pc.slot || (s.pc.both && s.pc.mark == 1))
    && (s.pc.ReadCmd? ==> s.uploaded.Get(s.pc.mark) || s.work)
    && (s.pc.WriteCmd? ==> s.uploaded.Get(s.pc.mark) || s.work)
    && (s.pc.Idle? && s.current.Some? ==> s.work || (s.armed && s.reason) || s.latched > 0 || s.handed)
    && (s.handed ==> s.current.Some? && (s.uploaded.c0 || s.uploaded.c1))
  }

  lemma UploadFresh(s: State)
    requires Inv(s) && Fresh(s) && s.pc.Upload?
    ensures Fresh(HandlerStep(s, true))
    ensures s.uploaded.Get(s.pc.slot) ==> Fresh(HandlerStep(s, false))
  {
  }

  lemma FlagFresh(s: State)
    requires Inv(s) && Fresh(s) && s.pc.Flag?
    ensures Fresh(HandlerStep(s, true)) && Fresh(HandlerStep(s, false))
  {
  }

  lemma EnterFresh(s: State)
    requires Inv(s) && s.pc.Idle? && s.current.Some?
    requires s.uploaded.c0 ==> s.template.c0 == s.current
    requires s.uploaded.c1 ==> s.template.c1 == s.current
    requires s.handed ==> s.uploaded.c0 || s.uploaded.c1
    ensures Fresh(Enter(s, true))
  {
  }

  lemma StepFresh(s: State, e: Event)
    requires Inv(s) && Fresh(s) && Clean(s, e)
    requires e.StartWork? || e.StartIrq? ==> e.beaconing
    ensures Fresh(Step(s, e))
  {
    match e {
      case StartWork(_) => if s.pc.Idle? && s.work { EnterFresh(s.(work := false)); }
      case StartIrq(_) => if s.pc.Idle? && s.latched > 0 { EnterFresh(s.(latched := s.latched - 1)); }
      case Handler(cloned) =>
        if s.pc.Upload? { UploadFresh(s); } else if s.pc.Flag? { FlagFresh(s); } else { TailFresh(s, cloned); }
      case _ =>
    }
  }

  lemma TailFresh(s: State, cloned: bool)
    requires Inv(s) && Fresh(s) && !s.pc.Upload? && !s.pc.Flag?
    ensures Fresh(HandlerStep(s, cloned))
  {
  }

  ghost predicate Beaconing(es: seq<Event>) {
    forall n :: 0 <= n < |es| ==> (es[n].StartWork? || es[n].StartIrq? ==> es[n].beaconing)
  }

  /** In every state of every clean run in a beaconing mode: uploaded slots are current, no update is forgotten. */
  lemma {:induction false} RunFresh(s: State, es: seq<Event>)
    requires Inv(s) && Fresh(s) && CleanRun(s, es) && Beaconing(es)
    ensures Inv(Run(s, es)) && Fresh(Run(s, es))
    decreases |es|
  {
    if es != [] {
      StepInv(s, es[0]);
      StepFresh(s, es[0]);
      RunFresh(Step(s, es[0]), es[1..]);
    }
  }

  /** The run under way will make a slot valid that is uploaded by then. */
  ghost predicate Delivers(s: State) {
    match s.pc
    case Upload(slot, both, mark) => s.uploaded.Get(mark) || mark == slot
    case Flag(slot, both, mark) => s.uploaded.Get(mark) || mark == slot
    case ReadCmd(mark) => s.uploaded.Get(mark)
    case WriteCmd(mark, cmd) => s.uploaded.Get(mark)
    case _ => true
  }

  ghost predicate HasUpdate(es: seq<Event>) {
    exists e :: e in es && e.Update?
  }

  lemma StepDelivers(s: State, e: Event)
    requires Inv(s) && Delivers(s) && !e.Update?
    ensures Delivers(Step(s, e))
  {
  }

  /** Work stays queued while a run is under way; the run that takes it delivers. */
  lemma StepQueued(s: State, e: Event)
    requires Inv(s) && s.work
    ensures Step(s, e).work || Delivers(Step(s, e))
  {
  }

  lemma {:induction false} RunDelivers(s: State, es: seq<Event>, updated: bool)
    requires Inv(s) && (Delivers(s) || (updated && s.work))
    ensures Delivers(Run(s, es)) || ((updated || HasUpdate(es)) && Run(s, es).work)
    decreases |es|
  {
    if es != [] {
      var e := es[0];
      StepInv(s, e);
      if e.Update? {
        assert e in es;
      } else if Delivers(s) {
        StepDelivers(s, e);
      } else {
        StepQueued(s, e);
      }
      RunDelivers(Step(s, e), es[1..], updated || e.Update?);
      assert forall f :: f in es[1..] ==> f in es;
    }
  }

  lemma EndDelivers(s: State, cloned: bool)
    requires Inv(s) && Fresh(s) && Delivers(s) && !s.pc.Idle? && HandlerStep(s, cloned).pc.Idle?
    ensures var t := HandlerStep(s, cloned);
            || (t.valid.c0 && t.template.c0 == t.current)
            || (t.valid.c1 && t.template.c1 == t.current)
            || (s.pc.Rearm? && t.armed && t.reason)
  {
  }

  /** Inv, Fresh and what a run delivers, after a start and what follows it. */
  lemma AfterStart(es: seq<Event>, start: Event, mid: seq<Event>)
    requires CleanRun(INITIAL, es + [start] + mid) && Beaconing(es + [start] + mid)
    requires Run(INITIAL, es).pc.Idle?
    ensures var s := Run(INITIAL, es + [start] + mid);
            Inv(s) && Fresh(s) && (Delivers(s) || (HasUpdate(mid) && s.work))
  {
    RunFresh(INITIAL, es + [start] + mid);
    RunInv(INITIAL, es);
    RunAppend(INITIAL, es + [start], mid);
    RunOne(INITIAL, es, start);
    var s := Run(INITIAL, es);
    StepInv(s, start);
    assert Delivers(Step(s, start));
    RunDelivers(Step(s, start), mid, false);
  }

  /**
  The step that ends a handler run, `mid` being everything since the run began,
  leaves the current beacon in a valid slot or has re-armed the interrupt,
  unless an update came while the run was under way, which is then queued.
  */
  lemma HandlerRunEnds(es: seq<Event>, start: Event, mid: seq<Event>, cloned: bool)
    requires CleanRun(INITIAL, es + [start] + mid) && Beaconing(es + [start] + mid)
    requires Run(INITIAL, es).pc.Idle? && !Step(Run(INITIAL, es), start).pc.Idle?
    requires !Run(INITIAL, es + [start] + mid).pc.Idle?
    requires HandlerStep(Run(INITIAL, es + [start] + mid), cloned).pc.Idle?
    ensures var s := HandlerStep(Run(INITIAL, es + [start] + mid), cloned);
            || (s.valid.c0 && s.template.c0 == s.current)
            || (s.valid.c1 && s.template.c1 == s.current)
            || (Run(INITIAL, es + [start] + mid).pc.Rearm? && s.armed && s.reason)
            || (HasUpdate(mid) && s.work)
  {
    hide Inv, Fresh, Delivers, HasUpdate, CleanRun, Beaconing, Run;
    AfterStart(es, start, mid);
    var s := Run(INITIAL, es + [start] + mid);
    if Delivers(s) {
      EndDelivers(s, cloned);
    }
  }

  // ---------------------------------------------------------------- whole handler runs

  /** A run of a handler, from its start to the step that ends it, with anything in between. */
  ghost predicate OneRun(s: State, es: seq<Event>)
    decreases |es|
  {
    && !s.pc.Idle? && es != []
    && (if |es| == 1 then Step(s, es[0]).pc.Idle? else OneRun(Step(s, es[0]), es[1..]))
  }

  /** A handler run that begins here. */
  ghost predicate Begins(s: State, start: Event) {
    s.pc.Idle? && (start.StartWork? || start.StartIrq?) && start.beaconing && !Step(s, start).pc.Idle?
  }

  lemma {:induction false} RunRearms(s: State, es: seq<Event>)
    requires OneRun(s, es) && !s.armed
    ensures Run(s, es).armed <==> s.pc.Rearm?
    ensures s.pc.Rearm? ==> Run(s, es).reason
    decreases |es|
  {
    if |es| == 1 {
      assert Run(s, es) == Step(s, es[0]) by { assert es[1..] == []; }
    } else {
      RunRearms(Step(s, es[0]), es[1..]);
    }
  }

  /** Whatever comes meanwhile, a handler run ends with the interrupt armed exactly if both slots were valid as it began. */
  lemma RearmsExactlyWhenBusy(s: State, start: Event, es: seq<Event>)
    requires Begins(s, start) && OneRun(Step(s, start), es)
    ensures var t := Run(Step(s, start), es);
            && (t.armed <==> s.valid.c0 && s.valid.c1)
            && (t.armed ==> t.reason)
  {
    RunRearms(Step(s, start), es);
  }

  // ---------------------------------------------------------------- the gap

  function Updates(us: seq<Beacon>): (es: seq<Event>)
    ensures |es| == |us| && forall n :: 0 <= n < |us| ==> es[n] == Update(us[n])
  {
    seq(|us|, n requires 0 <= n < |us| => Update(us[n]))
  }

  function LastBeacon(s: State, us: seq<Beacon>): Option<Beacon> {
    if us == [] then s.current else Some(us[|us| - 1])
  }

  lemma {:induction false} UpdatesRun(s: State, us: seq<Beacon>)
    ensures var s' := Run(s, Updates(us));
            && s'.current == LastBeacon(s, us) && s'.template == s.template && s'.pc == s.pc
            && (us == [] ==> s' == s)
    decreases |us|
  {
    if us != [] {
      assert Updates(us)[1..] == Updates(us[1..]);
      UpdatesRun(Step(s, Update(us[0])), us[1..]);
    }
  }

  /**
  What exactly the gap does: with updates `us` between a template's write and
  its flag, the slot counts as uploaded, and it holds the current beacon if and
  only if what was written (nothing new when the clone failed) is what is
  current at the flag.
  */
  lemma GapExactly(s: State, cloned: bool, us: seq<Beacon>)
    requires Inv(s) && s.pc.Upload? && !s.uploaded.Get(s.pc.slot)
    ensures var k := s.pc.slot;
            var s' := Run(s, [Handler(cloned)] + Updates(us) + [Handler(true)]);
            && s'.uploaded.Get(k)
            && (s'.template.Get(k) == s'.current <==>
                (if cloned then s.current else s.template.Get(k)) == LastBeacon(s, us))
  {
    var s1 := Step(s, Handler(cloned));
    RunAppend(s, [Handler(cloned)] + Updates(us), [Handler(true)]);
    RunAppend(s, [Handler(cloned)], Updates(us));
    assert Run(s, [Handler(cloned)]) == s1 by { assert [Handler(cloned)][1..] == []; }
    UpdatesRun(s1, us);
    var s2 := Run(s1, Updates(us));
    assert Run(s2, [Handler(true)]) == Step(s2, Handler(true)) by { assert [Handler(true)][1..] == []; }
  }

  /** A slot that counts as uploaded without holding the current beacon. */
  ghost predicate Stale(s: State, k: nat) {
    s.uploaded.Get(k) && s.template.Get(k) != s.current
  }

  /** The slot a handler run goes for when it does not find both busy. */
  function Picked(s: State): nat {
    if !s.valid.c0 then 0 else 1
  }

  /** No update, every frame can be cloned, no saved reason is lost. */
  ghost predicate Undisturbed(es: seq<Event>) {
    forall e :: e in es ==> !e.Update? && !e.Lose? && (e.Handler? ==> e.cloned)
  }

  /** A run that goes for slot `m` and takes what it finds there for granted. */
  ghost predicate Taking(s: State, t: State, m: nat) {
    && t.current == s.current && t.template == s.template && t.work == s.work && t.latched == s.latched
    && !t.armed && t.uploaded == s.uploaded
    && (t.pc == Upload(m, false, m) || t.pc == ReadCmd(m) || (t.pc.WriteCmd? && t.pc.mark == m && t.pc.cmd.Get(m)))
  }

  /** A run that fills slot `m` and makes it valid. */
  ghost predicate Filling(s: State, t: State, m: nat)
    requires m <= 1
  {
    && t.current == s.current && t.work == s.work && t.latched == s.latched && !t.armed
    && t.template.Get(1 - m) == s.template.Get(1 - m) && t.uploaded.Get(1 - m) == s.uploaded.Get(1 - m)
    && match t.pc
       case Upload(slot, both, mark) => slot == mark == m && !both && !t.uploaded.Get(m)
       case Flag(slot, both, mark) => slot == mark == m && !both && t.template.Get(m) == s.current
       case ReadCmd(mark) => mark == m && t.template.Get(m) == s.current
       case WriteCmd(mark, cmd) => mark == m && cmd.Get(m) && t.template.Get(m) == s.current
       case _ => false
  }

  lemma {:induction false} TakingEnds(s: State, t: State, m: nat, es: seq<Event>)
    requires m <= 1 && Taking(s, t, m) && s.uploaded.Get(m) && OneRun(t, es) && Undisturbed(es)
    ensures var u := Run(t, es);
            && u.pc.Idle? && u.valid.Get(m) && u.work == s.work && u.latched == s.latched && !u.armed
            && u.current == s.current && u.template == s.template && u.uploaded == s.uploaded
    decreases |es|
  {
    assert es[0] in es;
    if |es| == 1 {
      assert Run(t, es) == Step(t, es[0]) by { assert es[1..] == []; }
    } else {
      assert forall f :: f in es[1..] ==> f in es;
      TakingEnds(s, Step(t, es[0]), m, es[1..]);
    }
  }

  /** The slot it filled is valid and holds the beacon; the other is as it was. */
  ghost predicate Filled(s: State, u: State, m: nat)
    requires m <= 1
  {
    && u.pc.Idle? && u.valid.Get(m) && u.work == s.work && u.latched == s.latched && !u.armed
    && u.current == s.current && u.template.Get(m) == s.current
    && u.template.Get(1 - m) == s.template.Get(1 - m) && u.uploaded.Get(1 - m) == s.uploaded.Get(1 - m)
  }

  lemma FillingStep(s: State, t: State, m: nat, e: Event)
    requires m <= 1 && Filling(s, t, m) && !e.Update? && !e.Lose? && (e.Handler? ==> e.cloned)
    ensures if Step(t, e).pc.Idle? then Filled(s, Step(t, e), m) else Filling(s, Step(t, e), m)
  {
  }

  lemma {:induction false} FillingEnds(s: State, t: State, m: nat, es: seq<Event>)
    requires m <= 1 && Filling(s, t, m) && OneRun(t, es) && Undisturbed(es)
    ensures Filled(s, Run(t, es), m)
    decreases |es|
  {
    hide Filling, Filled, Step;
    assert es[0] in es;
    FillingStep(s, t, m, es[0]);
    if |es| == 1 {
      assert Run(t, es) == Step(t, es[0]) by { assert es[1..] == []; }
    } else {
      assert forall f :: f in es[1..] ==> f in es;
      assert !Step(t, es[0]).pc.Idle?;
      FillingEnds(s, Step(t, es[0]), m, es[1..]);
    }
  }

  /** With nothing queued, armed or saved, no handler runs again before the next update. */
  ghost predicate Over(s: State) {
    s.pc.Idle? && !s.work && !s.armed && s.latched == 0
  }

  lemma {:induction false} OverStays(s: State, es: seq<Event>)
    requires Over(s) && !HasUpdate(es)
    ensures var u := Run(s, es); Over(u) && u.current == s.current && u.template == s.template
    decreases |es|
  {
    if es != [] {
      assert es[0] in es;
      assert forall f :: f in es[1..] ==> f in es;
      OverStays(Step(s, es[0]), es[1..]);
    }
  }

  lemma BeginsRun(s: State, start: Event)
    requires Inv(s) && (Stale(s, 0) || Stale(s, 1)) && Begins(s, start) && !(s.valid.c0 && s.valid.c1)
    ensures var t, m := Step(s, start), Picked(s);
            && t.current == s.current && t.template == s.template && t.uploaded == s.uploaded
            && if s.uploaded.Get(m) then Taking(t, t, m) else Filling(t, t, m)
  {
  }

  /**
  Some slot counts as uploaded without holding the current beacon, and a handler
  run begins that finds a slot free: slot 0 if that is free, otherwise slot 1.
  It makes that slot valid, and the slot then holds the current beacon if and
  only if it was not the stale one.
  */
  lemma DeliveredExactly(s: State, start: Event, es: seq<Event>)
    requires Inv(s) && (Stale(s, 0) || Stale(s, 1)) && Begins(s, start) && !(s.valid.c0 && s.valid.c1)
    requires OneRun(Step(s, start), es) && Undisturbed(es)
    ensures var u, m := Run(Step(s, start), es), Picked(s);
            && u.pc.Idle? && u.valid.Get(m) && u.current == s.current
            && !u.armed && u.work == Step(s, start).work && u.latched == Step(s, start).latched
            && (u.template.Get(m) == u.current <==> !Stale(s, m))
            && u.template.Get(1 - m) == s.template.Get(1 - m) && u.uploaded.Get(1 - m) == s.uploaded.Get(1 - m)
            && (Stale(s, m) ==> u.template == s.template && u.uploaded == s.uploaded)
  {
    hide Taking, Filling;
    BeginsRun(s, start);
    var t := Step(s, start);
    hide Step;
    if s.uploaded.Get(Picked(s)) {
      TakingEnds(t, t, Picked(s), es);
    } else {
      FillingEnds(t, t, Picked(s), es);
    }
  }

  /** Whatever happens before the next update, neither slot gets the current beacon. */
  ghost predicate Lost(s: State) {
    forall es :: !HasUpdate(es) ==> NeitherHolds(Run(s, es))
  }

  predicate NeitherHolds(s: State) {
    s.template.c0 != s.current && s.template.c1 != s.current
  }

  lemma OverIsLost(s: State)
    requires Over(s) && NeitherHolds(s)
    ensures Lost(s)
  {
    forall es | !HasUpdate(es) ensures NeitherHolds(Run(s, es)) {
      OverStays(s, es);
    }
  }

  lemma HeldIsNotLost(s: State)
    requires !NeitherHolds(s)
    ensures !Lost(s)
  {
    assert !HasUpdate([]) && Run(s, []) == s;
  }

  /** With a handler run still to come the other slot may yet be filled: the microcode frees it, and that run goes for it. */
  lemma QueuedIsNotLost(s: State, k: nat)
    requires k <= 1 && s.pc.Idle? && (s.work || s.latched > 0) && !s.virgin && s.valid.Get(k) && !s.uploaded.Get(1 - k)
    ensures !Lost(s)
  {
    var start := if s.work then StartWork(true) else StartIrq(true);
    var es := [Microcode(1 - k), start, Handler(true)];
    var s1 := Step(s, Microcode(1 - k));
    var s2 := Step(s1, start);
    assert es[1..] == [start, Handler(true)] && es[1..][1..] == [Handler(true)] && [Handler(true)][1..] == [];
    assert Run(s, es) == Run(s1, es[1..]) == Run(s2, [Handler(true)]) == Run(Step(s2, Handler(true)), []);
    assert s2.pc == Upload(1 - k, false, 1 - k);
    assert !HasUpdate(es) && !NeitherHolds(Run(s, es));
  }

  /** Slots that both count as uploaded are not written before the next update. */
  lemma UploadedStep(s: State, e: Event)
    requires s.uploaded == Pair(true, true) && !s.pc.Flag? && !s.virgin && !e.Update?
    ensures var t := Step(s, e);
            && t.uploaded == s.uploaded && !t.pc.Flag? && !t.virgin
            && t.template == s.template && t.current == s.current
  {
  }

  lemma {:induction false} UploadedStay(s: State, es: seq<Event>)
    requires s.uploaded == Pair(true, true) && !s.pc.Flag? && !s.virgin && !HasUpdate(es)
    ensures Run(s, es).template == s.template && Run(s, es).current == s.current
    decreases |es|
  {
    hide Step;
    if es != [] {
      assert es[0] in es;
      assert forall f :: f in es[1..] ==> f in es;
      UploadedStep(s, es[0]);
      UploadedStay(Step(s, es[0]), es[1..]);
    }
  }

  lemma UploadedIsLost(s: State)
    requires s.uploaded == Pair(true, true) && s.pc.Idle? && !s.virgin && NeitherHolds(s)
    ensures Lost(s)
  {
    forall es | !HasUpdate(es) ensures NeitherHolds(Run(s, es)) {
      UploadedStay(s, es);
    }
  }

  /**
  So an update that is in neither slot as such a run begins is lost, in that
  nothing puts it into a slot before the next update, if and only if the run
  goes for a stale slot and either no other run is queued or waiting on a saved
  reason, or the other slot is stale too.  If the slot it goes for is not stale the beacon ends there, valid.
  */
  lemma LostExactly(s: State, start: Event, es: seq<Event>)
    requires Inv(s) && (Stale(s, 0) || Stale(s, 1)) && NeitherHolds(s)
    requires Begins(s, start) && !(s.valid.c0 && s.valid.c1)
    requires OneRun(Step(s, start), es) && Undisturbed(es)
    ensures var t, m := Step(s, start), Picked(s);
            var u := Run(t, es);
            && (Lost(u) <==> Stale(s, m) && (!(t.work || t.latched > 0) || Stale(s, 1 - m)))
            && (!Stale(s, m) ==> u.valid.Get(m) && u.template.Get(m) == u.current)
  {
    hide Lost;
    DeliveredExactly(s, start, es);
    var u, m := Run(Step(s, start), es), Picked(s);
    RunInv(Step(s, start), es) by { StepInv(s, start); }
    if !Stale(s, m) {
      HeldIsNotLost(u);
    } else if !u.work && u.latched == 0 {
      OverIsLost(u);
    } else if s.uploaded.Get(1 - m) {
      UploadedIsLost(u);
    } else {
      QueuedIsNotLost(u, m);
    }
  }

  const LOST_UPDATE: seq<Event> := [
    Update(1), StartWork(true), Handler(true), Handler(true), Handler(true),
    Update(2), Handler(true), Handler(true), Handler(true),
    StartWork(true), Handler(true), Handler(true), Handler(true)]

  /**
  One update in the gap is enough to lose it: at the end both slots are valid
  with the old beacon, the new one is in neither, and nothing is pending.
  */
  lemma LostUpdate()
    ensures var s := Run(INITIAL, LOST_UPDATE);
            && s.pc.Idle? && !s.work && !s.armed && s.latched == 0
            && s.current == Some(2) && s.uploaded.c1
            && s.template == Pair(Some(1), Some(1)) && s.valid == Pair(true, true) && Lost(s)
  {
    LostSecondRun();
    assert LOST_UPDATE[..13] == LOST_UPDATE;
    OverIsLost(Run(INITIAL, LOST_UPDATE));
  }

  /** A state of that run in which nothing is asked for, raised or saved. */
  function Along(current: Beacon, uploaded: Pair<bool>, template: Pair<Option<Beacon>>, valid: Pair<bool>,
                 work: bool, handed: bool, pc: Pc): State {
    State(Some(current), uploaded, template, valid, false, work, false, false, 0, handed, pc)
  }

  lemma LostFirstSteps()
    ensures Run(INITIAL, LOST_UPDATE[..5]) ==
            Along(1, Pair(true, false), Pair(Some(1), Some(1)), Pair(false, false), false, false, Flag(1, false, 0))
  {
    var es := LOST_UPDATE;
    assert es[..0] == [];
    RunPrefix(INITIAL, es, 0);
    RunPrefix(INITIAL, es, 1);
    assert Run(INITIAL, es[..2]) ==
           Along(1, Pair(false, false), Pair(None, None), Pair(false, false), false, false, Upload(0, true, 0));
    RunPrefix(INITIAL, es, 2);
    RunPrefix(INITIAL, es, 3);
    RunPrefix(INITIAL, es, 4);
  }

  lemma LostFirstRun()
    ensures Run(INITIAL, LOST_UPDATE[..9]) ==
            Along(2, Pair(false, true), Pair(Some(1), Some(1)), Pair(true, false), true, false, Idle)
  {
    LostFirstSteps();
    RunPrefix(INITIAL, LOST_UPDATE, 5);
    RunPrefix(INITIAL, LOST_UPDATE, 6);
    RunPrefix(INITIAL, LOST_UPDATE, 7);
    RunPrefix(INITIAL, LOST_UPDATE, 8);
  }

  lemma LostSecondRun()
    ensures Run(INITIAL, LOST_UPDATE[..13]) ==
            Along(2, Pair(false, true), Pair(Some(1), Some(1)), Pair(true, true), false, true, Idle)
  {
    LostFirstRun();
    RunPrefix(INITIAL, LOST_UPDATE, 9);
    RunPrefix(INITIAL, LOST_UPDATE, 10);
    assert Run(INITIAL, LOST_UPDATE[..11]) ==
           Along(2, Pair(false, true), Pair(Some(1), Some(1)), Pair(true, false), false, false, ReadCmd(1));
    RunPrefix(INITIAL, LOST_UPDATE, 11);
    RunPrefix(INITIAL, LOST_UPDATE, 12);
  }

  lemma RunPrefix(s: State, es: seq<Event>, n: nat)
    requires n < |es|
    ensures Run(s, es[..n + 1]) == Step(Run(s, es[..n]), es[n])
  {
    assert es[..n + 1] == es[..n] + [es[n]];
    RunOne(s, es[..n], es[n]);
  }

  lemma RunOne(s: State, es: seq<Event>, e: Event)
    ensures Run(s, es + [e]) == Step(Run(s, es), e)
  {
    RunAppend(s, es, [e]);
    assert [e][1..] == [];
  }

  // ---------------------------------------------------------------- the driver's code

  /**
  The handlers as the driver writes them.  `Others` stands for everything that
  may happen between two of their accesses; `es` is the run of the machine
  above that a call amounts to.
  */
  class BeaconDriver {
    var current: Option<Beacon>
    var uploaded: Pair<bool>
    var template: Pair<Option<Beacon>>
    var valid: Pair<bool>
    var virgin: bool
    var work: bool
    var armed: bool
    var reason: bool
    var latched: nat
    ghost var handed: bool
    ghost var pc: Pc

    ghost function View(): State
      reads this
    {
      State(current, uploaded, template, valid, virgin, work, armed, reason, latched, handed, pc)
    }

    /** op_start: a fresh chip, no beacon yet. */
    constructor ()
      ensures View() == INITIAL
    {
      current, uploaded, template, valid := None, Pair(false, false), Pair(None, None), Pair(false, false);
      virgin, work, armed, reason := true, false, false, false;
      latched, handed, pc := 0, false, Idle;
    }

    /** b43_update_templates: swap the beacon, forget the uploads, queue the work. */
    method UpdateTemplates(beacon: Beacon)
      modifies this
      ensures View() == Step(old(View()), Update(beacon))
    {
      current := Some(beacon);
      uploaded := Pair(false, false);
      work := true;
      handed := false;
    }

    method MicrocodeSent(slot: nat)
      modifies this
      ensures View() == Step(old(View()), Microcode(slot))
    {
      valid := valid.Set(slot, false);
    }

    /** The interrupt is raised: by the microcode, or by the driver itself. */
    method RaiseIrq()
      modifies this
      ensures View() == Step(old(View()), Raise)
    {
      reason := true;
    }

    /** What b43_do_interrupt does with the interrupt: acknowledged and saved if it is asked for. */
    method HardInterrupt(runs: nat)
      modifies this
      ensures View() == Step(old(View()), HardIrq(runs))
    {
      if reason && armed && runs > 0 {
        reason := false;
        latched := runs;
      }
    }

    /** One step of somebody else. */
    method Other() returns (ghost e: Event)
      modifies this
      ensures View() == Step(old(View()), e) && Outside(e)
    {
      var which: int := *;
      var n: int :| 0 <= n;
      if which == 0 {
        UpdateTemplates(n);
        e := Update(n);
      } else if which == 1 {
        MicrocodeSent(n);
        e := Microcode(n);
      } else if which == 2 {
        RaiseIrq();
        e := Raise;
      } else if which == 3 {
        HardInterrupt(n);
        e := HardIrq(n);
      } else {
        if n < latched { latched := n; }
        e := Lose(n);
      }
    }

    /** Any number of steps of the others: updates, the microcode, the hard interrupt handler. */
    method Others() returns (ghost es: seq<Event>)
      modifies this
      ensures View() == Run(old(View()), es)
      ensures forall e :: e in es ==> Outside(e)
    {
      es := [];
      var n: int :| 0 <= n;
      for i := 0 to n
        invariant View() == Run(old(View()), es)
        invariant forall e :: e in es ==> Outside(e)
      {
        ghost var e := Other();
        RunOne(old(View()), es, e);
        es := es + [e];
      }
    }

    /** The write of the template, unless it has been written since the last swap. */
    method CloneTemplate(slot: nat, ghost both: bool, ghost mark: nat) returns (ghost cloned: bool)
      requires pc == Upload(slot, both, mark)
      modifies this
      ensures View() == Step(old(View()), Handler(cloned))
    {
      if uploaded.Get(slot) {
        cloned := true;
        pc := Next(both, mark);
      } else {
        var fits: bool := *;
        cloned := fits;
        if fits { template := template.Set(slot, current); }
        pc := Flag(slot, both, mark);
      }
    }

    method FlagUploaded(slot: nat, ghost both: bool, ghost mark: nat)
      requires pc == Flag(slot, both, mark)
      modifies this
      ensures View() == Step(old(View()), Handler(true))
    {
      uploaded := uploaded.Set(slot, true);
      pc := Next(both, mark);
    }

    /** b43_upload_beacon0 and b43_upload_beacon1. */
    method UploadBeacon(slot: nat, ghost both: bool, ghost mark: nat) returns (ghost es: seq<Event>)
      requires pc == Upload(slot, both, mark)
      modifies this
      ensures View() == Run(old(View()), es)
      ensures pc == Next(both, mark)
    {
      var had := uploaded.Get(slot);
      ghost var cloned := CloneTemplate(slot, both, mark);
      RunOne(old(View()), [], Handler(cloned));
      es := [Handler(cloned)];
      if !had {
        label gap:
        ghost var between := Others();
        OthersKeepPc(old@gap(View()), between);
        RunAppend(old(View()), es, between);
        es := es + between;
        label flag:
        FlagUploaded(slot, both, mark);
        RunOne(old(View()), es, Handler(true));
        es := es + [Handler(true)];
      }
    }

    /** Read MACCMD, or in one valid bit, write it back. */
    method MarkValid(mark: nat) returns (ghost es: seq<Event>)
      requires pc == ReadCmd(mark)
      modifies this
      ensures View() == Run(old(View()), es)
      ensures pc == Idle
    {
      var cmd := valid.Set(mark, true);
      pc := WriteCmd(mark, cmd);
      RunOne(old(View()), [], Handler(true));
      es := [Handler(true)];
      label read:
      ghost var between := Others();
      OthersKeepPc(old@read(View()), between);
      RunAppend(old(View()), es, between);
      es := es + between;
      valid := cmd;
      handed := handed || uploaded.Get(mark);
      pc := Idle;
      RunOne(old(View()), es, Handler(true));
      es := es + [Handler(true)];
    }

    /** handle_irq_beacon: a complete handler run is a run of the machine, whatever comes between its steps. */
    method HandleIrqBeacon(beaconing: bool) returns (ghost es: seq<Event>)
      requires pc == Idle
      modifies this
      ensures View() == Run(Enter(old(View()), beaconing), es)
      ensures pc == Idle
    {
      es := [];
      if !beaconing { return; }
      armed := false;
      var beacon0Valid, beacon1Valid := valid.c0, valid.c1;
      ghost var start := Enter(old(View()), beaconing);
      if beacon0Valid && beacon1Valid {
        pc := Rearm;
        es := Rearming(start, []);
      } else if virgin {
        virgin := false;
        pc := Upload(0, true, 0);
        es := Uploading(0, true, 0, start, []);
        es := Uploading(1, false, 0, start, es);
        es := Marking(0, start, es);
      } else if !beacon0Valid {
        pc := Upload(0, false, 0);
        es := Uploading(0, false, 0, start, []);
        es := Marking(0, start, es);
      } else {
        pc := Upload(1, false, 1);
        es := Uploading(1, false, 1, start, []);
        es := Marking(1, start, es);
      }
    }

    /** Both slots busy: the interrupt is raised by hand and asked for again. */
    method Rearming(ghost start: State, ghost before: seq<Event>) returns (ghost es: seq<Event>)
      requires View() == Run(start, before) && pc == Rearm
      modifies this
      ensures View() == Run(start, es) && pc == Idle
    {
      es := Pause(start, before);
      reason := true;
      armed := true;
      pc := Idle;
      RunOne(start, es, Handler(true));
      es := es + [Handler(true)];
    }

    method Uploading(slot: nat, ghost both: bool, ghost mark: nat, ghost start: State, ghost before: seq<Event>)
      returns (ghost es: seq<Event>)
      requires View() == Run(start, before) && pc == Upload(slot, both, mark)
      modifies this
      ensures View() == Run(start, es) && pc == Next(both, mark)
    {
      es := Pause(start, before);
      ghost var more := UploadBeacon(slot, both, mark);
      RunAppend(start, es, more);
      es := es + more;
    }

    method Marking(mark: nat, ghost start: State, ghost before: seq<Event>) returns (ghost es: seq<Event>)
      requires View() == Run(start, before) && pc == ReadCmd(mark)
      modifies this
      ensures View() == Run(start, es) && pc == Idle
    {
      es := Pause(start, before);
      ghost var more := MarkValid(mark);
      RunAppend(start, es, more);
      es := es + more;
    }

    /** b43_beacon_update_trigger_work: a handler run for the work item. */
    method TriggerWork(beaconing: bool) returns (ghost es: seq<Event>)
      requires pc == Idle && work
      modifies this
      ensures View() == Run(Step(old(View()), StartWork(beaconing)), es) && pc == Idle
    {
      work := false;
      es := HandleIrqBeacon(beaconing);
    }

    /** A handler run in the interrupt thread, which goes by the saved reason alone. */
    method ThreadBeacon(beaconing: bool) returns (ghost es: seq<Event>)
      requires pc == Idle && latched > 0
      modifies this
      ensures View() == Run(Step(old(View()), StartIrq(beaconing)), es) && pc == Idle
    {
      latched := latched - 1;
      es := HandleIrqBeacon(beaconing);
    }

    /** A point where others may run, appended to the run so far. */
    method Pause(ghost start: State, ghost before: seq<Event>) returns (ghost es: seq<Event>)
      requires View() == Run(start, before)
      modifies this
      ensures View() == Run(start, es)
      ensures pc == old(pc)
    {
      ghost var between := Others();
      OthersKeepPc(old(View()), between);
      RunAppend(start, before, between);
      es := before + between;
    }
  }

  /** A step that is not the handler's. */
  predicate Outside(e: Event) {
    e.Update? || e.Microcode? || e.Raise? || e.HardIrq? || e.Lose?
  }

  lemma {:induction false} OthersKeepPc(s: State, es: seq<Event>)
    requires forall e :: e in es ==> Outside(e)
    ensures Run(s, es).pc == s.pc
    decreases |es|
  {
    if es != [] {
      assert es[0] in es;
      assert forall f :: f in es[1..] ==> f in es;
      OthersKeepPc(Step(s, es[0]), es[1..]);
    }
  }
}
