/**
Sample playback and the two things it borrows: the low-pass bandwidth override
(one enable bit per core) and the baseband multiplier in table cell (15, 87).
The calibrations set the same override bits for themselves.
*/
module SamplePlayback {
  import opened Pairs

  /** A multiplier cell: the high byte is core 0's, the low byte core 1's. */
  type Mult = Pair<int>

  /** `owned`: lpf_bw_overrode_for_sample_play; `saved`: bb_mult_save, when its flag bit is set. */
  datatype Play = Play(lpf: Pair<bool>, owned: bool, cell: Mult, saved: Option<Mult>)

  /** b43_nphy_run_samples; `load` is the multiplier it loads, if asked to. */
  function Start(p: Play, load: Option<Mult>): Play {
    var p1 := if p.lpf.c0 || p.lpf.c1 then p else p.(lpf := Pair(true, true), owned := true);
    var p2 := if p1.saved.None? then p1.(saved := Some(p1.cell)) else p1;
    if load.Some? then p2.(cell := load.value) else p2
  }

  /** b43_nphy_stop_playback. */
  function Stop(p: Play): Play {
    var p1 := if p.saved.Some? then p.(cell := p.saved.value, saved := None) else p;
    if p1.owned then p1.(lpf := Pair(false, false), owned := false) else p1
  }

  /** A calibration's own override, on and off on both cores. */
  function CalSetup(p: Play): Play {
    p.(lpf := Pair(true, true))
  }

  function CalCleanup(p: Play): Play {
    p.(lpf := Pair(false, false))
  }

  /** `Poke` is any other write of the multiplier cell. */
  datatype Event = Started(load: Option<Mult>) | Stopped | Setup | Cleanup | Poke(v: Mult)

  function Step(p: Play, e: Event): Play {
    match e
    case Started(load) => Start(p, load)
    case Stopped => Stop(p)
    case Setup => CalSetup(p)
    case Cleanup => CalCleanup(p)
    case Poke(v) => p.(cell := v)
  }

  function Run(p: Play, es: seq<Event>): Play
    decreases |es|
  {
    if es == [] then p else Run(Step(p, es[0]), es[1..])
  }

  lemma {:induction false} RunAppend(p: Play, es: seq<Event>, e: Event)
    ensures Run(p, es + [e]) == Step(Run(p, es), e)
    decreases |es|
  {
    if es == [] {
      assert [e][1..] == [];
    } else {
      assert (es + [e])[0] == es[0] && (es + [e])[1..] == es[1..] + [e];
      RunAppend(Step(p, es[0]), es[1..], e);
    }
  }

  /** An un-stopped play that set the override: it found neither bit set, and no stop has come since. */
  ghost predicate UnstoppedOwner(p: Play, es: seq<Event>) {
    exists n :: 0 <= n < |es| && OwnerAt(p, es, n)
  }

  ghost predicate OwnerAt(p: Play, es: seq<Event>, n: int)
    requires 0 <= n < |es|
  {
    && es[n].Started?
    && (var q := Run(p, es[..n]); !q.lpf.c0 && !q.lpf.c1)
    && Stopped !in es[n + 1..]
  }

  /** One more event: an owner before it is one after it unless it is a stop. */
  lemma OwnerBefore(p: Play, es: seq<Event>, e: Event, k: nat)
    requires k < |es|
    ensures OwnerAt(p, es + [e], k) <==> OwnerAt(p, es, k) && !e.Stopped?
  {
    var all := es + [e];
    assert all[..k] == es[..k] && all[k + 1..] == es[k + 1..] + [e] && all[k] == es[k];
    assert Stopped in all[k + 1..] <==> Stopped in es[k + 1..] || e == Stopped;
  }

  lemma OwnerLast(p: Play, es: seq<Event>, e: Event)
    ensures OwnerAt(p, es + [e], |es|) <==> e.Started? && (var q := Run(p, es); !q.lpf.c0 && !q.lpf.c1)
  {
    var all := es + [e];
    assert all[..|es|] == es && all[|es| + 1..] == [];
  }

  lemma OwnerStep(p: Play, es: seq<Event>, e: Event)
    ensures UnstoppedOwner(p, es + [e]) <==>
            (UnstoppedOwner(p, es) && !e.Stopped?) || OwnerAt(p, es + [e], |es|)
  {
    forall k: nat | k < |es| ensures OwnerAt(p, es + [e], k) <==> OwnerAt(p, es, k) && !e.Stopped? {
      OwnerBefore(p, es, e, k);
    }
  }

  lemma {:induction false} OwnedExactly(p: Play, es: seq<Event>)
    requires !p.owned
    ensures Run(p, es).owned <==> UnstoppedOwner(p, es)
    decreases |es|
  {
    if es != [] {
      var n := |es| - 1;
      assert es == es[..n] + [es[n]];
      OwnedExactly(p, es[..n]);
      RunAppend(p, es[..n], es[n]);
      OwnerStep(p, es[..n], es[n]);
      OwnerLast(p, es[..n], es[n]);
    }
  }

  /** Over any run, a stop clears the override exactly when an un-stopped play set it. */
  lemma StopClearsExactlyItsOwn(p: Play, es: seq<Event>)
    requires !p.owned
    ensures Run(p, es).owned <==> UnstoppedOwner(p, es)
    ensures var q := Run(p, es);
            (Stop(q).lpf == Pair(false, false) <==> UnstoppedOwner(p, es) || q.lpf == Pair(false, false)) &&
            (!UnstoppedOwner(p, es) ==> Stop(q).lpf == q.lpf)
  {
    OwnedExactly(p, es);
  }

  /** Plays, stops and other writes, inside a calibration. */
  ghost predicate Playing(es: seq<Event>) {
    forall e :: e in es ==> e.Started? || e.Stopped? || e.Poke?
  }

  /** At every point of a run both override bits are set. */
  ghost predicate Throughout(p: Play, es: seq<Event>)
    decreases |es|
  {
    p.lpf == Pair(true, true) && (es == [] || Throughout(Step(p, es[0]), es[1..]))
  }

  /**
  A calibration's own override survives any plays and stops inside it exactly
  when no play that owned it was still un-stopped at its setup (or nothing is
  stopped inside at all).
  */
  lemma {:induction false} CalibrationOverrideSurvives(p: Play, es: seq<Event>)
    requires Playing(es)
    ensures Throughout(CalSetup(p), es) <==> !p.owned || Stopped !in es
    decreases |es|
  {
    if es != [] {
      var q := Step(CalSetup(p), es[0]);
      assert forall e :: e in es[1..] ==> e in es;
      if q.lpf == Pair(true, true) {
        assert q == CalSetup(q);
        CalibrationOverrideSurvives(q, es[1..]);
      }
      assert es == [es[0]] + es[1..];
    }
  }

  /** The first play of a run, or its length. */
  function FirstStart(es: seq<Event>): (n: nat)
    ensures n <= |es| && (n < |es| ==> es[n].Started?) && forall k :: 0 <= k < n ==> !es[k].Started?
  {
    if es == [] || es[0].Started? then 0 else 1 + FirstStart(es[1..])
  }

  /**
  After any number of plays, whatever else wrote the cell, one stop writes back
  the multiplier the cell held before the first of them.
  */
  lemma {:induction false} StopRestoresMultiplier(p: Play, es: seq<Event>)
    requires Stopped !in es
    ensures var n := FirstStart(es);
            p.saved.None? ==> Stop(Run(p, es)).cell == Run(p, es[..n]).cell && Stop(Run(p, es)).saved.None?
    ensures p.saved.Some? ==> Run(p, es).saved == p.saved
    decreases |es|
  {
    if es != [] {
      assert Stopped !in es[1..] by { assert forall e :: e in es[1..] ==> e in es; }
      assert es[0] in es;
      StopRestoresMultiplier(Step(p, es[0]), es[1..]);
      var n := FirstStart(es);
      if n > 0 {
        assert es[..n][0] == es[0] && es[..n][1..] == es[1..][..n - 1];
      }
    }
  }
}
