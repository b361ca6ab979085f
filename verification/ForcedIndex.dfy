/**
Forcing a transmit chain onto an index of the power control table and handing
the chain back.  The first force on a chain remembers what it is forced over;
a restore puts that back.
*/
module ForcedIndex {
  import opened Pairs
  import opened SamplePlayback

  /** What an index of the tables selects for a chain. */
  datatype Target = Target(rad: int, dac: int, bbmult: int, iq: (int, int), lo: int)

  /** The fields of a gain table cell: radio gain above, DAC gain, multiplier below. */
  function Decode(txgain: nat, iqcomp: nat, locomp: nat): (t: Target)
    requires txgain < 0x1_0000_0000
    ensures 0 <= t.bbmult < 256 && 0 <= t.dac < 64 && 0 <= t.rad < 0x10000
  {
    Target(txgain / 0x10000, txgain / 0x100 % 0x40, txgain % 0x100,
           (iqcomp / 0x400 % 0x400, iqcomp % 0x400), locomp % 0x10000)
  }

  /** The cells of an index, put together from their fields. */
  function GainCell(rad: nat, unused: nat, dac: nat, bbmult: nat): nat {
    rad * 0x1_0000 + unused * 0x4000 + dac * 0x100 + bbmult
  }

  /** Each field of the three cells of an index is taken from its place; two bits of the gain cell are not looked at. */
  lemma DecodeReadsFields(rad: nat, unused: nat, dac: nat, bbmult: nat, iq: (nat, nat), lo: nat)
    requires rad < 0x1_0000 && unused < 4 && dac < 0x40 && bbmult < 0x100
    requires iq.0 < 0x400 && iq.1 < 0x400 && lo < 0x1_0000
    ensures GainCell(rad, unused, dac, bbmult) < 0x1_0000_0000
    ensures Decode(GainCell(rad, unused, dac, bbmult), iq.0 * 0x400 + iq.1, lo) == Target(rad, dac, bbmult, iq, lo)
  {
    var cell := GainCell(rad, unused, dac, bbmult);
    assert cell / 0x100 == rad * 0x100 + unused * 0x40 + dac;
  }

  /**
  txpwrindex[core].  The saved AFE override bit is left out: no code ever writes
  it, so it is always clear.
  */
  datatype Saved = Saved(index: int, internal: int, internalSave: int,
                         dac: int, rad: int, bbmult: int, iq: (int, int), lo: int)

  /** Both chains: gain cells, DAC gain registers, multiplier cells 87 and 95, compensation cells. */
  datatype Chains = Chains(rad: Pair<int>, dac: Pair<int>, m87: Mult, m95: Mult,
                           iq: Pair<(int, int)>, lo85: Pair<int>, lo93: Pair<int>, saved: Pair<Saved>)

  function Remember(c: Chains, core: nat): Chains {
    var s := c.saved.Get(core);
    if s.index >= 0 then c
    else c.(saved := c.saved.Set(core, s.(dac := c.dac.Get(core), rad := c.rad.Get(core), bbmult := c.m87.Get(core),
                                          iq := c.iq.Get(core), lo := c.lo85.Get(core), internalSave := s.internal)))
  }

  /** Put a chain on an index; the compensations go in only with `cals`. */
  function Force(c: Chains, core: nat, index: nat, t: Target, cals: bool): Chains {
    var c := Remember(c, core);
    Chains(c.rad.Set(core, t.rad), c.dac.Set(core, t.dac), c.m87.Set(core, t.bbmult), c.m95.Set(core, t.bbmult),
           if cals then c.iq.Set(core, t.iq) else c.iq,
           if cals then c.lo85.Set(core, t.lo) else c.lo85,
           c.lo93,
           c.saved.Set(core, c.saved.Get(core).(index := index)))
  }

  /** Undo the forcing of a chain; an unforced one is left alone. */
  function Restore(c: Chains, core: nat, cals: bool): Chains {
    var s := c.saved.Get(core);
    if s.index < 0 then c
    else
      Chains(c.rad.Set(core, s.rad), c.dac.Set(core, s.dac), c.m87.Set(core, s.bbmult), c.m95.Set(core, s.bbmult),
             if cals then c.iq.Set(core, s.iq) else c.iq,
             if cals then c.lo85.Set(core, s.lo) else c.lo85,
             if cals then c.lo93.Set(core, s.lo) else c.lo93,
             c.saved.Set(core, s.(index := -1, internal := s.internalSave)))
  }

  /** Forcing the same index again changes nothing. */
  lemma ForceTwice(c: Chains, core: nat, index: nat, t: Target, cals: bool)
    requires core <= 1
    ensures Force(Force(c, core, index, t, cals), core, index, t, cals) == Force(c, core, index, t, cals)
  {
  }

  /** One core of b43_nphy_txpwr_index: a negative index hands the chain back. */
  function Moved(c: Chains, core: nat, index: int, t: Target, cals: bool): Chains {
    if index < 0 then Restore(c, core, cals) else Force(c, core, index, t, cals)
  }

  /** The compensation cells of both chains, the same. */
  predicate SameCompensation(c: Chains, d: Chains) {
    d.iq == c.iq && d.lo85 == c.lo85 && d.lo93 == c.lo93
  }

  /** Without the compensations, neither a force nor a restore touches them. */
  lemma MovedKeepsCompensation(c: Chains, core: nat, index: int, t: Target)
    ensures SameCompensation(c, Moved(c, core, index, t, false))
  {
  }

  datatype Op =
    | ForceOp(core: nat, index: nat, target: Target, cals: bool)
    | RestoreOp(core: nat, cals: bool)

  function Apply(c: Chains, op: Op): Chains {
    match op
    case ForceOp(core, index, target, cals) => Force(c, core, index, target, cals)
    case RestoreOp(core, cals) => Restore(c, core, cals)
  }

  function Run(c: Chains, ops: seq<Op>): Chains
    decreases |ops|
  {
    if ops == [] then c else Run(Apply(c, ops[0]), ops[1..])
  }

  /** An operation on one core leaves everything of the other alone, its half of both multiplier cells included. */
  lemma OtherCoreUntouched(c: Chains, op: Op, other: nat)
    requires op.core <= 1 && other <= 1 && other != op.core
    ensures var d := Apply(c, op);
            && d.rad.Get(other) == c.rad.Get(other) && d.dac.Get(other) == c.dac.Get(other)
            && d.m87.Get(other) == c.m87.Get(other) && d.m95.Get(other) == c.m95.Get(other)
            && d.iq.Get(other) == c.iq.Get(other) && d.lo85.Get(other) == c.lo85.Get(other)
            && d.lo93.Get(other) == c.lo93.Get(other) && d.saved.Get(other) == c.saved.Get(other)
  {
  }

  ghost predicate OnCores(ops: seq<Op>) {
    forall n :: 0 <= n < |ops| ==> ops[n].core <= 1
  }

  ghost predicate NoRestore(ops: seq<Op>, core: nat) {
    forall n :: 0 <= n < |ops| ==> !(ops[n].RestoreOp? && ops[n].core == core)
  }

  ghost predicate SomeForce(ops: seq<Op>, core: nat) {
    exists n :: 0 <= n < |ops| && ops[n].ForceOp? && ops[n].core == core
  }

  /** While a chain is forced, its saved state is what the first force found. */
  ghost predicate Remembers(c: Chains, core: nat, first: Chains) {
    var s := c.saved.Get(core);
    && s.index >= 0
    && s.rad == first.rad.Get(core) && s.dac == first.dac.Get(core) && s.bbmult == first.m87.Get(core)
    && s.iq == first.iq.Get(core) && s.lo == first.lo85.Get(core)
    && s.internalSave == first.saved.Get(core).internal
  }

  lemma {:induction false} StaysRemembered(c: Chains, ops: seq<Op>, core: nat, first: Chains)
    requires core <= 1 && OnCores(ops) && NoRestore(ops, core) && Remembers(c, core, first)
    ensures Remembers(Run(c, ops), core, first)
    decreases |ops|
  {
    if ops != [] {
      assert ops[0].core <= 1;
      if ops[0].core != core {
        OtherCoreUntouched(c, ops[0], core);
      }
      StaysRemembered(Apply(c, ops[0]), ops[1..], core, first);
    }
  }

  lemma {:induction false} SeriesRemembers(c: Chains, ops: seq<Op>, core: nat)
    requires core <= 1 && OnCores(ops) && NoRestore(ops, core) && SomeForce(ops, core)
    requires c.saved.Get(core).index < 0
    ensures Remembers(Run(c, ops), core, c)
    decreases |ops|
  {
    var d := Apply(c, ops[0]);
    assert ops[0].core <= 1;
    assert OnCores(ops[1..]) && NoRestore(ops[1..], core);
    if ops[0].core == core {
      assert ops[0].ForceOp?;
      StaysRemembered(d, ops[1..], core, c);
    } else {
      OtherCoreUntouched(c, ops[0], core);
      var n :| 0 <= n < |ops| && ops[n].ForceOp? && ops[n].core == core;
      assert ops[1..][n - 1] == ops[n];
      SeriesRemembers(d, ops[1..], core);
    }
  }

  /**
  Any series of forces on a core, with anything at all done to the other core in
  between, followed by a restore, returns the core's gain cell, DAC register and
  half of cell 87 to what they were; cell 95 gets the old half of cell 87; with
  the compensations asked for, they come back too.
  */
  lemma ForceThenRestore(c: Chains, ops: seq<Op>, core: nat, cals: bool)
    requires core <= 1 && OnCores(ops) && NoRestore(ops, core) && SomeForce(ops, core)
    requires c.saved.Get(core).index < 0
    ensures var d := Restore(Run(c, ops), core, cals);
            && d.rad.Get(core) == c.rad.Get(core)
            && d.dac.Get(core) == c.dac.Get(core)
            && d.m87.Get(core) == c.m87.Get(core)
            && d.m95.Get(core) == c.m87.Get(core)
            && d.saved.Get(core).index == -1
            && d.saved.Get(core).internal == c.saved.Get(core).internal
            && (cals ==> d.iq.Get(core) == c.iq.Get(core) && d.lo85.Get(core) == c.lo85.Get(core)
                         && d.lo93.Get(core) == c.lo85.Get(core))
  {
    SeriesRemembers(c, ops, core);
  }

  /** So cell 95's half comes back exactly when the two cells agreed on it before the first force. */
  lemma Cell95Exactly(c: Chains, ops: seq<Op>, core: nat, cals: bool)
    requires core <= 1 && OnCores(ops) && NoRestore(ops, core) && SomeForce(ops, core)
    requires c.saved.Get(core).index < 0
    ensures Restore(Run(c, ops), core, cals).m95.Get(core) == c.m95.Get(core)
            <==> c.m87.Get(core) == c.m95.Get(core)
  {
    ForceThenRestore(c, ops, core, cals);
  }

  /** Cells 87 and 95 stay equal over every run, if they were. */
  lemma {:induction false} CellsStayEqual(c: Chains, ops: seq<Op>)
    requires OnCores(ops) && c.m87 == c.m95
    ensures Run(c, ops).m87 == Run(c, ops).m95
    decreases |ops|
  {
    if ops != [] {
      CellsStayEqual(Apply(c, ops[0]), ops[1..]);
    }
  }

  /** A series that touches only one core never changes the other's half, whatever it restores. */
  lemma {:induction false} OtherHalfOverSeries(c: Chains, ops: seq<Op>, core: nat, other: nat)
    requires core <= 1 && other <= 1 && core != other
    requires forall n :: 0 <= n < |ops| ==> ops[n].core == core
    ensures Run(c, ops).m87.Get(other) == c.m87.Get(other) && Run(c, ops).m95.Get(other) == c.m95.Get(other)
    ensures Run(c, ops).rad.Get(other) == c.rad.Get(other) && Run(c, ops).dac.Get(other) == c.dac.Get(other)
    decreases |ops|
  {
    if ops != [] {
      assert ops[0].core == core;
      OtherCoreUntouched(c, ops[0], other);
      OtherHalfOverSeries(Apply(c, ops[0]), ops[1..], core, other);
    }
  }
}
