/**
The N-PHY of the BCM6362 (revision 8, radio 2057 revision 8) as the
calibrations see it: the driver's fields and the registers and table cells they
borrow.  Whatever the hardware answers is left open.
*/
module NPhy {
  import opened Pairs
  import opened RfOverride
  import CS = CarrierSearch
  import SP = SamplePlayback
  import ForcedIndex
  import RatePower
  import RssiVcm
  import TxGains

  /** BBCFG: clear-channel assessment reset, receive reset, the rest. */
  datatype BbCfg = BbCfg(rstcca: bool, rstrx: bool, rest: nat)

  /** The three bits of TXPCTL_CMD that make up transmit power control. */
  datatype PowerCmd = PowerCmd(coeff: bool, hw: bool, pctl: bool)

  /** Transmit power control: txpwrctrl, its command bits, TXPCTL_CMD_INIT with TXPCTL_INIT_PIDXI1, tx_pwr_idx. */
  datatype Power = Power(ctrl: bool, cmd: PowerCmd, init: Pair<nat>, idx: Pair<nat>)

  const OFF := PowerCmd(false, false, false)
  const ON := PowerCmd(true, true, true)

  /** PAPD_EN: the comparison enable, bit 2 and the power offset field. */
  datatype PapdEn = PapdEn(compare: bool, engine: bool, offset: nat)

  /** Switching off saves the indices the hardware is on, but only if anything was on. */
  predicate Disabled(p: Power, p': Power) {
    && p' == p.(cmd := OFF, idx := p'.idx)
    && if p.cmd == OFF then p'.idx == p.idx else p'.idx.c0 < UNSET && p'.idx.c1 < UNSET
  }

  /** Switching on puts saved indices back in, if both were ever saved. */
  function Enabling(p: Power): Power {
    p.(cmd := ON, init := if p.idx.c0 != UNSET && p.idx.c1 != UNSET then p.idx else p.init)
  }

  const UNSET := 128

  /** RFSEQCA, four bits each. */
  datatype SeqCa = SeqCa(txen: nat, rxen: nat, txdis: nat, rxdis: nat)

  /** The radio registers of a core the transmit calibrations set up. */
  datatype TxRadio = TxRadio(ssiMaster: nat, vcmHg: nat, idac: nat, tssiVcm: nat, ssiMux: nat, tssia: nat, tssig: nat, misc1: nat)

  /** A run of the PAPD engine: its core, its pad gain, and whether it is part of the gain search. */
  datatype Sweeping = Sweeping(core: nat, padGain: int, gainCtrl: bool)

  /**
  An I/Q measurement: the gain cells, and of a transmit one the multiplier its
  ladder is scaled with, of a receive one the core and the receive gain word.
  */
  datatype Tone = Transmit(gains: Pair<int>, ladder: SP.Mult) | Receive(gains: Pair<int>, core: nat, word: nat)

  type Offsets = s: seq<int> | |s| == RatePower.OFFSETS witness seq(RatePower.OFFSETS, _ => 0)

  datatype IntcKind = IntcOff | Trsw | Pa

  /** Four bits of a value, moved up. */
  function Shifted(value: nat, shift: nat): Bits {
    (if value % 2 == 1 then {shift} else {}) + (if value / 2 % 2 == 1 then {shift + 1} else {}) +
    (if value / 4 % 2 == 1 then {shift + 2} else {}) + (if value / 8 % 2 == 1 then {shift + 3} else {})
  }

  /** An interface control register after an override; the value goes in unmasked. */
  function Intc(reg: Bits, kind: IntcKind, value: nat): Bits {
    match kind
    case IntcOff => {}
    case Trsw => reg - {6, 7} + Shifted(value, 6) + {10}
    case Pa => reg - {4, 5} + Shifted(value, 4) + {12}
  }

  /** Register 0x2ff after an override of either core. */
  function Switched(trsw: Bits, kind: IntcKind): Bits {
    match kind
    case IntcOff => trsw - {13}
    case Trsw => trsw - {14, 15} + {13} + {0}
    case Pa => trsw
  }

  /** A value that fits goes into the two bits of its kind; next to it only the kind's enable bit is set. */
  lemma IntcBits(reg: Bits, trsw: Bits, value: nat)
    requires value < 4
    ensures Intc(reg, IntcOff, value) == {}
    ensures forall b :: b in Intc(reg, Trsw, value) <==>
              if b == 6 then value % 2 == 1 else if b == 7 then value >= 2 else b == 10 || b in reg
    ensures forall b :: b in Intc(reg, Pa, value) <==>
              if b == 4 then value % 2 == 1 else if b == 5 then value >= 2 else b == 12 || b in reg
    ensures forall b :: b in Switched(trsw, Trsw) <==> b in {0, 13} || (b !in {14, 15} && b in trsw)
    ensures forall b :: b in Switched(trsw, IntcOff) <==> b != 13 && b in trsw
  {
  }

  lemma SwitchedTwice(trsw: Bits, kind: IntcKind)
    ensures Switched(Switched(trsw, kind), kind) == Switched(trsw, kind)
  {
  }

  /** Room left in the carrier-search counter for `n` more brackets. */
  predicate Room(hold: CS.Hold, n: nat) {
    hold.count + n < CS.COUNT_END
  }

  /** A stretch that pulsed the assessment reset any number of times, or not at all. */
  predicate Pulsed(b: BbCfg, b': BbCfg) {
    b' == b || b' == b.(rstcca := false)
  }

  /** A 32-bit table cell. */
  function Word(cells: Registers, i: nat): nat {
    Value(cells, i) % 0x1_0000_0000
  }

  function OnCore(core: nat): nat {
    if core == 0 then 1 else 2
  }

  /** The multiplier a sample play loads. */
  function SampleMult(wide: bool): SP.Mult {
    if wide then Pair(0x47, 0x47) else Pair(0x64, 0x64)
  }

  /** 84 cells of adjusted power, all zero. */
  function Zeros(): (z: seq<int>)
    ensures |z| == RatePower.CELLS && forall j :: 0 <= j < |z| ==> z[j] == 0
  {
    seq(84, _ => 0)
  }

  /** AFE override bit 0x100 of both cores: on while power control is off. */
  function AfeForced(afe: Pair<Bits>): Pair<Bits> {
    Pair(afe.c0 + {8}, afe.c1 + {8})
  }

  function AfeFreed(afe: Pair<Bits>): Pair<Bits> {
    Pair(afe.c0 - {8}, afe.c1 - {8})
  }

  lemma FreedForced(afe: Pair<Bits>)
    ensures AfeForced(AfeFreed(afe)) == AfeForced(afe)
    ensures AfeForced(AfeForced(afe)) == AfeForced(afe)
    ensures AfeFreed(AfeForced(afe)) == AfeFreed(afe)
  {
    var a, b := afe.c0, afe.c1;
    assert (a - {8}) + {8} == a + {8} && (b - {8}) + {8} == b + {8};
    assert (a + {8}) + {8} == a + {8} && (b + {8}) + {8} == b + {8};
    assert (a + {8}) - {8} == a - {8} && (b + {8}) - {8} == b - {8};
  }

  predicate SameCompare(p: Pair<PapdEn>, p': Pair<PapdEn>) {
    p'.c0.compare == p.c0.compare && p'.c1.compare == p.c1.compare
  }

  /** Setting the bit on one core where both have it changes nothing. */
  lemma SetStays(afe: Pair<Bits>, core: nat)
    requires core < 2
    ensures AfeForced(afe) == afe ==> afe.Set(core, afe.Get(core) + {8}) == afe
  {
  }

  /** A 16-bit cell. */
  function Half(x: int): nat {
    x % 0x10000
  }

  class Phy {
    const ipa: bool                     // internal PA
    const wide: bool                    // 40 MHz channel
    const useIntTxIqLoCal: bool         // use_int_tx_iq_lo_cal
    const lpfCtl: nat                   // table 7, the cell of the low-pass filter; nobody here writes it

    var hold: CS.Hold                   // deaf_count, saved state, CLASSCTL, C1/C2 CLIP1THRES
    var bbcfg: BbCfg
    var hangAvoid: bool

    var en: Enables                     // the six override enable registers
    var vals: Registers                 // override value registers, by address

    var multSave: Option<SP.Mult>       // bb_mult_save
    var lpfOwned: bool                  // lpf_bw_overrode_for_sample_play

    ghost var playing: bool             // samples have been asked for and not stopped

    var power: Power
    var pwrIdxAtGain: Pair<nat>
    var phaseId: nat                    // mphase_cal_phase_id
    var pericalPending: bool
    var txcalMult: SP.Mult              // txcal_bbmult
    var mac: int                        // mac_suspended
    var ctsDur: nat                     // shared memory, B43_SHM_SH_CTSDUR
    ghost var ctsWhileRunning: bool     // every write of it so far found the MAC running
    var powerOffset: Offsets            // tx_power_offset
    var adjPwrTbl: seq<int>             // adj_pwr_tbl
    var adjPwrHw: Pair<seq<int>>        // table 26 and 27, cells 64 to 147
    ghost var enables: nat              // how often power control has been switched on

    /** Gain cells (7, 0x110..0x111), DAC gain registers, cells (15, 80..83), (15, 85..87), (15, 93..95); txpwrindex. */
    var chains: ForcedIndex.Chains

    var gainTbl: Pair<Registers>        // tables 26 and 27 from 192
    var iqTbl: Pair<Registers>          // from 320
    var loTbl: Pair<Registers>          // from 448
    var offsetTbl: Pair<Registers>      // from 576

    var afectl: Pair<Bits>              // AFECTL_C1, AFECTL_C2
    var afeover: Pair<Bits>             // AFECTL_OVER1, AFECTL_OVER
    var papdEn: Pair<PapdEn>
    ghost var swept: seq<Sweeping>      // every run of the PAPD engine, in order
    ghost var tones: seq<Tone>          // every I/Q measurement, in order
    ghost var idlePolls: nat            // how often the idle transmit signal strength has been read
    var calShift: Pair<bool>            // PAPD_CAL_SHIFTS0, PAPD_CAL_SHIFTS1: bit 0x2000
    var pwrup: Pair<nat>                // radio TXRXCOUPLE_2G_PWRUP
    var atten: Pair<nat>                // radio TXRXCOUPLE_2G_ATTEN
    var intc: Pair<Bits>                // RFCTL_INTC1, RFCTL_INTC2
    var trsw: Bits                      // register 0x2ff
    var seqCa: SeqCa                    // RFSEQCA
    var rssi: Pair<RssiVcm.Registers>   // radio NB_MASTER voltage; RSSIMC RSSI_Z, RSSI_X and RSSI_Y offset bits
    var gain8: Pair<nat>                // table (8, 3) and (8, 19)
    var txRadio: Pair<TxRadio>          // the radio registers of the transmit calibrations

    // ---------------------------------------------------------------- carrier search

    /** b43_nphy_classifier. */
    method Classifier(mask: bv3, val: bv3) returns (bits: bv3)
      modifies `hold
      ensures bits == CS.Classifier(old(hold).bits, mask, val)
      ensures hold == old(hold).(bits := bits)
    {
      bits := (hold.bits & !mask) | (val & mask);
      hold := hold.(bits := bits);
    }

    /** b43_nphy_reset_cca. */
    method ResetCca()
      modifies `bbcfg
      ensures bbcfg == old(bbcfg).(rstcca := false)
    {
      var was := bbcfg;
      bbcfg := was.(rstcca := true);
      bbcfg := was.(rstcca := false);
    }

    /** b43_nphy_stay_in_carrier_search. */
    method StayInCarrierSearch(enable: bool)
      modifies `hold, `bbcfg
      ensures hold == if enable then CS.Enter(old(hold)) else CS.Exit(old(hold))
      ensures bbcfg == if enable then old(bbcfg).(rstcca := false) else old(bbcfg)
    {
      CS.ClassifierMasks(hold.bits, CS.WAIT_ONLY);
      CS.ClassifierMasks(hold.bits, hold.savedClass);
      if enable {
        var deaf := hold.count;
        hold := hold.(count := if deaf + 1 == CS.COUNT_END then 0 else deaf + 1);
        if deaf == 0 {
          var bits := Classifier(0, 0);
          hold := hold.(savedClass := bits);
          bits := Classifier(7, CS.WAIT_ONLY);
          hold := hold.(savedClip := hold.clip);
          hold := hold.(clip := CS.CLIP_OFF);
        }
        ResetCca();
      } else {
        hold := hold.(count := if hold.count == 0 then CS.COUNT_END - 1 else hold.count - 1);
        if hold.count == 0 {
          var _ := Classifier(7, hold.savedClass);
          hold := hold.(clip := hold.savedClip);
        }
      }
    }

    /** The bracket many functions put around themselves when `hangAvoid` asks for it. */
    method AvoidHang(enable: bool)
      modifies `hold, `bbcfg
      ensures hold == if !hangAvoid then old(hold) else if enable then CS.Enter(old(hold)) else CS.Exit(old(hold))
      ensures Pulsed(old(bbcfg), bbcfg)
    {
      if hangAvoid { StayInCarrierSearch(enable); }
    }

    // ---------------------------------------------------------------- overrides

    /** b43_nphy_rf_ctl_override_rev7. */
    method OverrideRegisters(field: nat, value: nat, core: nat, off: bool, group: nat)
      requires !off ==> Fits(field, group, value)
      modifies `en, `vals
      ensures en == if group < 3 then Overridden(old(en), field, core, off, group) else old(en)
      ensures vals == if group < 3 then Valued(old(vals), field, value, core, off, group) else old(vals)
    {
      if group >= 3 { return; }
      for i := 0 to 2
        invariant i == 0 ==> en == old(en) && vals == old(vals)
        invariant i == 1 ==> en == old(en).Set(group, old(en).Get(group).Set(0, Enabled(old(en).Get(group).c0, field, core, off, 0)))
        invariant i == 1 ==> vals == ValuedOne(old(vals), field, value, core, off, group, 0)
        invariant i == 2 ==> en == Overridden(old(en), field, core, off, group)
        invariant i == 2 ==> vals == Valued(old(vals), field, value, core, off, group)
      {
        var bits := en.Get(group).Get(i);
        if off {
          en := en.Set(group, en.Get(group).Set(i, bits - FieldBits(field)));
          vals := WriteOne(vals, field, group, i, 0);
        } else if Selects(core, i) {
          en := en.Set(group, en.Get(group).Set(i, bits + FieldBits(field)));
          vals := WriteOne(vals, field, group, i, value);
        }
      }
    }

    /** The same, as the calibrations rely on it: the enable registers. */
    method Override(field: nat, value: nat, core: nat, off: bool, group: nat)
      requires group < 3 && (!off ==> Fits(field, group, value))
      modifies `en, `vals
      ensures en == Overridden(old(en), field, core, off, group)
    {
      OverrideRegisters(field, value, core, off, group);
    }

    /** And for both cores, with what both hold already: the values as well. */
    method OverrideBoth(field: nat, value: nat, core: nat, group: nat, ghost settings: set<Setting>)
      requires core in {0, 3} && group < 3 && Lookup(field, group).Some? && Fits(field, group, value)
      requires BothHold(vals, settings) && Others(settings, field, group)
      modifies `en, `vals
      ensures en == Overridden(old(en), field, core, false, group)
      ensures vals == Valued(old(vals), field, value, core, false, group)
      ensures BothHold(vals, settings + {Setting(field, group, value)})
    {
      BothTaken(vals, field, value, core, group, settings);
      OverrideRegisters(field, value, core, false, group);
    }

    /** b43_nphy_rf_ctl_override_one_to_many, N_RF_CTL_OVER_CMD_TX_PU. */
    method PowerUpTx(value: nat, core: nat, off: bool)
      requires value < 2
      modifies `en, `vals
      ensures en == Overridden(Overridden(Overridden(Overridden(Overridden(old(en),
                      0x4, core, off, 0), 0x2, core, off, 1), 0x1, core, off, 2), 0x4, core, off, 2), 0x800, core, off, 1)
      ensures vals == Valued(Valued(Valued(Valued(Valued(old(vals),
                        0x4, value, core, off, 0), 0x2, value, core, off, 1), 0x1, value, core, off, 2),
                        0x4, value, core, off, 2), 0x800, 1, core, off, 1)
    {
      OverrideRegisters(0x4, value, core, off, 0);
      OverrideRegisters(0x2, value, core, off, 1);
      OverrideRegisters(0x1, value, core, off, 2);
      OverrideRegisters(0x4, value, core, off, 2);
      OverrideRegisters(0x0800, 1, core, off, 1);
    }

    /** N_RF_CTL_OVER_CMD_RX_GAIN. */
    method OverrideRxGain(value: nat, core: nat, off: bool)
      requires value < 0x10000
      modifies `en, `vals
      ensures en == Overridden(Overridden(old(en), 0x800, core, off, 0), 0x6000, core, off, 0)
      ensures vals == Valued(Valued(old(vals), 0x800, value % 0x100, core, off, 0), 0x6000, value / 0x100, core, off, 0)
      ensures !off ==> forall i :: 0 <= i < 2 && Selects(core, i) ==> RxGainIs(vals, i, value)
    {
      OverrideRegisters(0x0800, value % 0x100, core, off, 0);
      OverrideRegisters(0x6000, value / 0x100, core, off, 0);
      forall i | 0 <= i < 2 && Selects(core, i) && !off ensures RxGainIs(vals, i, value) {
        TwoFields(old(vals), 0x800, value % 0x100, 0x6000, value / 0x100, core, i);
      }
    }

    /** N_RF_CTL_OVER_CMD_TX_GAIN. */
    method OverrideTxGain(value: nat, core: nat, off: bool)
      requires value < 0x10000
      modifies `en, `vals
      ensures en == Overridden(Overridden(old(en), 0x1000, core, off, 0), 0x2000, core, off, 0)
      ensures vals == Valued(Valued(old(vals), 0x1000, value % 0x8000, core, off, 0), 0x2000, value / 0x8000 * 2, core, off, 0)
      ensures !off ==> forall i :: 0 <= i < 2 && Selects(core, i) ==> TxGainIs(vals, i, value)
    {
      OverrideRegisters(0x1000, value % 0x8000, core, off, 0);
      OverrideRegisters(0x2000, value / 0x8000 * 2, core, off, 0);
      forall i | 0 <= i < 2 && Selects(core, i) && !off ensures TxGainIs(vals, i, value) {
        TwoFields(old(vals), 0x1000, value % 0x8000, 0x2000, value / 0x8000 * 2, core, i);
      }
    }

    // ---------------------------------------------------------------- sample playback

    /** The part of the state a sample play borrows. */
    function Playing(): SP.Play
      reads `en, `lpfOwned, `chains, `multSave
    {
      SP.Play(Pair(7 in en.o1.c0, 7 in en.o1.c1), lpfOwned, chains.m87, multSave)
    }

    /** b43_nphy_read_lpf_ctl: three bits of the cell. */
    function ReadLpfCtl(): nat {
      lpfCtl % 8
    }

    /** The values once a play has taken the low-pass override, if it does. */
    function LpfTaken(en: Enables, vals: Registers): Registers {
      if 7 in en.o1.c0 || 7 in en.o1.c1 then vals else Valued(vals, 0x80, ReadLpfCtl(), 0, false, 1)
    }

    /** What a play takes: the override if nobody has it, the multiplier if it is not saved yet. */
    method Borrow(load: bool)
      modifies `en, `vals, `lpfOwned, `multSave, `chains
      ensures chains == old(chains).(m87 := chains.m87)
      ensures Playing() == SP.Start(old(Playing()), if load then Some(SampleMult(wide)) else None)
      ensures en == if 7 in old(en).o1.c0 || 7 in old(en).o1.c1 then old(en) else Overridden(old(en), 0x80, 0, false, 1)
      ensures vals == LpfTaken(old(en), old(vals))
    {
      var bw3 := 7 in en.o1.c0;
      var bw4 := 7 in en.o1.c1;
      if !(bw3 || bw4) {
        var value := ReadLpfCtl();
        OverrideRegisters(0x80, value, 0, false, 1);
        lpfOwned := true;
      }

      if multSave.None? {
        multSave := Some(chains.m87);
      }
      if load {
        chains := chains.(m87 := SampleMult(wide));
      }
    }

    /** b43_nphy_run_samples. */
    method RunSamples(load: bool)
      requires Room(hold, 1)
      modifies `hold, `bbcfg, `en, `vals, `lpfOwned, `multSave, `chains, `playing
      ensures playing
      ensures CS.Kept(old(hold), hold) && Pulsed(old(bbcfg), bbcfg)
      ensures chains == old(chains).(m87 := chains.m87)
      ensures Playing() == SP.Start(old(Playing()), if load then Some(SampleMult(wide)) else None)
      ensures en == if 7 in old(en).o1.c0 || 7 in old(en).o1.c1 then old(en) else Overridden(old(en), 0x80, 0, false, 1)
      ensures vals == LpfTaken(old(en), old(vals))
    {
      StayInCarrierSearch(true);
      Borrow(load);
      playing := true;
      StayInCarrierSearch(false);
    }

    /** b43_nphy_tx_tone: the samples may fail to be allocated, then nothing plays. */
    method TxTone(load: bool) returns (error: bool)
      requires Room(hold, 1)
      modifies `hold, `bbcfg, `en, `vals, `lpfOwned, `multSave, `chains, `playing
      ensures playing
      ensures CS.Kept(old(hold), hold) && Pulsed(old(bbcfg), bbcfg)
      ensures error ==> Playing() == old(Playing()) && en == old(en)
      ensures chains == old(chains).(m87 := chains.m87)
      ensures !error ==> Playing() == SP.Start(old(Playing()), if load then Some(SampleMult(wide)) else None)
      ensures !error ==>
                en == if 7 in old(en).o1.c0 || 7 in old(en).o1.c1 then old(en) else Overridden(old(en), 0x80, 0, false, 1)
      ensures vals == if error then old(vals) else LpfTaken(old(en), old(vals))
    {
      error := *;
      playing := true;
      if error { return; }
      AvoidHang(true);
      AvoidHang(false);
      RunSamples(load);
    }

    /** What a stop gives back: both, if they were taken. */
    method GiveBack()
      modifies `en, `vals, `lpfOwned, `multSave, `chains
      ensures chains == old(chains).(m87 := chains.m87)
      ensures Playing() == SP.Stop(old(Playing()))
      ensures en == if old(lpfOwned) then Overridden(old(en), 0x80, 0, true, 1) else old(en)
      ensures vals == if old(lpfOwned) then Valued(old(vals), 0x80, 0, 0, true, 1) else old(vals)
    {
      if multSave.Some? {
        chains := chains.(m87 := multSave.value);
        multSave := None;
      }
      if lpfOwned {
        OverrideRegisters(0x80, 0, 0, true, 1);
        lpfOwned := false;
      }
    }

    /** b43_nphy_stop_playback. */
    method StopPlayback()
      requires Room(hold, 1)
      modifies `hold, `bbcfg, `en, `vals, `lpfOwned, `multSave, `chains, `playing
      ensures !playing
      ensures CS.Kept(old(hold), hold) && Pulsed(old(bbcfg), bbcfg)
      ensures chains == old(chains).(m87 := chains.m87)
      ensures Playing() == SP.Stop(old(Playing()))
      ensures en == if old(lpfOwned) then Overridden(old(en), 0x80, 0, true, 1) else old(en)
      ensures vals == if old(lpfOwned) then Valued(old(vals), 0x80, 0, 0, true, 1) else old(vals)
    {
      AvoidHang(true);
      GiveBack();
      playing := false;
      AvoidHang(false);
    }

    // ---------------------------------------------------------------- transmit power control

    /** TXPCTL_STAT: the index the hardware is on. */
    method ReadIndex() returns (index: nat)
      ensures index < UNSET
    {
      index := *;
      index := index % UNSET;
    }

    /** The off half of b43_nphy_tx_power_ctrl. */
    method PowerOff()
      modifies `power, `adjPwrHw, `afeover
      ensures Disabled(old(power), power)
      ensures adjPwrHw == Pair(Zeros(), Zeros()) && afeover == AfeForced(old(afeover))
    {
      if power.cmd.coeff || power.cmd.hw || power.cmd.pctl {
        var i0 := ReadIndex();
        var i1 := ReadIndex();
        power := power.(idx := Pair(i0, i1));
      }
      adjPwrHw := Pair(Zeros(), adjPwrHw.c1);
      adjPwrHw := Pair(adjPwrHw.c0, Zeros());
      power := power.(cmd := PowerCmd(false, false, false));
      afeover := Pair(afeover.c0 + {8}, afeover.c1);
      afeover := Pair(afeover.c0, afeover.c1 + {8});
    }

    /** The saved indices go in while the control is off. */
    method StartFromSaved()
      requires !power.cmd.hw && !power.cmd.pctl
      modifies `power
      ensures power == old(power).(init := old(power).idx)
    {
      power := power.(init := Pair(power.idx.c0, power.init.c1));
      power := power.(init := Pair(power.init.c0, power.idx.c1));
    }

    /** The on half. */
    method PowerOn()
      modifies `power, `adjPwrHw, `enables, `afeover, `papdEn
      ensures power == Enabling(old(power)) && enables == old(enables) + 1
      ensures adjPwrHw == Pair(adjPwrTbl, adjPwrTbl) && afeover == AfeFreed(old(afeover))
      ensures papdEn == if ipa then Pair(old(papdEn).c0.(engine := false), old(papdEn).c1.(engine := false))
                        else old(papdEn)
    {
      adjPwrHw := Pair(adjPwrTbl, adjPwrHw.c1);
      adjPwrHw := Pair(adjPwrHw.c0, adjPwrTbl);
      power := power.(cmd := power.cmd.(hw := false, pctl := false));
      if power.idx.c0 != UNSET && power.idx.c1 != UNSET {
        StartFromSaved();
      }
      power := power.(cmd := PowerCmd(true, true, true));
      enables := enables + 1;
      afeover := Pair(afeover.c0 - {8}, afeover.c1);
      afeover := Pair(afeover.c0, afeover.c1 - {8});
      if ipa {
        papdEn := Pair(papdEn.c0.(engine := false), papdEn.c1);
        papdEn := Pair(papdEn.c0, papdEn.c1.(engine := false));
      }
    }

    /** b43_nphy_tx_power_ctrl. */
    method TxPowerCtrl(enable: bool)
      requires Room(hold, 1)
      modifies `hold, `bbcfg, `power, `adjPwrHw, `enables, `afeover, `papdEn
      ensures CS.Kept(old(hold), hold) && Pulsed(old(bbcfg), bbcfg)
      ensures power.ctrl == enable
      ensures enable ==> power == Enabling(old(power).(ctrl := true))
      ensures !enable ==> Disabled(old(power).(ctrl := false), power)
      ensures enables == if enable then old(enables) + 1 else old(enables)
      ensures adjPwrHw == if enable then Pair(adjPwrTbl, adjPwrTbl) else Pair(Zeros(), Zeros())
      ensures afeover == if enable then AfeFreed(old(afeover)) else AfeForced(old(afeover))
      ensures papdEn == if enable && ipa then Pair(old(papdEn).c0.(engine := false), old(papdEn).c1.(engine := false))
                        else old(papdEn)
    {
      AvoidHang(true);
      power := power.(ctrl := enable);
      if !enable {
        PowerOff();
      } else {
        PowerOn();
      }
      AvoidHang(false);
    }

    // ---------------------------------------------------------------- forcing an index

    /** What an index selects for a chain. */
    function Target(core: nat, index: nat): ForcedIndex.Target
      reads `gainTbl, `iqTbl, `loTbl
    {
      ForcedIndex.Decode(Word(gainTbl.Get(core), index), Word(iqTbl.Get(core), index), Word(loTbl.Get(core), index))
    }

    /** Power control off for good: in the driver, in the command register and in the AFE. */
    ghost predicate Quiet()
      reads `power, `afeover
    {
      !power.ctrl && power.cmd == OFF && AfeForced(afeover) == afeover
    }

    /** Nothing of it moved, and it has not been switched on in between. */
    twostate predicate Untouched()
      reads `power, `enables, `afeover
    {
      power == old(power) && enables == old(enables) && afeover == old(afeover)
    }

    /** Power control that is off stays off, the AFE override bit with it. */
    twostate predicate StaysOff()
      reads `power, `enables, `afeover
    {
      && power.ctrl == old(power).ctrl
      && (!power.ctrl ==> enables == old(enables) && power.init == old(power).init)
      && (!power.ctrl && old(power).cmd == OFF ==> power == old(power))
      && (!power.ctrl && AfeForced(old(afeover)) == old(afeover) ==> afeover == old(afeover))
    }

    /** The registers and cells of a chain, from its saved fields. */
    method RestoreChain(core: nat, cals: bool)
      requires core < 2 && chains.saved.Get(core).index >= 0
      modifies `chains
      ensures chains == ForcedIndex.Restore(old(chains), core, cals).(saved := old(chains).saved)
    {
      var s := chains.saved.Get(core);
      chains := chains.(dac := chains.dac.Set(core, s.dac));
      chains := chains.(rad := chains.rad.Set(core, s.rad));
      chains := chains.(m87 := chains.m87.Set(core, s.bbmult));
      chains := chains.(m95 := chains.m95.Set(core, s.bbmult));
      if cals {
        chains := chains.(iq := chains.iq.Set(core, s.iq));
        chains := chains.(lo85 := chains.lo85.Set(core, s.lo));
        chains := chains.(lo93 := chains.lo93.Set(core, s.lo));
      }
    }

    method RestoreCore(core: nat, cals: bool)
      requires core < 2 && Room(hold, 1)
      modifies `hold, `bbcfg, `power, `adjPwrHw, `enables, `afeover, `papdEn, `chains
      ensures CS.Kept(old(hold), hold) && Pulsed(old(bbcfg), bbcfg)
      ensures chains == ForcedIndex.Restore(old(chains), core, cals)
      ensures papdEn == PapdMoved(old(papdEn), old(chains).saved, core, -1, old(power).ctrl)
      ensures StaysOff() && SameCompare(old(papdEn), papdEn)
    {
      if chains.saved.Get(core).index < 0 { return; }
      FreedForced(afeover);
      afeover := Pair(afeover.c0 - {8}, afeover.c1);
      afeover := Pair(afeover.c0, afeover.c1 - {8});
      RestoreChain(core, cals);
      TxPowerCtrl(power.ctrl);
      var s := chains.saved.Get(core);
      chains := chains.(saved := chains.saved.Set(core, s.(internal := s.internalSave, index := -1)));
    }

    /** Fills a chain's saved fields, unless they are in use already. */
    method RememberChain(core: nat)
      requires core < 2
      modifies `chains, `afeover
      ensures chains == ForcedIndex.Remember(old(chains), core)
      ensures afeover == if old(chains).saved.Get(core).index >= 0 then old(afeover) else AfeFreed(old(afeover))
    {
      var s := chains.saved.Get(core);
      if s.index < 0 {
        afeover := Pair(afeover.c0 - {8}, afeover.c1);
        afeover := Pair(afeover.c0, afeover.c1 - {8});
        s := s.(dac := chains.dac.Get(core), rad := chains.rad.Get(core));
        s := s.(bbmult := chains.m87.Get(core));
        s := s.(iq := chains.iq.Get(core));
        s := s.(lo := chains.lo85.Get(core));
        s := s.(internalSave := s.internal);
        chains := chains.(saved := chains.saved.Set(core, s));
      }
    }

    /** Put a chain on an index. */
    method ForceChain(core: nat, index: nat, cals: bool)
      requires core < 2
      modifies `chains
      ensures chains == ForcedIndex.Force(old(chains), core, index, Target(core, index), cals).(saved := old(chains).saved)
    {
      var t := Target(core, index);
      chains := chains.(dac := chains.dac.Set(core, t.dac));
      chains := chains.(rad := chains.rad.Set(core, t.rad));
      chains := chains.(m87 := chains.m87.Set(core, t.bbmult));
      chains := chains.(m95 := chains.m95.Set(core, t.bbmult));
      if cals {
        chains := chains.(iq := chains.iq.Set(core, t.iq));
        chains := chains.(lo85 := chains.lo85.Set(core, t.lo));
      }
    }

    /** The comparison registers with a chain forced on an index: its power offset, and bit 2. */
    function PapdForced(en: Pair<PapdEn>, core: nat, index: nat): Pair<PapdEn>
      reads `offsetTbl
    {
      if !ipa then en else en.Set(core, en.Get(core).(offset := Word(offsetTbl.Get(core), index) % 0x200, engine := true))
    }

    /** And after power control has been put back: switching on clears bit 2 on both chains. */
    function PapdControlled(en: Pair<PapdEn>, ctrl: bool): Pair<PapdEn> {
      if ctrl && ipa then Pair(en.c0.(engine := false), en.c1.(engine := false)) else en
    }

    /** One core of a call of b43_nphy_txpwr_index. */
    function PapdMoved(en: Pair<PapdEn>, saved: Pair<ForcedIndex.Saved>, core: nat, index: int, ctrl: bool): Pair<PapdEn>
      reads `offsetTbl
    {
      if index >= 0 then PapdControlled(PapdForced(en, core, index), ctrl)
      else if saved.Get(core).index >= 0 then PapdControlled(en, ctrl)
      else en
    }

    /** What goes to the hardware while the control is off. */
    method ForceRegisters(core: nat, index: nat, cals: bool)
      requires core < 2 && !power.ctrl && power.cmd == OFF
      modifies `afeover, `papdEn, `chains
      ensures chains == ForcedIndex.Force(old(chains), core, index, Target(core, index), cals).(saved := old(chains).saved)
      ensures afeover == old(afeover).Set(core, old(afeover).Get(core) + {8}) && papdEn == PapdForced(old(papdEn), core, index)
    {
      afeover := afeover.Set(core, afeover.Get(core) + {8});
      ForceChain(core, index, cals);
      if ipa {
        papdEn := papdEn.Set(core, papdEn.Get(core).(offset := Word(offsetTbl.Get(core), index) % 0x200));
        papdEn := papdEn.Set(core, papdEn.Get(core).(engine := true));
      }
    }

    method ForceCore(core: nat, index: nat, cals: bool)
      requires core < 2 && Room(hold, 1)
      modifies `hold, `bbcfg, `power, `adjPwrHw, `enables, `afeover, `papdEn, `chains
      ensures CS.Kept(old(hold), hold) && Pulsed(old(bbcfg), bbcfg)
      ensures chains == ForcedIndex.Force(old(chains), core, index, Target(core, index), cals)
      ensures papdEn == PapdControlled(PapdForced(old(papdEn), core, index), old(power).ctrl)
      ensures StaysOff() && SameCompare(old(papdEn), papdEn)
    {
      hide Target, ForcedIndex.Decode, Word;
      FreedForced(afeover);
      RememberChain(core);
      var state := power.ctrl;
      TxPowerCtrl(false);
      FreedForced(old(afeover));
      SetStays(afeover, core);
      ForceRegisters(core, index, cals);
      TxPowerCtrl(state);
      chains := chains.(saved := chains.saved.Set(core, chains.saved.Get(core).(index := index)));
    }

    /** What the two chains are on after a call of b43_nphy_txpwr_index, `done` cores in. */
    function Indexed(c: ForcedIndex.Chains, mask: nat, index: int, cals: bool, done: nat): ForcedIndex.Chains
      reads `gainTbl, `iqTbl, `loTbl
    {
      var i := if index < 0 then 0 else index;
      var c := if done > 0 && mask % 2 == 1 then ForcedIndex.Moved(c, 0, index, Target(0, i), cals) else c;
      if done > 1 && mask / 2 % 2 == 1 then ForcedIndex.Moved(c, 1, index, Target(1, i), cals) else c
    }

    /** And the comparison registers. */
    function PapdIndexed(en: Pair<PapdEn>, saved: Pair<ForcedIndex.Saved>, mask: nat, index: int, ctrl: bool, done: nat): Pair<PapdEn>
      reads `offsetTbl
    {
      var en := if done > 0 && mask % 2 == 1 then PapdMoved(en, saved, 0, index, ctrl) else en;
      if done > 1 && mask / 2 % 2 == 1 then PapdMoved(en, saved, 1, index, ctrl) else en
    }

    /** Forcing an index puts the fields of its gain cell into the chain's gain cell, DAC register and multiplier halves. */
    lemma IndexedSetsFields(c: ForcedIndex.Chains, mask: nat, core: nat, index: nat, rad: nat, unused: nat, dac: nat, bbmult: nat)
      requires core < 2 && rad < 0x1_0000 && unused < 4 && dac < 0x40 && bbmult < 0x100
      requires if core == 0 then mask % 2 == 1 else mask / 2 % 2 == 1
      requires Word(gainTbl.Get(core), index) == rad * 0x1_0000 + unused * 0x4000 + dac * 0x100 + bbmult
      ensures var d := Indexed(c, mask, index, false, 2);
              && d.rad.Get(core) == rad && d.dac.Get(core) == dac
              && d.m87.Get(core) == bbmult && d.m95.Get(core) == bbmult
              && d.saved.Get(core).index == index
    {
      FieldsOfTarget(core, index, rad, unused, dac, bbmult);
    }

    lemma FieldsOfTarget(core: nat, index: nat, rad: nat, unused: nat, dac: nat, bbmult: nat)
      requires core < 2 && rad < 0x1_0000 && unused < 4 && dac < 0x40 && bbmult < 0x100
      requires Word(gainTbl.Get(core), index) == rad * 0x1_0000 + unused * 0x4000 + dac * 0x100 + bbmult
      ensures var t := Target(core, index); t.rad == rad && t.dac == dac && t.bbmult == bbmult
    {
      ForcedIndex.DecodeReadsFields(rad, unused, dac, bbmult, (0, 0), 0);
    }

    lemma IndexedKeepsCompensation(c: ForcedIndex.Chains, mask: nat, index: int)
      ensures ForcedIndex.SameCompensation(c, Indexed(c, mask, index, false, 2))
    {
    }

    /** b43_nphy_txpwr_index. */
    method TxpwrIndex(mask: nat, index: int, cals: bool)
      requires Room(hold, 2)
      modifies `hold, `bbcfg, `power, `adjPwrHw, `enables, `afeover, `papdEn, `chains
      ensures CS.Kept(old(hold), hold) && Pulsed(old(bbcfg), bbcfg)
      ensures chains == Indexed(old(chains), mask, index, cals, 2)
      ensures papdEn == PapdIndexed(old(papdEn), old(chains).saved, mask, index, old(power).ctrl, 2)
      ensures StaysOff() && SameCompare(old(papdEn), papdEn)
    {
      AvoidHang(true);
      IndexCores(mask, index, cals);
      AvoidHang(false);
    }

    /** One of its cores. */
    method MoveCore(core: nat, index: int, cals: bool)
      requires core < 2 && Room(hold, 1)
      modifies `hold, `bbcfg, `power, `adjPwrHw, `enables, `afeover, `papdEn, `chains
      ensures CS.Kept(old(hold), hold) && Pulsed(old(bbcfg), bbcfg)
      ensures chains == ForcedIndex.Moved(old(chains), core, index, Target(core, if index < 0 then 0 else index), cals)
      ensures papdEn == PapdMoved(old(papdEn), old(chains).saved, core, index, old(power).ctrl)
      ensures StaysOff() && SameCompare(old(papdEn), papdEn)
    {
      if index < 0 {
        RestoreCore(core, cals);
      } else {
        ForceCore(core, index, cals);
      }
    }

    lemma OtherSaved(c: ForcedIndex.Chains, index: int, t: ForcedIndex.Target, cals: bool)
      ensures ForcedIndex.Moved(c, 0, index, t, cals).saved.c1 == c.saved.c1
    {
    }

    lemma SavedMatters(en: Pair<PapdEn>, saved: Pair<ForcedIndex.Saved>, saved': Pair<ForcedIndex.Saved>, index: int, ctrl: bool)
      requires saved.c1 == saved'.c1
      ensures PapdMoved(en, saved, 1, index, ctrl) == PapdMoved(en, saved', 1, index, ctrl)
    {
    }

    method IndexCores(mask: nat, index: int, cals: bool)
      requires Room(hold, 1)
      modifies `hold, `bbcfg, `power, `adjPwrHw, `enables, `afeover, `papdEn, `chains
      ensures CS.Kept(old(hold), hold) && Pulsed(old(bbcfg), bbcfg)
      ensures chains == Indexed(old(chains), mask, index, cals, 2)
      ensures papdEn == PapdIndexed(old(papdEn), old(chains).saved, mask, index, old(power).ctrl, 2)
      ensures StaysOff() && SameCompare(old(papdEn), papdEn)
    {
      hide ForcedIndex.Moved, Target, PapdMoved;
      OtherSaved(chains, index, Target(0, if index < 0 then 0 else index), cals);
      for core := 0 to 2
        invariant CS.Kept(old(hold), hold) && Pulsed(old(bbcfg), bbcfg)
        invariant chains == Indexed(old(chains), mask, index, cals, core)
        invariant papdEn == PapdIndexed(old(papdEn), old(chains).saved, mask, index, old(power).ctrl, core)
        invariant core < 2 ==> chains.saved.c1 == old(chains).saved.c1
        invariant StaysOff() && SameCompare(old(papdEn), papdEn)
      {
        SavedMatters(papdEn, chains.saved, old(chains).saved, index, old(power).ctrl);
        if if core == 0 then mask % 2 == 1 else mask / 2 % 2 == 1 {
          MoveCore(core, index, cals);
        }
      }
    }

    // ---------------------------------------------------------------- gains

    /**
    b43_nphy_get_tx_gains.  With the control off, the gains are the two cells;
    with it on, they come from a static table at the indices the hardware is on,
    and those indices are kept.
    */
    method GetTxGains() returns (gains: Pair<TxGains.Gains>)
      requires Room(hold, 1)
      modifies `hold, `bbcfg, `pwrIdxAtGain
      ensures CS.Kept(old(hold), hold) && Pulsed(old(bbcfg), bbcfg)
      ensures gains.c0.InRange() && gains.c1.InRange()
      ensures !power.ctrl ==> gains == Pair(TxGains.Unpack(Half(chains.rad.c0)), TxGains.Unpack(Half(chains.rad.c1)))
      ensures if power.ctrl then pwrIdxAtGain.c0 < UNSET && pwrIdxAtGain.c1 < UNSET
              else pwrIdxAtGain == old(pwrIdxAtGain)
    {
      if !power.ctrl {
        AvoidHang(true);
        var curr := chains.rad;
        AvoidHang(false);
        gains := Pair(TxGains.Unpack(Half(curr.c0)), TxGains.Unpack(Half(curr.c1)));
      } else {
        var i0 := ReadIndex();
        var i1 := ReadIndex();
        pwrIdxAtGain := Pair(i0, i1);
        var w0: nat := *;
        var w1: nat := *;
        gains := Pair(TxGains.Unpack(w0 % 0x10000), TxGains.Unpack(w1 % 0x10000));
      }
    }

    /** b43_nphy_pwr_ctl_open: the state to put back, and the control off. */
    method PwrCtlOpen() returns (state: bool)
      requires Room(hold, 1)
      modifies `hold, `bbcfg, `power, `adjPwrHw, `afeover, `enables, `papdEn
      ensures state == old(power).ctrl
      ensures CS.Kept(old(hold), hold) && Pulsed(old(bbcfg), bbcfg)
      ensures Disabled(old(power).(ctrl := false), power) && enables == old(enables) && papdEn == old(papdEn)
      ensures adjPwrHw == Pair(Zeros(), Zeros()) && afeover == AfeForced(old(afeover))
    {
      state := power.ctrl;
      TxPowerCtrl(false);
    }

    /** b43_nphy_rf_ctl_intc_override_rev7, 2 GHz: selector 1 is core 0, 2 is core 1, anything else both. */
    method IntcOverride(kind: IntcKind, value: nat, sel: nat)
      modifies `intc, `trsw
      ensures intc == Pair(if sel != 2 then Intc(old(intc).c0, kind, value) else old(intc).c0,
                           if sel != 1 then Intc(old(intc).c1, kind, value) else old(intc).c1)
      ensures trsw == Switched(old(trsw), kind)
    {
      for core := 0 to 2
        invariant intc.c0 == if core > 0 && sel != 2 then Intc(old(intc).c0, kind, value) else old(intc).c0
        invariant intc.c1 == if core > 1 && sel != 1 then Intc(old(intc).c1, kind, value) else old(intc).c1
        invariant trsw == if core == 0 || (core == 1 && sel == 2) then old(trsw) else Switched(old(trsw), kind)
      {
        SwitchedTwice(old(trsw), kind);
        if (sel == 1 && core != 0) || (sel == 2 && core != 1) { continue; }
        var reg := intc.Get(core);
        match kind {
          case IntcOff =>
            intc := intc.Set(core, {});
            trsw := trsw - {13};
          case Trsw =>
            intc := intc.Set(core, reg - {6, 7} + Shifted(value, 6) + {10});
            trsw := trsw - {14, 15} + {13} + {0};
          case Pa =>
            intc := intc.Set(core, reg - {4, 5} + Shifted(value, 4) + {12});
        }
      }
    }
  }
}
