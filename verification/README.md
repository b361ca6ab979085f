# b43 on the BCM6362: a verified model

A Dafny model of the parts of the b43 wireless driver that are hardest to keep
right on the BCM6362, whose PHY is an N-PHY revision 8 with a 2057 radio
revision 8, and proofs about them. `dafny verify dfyconfig.toml` checks all of
it.

The model has four parts.

* **The calibration engine** (`b43/phy_n.c`). `NPhy.Phy` holds the driver's
  fields and the registers and table cells the calibrations borrow; the
  calibrations themselves are `PapdCalibration`, `IqCalibration` and
  `PeriodicCalibration`, written as the driver writes them, method by method.
  What they share is specified by small machines that are studied on their own:
  the counted carrier-search hold (`CarrierSearch`), the override registers
  (`RfOverride`), sample playback (`SamplePlayback`), the forced power index
  (`ForcedIndex`). The feedback searches are `PapdSearch`, `RxGainSearch` and
  `RssiVcm`, the fixed-point table is `TssiTable`. Every measurement, every
  status poll and every allocation is left open: the results hold for whatever
  the hardware answers.
* **MAC life cycle, interrupts and the beacon double buffer** (`b43/main.c`).
  `MacLifecycle` and `BeaconProtocol` are machines whose steps are single
  accesses, or stretches under a lock, and whose runs are arbitrary
  interleavings; classes with the driver's own methods are proved to perform
  runs of them.
* **Memory layers.** `ShmMemory` (split and whole accesses over a little-endian
  byte array, host flags), `KeyMemory` (key slots over it, against a simple slot
  map), `Initvals` (the initial values decoder), `TablePort`
  (`b43/tables_nphy.c`, the auto-incrementing table port).
* **Power per rate** (`b43/ppr.c` into `b43/phy_n.c`): `RatePower`.

## What came out

Where the code does something other than a reader of its comments, or of its
interfaces, would expect, the model follows the code and says exactly when the
expectation holds.

* The PAPD calibration's comment (`b43/phy_n.c:7456-7458`) says the receive
  reset goes back to whatever it was. The pulse before it
  (`b43/phy_n.c:7450-7453`) has already cleared it, so BBCFG comes back exactly
  when both reset bits were clear (`PapdCalibration.PapdCal`).
* A comment (`b43/phy_n.c:7534-7543`) says the PAPD calibration puts the chains
  back on their index because it turned power control off itself. The bracket
  has closed by then, so it does so exactly when control was off before it
  started (`PapdCalibration.PapdCal`).
* After a deferred calibration both chains are on the kept index exactly when
  power control was on. With it off, a full run leaves the receiving chains on
  the receive ladder's index. A run whose transmit step fails leaves each chain
  on what it was on before anything was ever forced on it, which is what it was
  found on only if nothing was forced or the two agree
  (`PeriodicCalibration.RunPendingPerical`, `PeriodicCalibration.AsFoundExactly`).
* A restore writes cell 95 from the saved half of cell 87, so it is back exactly
  if the two agreed before (`ForcedIndex.Cell95Exactly`).
* A calibration loses its own low-pass override to a stop exactly when a play
  that owned it was still un-stopped at the calibration's set-up
  (`SamplePlayback.CalibrationOverrideSurvives`).
* Because the `uploaded` flag is set after the beacon lock is dropped, a slot
  can count as uploaded without holding the current beacon
  (`BeaconProtocol.GapExactly`). The update is then lost until the next one
  exactly if the next run that finds a slot free goes for a stale slot and no
  other run can still fill the other (`BeaconProtocol.LostExactly`);
  `BeaconProtocol.LostUpdate` is such a run.
* GEN_IRQ_MASK stays on for a moment after a stop has left the STARTED state,
  until the same critical section writes the zero. The driver asks for a shared
  interrupt line, and on one a call that comes while a start or a thread run is
  under way can leave interrupts on with a handler pending, or overwrite a
  reason nobody has read (`MacLifecycle.SharedLine`);
  `MacLifecycle.InterruptsOnExactly` and `MacLifecycle.ReasonsKeptExactly` say
  for which runs.
* The power recalculation returns at once on the channel and limit of the last
  call (`b43/phy_n.c:6854-6856`), even if the channel's own maximum has changed
  (`RatePower.TxPower.RecalcTxpower`).
* The SPROM subtraction wraps in a byte; `RatePower.PowerIsMeantExactly` says
  when the power is still the one that was meant. Six values of `a1` make the
  TSSI table divide by zero (`TssiTable.DivisionByZeroExactly`).
* The wide-band RSSI calibration works out an offset for each rail and then
  programs both rails of a detector with the first one's
  (`b43/phy_n.c:2286-2287`); `RssiVcm.SecondRailExactly` says when that is the
  second rail's own.
* `set` in a masked write is not masked (`b43/b43.h:1052`). Every override call
  of the model is proved to pass a value that fits its field. The interface
  control override with value 8 (`b43/phy_n.c:5724`) does not fit its two bits
  and sets bit 9 instead; the model keeps that.

## Assumptions

* 2 GHz, N-PHY revision 8, radio 2057 revision 8, and 20 MHz where a constant
  depends on it, unless a parameter says otherwise.
* `b43_kidx_to_fw` and `b43_new_kidx_api` are not part of this model: the key
  index map is any injective map into the 58 slots, the firmware interface a
  parameter. The key table does not overlap the TKIP and key index areas, which
  the firmware decides.
* The carrier-search counter has room for the brackets a call nests (three at
  most) below 2^32; `CarrierSearch.TooDeep` shows what happens otherwise.
* `CalRxIq` is stated with power control off, as both its callers have it.
  `RunPendingPerical` is stated for any state; the CTS duration is written with
  the MAC running if the MAC was suspended at most once on entry.

* The kernel runs one interrupt thread per device; waking it while it has a
  wake-up it has not taken changes nothing, and free_irq returns when neither a
  handler nor a wake-up is left.

## Model

| member | source | states |
|---|---|---|
| PeriodicCalibration.RunPendingPerical | b43/phy_n.c:7788-7853 | whole deferred calibration, whatever the hardware answers and whether the transmit step fails: hold, MAC suspend count and hang avoidance net unchanged, interface control, table 8 gain cells, transmit radio registers, attenuators, RF sequence and BBCFG but for its reset bits as they were, nothing pending, phase number 0; power control ends as on entry and was switched on exactly once, at the end, or never; if it was on, both chains end on the index read at the head; if it was off, after a failure each chain is on what it was on before anything was forced on it (as found exactly if nothing was forced or the two agree), and after a full run the receiving ones are on index 10. After a failure the PAPD engine never ran; a run that did not fail leaves both engines measured, the transmit step's coefficients in the compensation cells and under every table index, each receiving core on the voltage and offsets its readings call for, the CTS duration at 10000 and the adjusted power table of the rates. Every transmit and receive I/Q measurement of such a run, at least one of the transmit step and one of each receiving core, is made with the high halves of gain cells 192 + 10 of both tables in the gain cells; the transmit ladder is scaled with their multipliers; and each receiving core is measured along the walk its power readings call for and once more at the gain that leads to |
| PeriodicCalibration.CalPericalPhyinit | b43/phy_n.c:7624-7781 | from power control off to the final close: one switching-on if it was on at entry, saved indices back in the command registers, adjusted power table reprogrammed, chains settled on the indices kept at the head, and everything the phases achieved still there |
| PeriodicCalibration.RunPhases | b43/phy_n.c:7667-7760 | over every pass of the phase loop power control stays off in the driver, the command register and the AFE, is never switched on in between, the loop ends at once when the transmit calibration fails, and otherwise every phase has left its result |
| PeriodicCalibration.RunPhase | b43/phy_n.c:7680-7757 | what each phase keeps (hold, control off with its saved indices, suspend count, hang avoidance, kept indices, CTS duration written only while the MAC runs) and what it adds to the results of the phases before |
| PeriodicCalibration.PapdPhase | b43/phy_n.c:7694-7717 | the PAPD phase leaves control off and balanced, has measured both cores and given every override back, and ends with no playback saved |
| PeriodicCalibration.RxPhase | b43/phy_n.c:7718-7749 | the receive phase leaves control off and balanced, the receiving chains on the ladder index, the coefficients in every cell and the receiving cores on their voltage and offsets |
| PeriodicCalibration.OpenSequence | b43/phy_n.c:7810-7851 | the head: the indices the chains are on are kept if control was on, control goes off, the calibration gains are those of index 10, and each chain ends on what it was on before anything was forced on it, cell 95 in step with 87 |
| PeriodicCalibration.AllAtPrecal | b43/phy_n.c:7691-7744 | whatever walks the receiving cores take, a run that starts from the gains of index 10 measures at no other |
| PeriodicCalibration.PutChainsBack | b43/phy_n.c:7768-7773 | both chains on the kept indices: gain cell, DAC gain, both halves of cells 87 and 95, and the driver's index, and with an internal PA the power offset of the index |
| PeriodicCalibration.ForceAndHandBack | b43/phy_n.c:7604-7614 | forcing both chains and restoring each puts gain cells, DAC gains and cell 87 back to what they were before the very first force on them, and cell 95 in step with cell 87 |
| PeriodicCalibration.AsFoundExactly | b43/phy_n.c:7604-7614 | such a chain is as the calibration found it exactly if nothing was forced on it or what was saved is what it was on |
| PeriodicCalibration.CoefSetup | b43/phy_n.c:5150-5212 | every one of the 128 cells of both chains gets the measured IQ and LO words, and no cell behind them |
| PeriodicCalibration.AnyIndexCompensates | b43/phy_n.c:5162-5199 | so any index forced later selects the measured coefficients |
| PeriodicCalibration.CtlSetup | b43/phy_n.c:4555-4727 | control set-up while off: power control enable bit clear, start indices 0x19, adjusted table recomputed and in both hardware tables, hold balanced |
| PeriodicCalibration.IdleTssi | b43/phy_n.c:4443-4488 | idle TSSI: balanced, gain override bit given up on both cores, chains untouched when no playback was saved, nothing at all on a channel that must not transmit; the strength is read once, with the transmit gain of both cores overridden to 0 |
| PapdCalibration.CalibrateCore | b43/phy_n.c:7488-7495 | for any engine: the search measures one code weaker each time and the settled gain once more; set-up, search, final run and clean-up on a core clear every enable bit they can set in all six registers and move no other, restore both cores' AFE registers and attenuators, power the coupler down, and put the saved multiplier in cells 87 and 95; the number of measurements and the gain are the ones the engine's cells call for, clipping or not, and every measurement is made with the set-up in place |
| PapdCalibration.CalibrateCores | b43/phy_n.c:7487-7496 | the same for core 0 and then core 1, each on the gain its own engine calls for |
| PapdCalibration.PapdCal | b43/phy_n.c:7421-7552 | the whole calibration: nothing without an internal PA; otherwise both cores measured in turn, balanced hold, AFE control and attenuators back, overrides given back, power control off and back with one switching-on if it was on, cell 95 set from cell 87, the chains on the index the driver keeps for them exactly when control was off before, comparison on and shift off; BBCFG comes back exactly when both reset bits were clear; of the comparison registers nothing but the comparison moves, and the power offsets with the indices |
| PapdCalibration.SettleChains | b43/phy_n.c:7544-7549 | with control off each chain goes back on the index the driver keeps for it; with control on nothing moves |
| PapdCalibration.Setup | b43/phy_n.c:7126-7191 | exactly which enable bits are taken, by core and group, and which value every field holds then: the measured core powered up, receiving what comes back, with no mixer gain, the other powered down, both on the channel's low-pass bandwidth; converter and coupler of both cores likewise; that the saved state is the state before, and that comparison and shift are on for the core only |
| PapdCalibration.TakeAnalog | b43/phy_n.c:7159-7183 | AFE bit 2 off on the measured core, on on the other, overridden on both; coupler values by core; everything saved first |
| PapdCalibration.Cleanup | b43/phy_n.c:7198-7244 | exactly which enable bits are cleared on both cores, registers equal to the saved state, both cells equal to the saved multiplier, no playback left |
| PapdCalibration.RunOne | b43/phy_n.c:7301-7371 | one engine run sweeps once, as one of the search or not, with the gain override on for the core and carrying the chain's gains with the pad gain replaced; it releases that override on both cores, leaves override bit 3 on, plays on one core only (45 or 64 in its half, 0 in the other) and compares only there |
| PapdCalibration.Sweep | b43/phy_n.c:7335-7371 | the sweep is made once, for that core and pad gain, and only with the whole set-up in place: the values of every field on both cores, converter and coupler, override 0x8 carrying 1 on the core and 0 on the other, the gain word that differs from the core's gain cell in the pad gain alone; bit 3 stays on, on both |
| PapdCalibration.Aim | b43/phy_n.c:7313-7334 | the gain override goes on for the core with its word, the multiplier of the tone into its half and 0 into the other, the comparison on there only; the set-up is still in place |
| PapdCalibration.SearchRuns | b43/phy_n.c:7378-7415 | one run per step of the search, one code weaker each time, leave what one run leaves; for any cells the engine leaves, how many runs there are and which gain comes of them; with clipping below t the gain is the code one step before t |
| PapdCalibration.BracketBits | b43/phy_n.c:7126-7243 | set-up bits, two runs and clean-up bits compose to clearing the calibration's masks, on either core |
| PapdCalibration.GainWord | b43/phy_n.c:7314-7316 | the run's gain word unpacks to the chain's gains with only the pad gain replaced |
| PapdSearch.GainSearch | b43/phy_n.c:7378-7415 | for any epsilon cells the engine leaves, exactly which indices are measured and where it ends: away from the start in the direction the first cell gives, inside the fifteen codes, before the cap of twenty, until clipping changes or the table ends; it ends on the clipping one of the two, and with clipping exactly below t at max(0, t - 1) |
| PapdSearch.FromTheTop | b43/phy_n.c:7383-7415 | a search that starts at the first code visits the codes in order |
| PapdSearch.EpsilonRoundTrip | b43/phy_n.c:7280-7289 | the epsilon cell is two 13-bit two's complement fields |
| PapdSearch.ClippedExactly | b43/phy_n.c:7395-7396 | a measurement counts as clipped exactly if one of the two fields is at an end of its range |
| IqCalibration.CalTxIqLo | b43/phy_n.c:5963-6206 | transmit I/Q LO: on success and on failure gain cells, AFE, interface control, gain cells of table 8, comparison enables, radio and hang avoidance are back; only two override fields are given up; on failure playback and chains are untouched; on success the measured IQ and LO values are in the compensation cells, the LO ones in both places; it measures once, with the calibration gains in the gain cells, unless the tone cannot be played |
| IqCalibration.TxPhySetup | b43/phy_n.c:5682-5754 | the saved registers are those before; AFE, gain cells, interface control and comparison enables as the measurement wants them; exactly the two override fields are taken, and which values they hold on both cores |
| IqCalibration.TxSetup | b43/phy_n.c:5273-5754 | bit by bit what is in place for the measurement on both cores: detector registers of the radio, converters listening, amplifier and switch of the interface control, comparison off, overrides and their values |
| IqCalibration.TxRadioSetup | b43/phy_n.c:5273-5324 | the detector registers of both cores, those of the internal detector only when it is used; what was there is saved |
| IqCalibration.TxPhyCleanup | b43/phy_n.c:5635-5670 | registers equal to the saved ones, bandwidth override off, assessment reset clear; to the playback it is the clean-up of SamplePlayback |
| IqCalibration.TxRadioCleanup | b43/phy_n.c:5332-5352 | all eight radio registers of both cores are the saved ones |
| IqCalibration.CalRxIq | b43/phy_n.c:6718-6790 | receive I/Q with control off: all six enable registers back but for the receive gain bits, both RSSIO value registers, AFE, RF sequence, interface control, comparison enables, coupler and gain cells back; receiving chains left on the ladder index; each receiving core is measured with the ladder's gain on it along its own walk, any other not at all |
| IqCalibration.ReceivesOwnBit | b43/phy_n.c:6751-6759 | a core is calibrated exactly if its own bit of the receive enable field is set |
| IqCalibration.RxCore | b43/phy_n.c:6428-6540 | one core's set-up, measurement and clean-up restore every register they save, override enables and both RSSIO value registers exactly |
| IqCalibration.RxMeasure | b43/phy_n.c:6755-6765 | a core that receives is measured once per step of its walk and once at the trimmed gain, each with the set-up and the receive gain word of that step in place |
| IqCalibration.RxPhySetup | b43/phy_n.c:6428-6481 | what is saved is what was there; transmit on the core, receive on the other; interface control, converter and comparison by core; exactly which overrides are taken, and which values they hold on both cores |
| IqCalibration.GainControl | b43/phy_n.c:6590-6716 | the walk is the one the power readings call for, with monotone readings it ends on the highest step at or below the threshold; it is measured once per step with that step's gain word in the override of both cores, and the trimmed gain word of the last one is there at the end; any number of ladder steps leaves the chain forced on index 10, no playback, control off, the set-up in place |
| IqCalibration.RssiCal | b43/phy_n.c:2091-2350 | classifier, both thresholds, saved clip state, overrides with all their value registers, AFE and interface control come back exactly, at any depth of the hold; each receiving core is on the first best voltage with the narrow-band offsets that cancel its reading and the wide-band ones of its first rails, any other core is left alone; every reading is taken with the receivers deaf and every override of both cores at its value |
| RxGainSearch.Walk | b43/phy_n.c:6621-6690 | for any readings exactly which steps are taken and which is kept: up from a quiet start, down from a loud one, until that changes or the ladder ends; at most four, and the kept power is the reading at the kept step; with monotone readings it is the highest step at or below the threshold, or 0 |
| RxGainSearch.Trim | b43/phy_n.c:6692-6708 | the trimmed stage is the nearest to the wanted one that keeps both stages within 10 |
| RxGainSearch.FieldsDoNotOverlap | b43/phy_n.c:6710-6713 | every field of the gain word that is programmed for a ladder step, trimmed or not, reads back |
| RssiVcm.ChooseVcm | b43/phy_n.c:2221-2241 | the chosen voltage is the first that minimises I^2 + Q^2, the initial bounds never win; the minimum poll is 248 exactly when all eight are |
| RssiVcm.CalibrateCore | b43/phy_n.c:2208-2267 | the two programmed register values decode to the negated reading over 8, rounded and saturated, or -32 on a rail that is stuck |
| RssiVcm.CalibrateWide | b43/phy_n.c:2270-2291 | the wide-band detectors: both rails of a detector are programmed with the offset the first rail's reading calls for, 232 as the target |
| RssiVcm.SecondRailExactly | b43/phy_n.c:2279-2289 | the second rail gets its own offset exactly when both readings lie in the same interval: up to -12, one of the steps of eight from -11 to 228, 229 to 235, 236 to 243, or 244 and up |
| RssiVcm.SecondRailIgnored | b43/phy_n.c:2286-2287 | a reading whose own offset would be 29 is given 0 |
| RssiVcm.RawOffsetRounds | b43/phy_n.c:2256-2260 | the offset is -reading / 8 to the nearest, halves away from zero |
| RssiVcm.SaturatesExactly | b43/phy_n.c:2256-2266 | which readings saturate, and what the stuck rail programs |
| RssiVcm.ProgrammedOffset | b43/phy_n.c:1714-1724 | the six register bits decode to the offset, always within -32 to 31 |
| RssiVcm.Decode6IsTwosComplement | b43/phy_n.c:2055-2058 | the six-bit decode is two's complement and ignores higher bits |
| RssiVcm.PollRssi | b43/phy_n.c:2043-2059 | the sums are of the decoded low and high rails and stay in range |
| CarrierSearch.NestedHolds | b43/phy_n.c:560-581 | over every nesting of enters and exits, classifier and thresholds after the outermost exit are those before the outermost enter, and inside they are wait-only and 0xFFFF |
| CarrierSearch.InnerBracketsSaveNothing | b43/phy_n.c:567-575 | only the outermost pair saves and restores: inside, a run changes nothing but the count |
| CarrierSearch.BracketKeeps | b43/phy_n.c:560-581 | a bracket around balanced code is balanced |
| CarrierSearch.TooDeep | b43/phy_n.c:567 | at depth 2^32 - 1 the counter wraps and the next enter saves the deaf state over the real one |
| NPhy.Phy.StayInCarrierSearch | b43/phy_n.c:509-581 | the register and field updates are one enter or exit of the hold; an enter clears the assessment reset |
| RfOverride.MaskSetReads | b43/b43.h:1052 | a masked write of a value that fits its field reads back and leaves the bits below and above |
| RfOverride.ValueReadsBack | b43/phy_n.c:189-204 | after a call the field of each core it reaches reads the value (0 when switched off), neighbours untouched |
| RfOverride.TwoFields | b43/phy_n.c:237-252 | two fields in registers of their own both carry their values after two calls |
| RfOverride.FieldPlaces | b43/tables_nphy.c:3200-3242 | where the fields of the three groups are: a field's bit is the one its number names, moved up by three after the three bits of the low-pass bandwidth, and one down for the two lowest of the first group |
| RfOverride.FieldsApart | b43/tables_nphy.c:3200-3250 | no two fields of the three tables share a bit of a value register, except the transmit and receive gain that are given one place |
| RfOverride.ValuedKeeps | b43/phy_n.c:165-207 | so a call leaves the value of every other field as it was, on both cores |
| RfOverride.Taken | b43/phy_n.c:165-207 | over a series of calls a core holds the values of all that reached it |
| NPhy.Phy.OverrideRegisters | b43/phy_n.c:165-207 | enable and value registers of both cores after a call; an invalid group changes nothing |
| NPhy.Phy.PowerUpTx | b43/phy_n.c:230-236 | the five overrides of the transmit power-up command, in order, with their values |
| NPhy.Phy.IntcOverride | b43/phy_n.c:332-399 | interface control registers by selector and kind, the value unmasked, and register 0x2ff by kind |
| NPhy.IntcBits | b43/phy_n.c:332-399 | bit by bit what an interface control register and register 0x2ff are after a value that fits: the two bits of the kind, its enable bit, every other bit as it was |
| SamplePlayback.StopClearsExactlyItsOwn | b43/phy_n.c:3784-3790 | over any run of plays, stops, set-ups and clean-ups, a stop clears the low-pass override exactly when an un-stopped play set it |
| SamplePlayback.CalibrationOverrideSurvives | b43/phy_n.c:5650-5664 | a calibration's own override survives any plays and stops exactly when no owning play was un-stopped at its set-up, or nothing is stopped inside |
| SamplePlayback.StopRestoresMultiplier | b43/phy_n.c:1665-1668 | after any number of plays one stop writes back what cell 87 held before the first |
| NPhy.Phy.RunSamples | b43/phy_n.c:1624-1707 | the registers and fields move as one play, the hold is balanced |
| NPhy.Phy.TxTone | b43/phy_n.c:3720-3729 | a play, or nothing at all when the samples cannot be allocated |
| NPhy.Phy.StopPlayback | b43/phy_n.c:3760-3794 | the registers and fields move as one stop, the hold is balanced |
| NPhy.Phy.TxPowerCtrl | b43/phy_n.c:3846-4004 | off: command bits clear, indices saved only if something was on, zeros in both tables, AFE bit set; on: indices back in if both were saved, all three bits on, adjusted table in both tables, AFE bit clear |
| NPhy.Phy.PwrCtlOpen | b43/phy_n.c:7250-7262 | returns the state to put back and leaves control off |
| NPhy.Phy.TxpwrIndex | b43/phy_n.c:4032-4210 | the chains move as the forced-index machine says for the selected cores, and with an internal PA the comparison registers get the power offset of the index; control that was off stays off |
| NPhy.Phy.IndexedSetsFields | b43/phy_n.c:4137-4190 | on a selected core each field of the index's gain cell ends up in its own place: the radio gain in the gain cell, the DAC gain in the register, the multiplier in both halves |
| NPhy.Phy.RestoreCore | b43/phy_n.c:4057-4105 | a core is handed back what was saved, or nothing if nothing was forced |
| NPhy.Phy.ForceCore | b43/phy_n.c:4108-4205 | a core is forced on what the tables select, remembered first if it was not forced; with an internal PA its power offset goes into the comparison register |
| NPhy.Phy.GetTxGains | b43/phy_n.c:5553-5632 | with control off the gains are the two cells taken apart and the kept indices stay; with it on the indices read are kept |
| ForcedIndex.ForceThenRestore | b43/phy_n.c:4108-4205 | any series of forces on a core, whatever happens to the other core, then a restore: gain cell, DAC gain and half of cell 87 as before the first force, cell 95 gets the old half of 87, compensations too if asked |
| ForcedIndex.Cell95Exactly | b43/phy_n.c:4069-4089 | cell 95's half comes back exactly when the two cells agreed before the first force |
| ForcedIndex.OtherCoreUntouched | b43/phy_n.c:4069-4089 | an operation on one core leaves everything of the other |
| ForcedIndex.OtherHalfOverSeries | b43/phy_n.c:4069-4089 | a series on one core never changes the other's halves |
| ForcedIndex.CellsStayEqual | b43/phy_n.c:4154-4186 | cells 87 and 95 stay equal over every run |
| ForcedIndex.MovedKeepsCompensation | b43/phy_n.c:4057-4205 | without the compensations, neither a force nor a restore touches their cells |
| ForcedIndex.DecodeReadsFields | b43/phy_n.c:4137-4142 | a gain cell put together from radio gain, DAC gain and multiplier decodes to exactly those, and the compensation cells likewise |
| TxGains.GainRoundTrip | b43/phy_n.c:5570-5576 | taking a gain word apart and packing it loses nothing, either way |
| TssiTable.NoOverflow | b43/phy_n.c:4709-4714 | no step of an entry leaves 32 bits, for any coefficients |
| TssiTable.DenPositive | b43/phy_n.c:4712 | all 64 denominators are positive exactly when the last is |
| TssiTable.DivisionByZeroExactly | b43/phy_n.c:4712-4713 | a table divides by zero exactly for six values of a1 |
| TssiTable.RoundedHalfUp | b43/phy_n.c:4711-4713 | where the rounded numerator is not negative the entry is 4 * num / den rounded half up |
| TssiTable.NeverIncreases | b43/phy_n.c:4709-4716 | entries never increase with the index when 2048 * b1 <= a1 * b0, below zero too |
| TssiTable.FillTable | b43/phy_n.c:4709-4719 | the loop computes every entry, 4 * num / den rounded half up and truncated toward zero, but at least -8; the table never increases under that condition |
| RatePower.TxPower.RecalcTxpower | b43/phy_n.c:6844-6970 | nothing at all on the channel and limit of the last call; otherwise programmed target less each of the 84 cells is exactly that rate's power, every cell is 0 to 36, and the target is some rate's power; no rate is above the regulatory limit or the one asked for, unless that is below the floor of 32, and the cap is one of the two |
| RatePower.PowerIsMeantExactly | b43/ppr.c:83-205 | byte arithmetic gives the power the SPROM and caps mean if and only if the limit does not wrap or the cap is at the floor |
| RatePower.PowerRange | b43/phy_n.c:6900-6941 | every power is 32 to 68 |
| RatePower.TxPower.LimitRates | b43/phy_n.c:6856-6941 | limits, caps and floor in order leave every rate at its power |
| RatePower.TxPower.PrepareAdjustedPowerTable | b43/phy_n.c:4494-4552 | every cell is written, from the offset of its rate |
| RatePower.EveryRateHasACell | b43/phy_n.c:4513-4551 | at 20 MHz every rate that is sent has a cell |
| RatePower.StepsAreGroups | b43/phy_n.c:4540-4550 | the running index steps through the rate groups |
| RatePower.Ppr.LoadMaxFromSprom | b43/ppr.c:83-205 | all 52 rates hold their SPROM limit, modulo 256 |
| RatePower.FourNibbles | b43/ppr.c:83-205 | the four fields of a SPROM word are its digits, lowest first |
| RatePower.EightNibbles | b43/ppr.c:83-205 | likewise the eight of a 32-bit one |
| RatePower.Ppr.LoadCdd | b43/ppr.c:83-205 | the two-chain MCS limits and the OFDM ones copied from them, nothing else |
| RatePower.Ppr.ApplyMaxGroup | b43/ppr.c:40-48 | a group is capped in place, the rest untouched |
| RatePower.Ppr.ApplyMax | b43/ppr.c:50-58 | every rate capped |
| RatePower.Ppr.ApplyMin | b43/ppr.c:60-68 | every rate floored |
| RatePower.Ppr.GetMax | b43/ppr.c:70-81 | the greatest of the 52 |
| TablePort.Port.WriteBulk | b43/tables_nphy.c:3489-3534 | a bulk write is the run of single writes, by auto-increment or by re-addressing; with neither, all land on the first cell |
| TablePort.Port.ReadBulk | b43/tables_nphy.c:3414-3454 | a bulk read is the run of single reads, or the first cell over and over |
| TablePort.StoreEachAt | b43/tables_nphy.c:3489-3534 | cell by cell: the data in its place, every other cell unchanged |
| TablePort.ReadAfterWrite | b43/tables_nphy.c:3414-3534 | what is written in bulk is read back at 8, 16 and 32 bits |
| TablePort.Port.Read | b43/tables_nphy.c:3384-3412 | a single read sees its cell at its width |
| TablePort.Port.Write | b43/tables_nphy.c:3456-3487 | a single write stores its cell; 8- and 16-bit writes latch the old high half |
| ShmMemory.Load16IsLittleEndian | b43/main.c:514-533 | a 16-bit read is two bytes of a little-endian array |
| ShmMemory.Load32IsLittleEndian | b43/main.c:491-512 | a 32-bit read, split or not, is four consecutive bytes |
| ShmMemory.Store16IsLittleEndian | b43/main.c:555-570 | a 16-bit write changes its two bytes and no other |
| ShmMemory.Store32IsLittleEndian | b43/main.c:535-553 | a 32-bit write, split or not, changes its four bytes and no other |
| ShmMemory.LittleEndianExactlyAtEvenOffsets | b43/main.c:514-533 | an access is at its own offset exactly when the offset is even |
| ShmMemory.RoutingsDisjoint | b43/main.c:479-489 | the shared routing never reaches another routing's words |
| ShmMemory.HostFlagsRoundTrip | b43/main.c:572-596 | host flags come back modulo 2^48 and only bytes 0x5E to 0x63 move |
| ShmMemory.HostFlagsWriteBack | b43/main.c:572-596 | writing back what was read changes nothing |
| ShmMemory.Shm.Read32 | b43/main.c:491-512 | the accesses through the control and data registers are one 32-bit load |
| ShmMemory.Shm.Read16 | b43/main.c:514-533 | likewise for 16 bits |
| ShmMemory.Shm.Write32 | b43/main.c:535-553 | likewise for a 32-bit store |
| ShmMemory.Shm.Write16 | b43/main.c:555-570 | likewise for a 16-bit store |
| ShmMemory.Shm.HfRead | b43/main.c:572-584 | the three words put together |
| ShmMemory.Shm.HfWrite | b43/main.c:586-596 | the three words taken apart |
| ShmMemory.Shm.ValidateChipaccess | b43/main.c:3529-3569 | the self-test never reports an error on these accessors and leaves the memory as it was |
| KeyMemory.Run | b43/main.c:1000-1084 | over any run of writes, clears and phase 1 updates, live keys sit in distinct slots and free pairwise slots are cleared |
| KeyMemory.MaterialSurvives | b43/main.c:1000-1084 | a live key's slot keeps the key bytes and the algorithm its owner wrote, and the phase 1 entry and MAC as last updated for it, whatever happens to other slots |
| KeyMemory.FirstFit | b43/main.c:1000-1057 | a pairwise write takes the first free slot and reports no space exactly when all fifty are live |
| KeyMemory.ApplyTidy | b43/main.c:1000-1072 | one operation keeps the slot map tidy |
| KeyMemory.TkipBelowKeyIndexBlock | b43/main.c:894-933 | the fifty TKIP entries end exactly where the key index block begins and no key byte is in either |
| KeyMemory.SlotsDisjoint | b43/main.c:826-998 | no half-word belongs to two slots or to two parts of one |
| KeyMemory.GuardedStore | b43/main.c:963-998 | a store to a slot's material is harmless while its MAC is zero |
| KeyMemory.RepresentsUpdate | b43/main.c:963-998 | rewriting one slot moves the represented map by one update |
| KeyMemory.SlotReads | b43/main.c:826-998 | what a slot holds, as bytes and loads: key byte b at 16 * index + b with zeros behind the key, the algorithm, the address as a little-endian word and half-word, the phase 1 entry |
| KeyMemory.KeyStore.DoKeyWrite | b43/main.c:963-998 | only that slot changes, it holds the padded key, algorithm, fresh TKIP entry and MAC, and at every moment its material changed only under a zero MAC: byte b of the key at byte b of its place, zeros behind it, the address byte by byte in its two loads |
| KeyMemory.KeyStore.KeyWrite | b43/main.c:1000-1057 | the memory represents the slot map's write, with the same result; the slot's bytes are the key's, of a 32-byte TKIP key the first sixteen, and the call is invalid exactly for a key longer than sixteen that is not a 32-byte TKIP key |
| KeyMemory.KeyStore.KeyClear | b43/main.c:1059-1072 | the memory represents the slot map's clear |
| KeyMemory.KeyStore.ClearKeys | b43/main.c:1074-1084 | whatever the memory held, every slot ends cleared and nothing outside the slots moves |
| KeyMemory.KeyStore.UpdateTkipKey | b43/main.c:935-961 | the phase 1 entry is replaced under a zero MAC, which stays zero without a station |
| KeyMemory.KeyStore.WriteMac | b43/main.c:849-880 | the six address bytes as a word and a half-word, zeros without one: the loads are the address bytes, the first one lowest |
| Initvals.WriteInitvals | b43/main.c:2818-2877 | succeeds exactly on encodings of that many records with no byte left over, having written exactly those; on failure the writes are the records readable before the bad place |
| Initvals.RoundTrip | b43/main.c:2818-2877 | decoding an encoding performs exactly that list of writes |
| Initvals.OutcomeUnique | b43/main.c:2818-2877 | the bytes and the count determine result and writes, on failure too |
| Initvals.EncodeInjective | b43/main.c:2818-2877 | a byte string encodes at most one list |
| Initvals.ReadHeadOfEncoding | b43/main.c:2832-2866 | what begins with a record is read as that record |
| BeaconProtocol.NoWriteWhileValid | b43/main.c:1763-1831 | over every interleaving the step that writes a template finds its valid bit clear, and no other step changes one |
| BeaconProtocol.ValidBits | b43/main.c:1806-1829 | only a handler's last step sets a valid bit, only the microcode clears one |
| BeaconProtocol.RunFresh | b43/main.c:1763-1906 | in every state of every clean run an uploaded slot holds the current beacon and no update is forgotten |
| BeaconProtocol.HandlerRunEnds | b43/main.c:1783-1831 | a handler run in a beaconing mode, from the work item or on a saved reason whether or not the interrupt is still asked for, ends with the current beacon in a valid slot or the interrupt re-armed with both slots found busy, unless an update came while it ran, which is then queued |
| BeaconProtocol.RearmsExactlyWhenBusy | b43/main.c:1795-1804 | over a whole handler run, whatever comes between its steps: it ends with the interrupt armed and raised exactly if both slots were valid as it began |
| BeaconProtocol.GapExactly | b43/main.c:1763-1781 | with updates between a template's write and its flag, the flagged slot is current if and only if what was written is current at the flag |
| BeaconProtocol.DeliveredExactly | b43/main.c:1783-1831 | with a stale slot counted as uploaded, the next run that finds a slot free ends with the current beacon in the slot it makes valid exactly if that slot was not the stale one |
| BeaconProtocol.LostExactly | b43/main.c:1763-1831 | an update that is in neither slot as a run begins is lost, in that nothing puts it into a slot before the next update, exactly if the run goes for a stale slot and either no other run is queued or waiting on a saved reason or the other slot is stale too |
| BeaconProtocol.LostUpdate | b43/main.c:1763-1781 | a concrete run after which nothing puts the new beacon into a slot before the next update |
| BeaconProtocol.BeaconDriver.HandleIrqBeacon | b43/main.c:1783-1831 | the handler's code, with anything allowed between its steps, is a run of the machine |
| BeaconProtocol.BeaconDriver.TriggerWork | b43/main.c:1833-1875 | the work item is its start and one handler run of the machine |
| BeaconProtocol.BeaconDriver.ThreadBeacon | b43/main.c:2018-2077 | so is a run of the thread, which goes by the saved reason alone |
| BeaconProtocol.BeaconDriver.HardInterrupt | b43/main.c:2126-2173 | the hard handler acknowledges and saves the interrupt only while it is asked for |
| BeaconProtocol.BeaconDriver.UploadBeacon | b43/main.c:1763-1781 | an upload is its steps in order |
| BeaconProtocol.BeaconDriver.UpdateTemplates | b43/main.c:1876-1906 | an update swaps the beacon, forgets both uploads and queues the work |
| MacLifecycle.RunAlways | b43/main.c:4388-4503 | the life-cycle invariant over every interleaving, on shared interrupt lines too |
| MacLifecycle.SuspendCount | b43/main.c:3013-3072 | from chip init on the MAC is enabled exactly when the count is 0; at operation boundaries it is 0 when started and 1 when initialized |
| MacLifecycle.StopFindsInterruptsOff | b43/main.c:4388-4461 | when stop has the mutex again, handlers are gone, interrupts are off and the count is 0 |
| MacLifecycle.InterruptsOnExactly | b43/main.c:2018-2173 | on any line, shared or not: a nonzero GEN_IRQ_MASK is irq_mask with no handler pending or running in every state of a run, if and only if no start and no thread run of it switches interrupts on after a waking call that came since it began |
| MacLifecycle.InterruptsOnlyStarted | b43/main.c:4388-4503 | on any line a nonzero GEN_IRQ_MASK means the device is started, or a stop is about to write the zero |
| MacLifecycle.ReasonsKeptExactly | b43/main.c:2126-2173 | on any line: in every state of a run each acknowledged reason has been read by a thread run or is there for the one outstanding, if and only if every waking call covers what was still to be read and no thread run finds the device stopped with something left to read |
| MacLifecycle.WakeKeeps | b43/main.c:2126-2173 | a waking call loses a reason exactly when what it saves does not cover what was still to be read |
| MacLifecycle.OtherKeeps | b43/main.c:2018-2027 | of the other steps only a thread run that returns because the device is stopped can lose one, and exactly if it is the last outstanding and something was left to read |
| MacLifecycle.TimelyIsEnough | b43/main.c:2018-2173 | if waking calls come only while no thread run is outstanding and no start is under way, the mask is right in every state, at most one thread run is ever outstanding, and reasons are lost exactly to thread runs that find the device stopped |
| MacLifecycle.OwnLine | b43/main.c:4470-4484 | on a line of the device's own every waking call comes like that |
| MacLifecycle.SharedLine | b43/main.c:4470-4503 | on a shared line both can fail: a concrete run switches interrupts on with the thread woken, and then a thread run reads one of two acknowledged reasons with no run left for the other |
| MacLifecycle.MacCore.MacSuspend | b43/main.c:3042-3072 | count up, hardware bit cleared on the first |
| MacLifecycle.MacCore.MacEnable | b43/main.c:3013-3040 | count down, hardware bit set on the last |
| MacLifecycle.MacCore.DoInterrupt | b43/main.c:2126-2173 | the handler body is one step of the machine |
| MacLifecycle.MacCore.InterruptThread | b43/main.c:2018-2124 | a thread run is a run of the machine that starts, handles the beacon exactly if it read that reason, and leaves the mutex free with the mask switched back on, or at once on a fatal DMA error with the mask left off; an unstarted device is left alone |
| MacLifecycle.MacCore.ThreadHandler | b43/main.c:2114-2124 | from the wake-up on: the wake-up is taken, hard interrupts may come before the mutex is got, then one thread run; its reason is the one saved before if none came |
| MacLifecycle.MacCore.BeaconUpdateTriggerWork | b43/main.c:1833-1852 | the beacon work is one step: the mask register follows only if it was on |
| MacLifecycle.MacCore.CoreInit | b43/main.c:4881-5027 | init is its steps in order, given up before or after the chip came up or not at all; success leaves the device initialized, suspended once, not enabled |
| MacLifecycle.MacCore.CoreStart | b43/main.c:4463-4503 | success leaves it started, hooked, count 0, MAC enabled, mask on; without the interrupt line nothing changes |
| MacLifecycle.MacCore.CoreStop | b43/main.c:4388-4461 | whatever comes at any point while the mutex is dropped, the handlers are drained and the end is initialized, unhooked, mask off, suspended once |
| MacLifecycle.MacCore.OpConfig | b43/main.c:4039-4115 | a configuration call is one suspend, the nested suspends, and as many enables; count and enable bit are as they were |
| MacLifecycle.MacCore.CoreExit | b43/main.c:4842-4879 | an initialized device becomes uninitialized |

## Left out

- PAPD at 5 GHz: the return at `b43/phy_n.c:7469-7470` does not release the carrier-search hold; every balance result is for 2 GHz.
- 5 GHz and 40 MHz arms the code marks unverified, other PHY and radio revisions: they multiply branches without new properties.
- AFE override bit 0x100 as saved state: `AfectrlOverride` (`b43/phy_n.h:950`) is never written, so it is always clear.
- The suspend and enable that `b43_nphy_classifier` takes on core revision 16: balanced inside one function.
- `b43_nphy_force_rf_sequence` and RFSEQMODE: it writes back the mode it read; the waits are polls that may time out.
- The original index and gains read at the head of the deferred calibration (`b43/phy_n.c:7805-7815`): nothing reads them.
- The contents of the calibration command, ladder, start coefficient, scalar and epsilon tables, the digital filter rows, the EPS adjustments, and the I/Q compensation numerics (`b43_nphy_calc_rx_iq_comp`): the measured coefficients are arbitrary.
- Full or partial transmit calibration (`b43/phy_n.c:7652-7656`): it selects command and coefficient tables only.
- Sample generation and the sample table: CORDIC is not part of this model.
- Static gain tables: with power control on the gains are arbitrary words.
- GainControl: the walk of the receive ladder is taken from RxGainSearch first and its hardware steps follow, which is the same because the readings are arbitrary.
- SearchRuns: likewise for the PAPD search and its engine runs.
- RssiCal: the readings inside it are those of RssiVcm; the stored registers that are not part of the model (transmit filter stages, look-up overrides, RFCTL_CMD) are left out.
- The lock of the PHY through MACCTL on core revisions 11 and 12.
- BeaconProtocol: writing one template is a single step; `set_tim`, which runs without the mutex (`b43/main.c:5175-5183`), is an update like any other. Template formatting is plumbing.
- MacLifecycle: a chip reset or controller restart concurrent with a stop, SDIO interrupts, DMA and PIO reasons, the other work items.
- HandlerRunEnds: stated for runs without an update in the gap, a failed clone or a saved reason that is lost (`MacLifecycle.ReasonsKeptExactly`); `GapExactly`, `DeliveredExactly` and `LostExactly` cover what those leave behind.
- CtlSetup: the target and TSSI registers it sets are not part of the state; its estimate tables are those of TssiTable.
- IdleTssi: the internal TSSI set-up and the idle values it stores are left out; nothing here reads them.
- RxPhySetup: SAMP_CTL, which it reads and nothing writes back.
- RunOne: the engine's other configuration registers and its thresholds (`b43/phy_n.c:7326-7355`); a run keeps whether it is one of the search.
- ResetCca: only that the bit is clear afterwards, not that it was set in between.
- CoreStop: the first unlock, in which it cancels work items, and the redo on another current device.
- IntcOverride: the RF sequence it forces when switched off.
- ValidateChipaccess: the timer and MACCTL checks that follow the shared memory ones.
- ApplyTidy: with old firmware, for callers that do not clear a default receive slot on its own, as none does; a phase 1 update is for a live pairwise key.
- KeyStore: debugging warnings and the RCMTA count register.
- FillTable: the six coefficients that divide by zero are excluded; C gives them no meaning.
- WriteInitvals: the registers themselves; a write is its offset and value.
- Firmware selection, probe and attach, mac80211 glue, LEDs, the random number generator, debug output, delays.
