# The Glowforge driver, modelled and proved in Dafny

The repository is a grblHAL driver for a CO2 laser cutter. Its core is a pulse-stream
engine: a producer maps step events onto byte slots, a shipper merges laser transitions
into the bytes and writes them to a kernel device that plays them at a fixed tick, and a
soft reset works out how many counted steps never played. Around it stand a receive ring
shared by a sender and a control port, the consent and cooling state machines that guard
the beam, the Z frame, and an M-code table.

This project models that core and proves what it promises, mostly as statements about
every run of a state machine whose steps interleave freely. `dafny verify dfyconfig.toml`
checks all of it. Nothing was executed.

## How the model is laid out

The stream engine:

- `PulseBytes.dfy` the byte format and the arithmetic modulo 2^32;
- `Dither.dfy` the density dose model;
- `StreamRing.dfy` the slot ring and the queue of timed events it refines;
- `LaserQueue.dfy` the transition queue, one shipped tick, one chunk;
- `StreamEngine.dfy` the engine's record `Gf` and one function per region under `gf.lock`;
- `StreamSystem.dfy` the whole machine: the record, the core's step count, the kernel as an
  environment, and the shipper between its regions. The gap between building a chunk and
  completing its write is a state of its own (`Writing`), so resets, faults, idles and other
  writers land in it. Wall time is the arbitrary `due` index;
- `StreamOrder.dfy`, `StreamClock.dfy`, `StreamLaser.dfy`, `StreamPosition.dfy`,
  `StreamReadback.dfy`, `StreamResidue.dfy`, `StreamGrammar.dfy`, `StreamDark.dfy`,
  `StreamFire.dfy`, `StreamDose.dfy`, `StreamLife.dfy` the whole-run theorems. Each carries an observer, a history of the run that no step of the machine
  reads;
- `StreamWitness.dfy` runs of the machine, from its start, into the states where a promise
  fails;
- `Engine.dfy` the ring and chunk buffers as arrays of bytes and the loops over them, each
  method proved against the function that models it;
- `Driver.dfy` the read-back taken into the core's position.

Around it: `Latch.dfy`, `SerialLines.dfy` with `SerialProofs.dfy`, `SerialInject.dfy` and the array ring in
`Serial.dfy`, `CtlPort.dfy`, `Consent.dfy`, `Acknowledgment.dfy`, `Cooling.dfy`, `DoseCurve.dfy`, `ZFrame.dfy`,
`MCode.dfy`.

The functions of `StreamEngine` follow the C regions by name: `Pulse` (gf_stream_pulse),
`LaserEvent`, `LaserRequest`, `Jog`, `LaserModel`, `Wakeup`, `GoIdle`, `Reset`,
`TakeReadback`, `ClearPosition`, `FinishClear` (the second half of pending_pass), `EndStream`,
`TakeChunk`, `ChunkTaken` and `ChunkLost` (ship_pass). They only compute, and the lemmas and
methods in the table say what they are worth.

## What was found

Where a promise fails, the code is kept as it is and a lemma says exactly when it holds.

- A fresh wakeup starts a clean ring if and only if no event is left unshipped
  (`StreamRing.FreshRefines`). A wakeup, a step, an idle and a wakeup with no ship pass
  between loses the step (`FreshOverBacklogLosesAStep`). The machine's `Wake` carries the
  empty ring as its precondition.
- A read-back is right if and only if the run lost no step (`StreamPosition.PositionConservation`).
  `StreamPosition.Loss` lists every way to lose one: a step refused by a fault, a mark that a new
  stream or a second idle replaces, a reset after a fault or without a mark, a read-back that a
  second reset or the end of the wait forgets, and a base taken over bytes not played. The guards
  a caller can check before each step are in `StreamReadback.Guard`, and they are exact: wherever
  the residue the engine computes is the steps of the bytes in the kernel's ring, a step loses
  nothing if and only if `Spares` holds, and leaves the residue the ring's if and only if `Tells`
  does (`SparesExactly`, `StepTells`). A run that keeps to them loses nothing and its read-back
  is right (`GuardedRunLosesNothing`, `GuardedReadbackIsRight`). A mark that a new stream forgets gives a
  read-back that is ready and wrong (`StreamWitness.ForgottenMarkIsNotReadBack`).
- A wakeup that continues a stream compares the wants with what is in force, and not with what is
  queued. It plays the wants from its first index unless it leaves them unsaid while the newest
  queued transition says something else (`StreamEngine.ContinueReasserts`): a cycle that starts
  before the last one's laser-off has played, and wants the same power and fire, runs dark
  (`StreamWitness.ContinuationRunsDark`).
- The run gate compares byte counts modulo 2^32, and a saturated tally is taken as a match.
  A run it let through then plays exactly its own bytes if and only if the bytes of other writers
  number a multiple of 2^32 since the last clear, and until the tally saturates there are
  none. It makes no count test behind an underrun or a fault. A run started after an underrun
  plays everything the ring took since the kernel ran dry, another writer's bytes included; a
  fault that is gone before the request lets the stopped bytes play again. In each case the run's
  own bytes play alone if and only if the kernel had played all it took before them
  (`StreamResidue.NoResidueReplay`). The three inputs are runs in `StreamWitness`, at every
  queue depth the start-up can set
  (`SaturatedTallyMissesAByte`, `UnderrunReplaysAForeignByte`, `FaultLeftReplaysItsRun`).
- A reset assigns `last_lit` from a flag it sets only while it stops the kernel. Two inputs lose
  the dark pad: a stream that ended on its own behind a lit byte and met the reset before its
  end-of-stream pass, and a second reset while the pad of the first is still owed
  (`StreamDark.ResetEndsDarkExactly`, both directions; `StreamWitness.ResetForgetsThePad` and
  `SecondResetForgetsThePad` are the runs).
- The acknowledgment wait of an arm tests neither an alarm nor the latch record. A disarm or the
  emission witness that locks inside it does not stop the window from opening, armed over a locked
  record, and the next run start then opens a latch that no call has unlocked since
  (`Consent.AckWaitOpensLocked`, `Latch.AckWaitOpensLatch`). A window opens over a locked record
  if and only if such a lock landed in its wait (`Consent.ConsentBeforeWindow`), and a locked latch
  at rest opens with no unlock call, arm or gate of its own if and only if it is armed over
  its locked record under an open gate (`Latch.ShutOpensExactly`).
- The verdict that acknowledges a window says that a window was reported, and not which one. The
  next wait can open its window on an answer to an earlier one if and only if such an answer is
  still fresh, on file, in the engine or on its way to it (`Acknowledgment.StaleAckExactly`).
- gflaser_disarm samples the latch record before it clears the armed flag. From that same state,
  and no other, it can end with the latch open (`Latch.DisarmRaceExactly`).
- A line too long for the receive ring, read in part before the overrun, leaves its beginning
  in the core's line buffer: whole lines survive an overrun if and only if none of the line in
  progress was read (`SerialProofs.OverrunExactly`). `SerialProofs.FragmentGlued` is a run, for
  every line longer than the ring and every ring size, in which the core reads a line that the
  sender never wrote.
- The same fragment takes an injected line with it: src/serial.c accepts one into the empty ring
  behind a torn line, and the core runs it glued to the fragment. An injected line is run whole if
  and only if the core's line buffer was not torn when it was accepted
  (`SerialInject.InjectedLinesRunWhole`, `InjectedBehindAFragment`).
- `tray_want` outlives a dropped client, and then takes a later client's jog answer for its
  own: the accepted jog becomes the port's if and only if no tray switch is on record
  (`CtlPort.JogHoldsExactly`), and a run leads there: the core jogs and the sender is not held
  (`LostClientLeavesTheTray`).
- src/serial.h says an injected line is queued behind what the ring holds; the code accepts
  one only into an empty ring, and the model follows the code.

## Model

| member | source | states |
|---|---|---|
| PulseBytes.PulseByteMeaning | src/stepper_stream.c:568-634 | a pulse byte reads back, in the kernel's step count, as exactly the steps the core counted, dark, and is zero exactly for an event that steps no axis |
| PulseBytes.PulseByteBits | src/stepper_stream.c:566-580 | the wire's bits axis by axis: X, Y and Z steps in bits 0, 2 and 5, with X_DIR for -X, Y_DIR for +Y and Z_DIR for +Z |
| PulseBytes.FireBitMeaning | src/stepper_stream.c:1545-1547 | setting FIRE in a tick byte changes nothing but the light |
| PulseBytes.PowerByteMeaning | src/stepper_stream.c:1529-1536 | a 7-bit duty behind the power mark reads back as that duty |
| DitherModel.SelectValid | src/stepper_stream.c:687-719 | whatever the settings, the model selected at an accepted rate keeps the invariant (burst within period, period short enough for 32 bits), starts with no debt, and is the analog one exactly when no period was asked for |
| DitherModel.RefTicksNearest | src/stepper_stream.c:687-693 | the scaled ticks are the nearest whole number of stream ticks, at least one, and the ticks given at the reference rate |
| DitherModel.SelectsAsAsked | src/stepper_stream.c:695-719 | the period selected is the one asked for up to the maximum, the shortest burst the one asked for from one up, never longer than the period |
| DitherModel.NextPeriodBalance | src/stepper_stream.c:657-683 | no 32-bit overflow; what a period fires plus what it carries is what was asked plus what was owed; the debt stays under one shortest burst, and under one tick behind a burst that does not fill the period |
| DitherModel.PeriodShape | src/stepper_stream.c:657-683 | each period is a leading burst, empty or between dith_min and the period, and its account balances |
| DitherModel.DoseConservation | src/stepper_stream.c:648-683 | over any number of periods since a reset, any power at each start, 127 * fired + debt is exactly the dose: never above it, behind it by less than one shortest burst |
| DitherModel.DoseAnytime | src/stepper_stream.c:648-683 | the same account at any tick since a restart, the period under way with the burst it still holds |
| StreamDose.DoseOnTheWire | src/stepper_stream.c:1503-1552 | over every run: the dither is valid; the lit bytes built since it last restarted number what the density model fires over the ticks with fire in force under an open gate, all of those ticks in the analog model; 127 times what they and the burst under way deliver, plus the debt, is the dose asked for |
| StreamRing.StoreRefines | src/stepper_stream.c:588-618 | an accepted event lands at the largest of its tick, the cursor and the end of production, which is less than a ring ahead of the cursor, in a slot that held nothing, behind every live event |
| StreamRing.ShipRefines | src/stepper_stream.c:1538-1552 | a shipped slot is the head event exactly at its index, else a pad, and the slot is zero again |
| StreamRing.DropRefines | src/stepper_stream.c:1698-1706 | the drop zeroes every slot and gathers exactly the steps of the live events |
| StreamRing.ContinueRefines | src/stepper_stream.c:837-854 | a continuation keeps every live event |
| StreamRing.FreshRefines | src/stepper_stream.c:826-836 | a fresh stream starts clean if and only if no event was left unshipped |
| StreamRing.FreshOverBacklogLosesAStep | src/stepper_stream.c:826-836 | the input that shows it: the second stream's first step takes the first one's slot |
| LaserQueue.LaserTickShape | src/stepper_stream.c:1503-1552 | one tick is one tick byte with the slot's steps behind at most one power byte; it is lit only under an open gate with fire in force |
| LaserQueue.LastRequestWins | src/stepper_stream.c:732-753 | whatever was merged on the way, a queue played out leaves the power and fire of the newest transition queued; earlier transitions are kept; and the newest is one more at its index, or took the newest's place, at its index, where that was the same tick or the queue was full |
| LaserQueue.LaserOffQueued | src/stepper_stream.c:921-935 | a cycle's laser-off is queued wherever anything is lit or queued, and only the newest transition makes place for it |
| LaserQueue.CycleEndsDark | src/stepper_stream.c:921-935 | the laser-off of a cycle's end plays out dark, at the power the cycle ended with |
| LaserQueue.TickDuty | src/stepper_stream.c:1503-1536 | the duty the kernel plays a tick with is the power of the last transition the tick reached; the density model pins it at full |
| LaserQueue.ChunkDuty | src/stepper_stream.c:1496-1552 | the same behind every chunk |
| StreamEngine.FreshWakeReasserts | src/stepper_stream.c:826-873 | a fresh stream plays from its first byte at the wanted power, and at the wanted fire only armed and outside a jog |
| StreamEngine.ContinueReasserts | src/stepper_stream.c:837-873 | a continued stream starts at the later of the wall's index and the end of production, and plays the wants from there if and only if it does not leave them unsaid (already in force, or a full queue) behind a queued transition that says something else |
| StreamWitness.ContinuationRunsDark | src/stepper_stream.c:856-873 | at every queue depth, a run from the start: a cycle at full power ends, the next wants the same before the last step has played, and the queue ends dark in an armed window |
| StreamEngine.RequestReaches | src/stepper_stream.c:755-769 | a request the stream accepts sets the wants and leaves, at its index, exactly the power asked for, and fire exactly when asked for, armed and outside a jog |
| StreamEngine.JogReaches | src/stepper_stream.c:797-808 | a jog entered or left keeps the wants and leaves, at its index, the wanted power, and the wanted fire only outside the jog and armed |
| StreamLaser.LaserPlaysTheProgram | src/stepper_stream.c:723-935 | over every run in which no command meets a full queue: every tick built sounds at the power of the last command it has reached, and is lit exactly where that command asks for fire under an open gate (analog model), or at full duty and lit only there (density model); the commands ahead and the wants are what the engine holds. A command is a request, a jog, a wakeup or a cycle's end, at its virtual tick or the cursor |
| StreamLaser.LastCommandPlays | src/stepper_stream.c:1503-1521 | a tick that has reached every command plays the last one |
| StreamOrder.ChunkMarks | src/stepper_stream.c:1496-1552 | a chunk is exactly the events the cursor passed, each at its own index, and the ring holds the rest |
| StreamOrder.StreamRefinesQueue | src/stepper_stream.c:582-620 | over every run, faults and resets included: each accepted event shipped, was dropped by a reset or is live, in order; the step bytes built are exactly the shipped events at the indices they took, none before its tick; every other slot is zero |
| StreamClock.StepsAtTheirFirstIndex | src/stepper_stream.c:588-618 | over every run: the index each accepted step took is the largest of its virtual tick, the cursor and one past the step before it in its stream, on a clock kept from the core's advances and wakeups; the next step offered takes its index so, or is late under an armed window or a ring ahead of the cursor, and fails the stream |
| StreamOrder.NothingMissing | src/stepper_stream.c:1496-1552 | without a reset the wire followed by what is live is everything accepted |
| StreamLife.PassBuildsExactly | src/stepper_stream.c:1428-1500 | a pass builds a chunk if and only if the stream has not failed, one depth is preloaded or it has shipped before, and something is to ship before the due index; the run is let go exactly when the stream has ended with nothing left |
| StreamLife.ChunkReaches | src/stepper_stream.c:1496-1552 | a chunk goes to the due index and no further, unless it is full or the stream ends first |
| StreamLife.WriteGoesOn | src/stepper_stream.c:1585-1602 | a completed write goes on exactly while something is to ship and no fault or reset landed under it, and else asks for the run it started |
| StreamLife.WriteFails | src/stepper_stream.c:1573-1587 | a failed write fails the stream and loses the base and a waiting read-back |
| StreamLife.ResetLeaves | src/stepper_stream.c:1745-1800 | a reset acknowledges a fault, ends a live, marked or faulted stream with nothing to ship, clears the kernel exactly where it may hold its bytes, and owes the read-back exactly for a mark without a fault |
| StreamLife.ReadbackIsAwaited | src/stepper_stream.c:1298-1338 | over every run a waiting read-back has its clear pending, and the clear's end answers it |
| StreamPosition.StepBalance | src/stepper_stream.c:1298-1338 | every step moves the account (core count less played, in the kernel, in flight, in the backlog, marked and owed) by exactly the steps it loses, modulo 2^32, and only the steps named in Loss lose any |
| StreamPosition.PositionConservation | src/stepper_stream.c:1708-1838 | from any base any run reaches, a read-back that is ready is the core's count less the steps the kernel really played since, less the run's losses, per axis modulo 2^32: right if and only if the losses sum to zero, and then exact where it fits an int32 |
| StreamPosition.ConservationFromStart | src/stepper_stream.c:1708-1838 | the same counted from the start of the program: a ready read-back is the core's count less the kernel's play since then if and only if the run lost nothing |
| StreamReadback.SparesExactly | src/stepper_stream.c:1708-1838 | wherever the residue is the ring's, a step loses nothing if and only if its guard holds: a step accepted, no mark replaced or forgotten, no read-back forgotten, nothing dropped unowed, the counters zeroed over a played ring |
| StreamReadback.StepTells | src/stepper_stream.c:1298-1338 | a step leaves the residue the engine computes the steps of the kernel ring's bytes if and only if its guard holds |
| StreamReadback.GuardedRunLosesNothing | src/stepper_stream.c:1298-1338 | a run in which every step finds what the guards ask for loses no step, and the residue the engine computes stays the steps of the bytes in the kernel's ring |
| StreamReadback.GuardedReadbackIsRight | src/stepper_stream.c:1708-1838 | from any empty base any run reaches, through any guarded run: the residue is the ring's outside a clear, and a read-back that is ready is the core's count less what the kernel really played, exact where it fits an int32 |
| StreamWitness.ForgottenMarkIsNotReadBack | src/stepper_stream.c:818-820 | from every start there is a run with a base whose read-back is ready and wrong: a new stream forgets the mark of a step counted and never output |
| StreamResidue.StepKeeps | src/stepper_stream.c:1375-1629 | every step keeps the byte accounts: written against what the ring took, the run's bytes last in the ring, the gate's counts still true at the request |
| StreamResidue.NoResidueReplay | src/stepper_stream.c:1058-1238 | over every request that starts the kernel: with no other writer since the run began, exactly this run's bytes play if and only if the kernel has played all the ring took before them; where the gate read counts, they do until the tally saturates and past that if and only if the foreign bytes number a multiple of 2^32; where an underrun was read or acknowledged, what plays is what the ring took since the kernel ran dry; where no counts were read, the kernel has left the underrun or fault the gate saw |
| StreamResidue.OwnRunPasses | src/stepper_stream.c:1207-1238 | over every run: the gate's counts pass where the ring holds no other's byte and has played all it took before the run |
| StreamResidue.GateDecides | src/stepper_stream.c:1207-1238 | a run request follows exactly from an underrun or fault read, or matching counts in an idle or disabled kernel; anything but that and a running kernel fails the stream |
| StreamLife.RequestGoes | src/stepper_stream.c:1058-1146 | the request starts the kernel; it acknowledges an underrun once and only disarmed; and one refused fails the stream |
| StreamWitness.UnderrunReplaysAForeignByte | src/stepper_stream.c:1058-1146 | at every queue depth, a run from the start in which an acknowledged underrun starts over another writer's byte |
| StreamWitness.FaultLeftReplaysItsRun | src/stepper_stream.c:1207-1238 | at every queue depth, a run from the start in which the fault the gate saw is gone at the request and the stopped bytes play again |
| StreamWitness.SaturatedTallyMissesAByte | src/stepper_stream.c:1207-1238 | at every queue depth, a run from the start in which the gate's counts pass over a foreign byte |
| StreamGrammar.ChunkFits | src/stepper_stream.c:1496-1552 | the chunk buffer is never outgrown |
| StreamGrammar.ChunkAdds | src/stepper_stream.c:1496-1552 | a chunk keeps the grammar: powers lead ticks, one tick per index, its last byte is what last_lit says |
| StreamGrammar.StreamGrammarHolds | src/stepper_stream.c:1272-1561 | over every run, resets and faults under a write included: every kernel run's bytes, its pads with them, start with a power byte, each power byte leads a tick, the ticks are one per stream index but for the counted pads behind a reset or fault and the closing pads that did not land, the density model sends one power byte at full duty; power_sent holds exactly while a run is the kernel's |
| StreamDark.ResetRecord | src/stepper_stream.c:1755-1797 | a reset keeps the record of a lit last byte exactly when it does not forget it, and then the clear is pending |
| StreamDark.DarkTermination | src/stepper_stream.c:1272-1284 | over every run whose writes succeed and whose resets forget no pad: once no stream is under way, and whenever a clear is about to drop the residue, the last byte written carries no FIRE |
| StreamDark.ResetEndsDarkExactly | src/stepper_stream.c:1755-1797 | with nothing left to ship behind a lit byte, reset and passes leave a dark end if and only if the reset does not forget the pad |
| StreamWitness.ResetForgetsThePad | src/stepper_stream.c:1755-1797 | at every queue depth, a run from the start: a stream ended on its own behind a lit byte, a reset before its last pass, and no pad is ever due |
| StreamWitness.SecondResetForgetsThePad | src/stepper_stream.c:1755-1797 | at every queue depth, a run from the start: the second of two resets forgets the pad the first owed, and the clear comes with the lit byte last |
| StreamFire.ChunkSources | src/stepper_stream.c:1503-1548 | a chunk built from sound sources gives every lit tick, the queue left and the fire in force a sound source |
| StreamFire.SampleKeeps | src/stepper_stream.c:1405-1419 | a pass that sees the gate fall leaves nothing lit in flight or queued |
| StreamFire.FireProvenance | src/stepper_stream.c:723-805 | over every run, every lit byte was built under an open gate sample from a transition a core fire request asked for, queued armed and not jogging, after the last pass that saw the gate fall |
| Engine.Stream.Pulse | src/stepper_stream.c:582-620 | on a live stream that has not failed the byte array takes the event at the largest of its tick, the cursor and the end of production, or the stream fails exactly when it is late while armed or past the ring; nothing changes on a failed or ended stream or for an event with no step |
| Engine.Stream.DropBacklog | src/stepper_stream.c:1698-1706 | the loop leaves the ring of the drop function and adds its steps to the 32-bit counters |
| Engine.Stream.QueueEvent | src/stepper_stream.c:732-753 | the transition queue becomes the one of the queueing function |
| Engine.Stream.QueueOff | src/stepper_stream.c:921-935 | the cycle's laser-off becomes a new transition or darkens the newest |
| Engine.Stream.SampleGate | src/stepper_stream.c:1405-1419 | the loop on a falling gate darkens every queued transition |
| Engine.Stream.DitherStep | src/stepper_stream.c:657-683 | one dither tick in place is the tick of the model |
| Engine.Stream.ApplyDue | src/stepper_stream.c:1510-1521 | the drain loop applies exactly the transitions the cursor reached |
| Engine.Stream.ShipTick | src/stepper_stream.c:1503-1552 | one tick over byte arrays is the tick of the model, its bytes reading as the model's |
| Engine.Stream.BuildChunk | src/stepper_stream.c:1490-1552 | the chunk loop's bytes, ring and laser state are the model chunk's, inside a 256-byte buffer |
| Driver.Core.ReadbackPosition | src/driver.c:357-373 | a read-back done comes off the position on every axis and restores trust; otherwise nothing changes, and it is taken once |
| Latch.LatchOwnership | src/stepper_stream.c:325-430 | over every interleaving: a latch shut while disarmed stays locked until an unlock call, unless this process arms over the locked record; it is then open if and only if a run start that found it armed, the gate open and the record locked has relit it, and once that run start is over it ended in an armed window or none of its locks took; another writer's lock under an open record stays until this process has itself locked; a record of locked is true of the hardware |
| Latch.ShutOpensExactly | src/stepper_stream.c:1075-1081 | a locked latch at rest can open with no unlock call, arm or gate opened if and only if it is armed over its locked record under an open gate |
| Latch.AckWaitOpensLatch | src/glowforge_laser.c:683-731 | the run that shows it: a disarm locks in the acknowledgment wait, the window opens, the next run start unlocks |
| Latch.DisarmRaceExactly | src/glowforge_laser.c:357-377 | a disarm can end with the latch open if and only if it begins with a record of locked inside an armed window under an open gate |
| Latch.RaceLeavesOpen | src/stepper_stream.c:1075-1081 | the run that shows it: a relight between the disarm's sample and its disarm |
| Latch.Writer.WriteLocked | src/stepper_stream.c:375-394 | at most four attempts, the record follows only a write that took, an unlock of a latch believed unlocked writes nothing |
| SerialProofs.InjectionNonInterference | src/serial.c:145-217 | over every interleaving, flushes and cancels included: unread injected bytes are exactly the first inj_left of the ring, every status goes to its line's source, every accepted injection is answered once or outstanding, the sender's held error is its own |
| SerialProofs.LineIntegrity | src/serial.c:329-388 | for every sender whose lines fit the ring, what the core read and the ring still holds is its lines that did not overrun, whole and in order |
| SerialProofs.OverrunExactly | src/serial.c:354-368 | an overrun keeps lines whole if and only if none of the line in progress has been read |
| SerialProofs.FragmentGlued | src/serial.c:354-368 | for every ring size, every line longer than the ring and every line behind it that fits: a run in which the first is read in part, overruns, and leaves its first byte glued to the second |
| SerialProofs.UnwriteStops | src/serial.c:359-364 | unwriting removes exactly the bytes behind the last end of line |
| SerialProofs.GateExactly | src/serial.c:153-161 | an open gate passes whatever waits, a closed one exactly an injected byte, a cancel and the end of an empty line |
| SerialProofs.OverrunsExactly | src/serial.c:348-368 | a sender's byte overruns, is flagged, and begins a discard exactly where the ring holds all but one of its bytes and nothing is being discarded |
| SerialInject.InjectedLinesRunWhole | src/serial.c:436-458 | over every run, flushes and cancels included: an injected line is run exactly as injected if and only if the core's line buffer was not torn when it was accepted, and that buffer is empty wherever a line can be injected if and only if it is not torn; read_midline and the open sender line are what the core has read since a flush |
| SerialInject.InjectedBehindAFragment | src/serial.c:436-458 | for every ring size and every line longer than the ring: a run in which an injected line is accepted behind a fragment |
| Serial.Ring.RxByte | src/serial.c:329-388 | the circular buffer after a sender byte holds the queue of the model, unwrite loop included |
| Serial.Ring.UnwriteLine | src/serial.c:359-364 | the head moved back to the last end of line or to the tail |
| Serial.Ring.GetC | src/serial.c:145-184 | -1 exactly when the ring is empty or the gate holds the byte; else the head byte, with the injection's bookkeeping |
| Serial.Ring.RxFlush | src/serial.c:198-217 | everything queued goes, and an injection in flight is reported |
| Serial.Ring.RxCancel | src/serial.c:219-224 | a flush that leaves the cancel byte alone in the ring |
| Serial.Ring.InjectLine | src/serial.c:436-458 | accepted exactly into an empty ring with the sender between lines and room for it, whole, ended the sender's way |
| Serial.Ring.StatusMessage | src/serial.c:392-407 | an injected line's status goes to its source and the sender's error is put back |
| Serial.Ring.SenderPending | src/serial.c:511-524 | true exactly when a byte behind the injected ones ends no line |
| CtlPort.SenderHeldDuringJog | src/ctlport.c:455-491 | over every run, while the jog is the port's the gate is closed, so the core can read only injected bytes, a cancel or the end of an empty line; the port waits exactly while a line of its own is in flight |
| CtlPort.JogHoldsExactly | src/ctlport.c:196-220 | an answered jog becomes the port's if and only if it was accepted and no tray switch is on record |
| CtlPort.AnsweredExactly | src/ctlport.c:196-220 | every answer ends the line in flight and its tray switch; a jog becomes the port's, with the gate closed and its cancel to come, exactly from an accepted jog with no switch on record; a line lost to a reset or a cancel changes nothing else |
| CtlPort.GateOpensAgain | src/ctlport.c:455-491 | over every run the gate is closed only for the port's jog or the envelope; a poll ends the jog with the core's, asks for its cancel once behind a sender's line, closes the envelope on one, and with no line in flight outside a jog leaves the gate open exactly when the envelope is closed or a sender's line waits; behind an open gate what waits is readable |
| CtlPort.HandedExactly | src/ctlport.c:222-239 | a line goes into the ring exactly when it is empty, the sender between lines and the line fits, and waits exactly behind empty lines alone |
| CtlPort.RetriedExactly | src/ctlport.c:508-519 | a waiting line goes in on the same condition, and is given up on a sender's line or at its time |
| CtlPort.LostClient | src/ctlport.c:174-184 | a lost client's jog is cancelled once if the core jogs, and nothing of it waits |
| CtlPort.LostClientLeavesTheTray | src/ctlport.c:174-220 | a run from every start with room for the lines: a lost client's deferred tray switch stays on record, a later client's jog is injected, read and accepted, and the core jogs with the sender not held |
| CtlPort.Panel.OnStatus | src/ctlport.c:196-220 | the callback's flags, ok answered exactly to an accepted line whose tray mode, if it asked for one, is in force, and an error with its number in decimal |
| CtlPort.DecimalInjective | src/ctlport.c:214-219 | the number in a reply names one error |
| CtlPort.Panel.OnPoll | src/ctlport.c:455-491 | the poll's flags for the jog and the envelope, which CtlPort.GateOpensAgain decides in the inputs |
| CtlPort.Panel.CancelPortJog | src/ctlport.c:166-172 | one motion cancel per port jog |
| CtlPort.Panel.DropPortClient | src/ctlport.c:174-184 | a lost client cancels its jog, its deferred line and its envelope |
| Consent.ButtonWait | src/glowforge_laser.c:779-848 | the wait loop ends pressed or aborted exactly as the turn function says |
| Consent.WaitExactly | src/glowforge_laser.c:779-848 | the wait ends in consent if and only if the button is down with lid and loop closed after it was seen up in this wait, and no turn before was another sender, an alarm, a reset, the deadline or a third unreadable read in a row |
| Consent.BeginsExactly | src/glowforge_laser.c:737-778 | an arm or a re-arm begins its wait exactly when the verdict, the head and the unlock all pass |
| Consent.RearmExactly | src/glowforge_laser.c:917-977 | the re-arm comes to its completion if and only if the button is down with lid and loop closed after it was seen up in this wait, and no poll before found the job let go, another sender, lid or loop open, the deadline with the button up, or a third unreadable read in a row |
| Consent.AckExactly | src/glowforge_laser.c:671-735 | the acknowledgment wait opens the window, armed, if and only if a turn reads the acknowledgment, a passing verdict and a head, and no turn before ended it |
| Consent.DisarmsExactly | src/glowforge_laser.c:357-377 | a disarm closes and locks, and reports the window closed unless there was neither a window nor an unlocked latch |
| Consent.ConsentBeforeWindow | src/glowforge_laser.c:671-977 | over every run with switches, disarms and witness locks anywhere: every window had its gates passed, its own button up and down, and an acknowledgment, a passing verdict and a head read in its wait; it opened over a locked record if and only if a disarm or the witness locked in its wait; with nothing under way and no window, the latch record is locked, the engine told, the stream disarmed |
| Consent.AckWaitOpensLocked | src/glowforge_laser.c:683-731 | the run that shows it: arm, button up, button down, disarm, acknowledgment, and the window is open over the locked latch |
| Acknowledgment.StaleAckExactly | src/glowforge_cooling.c:500-545 | from any rest with no window open that a run reaches, the next wait can open its window on an acknowledgment computed for an earlier one if and only if an armed verdict is fresh or on file, or an armed report is in the engine or on its way |
| Consent.Laser.Disarm | src/glowforge_laser.c:357-377 | the window closed and the latch locked whether or not a window was open |
| Consent.Laser.RearmPoll | src/glowforge_laser.c:917-977 | one poll of the re-arm, every exit but a press leaving the latch locked and the engine told |
| Cooling.PollEffects | src/glowforge_cooling.c:546-661 | a deceleration is lit only by opening an episode in a cycle and stays lit only while the head moves; an episode ends only on a clean verdict; a resume ends one |
| Cooling.PollAsks | src/glowforge_cooling.c:546-652 | in the inputs, as equivalences: the feed hold in a cycle that a fresh verdict holds or blocks, or that no verdict covers; the jog cancel; the resume of our own hold on a clean verdict that allows it; the end of the job; the fallback fans and the heater's end |
| Cooling.PollRemembers | src/glowforge_cooling.c:182-207 | in the inputs, as equivalences: whose the hold is, the lit deceleration, the verdict lost and its airflow, the pause said |
| Cooling.FansOncePerLoss | src/glowforge_cooling.c:584-613 | over every sequence of polls the fallback airflow comes exactly at the first poll without a verdict in a reported window since the last fresh one |
| Cooling.OneLitDeceleration | src/glowforge_cooling.c:182-207 | between two raises of decel_lit some poll had a fresh verdict that neither asked for a hold nor blocked fire in an open window |
| Cooling.ResumesWithinEpisodes | src/glowforge_cooling.c:636-652 | over every sequence of polls, automatic resumes never outnumber the hold episodes opened |
| Cooling.Cooler.TakeHold | src/glowforge_cooling.c:182-195 | the first hold of an episode lights the deceleration, a later one does not |
| Cooling.Cooler.TrackDecel | src/glowforge_cooling.c:199-207 | a lit deceleration ends when the head has stopped or the job left cycle and hold |
| Cooling.Cooler.OnPoll | src/glowforge_cooling.c:546-652 | the flags and commands of a poll are those of the poll function, which Cooling.PollAsks and PollRemembers decide |
| DoseCurve.CurveParse | src/glowforge_laser.c:412-438 | for every text and number scan: accepted exactly when it is nothing but "density:light" items, 2 to 12 of them, rising strictly in both coordinates inside 0..100 with a first light above zero; a refusal leaves the curve alone |
| DoseCurve.ItemsSpelled | src/glowforge_laser.c:412-438 | a text's items are pairs exactly when it spells them: number, colon, number, and a comma where there is one, to the end |
| DoseCurve.CurveApply | src/glowforge_laser.c:471-486 | the index search and the clamped fraction compute the inverse map; no points is the identity |
| DoseCurve.CurveInverts | src/glowforge_laser.c:471-486 | between the first and last point the curve and the measured map are inverse, in both directions |
| DoseCurve.ApplyMonotone | src/glowforge_laser.c:471-486 | nondecreasing everywhere |
| DoseCurve.ApplyOutside | src/glowforge_laser.c:471-486 | below the first point the density is to the light as the first point's is to its own, nothing for nothing; from the last point on it is the last point's |
| DoseCurve.ComputeValueMonotone | src/glowforge_laser.c:500-527 | at a fixed rate ratio the value never falls as the speed rises, and stays in its limits when they are in order |
| DoseCurve.CommandedExactly | src/glowforge_laser.c:500-515 | the light is to the corner factor as the speed is to its range, and full from the top on |
| DoseCurve.ComputeValueNearest | src/glowforge_laser.c:516-523 | the value is the nearest whole 127th of the density inside its limits, and else the limit passed |
| ZFrame.GridShiftExact | src/glowforge_homing.c:259-262 | a height on the step grid is shifted by exactly the steps asked for |
| ZFrame.GridShiftNearest | src/glowforge_homing.c:259-262 | off the grid the height is taken to the nearest step first |
| ZFrame.LensWindow | src/glowforge_homing.c:138-148 | the free travel is the first of the one given, the one set and the fallback that lies in 1 to 40 steps |
| ZFrame.ParkSteps | src/glowforge_homing.h:34-38 | the park is the nearest to the one asked for inside the free travel around the edge |
| ZFrame.ZFrameCoherence | src/glowforge_homing.c:111-282 | over every sequence of references, homes, invalidations, releases, tray switches and moves: anchor plus counter is the Z position whenever the anchor carries Z; Z stands inside its limit; a referenced Z is the lens height plus the shift of the mode; homed X and Y are limited |
| ZFrame.HomesLeave | src/glowforge_homing.c:150-205 | a reference and a camera home let exactly the free travel around the edge through, with their anchors; a manual home leaves Z as it was |
| ZFrame.LostStaysPinned | src/glowforge_homing.c:207-235 | a lost reference lets no lens move through until the next reference or camera home, whatever happens in between |
| ZFrame.TrayUndone | src/glowforge_tray.c:135-172 | the tray in again, at any offset setting, moves Z back by exactly what the tray out moved it, whatever came between; with nothing between it restores every Z |
| ZFrame.TraySwitchesExactly | src/glowforge_tray.c:155-172 | the mode in force and a marker that was not saved move nothing; else the mode is the one wanted and every Z of the frame moves by the offset out, and back by the shift remembered |
| ZFrame.Machine.ApplyZLimit | src/glowforge_homing.c:111-134 | the limit is the reference's envelope, or where an unreferenced lens stands |
| ZFrame.Machine.SetReference | src/glowforge_homing.c:150-167 | position, home and envelope on the edge in the frame of the mode |
| ZFrame.Machine.InvalidateAll | src/glowforge_homing.c:207-217 | no anchor, no reference, X and Y neither homed nor limited, Z pinned |
| ZFrame.Machine.ReleaseXY | src/glowforge_homing.c:219-235 | X and Y lose their reference and Z keeps its own |
| ZFrame.Machine.ShiftSteps | src/glowforge_tray.c:135-144 | the shift of the mode, read from the setting at its first use only |
| ZFrame.Machine.ShiftFrame | src/glowforge_homing.c:264-282 | every Z of the frame moved together |
| ZFrame.Machine.SetTray | src/glowforge_tray.c:155-172 | the switch of the model, nothing changed where the marker was not saved |
| MCode.ParseList | src/glowforge_mcode.c:96-119 | accepts exactly the comma-joined prints of 1 to 20 distinct codes in 160..179, and yields that sequence |
| MCode.PrintInjective | src/glowforge_mcode.c:90-125 | a list names one table |
| MCode.SpellsCode | src/glowforge_mcode.c:101-104 | at most three digits spell a code exactly when they are its print |
| MCode.Strtol | src/glowforge_mcode.c:101-103 | the run of digits and the number it spells |
| MCode.Codes.SetTable | src/glowforge_mcode.c:90-125 | "-" empties the table, the print of a table becomes that table, anything else is refused and changes nothing |
| MCode.Codes.TakeAnswer | src/glowforge_mcode.c:127-142 | accepted exactly for the wait's own number, unanswered, with a printable text without brackets of at most 96 characters |
| MCode.OneAnswerPerWait | src/glowforge_mcode.c:226-252 | over every run each wait accepts at most one answer, in order, and only under the number of the very wait it ended |

## Left out

- The record's own fields in place: the lifecycle regions of the stream engine (wakeup, idle, reset, clear, stream end) are functions on the record `Gf`, because the theorems quantify over interleavings of whole regions; assignment order inside a region is not captured. The ring, the queue, the dither counters and the chunk are updated in place in `Engine.dfy`.
- The transition queue's circular indices: the queue is a sequence of at most 4096 transitions, so lev_head and lev_tail wrapping is not captured.
- StreamPosition.PositionConservation: speaks of runs that keep a base (a failed write or a counter zero that does not take leaves none, and then the code reports the read-back lost), and of a read-back taken before anything new moves, as driverReset takes it.
- StreamReadback.GuardedReadbackIsRight: the guards are exact step by step; losses of several steps that cancel modulo 2^32 are only in StreamPosition.PositionConservation.
- StreamDark.DarkTermination: leaves out runs with a failed or foreign write and with a reset that forgets the pad; the last is characterised exactly by StreamDark.ResetEndsDarkExactly.
- StreamResidue.NoResidueReplay: the clause about counts read supposes no other writer between that reading and the request (no reading can close that gap) and fewer than 2^32 bytes queued and written in the run, because the counters are 32 bits wide; where another writer wrote since the run began, the other clauses say what plays and not that it is the run alone.
- StreamLaser.LaserPlaysTheProgram: says nothing of the ticks behind a command that met a full queue of 4096 transitions, where LaserQueue.LastRequestWins says what is left in force; and nothing of the duty of a kernel run in which the dose model changed its kind.
- SerialInject.InjectedLinesRunWhole: injected lines hold no end of line and no cancel of their own.
- Cooling.PollRemembers: the messages themselves are left out, the flags that keep them to once an episode are not.
- SerialProofs.LineIntegrity: leaves out flushes and cancels, which cut the sender's line in progress by design.
- SerialProofs.InjectionNonInterference: an injected line holds no end of line of its own, as the control port forms them.
- Consent.ConsentBeforeWindow: the lock writes take; the emission reading, the disarm grace and the head, verdict and configuration reads are inputs.
- ZFrame.ZFrameCoherence: the counter zeros take and the kernel is idle; X and Y positions and their envelope are not modelled beyond homed and limited.
- DoseCurve.CurveParse: the C library's number scan is given as a function of the text and an index, a NaN is no real, and float rounding is not modelled.
- Latch.Writer.WriteLocked: a write's outcome is given in advance and the pause between attempts is left out.
- MCode.Strtol: the value is unbounded where the C library saturates; more than three digits are refused either way.
- DoseCurve.ComputeValueMonotone: the corner rolloff's power is a given positive factor, and the core's own computation without a curve is not modelled.
- Driver.Core.ReadbackPosition: the bounded wait for the clear is the step DoReadback, which may come before it.
- The null sink, suspend and resume of the device, run_pending's wait (its outcome is the step Fault), hold currents, min_margin and the clamp count.
- Acknowledgment.StaleAckExactly: one report, one engine view and one file at a time, each hop in one step; ages are a verdict that expires at any moment.
- The kernel device itself beyond its byte counts, step counters and states; sysfs, locks of the filesystem, sockets, the HTTP reporter and the verdict file.
- Wall-clock pacing, thread priorities and the due computation in doubles.
- The grblHAL core: it reads bytes, runs a line at its end-of-line byte and emits its status, counts a step before it outputs it, and checks the soft limit of a move.
- The homing runner, LED writes, logging, status publishing and the switch cancel machine: they would only add easy members.
