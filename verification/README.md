# Pulse engine and motion driver: a verified model

The kernel module plays a job of pulse bytes on a laser cutter. User space writes
bytes into a ring. A script on the SDMA core takes one byte per timer tick, drives
the direction, step and laser pins with it and counts positions. The driver starts,
stops, ramps and backtracks the run. This project models that system and proves what
it keeps over every interleaving of writes, clears, requests, timer ticks, interrupts
and faults. It also models the small assembler that produces the script.

| file | models |
|---|---|
| `Words.dfy` | 32-bit indices and ring slots |
| `Backtrack.dfy`, `Ramp.dfy` | the backtrack bounds, and the discrete ramp they are measured against |
| `Pulse.dfy`, `Pins.dfy` | pulse bytes, GPIO words and what a stepper reads from them; the pin map by bit number |
| `Engine.dfy`, `Script.dfy` | one tick of the script as a function, and the script statement by statement |
| `Playback.dfy`, `Buffer.dfy` | ring, writer, run start and engine together, and the buffer object |
| `Fifo.dfy`, `Motion.dfy`, `Laser.dfy`, `Power.dfy`, `Parking.dfy`, `TickLaws.dfy`, `Reach.dfy` | what that system guarantees over whole runs, what one tick takes, and that a run comes to its end |
| `Retrace.dfy`, `Walk.dfy`, `Torn.dfy`, `Pause.dfy` | backward runs: genuine data, the walk itself, torn histories, and positions over pauses |
| `Driver.dfy`, `Cnc.dfy` | the driver's locked sections and callbacks as steps, and the driver object |
| `Lifecycle.dfy`, `Diagram.dfy`, `Protocol.dfy` | the driver's invariant, its diagram of states with what each output does, and its protocols |
| `Signalling.dfy`, `Joint.dfy`, `Pending.dfy` | the engine's ticks as the driver sees them; ring, engine and driver stepped as one machine; an interrupt left over from one run to the next |
| `Opcodes.dfy`, `Encodings.dfy`, `Assembler.dfy` | instruction encodings and decoder, the encodings by number, what is legal source, the two passes, packing |

Each object (`SdmaScript`, `PulseBuffer`, `Cnc`) is a class whose methods are proved to
compute a step of a transition function on values, and carries the invariant of that
function's reachable states; the properties are then proved of all runs of the
function. `Joint.dfy` runs the ring's and the driver's transition functions side by
side, one section under the locks at a time, and proves that they stay in step. History
that the program does not keep (the job, unbounded indices, the log of what was
executed, the number of stops) is ghost state of the classes and extra fields of the
value models.

One engine step is one timer tick, because the script yields only at `done 4`. One
driver step is one section under the status lock or one softirq callback; the ring
mutex has an owner. A write is two steps and a run request three (test for data, publish
the registers, commit), so ticks, stops and other calls fall in between. The softirq
flag of a stop is a parameter: under a lock that disables softirqs the test may read
either way.

## Where the code and its descriptions differ

The model follows the code. Each of these is stated by a member of the table.

* A resume's laser-off lead is exact only if the GPIO value it starts from has its laser
  bits clear: the direction write of the first byte comes before the inhibit is applied
  (asm/sdma.asm:172 and 213, against 67-73). It is clear after loading, after an end of
  data, and after a backward run that executed a step byte; it is not after a halt on a
  laser byte.
* A ring that a backward run has walked a whole ring back is full, and a full ring reads
  as empty to the engine (asm/sdma.asm:122-128), so the next forward run parks at once.
* The tail reserved for a controlled stop is the continuous v^2/2a; the real ramp updates
  every 10 ms (src/cnc.c:513-528). From f by d it makes n = ceil((f-900)/d) updates and
  plays (2nf - dn(n-1) + 1800)/200 ticks, so the reserve covers it exactly when that is
  no more than the reserve. At the default 10 kHz and 125 kHz/s it is not; in general
  the excess is below f/200 + d/800 + 10 ticks. The dead stop is what keeps a backward run
  on genuine data.
* A second power byte in a row is consumed without effect; it does not wait for the
  next tick (asm/sdma.asm:356-362).
* A rolled-back write restores the write index but has already overwritten history
  slots (src/cnc_buffer.c:143-149). A backtrack over them executes only bytes of the job
  exactly when what was copied repeats what it replaced at every index it has come to,
  and left on it comes to all of them above its dead stop.
* A write that fails only to publish its tail reports an error although its bytes are
  queued; the next write or forward run that is published covers them, and they play
  (src/cnc_buffer.c:152-157).
* A disable before the generation snapshot does not refuse a run, and the second half of
  an enable does not look for stops at all (src/cnc.c:646-654, 1039-1047).
* A commit does not look at the interrupt line (src/cnc.c:756-806). A run that is to
  decelerate at its waypoint, its callback served at once, does so before its first byte
  exactly when an interrupt of an earlier run was still pending at its commit. A job of
  three bytes, resumed to a waypoint on the second, halted there before the callback and
  backtracked by one step, comes to that.

## Model

| member | source | states |
|---|---|---|
| Words.RingBytes | src/cnc_buffer.c:58-66 | every `ring_mb` gives a power-of-two ring of 1 MiB to 1 GiB that divides the index space: the size asked for, or 32 MiB for an invalid one |
| Words.SlotOfWrap | asm/sdma.asm:122-128 | cutting an index to 32 bits does not change the ring slot it stands for |
| Words.SlotsApart | asm/sdma.asm:122-128 | indices less than a ring apart that share a slot are the same index |
| Backtrack.WalkToDeadStop | src/cnc_backtrack.h:107-111 | from the play head back to the dead stop is the span less what is unplayed, through any index wrap |
| Backtrack.AllowanceReachesDeadStop | src/cnc_backtrack.h:90-111 | a nonzero allowance plus the reserved tail is exactly the walk back to the dead stop; the allowance is zero exactly when the tail alone uses that walk up |
| Backtrack.GapIsTheFloor | src/cnc_backtrack.h:90-99 | once a ring has wrapped under a writer that keeps its gap, the allowance is at least the gap less the tail |
| Backtrack.TailFitsInWord | src/cnc_backtrack.h:72-79 | for every accepted frequency and rate the tail is computed without 32-bit overflow |
| Backtrack.TailOverstatesContinuousRamp | src/cnc_backtrack.h:72-79 | the reserved tail is never below the continuous v^2/2a |
| Ramp.FiresClosedForm | src/cnc.c:513-528 | a deceleration from f by d ends after exactly ceil((f-900)/d)+1 timer fires |
| Ramp.TravelBound | src/cnc.c:513-528 | the sum S of its interval rates satisfies 8dS <= 4f^2 + 4fd + 7200d + d^2 |
| Ramp.TravelClosedForm | src/cnc.c:513-528 | and twice that sum is exactly 2nf - dn(n-1) + 1800 for its n = ceil((f-900)/d) updates |
| Ramp.ReserveCoversIff | src/cnc_backtrack.h:72-79 | the ramp stays within the reserved tail if and only if the setting meets 2nf - dn(n-1) + 1800 <= 200 times the tail |
| Ramp.ReserveShortfall | src/cnc_backtrack.h:72-79 | for every accepted setting the ticks of the discrete ramp exceed the reserved tail by less than f/200 + d/800 + 10 |
| Ramp.SlowRampFitsItsReserve | src/cnc_backtrack.h:72-79 | 1001 Hz at 10 kHz/s meets that condition and the default setting does not |
| Ramp.DefaultRampOverrunsItsReserve | src/cnc_backtrack.h:72-79 | at 10 kHz and 125 kHz/s the reserve is 400 ticks and the ramp plays 459 |
| Pulse.StepWords | asm/sdma.asm:146-272 | the three words of a step byte have equal direction pins, Y1_DIR opposite to Y2_DIR, and step pins high in the second word only |
| Pulse.PulsedMotor | asm/sdma.asm:181-215 | the second word raises a motor's step pin exactly when the byte moves that motor and it is not locked, with the direction the byte says |
| Pulse.LaserWords | asm/sdma.asm:200-215 | the first word still shows the laser pins of the byte before; the second and third carry this byte's bit less the inhibit |
| Pulse.ReversedUndoes | asm/sdma.asm:139-144 | a byte played backward is the opposite move on every axis, with the laser bit off |
| Pulse.EntryDecodes | asm/sdma.asm:146-272 | a stepper that counts rising step edges reads the three words as exactly the byte's move, or as none when it is locked |
| Pins.SetupPins | asm/sdma.asm:146-168 | bit by bit: pin 19 of the direction word is bit 1 of the byte inverted, pins 28 and 18 bit 3 and its opposite, pin 17 bit 6; every other pin is kept |
| Pins.StepPins | asm/sdma.asm:181-214 | pin 22 of the pulse word is bit 0, pins 20 and 29 bit 2, pin 21 bit 5, each unless that very pin is locked |
| Pins.LaserPins | asm/sdma.asm:200-215 | pins 30 and 31 are bit 4 unless inhibited, and every pin that is not a step or laser pin is kept |
| Pins.ClearedPins | asm/sdma.asm:262-272 | the settle word clears pins 20, 21, 22 and 29 and the parked word these and 30 and 31, and nothing else |
| Pins.MotorPins | asm/sdma.asm:57-64 | the pin that steps and locks each motor, by number |
| Pins.LockPins | asm/sdma.asm:57-64 | the lock mask may hold pins 20, 21, 22 and 29 only |
| Pins.InhibitPins | asm/sdma.asm:66-74 | the inhibit mask may hold pins 30 and 31 only |
| Pins.ByteMoves | asm/sdma.asm:224-258 | bit 7 makes a power byte; X moves by bit 0, down on bit 1; Y by bit 2, up on bit 3; Z by bit 5, up on bit 6 |
| Pins.ReversedBits | asm/sdma.asm:139-144 | played backward, bits 1, 3 and 6 are inverted, bit 4 cleared and the rest kept |
| Engine.RoomShrinks | asm/sdma.asm:294-303 | a tick that goes straight on to another byte gets closer to its end: forward at most once, backward by one slot toward the dead stop, so every tick ends |
| Engine.BodyMoves | asm/sdma.asm:224-258 | a byte changes each counter by its own move, negated when played backward |
| Engine.TickKeeps | asm/sdma.asm:103-352 | a property kept by the start sequence, by each byte and by each idle pass is kept by a whole tick |
| Script.SdmaScript.constructor | src/cnc.c:190-205 | the context as loaded: at the start sequence, facing forward, all counters and indices zero |
| Script.SetDirections | asm/sdma.asm:146-168 | the set-then-clear pin sequence yields the direction word, with pins 17, 18, 19 and 28 as the bits of the byte say |
| Script.SetStepsAndLaser | asm/sdma.asm:181-214 | the step and laser pin sequence with both masks yields the pulse word, with pins 20, 21, 22 and 29 as the bits of the byte and the lock say |
| Script.ClearSteps | asm/sdma.asm:264-269 | the four clears yield the settle word |
| Script.ClearOutputs | asm/sdma.asm:320-325 | the six clears yield the parked word, with laser and step pins low |
| Script.Face | asm/sdma.asm:139-144 | the byte as executed, inverted only on a negative increment |
| Script.Count | asm/sdma.asm:226-234 | the counter arithmetic (down two, up one) is a signed unit step modulo 2^32 |
| Script.Add | asm/sdma.asm:276-284 | adding 0xFFFFFFFF moves a register down by one modulo 2^32 |
| Script.SdmaScript.PulsePins | asm/sdma.asm:171-272 | the stores of a step byte are exactly setup, pulse and settle word, in that order |
| Script.SdmaScript.StepByte | asm/sdma.asm:139-272 | the per-byte path refines the engine's step byte, and what it stores is what is logged |
| Script.SdmaScript.PowerByte | asm/sdma.asm:360-382 | the power path refines the engine's power byte, and goes on exactly when the byte before was not a power byte |
| Script.SdmaScript.EndByte | asm/sdma.asm:274-292 | the end-of-byte path refines the engine's: byte count and head move by the increment, and the byte that takes the waypoint to zero ends the laser inhibit and raises the interrupt |
| Script.SdmaScript.ConsumeByte | asm/sdma.asm:130-298 | one byte through the main loop is one engine pass, with the go-on flag the engine says |
| Script.SdmaScript.AllDone | asm/sdma.asm:314-405 | an idle pass refines the engine's: safe word, end-of-data once, repeat counter |
| Script.SdmaScript.ConsumeBytes | asm/sdma.asm:103-303 | the loop from entry to yield ends, and computes the engine's recursive tick |
| Script.SdmaScript.Tick | asm/sdma.asm:87-352 | from one yield to the next the script computes the engine's tick on the ring it reads |
| Playback.SpliceAt | src/cnc_buffer.c:142-149 | copying at an index changes exactly the slots of the copied stretch |
| Playback.MaskedTest | asm/sdma.asm:122-128 | on indices at most a ring apart the masked test holds for equal indices and for a full ring, and for nothing else |
| Playback.EndWriteSound | src/cnc_buffer.c:106-165 | a write with a stale head, refused, short, unpublished or whole, keeps indices, gap and residency |
| Playback.PublishStepSound | src/cnc.c:664-735 | publishing a run in either direction, or refusing a backtrack, keeps them too |
| Playback.HostDuringRun | src/cnc.c:1115-1134 | while a run lasts the host changes only tail, motor lock and pending interrupt in the context |
| Playback.NextSound | src/cnc_buffer.c:106-212 | every host call and every tick keeps the system invariant, the head fetch of the free attribute outside the ring mutex included |
| Playback.RunSound | src/cnc_buffer.c:106-212 | in every reachable state the 32-bit registers stand for unbounded indices, the indices are in order and every byte a later copy has not reached is in its slot |
| Fifo.ExecutesAcceptedBytesInOrder | src/cnc_buffer.c:106-165 | until a backward run is committed, the bytes executed since the last clear are a prefix of the bytes accepted, each once and in order, over every interleaving and any number of index wraps |
| Fifo.GapIsKept | src/cnc_buffer.c:55 | in those states the unplayed stretch stays a gap short of the ring, the last 32 KiB played are intact, and the engine's empty test agrees with the raw indices |
| Fifo.ByteCountIsTheHead | asm/sdma.asm:274-284 | the byte count equals the head index modulo 2^32 across runs in both directions and clears |
| Retrace.ExecutesOnlyGenuineBytes | src/cnc_buffer.c:257-266 | every byte executed since the last clear, over any history of runs in both directions, is the job byte of its index, as long as no backward run is published over a history torn by a short copy; Torn.RunIsGenuineIff says for each run exactly when its bytes are |
| Retrace.WholeCopiesPlayGenuinely | src/cnc_buffer.c:134-154 | from loading, while no copy is short, every byte executed since the last clear in either direction is the job byte of its index, without further condition |
| Retrace.WholeCopiesKeepHistory | src/cnc_buffer.c:134-154 | a history is torn only by a copy that ran past the bytes kept |
| Retrace.BacktrackStarts | src/cnc.c:680-693 | past the test for data a backtrack is accepted exactly for a nonzero number of steps within the allowance, and then runs backward from the head; over an intact history it will only walk genuine data |
| Walk.BackwardRunWalksDown | src/cnc.c:685-711 | until it is stopped a backward run executes out, out-1, ... and nothing past the byte after its dead stop, nothing moves the dead stop meanwhile, and it parks only there |
| Walk.StopTestIsExact | asm/sdma.asm:122-128 | in a backward run the masked stop test succeeds at the dead stop and nowhere before it |
| Walk.FullRingReadsAsEmpty | asm/sdma.asm:122-128 | a forward run idles on its first pass if and only if the ring is empty or full |
| Walk.DeadStopFillsTheRing | src/cnc_buffer.c:257-266 | a backward run that reaches its dead stop on a wrapped ring leaves it full |
| Walk.BackwardRunReachesItsDeadStop | asm/sdma.asm:294-303 | left on, a backward run comes to its dead stop within one tick a byte and one to start, whatever else happens meanwhile |
| Walk.WaypointComesBeforeTheDeadStop | src/cnc.c:696-711 | until it is stopped, whatever is served meanwhile, an accepted backtrack executes its steps in order and cannot park before it has also walked the whole reserved tail, at the dead stop |
| Walk.WaypointIsSignalled | asm/sdma.asm:408-418 | its interrupt line is up from the last of its steps on, until an interrupt is next served |
| Torn.RunIsGenuineIff | asm/sdma.asm:118-137 | a run in either direction, with writes in between, executes only bytes of the job at their indices if and only if the ring held them, when the run started, for every index it has come to |
| Torn.BacktrackIsGenuineIff | src/cnc_buffer.c:257-266 | so a backtrack does if and only if the ring holds the job from where it has come to up to its start |
| Torn.ShortCopyTearsHistory | src/cnc_buffer.c:143-149 | after any rolled-back short copy, on a ring that has wrapped or not, any stretch of the history above the dead stop is intact if and only if the rolled-back bytes that fall there repeat what they replaced |
| Torn.WalkAfterShortCopy | src/cnc_buffer.c:143-149 | a backtrack after the copy executes only bytes of the job if and only if those bytes repeat what they replaced at every index it has come to |
| Torn.WholeWalkAfterShortCopy | src/cnc_buffer.c:143-149 | left on, it comes to every index above the dead stop, so one differing byte between there and the head is executed |
| Pause.RunKeepsOffset | asm/sdma.asm:224-284 | the position law of one run: each counter less the moves of the bytes the run has played is constant, whatever else happens |
| Pause.HistoryKeepsOffset | asm/sdma.asm:224-284 | the position law of a whole history up to a clear, through runs in both directions, stops, pauses, writes and refused requests: that difference moves by the byte under the head at each commit of a backward run and back at each stop of one, and by nothing else |
| Pause.BackwardRunShiftsOffset | asm/sdma.asm:139-144 | against the bytes below the head, a backward run from h0 to h1 shifts each counter by the move of byte h1 less that of byte h0 |
| Pause.ResumeStarts | src/cnc.c:856-867 | after a backward run and a pause of any length, with writes, a resume is accepted once no writer holds the ring, and starts where that run ended |
| Pause.RetraceLandsWithinTwoSteps | src/cnc.c:833-867 | backtracking, stopping and playing on to the same index, however often the job is held, written to, stopped and resumed in between, leaves each counter off by that difference, at most two steps |
| Motion.PortMovesMatchCounters | asm/sdma.asm:146-272 | over any run, clears included, the decoded GPIO log and the counter of a free motor differ by the travel at the counter's last reset, and a locked motor decodes no motion |
| Motion.CountersAreTravel | asm/sdma.asm:146-272 | from loading, through any number of jobs, the counter of a motor that was never locked equals the steps decoded from the port since the counter's last reset |
| Laser.LeadIsExact | src/cnc.c:717-727 | a resume that starts dark writes no laser bit through the last byte of its lead and exactly the data's laser bit from the next byte on; with no waypoint the whole run is dark |
| Laser.LeadIsDarkIffStartDark | asm/sdma.asm:170-172 | over the whole run, whatever byte it begins with: every word of a resume's lead is dark if and only if the run started dark or has executed no step byte in the lead; the direction write precedes the inhibit |
| Laser.HaltAfterLaserByteIsLit | asm/sdma.asm:200-215 | a run halted right after a laser byte leaves the next start lit |
| Laser.BackwardIsDark | asm/sdma.asm:139-144 | an accepted backtrack that starts dark writes no laser bit, and after one step byte every later start is dark, however it started |
| Laser.LaserComesBackAtThePause | src/cnc.c:833-867 | after a backtrack from h0 to h1 that executed a step byte, a hold, and a resume whose lead is the distance walked, no laser bit is written below h0 and exactly the data's from h0 on |
| Power.OnlyFirstOfRowCounts | asm/sdma.asm:356-362 | of a row of power bytes the first sets the duty and the rest are consumed without effect |
| Power.DutyOfRun | asm/sdma.asm:360-382 | throughout a forward run the PWM duty is the one left by the bytes executed so far |
| Power.BackwardKeepsDuty | asm/sdma.asm:364-367 | a backward run leaves the duty alone |
| Parking.MailboxMeansParked | asm/sdma.asm:385-405 | the mailbox is set exactly while the engine is parked |
| Parking.ParksOnlyWhenDrained | asm/sdma.asm:122-128 | the tick that parks a run leaves the head at the published end of its data, or at a full ring after a backward run |
| Parking.ParkingSignals | asm/sdma.asm:385-405 | the tick that parks sets the mailbox, raises the interrupt, disarms the waypoint and resets the repeat counter |
| Parking.ParkedStaysSafe | asm/sdma.asm:107-116 | until the next run or clear a parked engine keeps head, byte count and counters and writes only words with laser and step pins low, whatever tail is published |
| Parking.ParkedSignalHeals | asm/sdma.asm:328-345 | while the timer runs an unserviced end-of-data interrupt is raised again within 255 parked passes of two ticks each, and stays up |
| Parking.ParkedSignalComesOnTime | asm/sdma.asm:328-345 | and no sooner: after a service it is up exactly from the 255th parked pass on |
| TickLaws.ForwardTickTakesAtMostTwo | asm/sdma.asm:294-303 | a forward tick executes at most two bytes |
| TickLaws.ForwardTickTakes | asm/sdma.asm:294-303 | exactly: a step byte, or a further power byte of a row, by itself; the first power byte of a row together with the byte after it, parking if there is none |
| TickLaws.BackwardTickTakes | asm/sdma.asm:294-382 | exactly: the power bytes under and behind the head with the first step byte after them, or down to the dead stop, where it parks |
| Reach.ForwardRunReachesItsEnd | asm/sdma.asm:294-303 | left on, a forward run executes everything published to it, within one tick a byte and one to start, whatever else happens meanwhile |
| Reach.NextWritePublishes | src/cnc_buffer.c:152-157 | the next published write puts the published end after every byte queued, also by writes that failed to publish |
| Reach.NextRunPlaysTheQueue | src/cnc.c:695-711 | so does the next forward run, and it plays them all |
| Reach.UnpublishedPlaysNext | src/cnc_buffer.c:152-157 | a write that fails only to publish leaves the engine as it was and its bytes queued, and the forward run after it plays them |
| Buffer.PulseBuffer.constructor | src/cnc_buffer.c:58-73 | an empty buffer over the script's ring, in a sound state |
| Buffer.PulseBuffer.Registers | src/cnc_buffer.c:93-103 | in any state of the object the fifo indices and the head stand for unbounded indices in order, and the room reported is never negative |
| Buffer.PulseBuffer.CopyIn | src/cnc_buffer.c:140-142 | the two-part copy writes the data at the write index around the end of the ring, and nothing else |
| Buffer.PulseBuffer.CopyFromUser | src/cnc_buffer.c:140-150 | a short copy restores the write index but has changed any part of the stretch it was to write; a whole one advances it |
| Buffer.PulseBuffer.BeginWrite | src/cnc_buffer.c:114-132 | refused during a backward run; otherwise holds the ring with the head just read |
| Buffer.PulseBuffer.FinishWrite | src/cnc_buffer.c:134-164 | the rest of a write is the system's write step; a write that would eat into the gap is refused and changes nothing |
| Buffer.PulseBuffer.TakeData | src/cnc_buffer.c:140-164 | what there is room for is copied, a short copy rolled back, a whole one counted and then published, with the reply of each branch |
| Buffer.PulseBuffer.AddUserData | src/cnc_buffer.c:106-165 | the reply and the effect of every case: a reported write is queued and published; an error with the job grown all the same comes exactly when the head was read, there was room, the copy was whole and only the publishing failed; no room means the data and the gap do not fit behind the head |
| Buffer.PulseBuffer.Clear | src/cnc.c:1097-1136 | resets data, position or both to zero, refused during a run, invalid for neither; what is not reset is kept |
| Buffer.PulseBuffer.ResetData | src/cnc_buffer.c:199-211 | a data clear zeroes byte count, head, tail and both fifo indices together |
| Buffer.PulseBuffer.IsEmpty | src/cnc_buffer.c:215-223 | empty exactly when every accepted byte is executed, or when the head cannot be read |
| Buffer.PulseBuffer.FreeSpace | src/cnc_buffer.c:226-233 | reports exactly the room above the gap behind the head, or behind the head last read when the fetch fails, and zero when there is none |
| Buffer.PulseBuffer.MaxBacktrackLength | src/cnc_buffer.c:236-254 | a nonzero answer plus the reserved tail is the walk from the head back to the oldest genuine byte; zero when the head cannot be read |
| Buffer.PulseBuffer.AskRun | src/cnc.c:656-670 | a request on an empty ring, or whose head fetch fails, is refused, before the ring mutex is taken |
| Buffer.PulseBuffer.PublishRun | src/cnc.c:680-735 | under the mutex: a backtrack beyond the allowance is refused; otherwise registers, laser inhibit and mailbox are those of the system's publish step |
| Buffer.PulseBuffer.CommitRun | src/cnc.c:756-806 | the run goes on exactly when the driver commits it, and the mutex is released either way |
| Buffer.PulseBuffer.SetLock | src/cnc.c:1421-1430 | the motor lock reaches the script's step-pin mask |
| Buffer.PulseBuffer.TimerTick | src/cnc.c:790 | timer events reach the script only while a run lasts |
| Cnc.Cnc.constructor | src/cnc.c:1516-1545 | the probed driver: FAULT exactly when a line that is not ignored reads low, else DISABLED; the object satisfies the lifecycle invariant |
| Cnc.Cnc.Guarantees | src/cnc.c:386-1163 | what a holder of the object can rely on in every state: FIRE at high impedance while decelerating or latched, faults only in FAULT, the timer's rate and the ring's owner |
| Cnc.Cnc.StopDriver | src/cnc.c:386-422 | stops the timer, clears every run flag, parks the FIRE line, locks the latch on a disable, and counts the stop |
| Cnc.Cnc.StartDecel | src/cnc.c:456-474 | starts from the running rate, once, with FIRE at high impedance |
| Cnc.Cnc.StartAccel | src/cnc.c:481-494 | starts from the minimum, or from the rate of a deceleration under way |
| Cnc.Cnc.UpdateRamp | src/cnc.c:500-546 | at 900 Hz a deceleration ends the run; else the rate goes down by the delta to 900 Hz at least, or up by it to the step frequency at most |
| Cnc.Cnc.ServiceSdma | src/cnc.c:563-597 | with the mailbox set a running driver goes to UNDERRUN if streaming and to IDLE if not, stopped; without it the waypoint is taken and the deceleration asked for starts; the interrupt is served either way |
| Cnc.Cnc.CheckRun | src/cnc.c:628-646 | a request goes on exactly from IDLE and DISABLED |
| Cnc.Cnc.ReadGeneration | src/cnc.c:654 | takes the snapshot of the stop generation |
| Cnc.Cnc.PublishRun | src/cnc.c:695-735 | publishes the tail (backward, the dead stop it computes), waypoint and a clear mailbox under the ring mutex |
| Cnc.Cnc.CommitRun | src/cnc.c:756-806 | commits exactly when no fault is latched, the generation has not moved and the driver is idle or disabled; then it runs with FIRE driven exactly if the latch is open; otherwise nothing changes |
| Cnc.Cnc.StartRunning | src/cnc.c:765-799 | the state of a committed run: its flags, FIRE driven low if and only if the latch is open, 900 Hz to accelerate and the step frequency not to |
| Cnc.Cnc.Stop | src/cnc.c:877-907 | from RUNNING a deceleration with FIRE parked, from UNDERRUN back to IDLE, an error in FAULT, and nothing else |
| Cnc.Cnc.HaltRun | src/cnc.c:916-939 | from RUNNING to IDLE with the timer off and FIRE parked; an error in FAULT and UNDERRUN; nothing else changes |
| Cnc.Cnc.DisableDriver | src/cnc.c:949-975 | ends in DISABLED from every state but FAULT; from IDLE, RUNNING and UNDERRUN it stops the timer, parks FIRE, closes the latch and asks for power-down; otherwise nothing changes |
| Cnc.Cnc.StartEnable | src/cnc.c:992-1030 | goes on, asks for power and clears the faults exactly from DISABLED and from FAULT with every line high that is not ignored; otherwise status and faults are kept, with the reply of each state |
| Cnc.Cnc.FinishEnable | src/cnc.c:1039-1047 | from DISABLED and FAULT to IDLE, unless a fault raced in |
| Cnc.Cnc.SetLaserLatch | src/cnc.c:1139-1163 | the latch is what is written; closing it parks FIRE, opening it drives FIRE low outside a run and leaves it in one |
| Cnc.Cnc.HandleFaultEdge | src/cnc.c:1492-1513 | an edge becomes pending exactly if the line is low, one of the three known and not ignored |
| Cnc.Cnc.LatchPending | src/cnc.c:1460-1471 | the loop over the fault bits moves every pending fault into the latched ones |
| Cnc.Cnc.ServicePending | src/cnc.c:1448-1477 | every pending fault is latched and none left pending; any of them ends in FAULT with the timer off, FIRE parked and one stop counted, whatever the driver was doing; with none nothing changes |
| Cnc.Cnc.SetStepFrequency | src/cnc.c:306-326 | stored exactly within 1 to 200 kHz outside a run, with the reply of each refusal |
| Cnc.Cnc.SetRampRate | src/cnc.c:285-303 | a hundredth of it stored exactly within 10 to 500 kHz/s outside a run, with the reply of each refusal |
| Lifecycle.NextSound | src/cnc.c:386-1163 | every locked section, callback, timer and tick keeps the lifecycle invariant |
| Lifecycle.ReachableIsSound | src/cnc.c:386-1163 | in every reachable state: a latched fault means FAULT; run flags mean RUNNING; never both ramps; decelerating means FIRE at high impedance, and outside RUNNING it is high impedance or low; the timer runs exactly in RUNNING at the ramp's or the step frequency |
| Lifecycle.ProbeSound | src/cnc.c:1516-1545 | the probed driver satisfies the invariant |
| Lifecycle.StopSound | src/cnc.c:386-422 | a driver stop from any sound state leaves a sound one |
| Lifecycle.CommitSound | src/cnc.c:764-799 | a commit of a published run leaves a sound state |
| Diagram.StatesFollowDiagram | src/cnc.c:386-1163 | the lifecycle as a table by state: for every state and event the next state, including those that change nothing |
| Diagram.FaultsFollow | src/cnc.c:992-1520 | fault bits are latched by the tasklet and cleared by an enable that finds the lines high, pending from a low known line that is not ignored until the tasklet, and change on nothing else |
| Diagram.FireFollows | src/cnc.c:386-1163 | FIRE is driven from a commit with the latch open or from the opening of the latch outside a run, until a stop, a deceleration, the latch or a power-off, and on nothing else |
| Diagram.LevelFollows | src/cnc.c:779-781 | taken over low, then what the script says |
| Diagram.LatchFollows | src/cnc.c:386-422 | the latch is closed by a disable, a power-off or a write and opened by a write only |
| Diagram.RampsFollow | src/cnc.c:456-546 | exactly what starts and ends a deceleration and an acceleration |
| Diagram.WaypointFollows | src/cnc.c:563-597 | exactly what arms the waypoint and its deceleration and what takes them |
| Diagram.DirectionFollows | src/cnc.c:764-774 | a run goes in the direction of its request until it ends |
| Diagram.RatesFollow | src/cnc.c:285-546 | the step rate after every event, by number, and which settings are taken |
| Diagram.RequestsFollow | src/cnc.c:624-806 | the sections of a run request and of an enable in their order, and what each needs |
| Diagram.RingFollows | src/cnc.c:678-812 | who may take the ring mutex when, and what gives it back |
| Diagram.ProbeStarts | src/cnc.c:1516-1545 | the driver as probed: faults, state, 10 kHz, 125 kHz/s, latch closed |
| Diagram.FaultStops | src/cnc.c:1448-1477 | from every state the tasklet latches what is pending and ends in FAULT with the timer off, the ramps ended and FIRE parked |
| Diagram.FaultHolds | src/cnc.c:1008-1025 | a latched fault holds the driver in FAULT over every run without an enable that finds the lines high |
| Diagram.EdgeHoldsInFault | src/cnc.c:1448-1513 | from the edge of a line that is not ignored, whatever comes before the tasklet, the tasklet stops the driver with that bit latched, until such an enable |
| Diagram.FaultIsLeftByEnable | src/cnc.c:1008-1025 | a run that leaves FAULT holds an enable that found every line high that is not ignored |
| Diagram.EnableClearsIffLinesHigh | src/cnc.c:1008-1025 | in FAULT an enable changes nothing while such a line is low; otherwise it clears the faults, and its second half goes to IDLE |
| Diagram.DisableStops | src/cnc.c:949-975 | a disable ends in DISABLED with the timer off from every state but FAULT, out of IDLE, RUNNING and UNDERRUN with the latch closed and FIRE parked |
| Diagram.CommitDrivesFire | src/cnc.c:779-781 | a run commits with FIRE driven, low, exactly if the latch is open, and leaves the latch |
| Diagram.FireLastsTheRun | src/cnc.c:386-1163 | and so it stays over the run, until a stop, a deceleration, a latch write or a power-off |
| Protocol.CallbackTellsTheSignalsApart | src/cnc.c:563-597 | the callback ends a run exactly when its data ran out, starts the waypoint deceleration only when the waypoint byte was executed or the interrupt was pending at the commit, and does nothing to a driver that is not running |
| Protocol.WaypointIsServed | src/cnc.c:586-595 | an armed waypoint whose byte was executed has its interrupt up, and serving it starts the deceleration asked for |
| Protocol.UnderrunStep | src/cnc.c:575-583 | an underrun is entered only by the callback, from RUNNING, with the data gone and a streaming feeder, and is counted then and only then |
| Protocol.UnderrunsAreCounted | src/cnc.c:575-583 | over any run the underrun count moves by the number of RUNNING to UNDERRUN transitions |
| Protocol.StopStep | src/cnc.c:419-420 | the generation moves with every event that leaves RUNNING or enters DISABLED, FAULT or UNDERRUN, and with no other |
| Protocol.CommitsIffNotStopped | src/cnc.c:756-764 | a published run commits if and only if no fault is latched, the driver is idle or disabled, and the stops since the snapshot are none or a multiple of 2^32 |
| Protocol.DisableBeforeSnapshotIsOverrun | src/cnc.c:646-654 | a disable between the first check and the snapshot does not refuse the run |
| Protocol.EnableCommitIgnoresStops | src/cnc.c:1039-1047 | the second half of an enable goes to IDLE exactly when no fault is latched and the driver is disabled or faulted (or idle already), whatever stops came in between |
| Protocol.EnableUndoesDisable | src/cnc.c:1039-1047 | the second half of an enable undoes a disable that came after its first half |
| Protocol.DeceleratesAtOnceIffInterruptPending | src/cnc.c:756-806 | a run that is to decelerate at its waypoint does so at its first callback, with no byte executed, if and only if an interrupt was pending at its commit |
| Protocol.BackwardRunOwnsItsDeadStop | src/cnc_buffer.c:116-128 | while a backward run lasts, no write, clear or request moves its dead stop or the write index |
| Protocol.RateIsSmooth | src/cnc.c:456-546 | during a run only the ramp timer changes the step rate, by at most the delta, within 900 Hz and the step frequency, also for a deceleration begun during acceleration; a ramp ends the run only from 900 Hz |
| Protocol.ControlledStopPlaysItsRamp | src/cnc.c:500-546 | a controlled stop left to its timer, waypoint callbacks included, takes exactly the fires and plays exactly the rates of the ramp arithmetic, then is idle |
| Protocol.AccelerationReachesFullSpeed | src/cnc.c:529-541 | an acceleration left to its timer, waypoint callbacks that ask for no deceleration included, climbs by the delta at each fire up to the step frequency and stays there |
| Protocol.FullSpeedStopStaysNearItsReserve | src/cnc_backtrack.h:72-79 | over a run, a stop from full speed stays within the tail reserved for it if and only if the setting meets that condition, and exceeds it by less than f/200 + d/800 + 10 ticks |
| Signalling.TickIsASignalTick | asm/sdma.asm:274-405 | every tick of the engine is a signal step of the lifecycle model: bytes executed, waypoint counted down, interrupt and mailbox |
| Joint.HostAgrees | src/cnc.c:386-1163 | a stop, setting, fault, enable or ramp fire of the driver stops the engine's clock exactly when it leaves RUNNING, and keeps ring and driver in agreement |
| Joint.PublishAgrees | src/cnc.c:678-735 | publishing a run, or refusing it, gives both sides the same tail, direction, waypoint and mailbox |
| Joint.CommitAgrees | src/cnc.c:756-806 | a commit starts the engine's clock in the published direction exactly when the driver enters RUNNING |
| Joint.EpitAgrees | asm/sdma.asm:87-352 | a timer tick of the script is the tick the driver counts: the bytes between its two heads, and the end of data when it parks |
| Joint.InterruptAgrees | src/cnc.c:563-597 | a callback, whatever it makes of the interrupt, keeps them in agreement |
| Joint.CloseWriteAgrees | src/cnc_buffer.c:106-165 | the end of a write, whole, short, refused or unpublished, moves tail and write index alike on both sides |
| Joint.RunAgrees | src/cnc.c:386-1163 | the simulation: from loading on, over every interleaving of requests, writes, clears, settings, faults, callbacks, ramp fires and ticks, the driver is RUNNING exactly while the engine is clocked, what it reads of the engine is what the engine holds, and the log since the publishing of the run is exactly the indices from its start on |
| Joint.RunsEndAtTheirEnd | src/cnc.c:563-597 | in every reachable state the callback ends a run if and only if the engine has parked, which it has only at the published end of its data (or a full ring away after a backward run); without a backward run since the clear every byte up to that end has been executed once and in order |
| Joint.DeceleratesIffWaypointExecuted | src/cnc.c:586-595 | in every reachable state, if no interrupt was pending at the commit, a callback starts the waypoint deceleration if and only if one was asked for, the data has not run out and the log of the run holds the waypoint byte |
| Pending.PendingInterruptDeceleratesNext | src/cnc.c:586-595 | from every reachable state of a running job with an unserved interrupt and unplayed data: halted there, the next backtrack the allowance admits decelerates with no byte executed |
| Pending.PendingInterruptIsReachable | src/cnc.c:586-595 | loading, enabling, three bytes written, a resume to a waypoint on the second, a halt and a backtrack of one step come to that |
| Opcodes.WordIsSum | tools/mx51_sdma_set.pm:108-276 | the bitwise or of an instruction's base and shifted operands, as the encoder computes it, is their sum, because every base is clear where its operands go |
| Opcodes.WordDecodes | tools/mx51_sdma_set.pm:15-68 | every word so encoded fits 16 bits and decodes to its instruction, with yield and yieldge as done 0 and done 1 |
| Opcodes.DecodedEncodes | tools/mx51_sdma_set.pm:15-68 | a word that decodes is the encoding of what it decodes to |
| Opcodes.NamesMatch | tools/mx51_sdma_set.pm:15-68 | opcode names and instructions match one to one |
| Opcodes.NamesMatchBack | tools/mx51_sdma_set.pm:15-68 | a known name is the mnemonic of what it names |
| Encodings.Immediates | tools/mx51_sdma_set.pm:48-56 | by name and number: the nine immediate operations count up in the top five bits |
| Encodings.RegisterPairs | tools/mx51_sdma_set.pm:36-46 | the eleven register-pair operations count up from 0x88 in steps of 8 |
| Encodings.SingleBits | tools/mx51_sdma_set.pm:33-35 | the bit operations count up from 0x20 in steps of 32 |
| Encodings.OneRegister | tools/mx51_sdma_set.pm:23-32 | shifts count up from 0x10 without 0x13, register jumps from 8 |
| Encodings.Branches | tools/mx51_sdma_set.pm:62-65 | branches count up in the high byte from 0x7c, displacement in the low byte |
| Encodings.LoadsAndStores | tools/mx51_sdma_set.pm:57-58 | memory transfers: register, displacement and base register in their fields |
| Encodings.UnitTransfers | tools/mx51_sdma_set.pm:59-60 | functional unit transfers |
| Encodings.Loops | tools/mx51_sdma_set.pm:61 | loops: flags and length |
| Encodings.Jumps | tools/mx51_sdma_set.pm:66-67 | absolute jumps |
| Encodings.Controls | tools/mx51_sdma_set.pm:15-21 | done, notify and clrf |
| Encodings.Plain | tools/mx51_sdma_set.pm:16-47 | the instructions without operands |
| Encodings.NoOtherMnemonics | tools/mx51_sdma_set.pm:15-68 | these rows cover every mnemonic |
| Assembler.NumberOfText | tools/mx51_sdma_set.pm:94-106 | decimal literals of either sign and hexadecimal ones read back as the number written |
| Assembler.NumberIffLiteral | tools/mx51_sdma_set.pm:94-106 | a text is a number if and only if it is `0x` and hexadecimal digits of either case, or decimal digits with or without a minus sign |
| Assembler.HexDigits | tools/mx51_sdma_set.pm:99-100 | hexadecimal digits of either case have their place as value |
| Assembler.OperandsIffLegal | tools/mx51_sdma_set.pm:148-276 | a statement gets operand fields if and only if its arguments are legal: the right number, registers r0 to r7, literals in range of their fields, labels or literals within -128..127 of a branch and 1..255 of a loop |
| Assembler.LineIsStatement | tools/sdma_asm.pl:113-132 | every line with a statement is assembled, in its place |
| Assembler.StatementIsLine | tools/sdma_asm.pl:113-132 | and nothing else is |
| Assembler.AssemblesIffLawful | tools/sdma_asm.pl:85-132 | a source assembles if and only if no label is defined twice and every statement is a mnemonic with legal arguments |
| Assembler.OperandsDenote | tools/mx51_sdma_set.pm:148-276 | the fields taken from the arguments name the registers, hold the literals modulo their fields and reach the labels of the statement |
| Assembler.FirstPass | tools/sdma_asm.pl:85-102 | the first pass ends on a label defined twice, and otherwise gives each label the number of statements before it |
| Assembler.SecondPass | tools/sdma_asm.pl:109-132 | the second pass is clean exactly when every statement encodes, and then yields the words |
| Assembler.Assemble | tools/sdma_asm.pl:28-38 | code comes out exactly for the legal sources, and it is their code |
| Assembler.LabelsAreWordAddresses | tools/sdma_asm.pl:93-102 | the label address of the first pass is where the second pass stands at the label's line |
| Assembler.CodeDecodes | tools/sdma_asm.pl:113-132 | compile and decode: every word decodes to an instruction that is its statement: same operation up to yield and yieldge, same registers, literals modulo their fields, displacements that reach its labels |
| Assembler.BranchesLand | tools/mx51_sdma_set.pm:128-143 | the word after a branch plus its sign-extended displacement is the label's address |
| Assembler.LoopsEnd | tools/mx51_sdma_set.pm:162-181 | a loop ends at its label, which lies after its first word |
| Assembler.UnpackedPacked | tools/sdma_asm.pl:56-64 | unpacking the 32-bit words gives the halfwords back, with one zero after an odd one |
| Assembler.Pack | tools/sdma_asm.pl:60-64 | the packing loop yields the packed words |

## Left out

- Retrace.ExecutesOnlyGenuineBytes: assumes no backward run starts on a history torn by a short copy; run by run the exact condition is Torn.RunIsGenuineIff, and Torn.WholeWalkAfterShortCopy for a short copy.
- Pause.HistoryKeepsOffset: a law between clears; a clear of data or position starts it anew.
- Protocol.StopStep: the softirq test of a stop is a free parameter rather than derived from the lock held.
- Parking.ParksOnlyWhenDrained: a script without a ring address also parks; this theorem and those about runs that come to an end are about one that has it.
- Buffer.PulseBuffer.PublishRun: a failure of the register or inhibit transfer while a run is published is not modelled; a failed head fetch is.
- Buffer.PulseBuffer.CopyFromUser: the kernel's kfifo is modelled as its index arithmetic and two-part copy; its source is not part of this model.
- Buffer.PulseBuffer.AddUserData: write sizes near 2^32, where adding the gap would wrap, are below what the kernel lets a write ask for and are not modelled.
- The index mask is written as a remainder modulo the ring size; the 64-bit byte total is unbounded.
- Waypoints are any 32-bit value; the 28-bit request field cannot truncate because the attribute refuses longer requests (src/cnc_api.c:376-383).
- Delay loops in the script, real time, and the timer's quantized divisors: only ticks and 10 ms ramp intervals are modelled.
- Pins the host drives itself at a stop are modelled for the FIRE line only; they are not in the log of GPIO words, which holds the script's writes.
- The 40 V supply, PWM idle duty and preserve_power: rail power is dropped outside the lock and is not an invariant of the state.
- Script verification and reload before a run, and the refusals they cause, are a free refusal step.
- Host requests are one at a time through a run start; two concurrent requesters are not modelled.
- Joint.RunsEndAtTheirEnd: a script without a ring address parks at once and is excluded; a write published between the park and the callback is not part of the ended run.
- The assembler's line splitting (comments, labels, opcode and argument separation, case folding) and its listing output: source lines arrive already cut; the two literal forms and the register form are parsed.
- Probe beyond the initial fault state, remove, attributes, interlock, dead-man and panic chains, charge pump, laser sampling, head, thermal, LED and I/O files: plumbing or small policies.
