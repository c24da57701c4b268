# Verified model of the software-defined radio harness

This project models the parts of the repository that decide what happens to the radio and to
the data it delivers, and proves properties of them over all inputs, runs and interleavings:

- **The daemon's session machine** (`Radio`, `Session`, `SessionRuns`, `SessionAnswers`, `SessionHost`, `SessionDebt`): a
  client owns the radio, retunes it, captures, and is closed; any operation may fail at any point. The
  radio comes back, replies that say so tell the truth, and a request is granted exactly when nothing
  stands in its way.
- **The daemon's threads** (`Server`): acceptor and workers over two mutexes, one shared access per
  action, in every interleaving; `ServerSession` shows its worker to be the same session as above.
- **Data path** (`Base64`, `IqCapture`, `InlineCapture`, `CaptureService`): refill loops, power sums, the handlers that
  answer with them, and the transport encoding of the C daemon against the decoder of the Rust controller.
- **Controller sweep pipeline** (`SweepPlan`, `SweepClient`, `Bands`): policy, range expansion, plan
  validation, the SDRD client run against the modelled daemon, point validation, candidate runs;
  `SweepStreams` joins it to the refill loops.
- **Software sweep** (`Aggregator`, `SoftwareSweep`, `BandMerge`): a ring buffer with hop and average
  counters as plain sliding windows, the refills of one point, and band merging.
- **Streaming SHA-256** (`Sha256`, `Sha256Example`) against FIPS 180-4.
- **Cruise budgets** (`Cruise`, `Console`, `ConsoleApp`).

`Outcome`, `Arithmetic` and `Sorting` are shared. Code that works by changing things step by step is a
class or a method with loops (`SessionHost.Host`, `Radio.IioRadio`, `SweepClient.Link`,
`Aggregator.SpectrumAggregator`, `Sha256.Hasher`, `Cruise.CruiseControl`, `ConsoleApp.App`), each proved
against functions on values; the properties of whole runs are lemmas about those functions.

What foreign calls do (libiio, files, sockets, clocks, the planner) enters as parameters: `Outcomes` and
`foreign` for radio operations, `refills` for buffers, `lost` for replies that do not arrive, `World` for
clock and health. They are arbitrary, with two hypotheses: the radio operations given to a connection do
not change while it lasts, and nobody else writes the radio. An attribute write-back that reports success
puts the attribute where the snapshot had it; a refused write leaves it anywhere. Hardware gain counts as
restored only when the saved mode is manual.

## Findings

Properties that do not hold as one might read them, each with a run or an input that shows it and the exact
condition under which they do:

- A debt is forgotten with the connection. From any radio, a connection whose last restore is lost and a clean
  one after it leave the radio where the lost restore had left it, and the second says it is restored
  (`SessionDebt.DebtIsForgotten`). The server ends exactly where the last unpaid connection left the radio
  (`SessionDebt.LifeEndsAtLastDebt`, `LifeComesHomeIff`), and a connection ends unpaid exactly when a START was
  granted in it, every restore since was lost, and the one of its closing is lost too
  (`SessionDebt.DebtIffLastRestoreLost`).
- A `..._restore_fault` reply does not mean the session is faulted: a failed stop alone causes it, and it is
  faulted exactly when the restore failed (`SessionRuns.FaultCodes`).
- An accepted cancel can stop a capture of another generation. A list of sessions in one connection is safe
  exactly when no session begins while another number is still published and none is published under another
  number; every other list has a run in which a capture is stopped by a cancel for another generation
  (`Server.DisciplineIsExact`, with two runs in `SecondSessionIsStopped` and `MisreadGenerationIsStopped`).
- The policy accepts surveys the executor refuses: exactly those with a dwell above 1000 ms
  (`SweepPlan.SurveyRunsIffShortDwell`).
- `start_execution` does not look at `active_sweep`, so captures during an inspection can overrun the cruise
  byte budget by more than `auto_approve_iq_bytes` (`Console.OverlapOverruns`). A run stays below that bound
  exactly when every counted sweep that succeeds in it still has room for its bytes
  (`Console.BoundedIffNeverOverruns`; `CaptureDuringSweep` says it for one capture, before it starts), and one
  action at a time always does.
- The profile reply echoes the requested center, not the readback: the client accepts every readback up to
  10 Hz away although it tolerates 2 Hz (`SweepClient.EchoHidesOffset`).
- The expansion loop tests the length after the push, so it lets 769 points through; `validate_plan` then
  refuses them (`SweepPlan.ExpandRange`).

## Model

| member | source | states |
|---|---|---|
| Radio.RestoreSucceeds | sdr-system/sdrd/src/sdrd_iio.c:844-884 | a restore returns zero exactly when no write-back the snapshot needs is lost and its scan mask is one, and then the radio is as in the snapshot |
| Radio.ApplySucceeds | sdr-system/sdrd/src/sdrd_iio.c:396-459 | an apply succeeds exactly when no write is refused and every readback is within tolerance, and then every attribute is what its write left, an automatic gain untouched |
| Radio.IioRadio.ApplyProfile | sdr-system/sdrd/src/sdrd_iio.c:396-459 | the attribute writes one by one, each of which may fail and leave its attribute anywhere, equal the value-level apply |
| Radio.IioRadio.WriteBackAll | sdr-system/sdrd/src/sdrd_iio.c:844-884 | the write-back one attribute at a time equals the value-level restore |
| SessionRuns.CloseKeeps | sdr-system/sdrd/src/sdrd.c:588-614 | closing ends with nothing owed and the radio back, or faulted with the snapshot intact; a zero result means the radio is back; faulted is never cleared; only the snapshot of the start is ever written back |
| SessionRuns.StartKeeps | sdr-system/sdrd/src/sdrd.c:616-655 | START_SESSION never overwrites an owed snapshot |
| SessionRuns.ApplyKeeps | sdr-system/sdrd/src/sdrd.c:657-743 | APPLY_PROFILE keeps the invariant whether the radio obeys, refuses half-way or cannot be restored |
| SessionRuns.CaptureKeeps | sdr-system/sdrd/src/sdrd.c:745-825 | a capture runs only in the owning generation on a profile within bounds that the radio matches; failures close the session (and nothing else does: SessionAnswers.CaptureAnswered) |
| SessionRuns.InlineKeeps | sdr-system/sdrd/src/sdrd.c:897-1029 | the same for inline captures, with its own order of failures |
| SessionRuns.PowerKeeps | sdr-system/sdrd/src/sdrd.c:1031-1111 | the same for power summaries |
| SessionRuns.StepKeeps | sdr-system/sdrd/src/sdrd.c:1171-1297 | every request, with arbitrary failures, keeps the invariant; claims of restoration are true; rejected, stale and duplicate requests touch neither radio nor profile |
| SessionRuns.RunKeeps | sdr-system/sdrd/src/main.c:112-155 | at every point of every run: nothing owed and the radio where the connection found it, or an intact snapshot of it owed; every step obeys the laws |
| SessionRuns.ConnectionComesHome | sdr-system/sdrd/src/main.c:96-165 | after a connection the radio is back, unless the last restore itself was lost, and a clean result means it is back |
| SessionRuns.FaultCodes | sdr-system/sdrd/src/sdrd.c:601-613 | a failed close is a failed stop or a failed restore; faulted exactly when the restore failed; stop failing alone still leaves the radio back |
| SessionAnswers.StartAnswered | sdr-system/sdrd/src/sdrd.c:616-655 | START_SESSION is granted exactly to a free, unfaulted session whose snapshot and begin succeed, without touching the radio, and never closes |
| SessionAnswers.ApplyAnswered | sdr-system/sdrd/src/sdrd.c:657-743 | a profile within every bound is granted exactly when the radio lands on it, and the session is closed exactly otherwise |
| SessionAnswers.CaptureAnswered | sdr-system/sdrd/src/sdrd.c:745-825 | a CAPTURE_IQ in order is answered with its own generation, the next sequence number and the adapter's very result unless the adapter failed, overshot, ran out of time or gave a bad path; it closes the session exactly then, and an answered one leaves session and radio as they were |
| SessionAnswers.InlineAnswered | sdr-system/sdrd/src/sdrd.c:897-1029 | an inline capture in order is answered exactly when its result is exact, fresh, in time and deliverable, and closes the session exactly otherwise |
| SessionAnswers.PowerAnswered | sdr-system/sdrd/src/sdrd.c:1031-1111 | a power summary in order is answered with each figure under its own name exactly when the adapter did not fail, and closes the session exactly otherwise |
| SessionAnswers.StopAnswered | sdr-system/sdrd/src/sdrd.c:1141-1169 | the owner's STOP is granted exactly when the radio stops and no write-back it needs is lost, and then the radio is as saved |
| SessionAnswers.QuitAnswered | sdr-system/sdrd/src/sdrd.c:1244-1256 | QUIT is granted exactly when there is nothing to give back or giving it back succeeds |
| SessionDebt.StepOwes | sdr-system/sdrd/src/sdrd.c:588-655 | the only things that change what a session owes are a granted START and a restore that is not lost |
| SessionDebt.OwesIsRequired | sdr-system/sdrd/src/sdrd.c:588-655 | restore_required holds exactly when a START was granted and every restore since was lost |
| SessionDebt.DebtIffLastRestoreLost | sdr-system/sdrd/src/main.c:156-165 | a connection ends owing exactly when it still owes after its requests and the restore of its closing is lost |
| SessionDebt.LifeEndsAtLastDebt | sdr-system/sdrd/src/main.c:280-397 | over any list of connections the radio ends where the last unpaid connection left it, or where the server found it |
| SessionDebt.LifeComesHomeIff | sdr-system/sdrd/src/main.c:280-397 | so it is back if and only if that is where it was found |
| SessionDebt.LifeComesHome | sdr-system/sdrd/src/main.c:280-397 | in particular it is back when no connection ends unpaid |
| SessionDebt.DebtIsForgotten | sdr-system/sdrd/src/sdrd.c:582-586 | from any radio, a connection that loses its last restore and a clean one after it: the second reports success and the radio stays away |
| SessionHost.Host.constructor | sdr-system/sdrd/src/sdrd.c:582-586 | a new session owns nothing |
| SessionHost.Host.CloseSession | sdr-system/sdrd/src/sdrd.c:588-614 | the field updates of sdrd_session_close equal the close of the machine |
| SessionHost.Host.Start | sdr-system/sdrd/src/sdrd.c:616-655 | handle_start_session equals the start of the machine, with a failed snapshot's junk left in saved_state |
| SessionHost.Host.Profile | sdr-system/sdrd/src/sdrd.c:657-743 | handle_apply_profile equals the apply of the machine |
| SessionHost.Host.Refuse | sdr-system/sdrd/src/sdrd.c:764-780 | the checks the two IQ captures share, in order |
| SessionHost.Host.Capture | sdr-system/sdrd/src/sdrd.c:745-825 | handle_capture_iq equals the capture of the machine, whose answers SessionAnswers.CaptureAnswered fixes |
| SessionHost.Host.Inline | sdr-system/sdrd/src/sdrd.c:897-1029 | handle_capture_iq_inline equals the inline capture of the machine |
| SessionHost.Host.Power | sdr-system/sdrd/src/sdrd.c:1031-1111 | handle_capture_power equals the power summary of the machine |
| SessionHost.Host.Stop | sdr-system/sdrd/src/sdrd.c:1141-1169 | handle_stop_session equals the stop of the machine |
| SessionHost.Host.HandleRequest | sdr-system/sdrd/src/sdrd.c:1171-1297 | sdrd_handle_request equals one step of the machine: state, reply and radio operations in order |
| SessionHost.ServeLoop | sdr-system/sdrd/src/main.c:112-155 | the request loop produces the trace of the machine and its replies |
| SessionHost.ServeClient | sdr-system/sdrd/src/main.c:96-165 | serve_client returns the radio to where it found it whenever it reports no error from the final close |
| Server.StepKeeps | sdr-system/sdrd/src/main.c:126-264 | every action of acceptor or worker keeps the invariant over both mutexes, the buffer and the flags |
| Server.RunKeeps | sdr-system/sdrd/src/main.c:280-397 | every interleaving keeps it |
| Server.ServerIsSafe | sdr-system/sdrd/src/sdrd_iio.c:585-842 | in every interleaving: at most one worker; without worker_active no worker, no published generation, no buffer; buffer_cancel and buffer_refill only on a live buffer; START never finds the adapter busy; after a cancel's buffer test a capture in its loop has its buffer cancelled |
| Server.CancelSticks | sdr-system/sdrd/src/sdrd_iio.c:592-600 | after cancel_requested is set, no capture enters its refill loop until the next begin_session |
| Server.NobodyIsStopped | sdr-system/sdrd/src/sdrd_iio.c:592-608 | in every run without a cancel request, a capture at the gate enters its refill loop and its buffer is not cancelled there |
| Server.CaptureCompletes | sdr-system/sdrd/src/sdrd_iio.c:585-651 | after any sessions there is a run in which a new one captures through gate, refills and finish, and is as before |
| Server.FailureClosesSession | sdr-system/sdrd/src/sdrd_iio.c:592-670 | in every run, after a failed retune, buffer, gate or refill the worker does not come back to its client before the session is closed, whatever the other thread does |
| Server.LeavesForGood | sdr-system/sdrd/src/main.c:156-165 | in every run, a worker whose connection has ended handles no further request: it is on its way out, or gone for good |
| Server.CancelStopsItsOwnGeneration | sdr-system/sdrd/src/main.c:205-247 | in every run, while the sessions a connection has begun are harmless, a cancel accepted for g stops only captures of generation g |
| Server.DisciplineIsExact | sdr-system/sdrd/src/main.c:126-148 | a discipline of the clients keeps every accepted cancel to its own generation if and only if it allows harmless lists of sessions alone |
| Server.Misdirect | sdr-system/sdrd/src/main.c:126-148 | for any harmful start after any sessions there is a run in which a cancel for another generation stops its capture |
| Server.SecondSessionIsStopped | sdr-system/sdrd/src/main.c:132-148 | with two sessions of different generations in one connection, a cancel for the first stops a capture of the second |
| Server.MisreadGenerationIsStopped | sdr-system/sdrd/src/sdrd.c:45-58 | with a generation the two parsers read as different numbers, a cancel for the published one stops the other |
| ServerSession.StepSettles | sdr-system/sdrd/src/main.c:112-165 | every step of a worker inside a request, whatever the other thread has done, leaves the session the request ends with unchanged |
| ServerSession.PathSettles | sdr-system/sdrd/src/main.c:112-165 | so the worker's whole path for a request ends in that session |
| ServerSession.StartSimulated | sdr-system/sdrd/src/sdrd.c:616-655 | which for START_SESSION is the one handle_start_session leaves |
| ServerSession.ApplySimulated | sdr-system/sdrd/src/sdrd.c:657-743 | the same for APPLY_PROFILE, with its close on failure |
| ServerSession.CaptureSimulated | sdr-system/sdrd/src/sdrd.c:745-825 | the same for CAPTURE_IQ |
| ServerSession.InlineSimulated | sdr-system/sdrd/src/sdrd.c:897-1029 | the same for CAPTURE_IQ_INLINE |
| ServerSession.PowerSimulated | sdr-system/sdrd/src/sdrd.c:1031-1111 | the same for CAPTURE_POWER |
| ServerSession.StopSimulated | sdr-system/sdrd/src/sdrd.c:1141-1169 | the same for STOP_SESSION |
| ServerSession.LeaveSimulated | sdr-system/sdrd/src/main.c:156-158 | the same for the close when the connection ends |
| Base64.RoundTrip | sdr-system/sdrd/src/sdrd.c:842-894 | the controller's decoder applied to the daemon's encoding of any non-empty bytes returns those bytes |
| Base64.EncodedLength | sdr-system/sdrd/src/sdrd.c:846-850 | the encoding of n bytes has 4*ceil(n/3) characters |
| Base64.AppendBase64 | sdr-system/sdrd/src/sdrd.c:827-895 | exactly the encoding is written at the offset, nothing else changes, the end is never passed, and the two refusals are exactly the size limits |
| Base64.EncodeInto | sdr-system/sdrd/src/sdrd.c:880-891 | the loop over groups of three writes the encoding in place |
| Base64.DecodeLoop | raspberry-pi/sdr-agent/controller/src/sweep.rs:717-755 | the decoder's loop equals the block-by-block decoding, rejections included |
| Base64.DecodeOne | raspberry-pi/sdr-agent/controller/src/sweep.rs:722-752 | one block of four characters, with padding only at the end |
| Base64.InlineReplyFits | sdr-system/sdrd/src/sdrd.c:998-1013 | any legal inline capture behind a header of at most 4096 characters fits both 384 KiB limits |
| Base64.PadBitsAreZero | sdr-system/sdrd/src/sdrd.c:880-891 | a short last group ends in '=' and the bits of its last symbol that carry no byte are zero |
| Base64.Examples | sdr-system/sdrd/src/sdrd.c:834-841 | the encodings of "f", "fo" and "foo" of section 10 of RFC 4648, and the two symbols after the digits |
| IqCapture.CaptureIq | sdr-system/sdrd/src/sdrd_iio.c:592-651 | ends for every refill stream; succeeds exactly when the stream brings the samples before its first fault, and then the file is the first samples of the stream and dropped is the number of samples its refills fell short by; on failure the cause is the first faulty refill |
| IqCapture.CapturePower | sdr-system/sdrd/src/sdrd_iio.c:722-807 | succeeds exactly when the stream brings the samples; the limbs recombine to the exact power of the first samples, dropped is the shortfall of its refills; no addition overflows |
| IqCapture.AddSamples | sdr-system/sdrd/src/sdrd_iio.c:752-766 | the inner loop adds exactly the energy and clips of one refill |
| IqCapture.AddSample | sdr-system/sdrd/src/sdrd_iio.c:753-765 | its body, with 64-bit wrap-around written out, adds exactly the energy of the two signed numbers the bytes hold |
| IqCapture.I16ReadsBack | raspberry-pi/sdr-agent/controller/src/sweep.rs:700-712 | two bytes are read as n exactly when they hold the low and the high byte of n modulo 2^16, for every n of 16 bits |
| IqCapture.SampleReads | sdr-system/sdrd/src/sdrd_iio.c:753-765 | the energy and the clip test of a sample are those of the two numbers its bytes hold |
| IqCapture.Limbs | sdr-system/sdrd/src/sdrd_iio.c:797-799 | the 32-bit limbs carry the 64-bit sum |
| IqCapture.AggregateCi16 | raspberry-pi/sdr-agent/controller/src/sweep.rs:689-715 | exact power and clip count, or an error exactly on a byte count that does not match, or an overflow that needs more than 2^32 samples |
| IqCapture.PowerSumBound | sdr-system/sdrd/src/sdrd.c:1054-1057 | a power sum is at most 2^31 a sample, so 2^51 for the largest request |
| IqCapture.BackendsAgree | raspberry-pi/sdr-agent/controller/src/sweep.rs:442-444 | on one refill stream, the daemon's power summary and the controller's over the transported bytes are the same numbers |
| InlineCapture.AdapterCapture | sdr-system/sdrd/src/sdrd.c:954-960 | the adapter succeeds exactly when the stream brings the samples before its first fault; an inline capture the daemon accepts consists of full refills only and is exactly the first samples of the stream |
| InlineCapture.ClientSeesFullRefills | raspberry-pi/sdr-agent/controller/src/sweep.rs:438-444 | the client decodes exactly those samples, in order |
| CaptureService.ServeCapture | sdr-system/sdrd/src/sdrd.c:745-825 | over the refill loop: a CAPTURE_IQ in order is answered exactly when the stream brings the samples before its first fault, with the first samples of that stream and the samples its refills fell short by, and otherwise stops the radio |
| CaptureService.ServeInline | sdr-system/sdrd/src/sdrd.c:897-1029 | an inline capture over full refills is answered when the stream brings the samples, the scan channels held and the file transfers; an answer decodes to the samples of the stream |
| CaptureService.ServePower | sdr-system/sdrd/src/sdrd.c:1031-1111 | a power summary is answered exactly when the stream brings the samples, and its figures are the count, the exact power and the clips of the first samples |
| SweepPlan.ExpandRange | raspberry-pi/sdr-agent/controller/src/sweep.rs:878-913 | succeeds exactly on ranges of at most 769 points whose sums stay in 64 bits, with the centers of the closed form |
| SweepPlan.RangeIsAscending | raspberry-pi/sdr-agent/controller/src/sweep.rs:891-909 | the centers run strictly from start to stop in steps of exactly `step` but the last, which is shorter or equal |
| SweepPlan.StepsBound | raspberry-pi/sdr-agent/controller/src/policy.rs:284-289 | the policy's rounded-up quotient is the least number of steps that covers the span |
| SweepPlan.PlanCovers | raspberry-pi/sdr-agent/controller/src/sweep.rs:797-834 | every frequency between the first and last center of a validated plan is within 2/5 of the RF bandwidth of some center |
| SweepPlan.SurveyExpands | raspberry-pi/sdr-agent/controller/src/policy.rs:256-310 | the centers of an accepted survey pass every check of validate_plan about them, and are as many as the policy counted |
| SweepPlan.SurveyRuns | raspberry-pi/sdr-agent/controller/src/runner.rs:290-316 | for any gain and timeout, the exact condition under which an accepted survey passes validate_plan |
| SweepPlan.SurveyRunsIffShortDwell | raspberry-pi/sdr-agent/controller/src/policy.rs:284-310 | with the shipped timeout it passes exactly when the dwell is at most 1000 ms, and then points, duration and bytes equal the policy's |
| SweepPlan.InspectionRuns | raspberry-pi/sdr-agent/controller/src/runner.rs:317-340 | an accepted inspection passes for every dwell the policy lets through, as one point |
| SweepPlan.LongDwellIsRefusedLate | raspberry-pi/sdr-agent/controller/src/sweep.rs:835-848 | a survey the policy accepts and validate_plan refuses |
| SweepPlan.TranslatedIdIsSafe | raspberry-pi/sdr-agent/controller/src/sweep.rs:772-783 | the sweep ids built from request numbers are always safe identifiers |
| SweepPlan.SurveyAcceptedIff | raspberry-pi/sdr-agent/controller/src/policy.rs:256-310 | a survey is accepted if and only if the radio is there and may be tuned, it lies within the frequency, span, step, profile and dwell limits, and some least covering number of steps keeps points, duration and bytes within theirs, all on unbounded numbers; it never needs approval |
| SweepPlan.InspectionAcceptedIff | raspberry-pi/sdr-agent/controller/src/policy.rs:311-340 | the same for inspections: near the candidate or within the band looked at, at most a second, and never in need of approval |
| SweepPlan.CaptureAcceptedIff | raspberry-pi/sdr-agent/controller/src/policy.rs:341-383 | the same for captures, which need approval exactly from one byte over auto_approve_iq_bytes |
| SweepPlan.PlanAcceptedIff | raspberry-pi/sdr-agent/controller/src/sweep.rs:770-876 | validate_plan accepts exactly the plans whose id, centers, spacing, profile, gain, summary and duration are within their bounds, stated over all pairs of centers and on unbounded numbers, and returns their centers |
| SweepPlan.SurveyStaysInLimits | raspberry-pi/sdr-agent/controller/src/policy.rs:256-310 | every center the executor makes of an accepted survey is within the frequency limits, and any two within the span limit |
| SweepPlan.FoundIsFirst | raspberry-pi/sdr-agent/controller/src/policy.rs:418-429 | the candidate an action names is found exactly when one has that id, and is the first of them |
| SweepClient.ProfileLineIsTaken | sdr-system/sdrd/src/sdrd.c:657-743 | every APPLY_PROFILE line of a validated plan passes the daemon's checks; the answer is an echo the client accepts or a failed apply |
| SweepClient.CaptureLineIsTaken | sdr-system/sdrd/src/sdrd.c:914-1013 | every CAPTURE_IQ_INLINE line that fits the frame passes them; a reply carries exactly the bytes asked for and the next sequence number |
| SweepClient.FeatureIdIsValid | sdr-system/sdrd/src/sdrd.c:429-442 | every feature id the client builds is one the daemon accepts |
| SweepClient.Link.Request | raspberry-pi/sdr-agent/controller/src/sdr.rs:102-167 | requests are numbered so that none is stale, and only replies with status ok come back |
| SweepClient.ValidatePoints | raspberry-pi/sdr-agent/controller/src/sweep.rs:915-951 | accepts exactly one good point a center, in order, each captured after all before it |
| SweepClient.Summarize | raspberry-pi/sdr-agent/controller/src/sweep.rs:438-470 | decoding and summing a reply gives the power of the bytes the daemon captured, and refuses exactly clipped ones |
| SweepClient.Tune | raspberry-pi/sdr-agent/controller/src/sweep.rs:366-400 | the retune of one center: no refusal by the daemon's checks, no inconsistent reply |
| SweepClient.CapturePoint | raspberry-pi/sdr-agent/controller/src/sweep.rs:401-484 | the capture of one center gives a point validate_points accepts; it succeeds exactly when its outcome is sound, and fails as a wrong shape exactly on another time limit |
| SweepClient.OnePoint | raspberry-pi/sdr-agent/controller/src/sweep.rs:362-485 | retune and capture of one center succeed exactly when both replies arrive, the radio lands within tolerance, and the capture is full, in time, unclipped and deliverable |
| SweepClient.Sweep | raspberry-pi/sdr-agent/controller/src/sweep.rs:362-485 | the loop over the centers collects one such point a center with increasing sequence numbers |
| SweepClient.RunSdrdPoints | raspberry-pi/sdr-agent/controller/src/sweep.rs:314-515 | points come back exactly when every reply arrives, the probe sees the radio, snapshot and begin succeed, the points fit the frame, every retune and capture is sound and the radio is given back; capture_shape occurs exactly when the first point that is not sound has another time limit, radio_capability exactly when the probe does not see the radio; no line is refused by the daemon's checks; returned points pass validate_points, hold the power of the bytes their captures brought and leave the radio as found |
| SweepClient.Greet | raspberry-pi/sdr-agent/controller/src/sweep.rs:321-347 | with both replies arriving and the probe answering, the greeting fails exactly when iio_visible is false |
| SweepClient.EchoHidesOffset | sdr-system/sdrd/src/sdrd.c:699-743 | a retune is reported exactly for readbacks up to 10 Hz away, and the client accepts every one of them |
| SweepStreams.SweepStreamed | raspberry-pi/sdr-agent/controller/src/sweep.rs:362-485 | over a daemon whose captures are its adapter's refill loops, the sweep returns points exactly when everything Completes, and each holds the power of the first samples of a fault-free stream of full refills |
| Bands.CandidateRanges | raspberry-pi/p201pro-rust/src/aggregation.rs:275-300 | the ranges are the partition of the active bins: ascending, active ends, sharing a range exactly when no inactive run between exceeds the gap |
| Bands.GroupLoop | raspberry-pi/p201pro-rust/src/aggregation.rs:289-300 | the loop cuts the active bins exactly where a gap is too long |
| Bands.ActiveBins | raspberry-pi/p201pro-rust/src/aggregation.rs:281-288 | the active bins, in order, all of them |
| Bands.PartitionIsUnique | raspberry-pi/p201pro-rust/src/aggregation.rs:281-300 | there is only one such partition |
| Bands.ControllerRanges | raspberry-pi/sdr-agent/controller/src/sweep.rs:962-995 | the controller's ranges are the partition for gap zero, cut to the first 32 |
| Bands.PeakOf | raspberry-pi/sdr-agent/controller/src/sweep.rs:995-1003 | the loudest point of a range, the last among equals |
| Bands.MedianBound | raspberry-pi/sdr-agent/controller/src/sweep.rs:953-960 | at most ceil(n/2)-1 points lie above the median |
| Bands.MedianFromBelow | raspberry-pi/sdr-agent/controller/src/sweep.rs:953-960 | the median is one of the points, and at most floor(n/2) points lie below it |
| Bands.ActiveMinority | raspberry-pi/sdr-agent/controller/src/sweep.rs:967-975 | with a positive threshold over the median, at most ceil(n/2)-1 points are active |
| Bands.OnePointYieldsNone | raspberry-pi/sdr-agent/controller/src/sweep.rs:976-978 | a one-point inspection yields no candidate |
| Aggregator.HopIsLargest | raspberry-pi/p201pro-rust/src/aggregation.rs:50-52 | the hop is the largest step that leaves consecutive frames the configured overlap |
| Aggregator.MeanOfFrames | raspberry-pi/p201pro-rust/src/aggregation.rs:191-205 | the averaged power of a bin times the number of frames is the sum over those frames |
| Aggregator.SpectrumAggregator.constructor | raspberry-pi/p201pro-rust/src/aggregation.rs:101-128 | a new aggregator is in the state of an empty history |
| Aggregator.New | raspberry-pi/p201pro-rust/src/aggregation.rs:25-48 | an aggregator exactly for valid configurations |
| Aggregator.ConfigAllowedIff | raspberry-pi/p201pro-rust/src/aggregation.rs:25-48 | a configuration is valid exactly when its frame is 2^k for some k, at least 64, and every other figure is within its bounds |
| Aggregator.SpectrumAggregator.ResetForCenter | raspberry-pi/p201pro-rust/src/aggregation.rs:132-143 | resetting gives the state of a new aggregator |
| Aggregator.SpectrumAggregator.LoadFrame | raspberry-pi/p201pro-rust/src/aggregation.rs:179-182 | the ring is read out in time order |
| Aggregator.SpectrumAggregator.AddSpectrum | raspberry-pi/p201pro-rust/src/aggregation.rs:186-190 | each bin's power is added once, at its centered place |
| Aggregator.SpectrumAggregator.ProcessFrame | raspberry-pi/p201pro-rust/src/aggregation.rs:178-206 | a complete frame is samples [k*hop, k*hop+n); every F-th returns the batch snapshot |
| Aggregator.SpectrumAggregator.PushOne | raspberry-pi/p201pro-rust/src/aggregation.rs:152-174 | one sample extends the batch reading by the snapshots it returns |
| Aggregator.SpectrumAggregator.PushIq | raspberry-pi/p201pro-rust/src/aggregation.rs:145-176 | what was returned before followed by this call's snapshots is the batch reading of all samples fed |
| Aggregator.TrackedOnce | raspberry-pi/p201pro-rust/src/aggregation.rs:145-176 | the state is a function of the samples fed, not of how they were split |
| Aggregator.TrackedCount | raspberry-pi/p201pro-rust/src/aggregation.rs:191-205 | the number of snapshots is floor((1+(n-N)/hop)/F), and 0 below N samples |
| Aggregator.PushTwice | raspberry-pi/p201pro-rust/src/aggregation.rs:145-176 | feeding a then b gives the snapshots and state of feeding a+b |
| Aggregator.BatchSnapshotPrefix | raspberry-pi/p201pro-rust/src/aggregation.rs:145-176 | a complete snapshot does not change when more samples come |
| SoftwareSweep.FirstSnapshot | raspberry-pi/p201pro-rust/src/software_sweep.rs:128-131 | the first snapshot is complete exactly from required_samples on |
| SoftwareSweep.RefillsComplete | raspberry-pi/p201pro-rust/src/software_sweep.rs:79-160 | refills_per_point full buffers complete a snapshot, and fewer do not |
| SoftwareSweep.PlanAcceptedIff | raspberry-pi/p201pro-rust/src/software_sweep.rs:78-160 | a plan is accepted exactly when its fields are allowed and the bytes and milliseconds of the least number of full buffers, settling included, are within 64 MiB and 60 s; the estimate states them |
| SoftwareSweep.ThreePoints | raspberry-pi/p201pro-rust/src/software_sweep.rs:420-445 | a plan of three points is accepted with one refill a point and 98304 bytes |
| SoftwareSweep.RunPoint | raspberry-pi/p201pro-rust/src/software_sweep.rs:261-291 | with full buffers a point always completes, with the last snapshot of everything received since the retune; it fails exactly on a failed or short refill |
| BandMerge.MergeCandidates | raspberry-pi/p201pro-rust/src/software_sweep.rs:379-406 | the loop that extends the last band in place equals the fold over the sorted bands |
| BandMerge.MergeIsPartition | raspberry-pi/p201pro-rust/src/software_sweep.rs:379-406 | outputs are sorted and further apart than the gap; every input lies in exactly one; each output's ends, peak and figures come from the inputs inside it, its peak is their highest, and all but the leftmost follow another within the gap |
| BandMerge.JoinsExactly | raspberry-pi/p201pro-rust/src/software_sweep.rs:390 | saturation at the largest number never changes which bands join |
| BandMerge.GapIsBins | raspberry-pi/p201pro-rust/src/software_sweep.rs:379-389 | the gap is so many bins of the sample rate over the FFT size, a bin at least 1 Hz, saturating at the largest number |
| Sha256.PaddingIsLeast | raspberry-pi/sdr-agent/recognizer-worker/src/model_loader.cpp:57-65 | the padding is the least that leaves eight bytes for the length, as section 5.1.1 of FIPS 180-4 asks |
| Sha256.RoundConstants | raspberry-pi/sdr-agent/recognizer-worker/src/model_loader.cpp:25-38 | each round constant is the fraction of the cube root of its prime, to 32 bits |
| Sha256.InitialValues | raspberry-pi/sdr-agent/recognizer-worker/src/model_loader.cpp:136-138 | each initial value is the fraction of the square root of its prime, to 32 bits |
| Sha256.Rotations | raspberry-pi/sdr-agent/recognizer-worker/src/model_loader.cpp:78-80 | the code's shift pairs are the sigma functions of the standard |
| Sha256.WordIsPositional | raspberry-pi/sdr-agent/recognizer-worker/src/model_loader.cpp:85-90 | four bytes are read as b0*2^24 + b1*2^16 + b2*2^8 + b3 |
| Sha256.ChChooses | raspberry-pi/sdr-agent/recognizer-worker/src/model_loader.cpp:110-113 | under every mask: the bits of y where x has ones and of z where it has zeros |
| Sha256.MajIsMajority | raspberry-pi/sdr-agent/recognizer-worker/src/model_loader.cpp:114-117 | under every mask on which at least two of the three agree, their bits |
| Sha256.AddsModulo | raspberry-pi/sdr-agent/recognizer-worker/src/model_loader.cpp:91-125 | additions drop the carry out of 32 bits and nothing else |
| Sha256.LengthReadsBack | raspberry-pi/sdr-agent/recognizer-worker/src/model_loader.cpp:63-66 | the eight length bytes, most significant first, write the number of bits |
| Sha256.DigitInOrder | raspberry-pi/sdr-agent/recognizer-worker/src/model_loader.cpp:70-74 | the digits are 0 to 9 and a to f in order |
| Sha256.Schedule | raspberry-pi/sdr-agent/recognizer-worker/src/model_loader.cpp:83-99 | the 64 words are the message schedule of section 6.2.2 |
| Sha256.RunRounds | raspberry-pi/sdr-agent/recognizer-worker/src/model_loader.cpp:100-125 | the register loop is the 64 rounds of the standard |
| Sha256.Hasher.Transform | raspberry-pi/sdr-agent/recognizer-worker/src/model_loader.cpp:82-134 | one block updates the state as the compression function |
| Sha256.Hasher.Update | raspberry-pi/sdr-agent/recognizer-worker/src/model_loader.cpp:41-55 | after any chunk the state is the digest of the whole blocks, and fewer than 64 bytes remain |
| Sha256.ShortTail | raspberry-pi/sdr-agent/recognizer-worker/src/model_loader.cpp:57-67 | the padded message parses into the blocks so far and one final block when the remainder leaves room for the length |
| Sha256.LongTail | raspberry-pi/sdr-agent/recognizer-worker/src/model_loader.cpp:59-67 | and into two more when it does not |
| Sha256.Hasher.FinalHex | raspberry-pi/sdr-agent/recognizer-worker/src/model_loader.cpp:57-75 | below 2^61 bytes the result is the SHA-256 of everything fed, whatever the split, in 64 lower-case digits |
| Sha256Example.HashOfAbc | raspberry-pi/sdr-agent/recognizer-worker/src/model_loader.cpp:41-134 | the hash of "abc" is the one the standard prints, through all 64 rounds |
| Sha256.HexIsPositional | raspberry-pi/sdr-agent/recognizer-worker/src/model_loader.cpp:70-74 | every nibble of a word prints in its place, the highest first |
| Cruise.TransitionsKeepBudgets | raspberry-pi/sdr-agent/controller/src/autonomy.rs:146-249 | every transition leaves an active cruise strictly below its step, byte and retry limits |
| Cruise.CruiseLasts | raspberry-pi/sdr-agent/controller/src/autonomy.rs:146-249 | over every sequence of calls a cruise is active exactly as long as its runs, bytes, misses in a row and clock readings are all below the limits it was started with and nobody stopped it; its counters are those of the calls |
| Cruise.CruiseControl.Start | raspberry-pi/sdr-agent/controller/src/autonomy.rs:146-175 | starts exactly with valid budgets, and resets every counter |
| Cruise.CruiseControl.RecordSdrUnavailable | raspberry-pi/sdr-agent/controller/src/autonomy.rs:192-201 | counts a missing SDR and stops on the fifth |
| Cruise.CruiseControl.RecordPlannerMissing | raspberry-pi/sdr-agent/controller/src/autonomy.rs:207-216 | counts a missing plan and stops on the fifth, independently |
| Cruise.CruiseControl.RecordExecution | raspberry-pi/sdr-agent/controller/src/autonomy.rs:218-228 | counts a step and its bytes, and stops when either budget is used up |
| Cruise.CruiseControl.CheckDuration | raspberry-pi/sdr-agent/controller/src/autonomy.rs:234-243 | stops an active cruise at its duration limit |
| Console.AutomaticIsSmall | raspberry-pi/sdr-agent/controller/src/policy.rs:374-382 | a capture that needs no approval receives at most auto_approve_iq_bytes |
| Console.SweepBytesBound | raspberry-pi/sdr-agent/controller/src/policy.rs:298-310 | a planned sweep that starts receives at most max_iq_bytes |
| Console.StepKeeps | raspberry-pi/sdr-agent/controller/src/bin/sdr-agent.rs:528-1260 | every event keeps the budgets, the approval gate, the outstanding prompts and the overrun bound |
| Console.ApprovalGate | raspberry-pi/sdr-agent/controller/src/bin/sdr-agent.rs:1841-1925 | a counted sweep or capture that takes off in an event was pending and the event is the operator's approval, or the cruise is automatic and active and the plan needs no approval; it is that very plan |
| Console.RunIsGated | raspberry-pi/sdr-agent/controller/src/bin/sdr-agent.rs:1841-1925 | in every run every take-off obeys this |
| Console.NothingWithoutApproval | raspberry-pi/sdr-agent/controller/src/bin/sdr-agent.rs:1841-1925 | in every run from step mode without an approval and without a new cruise, nothing is ever in flight |
| Console.PlanWaits | raspberry-pi/sdr-agent/controller/src/bin/sdr-agent.rs:1862-1885 | an accepted plan becomes the pending one in step mode, or when an active cruise may not start it, and then starts nothing |
| Console.PlanTakesOff | raspberry-pi/sdr-agent/controller/src/bin/sdr-agent.rs:1885-1925 | what is pending takes off on approval, and what an active cruise may start does so at once, when nothing else is in flight and the radio answers |
| Console.ActionsCount | raspberry-pi/sdr-agent/controller/src/bin/sdr-agent.rs:1057-1104 | an action that succeeds in an active cruise is one step and its own bytes |
| Console.FailureIsNoStep | raspberry-pi/sdr-agent/controller/src/bin/sdr-agent.rs:1182-1259 | a capture that fails or brings too much is no step and no bytes: it is a miss of the radio, or the end of the cruise |
| Console.PromptIsOutstanding | raspberry-pi/sdr-agent/controller/src/bin/sdr-agent.rs:528-565 | a prompt goes out under its own number exactly between steps and with limits and observation in order |
| Console.OtherPlanEndsCruise | raspberry-pi/sdr-agent/controller/src/bin/sdr-agent.rs:1902-1918 | hold, stop and unknown actions end an active automatic cruise, with the reason, and start nothing |
| Console.OldPlansAreDead | raspberry-pi/sdr-agent/controller/src/bin/sdr-agent.rs:652-677 | once a session was renewed, in every run: no plan of a session before it is accepted again |
| Console.StopRenews | raspberry-pi/sdr-agent/controller/src/bin/sdr-agent.rs:1261-1431 | a stop ends the cruise; with nothing left in flight the session is renewed at once, and inside a cycle the renewal is put off |
| Console.StopInCycleRenews | raspberry-pi/sdr-agent/controller/src/bin/sdr-agent.rs:1261-1530 | a stop inside a cycle, the end of the cycle and the next poll give a new session with no prompt and no plan left |
| Console.DeferredRenewal | raspberry-pi/sdr-agent/controller/src/bin/sdr-agent.rs:1514-1530 | a renewal that was put off happens at the first poll with nothing in flight after the cycle, and only there |
| Console.StepModeEndsThere | raspberry-pi/sdr-agent/controller/src/bin/sdr-agent.rs:1447-1466 | switching to step mode ends there from every state, and renews an idle session |
| Console.CycleIsOver | raspberry-pi/sdr-agent/controller/src/bin/sdr-agent.rs:1933-1957 | the end of a cycle, or a refused prompt, forgets what was asked, and is a miss of the planner when no plan came |
| Console.CruiseIsBounded | raspberry-pi/sdr-agent/controller/src/bin/sdr-agent.rs:679-1260 | in every run an active cruise is strictly within its budgets, and used bytes exceed the budget by less than one action |
| Console.OneAtATimeIsBounded | raspberry-pi/sdr-agent/controller/src/bin/sdr-agent.rs:1217-1219 | with one action in flight at a time, used bytes stay below budget + auto_approve_iq_bytes |
| Console.SweepsStayInBudget | raspberry-pi/sdr-agent/controller/src/bin/sdr-agent.rs:847-855 | surveys and inspections alone never exceed the byte budget |
| Console.StepSpends | raspberry-pi/sdr-agent/controller/src/bin/sdr-agent.rs:1057-1104 | used bytes reach budget + auto_approve_iq_bytes exactly when a counted sweep succeeds for whose bytes there is no room |
| Console.BoundedIffNeverOverruns | raspberry-pi/sdr-agent/controller/src/bin/sdr-agent.rs:679-1260 | a run stays below that bound throughout if and only if no such sweep occurs in it |
| Console.CaptureDuringSweep | raspberry-pi/sdr-agent/controller/src/bin/sdr-agent.rs:700-730 | for a capture started and finished during a counted sweep: the exact condition, over what is known when it starts and the bytes it writes |
| Console.OverlapOverruns | raspberry-pi/sdr-agent/controller/src/bin/sdr-agent.rs:700-730 | from the launch: a cruise starts, the timer asks, and the planner answers one prompt with an inspection and three captures, bringing 28672 bytes to a budget of 16384 |
| ConsoleApp.App.BeginSweep | raspberry-pi/sdr-agent/controller/src/bin/sdr-agent.rs:791-975 | a planned sweep starts only alone, healthy, valid and within the remaining budget |
| ConsoleApp.App.BeginExecution | raspberry-pi/sdr-agent/controller/src/bin/sdr-agent.rs:700-730 | a capture takes the executor, without looking at sweeps |
| ConsoleApp.App.OnPlan | raspberry-pi/sdr-agent/controller/src/bin/sdr-agent.rs:1841-1925 | a plan that answers an outstanding prompt of this session and passes the policy waits for approval, is ignored, or starts, by mode, as Console.ApprovalGate and Console.PlanWaits say; any other changes nothing |
| ConsoleApp.App.SubmitPrompt | raspberry-pi/sdr-agent/controller/src/bin/sdr-agent.rs:528-565 | a prompt is sent only between steps and becomes outstanding under a new number |
| ConsoleApp.App.RenewSession | raspberry-pi/sdr-agent/controller/src/bin/sdr-agent.rs:652-677 | renewing forgets every outstanding prompt and the plan at the gate, under a new generation |
| ConsoleApp.App.PollSweep | raspberry-pi/sdr-agent/controller/src/bin/sdr-agent.rs:989-1172 | a finished sweep is counted exactly when it succeeded in an active cruise |
| ConsoleApp.App.PollExecution | raspberry-pi/sdr-agent/controller/src/bin/sdr-agent.rs:1182-1259 | a finished capture is counted by the bytes written, never more than asked for |
| ConsoleApp.App.AdvanceAuto | raspberry-pi/sdr-agent/controller/src/bin/sdr-agent.rs:1531-1580 | the timer stops, retries or asks for the next step |
| ConsoleApp.Operate | raspberry-pi/sdr-agent/controller/src/bin/sdr-agent.rs:1514-1580 | a console fed any events ends in the run's state, within its budgets |
| ConsoleApp.App.Handle | raspberry-pi/sdr-agent/controller/src/bin/sdr-agent.rs:1514-1580 | every event changes the object as the step function says |

## Left out

- JSON, `snprintf` and `sscanf` text, configuration files, and the error metadata attached to replies: requests are parsed values, replies tagged ones. A reply that does not fit its buffer (ENOSPC) is not modelled.
- Sockets, threads' creation arguments, `statvfs`, file creation and removal: only their success or failure.
- Acceptor and workers of `main.c` are modelled on values, one action per lock or shared access; memory order below that, and the shutdown of the server on a signal, are not captured.
- Server.ServerIsSafe: `destroy_buffer` with its preceding cancel is one action; the worker alone touches the buffer then.
- Radio.IioRadio.ApplyProfile: gains are reals, so the text of `hardwaregain` and its rounding are not captured.
- Base64.RoundTrip: only decoding after encoding; the decoder also accepts non-zero pad bits, which section 3.5 of RFC 4648 lets it.
- SweepClient.RunSdrdPoints: the SigMF file, settling time and dBFS conversion are left out; a point carries the exact power sum. The adapter's sequence number does not wrap at 2^64.
- Aggregator.SpectrumAggregator.AddSpectrum: window, FFT and normalisation are one uninterpreted function of the frame, and sums are exact reals; the in-place FFT buffer is not overwritten.
- The text of error messages is not modelled; among it, `sdr.rs:131-135` says "exceeds 2048 bytes" where the limit applied is 384 KiB.
- ConsoleApp.App.OnPlan: the checks of validate_response on protocol version, planner labels and error text are left out, and so is `active_request_id`, which nothing reads.
- ConsoleApp.App.SubmitPrompt: the checks of validate_request on observations are one outcome, `observationOk`.
- Floating point: dB values, thresholds and averages are reals; finiteness checks have no counterpart.
- SoftwareSweep.RunPoint: the LO readback and the IIO context around the refill loop are not modelled, nor is the final restoration of the software sweep.
- Coarse PSD, DC exclusion, bin edges in Hz and the other display figures of snapshots and candidates: they would only add easy members.
- Policy: hold, stop and recognition actions, and the checks of observations, would only add one-branch validators.
- Recognizer back ends and manifest checks other than SHA-256, the web console, persistence, planner transport and terminal rendering.
