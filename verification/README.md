# FireFlow: verified models of six cores

FireFlow is a two-deck groovebox: one C++ engine that runs on a Daisy board and inside VCV Rack. This project
models the six parts of it whose correctness is an argument rather than a look at the code, and proves those
arguments in Dafny:

- **The CLOCK/RESET jack law** (`Clock*.dfy`). Edges and elapsed samples go in; tempo, pulses, restarts and loss
  come out. `ClockSpec` is the law on values, `ClockLaw.Law` the law as the hosts run it (an eight-slot ring and
  fields updated in place), tied to it method by method. About the law on values: every pulse, loss and restart is
  what the log of the run before it asks for, a late RESET being dated back to the pulse it follows; how a host splits
  its samples into calls matters exactly where an armed reset of a lost clock meets a wrap of the beat; no RESET is
  lost and no restart invented; and the header's numeric claims about odd periods, tempo steps, swing and late stamps
  hold on every pulse of every train.
- **The control law and its sent-value cache** (`Params.dfy`, `Law*.dfy`, `ControlLaw.dfy`). A tick is an ordered
  list of setter calls, made through a cache of the bits last sent. Over every run of ticks, audio blocks in which
  engine switches land, resets, restores and re-initialisations, the cached law and the law that sends everything
  leave the same instrument; restores are never taken for gestures; after every tick each field of the instrument
  holds the value of its own face, or what it held where it has none, by a table that knows nothing of the calls; and
  the faces that mean something else on another engine always hold what the running engine means.
- **The mix loop** (`Mix*.dfy`). One sample through both decks, the cross-deck buses, the CHOKE and bloom ducks and
  the shared room, with the control tick on every 96th sample. `Part`, `Center`, the reverb kernel and the limiter
  are abstract deterministic machines. Every sample is two decks' shares and the room's return: what CHOKE takes from
  the deck that yields, and that it takes nothing from the other. The room's sleep, spread clear and wake protocol is
  proved safe and live.
- **SHA-256** (`Sha256*.dfy`). The device's block-by-block digest is the hash of FIPS 180-4, for every length; the
  constants are what sections 4.2.2 and 5.3.3 of FIPS 180-4 define them to be, and the hash as specified comes to the
  published digests of "abc" and of the two-block message.
- **The callback profile** (`Profile*.dfy`). Wrapping 32-bit stamps split into nested segments that conserve cycles,
  each the work of the stretches of code that bear its name;
  a histogram; windows of a thousand blocks; and two hand-overs from the audio interrupt to the foreground, an epoch
  re-read and a ring, with the interrupt free to run between any two reads.
- **The panel** (`Panel*.dfy`, `Boot*.dfy`, `LedDuty.dfy`). The two-pass boot take against the single-pass boot
  patch, the boot mute, the MOD latch's depth table and keys, and the threshold scan that replaces a power law.

Where the source changes state the model is a class with the same fields, and each method's contract gives the new
state as a function of the old one; the theorems are about that function.

## Findings

- The clock law is not independent of call sizes (`control/clock_law.hpp:109-113`) in one place: with a reset armed
  and the clock gone it reads the beat phase (`control/clock_law.hpp:150-160`), and a beat that wraps inside a block
  restarts a per-sample host on the wrap and a per-block host at the block's end or not at all.
  `ClockCalls.CallSizeIndependence` and `ClockCalls.HostsAgree` say so exactly, of a segment and of whole runs;
  `ClockCalls.MidSegmentWrap` is such a segment and `ClockCalls.LosingRunWaits` a run that leads up to it. Without a
  reset armed, or with the clock running, any split agrees.
- A swing is inside the band exactly up to a sixth of the beat (`ClockSwing.SwingInBand`), about 58.3/41.7; the
  comment in `control/clock_law.hpp:58-63` says about 59/41. Beyond it the window freezes at the 9th period, as the
  comment says, and the tempo is still the beat's.
- The control law forgets a deck when the engine asked for or the one running has moved
  (`control/control_law.h:471-482`). A switch turned A, B, A inside one fade lands on the engine that was playing
  (`engine/parts/part.cpp:569-571`), and neither has moved. The cache stays exact because such a landing overwrites
  none of the deck's fields; `LawCells.CancelledLanding` says exactly when the next tick would be right
  after one that did, and `LawBases.UnseenOverwriteStays` that it would not under a still knob.
- A single-pass boot patch (`shell/boot_patch.cpp:11-24`) agrees with the boot take if and only if every ENGINE row
  that comes after a row of its deck with an alternate leaves alone whether the deck is on the BBD, or that row's
  values are in both its knobs already (`PanelBoot.SinglePassExactly`); `PanelBoot.SinglePassCanMiss` is a table on
  which they differ.
- The window hand-over's bound is exact: with 2^32 windows published inside one pass of the foreground's loop the
  epochs agree and the copy is torn (`ProfileHandover.TornAtTheBound`).

## Model

| member | source | states |
|---|---|---|
| ClockLaw.Law.constructor | control/clock_law.hpp:93-97 | a new law holds no edge, no tempo, nothing armed, and its invariant |
| ClockLaw.Law.Discontinuity | control/clock_law.hpp:102-107 | the held tempo stays; history, clock, pending reset and the knob's reference go |
| ClockLaw.Law.Push | control/clock_law.hpp:190-194 | the ring, read from its oldest slot, grows to eight intervals and then slides by one |
| ClockLaw.RingSlides | control/clock_law.hpp:190-194 | overwriting the head slot of a full ring and moving the head drops the oldest interval and appends the new one |
| ClockLaw.Law.MeanOfRing | control/clock_law.hpp:196-200 | summing the slots in ring order gives the mean of the window in time order |
| ClockLaw.Law.Measure | control/clock_law.hpp:202-205 | the period is the window's mean and the tempo is never 0 |
| ClockSpec.AcceptedByTempo | control/clock_law.hpp:219-221 | the range test on the tempo is the one on the interval, both ways |
| ClockLaw.Law.HearInterval | control/clock_law.hpp:235-260 | an interval heard while running enters the window, is held aside, or restarts the window with its agreeing partner |
| ClockLaw.Law.OnEdge | control/clock_law.hpp:210-261 | one edge: whether it is a valid pulse, whether it counts, and the whole new state |
| ClockLaw.Law.Elapse | control/clock_law.hpp:117-129 | time passes, and the clock is lost exactly when more than two periods have gone by since the last valid edge |
| ClockLaw.Law.KnobTakeover | control/clock_law.hpp:133-138 | a held tempo yields to the first knob value that differs from the reference, only without a clock |
| ClockLaw.Law.HandleReset | control/clock_law.hpp:140-160 | restart now, restart back-dated, or arm; and when an armed reset fires |
| ClockLaw.Law.Step | control/clock_law.hpp:114-165 | one call refines the law on values and keeps its invariant: ring shape, accepted intervals, period the window's mean, last valid edge at most two periods old while running, an armed reset without a clock holds no reference edge |
| ClockSpec.HearWf | control/clock_law.hpp:235-260 | whatever a valid interval does, the window stays one of at most eight accepted intervals and is not empty, and a held-aside period exists only beside a full one |
| ClockSpec.MeanAccepted | control/clock_law.hpp:196-205 | the mean of accepted intervals is itself a period in range |
| ClockResets.OutInRange | control/clock_law.hpp:82-88 | the tempo handed out is 0 or in 20..400, so the control law's gate refuses no other value, and no restart is dated back beyond the reset window |
| ClockResets.ResetAnswered | control/clock_law.hpp:142-149 | a RESET edge restarts in its own call or is armed, exactly one of the two |
| ClockResets.ArmedFires | control/clock_law.hpp:150-160 | without a RESET edge a restart is an armed one firing, exactly on a pulse, on the first edge back of a lost clock, or on the beat wrap without a clock |
| ClockResets.FirstEdgeBackRestarts | control/clock_law.hpp:151-158 | an armed reset of a lost clock is spent on the first edge back, which is no pulse |
| ClockResets.RestartsAreAsked | control/clock_law.hpp:140-180 | over every run, restarts and a still-armed reset never outnumber the RESET edges |
| ClockResets.ArmedIsKept | control/clock_law.hpp:140-160 | over every run, an armed reset is still armed at the end or a restart spent it |
| ClockResets.NoResetLost | control/clock_law.hpp:140-160 | over every run, from each RESET edge on there is a restart, or it is still armed at the end |
| ClockResets.WindowIsLastEntered | control/clock_law.hpp:182-261 | over every run from a stopped clock the window holds the last min(n, 8) of the n intervals that entered it since it was last started, the lost clocks and the held-aside periods in the run included |
| ClockLog.BootIsBlank | control/clock_law.hpp:93-107 | at boot and after a discontinuity no edge, no clock, no restart's 1 and no reset is held, and a discontinuity keeps the tempo |
| ClockLog.LogShows | control/clock_law.hpp:114-188 | from a blank state, stamps, last pulse, reference edge, clock, restart's 1, armed reset and tempo are exactly what the log of calls and outputs shows |
| ClockLog.EdgesExactly | control/clock_law.hpp:120-131 | over every run a pulse is exactly a CLOCK edge at a distance of 20 to 400 BPM from the one before, a loss exactly more than two beats of the tempo handed out since the last pulse, and the lamps are the jacks' edges |
| ClockLog.CountedExactly | control/clock_law.hpp:75-81 | counted appears exactly on the pulse that starts the clock when a restart since the edges were last forgotten has its 1 within the reset window of the reference edge |
| ClockLog.ResetDatesBack | control/clock_law.hpp:140-149 | over every run a RESET edge on a pulse or without a clock is the 1 itself; with the clock running it restarts exactly when the last pulse is at most the window ago, and then its 1 lies on that pulse; otherwise it is armed |
| ClockLog.RestartsExactly | control/clock_law.hpp:150-160 | over every run, without a RESET edge there is a restart exactly when an armed one is due: on a pulse, or without a clock on the first edge back or where the phase is below the previous call's |
| ClockLog.RunningTempo | control/clock_law.hpp:196-205 | while the clock runs the tempo handed out is that of the window's mean |
| ClockLog.LostTempoHolds | control/clock_law.hpp:122-138 | from the call that loses the clock, or the first after a discontinuity, until the next pulse the tempo handed out is the held one while the knob has stayed where it was on that call, and 0 once it has not |
| ClockLog.TenMilliseconds | control/clock_law.hpp:82-88 | the reset window is ten milliseconds to the nearest sample, 480 samples at 48 kHz |
| ClockCalls.SameStep | control/clock_law.hpp:133-138 | the knob's reference is dead while the clock runs: states that differ in nothing else answer alike and stay so |
| ClockCalls.SameRun | control/clock_law.hpp:114-165 | the same over whole runs |
| ClockCalls.QuietRun | control/clock_law.hpp:109-165 | a stretch of calls without edges in which no wrap is read does what one call with all its samples does, hands out nothing, and loses the clock exactly when that call would |
| ClockCalls.QuietRestarts | control/clock_law.hpp:150-160 | one in which a wrap is read restarts |
| ClockCalls.MergeOne | control/clock_law.hpp:109-165 | a quiet call merges into the call that follows it, edges or not, unless that call's beat phase decides and wraps against one of the two earlier phases only |
| ClockCalls.CallSizeIndependence | control/clock_law.hpp:109-165 | a split of a segment's samples into calls leaves the same state, the same combined loss and the same outputs as one call if and only if no armed reset of a clock gone by its end reads a wrap at another place |
| ClockCalls.HostsAgree | control/clock_law.hpp:109-113 | over whole runs a per-sample host and a per-block host that read the same jacks at the same instants stay in step if and only if that holds of every segment |
| ClockCalls.InStepRun | control/clock_law.hpp:109-113 | in step, they hand out the same over the run and end in the same state |
| ClockCalls.UnarmedHostsAgree | control/clock_law.hpp:150-160 | without a RESET edge in the run and none armed before it they are in step, whatever the beat does |
| ClockCalls.MidSegmentWrap | control/clock_law.hpp:150-160 | a wrap inside a segment of an armed reset without a clock: the split host restarts on it, the other one at the end |
| ClockCalls.LosingRunWaits | control/clock_law.hpp:114-165 | the law does come to wait so: two edges, a late RESET, then silence |
| ClockTrain.BeatStep | control/clock_law.hpp:210-261 | a valid edge in time is a pulse, hears its interval, loses nothing and hands out the window's tempo, whatever RESET does |
| ClockTrain.FirstEdge | control/clock_law.hpp:211-215 | the first edge of a clock is a reference and no pulse |
| ClockTrain.Train | control/clock_law.hpp:114-165 | a whole train in time is all pulses, none lost, and measures what its intervals measure |
| ClockTempo.OddPeriod | control/clock_law.hpp:48-57 | one odd period r after a full window of P: mean (7P+r)/8 while an in-band r is in the window, exactly P ever after, and P throughout for an r out of the band |
| ClockTempo.ExcursionBound | control/clock_law.hpp:53-55 | that mean's tempo is off the beat's by exactly (P-r)/(7P+r) of it, under 2.5 % |
| ClockTempo.Excursion | control/clock_law.hpp:44-57 | the same of the law itself, on every pulse of the train and with no loss |
| ClockTempo.InBandRamp | control/clock_law.hpp:32-34 | an in-band step ramps linearly through the window and has settled exactly at the 8th period |
| ClockTempo.TwoOutOfBand | control/clock_law.hpp:50-52 | the first out-of-band period moves nothing; the second restarts the window with both exactly when it lies on the same side and agrees with the first |
| ClockTempo.StepSettles | control/clock_law.hpp:32-34 | the period at every pulse of a step from a full window of P to Q, in the band and out of it |
| ClockTempo.TempoStep | control/clock_law.hpp:32-34 | the same of the law itself: no edge lost, settled at the 8th pulse in the band and at the 2nd out of it |
| ClockSwing.SwingInBand | control/clock_law.hpp:58-63 | both halves of a swing s are in the band if and only if s is at most 1/6 |
| ClockSwing.SwingAverages | control/clock_law.hpp:28-31 | from the first edge on, once the window is full its mean is exactly the beat on every pulse; in the band every period enters, out of it none does after the 9th |
| ClockSwing.Swing | control/clock_law.hpp:28-31 | the same of the law itself: every edge a pulse, never lost, the beat's tempo from the 8th pulse on |
| ClockSwing.Telescopes | control/clock_law.hpp:21-22 | in a sum of late-stamped periods every lateness but the first and the last cancels |
| ClockSwing.MeanOfStamped | control/clock_law.hpp:21-27 | the mean of the last k such periods is off by the two end stamps over k, less than q/k |
| ClockSwing.Quantization | control/clock_law.hpp:19-27 | a steady clock whose stamps are late by less than q, at most an eighth of P, is never lost, and at every pulse its period is the span of the last min(n, 8) intervals and within q/k of P |
| Params.DepthBlock | control/params.hpp:177-228 | the MOD layer's row k owns the k-th depth parameter, so no two rows share one and none is a sound parameter |
| LawCache.SlotsAreInjective | control/control_law.h:223-247 | one cache slot per instrument field |
| LawCache.PutUncached | control/control_law.h:261-268 | with the cache off every call reaches the instrument |
| LawCache.PutCached | control/control_law.h:196-197 | where a slot's bits are the field's, a skipped call is one that would have changed nothing |
| LawCache.PutKeepsMatches | control/control_law.h:263-268 | no call spoils what the cache knows of any field |
| LawCache.ForgetDeckSlots | control/control_law.h:273-275 | forgetting a deck invalidates its fields' slots and no other's |
| LawEdges.BbdEdgeState.Tick | control/bbd_edge_state.hpp:44-52 | the first call after a re-arm is a baseline, then exactly an entry fires |
| LawEdges.SongRungState.Tick | control/song_rung_state.hpp:45-55 | the first call after a re-arm adopts the rung, then exactly a change fires |
| LawEdges.DriftSettleState.Tick | control/drift_settle_state.hpp:33-42 | the first call after a re-arm is a baseline, then exactly an entry fires |
| LawEdges.SeededBbdEdges | control/bbd_edge_state.hpp:39-52 | over every run without a pending restore an edge fires exactly on an observed entry |
| LawEdges.NewBbdEdges | control/bbd_edge_state.hpp:36-52 | over every run of a new detector an edge fires exactly on an observed entry, never on the first call |
| LawEdges.RestoredBbdEdges | control/control_law.h:704-727 | over every run after a restore no edge fires up to the tick the asked engine runs, then exactly one per observed entry |
| LawEdges.RearmedPhrases | control/song_rung_state.hpp:30-55 | over every run after a re-arm the first tick is silent and each change of rung fires once |
| LawEdges.RearmedDrift | control/drift_settle_state.hpp:29-42 | over every run after a re-arm the first tick is silent and each entry fires once |
| LawEdges.BaselineIsNearest | control/song_rung_state.hpp:37-44 | a baseline is the nearest rung, whatever was held |
| LawEdges.DetentLands | engine/mod/song_ladder.h:52-60 | a pot on a detent lands on that rung from any other |
| LawEdges.SeamHolds | engine/mod/song_ladder.h:43-51 | a pot hovering less than a step around the held rung never fires |
| LawEdges.NearestIsNearest | engine/mod/song_ladder.h:45-49 | no rung is nearer to the pot than the one a turn lands on |
| LawEdges.FullStepMoves | engine/mod/song_ladder.h:50-59 | the rung moves exactly when the pot is a full step away, less a ten-thousandth, and then to the nearest in one move |
| LawEdges.EndsLand | engine/mod/song_ladder.h:43-44 | a pot at an end or past it lands on that end's rung from any other |
| LawTick.LadderIsSound | engine/mod/song_ladder.h:29-41 | every rung is a legal pair, rung 0 does not alternate, none repeats another, and the ladder clamps at its ends |
| LawRefines.TickSame | control/control_law.h:183-275 | one tick with the cache and one without leave the same instrument, detectors and report, and keep the cache safe |
| LawRefines.ProcessedSafe | control/control_law.h:210-216 | an audio block keeps the cache safe even when a landing engine overwrites its deck's fields: the next tick will see it |
| LawRefines.InitialisedSafe | control/control_law.h:112-119 | so does a forget point, whatever the instrument was initialised to |
| LawRefines.NewLawIsSafe | control/control_law.h:94-99 | a new law has sent nothing and is safe beside whatever instrument it is put to |
| LawRefines.CacheIsInvisible | control/control_law.h:183-216 | over every run of ticks, audio blocks, resets, restores and re-initialisations the instrument and every report are those of the law without the cache |
| LawCells.TickCell | control/control_law.h:263-275 | what a deck's field holds, and what the cache knows of it, after any tick, cached or not: the values the tick sends it received one after the other, forgotten first where an engine change was noticed |
| LawCells.CacheIsExactWhen | control/control_law.h:183-216 | of any world whatever: the cached tick leaves in a deck's field what the uncached one does if and only if the slot is forgotten, or the field holds what was sent, or the tick sends it nothing, or something new |
| LawCells.CancelledLanding | control/control_law.h:471-482 | after a landing on the engine that was playing, which goes unnoticed, the cached tick leaves a field as the uncached one does if and only if the landing left it alone, or the tick sends it nothing, or something else than before |
| LawFaces.EveryFieldIsSentItsFace | control/control_law.h:467-968 | a tick sends every field of a deck the value its face stands for, exactly once, and a field without one (DETUNE on FEED, SCAN off the sampler, the unused lanes and effect targets) nothing |
| LawFaces.EveryFieldHoldsItsFace | control/control_law.h:450-968 | so after any tick, cached or not, every field of a deck holds that value, or what it held |
| LawFaces.EveryGlobalHoldsItsFace | control/control_law.h:467-966 | and every field of the instrument's own holds its face's value |
| LawBases.EveryRunEndsOnItsFaces | control/control_law.h:183-216 | the same after every run of ticks, landings, resets and restores through the cache |
| LawCalls.TickCalls | control/control_law.h:483-966 | a tick makes each uncached call once and in order: RATE, SMOOTH, REC where it differs, STEPS, a new phrase on a rung change with a punch on the sampler, SYNC, SETTLE, DRIFT, TIDE, the tempo; and what it reports is what it saw |
| LawCalls.EngineIsAskedBySlot | control/control_law.h:600-614 | which engine each ENG slot asks for, and that the key of an engine change moves exactly with the slot or the test-tone option |
| LawGestures.RunEdges | control/control_law.h:704-727 | the events of every run are those of the detectors over what the ticks saw |
| LawGestures.RunBbdEdges | control/control_law.h:104-111 | the BBD edges of a run without restores, resets or not, are those of the detector alone |
| LawGestures.RestoreFiresNoBbdEdge | control/control_law.h:106-111 | over every run after a restore, resets and re-initialisations included, no BBD edge fires up to and including the tick the asked engine runs, then one on each observed entry and nothing else |
| LawGestures.RearmedFirstTickIsQuiet | control/control_law.h:104-111 | over every run after a reset or restore the first tick neither settles nor re-rolls, and afterwards each does exactly on its own change |
| LawGestures.NewLawsFirstTickIsQuiet | control/control_law.h:94-99 | over every run of a new law without restores or resets its first tick fires nothing, and from then on each detector exactly on its own change |
| LawBases.SentOnce | control/control_law.h:450-968 | each re-pointed field is sent exactly one value a tick, and it is what the engine the deck runs means by it |
| LawBases.NoBaseLeftBehind | control/control_law.h:223-225 | after every tick from a safe cache, cached or not, a deck's re-pointed fields are those of the engine it runs: nothing an earlier engine was given stays behind |
| LawBases.UnseenOverwriteStays | control/control_law.h:471-484 | so a SHAPE overwritten by such a landing would stay overwritten under a still knob, and be put right without the cache |
| ControlLaw.Instrument.Set | engine/parts/part.cpp:222-227 | a setter is an idempotent store; on the engine it re-points the pending switch |
| ControlLaw.Law.constructor | control/control_law.h:94-99 | a new law has sent nothing and every detector waits for its baseline |
| ControlLaw.Law.IsFresh | control/control_law.h:261-268 | whether a value has to be sent, the sent ones being marked |
| ControlLaw.Law.Put | control/control_law.h:282-371 | a setter behind the cache, on instrument and cache |
| ControlLaw.Law.ForgetDeck | control/control_law.h:273-275 | exactly the deck's slots are forgotten |
| ControlLaw.Law.OnInstrumentInit | control/control_law.h:116-119 | every slot and both decks' engines are forgotten, no detector is re-armed |
| ControlLaw.Law.OnReset | control/control_law.h:104-105 | SONG and DRIFT are re-armed and everything sent forgotten; the BBD detectors are left |
| ControlLaw.Law.OnRestore | control/control_law.h:108-111 | the BBD detectors are held as well |
| ControlLaw.Law.Notice | control/control_law.h:476-482 | a deck is forgotten exactly when the asked or the running engine moved |
| ControlLaw.Law.Record | control/control_law.h:640-649 | REC is a state: the call is made exactly where it differs, and a start is reported |
| ControlLaw.Law.Detect | control/control_law.h:704-727 | the BBD detector is held through the tick a restored engine lands |
| ControlLaw.Law.DeckBlock | control/control_law.h:471-866 | one deck's block, on cache, instrument, engines and detectors |
| ControlLaw.Law.CentreBlock | control/control_law.h:868-966 | the engine-backed depths and the centre's calls, DRIFT settling on its detector's word |
| ControlLaw.Law.Tick | control/control_law.h:450-968 | one control tick refines the tick on values |
| MixRoom.SpreadClearIsClear | engine/fx/reverb.cpp:101-130 | spread over any sufficient number of steps, at most 32, the clear leaves exactly the room that clearing at once leaves, and no fewer will do |
| MixRoom.BegunHasAllSteps | engine/fx/reverb.cpp:106-130 | a clear just begun has exactly 32 steps before it |
| MixRoom.AmbientReverb.Init | engine/fx/reverb.cpp:65-99 | whatever the room was doing it is empty, at rest, at its boot knobs, no clear under way |
| MixRoom.AmbientReverb.BeginClear | engine/fx/reverb.cpp:106-122 | everything but the buffer is at rest and the clear stands at its start |
| MixRoom.AmbientReverb.ClearStep | engine/fx/reverb.cpp:124-130 | one chunk of the buffer is zeroed in place, the rest kept |
| MixRoom.AmbientReverb.Clear | engine/fx/reverb.cpp:101-104 | the whole room is empty and at rest |
| MixSmooth.GlideStaysInHull | engine/util/onepole.h:24-34 | a glide never leaves the span of where it is and where it goes |
| MixSmooth.GlideArrives | engine/util/onepole.h:24-34 | what is left of a glide's way shrinks geometrically until it is under the snap, and from that sample on the glide rests exactly on its target |
| MixSmooth.RestsNearby | engine/util/onepole.h:24-27 | a glide at rest stays exactly when its target is within 0.0005 |
| MixSleep.BootIsSound | engine/instrument.cpp:165-178 | the protocol's invariant holds at boot |
| MixSleep.RunKeeps | engine/instrument.cpp:205-704 | in every state a run from boot reaches: a room being cleared is asleep, a sleeping room is zero up to where its clear has come, and one somebody sends to is still clearing |
| MixSleep.ClearingIsNotPlayed | engine/instrument.cpp:375-378 | while a clear is under way a sample adds nothing of the room and leaves it alone, unless it is the first one, which begins the clear anew |
| MixSleep.WakesIntoSilence | engine/instrument.cpp:213-215 | whatever wakes the room finds it all zero and at rest, and some deck sends to it |
| MixSleep.SleepsInSilence | engine/instrument.cpp:680-696 | the room falls asleep only on the very first sample or on one to which it adds exactly nothing, every send being shut |
| MixSleep.WakesInTime | engine/instrument.cpp:375-386 | a room somebody sends to throughout is awake after as many control ticks as its clear has steps left, and stays so |
| MixSleep.FadesToSleep | engine/instrument.cpp:680-696 | with the knobs left alone the return falls one step a sample and the room sleeps on exactly the sample that takes it to 0 |
| MixSleep.ReopensInSteps | engine/instrument.cpp:685-688 | while somebody sends, a return caught in its fade rises by one step a sample to exactly 1 and stays there |
| MixSleep.KnobReachesItsDeck | engine/instrument.cpp:205-216 | a MIX knob reaches its own deck's crossfade and no other's, with exact ends, and wakes exactly a room that is not being cleared |
| MixSleep.EachGlidesToItsOwn | engine/instrument.cpp:613-631 | each of the four gains glides to its own deck's target, and the first sample starts on it |
| MixSleep.AwakeIsHeard | engine/instrument.cpp:664-690 | an awake room adds the kernel's return of the send at the gain the ride has come to |
| MixDucks.MemoIsInvisible | engine/instrument.cpp:478-501 | remembering the CHOKE depth chain changes no gain for any history of the knob |
| MixDucks.DuckKeeps | engine/instrument.cpp:502-518 | the duck's gain lies between the hot floor and 1, is 1 below the window or at depth 0, is its floor above it, and the follower never overshoots |
| MixDucks.NoonIsBypass | engine/instrument.cpp:509-511 | CHOKE at noon with its glide at rest is a gain of exactly 1 for ever |
| MixDucks.FloorIsReached | engine/instrument.cpp:504-508 | fully turned, on a deck that is properly sounding, the gain is the hot floor |
| MixDucks.DepthCurve | engine/instrument.cpp:466-473 | half travel is the whole depth of 1.2, the way there is straight, and either side is alike |
| MixDucks.DuckCurve | engine/instrument.cpp:487-516 | the gain at any depth and level: the depth's share, up to its whole, of the way down to a floor that past a whole depth falls from 0.15 to 0.02, over the window from 0.015 to 0.11 |
| MixDucks.RateCurve | engine/instrument.cpp:492-497 | both follower rates move to their hot pair by the same share |
| MixDucks.FollowerIsGeometric | engine/instrument.cpp:502 | towards a steady level the follower goes geometrically, up at the attack rate and down at the release rate |
| MixDucks.TargetInRange | engine/instrument.cpp:358-366 | the bloom target is 1 unarmed or at 0.30 and below, falls straight to 0.316 at 0.60 and stays there |
| MixDucks.RetargetKeepsGain | engine/instrument.cpp:367-374 | re-basing the bloom residual moves no gain |
| MixDucks.RideApproaches | engine/instrument.cpp:657-660 | a sample moves the bloom gain towards its target and never past it |
| MixDucks.ResidualDecays | engine/instrument.cpp:640-660 | with the target still the residual is a pure geometric decay at the one rate its sign picks |
| MixSpec.BlocksDoNotMatter | engine/instrument.cpp:281-709 | a stretch of samples cut into consecutive calls gives the same state and output as one call |
| MixRuns.CrossDeckLatency | engine/instrument.cpp:408-417 | for every history of CHOKE and of everything else a deck's audio bus input is its sibling's output one sample before, and its control tap on a tick the mono of the sibling's last sample before the tick |
| MixRuns.Raster | engine/instrument.cpp:285-389 | from boot the control tick falls on exactly every 96th sample, however the calls are cut |
| MixRuns.ChokeIsMirrored | engine/instrument.cpp:404-533 | exchanging the decks and turning CHOKE over exchanges what they play |
| MixRuns.PullIsMirrored | engine/instrument.cpp:341-353 | exchanging the decks and turning PULL over exchanges the gravities |
| MixRuns.PullBindsOne | engine/instrument.h:553-561 | PULL binds the notes of one deck at most, with probability exactly 1 at full deflection, and none in its dead zone |
| MixRuns.MemosAreInvisible | engine/instrument.cpp:288-296 | computing pan gains and CHOKE chain anew on every sample gives the same output over every run from boot |
| MixRuns.DucksStayInRange | engine/instrument.cpp:355-660 | in every state a run from boot reaches both ducks' gains lie between their floors and 1 |
| MixRuns.UnarmedBloomIsIdle | engine/instrument.cpp:355-366 | over every run from boot in which DECAY never takes the loop past unity the bloom gain is exactly 1 |
| MixShares.SampleIsSum | engine/instrument.cpp:602-706 | every sample of every state is the limiter of the two decks' shares and the room's return of the two decks' sends; a share is the deck's own output, pan, level, crossfade, what CHOKE leaves of it, and the ride; a send has neither pan nor ride |
| MixShares.EverySampleIsSum | engine/instrument.cpp:602-706 | so it is after every run from boot |
| MixShares.ChokeTakesFromOne | engine/instrument.cpp:517-518 | exactly one deck yields, A right of noon and B otherwise; the other's shares of blend and send are what they are unducked, and the yielding one's the duck's gain times that |
| MixShares.FollowerHearsPriority | engine/instrument.cpp:423-464 | the follower is fed the louder channel of the deck that does not yield, after that deck's own level |
| MixShares.PriorityRunsFree | engine/instrument.cpp:404-533 | the deck with priority runs first and uninhibited, the other one inhibited never up to half travel, from there while the first holds a note or drones, past three quarters also while it is heard; both are handed the sibling's previous sample |
| MixShares.TickCrosses | engine/instrument.cpp:286-353 | a control tick hands either deck the other one's last mono and its rhythm, and nothing else crosses |
| MixShares.FirstSampleHearsNothing | engine/instrument.cpp:281-306 | at boot both buses are silent, and the first sample is a control tick |
| MixShares.BloomFollowsTheRoom | engine/instrument.cpp:355-374 | the bloom duck's aim moves on control ticks alone, by what the room returns, the ride going on from where the gain was; a room's first sample starts unducked |
| MixShares.BootRates | engine/instrument.cpp:154-178 | at boot the return fades in 0.15 s, the crossfades glide in 0.01 s, and both decks send a quarter |
| MixShares.BootIsNeutral | engine/instrument.cpp:154-203 | an initialised instrument has CHOKE and PULL at noon, nothing ducked or remembered, and an empty, awake room whose mix waits for the first sample |
| MixShares.KnobsReachTheirPlace | engine/instrument.h:553-561 | CHOKE and PULL are clamped to their own place, DECAY arms the bloom duck exactly past unity, and nothing else moves |
| MixWakes.RunIsOps | engine/instrument.cpp:205-704 | what a run of the mix does to the reverb is a run of the sleep protocol |
| MixWakes.RoomIsSound | engine/instrument.cpp:375-704 | so the protocol's invariant holds in every state a run of the mix from boot reaches |
| MixWakes.TicksOfRun | engine/instrument.cpp:285-389 | how many control ticks a run of samples holds, from any place in the raster |
| MixWakes.RoomWakesInTime | engine/instrument.cpp:375-386 | whatever has happened since boot, a room some deck sends to is awake after at most 32 control blocks, 3072 samples |
| MixLoop.Instrument.constructor | engine/instrument.cpp:154-203 | the room made new, whatever it was doing; nothing ducked, nothing remembered, not yet primed: the boot state the run theorems start from |
| MixLoop.Instrument.SetChoke | engine/instrument.h:553 | CHOKE is clamped and nothing else moves |
| MixLoop.Instrument.SetPull | engine/instrument.h:560 | PULL is clamped and nothing else moves |
| MixLoop.Instrument.SetReverbMix | engine/instrument.cpp:205-216 | exact ends, the curve between, and a wake only into a room that is not being cleared |
| MixLoop.Instrument.SetReverbDecay | engine/instrument.h:315-320 | the room is tuned and the bloom duck armed exactly past unity loop gain |
| MixLoop.Instrument.TickDecks | engine/instrument.cpp:286-353 | the centre, then each deck's view of its sibling |
| MixLoop.Instrument.TickBloom | engine/instrument.cpp:355-374 | the bloom target from the room's return, the residual re-based when it moves |
| MixLoop.Instrument.TickRoom | engine/instrument.cpp:375-386 | one clear step, and the wake on the last one if somebody sends |
| MixLoop.Instrument.PlayDecks | engine/instrument.cpp:404-533 | both buses read before either deck runs, then priority, then yielding deck under its event window |
| MixLoop.Instrument.DuckYielding | engine/instrument.cpp:466-518 | the follower and the yielding deck's gain |
| MixLoop.Instrument.TapDecks | engine/instrument.cpp:572-582 | the audio bus every sample, the control tap on the last of a block |
| MixLoop.Instrument.PrimeRoom | engine/instrument.cpp:613-627 | the first sample snaps the mix and starts an unused room asleep |
| MixLoop.Instrument.RideReturn | engine/instrument.cpp:680-688 | down to an exact 0 while closing, up to an exact 1 |
| MixLoop.Instrument.ReturnRoom | engine/instrument.cpp:664-699 | the room's share of a sample, and the sleep check |
| MixLoop.Instrument.MixSample | engine/instrument.cpp:602-704 | dry blend under both ducks, sends without pan, the return |
| MixLoop.Instrument.Sample | engine/instrument.cpp:281-709 | one sample refines the sample on values, state and output |
| MixLoop.Instrument.Process | engine/instrument.cpp:254-712 | a call writes, for every sample of its buffers, which may be shared between input and output, what the mix on values puts out, and leaves its state |
| Sha256Constants.FirstPrimes | bench/qspi_digest.cpp:8-25 | the table the constants are derived from is the first 64 primes: it rises, and up to its last entry a number is in it if and only if it is prime |
| Sha256Constants.RoundConstantsFromPrimes | bench/qspi_digest.cpp:8-25 | each round constant is the first 32 fractional bits of the cube root of its prime, as section 4.2.2 of FIPS 180-4 defines it |
| Sha256Constants.InitialHashFromPrimes | bench/qspi_digest.cpp:96-99 | each initial word is the first 32 fractional bits of the square root of its prime, as section 5.3.3 of FIPS 180-4 defines it |
| Sha256Spec.PadLength | bench/qspi_digest.cpp:109-123 | the padded message is whole blocks with the fewest zero bits section 5.1.1 of FIPS 180-4 allows |
| Sha256Spec.LengthBytesRoundTrip | bench/qspi_digest.cpp:120-122 | the eight length bytes read most significant first are the length |
| Sha256Spec.HashBlocksConcat | bench/qspi_digest.cpp:102-107 | blocks already folded in need not be looked at again |
| Sha256Spec.HexRoundTrip | bench/qspi_digest.cpp:125-134 | the hexadecimal digits decode to the words they were written from |
| Sha256Vectors.HashOfAbc | bench/qspi_digest.cpp:27-123 | the hash of "abc" is the eight words the standard's examples publish, worked out round by round |
| Sha256Vectors.HashOfLetters | bench/qspi_digest.cpp:27-123 | the hash of the 56-letter message, whose length takes a block of its own, is the published one |
| Sha256Vectors.HexOfAbc | bench/qspi_digest.cpp:125-135 | and the digits of the first are the published ones |
| Sha256.RoundIsTheStandards | bench/qspi_digest.cpp:59-79 | the device's rotations, choices and sums make the standard's round |
| Sha256.NextWordExpands | bench/qspi_digest.cpp:48 | the device's order of addition gives the standard's schedule word |
| Sha256.MessageSchedule | bench/qspi_digest.cpp:34-49 | the table holds the message schedule of section 6.2.2 of FIPS 180-4 |
| Sha256.Transform | bench/qspi_digest.cpp:32-87 | the state in place becomes the compression function's value |
| Sha256.HashSplit | bench/qspi_digest.cpp:102-123 | the hash is the whole blocks' state continued with the padded rest, wherever whole blocks end |
| Sha256.HashTail | bench/qspi_digest.cpp:109-123 | one block when the length fits after the 1 bit, two when it does not, and both are the padding's |
| Sha256.PutLength | bench/qspi_digest.cpp:120-122 | the last eight bytes of the buffer are the length, most significant first, the rest kept |
| Sha256.FoldBlocks | bench/qspi_digest.cpp:102-107 | the state after the block loop is that of all whole blocks, less than a block being left |
| Sha256.FoldTail | bench/qspi_digest.cpp:109-123 | the state is continued with the padded rest |
| Sha256.WriteHex | bench/qspi_digest.cpp:125-135 | 64 digits and a terminating zero, nothing beyond |
| Sha256.Sha256Hex | bench/qspi_digest.cpp:91-136 | for data of any length the output is the digits of its hash |
| ProfileSplit.SplitsConserve | shell/cb_profile.cpp:238-297 | if a family's parts split their parent on every row they do so over any rows |
| ProfileSplit.DeckSplits | shell/cb_profile.cpp:243-253 | the seven segments split a deck |
| ProfileSplit.ModSplits | shell/cb_profile.cpp:259-269 | the five parts split the modulation half |
| ProfileSplit.LanesSplits | shell/cb_profile.cpp:270-276 | the three parts split the lanes |
| ProfileSplit.PitchSplits | shell/cb_profile.cpp:277-285 | the four parts split the pitch lane |
| ProfileSplit.GritSplits | shell/cb_profile.cpp:286-296 | the five parts, two of them in two stretches each, split GRIT |
| ProfileSplit.MixSplits | shell/cb_profile.cpp:254-258 | the five parts split the mix |
| ProfileSplit.TotalIsTrue | shell/cb_profile.cpp:238-297 | a total of wrapped stamps is the true cycle count if and only if that fits 32 bits, however often the counter wrapped |
| ProfileBlock.FindWorst | shell/cb_profile.cpp:327-335 | the worst sample is the maximum, at its first index |
| ProfileBlock.Profile.SumBlock | shell/cb_profile.cpp:238-297 | every accumulator holds its segment's total modulo 2^32 |
| ProfileBlock.Profile.PublishSegments | shell/cb_profile.cpp:298-326 | the priority deck's figures go to deck pri, the yielding one's to the other |
| ProfileBlock.Profile.ProbeBlock | shell/cb_profile.cpp:227-354 | all of a block's figures: totals, worst sample and its breakdown, the mean of the rest |
| ProfileBlock.FamilyConserves | shell/cb_profile.cpp:238-297 | a family's published words sum modulo 2^32 to its parent's, for any stamps |
| ProfileBlock.DeckConserves | shell/cb_profile.cpp:238-297 | a deck's figures conserve its cycles at every level of the split |
| ProfileBlock.MixConserves | shell/cb_profile.cpp:254-258 | the mix's five words sum to the mix |
| ProfileBlock.BlockConserves | shell/cb_profile.cpp:231-242 | deck A, deck B and the mix sum to process(), for any stamps and either priority |
| ProfileWork.FiguresAreTheirWork | engine/util/probe_mark.h:20-49 | if a block's stamps are the counter's as the engine passes its marks in time order, every published word of either deck and of the mix is the work of the stretches that bear its name, and a deck's total all its work, modulo 2^32 |
| ProfileWork.WorstIsItsWork | shell/cb_profile.cpp:338-353 | the worst sample's breakdown is its deck's modulation half, lanes, control tick, engine and the five parts of its FX, and its mix all the mix's work |
| ProfileWork.CostIsCycles | shell/cb_profile.cpp:327-335 | a sample's cost is all the work of both decks and the mix |
| ProfileWindows.BinIs | shell/cb_profile.cpp:416-418 | which costs each bin counts, both ways |
| ProfileWindows.HistogramIsComplete | shell/cb_profile.cpp:415-418 | every warm block is in exactly one bin |
| ProfileWindows.BinCounts | shell/cb_profile.cpp:416-418 | a bin's count is the number of blocks whose cost lies in its own 10 000 cycles from 850 000 up, or below or above the range |
| ProfileWindows.WorstIsWorst | shell/cb_profile.cpp:463 | a window's worst is one of its blocks' costs and none is greater |
| ProfileWindows.MeanIsThousandth | shell/cb_profile.cpp:464-543 | a published mean is the thousandth part, cut off, of what the window's blocks spent on its figure |
| ProfileWindows.WindowNearlyConserves | shell/cb_profile.cpp:464-543 | where figures split another in every block of a window, their published means sum to its mean, less at most one cycle for each but the first |
| ProfileWindows.Meter.Count | shell/cb_profile.cpp:415-418 | block count and bins are those of the warm blocks so far, modulo 2^32 |
| ProfileWindows.Meter.Sum | shell/cb_profile.cpp:419-463 | the open window's sums and worst are those of its blocks |
| ProfileWindows.Meter.Publish | shell/cb_profile.cpp:464-543 | the published window is the means and the worst of exactly its thousand blocks, and the next one starts empty |
| ProfileWindows.Meter.BlockEnd | shell/cb_profile.cpp:371-543 | over every run of blocks the published window is the last complete thousand warm blocks; a cold block leaves no trace |
| ProfileWindows.MeansNearlyConserve | shell/cb_profile.cpp:464-543 | a window's truncated means sum to the mean of the whole, less at most one cycle a part but the first |
| ProfileHandover.Board.ReadOnce | shell/cb_profile.cpp:684-715 | one pass with the interrupt between any two reads: which window each field came from, and that the epochs agree exactly when a multiple of 2^32 windows was published |
| ProfileHandover.Board.ReadWindow | shell/cb_profile.cpp:682-715 | the loop leaves with the fields of one window, the one published when it leaves, and repeats only when the interrupt published |
| ProfileHandover.TornAtTheBound | shell/cb_profile.cpp:682-715 | with 2^32 windows in one pass the epochs agree and the copy is torn |
| ProfileRing.SlotOf | shell/cb_profile.cpp:547 | the wrapped counter and the true one name the same slot |
| ProfileRing.Ring.Write | shell/cb_profile.cpp:545-575 | the ring keeps the last 64 entries ever written |
| ProfileRing.Ring.Skip | shell/cb_profile.cpp:585-590 | exactly the entries the ring no longer holds are skipped and counted |
| ProfileRing.Ring.Copy | shell/cb_profile.cpp:593 | each field copied is that of the newest entry in the slot when it is read, and the copy is the entry as written unless 64 more were written by its end |
| ProfileRing.Ring.Report | shell/cb_profile.cpp:582-600 | printed and lost entries together are all written since the last report up to the sampled index, and each printed one is exact unless overtaken |
| PanelKnobs.LandedIsUnique | shell/controls.cpp:58-63 | a panel whose rows write distinct ids determines the knobs it lands in, alternates included |
| PanelKnobs.LandedInAnyOrder | shell/boot_take.cpp:44-52 | what a panel lands in does not depend on the order of its rows |
| PanelKnobs.PanelInAnyOrder | shell/boot_take.cpp:44-52 | nor does whether its rows write distinct ids |
| PanelKnobs.PotSpansRange | shell/controls.cpp:49-56 | a pot's travel is its knob's range, end to end and in proportion, and a knob that snaps goes to the whole value nearest |
| PanelKnobs.RoundIsNearest | shell/controls.cpp:55 | rounding is to the nearest whole value, halves away from zero |
| PanelKnobs.TargetFollowsOwnDeck | shell/controls.cpp:58-63 | a row writes its alternate exactly while its own deck's ENGINE knob rounds to the BBD's slot 4 |
| PanelBoot.SingleLands | shell/boot_patch.cpp:11-24 | a single pass lands every row where the final ENGINE values send it when ENGINE rows come before their deck's alternate rows |
| PanelBoot.TakeLands | shell/boot_take.cpp:44-52 | the boot take does so for every table |
| PanelBoot.TakeInAnyOrder | shell/boot_take.cpp:44-52 | the take gives the same knobs for every permutation of the rows |
| PanelBoot.SinglePassExactly | shell/boot_patch.cpp:11-24 | for every table the single pass agrees with the take if and only if each ENGINE row that comes after a row of its deck with an alternate leaves the deck's BBD state alone, or that row's values are in both its knobs already |
| PanelBoot.SinglePassAgrees | shell/boot_patch.cpp:11-24 | so it agrees when ENGINE rows come first |
| PanelBoot.SinglePassCanMiss | shell/boot_patch.cpp:11-24 | an ATTACK row ahead of the ENGINE row leaves STAGES unset, and agrees only where both knobs hold its value already |
| BootTake.WriteRow | shell/boot_take.cpp:27-38 | one row written at its target under the knobs as they stand |
| BootTake.StopsSnap | shell/scan_value.cpp:21-37 | a fresh pot reads exactly 0 and 1 within its pin's band of either stop, the place in the span between them, and nothing without a valid span |
| BootTake.FreshRises | shell/scan_value.cpp:10-37 | a pot turned further never reads less, and always 0..1 |
| BootTake.Take.constructor | shell/boot_take.cpp:10-15 | nothing collected, not done |
| BootTake.Take.Collect | shell/boot_take.cpp:10-15 | a reading of a row inside the table is kept until the take is done |
| BootTake.Take.Ready | shell/boot_take.cpp:17-23 | ready if and only if every row of a table that fits has been seen |
| BootTake.Take.Pass | shell/boot_take.cpp:47-50 | one pass over the ENGINE rows, or over the others |
| BootTake.Take.Apply | shell/boot_take.cpp:44-52 | the knobs are the take's, once, and untouched without a valid span |
| BootTake.ApplyBootPatch | shell/boot_patch.cpp:11-24 | the knobs are the single pass's and the number of rows written; -1 and nothing when the counts differ |
| BootTake.SendingRowsAre | shell/boot_patch.cpp:11-24 | the count handed back is that of the table's rows with a parameter |
| BootGate.BlocksDoNotMatter | shell/boot_take.cpp:54-71 | how a stretch of samples is cut into blocks does not matter |
| BootGate.MuteThenRampThenOpen | shell/boot_take.cpp:54-71 | silence up to the take, then sample j of 960 at j/960 of its level, then the engine's output |
| BootGate.GainRises | shell/boot_take.cpp:62-69 | the ramp never falls and stays in 0..1 |
| BootGate.OpenForGood | shell/boot_take.cpp:56 | opened, the gate never closes again |
| BootGate.Gate.Apply | shell/boot_take.cpp:54-71 | both channels of a block in place, and nothing beyond it |
| LedDuty.GammaTable.Build | control/led_law.hpp:97-102 | threshold k is where the curve's value reaches half a step below k |
| LedDuty.Tables.Get | control/led_law.hpp:110-116 | the table handed out is the one for the step count asked for |
| LedDuty.Tables.Duty | control/led_law.hpp:123-131 | the scan is the power law rounded onto the raster and lifted to one step, for any strictly rising curve |
| LedDuty.Threshold | control/led_law.hpp:87-92 | a value is at or past threshold k if and only if its curve value rounds to k or more |
| LedDuty.DutyIsMonotone | control/led_law.hpp:118-122 | a brighter intensity never gets a smaller duty, and any but none is visible and on the raster |
| LedDuty.NearestIsNearest | control/led_law.hpp:87-88 | a value rounds to the nearest step, halves up |
| LedDuty.FullIsTop | control/led_law.hpp:118-131 | fully lit, a curve that ends at 1 gives the last step of the raster, of at most 256 |
| LedDuty.LightIsRoundTrip | control/led_law.hpp:133-146 | rounding a light level is the power law of its inverse-curve image, on every level and every step count 2..256 |
| PanelKeys.MakeDepthTable | shell/controls.cpp:20-31 | the table holds for every parameter the depth of its first MOD-layer row, -1 without one |
| PanelKeys.FirstMatch | shell/controls.cpp:11-14 | that value is what walking the rows would find |
| PanelKeys.LatchedPotLeavesSound | shell/controls.cpp:65-72 | with the latch on a pot with a depth twin writes its twin, or nothing exactly while its alternate is on show |
| PanelKeys.TwinsAreDistinct | control/params.hpp:177-228 | no two faces share a twin |
| PanelKeys.TwinsAreNamesakes | control/params.hpp:177-228 | the depth of every face is the parameter of its own name on its own deck, and no other parameter has one |
| PanelKeys.PotWrites | shell/controls.cpp:65-72 | with the latch off a pot writes where its row does; with it on its face's namesake, nothing while its alternate is on show, and where its row does if the face has no depth |
| PanelKeys.ClearModLayer | control/mod_clear.hpp:19-21 | every depth twin is cleared in place |
| PanelKeys.ClearedIs | control/mod_clear.hpp:6-17 | clearing reaches exactly the depth block |
| PanelKeys.ClearedAtNoon | control/mod_clear.hpp:6-10 | every depth but the texture ones ends at noon, those at their init positions |
| PanelKeys.ApplyKeyEdges | shell/controls.cpp:74-102 | the knobs after the keys pressed, and exactly when the latch changed and when the layer was cleared |
| PanelKeys.KeysLeaveSound | shell/controls.cpp:74-102 | no key turns a knob of the sound, and with SHIFT held none turns the latch |
| PanelKeys.KeysFlipTheirOwn | shell/controls.cpp:81-100 | each press flips its own knob between 0 and 1: REC of its deck, or the latch without SHIFT |

## Left out

- IEEE rounding: gains, periods, tempos and pot values are reals; the argument that the bloom ride does not stall in floating point is not modelled.
- Stamp width: the clock law's sample counts are unbounded, where the source counts in 64 bits and hands over 32-bit sample counts and restart ages.
- The engines, `Part`, `Center`, the lanes, the reverb kernel and the limiter are abstract machines with the interface the mix loop and the control law use; `Instrument::restart` (transport, lanes and the songs of STEP decks), `reset_transport` and the tempo and pace setters act inside them and are not modelled.
- The control law's value arithmetic (tapers, `mv` and its PAN mirror, the GRIT and COUPLE zones) is one abstract function of the tick's inputs and the lane frame; which value goes to which field, in which order and under which engine is modelled.
- The lamp observers of the mix loop, the probe, toggle and reverb-inject builds, and builds without the deck bus.
- `fill`, `flash_step` and the flash lengths of the lamp law: timers whose numbers are by-eye candidates.
- The engine-split figures of the profile, its running sums and maxima since boot, the window's count of worst-at-the-end samples, and the text of the reports; compiler fences and volatile accesses are taken as the order of reads and writes.
- `find_control`, the panel scan, the pot filter after its first reading, image guards, transports and everything under `bench/` but the digest.
- LawRefines.CacheIsInvisible: takes from the source that a setter is an idempotent store with no other writer, that an audio block may overwrite a deck's fields only when a switch lands on another engine, and that the host hook touches only the sound engine; bits are compared as opaque values, so signed zeros and NaNs are distinct or equal as bits.
- LawEdges.DetentLands: on real positions, so the hysteresis margin that absorbs rounding is never needed.
- MixLoop.Instrument.constructor: takes the bloom's decays and the CHOKE follower's rates as given, where the source computes them as exponentials; that they lie in 0..1 is what the theorems use.
- MixRuns.MemosAreInvisible: of setters of the centre section, only those that leave the pan gains alone until the next control tick.
- ProfileBlock.Profile.ProbeBlock: of a block of at least one sample; the source indexes sample 0 of the stamps in any case.
- ProfileHandover.Board.ReadWindow: with fewer than 2^32 windows inside one pass; the bound is exact, and a loop that never meets a quiet pass is reported as not done.
- ProfileRing.Ring.Report: with fewer than 2^32 entries between two reports.
- BootTake.Take.Apply: of tables whose alternate ids stand on rows of a deck's own block and are no ENGINE knob, which holds of every shipped table.
- LedDuty.Tables.Duty: of a curve with an exact inverse on 0..1, where the source takes both from the same floating-point power function.
- Sha256.Sha256Hex: of bytes that do not change while they are read, where the source reads a volatile image.
