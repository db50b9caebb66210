# Verified model of wiresock-boringtun

Models, in Dafny, of the parts of wiresock-boringtun whose correctness is about state, order and
interleaving rather than about cryptography, with proofs of what they are for. `dafny verify
dfyconfig.toml` checks everything.

Nondeterminism is data. A schedule of threads, a script of faults, a stream of reads and writes
or a history of requests is a list; each component has a total step function in which a step its
actor cannot take changes nothing; so a statement about every list is one about every run. Where
the source updates state in place, a class with the source's fields has methods proved against
that step function.

| files | component | what is proved of it |
|---|---|---|
| `ProbeBudget`, `ProbeWorkers` | the shared byte budget for answers to unauthenticated probes | 32-bit packing loses nothing; the lazy refill is a ticking bucket to every caller; the ceiling over any window, for any number of workers racing on one word |
| `DeviceLock`, `DeviceLockDrain`, `DeviceLockSolo` | the read lock with an upgrade intent | mutual exclusion, no lost wake-up, one mutation per upgrade and one lowering per raise, panics included; no call gives up; every drain terminates and empties the lock; a read or an upgrade alone runs through |
| `Publication`, `PublicationSafety`, `PublicationFaults`, `PublicationPolicy`, `ReleaseText`, `ReleaseAcceptance`, `PublicationBodies`, `Base64` | crash-safe immutable publication of releases | only legal mutations under any faults, which decide the verdict exactly; no false verdict on any state found; a rerun settles from every reachable state, exactly when it should; the body text carries its descriptor back, and exactly which texts are accepted |
| `Framing`, `Transport`, `TransportRuns`, `TransportSessions`, `TransportClosing` | the UAPI connection | frames handled are the unique split of the stream; replies whole and in order; absolute deadlines; exactly when a connection closes |
| `SlotTable`, `Kqueue`, `Epoll` | the event registries | table, kernel and guards hold the same handlers after every interleaving; one-shot guards exclusive; exactly when a registration is safe |
| `HintCache` | camouflage evidence by source | map and queue are a naive timed list after every history; an answer is the first live evidence |
| `PeerConnection`, `PeerUpgrades` | a peer's connected socket and its lifetime token | a token is current exactly while its socket is in use, and never again after; every outcome of an upgrade, and that it follows the peer |
| `JavaStrings` | Java strings entering native code | exact result for every UTF-16 string |
| `AwgConfig`, `AwgRules`, `UapiText`, `UapiSet` | AmneziaWG interface settings | `get=1` text restores every reachable configuration; exactly which settings and texts are accepted |
| `PeerSections`, `PeerRequests` | peer sections of `set=1` | the streaming parser equals reading each section on its own; written requests are read back |

`Prelude` and `Decimals` hold what several components share.

Where the code and its comments differ the model follows the code: a comment in `api_set`
(boringtun/src/device/api.rs) says that turning cookies back on over an amplifying S3 is not
acceptable; `merged` only warns about it, and so the model accepts it.

Two statements hold only under a condition the code cannot check by itself, and are stated with
it, both ways. Registering over a descriptor is safe across all interleavings exactly when no
guard for it is live and, because kqueue arms the new handler before it stores it, no WRITE filter
of a displaced stream is armed; the source relies on handlers owning their descriptors. A body is
read back exactly when it is below the reader's limit, which the renderer does not check.

## Model

| member | source | states |
|---|---|---|
| `ProbeBudget.PackRoundTrip` | boringtun/src/device/probe_budget.rs:83-89 | a balance and a stamp packed into one 64-bit word both come back unchanged |
| `ProbeBudget.ClampIsExactlyTheLosslessRange` | boringtun/src/device/probe_budget.rs:61-70 | a full bucket survives narrowing to 32 bits if and only if the rate is within the clamp |
| `ProbeBudget.NoSaturation` | boringtun/src/device/probe_budget.rs:152-208 | within the clamp no saturating operation saturates, and the balance found is the refilled one up to the cap |
| `ProbeBudget.TryIsLossless` | boringtun/src/device/probe_budget.rs:177-206 | an attempt stores the exact balance left, stamped with its clock reading, admits exactly when the balance covers the request, and keeps the word well formed |
| `ProbeBudget.LaggingReadEarnsNothing` | boringtun/src/device/probe_budget.rs:177-206 | a clock read behind the stored stamp is refilled nothing |
| `ProbeBudget.LazyRefillIsTicking` | boringtun/src/device/probe_budget.rs:177-206 | the lazy refill from the stored stamp equals a bucket that ticks every millisecond |
| `ProbeBudget.VerdictAgrees` | boringtun/src/device/probe_budget.rs:177-206 | one lazy attempt and the ticking bucket agree on the verdict and on the balance left |
| `ProbeBudget.LazyEqualsIdeal` | boringtun/src/device/probe_budget.rs:177-206 | for every request sequence and every choice of which refusals store their refilled word, all verdicts equal the ticking bucket's |
| `ProbeBudget.WantNoneMeansTooBig` | boringtun/src/device/probe_budget.rs:152-164 | a request is refused before the loop if and only if no full bucket could serve it |
| `ProbeBudget.RaceActsOnce` | boringtun/src/device/probe_budget.rs:152-208 | whatever rivals do, a call's verdict and effect are those of one attempt, on a word still in place; a refusal that meets a rival's word leaves it alone |
| `ProbeBudget.Budget.constructor` | boringtun/src/device/probe_budget.rs:92-111 | a new budget has the clamped rate and a full, correctly packed bucket |
| `ProbeBudget.Budget.Consume` | boringtun/src/device/probe_budget.rs:152-208 | the compare-exchange loop, against any script of rival writes and clock readings, admits and leaves the word as the recursive race does; an oversized request changes nothing |
| `ProbeWorkers.StepKeepsInv` | boringtun/src/device/probe_budget.rs:122-208 | no worker's step moves the stored stamp back or past the clock |
| `ProbeWorkers.RunKeepsInv` | boringtun/src/device/probe_budget.rs:122-208 | the same over every interleaving of any number of workers |
| `ProbeWorkers.AdmissionKeepsLog` | boringtun/src/device/probe_budget.rs:177-206 | an admission through the shared word keeps every slice of the admission log within what its time span earns |
| `ProbeWorkers.AggregateCeiling` | boringtun/src/device/probe_reply.rs:161-249 | after any schedule, bytes admitted, and bytes returned as replies, with stamps in any window of D ms are within one second's allowance plus the window's earnings, each admission answered at most once |
| `ProbeWorkers.AdmissionsAreDue` | boringtun/src/device/probe_reply.rs:161-249 | every admission ever made was for a datagram due an answer, for exactly the bytes of the reply due |
| `ProbeWorkers.DueIsAnswered` | boringtun/src/device/probe_reply.rs:161-249 | a datagram is answered by a worker left alone if and only if it is due an answer and the ticking bucket covers its reply |
| `ProbeWorkers.NotDueIsSilent` | boringtun/src/device/probe_reply.rs:161-197 | a datagram not due an answer leaves the whole system as it was |
| `ProbeWorkers.OnlyTheBudgetRefuses` | boringtun/src/device/probe_budget.rs:177-206 | an exchange lost to a rival drops nothing: the worker tries again on the word found, and is refused only for want of tokens |
| `ProbeWorkers.ClockIsTime` | boringtun/src/device/probe_budget.rs:113-115 | the clock every attempt reads is the time that has passed over the schedule |
| `DeviceLock.StepKeepsInv` | boringtun/src/device/dev_lock.rs:28-133 | every primitive step of `read`, `try_writeable`, guard drop and both closures, panicking or not, keeps the lock's invariant, the record of each call included |
| `DeviceLock.RunKeepsInv` | boringtun/src/device/dev_lock.rs:28-133 | so does every schedule |
| `DeviceLock.Exclusion` | boringtun/src/device/dev_lock.rs:28-109 | in every reachable state one thread at most owns the intent, nobody reads or writes beside a thread in `mut_func`, and `mut_func` starts from the value `prep_func` saw |
| `DeviceLock.ValueChangesOnlyInMut` | boringtun/src/device/dev_lock.rs:68-109 | the value changes only by the thread inside `mut_func`, while no other holds any lock |
| `DeviceLock.EveryUpgradeMutatesOnce` | boringtun/src/device/dev_lock.rs:68-109 | after any schedule every finished upgrade ran `prep_func` once and, unless that panicked, entered `mut_func` exactly once; while a caller still owns the intent after it wrote, the value is what it wrote |
| `DeviceLock.NoLostWakeup` | boringtun/src/device/dev_lock.rs:36-39 | with the intent down and no wake-up under way nobody sleeps on the condvar, and a read lock taken under the mutex or by the intent's owner is free |
| `DeviceLock.ReadNeverBlocks` | boringtun/src/device/dev_lock.rs:36-40 | the read lock taken under the mutex never blocks |
| `DeviceLock.IntentLoweredOncePerRaise` | boringtun/src/device/dev_lock.rs:112-133 | however the closures end, a finished call lowered its intent exactly as often as it raised it |
| `DeviceLock.CallsEndInGuards` | boringtun/src/device/dev_lock.rs:28-133 | over any schedule a thread inside `read` or `try_writeable` stays inside that call until it holds its guard: no call gives up |
| `DeviceLockDrain.FinishingUsesFuel` | boringtun/src/device/dev_lock.rs:28-133 | every enabled step that finishes begun work strictly decreases a measure, the wake-up of all sleepers included |
| `DeviceLockDrain.NotStuck` | boringtun/src/device/dev_lock.rs:28-133 | while any thread is inside the lock code or holds a guard, some thread can take a finishing step |
| `DeviceLockDrain.DrainIsBounded` | boringtun/src/device/dev_lock.rs:28-133 | the length of a drain is bounded by the measure it started with |
| `DeviceLockDrain.DrainEmptiesTheLock` | boringtun/src/device/dev_lock.rs:28-133 | from every reachable state, panics included, a drain that cannot go on has every thread out, the intent down, the mutex free and raises equal to lowerings |
| `DeviceLockSolo.ReadAlone` | boringtun/src/device/dev_lock.rs:28-41 | from an empty lock a read runs through to a guard, and dropping the guard empties the lock again |
| `DeviceLockSolo.UpgradeAlone` | boringtun/src/device/dev_lock.rs:68-133 | from any state where one thread holds a guard and the rest are out, its upgrade ends with the guard again and the value its `mut_func` wrote, whether that returned or panicked |
| `DeviceLockSolo.PanickedPrepAlone` | boringtun/src/device/dev_lock.rs:68-133 | an upgrade whose `prep_func` panics ends with the guard and the value it began with |
| `Publication.Destination.CreateDraft` | scripts/boringtun_release.py:323-337 | creating a draft under each kind of fault has exactly the modelled effect on the destination |
| `Publication.Destination.UploadAsset` | scripts/boringtun_release.py:339-351 | uploading an asset under each kind of fault has exactly the modelled effect |
| `Publication.Destination.PublishDraft` | scripts/boringtun_release.py:352-364 | publishing under each kind of fault has exactly the modelled effect |
| `Publication.Destination.PublishComplete` | scripts/boringtun_release.py:352-364 | the publication stage, its read-back included, ends with the specified verdict and destination |
| `Publication.Destination.UploadAndPublish` | scripts/boringtun_release.py:339-364 | the upload loop with its re-reads, for every fault script, ends with the specified verdict and destination |
| `Publication.Destination.PublishRelease` | scripts/boringtun_release.py:266-364 | a whole run, for every fault script, ends with the specified verdict and destination |
| `PublicationSafety.LegalPreserves` | scripts/boringtun_release.py:225-251 | a legal mutation neither removes nor replaces an asset nor alters a published release |
| `PublicationSafety.LegalKeepsInv` | scripts/boringtun_release.py:225-251 | a legal mutation keeps every release traceable to the descriptor its body records |
| `PublicationSafety.UploadStageIsLegal` | scripts/boringtun_release.py:339-356 | whatever faults occur, each upload adds a missing asset with the digest the descriptor demands, RELEASE.json first, and publication meets only a complete draft |
| `PublicationSafety.CreateStageIsLegal` | scripts/boringtun_release.py:323-356 | so does a run that creates its draft |
| `PublicationSafety.RunIsLegal` | scripts/boringtun_release.py:266-364 | every mutation a run attempts is legal where it is attempted, whether it takes effect, is refused or goes unanswered; a dry run attempts none |
| `PublicationSafety.RunsKeepInv` | scripts/boringtun_release.py:225-251 | after any runs with any faults each draft is empty or holds RELEASE.json, and holds nothing its recorded descriptor does not name |
| `PublicationSafety.HistoryPreserves` | scripts/boringtun_release.py:225-251 | over whole histories no asset is replaced or removed and no published release altered |
| `PublicationSafety.UploadsConverge` | scripts/boringtun_release.py:339-364 | undisturbed, the upload loop fills in exactly what is missing and publishes exactly the files |
| `PublicationSafety.CreateConverges` | scripts/boringtun_release.py:323-364 | an undisturbed creating run publishes if and only if the rendered body yields its descriptor back, and without a body leaves the destination as it was |
| `PublicationSafety.ReleasePlan` | scripts/boringtun_release_policy.py:370-404 | over an existing release the plan is to stop, report already published, or resume with the recorded descriptor, decided exactly by stable content |
| `PublicationSafety.RerunSettles` | scripts/boringtun_release.py:266-364 | from every state any faulty history leaves, a fault-free rerun succeeds if and only if it agrees with the recorded descriptor on stable content (or starts a fresh recoverable release), keeps the first descriptor and body, and otherwise leaves an existing release as it was |
| `PublicationFaults.UploadsUnderFaults` | scripts/boringtun_release.py:339-364 | the upload loop under any fault script ends as without faults if every mutation attempted took effect, and fails otherwise |
| `PublicationFaults.CreateUnderFaults` | scripts/boringtun_release.py:323-364 | so does a run that creates its draft |
| `PublicationFaults.FaultsDecide` | scripts/boringtun_release.py:266-364 | a run under any fault script has the verdict and the destination of the undisturbed run if every mutation it attempted took effect, answered or not, and fails if one was refused or the run died at it |
| `PublicationFaults.LostResponsesAreMadeGood` | scripts/boringtun_release.py:266-364 | losing any of the responses, and only those, changes neither verdict nor destination |
| `PublicationPolicy.AssetsAreDistinct` | scripts/boringtun_release_policy.py:360-367 | a descriptor passes its check if and only if its release has two assets more than archives: the archives as they are, their checksum list and the descriptor itself |
| `PublicationPolicy.ActionOnReached` | scripts/boringtun_release_policy.py:370-404 | over every release any runs left: no action unless the stable content agrees; a draft is resumed only by its very descriptor once that is uploaded; a published release is already there; without a release the action is to create |
| `PublicationPolicy.PlanOnAnyState` | scripts/boringtun_release.py:266-319 | over any destination at all, reached or not, a release under the tag stops the run unless every part of it is what the signed descriptor in its body demands; then it is reported if published and resumed under that descriptor if not, whether the descriptor was found in the asset or in the body |
| `PublicationPolicy.VerdictsAreTrue` | scripts/boringtun_release.py:266-364 | on any destination and under any faults: published is reported only with the release out and complete under a signed descriptor of the same stable content, already-published only for one out before with nothing attempted, and a job that fails its own checks attempts nothing |
| `PublicationPolicy.ResponseIsBound` | scripts/boringtun_release.py:255-264 | a create response is used if and only if it is the numbered, empty draft with the body asked for |
| `PublicationBodies.ReadBack` | scripts/boringtun_release.py:186-222 | a rendered body reads back as its descriptor if and only if it is below 64 KiB, and as nothing otherwise |
| `PublicationBodies.BodiesAreHonest` | scripts/boringtun_release.py:186-222 | rendered bodies never yield a foreign descriptor, which discharges what the publication proofs assume of bodies |
| `PublicationBodies.RenderedReleasesSettle` | scripts/boringtun_release.py:266-364 | convergence restated with the real renderer and reader in place; a descriptor that cannot be rendered creates nothing |
| `ReleaseText.BareMarkerRoundTrip` | scripts/boringtun_release.py:164-166 | the bare marker form of a body reads back as its descriptor when below the size limit |
| `ReleaseText.ReadMarkerOf` | scripts/boringtun_release.py:197-222 | digest, base64 and canonical re-encoding checks all pass on a marker that was written, and return its descriptor |
| `ReleaseText.FindMarkerIn` | scripts/boringtun_release.py:197-222 | in any text of the rendered shape the counting and cutting steps isolate exactly the marker |
| `ReleaseText.BodyRoundTrip` | scripts/boringtun_release.py:169-222 | for every descriptor and every accepted prose, reading the rendered body returns the descriptor if and only if the body is below 64 KiB |
| `ReleaseAcceptance.AcceptedExactly` | scripts/boringtun_release.py:197-222 | a body is accepted with a descriptor if and only if it is below 64 KiB and is that descriptor's marker alone, or prose without either key followed by the body's only comment, a metadata block around exactly that marker |
| `ReleaseAcceptance.AcceptedLines` | scripts/boringtun_release.py:214-222 | an accepted body's marker has two lines, the digest of the returned descriptor's canonical bytes and those bytes; a differing digest line is refused |
| `ReleaseAcceptance.SampleIsSound` | scripts/boringtun_release.py:164-166 | the assumptions on serialisation and digests can be met |
| `ReleaseText.ProseExactly` | scripts/boringtun_release.py:169-174 | prose in ASCII is accepted if and only if it has 1 to 20000 characters, no angle bracket and neither metadata key |
| `ReleaseText.LineBreaks` | scripts/boringtun_release.py:214-214 | a carriage return and line feed break a line together, and every other line end by itself |
| `Base64.OneIsPositional` | scripts/boringtun_release.py:166-166 | one byte is written as two digits, the spare bits zero, and two padding characters |
| `Base64.TwoArePositional` | scripts/boringtun_release.py:166-166 | two bytes are written as three digits, the spare bits zero, and one padding character |
| `Base64.ThreeArePositional` | scripts/boringtun_release.py:166-166 | three bytes are written as the four base-64 digits of their 24 bits |
| `Base64.DecodeEncode` | scripts/boringtun_release.py:164-166 | base64 (section 4 of RFC 4648) decodes to the bytes it encoded, for every length |
| `Framing.SplitIsUnique` | boringtun/src/device/api_transport.rs:84-91 | a stream has one split into frames ending at their first blank line |
| `Framing.FramesGrow` | boringtun/src/device/api_transport.rs:84-91 | more bytes never change the frames already complete |
| `Framing.FrameText` | boringtun/src/device/api_transport.rs:84-91 | a frame ends with its first blank line |
| `TransportRuns.ResumedSearch` | boringtun/src/device/api_transport.rs:84-91 | resuming the search at the remembered position finds what a search from zero finds |
| `TransportRuns.ScanSurvivesAppend` | boringtun/src/device/api_transport.rs:84-91 | the position remembered after a failed search stays valid whatever is appended |
| `TransportRuns.WriteAllWhole` | boringtun/src/device/api_transport.rs:31-44 | the response buffer holds all pieces or shows overflow, never a cut piece |
| `TransportRuns.ReplyIsWhole` | boringtun/src/device/api_transport.rs:93-119 | a reply is the whole body with its errno or the overflow status alone, and fits the limit |
| `TransportRuns.StepCases` | boringtun/src/device/api_transport.rs:128-195 | a dispatch either stalls, finishes writing and closes, or serves input with a settled connection |
| `Transport.Connection.constructor` | boringtun/src/device/api_transport.rs:60-76 | a new connection's deadlines and buffers |
| `Transport.Connection.FrameEnd` | boringtun/src/device/api_transport.rs:84-91 | the incremental search loop finds the first terminator from the scan position and moves that position to the last byte |
| `Transport.Connection.WritePieces` | boringtun/src/device/api_transport.rs:31-44 | the bounded writes accumulate as specified |
| `Transport.Connection.RespondWith` | boringtun/src/device/api_transport.rs:93-101 | composing a reply starts the write deadline and falls back to the overflow status |
| `Transport.Connection.Process` | boringtun/src/device/api_transport.rs:103-119 | handling a frame consumes exactly it, answers it as its first line asks, resets the scan and keeps the read deadline only for remaining input |
| `Transport.Connection.Refuse` | boringtun/src/device/api_transport.rs:121-126 | an oversized request is dropped, answered with E2BIG and the connection set to close |
| `Transport.Connection.Dispatch` | boringtun/src/device/api_transport.rs:128-195 | one dispatch over any I/O outcome ends in the specified state with the specified action |
| `TransportSessions.AdvanceKeepsInv` | boringtun/src/device/api_transport.rs:128-227 | every dispatch and watchdog round keeps the session invariant |
| `TransportSessions.FramesAreTheSplit` | boringtun/src/device/api_transport.rs:84-195 | for every chunking and write schedule the frames handled are the first frames of the stream's split, complete whenever no reply is pending, and E2BIG is produced if and only if the bytes after them reach the limit, which then hold no terminator |
| `TransportSessions.DeliveryIsInOrder` | boringtun/src/device/api_transport.rs:93-158 | bytes delivered are a prefix of the replies in order, one per frame, each whole and within the limit: the device's dump and status for a get, the status of applying it for a set, EIO for any other frame, as given at the dispatch that handled it; a listener connection answers at most once |
| `TransportSessions.DeadlinesFollowWork` | boringtun/src/device/api_transport.rs:69-82 | the write deadline runs if and only if output is pending; on an inherited connection not closing the read deadline runs if and only if input is buffered; idle it never times out |
| `TransportSessions.DeadlineStartsWithFirstByte` | boringtun/src/device/api_transport.rs:160-176 | a read deadline starts only with the first byte of an empty buffer, one timeout ahead |
| `TransportSessions.DeadlineNeverMoves` | boringtun/src/device/api_transport.rs:128-195 | in every state, a reply pending or not, an event leaves a read deadline where it is or lifts it with nothing left buffered |
| `TransportSessions.TricklingCannotExtend` | boringtun/src/device/api_transport.rs:128-195 | over any run from any state a read deadline stands unmoved until the buffer is emptied, and while it stands no dispatch with nothing to send serves the connection at or after it |
| `TransportSessions.WaitingEndsByDeadline` | boringtun/src/device/api_transport.rs:128-195 | over any run a request waited for is answered or its connection closed, or every dispatch so far came before its deadline, which still stands |
| `TransportClosing.ClosesExactly` | boringtun/src/device/api_transport.rs:128-195 | a dispatch closes the connection if and only if it is expired or past its running deadline, its write fails or takes nothing, its last reply is out, or with no request complete the read fails or meets the end; otherwise it asks to be woken for writing if and only if a reply is pending |
| `TransportClosing.WatchdogDecides` | boringtun/src/device/api_transport.rs:196-222 | a watchdog round at or past the running deadline makes the next dispatch close with nothing sent or handled, whatever the socket offers; an earlier round changes nothing |
| `TransportClosing.SessionsCloseForAReason` | boringtun/src/device/api_transport.rs:128-227 | over any session, closed means a dispatch met one of those reasons and expired means a watchdog round found the deadline past, and conversely |
| `TransportClosing.FirstRequestDeadline` | boringtun/src/device/api_transport.rs:60-76 | an accepted client has five seconds from its connection on for a whole request: until one is answered the deadline stands, whatever bytes arrive, and a dispatch at or past it closes |
| `SlotTable.GrowKeepsSlots` | boringtun/src/device/epoll.rs:651-656 | growing the table to an index changes no entry |
| `Kqueue.FailedRegistrationChangesNothing` | boringtun/src/device/kqueue.rs:246-330 | a refused registration leaves every slot, the kernel's filters and the guards as they were; a stream is refused with EEXIST if and only if its slot is taken |
| `Kqueue.ArmingNeedsQuiet` | boringtun/src/device/kqueue.rs:304-330 | arming a handler keeps the registry consistent if and only if no guard for the descriptor is live and no displaced WRITE filter is armed |
| `Kqueue.RegistrationCompletes` | boringtun/src/device/kqueue.rs:246-373 | whatever is delivered, switched or re-armed between arming and storing, a registration ends with its own handler stored, WRITE present exactly for a stream, and the registry consistent |
| `Kqueue.SafeIffQuiet` | boringtun/src/device/kqueue.rs:246-373 | a registration ends consistently whatever other threads do between its halves if and only if no guard for the descriptor is live and no displaced WRITE filter is armed |
| `Kqueue.RegistrationNeedsNoGuard` | boringtun/src/device/kqueue.rs:331-373 | a registration with nothing in between keeps the registry consistent if and only if no guard for the descriptor is live |
| `Kqueue.ArmedWriteBreaksRegistration` | boringtun/src/device/kqueue.rs:331-373 | a disciplined run reaches a stream with no guard live and WRITE armed, over which registering is not safe |
| `Kqueue.LiveGuardBreaksRegistration` | boringtun/src/device/kqueue.rs:331-373 | a disciplined run reaches a state with a live guard, where registering again breaks the registry and the guard's drop makes the filter report the displaced handler |
| `Kqueue.StepKeepsInv` | boringtun/src/device/kqueue.rs:216-490 | arm, store, deliver, switch, re-arm, cancel and clear keep handlers, filters and guards in agreement |
| `Kqueue.TableMatchesKernel` | boringtun/src/device/kqueue.rs:246-490 | after any interleaving a live guard holds the registered handler and is the only one, exactly one filter is armed without a guard and none with one, filters report their handler, and outside a registration a slot holds a stream if and only if both filters exist |
| `Kqueue.DispatchRoundTrip` | boringtun/src/device/kqueue.rs:460-484 | after a dispatch the filter armed again is the one the guard last asked for |
| `Kqueue.ClearRemoves` | boringtun/src/device/kqueue.rs:427-450 | clearing a descriptor leaves no slot and no filter for it, whatever was registered, and nothing else changes |
| `Kqueue.CancelRemoves` | boringtun/src/device/kqueue.rs:486-490 | cancelling a guard does the same for its descriptor and ends the guard |
| `Kqueue.EventPoll.ArmEvent` | boringtun/src/device/kqueue.rs:246-330 | the first half of registration has the specified effect and outcome for every kernel answer |
| `Kqueue.EventPoll.StoreEvent` | boringtun/src/device/kqueue.rs:331-366 | the second half removes a displaced stream's WRITE filter and stores the handler |
| `Kqueue.EventPoll.RegisterEvent` | boringtun/src/device/kqueue.rs:246-373 | registration with any steps of other threads between its halves ends with its handler stored, or refused with nothing changed |
| `Kqueue.EventPoll.Wait` | boringtun/src/device/kqueue.rs:216-243 | a delivery disarms its filter and returns a guard for the handler registered, stored already or not |
| `Kqueue.EventPoll.NotifyWritable` | boringtun/src/device/kqueue.rs:482-484 | a guard records which readiness to arm, keeping the registry consistent |
| `Kqueue.EventPoll.DropGuard` | boringtun/src/device/kqueue.rs:460-479 | dropping a guard arms exactly the desired filter |
| `Kqueue.EventPoll.ClearEventByFd` | boringtun/src/device/kqueue.rs:427-450 | clearing empties the slot and removes every filter it had |
| `Kqueue.EventPoll.CancelGuard` | boringtun/src/device/kqueue.rs:486-490 | cancelling leaves no slot, filter or guard and re-arms nothing |
| `Epoll.StepKeepsInv` | boringtun/src/device/epoll.rs:489-800 | every step keeps slots, kernel entries and guards in agreement, also between storing a handler and adding it |
| `Epoll.TableMatchesKernel` | boringtun/src/device/epoll.rs:489-800 | after any interleaving the kernel knows a descriptor if and only if its slot is taken and its registration finished, and it and every live guard hold the stored handler; one-shot events are armed if and only if no guard is live, and have at most one |
| `Epoll.RegistrationIsAllOrNothing` | boringtun/src/device/epoll.rs:489-587 | whatever other threads do in between, a registration ends stored and armed, or, refused, with no handler behind |
| `Epoll.RegistrationNeedsNoGuard` | boringtun/src/device/epoll.rs:639-670 | registering another handler over a descriptor, accepted or refused, one-shot or notifier, keeps the registry consistent if and only if no guard for it is live |
| `Epoll.SafeIffFree` | boringtun/src/device/epoll.rs:489-587 | a registration ends consistently whatever other threads do between its halves if and only if no guard for the descriptor is live |
| `Epoll.LiveGuardBreaksRegistration` | boringtun/src/device/epoll.rs:639-670 | a disciplined run reaches a state with a live guard, where registering again, notifier or not, breaks the registry and the guard's drop makes the kernel report the displaced handler |
| `Epoll.DispatchRoundTrip` | boringtun/src/device/epoll.rs:754-800 | a delivered one-shot event is armed again for the readiness its guard last asked |
| `Epoll.ClearRemoves` | boringtun/src/device/epoll.rs:731-745 | clearing a descriptor leaves no slot and no kernel entry for it, and nothing else changes |
| `Epoll.CancelRemoves` | boringtun/src/device/epoll.rs:782-785 | cancelling a guard does the same for its descriptor and ends the guard |
| `Epoll.EventPoll.InsertEvent` | boringtun/src/device/epoll.rs:639-670 | storing a handler grows the table and removes a displaced one from the kernel first |
| `Epoll.EventPoll.FinishRegistration` | boringtun/src/device/epoll.rs:539-584 | the kernel's answer arms the stored handler, or empties its slot |
| `Epoll.EventPoll.RegisterEvent` | boringtun/src/device/epoll.rs:489-587 | registration with any steps of other threads between its halves stores and arms the new handler, or leaves none |
| `Epoll.EventPoll.ClearEventByFd` | boringtun/src/device/epoll.rs:731-745 | clearing empties the slot and the kernel entry |
| `HintCache.ExpiryIsExact` | boringtun/src/device/imitation_auto.rs:28-36 | popping only expired fronts leaves exactly the live hints |
| `HintCache.StepKeepsInv` | boringtun/src/device/imitation_auto.rs:21-115 | every operation keeps queue and map with the same keys, no duplicates, ordered by age, at most 1024 |
| `HintCache.EvictionIsExact` | boringtun/src/device/imitation_auto.rs:82-98 | a hint is evicted if and only if a source without a live one is recognised while 1024 are live, and then it is the first live item in order of arrival, none younger |
| `HintCache.StepRefines` | boringtun/src/device/imitation_auto.rs:21-115 | every operation on map and queue is the naive timed list's: filter all expired, append at the end, drop the first when full, filter by source; the source evicted included |
| `HintCache.CacheIsNaiveList` | boringtun/src/device/imitation_auto.rs:15-115 | after every history map and queue hold exactly the naive list's items in its order, at most 1024, and `get` is a lookup in it |
| `HintCache.AnswerIsFirstLiveEvidence` | boringtun/src/device/imitation_auto.rs:82-115 | that lookup is the source's first observation not since expired, evicted from the naive list, discarded or cleared, and nothing otherwise |
| `HintCache.EvidenceLasts` | boringtun/src/device/imitation_auto.rs:28-36 | new evidence is found for thirty seconds after it was stored and no longer |
| `HintCache.ImitationHints.PopFront` | boringtun/src/device/imitation_auto.rs:22-26 | the oldest source leaves queue and map together |
| `HintCache.ImitationHints.ExpireFront` | boringtun/src/device/imitation_auto.rs:28-36 | the loop, reading the clock at every turn, ends as one exact expiry at its last reading; its map lookup never misses |
| `HintCache.ImitationHints.Record` | boringtun/src/device/imitation_auto.rs:82-98 | observing, with clock readings in order and the stamp last, has the specified effect and keeps the invariant |
| `HintCache.ImitationHints.Get` | boringtun/src/device/imitation_auto.rs:100-104 | the answer is the lookup among the live items of the naive list |
| `HintCache.ImitationHints.Forget` | boringtun/src/device/imitation_auto.rs:106-111 | discarding removes the source from the map and every occurrence from the queue |
| `HintCache.ImitationHints.Clear` | boringtun/src/device/imitation_auto.rs:113-115 | clearing empties both |
| `PeerConnection.StepKeepsInv` | boringtun/src/device/peer.rs:192-312 | upgrade, roam, endpoint change and shutdown keep the committed socket owned by the last token's handler and connected to the endpoint |
| `PeerConnection.CurrentIffOwnSocket` | boringtun/src/device/peer.rs:411-433 | after any run a handler's token is current if and only if its own socket is the committed one, and at most one is current |
| `PeerConnection.RetiredForever` | boringtun/src/device/peer.rs:411-433 | a token once not current is never current again |
| `PeerConnection.RoamAndReturn` | boringtun/src/device/peer.rs:232-258 | leaving the address, by a roam or a new endpoint, retires the handler whatever follows, a return to that address included |
| `PeerConnection.ShutdownRetires` | boringtun/src/device/peer.rs:192-201 | a shutdown, or a fresh listener socket, leaves the peer without a socket, and no token minted so far is ever current again |
| `PeerUpgrades.UpgradeOutcome` | boringtun/src/device/mod.rs:2073-2186 | an upgrade for every answer of the system: none unless listener and peer may; one new current handler on a fresh socket connected to the endpoint; or the shared socket kept, no handler current, with the listener latched for exhaustion or a refused registration and the peer suppressed otherwise |
| `PeerUpgrades.GivenUp` | boringtun/src/device/mod.rs:2073-2186 | after an upgrade that failed, the same listener tries no more at this address |
| `PeerUpgrades.EndpointIsSet` | boringtun/src/device/peer.rs:202-258 | a new endpoint is stored canonically; a change drops the socket, forgives the peer and restarts the window, and the same one changes nothing |
| `PeerUpgrades.CanonicalExactly` | boringtun/src/device/peer.rs:24-40 | an IPv4-mapped IPv6 endpoint is stored as the IPv4 address in its last 32 bits, and any other as it is |
| `PeerUpgrades.FollowsThePeer` | boringtun/src/device/mod.rs:567-593 | a packet that moves the endpoint is followed by a connected socket to its very source, whatever the earlier sockets and failures of the peer |
| `PeerUpgrades.NewPeerUpgrades` | boringtun/src/device/peer.rs:147-167 | a new peer is upgraded at its configured endpoint by the listener of that endpoint's family |
| `PeerConnection.WindowRestartsOnMoves` | boringtun/src/device/mod.rs:567-593 | a packet from a listener restarts the window if and only if it moves the endpoint; the packet that moves it is the first the new window has seen; a failed commit of a would-be move changes nothing |
| `PeerConnection.RestartsCountMoves` | boringtun/src/device/peer.rs:202-258 | over any run the window has restarted exactly as often as the endpoint has moved, and always describes the endpoint |
| `PeerConnection.FailuresArePerAddress` | boringtun/src/device/mod.rs:1679-1733 | over any run failed socket openings are at most one plus the moves plus the fresh listener sockets, each family's listener having its own latch |
| `PeerConnection.BoundIsMet` | boringtun/src/device/mod.rs:1679-1733 | that bound is met for every number of fresh listeners, without any move |
| `PeerConnection.PeerEndpoint.constructor` | boringtun/src/device/peer.rs:147-167 | a new peer stores its endpoint in canonical form, without socket or token |
| `PeerConnection.PeerEndpoint.ShutdownEndpoint` | boringtun/src/device/peer.rs:192-201 | shutdown drops the socket and nothing else |
| `PeerConnection.PeerEndpoint.MoveEndpoint` | boringtun/src/device/peer.rs:232-258 | only a different canonical address drops the socket, clears the suppression and, if asked, restarts the window |
| `PeerConnection.PeerEndpoint.ConnectEndpoint` | boringtun/src/device/peer.rs:260-312 | a socket is committed if and only if none is, an address is set and the system opened one |
| `PeerConnection.PeerEndpoint.CommitLifetime` | boringtun/src/device/peer.rs:411-415 | the new token alone can be current from here on |
| `PeerConnection.PeerEndpoint.UpgradePeer` | boringtun/src/device/mod.rs:2073-2186 | a listener's upgrade of a peer, with its own latch and the roll-back, has the specified effect for every system answer |
| `PeerConnection.PeerEndpoint.CommitAnonymous` | boringtun/src/device/mod.rs:567-593 | window and endpoint after an authenticated packet are as specified in all cases |
| `JavaStrings.UnitsOfEncode` | boringtun/src/jni.rs:384-404 | every sequence of UTF-16 units survives modified UTF-8 (section 4.4.7 of the Java Virtual Machine Specification) |
| `JavaStrings.ShortestSpelling` | boringtun/src/jni.rs:384-404 | accepted bytes are no shorter than the JVM's spelling of what they decode to, and as short only if they are that spelling |
| `JavaStrings.MeaningNeedsPairs` | boringtun/src/jni.rs:409-409 | UTF-16 has a meaning if and only if no surrogate is unpaired (section 2.2 of RFC 2781) |
| `JavaStrings.Utf16OfMeaning` | boringtun/src/jni.rs:409-409 | the scalars decoded encode back to exactly the units |
| `JavaStrings.MeaningOfUtf16` | boringtun/src/jni.rs:409-409 | every sequence of scalar values is what its UTF-16 form decodes to |
| `JavaStrings.EveryJavaString` | boringtun/src/jni.rs:384-410 | for every Java string: `Nul` if and only if it contains U+0000, else `NotUnicode` if and only if a surrogate is unpaired, else the exact text |
| `JavaStrings.TextRoundTrip` | boringtun/src/jni.rs:384-410 | every text comes back unchanged from its Java string, or as `Nul` if it contains U+0000 |
| `JavaStrings.StrictJavaString` | boringtun/src/jni.rs:384-410 | the decoding loop computes the specified result for all byte strings |
| `UapiText.RangeRoundTrip` | boringtun/src/device/api.rs:66-79 | every range in order is parsed back from its rendering, as one number or two |
| `UapiText.RangeExactly` | boringtun/src/device/api.rs:66-79 | a text is accepted as a range if and only if it is a number, or two in order around the first dash, below 2^32, each with an optional plus sign and white space on either side |
| `UapiText.KeepaliveRoundTrip` | boringtun/src/device/api.rs:983-1011 | an accepted keepalive interval is shown as text that is accepted as the same interval, and is off if and only if the text said zero |
| `UapiText.KeyRoundTrip` | boringtun/src/serialization.rs:22-33 | a 32-byte key is parsed back from its lower-case hex |
| `UapiText.KeyExactly` | boringtun/src/serialization.rs:22-63 | a text is accepted as a key if and only if it is 64 hexadecimal digits in either case (a plus sign standing for a leading zero), or 43 or 44 characters of base64 for 32 bytes |
| `UapiText.KeyFromHex` | boringtun/src/serialization.rs:27-33 | the loop over hex pairs yields the bytes or fails at the first bad pair |
| `AwgConfig.JunkIdempotent` | boringtun/src/noise/amnezia.rs:480-513 | normalizing junk settings twice changes nothing more, and a positive count always has usable sizes |
| `AwgConfig.RepairIsExact` | boringtun/src/noise/amnezia.rs:480-513 | junk settings are kept if and only if they are usable; a count over 128 becomes zero, and unusable sizes of a positive count become 50 and 1000 |
| `AwgRules.ValidExactly` | boringtun/src/noise/amnezia.rs:1424-1493 | validity number by number: each packet fits a datagram of 65507 bytes behind its junk, a header key needs at least 12 and under SIP at most 30 bytes of junk, and no duration is a range from zero |
| `AwgRules.HeadersTellApart` | boringtun/src/noise/handshake.rs:445-463 | headers are accepted if and only if no value belongs to two kinds of message |
| `AwgRules.HeaderBounds` | boringtun/src/noise/handshake.rs:431-443 | header bounds: both zero is the plain message type, a zero end one number, and a range must be in order |
| `AwgRules.OrderedBounds` | boringtun/src/noise/amnezia.rs:985-995 | padding and timer bounds given the wrong way round are put in order |
| `AwgRules.PlainIsWireGuard` | boringtun/src/noise/handshake.rs:384-405 | the settings that are not emitted are plain WireGuard: message types one to four, everything else off, no header key |
| `AwgRules.MergeKeepsStartup` | boringtun/src/device/api.rs:254-287 | a merge keeps the imitation chosen at start, and its junk delay unless out of range |
| `AwgRules.LastMentionWins` | boringtun/src/device/api.rs:125-194 | a transaction stages for each setting the last value it gives it, and nothing it does not mention |
| `AwgConfig.MergeKeepsGood` | boringtun/src/device/api.rs:231-365 | whatever a transaction merges is stored in range, normalized and valid |
| `AwgConfig.MergeIsExact` | boringtun/src/device/api.rs:231-365 | a merge takes what is mentioned and keeps what is not, repairing only junk sizes, and is refused if and only if headers overlap or the result is invalid |
| `AwgConfig.StageEmission` | boringtun/src/device/api.rs:575-652 | staging what is emitted sets exactly the settings that differ from plain WireGuard |
| `AwgConfig.NoEmissionIsVanilla` | boringtun/src/device/api.rs:575-652 | a device that emits nothing has plain settings |
| `AwgConfig.ReapplyingRestores` | boringtun/src/device/api.rs:203-365 | applying the emitted settings to a plain device gives the emitting device's settings, up to the MTU |
| `UapiSet.SettingRoundTrip` | boringtun/src/device/api.rs:751-930 | every setting is read back from the line that prints it |
| `UapiSet.TransactionIsAllOrNothing` | boringtun/src/device/api.rs:751-930 | a transaction is all its settings applied together at its end; a failing line leaves the settings as they were |
| `UapiSet.TransactionKeepsGood` | boringtun/src/device/api.rs:751-930 | no request text whatever leaves stored settings out of range, unnormalized or invalid |
| `UapiSet.TransactionKeepsStartup` | boringtun/src/device/api.rs:231-365 | no transaction changes imitation or the junk delay |
| `UapiSet.DumpIsRead` | boringtun/src/device/api.rs:751-930 | reading a dump stages its settings in order and applies them at the blank line |
| `UapiSet.DumpRestoresDevice` | boringtun/src/device/api.rs:575-652 | after any history of `set=1` requests from a plain start, the dumped text given to a plain device is accepted and restores the settings, up to the MTU |
| `UapiSet.WriteSlots` | boringtun/src/device/api.rs:580-643 | the writing loops print exactly the lines of the settings that differ from plain, in order |
| `UapiSet.WriteInterfaceParams` | boringtun/src/device/api.rs:575-652 | the writer prints exactly the dump the round trip is about |
| `UapiSet.Device.Set` | boringtun/src/device/api.rs:750-930 | the line loop ends with the specified settings and status for every text |
| `UapiSet.Device.Apply` | boringtun/src/device/api.rs:203-222 | staged settings are applied all or none |
| `UapiSet.PublicKeyLine` | boringtun/src/device/api.rs:829-850 | a public key line starts the peer sections if and only if its key is readable, and fails with EINVAL otherwise |
| `UapiSet.SignatureLine` | boringtun/src/device/api.rs:885-888 | the five signature packets are accepted and ignored, whatever their value |
| `UapiSet.DeviceLine` | boringtun/src/device/api.rs:798-828 | the keys of the device itself are its to answer: its errno ends the request, and otherwise the request goes on |
| `UapiSet.UnknownLine` | boringtun/src/device/api.rs:798-924 | a line with any other name fails with EINVAL |
| `UapiSet.BareLine` | boringtun/src/device/api.rs:791-794 | a line without a value fails with EPROTO |
| `UapiSet.UnfinishedLine` | boringtun/src/device/api.rs:774-776 | a last line without a newline loses its last character |
| `PeerSections.AttributeRoundTrip` | boringtun/src/device/api.rs:1053-1164 | every peer attribute is read back from the line that spells it, and as no other |
| `PeerSections.WithLast` | boringtun/src/device/api.rs:1069-1157 | setting an attribute is the last value winning, prefixes accumulating |
| `PeerSections.StreamingIsReading` | boringtun/src/device/api.rs:1053-1164 | the streaming parser equals cutting at each `public_key`, reading every section from its own lines and defaults, and committing the closed ones in order; an open section at an error or unreadable line is not committed |
| `PeerSections.EachSectionOnce` | boringtun/src/device/api.rs:1022-1164 | each closed section is applied once, in order, except those ignored for `update_only`, up to the first refusal |
| `PeerSections.RefusalIsACreation` | boringtun/src/device/mod.rs:966-1044 | a request refused midway was refused at the creation of an absent peer, with every section before it applied and none after |
| `PeerSections.AllSectionsTaken` | boringtun/src/device/api.rs:1022-1051 | without refusals or `update_only` all closed sections are applied |
| `PeerSections.UpdateOnlyNeverCreates` | boringtun/src/device/api.rs:1022-1051 | sections that only update never bring back an absent peer |
| `PeerSections.Device.CommitPeer` | boringtun/src/device/api.rs:1022-1051 | committing a section has the specified effect, or none |
| `PeerSections.Device.SetPeer` | boringtun/src/device/api.rs:1053-1164 | the streaming loop has the specified outcome and takes exactly the updates the request reads as |
| `PeerSections.PeersFollowUpdates` | boringtun/src/device/mod.rs:966-1044 | after a request a peer is stored if and only if the last update for its key kept it, or none was made and it was stored before |
| `PeerRequests.RequestRoundTrip` | boringtun/src/device/api.rs:1053-1160 | a request that writes out any peers and closes with a blank line updates the device with exactly those peers' sections in order, whatever follows the blank line |

## Left out

- Cryptography, handshakes, sessions, timers and packet formats (boringtun/src/noise) are not part of this model; `AmneziaConfig` appears through the fields the UAPI reads and writes and through `validate`.
- Probe detection and the DNS, STUN and QUIC reply generators are parameters: a datagram carries what they would say of it.
- The wrap of the 32-bit millisecond clock: schedules end before it. `LaggingReadEarnsNothing` covers the reading just after a wrap.
- Memory orderings: the atomics and locks are sequentially consistent here.
- DeviceLock: a thread holds at most one guard, and closures do not call back into the lock.
- Publication: SHA-256 and canonical serialisation are collision-free constructors, reads of the destination are truthful, and runs follow one another rather than overlap.
- `reconcile_latest`, attestation, the GitHub client and the workflow policy around publication are not part of this model.
- Timer, signal and notifier events of the kqueue registry, which have one filter and no stream behaviour, and the descriptors epoll creates for them.
- Destruction of displaced handlers outside the table lock: handlers are identities without destructors.
- PeerConnection.PeerEndpoint.ConnectEndpoint: socket options, binding and marks are one answer of the system, `opens`.
- The diagnostic generations kept beside connection lifetimes.
- UAPI text beyond ASCII, and a `set=1` interface line that is not text, which the source ends as if nothing had been staged; `PeerSections` has such lines.
- The base64 form of keys in UAPI lines, socket addresses and IP prefixes are parsed by the environment.
- Applying a peer section to tunnels and the allowed-IP trie: a store of peers and a log of updates stands for the device.
- The process, command-line, FFI and TUN layers.
