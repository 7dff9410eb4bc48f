# Proofs beside xmatic

A model of the parts of this Matrix client where state, order and arithmetic are hardest to get
right, and proofs of what they promise. Each module follows one component of the client; what the
client changes step by step is a class here, whose methods are proved against functions of its
state, and what is promised over whole runs is proved about those functions.

| file | what it models |
|---|---|
| `Complex.dfy`, `Fft.dfy` | the in-place transform of the howl detector |
| `HowlTracks.dfy`, `FeedbackSuppressor.dfy` | its tone tracker, its notches, and how samples are fed to it |
| `ToneNotches.dfy`, `NotchFilters.dfy` | which tones get and keep a notch, and what the filters compute |
| `Seccomp.dfy` | the generator of the voice decoder's system call filter, and the machine that runs it |
| `DiffModel.dfy`, `RoomList.dfy` | the models fed with the core's changes, and the unread totals |
| `TimelineView.dfy` | view tokens: which diffs land on the open room's timeline |
| `EchoRing.dfy`, `EchoFrames.dfy`, `DelayEstimator.dfy` | the echo path: ring, re-framing, adaptive delay filter |
| `CallEngine.dfy`, `CallCandidates.dfy` | one device's call engine, and its candidates over a run |
| `CallWorld.dfy`, `CallAgreement.dfy` | any number of devices and users over one room timeline |
| `CallTurns.dfy` | every way into a call and out of it, on one device and in the room |
| `CallRevival.dfy` | answers that come after a call was given up |
| `Ringing.dfy` | which invitations ring, and which offers carry live video |
| `VoiceTranscripts.dfy`, `TranscriptTurns.dfy` | the transcript jobs, and how each begins, goes on and ends |
| `TranscriptSignals.dfy` | signals that overtake their reply |
| `PushFetch.dfy` | which pushes are fetched when |
| `Requests.dfy`, `MatrixBridge.dfy` | the bridge's commands in flight, its registers and its watchdog |
| `RequestTurns.dfy` | which step sends what, and what it leaves in every place |
| `OutgoingImage.dfy` | the GIF block walk and the chunked scan for metadata marks |

`dafny verify dfyconfig.toml` checks all of it.

## What is assumed

- Samples, spectra and filter taps are exact numbers. What cos and sin give the transform is the
  parameter `step` with the two facts `Fft.Twiddles` names; the analysis window, the decibel
  function and the coefficients of a notch are parameters too.
- Sampling rates lie between 1 and 400 kHz, where the detector's band is inside its spectrum;
  positions in the echo ring are not negative.
- Calls: every device of an account sees one timeline of the room in one order, each event once;
  call and party ids are drawn fresh and are not empty; a pipeline makes one offer; callbacks that
  carry the current generation come from the current pipeline, and so do the grace and silence
  timers, which a tear-down stops.
- The core sends the changes of one vector per token, in order; some may be lost on the way. What a
  poll patch writes is an overlay of the row's poll field.
- The chain behind the echo canceller is any function from a state, a position and a frame to a
  state and a frame.
- A download the core calls good comes with the path of a file: `Requests.EveryPictureIsTold` says
  exactly what rests on that.
- Timers fire when they are due. Everything else that arrives late, twice or not at all may do so.

## What turned out otherwise than promised

- A call given up keeps its ids (src/callengine.cpp:1970-1988), and placing the next one does not
  clear them (679-702): `CallRevival.StaleExactly` says when ids are left.
  - A late answer is taken and selected, after the device's own goodbye, and the engine connects
    without a pipeline until somebody hangs up. `RevivedExactly` and `LingersExactly` say when,
    `AnsweredWhenIdle` gives the input, `RevivedForEver` what becomes of it, and
    `SelectionAfterGoodbye` what the room sees.
  - A next call that waits for its relay still goes by the old id. It is lost to a late answer
    (`AnsweredWhileWaiting`) and to a late hangup or reject of the old call (`HungUpWhileWaiting`),
    although the comment at 1061 says that only a hangup of this very call ends it; and hanging it
    up says goodbye to the old call (`GoodbyeToTheOldCall`). `WaitingLeft` and `StillWaits` say
    exactly when it is lost, `StartedExactly` when it is started, and `FreshIsStarted` that a call
    placed with no id left never is lost.
- A howl that goes on can lose its notch to another one: with six notches on, the tones of one
  analysis refresh in place and evict from the front (src/feedbacksuppressor.cpp:152-166), so one
  just refreshed can be the one evicted. `ToneNotches.RefreshedAndTaken` is the input,
  `StaysCovered` and `ToneKeepsItsNotch` say exactly when, and `ToneIsFiltered` that in every run
  the notch is on otherwise.
- Signing out while a check runs leaves the check "running" with no job
  (src/voicetranscripts.cpp:205-220): `VoiceTranscripts.CheckIsCut` is the input. By
  `CheckIsStranded` and `StrandedForEver` the word is true exactly if that never happened.
- `TranscriptSignals.Confluence`: where the reply falls among the signals shows in the transcript
  exactly if the service sends texts of a task after its end.
- `Ringing.RingsAgain`: the comment at core/src/call.rs:336 says that a call never rings twice. It
  can, once another call of the same sender rang in between, or after a sign-out; `Ringing.NextRing`
  and `FirstRing` say exactly which invitation rings.
- `OutgoingImage.LongMarksAreMissed`: the carry of 32 bytes is enough for marks of up to 33 bytes and
  for no longer one. All the marks scanned for are shorter.
- A rebuild that clears the rows is put off under an open thread but keeps the token, so the rest of
  the old stream lands on an empty list. `TimelineView.RefusalMends` and `GoneIsRightExactly` say
  exactly when a refused resync mends a view, `ClearedUnderAThread` what the next change then does,
  and `ClosingTheThreadMends` that the view comes back when the thread is closed.
- Without a core the bridge's registers take entries under the id 0 from four requests
  (src/matrixbridge.cpp:1562, 1642, 1903, 1914) that no answer and no watchdog round removes:
  `Requests.FiledUnderZero` gives them, `KeysInFlightExactly` says exactly when. Opening a room and
  sending a file are not possible without one: what they rest on is not made (138-141).

## Model

| member | source | states |
|---|---|---|
| Fft.Transform | src/feedbacksuppressor.cpp:23-50 | For every power-of-two length and every input, the in-place bit reversal and butterfly stages leave exactly the discrete Fourier transform of the input |
| Fft.BitReverse | src/feedbacksuppressor.cpp:26-34 | The swap loop puts at each index what lay at the bit-reversed one, whatever the input |
| Fft.CountBackwards | src/feedbacksuppressor.cpp:27-31 | The inner `bit` loop ends and turns the reversal of `i - 1` into the reversal of `i` |
| Fft.RevInvolution | src/feedbacksuppressor.cpp:26-34 | Reversing the bits twice is the identity and stays below the length, so the swaps are a permutation |
| Fft.RevCount | src/feedbacksuppressor.cpp:27-31 | How the reversal of a number and of its successor are related: the carry runs from the top bit down |
| Fft.Stage | src/feedbacksuppressor.cpp:35-48 | One stage turns blocks that hold half-size transforms into blocks that hold transforms of twice the length |
| Fft.ButterflyBlock | src/feedbacksuppressor.cpp:39-46 | The innermost loop leaves sums in the lower half and differences in the upper, twiddled by successive powers of the step, and touches nothing outside its block |
| Fft.Merge | src/feedbacksuppressor.cpp:35-48 | Radix-2 decimation: each coefficient of a transform from the transforms of the even and the odd samples |
| Fft.EvalSplit | src/feedbacksuppressor.cpp:35-48 | P(z) = E(z^2) + z O(z^2) for the polynomial behind the transform |
| Fft.CombineBlock | src/feedbacksuppressor.cpp:39-46 | The innermost loop over two transformed halves leaves the transform of the whole block, in bit-reversed input order |
| Fft.FourPointSteps | src/feedbacksuppressor.cpp:36-37 | The facts asked of cos and sin are met by their exact values up to length four |
| HowlTracks.SortedIsSorted | src/feedbacksuppressor.cpp:112-114 | The median of the band is an order statistic of the very values in it |
| HowlTracks.MedianIsInTheMiddle | src/feedbacksuppressor.cpp:112-114 | It is the median: a level of the band with no more than half of the others below it and fewer than half above |
| HowlTracks.LevelsAre | src/feedbacksuppressor.cpp:112 | The values it is taken of are the levels of the band |
| HowlTracks.PeaksAre | src/feedbacksuppressor.cpp:116-121 | The peaks are exactly the bins above their left and not below their right neighbour |
| HowlTracks.QualifiesExactly | src/feedbacksuppressor.cpp:125-133 | Which peaks are followed, in numbers: those 25 dB above the median with no more than two other peaks less than 15 dB below or louder |
| HowlTracks.NextHas | src/feedbacksuppressor.cpp:123-147 | An analysis tracks exactly the peaks that stand 25 dB above the median with at most two rivals within 15 dB, each by its own track |
| HowlTracks.TrackHeld | src/feedbacksuppressor.cpp:134-147 | A track that counts n analyses was seen in n analyses in a row, each peak qualifying and within a bin of the one before, from the level it remembers |
| HowlTracks.TrackExactly | src/feedbacksuppressor.cpp:134-140 | In numbers: a peak goes on with the first track within one bin of it, or begins its own |
| HowlTracks.ToneHeld | src/feedbacksuppressor.cpp:134-146 | A tone is acted on only after at least 20 such analyses, the last no weaker than the first |
| HowlTracks.SteadyTone | src/feedbacksuppressor.cpp:134-147 | The other way: a tone that stays in one bin, where nothing was tracked before, is followed from its first analysis to its last |
| HowlTracks.SteadyToneRings | src/feedbacksuppressor.cpp:141-146 | Such a tone is acted on exactly if it stood for 20 analyses and has not faded |
| HowlTracks.AtMostThree | src/feedbacksuppressor.cpp:127-133 | The rival rule never leaves more than three tracks |
| FeedbackSuppressors.OffsetIsSmall | src/feedbacksuppressor.cpp:142-146 | The interpolated frequency of a peak lies within half a bin of it |
| ToneNotches.OffsetIsTheTop | src/feedbacksuppressor.cpp:142-146 | The offset is the top of the parabola through the levels of the bin and its neighbours, and leans to the louder one |
| ToneNotches.FrequencyLeans | src/feedbacksuppressor.cpp:142-147 | The frequency lies within half a bin of the peak, on the side of its louder neighbour |
| FeedbackSuppressors.BandIs | src/feedbacksuppressor.cpp:106-108 | The band reaches from the bin of 200 Hz to that of 8 kHz, or the spectrum's last but one |
| FeedbackSuppressors.NormIs | src/feedbacksuppressor.cpp:110-111 | A level is taken of a coefficient times its conjugate |
| FeedbackSuppressors.LookIs | src/feedbacksuppressor.cpp:97-111 | The levels of the band and its neighbours are those of the transform of the last 2048 samples under the window |
| FeedbackSuppressors.EngageKeepsSpaced | src/feedbacksuppressor.cpp:152-182 | Engaging keeps at most six notches, no two within 30 Hz |
| FeedbackSuppressors.EngageHas | src/feedbacksuppressor.cpp:152-182 | Engaging adds or refreshes only a notch within 30 Hz of the tone |
| ToneNotches.EngageIs | src/feedbacksuppressor.cpp:152-182 | Which notch is refreshed, which makes room, which joins: all others stay as they are with what their filters remember |
| ToneNotches.EngageCovers | src/feedbacksuppressor.cpp:152-182 | After engaging a notch within 30 Hz of the tone is on, to the end of its time |
| ToneNotches.StaysCovered | src/feedbacksuppressor.cpp:152-166 | A covered tone loses its notch to the next one exactly if six are on, none near that tone, and only the first of them is near this |
| ToneNotches.RefreshedAndTaken | src/feedbacksuppressor.cpp:152-166 | The input: six notches on, a tone at the first of them and another at none; the first is refreshed and then taken away |
| ToneNotches.EngageAllShifts | src/feedbacksuppressor.cpp:123-166 | The tones of one analysis take away the first notches, one for each that has none near it while six are on, and leave all others in order |
| ToneNotches.ToneKeepsItsNotch | src/feedbacksuppressor.cpp:123-166 | A tone keeps its notch through the analysis exactly if no more are taken away after it than stand before it; one switched on for it always stays |
| FeedbackSuppressors.ExpireIs | src/feedbacksuppressor.cpp:76-78 | Exactly the notches whose time is over are removed, and spacing is kept |
| FeedbackSuppressors.FirstDue | src/feedbacksuppressor.cpp:66-73 | No analysis before sample 2048, or before the first hop |
| FeedbackSuppressors.FirstIsDue | src/feedbacksuppressor.cpp:66-73 | The first analysis comes with sample 2048, or the first hop if that is longer |
| FeedbackSuppressors.DueEveryHop | src/feedbacksuppressor.cpp:66-73 | After one analysis the next comes exactly one hop later |
| FeedbackSuppressors.RunInv | src/feedbacksuppressor.cpp:64-95 | After every run of chunks the tracks are those of the analyses of the last 2048 samples each, notches are spaced, and each rests on an analysis that earned it |
| FeedbackSuppressors.ChunksDoNotMatter | src/feedbacksuppressor.cpp:64-74 | Two runs over the same samples have the same tracks, however they were cut |
| FeedbackSuppressors.NotchesStayApart | src/feedbacksuppressor.cpp:152-166 | In every run at most six notches are on, pairwise at least 30 Hz apart |
| FeedbackSuppressors.NotchNeedsATone | src/feedbacksuppressor.cpp:134-146 | A notch on after any run rests on a tone within 30 Hz that held for 20 analyses in a row, and on one no older than 10 s before the last chunk |
| ToneNotches.ToneIsFiltered | src/feedbacksuppressor.cpp:64-95 | The other way: after every run, a tone its last analysis acted on has a notch within 30 Hz on, with ten seconds from the beginning of the chunk, unless later tones took it away |
| FeedbackSuppressors.RingRead | src/feedbacksuppressor.cpp:99-103 | Reading the ring from the oldest slot on gives the last 2048 samples in order |
| FeedbackSuppressors.FeedbackSuppressor.Listen | src/feedbacksuppressor.cpp:97-111 | The windowed ring through the transform gives the levels of exactly the last 2048 samples |
| FeedbackSuppressors.FindPeaks | src/feedbacksuppressor.cpp:116-121 | The loop collects the peaks of the band |
| FeedbackSuppressors.Rivals | src/feedbacksuppressor.cpp:128-131 | The loop counts the other peaks within 15 dB |
| FeedbackSuppressors.Continue | src/feedbacksuppressor.cpp:134-140 | The loop continues the first old track within one bin, or starts one |
| FeedbackSuppressors.FeedbackSuppressor.EngageAt | src/feedbacksuppressor.cpp:152-182 | Refreshes the first notch within 30 Hz, or drops the first of six and adds one |
| FeedbackSuppressors.FeedbackSuppressor.Consider | src/feedbacksuppressor.cpp:124-147 | One peak: its track if it stands out, and a notch if that track stood long enough |
| FeedbackSuppressors.FeedbackSuppressor.Analyse | src/feedbacksuppressor.cpp:97-150 | New tracks and notches of one analysis |
| FeedbackSuppressors.FeedbackSuppressor.TakeSample | src/feedbacksuppressor.cpp:67-73 | One sample into the ring; an analysis when it is due |
| FeedbackSuppressors.FeedbackSuppressor.DropExpired | src/feedbacksuppressor.cpp:76-78 | Keeps the notches whose time is not over, in order |
| FeedbackSuppressors.FeedbackSuppressor.Filter | src/feedbacksuppressor.cpp:80-94 | The chunk sample by sample through the notches that are on; untouched if none is |
| FeedbackSuppressors.FeedbackSuppressor.FilterSample | src/feedbacksuppressor.cpp:84-93 | One sample through every notch in turn, each remembering two samples in and out, then rounded and clamped |
| FeedbackSuppressors.FilterCut | src/feedbacksuppressor.cpp:83-94 | While the same notches are on, what comes out does not depend on how the samples were cut |
| FeedbackSuppressors.FilterRange | src/feedbacksuppressor.cpp:93 | Samples of 16 bits come out, whatever the filters do |
| NotchFilters.DifferenceEquation | src/feedbacksuppressor.cpp:86-92 | The output of a notch solves its difference equation from whatever it remembered, and it remembers the last two samples of either side |
| NotchFilters.SampleBySample | src/feedbacksuppressor.cpp:83-94 | Sample by sample through all notches is the whole signal through one after another, rounded at the end |
| NotchFilters.WholeIsNearest | src/feedbacksuppressor.cpp:93 | Rounded to the nearest whole number, halves away from zero, and clamped to the nearest of 16 bits |
| FeedbackSuppressors.FeedbackSuppressor.Process | src/feedbacksuppressor.cpp:64-95 | A chunk takes the object to the state the run of single samples defines, and what comes out is the chunk through the notches left on |
| Seccomp.Confine | src/voicedecode.cpp:138-197 | Refuses exactly programs over 250 instructions and what the kernel refuses; within the limit every jump is forward, inside and fits eight bits, and on every call the program answers what the lists say |
| Seccomp.Meaning | src/voicedecode.cpp:138-184 | A program laid out that way ends at kill for a foreign architecture, errno for a denied number or an opener with a write flag, allow otherwise |
| Seccomp.RunDenied | src/voicedecode.cpp:145-148 | From any test of the denied list on: errno exactly if the rest of the list names the call |
| Seccomp.RunOpeners | src/voicedecode.cpp:157-161 | From any opener test on: the first opener that matches decides by its own flags word |
| Seccomp.RunCheck | src/voicedecode.cpp:164-172 | An opener's check refuses exactly if its flags word meets the write mask |
| Seccomp.LaidFits | src/voicedecode.cpp:176-187 | Within the size limit every jump goes forward, stays inside and fits its byte |
| Seccomp.EmitTests | src/voicedecode.cpp:138-161 | The first appends: the architecture test and one unpatched test per list entry |
| Seccomp.Emit | src/voicedecode.cpp:138-174 | All appends, with the places to be patched noted in order |
| Seccomp.DraftedIsLaid | src/voicedecode.cpp:176-187 | Once all jumps are patched and the size is within the limit, no offset was cut by its byte |
| DiffModel.ViewFollows | src/difflistmodel.cpp:67-194 | A view that follows only the insert, remove, change and reset signals holds the model's rows after any operations |
| DiffModel.ChangeIsSaid | src/difflistmodel.cpp:80-183 | No operation changes rows without a signal |
| DiffModel.DriftOncePerReset | src/difflistmodel.cpp:57-65 | Along any operations drift is reported at most once before the next reset or clear |
| DiffModel.DriftExactly | src/difflistmodel.cpp:57-184 | Drift begins exactly where an operation is refused, which changes no row, is reported exactly there, and ends exactly at a reset or clear |
| DiffModel.PatchedIs | src/difflistmodel.cpp:42-55 | A patch gives one row one value, and no other row or field another |
| DiffModel.EncodingKeepsMeaning | core/src/protocol.rs:1381-1412 | Each change of the core's vector, encoded as an operation, does to equal rows what happened to the vector |
| DiffModel.InStep | src/difflistmodel.cpp:67-78 | A model in step stays in step with the core's vector and never reports drift, along any possible stream |
| DiffModel.DriftIsReal | src/difflistmodel.cpp:57-65 | Where a possible change is refused, the rows differ from the vector, already in number |
| DiffModel.DiffListModel.ReportDrift | src/difflistmodel.cpp:57-65 | Reports once and remembers it |
| DiffModel.DiffListModel.ClearRows | src/difflistmodel.cpp:185-194 | Empties the rows, forgets the drift, and resets views only if there was a row |
| DiffModel.DiffListModel.ApplyOperation | src/difflistmodel.cpp:80-183 | One operation: the rows and the signals the specification gives, refused ones included |
| DiffModel.DiffListModel.ApplyOperations | src/difflistmodel.cpp:67-78 | A batch: the rows, the signals in order, a count change at the end, and a following view in step |
| DiffModel.DiffListModel.PatchField | src/difflistmodel.cpp:42-55 | One field of one row, said only if it differs, and a following view in step |
| RoomList.CappedIs | src/roomlistmodel.cpp:20-48 | The totals are capped exactly if some row that counts is |
| RoomList.FoldSet | src/roomlistmodel.cpp:20-48 | Replacing one row moves the unread totals, the cap included, by that row alone |
| RoomList.ReadingARoom | src/roomlistmodel.cpp:137-162 | Reading a room takes exactly its share out of the totals, which stay capped exactly if another room is |
| RoomList.CountsExactly | src/roomlistmodel.cpp:20-48 | What counts, field by field: a joined room with unread messages, no space and not muted |
| RoomList.ReadIs | src/roomlistmodel.cpp:137-162 | Reading a row sets three counts and the mark to nothing and leaves every other field |
| RoomList.ModeIs | src/roomlistmodel.cpp:87-109 | A new mode mutes exactly if it is "mute"; the mode a row has already changes nothing |
| RoomList.MutingARoom | src/roomlistmodel.cpp:87-109 | Muting a room takes exactly its share out of the totals, unmuting it puts in what it has unread |
| RoomList.Merge | src/roomlistmodel.cpp:118-130 | Fields merged in any order give the row overridden by them, and whether it differs |
| RoomList.RoomListModel.RecountUnread | src/roomlistmodel.cpp:20-48 | The totals equal a fresh fold over the rows |
| RoomList.RoomListModel.ApplyOperations | src/roomlistmodel.cpp:5-18 | Totals stay those of the rows along any diffs |
| RoomList.RoomListModel.SetNotifyMode | src/roomlistmodel.cpp:87-109 | The mode and mute flag of the first row of that room, all else kept, totals kept true |
| RoomList.RoomListModel.SetFields | src/roomlistmodel.cpp:111-135 | The given fields of the first row of that room, all else kept, totals kept true |
| RoomList.RoomListModel.ClearUnread | src/roomlistmodel.cpp:137-162 | The unread counts of the first row of that room to zero, all else kept, totals kept true |
| TimelineView.RowsFollowTheCurrentView | src/matrixbridge.cpp:992-1115 | In every run of opens, kept opens, closes, threads, rebuilds, poll patches, resyncs, lost diffs and diffs of any view: where nothing of the current token's stream is missing the rows are its prefix applied from empty, and a resync is asked for only of a stream that something was missing of |
| TimelineView.NothingLost | src/matrixbridge.cpp:3593-3612 | So in every run without losses the rows always are the core's and no resync is asked for |
| TimelineView.WholeBatch | core/src/timeline.rs:1671-1683 | A diff that says what the whole vector is mends the rows, whatever they were |
| TimelineView.OpeningMends | src/matrixbridge.cpp:992-1084 | From any world, an opening that does not keep the view makes the rows the core's under the next token |
| TimelineView.RefusalMends | src/matrixbridge.cpp:445-476 | From any world, drifted or not, a refused resync of the current token does so too; under an open thread the token stays and the rows are gone |
| TimelineView.GoneIsRightExactly | src/matrixbridge.cpp:462-476 | Rows that are gone are the core's exactly if it has none, or the room is no longer open |
| TimelineView.ViewMoves | src/matrixbridge.cpp:992-1115 | For every step: exactly which begin a view under the next token with empty rows, and what becomes of room, focus, thread and rebuild |
| TimelineView.RebuildsInTurn | src/matrixbridge.cpp:992-1115 | A rebuild that waited is set going exactly when its thread closes |
| TimelineView.RowsMove | src/matrixbridge.cpp:3593-3640 | The rows after every step: emptied, patched, moved on by a batch of the current view, or the same |
| TimelineView.AskedExactly | src/matrixbridge.cpp:425-443 | A resync is asked for exactly where a batch of the current view reports drift, and taken off exactly once answered |
| TimelineView.ClosingTheThreadMends | src/matrixbridge.cpp:1177-1199 | Closing the thread runs the rebuild put off, and that makes the rows the core's |
| TimelineView.LossDrifts | src/difflistmodel.cpp:57-65 | A run that gets there: one change lost, and the next asks for a resync |
| TimelineView.InvKept | src/matrixbridge.cpp:3593-3612 | Every step keeps that, a late diff of another view and a lost one included |
| TimelineView.OverlayBatch | src/difflistmodel.cpp:67-78 | A batch applied over rows that differ from the core's in poll fields only leaves them differing in poll fields only |
| TimelineView.TimelineBridge.RebuildOpenTimeline | src/matrixbridge.cpp:464-476 | A rebuild empties the rows first if they are known wrong; under an open thread it waits |
| TimelineView.TimelineBridge.CloseThread | src/matrixbridge.cpp:1177-1199 | Closing a thread sets a rebuild that waited for it going |
| TimelineView.ClearedUnderAThread | src/matrixbridge.cpp:464-476 | The rows emptied under a thread: the next change of the stream, whichever it is, asks for another resync exactly if it needs a row to work on, and lands silently if not |
| TimelineView.TimelineBridge.OpenRoom | src/matrixbridge.cpp:992-1084 | Which opens keep the view and which start another under the next token; the invariant of every world is kept |
| TimelineView.TimelineBridge.CloseRoom | src/matrixbridge.cpp:1086-1115 | A close empties the rows and leaves the token; the invariant of every world is kept |
| TimelineView.TimelineBridge.TimelineDiff | src/matrixbridge.cpp:3593-3612 | Diffs of another room or token change nothing; the current ones are applied, and drift asks for one resync |
| EchoRing.WriteThenRead | src/echocanceller.cpp:49-76 | After any write a position reads the sample just written, unless the window refused it or has left it; then what was there before, or silence |
| EchoRing.AcceptedAt | src/echocanceller.cpp:59-64 | Which samples of a block are taken, each at its own position |
| EchoRing.PutSlot | src/echocanceller.cpp:56-64 | A slot written modulo the size keeps the whole window readable |
| EchoRing.Ring.End | src/echocanceller.cpp:46-47 | One past the newest sample, -1 while empty |
| EchoRing.Ring.Reach | src/echocanceller.cpp:51-58 | A block too far ahead starts over from silence; a gap is filled with it |
| EchoRing.Ring.Write | src/echocanceller.cpp:49-66 | The ring stays the window of the unbounded tape the block was written to |
| EchoRing.Ring.Read | src/echocanceller.cpp:68-76 | Reads what the tape holds inside the window and silence elsewhere |
| EchoFrames.ProcessedLength | src/echocanceller.cpp:317-322 | As many samples come out of the frames as whole frames went in |
| EchoFrames.ProcessedMore | src/echocanceller.cpp:317-322 | New samples join the unfinished frame; what was processed stays |
| EchoFrames.Capture.OnCapture | src/echocanceller.cpp:293-329 | Queued in and out make one frame between buffers, the copy out never runs short, and the record of what was heard and given is the one the specification defines |
| EchoFrames.Capture.Rejoin | src/echocanceller.cpp:310-316 | At a jump the unfinished frame goes out as it came |
| EchoFrames.Capture.RunFrames | src/echocanceller.cpp:318-322 | Every whole frame through the chain in order, the rest kept |
| EchoFrames.JumpsExactly | src/echocanceller.cpp:311-316 | Which buffers begin anew, in numbers: stamped ones before any whole frame had a place, or more than 240 samples from where the last buffer ended; all others go on |
| EchoFrames.AsMuchAsCame | src/echocanceller.cpp:293-329 | In every run, jumps or not, as many samples are given as came in, and they are the beginning of one stream |
| EchoFrames.CutsDoNotMatter | src/echocanceller.cpp:293-329 | Over every sequence of buffers, each within half a frame of where the last one ended or not stamped, what is given is one frame of silence and then the processed stream, however it was cut |
| DelayEstimator.WindowSlides | src/echocanceller.cpp:153-155 | Written at both places, the doubled history mirrors itself and its window slides by one |
| DelayEstimator.Slide | src/echocanceller.cpp:156 | Adding the newest square and taking off the oldest gives the sum of squares of the new window |
| DelayEstimator.DotStep | src/echocanceller.cpp:166-169 | A step along the window moves the prediction by the gain times the energy |
| DelayEstimator.Estimator.Push | src/echocanceller.cpp:151-156 | Mirror, newest-first window and running energy hold after every far-end value |
| DelayEstimator.Estimator.Step | src/echocanceller.cpp:151-170 | Below the threshold nothing is learnt; above it the prediction error shrinks to exactly 70 percent |
| DelayEstimator.Estimator.Predict | src/echocanceller.cpp:161-165 | The loop computes the product of filter and window |
| DelayEstimator.Estimator.Learn | src/echocanceller.cpp:166-169 | Every tap moves by the gain times its sample |
| DelayEstimator.Estimator.Strongest | src/echocanceller.cpp:125-136 | The sum of all squares and the first greatest one between the bounds |
| DelayEstimator.Estimator.Recompute | src/echocanceller.cpp:137-141 | The energy recomputed over the window is the running one |
| DelayEstimator.Estimator.Peak | src/echocanceller.cpp:121-144 | The first strongest tap inside the bounds, with its ratio to the mean square of all taps; -1 exactly if that stays below the threshold |
| DelayEstimator.InsideExactly | src/echocanceller.cpp:121-148 | Between the bounds, in numbers: off the forty taps at either edge, and within the delays asked for |
| CallEngine.SoundKept | src/callengine.cpp:444-1110 | Every input keeps it: the running pipeline belongs to the call and the side the engine is in, and connecting or active callers have an answer or a pipeline |
| CallTurns.EndsExactly | src/callengine.cpp:444-1110 | For every engine and input: a call ends exactly by this device, its timers or its pipeline, or by the listed words from elsewhere, told by room, call, peer and party |
| CallTurns.LastWord | src/callengine.cpp:876-1110 | Who ends a call says goodbye to it once, declining one that rings and is not of version 0; who is told says nothing |
| CallTurns.ForgetsExactly | src/callengine.cpp:876-1110 | A call that ends in a failure keeps its room and id, any other is forgotten with its peer; an offer taken up is gone with its candidates |
| CallTurns.RelayOver | src/callengine.cpp:424-434 | When the relay comes nothing waits for it any more, and where nothing did, nothing else happens |
| CallTurns.CandidatesExactly | src/callengine.cpp:994-1031 | Candidates of another call, room or peer are nothing; the others are given to the pipeline in order, or held while one that was called has none |
| CallTurns.PendingExactly | src/callengine.cpp:1921-1952 | What the current pipeline gathers waits, and all that waits goes out at once for the call in hand |
| CallTurns.RingsExactly | src/callengine.cpp:733-782 | It rings exactly when invited while idle |
| CallTurns.InviteTaken | src/callengine.cpp:733-782 | An invite is taken whole when idle, and declined at any other time without touching the call in hand |
| CallTurns.StartsExactly | src/callengine.cpp:479-580 | When a pipeline is built, always under a new generation |
| CallTurns.StopsExactly | src/callengine.cpp:444-477 | It goes exactly with its call, and its generation with it |
| CallTurns.StartsWith | src/callengine.cpp:679-834 | What a call starts with: placed, fresh ids and no choice; answered, the offer that rang |
| CallTurns.RelayNeeded | src/callengine.cpp:413-434 | The relay is asked for exactly when it is stale, and the call then waits for it |
| CallTurns.ConnectsExactly | src/callengine.cpp:793-914 | It connects exactly by accepting, or by an answer meant for it that can be read |
| CallTurns.TalksExactly | src/callengine.cpp:1888-1905 | It is active exactly once the current pipeline connected |
| CallTurns.AnswerTaken | src/callengine.cpp:889-914 | An answer that is not meant changes nothing; one that is makes its party the choice, tells it, and is given to the pipeline |
| CallTurns.PeerExactly | src/callengine.cpp:784-914 | The peer is learnt from whoever opened the call and from an answer, and from nothing else |
| CallTurns.DescribedExactly | src/callengine.cpp:1907-1939 | A description goes out as an invite from the caller and an answer from the callee, of the current pipeline only |
| CallTurns.LeavesExactly | src/callengine.cpp:733-1110 | In every run of all devices, a device leaves a call it was invited to exactly by ending it itself or by reading the end of it: taken or declined by its own account while it rang, another party chosen by its peer, or its peer's goodbye |
| CallTurns.TheSelectedStays | src/callengine.cpp:854-866 | In every run the party the caller chose stays in the call, as it was, when it reads that it was chosen |
| CallTurns.StaysExactly | src/callengine.cpp:733-1110 | Over whole runs a device stays in a call exactly as long as it does not end it and reads no end of it |
| CallTurns.SaidIsPosted | src/matrixbridge.cpp:330-386 | Every word of a handler stands in the timeline after its move, from its device, in its room, with its ids |
| CallTurns.HandedOver | core/src/call.rs:384-616 | Which handler an event reaches: of its own account a device hears that a call was taken or declined, of others everything but invites that do not ring |
| CallTurns.RingsInTheRoom | src/callengine.cpp:733-782 | An idle device of another user that reads an invite and lets it ring, rings for that call, room and caller |
| CallTurns.SelectsInTheRoom | src/callengine.cpp:889-914 | A caller that reads an acceptable answer of a named party takes it and says so to all |
| CallRevival.RevivedExactly | src/callengine.cpp:889-914 | For every engine and every input: a caller comes to connect without a pipeline exactly by an answer to its own call, in its room, from its peer, none taken yet, while it has no pipeline |
| CallRevival.RevivedFromLingering | src/callengine.cpp:889-914 | Then it was idle after giving up, or waiting for the relay of its next call |
| CallRevival.LingersExactly | src/callengine.cpp:1970-1988 | Ids a late answer will match are left exactly where a device's own call fails before it is answered |
| CallRevival.AnsweredWhenIdle | src/callengine.cpp:1970-1988 | The first input: given up with a goodbye, then answered, it selects and connects |
| CallRevival.AnsweredWhileWaiting | src/callengine.cpp:679-702 | The second: answered under the old id while the next call waits for its relay, it selects and connects, and the relay then starts nothing |
| CallRevival.RevivedStep | src/callengine.cpp:1033-1110 | Such a call ends exactly by hanging up or by a hangup that is meant for it; until then it stays as it is |
| CallRevival.RevivedForEver | src/callengine.cpp:424-434 | Over every run: until somebody hangs up it has no pipeline, starts no call and hands nothing to media |
| CallRevival.StaleExactly | src/callengine.cpp:1970-1988 | The engine is left idle under the id of a call exactly where a pipeline fails or is not built, or a description from the other side cannot be read |
| CallRevival.HungUpWhileWaiting | src/callengine.cpp:1033-1073 | The third input: a call fails on either side, the next one to its room waits for the relay, and a late hangup or reject of the first, whoever sent it, ends the second; the relay then starts nothing |
| CallRevival.GoodbyeToTheOldCall | src/callengine.cpp:1081-1110 | The fourth: hanging up the waiting call says goodbye under the id of the failed call, in the room of the new one |
| CallRevival.WaitingLeft | src/callengine.cpp:424-434 | A waiting call is left exactly when its relay comes, it is hung up here, or an answer or a hangup comes that is meant for the call whose id is still held |
| CallRevival.PeerlessKept | src/callengine.cpp:679-702 | Where a failed call was somebody else's, the next one waits without a peer |
| CallRevival.NothingToLose | src/callengine.cpp:1033-1073 | With no id held no message ends a waiting call |
| CallRevival.StillWaits | src/callengine.cpp:424-434 | In every run a placed call not hung up here still waits when its relay comes exactly if no message for the failed call came in between |
| CallRevival.StartedExactly | src/callengine.cpp:424-434 | Then, and only then, that relay starts it; otherwise it starts no call |
| CallRevival.FreshIsStarted | src/callengine.cpp:679-702 | In every run a call placed with no id held, and not hung up here, still waits when its relay comes |
| CallRevival.SelectionAfterGoodbye | src/callengine.cpp:889-914 | In every run of all devices a selection follows the caller's own goodbye to that call exactly if the caller has no pipeline when it selects |
| CallEngine.CallEngine.TearDown | src/callengine.cpp:444-477 | Drops the pipeline, the waiting candidates and the relay wait, and moves to the next generation |
| CallEngine.CallEngine.ReportFailure | src/callengine.cpp:1970-1988 | Goodbye if a call is named, idle, ids kept |
| CallEngine.CallEngine.HangUp | src/callengine.cpp:1081-1110 | Reject of a ringing call that is not version 0, hangup otherwise; all ids forgotten |
| CallEngine.CallEngine.StopQuietly | src/callengine.cpp:876-887 | Ends the call without a word |
| CallEngine.CallEngine.BuildPipeline | src/callengine.cpp:479-580 | A pipeline of the next generation, or a failure |
| CallEngine.CallEngine.StartOutgoing | src/callengine.cpp:704-731 | Names a new call and starts its pipeline |
| CallEngine.CallEngine.PlaceCall | src/callengine.cpp:679-702 | Places a call from idle only, after the relay if that is stale |
| CallEngine.CallEngine.AnswerOffer | src/callengine.cpp:807-834 | The offer first, then the candidates held while it rang |
| CallEngine.CallEngine.AcceptCall | src/callengine.cpp:793-805 | Accepts a ringing call with an offer, after the relay if that is stale |
| CallEngine.CallEngine.ResumeAfterRelay | src/callengine.cpp:424-434 | Goes on with what waited for the relay, if the call is still in that state |
| CallEngine.CallEngine.OnRemoteInvite | src/callengine.cpp:733-782 | Rings when idle, declines when not |
| CallEngine.CallEngine.NoteInviteVersion | src/callengine.cpp:868-873 | Only the call in hand takes the version of its invite |
| CallEngine.CallEngine.OnAnsweredElsewhere | src/callengine.cpp:836-852 | Stops ringing for another device of this account, never for its own answer |
| CallEngine.CallEngine.OnSelectAnswer | src/callengine.cpp:854-866 | A callee not selected by its caller leaves the call |
| CallEngine.CallEngine.OnRemoteAnswer | src/callengine.cpp:889-914 | The first acceptable answer is taken and selected, any later one ignored |
| CallEngine.CallEngine.OnRemoteCandidates | src/callengine.cpp:994-1019 | Accepted candidates are held while there is no pipeline and added otherwise |
| CallEngine.CallEngine.OnRemoteHangup | src/callengine.cpp:1033-1079 | Which goodbyes end the call: of this call, room and peer, and after a selection only of the selected party |
| CallEngine.CallEngine.MarkConnected | src/callengine.cpp:1888-1905 | Only a callback of the current generation connects |
| CallEngine.CallEngine.MarkFailed | src/callengine.cpp:1871-1886 | A failed connection ends a call that is not just connecting |
| CallEngine.CallEngine.MarkDisconnected | src/callengine.cpp:1859-1869 | A disconnection of the current generation hangs up |
| CallEngine.CallEngine.DeliverCandidate | src/callengine.cpp:1921-1939 | A gathered candidate of the current generation waits for the next batch |
| CallEngine.CallEngine.FlushCandidates | src/callengine.cpp:1941-1950 | The batch goes out for the call in hand, or is dropped with none |
| CallCandidates.CandidatesArrive | src/callengine.cpp:994-1031 | Over every run the pipeline of an answered call is given exactly the accepted non-empty candidates, each once and in order, and every batch sent is the next stretch of what that call gathered |
| CallCandidates.AnsweringGives | src/callengine.cpp:807-834 | Accepting, at once or after the relay, hands over all that was held |
| CallCandidates.MixedKept | src/callengine.cpp:1921-1952 | No candidate gathered for one call is sent for another |
| CallAgreement.InvHolds | core/src/call.rs:480-616 | Causal order of the timeline and every device's promises hold in every world of every run |
| CallAgreement.FromTimeline | core/src/call.rs:384-616 | What a handler is given is the next event its device has not read, routed by sender and kind as the core does |
| CallAgreement.NewOrderly | core/src/call.rs:480-616 | Every event a device sends finds its place: answers after their invite, one selection after the answer it names |
| CallAgreement.MoverHonest | src/callengine.cpp:679-1110 | A device selects for its own calls only, at most once each, and what it selected is its choice; it loses the pipeline of a call it keeps only with a goodbye |
| CallAgreement.OneSelection | src/callengine.cpp:889-914 | A call id gets at most one selection, from the device that drew it, naming a party that answered before, and that is the choice of a device still its caller |
| CallAgreement.SelectsWhatItRead | src/callengine.cpp:889-914 | A selection is said on reading the very answer it names, while no answer to the call had been taken |
| CallAgreement.ChoiceStays | src/callengine.cpp:889-914 | The answer once taken stays the one taken over every run, so it is the first acceptable one |
| CallAgreement.StillInCall | src/callengine.cpp:854-866 | A device still ringing, connecting or active has not yet read a selection of another party, nor the caller's goodbye |
| CallAgreement.OnlyTheSelectedIsLeft | src/callengine.cpp:733-913 | Once all is delivered, only the selected device is left in the call |
| CallAgreement.NobodyAfterGoodbye | src/callengine.cpp:1033-1110 | Once all is read, no device is in a call its caller said goodbye to, in whatever room |
| CallAgreement.NewGoodbye | src/callengine.cpp:1081-1110 | Of a caller's goodbyes to a call one goes to the room it was invited in |
| Ringing.SeenIsLast | core/src/call.rs:308-357 | What is remembered of a caller is the latest ring since the last sign-out, over every series of invitations and sign-outs |
| Ringing.NextRing | core/src/call.rs:338-357 | After a ring not forgotten since, an invitation rings exactly if it names another call and, under the brake as it is then, comes ten seconds later |
| Ringing.FirstRing | core/src/call.rs:338-357 | A caller who did not ring since the last sign-out rings |
| Ringing.RingsAgain | core/src/call.rs:336-337 | The same call can ring twice once another one of the same caller rang in between, or after a sign-out, although the comment says it never does |
| Ringing.RingLog.RingIsDue | core/src/call.rs:338-357 | The decision and the log entry of one invitation |
| Ringing.RingLog.ForgetState | core/src/call.rs:313-320 | A sign-out empties the log |
| Ringing.OffersActiveVideo | core/src/call.rs:46-70 | Yes exactly if some video section has a port other than zero or an `a=bundle-only` before the next media line |
| VoiceTranscripts.EveryRun | src/voicetranscripts.cpp:135-605 | After every run: an event is working exactly if one job for it waits or runs, jobs are taken in order, none is forgotten, and the running one is armed, at most four times, to end within 900 s |
| VoiceTranscripts.StepKeepsInv | src/voicetranscripts.cpp:135-605 | Every handler, with any answer at any time, keeps the invariant behind that |
| VoiceTranscripts.FailBooks | src/voicetranscripts.cpp:560-572 | A failure marks exactly the running event, or the check, leaves the queue, and the books stay balanced |
| VoiceTranscripts.NextBooks | src/voicetranscripts.cpp:244-261 | Taking up the next job moves it from the queue to running and loses none |
| VoiceTranscripts.QueuedBooks | src/voicetranscripts.cpp:135-176 | A request queues one job for an event that had none |
| VoiceTranscripts.OneStageOn | src/voicetranscripts.cpp:353-480 | Each answer moves the running job exactly one stage on, with one callback out for it, or ends its waiting |
| VoiceTranscripts.AnsweredInv | src/voicetranscripts.cpp:353-480 | Whatever the answer, books, stages and deadlines hold afterwards |
| VoiceTranscripts.DeliverInv | src/voicetranscripts.cpp:659-676 | A callback of an earlier generation is taken away and changes nothing else; one of the running job leads to the one stage it is for |
| VoiceTranscripts.CheckIsStranded | src/voicetranscripts.cpp:205-220 | The word "running" means a check is still to be done, in every step but one: clearing while it runs leaves the word behind for good |
| VoiceTranscripts.CheckIsCut | src/voicetranscripts.cpp:205-220 | The input: a check asked for and a sign-out after it leave the word "running" with no job |
| VoiceTranscripts.StrandedForEver | src/voicetranscripts.cpp:205-220 | After every run the word is true exactly if no sign-out found a check running |
| VoiceTranscripts.VoiceTranscripts.Request | src/voicetranscripts.cpp:135-176 | Refuses events working or done, fails unfit ones, queues the rest |
| VoiceTranscripts.VoiceTranscripts.CheckAll | src/voicetranscripts.cpp:193-203 | Queues one check unless one is running |
| VoiceTranscripts.VoiceTranscripts.ForgetAll | src/voicetranscripts.cpp:205-220 | Drops the queue, the job and all states and texts, but not the word of the check |
| VoiceTranscripts.VoiceTranscripts.OnMedia | src/voicetranscripts.cpp:222-229 | Only the awaited file of the running job starts the decoder, once |
| VoiceTranscripts.VoiceTranscripts.TakeNext | src/voicetranscripts.cpp:244-261 | The head of the queue under a new generation, its download or decoding armed |
| VoiceTranscripts.VoiceTranscripts.DecodeMedia | src/voicetranscripts.cpp:263-325 | An unusable file fails the job; otherwise the helper starts, armed |
| VoiceTranscripts.VoiceTranscripts.OnAnswer | src/voicetranscripts.cpp:327-480 | What each answer of the helper and the service makes of the job |
| VoiceTranscripts.VoiceTranscripts.OnTaskNamed | src/voicetranscripts.cpp:454-479 | The task's early texts join the transcript in order, and an early end ends it |
| VoiceTranscripts.VoiceTranscripts.OnCallback | src/voicetranscripts.cpp:659-676 | Callbacks are taken up only in the generation they were asked in |
| VoiceTranscripts.VoiceTranscripts.OnDeadline | src/voicetranscripts.cpp:127-132 | The deadline fails the running job |
| VoiceTranscripts.VoiceTranscripts.KeepServiceAlive | src/voicetranscripts.cpp:482-500 | Asks only for a running job that has its service |
| VoiceTranscripts.VoiceTranscripts.OnTextDecoded | src/voicetranscripts.cpp:502-514 | A text is kept early, added to its own task, or ignored |
| VoiceTranscripts.VoiceTranscripts.OnTranscribeFinished | src/voicetranscripts.cpp:516-528 | An end is kept early, ends its own task, or is ignored |
| VoiceTranscripts.VoiceTranscripts.OnServiceError | src/voicetranscripts.cpp:530-536 | A service error fails the job bound to the service |
| VoiceTranscripts.VoiceTranscripts.FinishJob | src/voicetranscripts.cpp:538-558 | Done with the text, failed without one, and the job ends |
| VoiceTranscripts.VoiceTranscripts.FailJob | src/voicetranscripts.cpp:560-572 | The running job fails and ends |
| VoiceTranscripts.VoiceTranscripts.End | src/voicetranscripts.cpp:574-599 | A new generation, nothing armed, nothing left of the job, the next one called |
| TranscriptTurns.BeginsExactly | src/voicetranscripts.cpp:244-325 | When a job begins and which: the first that waits, under a new generation, its file awaited for two minutes or its helper started for two and a half |
| TranscriptTurns.RequestExactly | src/voicetranscripts.cpp:135-191 | A message working or done is left alone; one that fits joins the queue, one that does not fails, and its old text goes |
| TranscriptTurns.CheckExactly | src/voicetranscripts.cpp:193-203 | One check at a time, queued once, no message touched |
| TranscriptTurns.MediaExactly | src/voicetranscripts.cpp:222-229 | The file of the running job, and no other, starts the decoder; one that cannot be used fails the job; all else changes nothing |
| TranscriptTurns.GoesOn | src/voicetranscripts.cpp:327-480 | What each answer that lets the job go on changes: its owner, its task and early texts, and the time it gets |
| TranscriptTurns.AsksAgain | src/voicetranscripts.cpp:412-443 | A busy service is kept alive and asked again, up to twenty times |
| TranscriptTurns.KeptAliveExactly | src/voicetranscripts.cpp:482-500 | Kept alive exactly by a running job that has its service |
| TranscriptTurns.TimePasses | src/voicetranscripts.cpp:601-605 | Time passes for the job and its deadline alike |
| TranscriptTurns.EndsExactly | src/voicetranscripts.cpp:502-599 | When a job ends: at its deadline, by the answers, the file and the service error that stop it, by the end of its task, or a sign-out |
| TranscriptTurns.LeavesBehind | src/voicetranscripts.cpp:538-572 | What it leaves: the result of a check, a text and "done", or "failed"; after a sign-out no word and no text |
| TranscriptTurns.LeavesNothing | src/voicetranscripts.cpp:574-599 | Nothing of itself: no deadline, no texts, no callback that still counts, and the next job called |
| TranscriptTurns.ClearLeaves | src/voicetranscripts.cpp:205-220 | After a sign-out, at whatever time, no message has a word or a text and nothing waits |
| TranscriptTurns.DoneHasText | src/voicetranscripts.cpp:135-599 | After every run a message has a text, and not an empty one, exactly if it is done |
| TranscriptSignals.OutcomeIs | src/voicetranscripts.cpp:445-480 | Wherever the reply falls among the signals, the texts up to the later of reply and end make the transcript |
| TranscriptSignals.Confluence | src/voicetranscripts.cpp:502-528 | The transcript is the same for every place of the reply exactly if no text of the task comes after its end |
| TranscriptSignals.SameTranscript | src/voicetranscripts.cpp:445-558 | From a service that sends its texts first, the same texts, states and check at any place of the reply |
| TranscriptSignals.ForeignTasksAreNothing | src/voicetranscripts.cpp:502-528 | Signals of other tasks contribute nothing: without them, and the reply at the same place among the rest, the texts kept are the same |
| TranscriptSignals.BeforeTheReply | src/voicetranscripts.cpp:502-528 | Before the reply signals are kept and do nothing else |
| TranscriptSignals.AfterTheReply | src/voicetranscripts.cpp:502-528 | After it, texts are added up to the first end of the task |
| PushFetch.EveryRun | src/pushactions.cpp:242-284 | After every run: at most two fetches, one a room, at most 16 rooms waiting, each with its latest push and only behind its own fetch or full slots; no push is fetched twice |
| PushFetch.PushIsKept | src/pushactions.cpp:242-256 | Exactly when a push is sent at once, and then in flight, when it waits, and when it is passed over; nothing else changes |
| PushFetch.FinishedServes | src/pushactions.cpp:258-277 | A finished fetch frees its slot and drops no waiting push: each waits on or is sent as it was, and nothing else is; an unknown one changes nothing |
| PushFetch.ForgottenIsOver | src/pushactions.cpp:191-206 | After a sign-out nothing waits, and what was in flight changes nothing when it comes in |
| PushFetch.NoPushIsLost | src/pushactions.cpp:242-277 | After every run the latest push of each room was sent or waits, unless sixteen other rooms waited when it came or it waited at a sign-out |
| PushFetch.FetchQueuedKeeps | src/pushactions.cpp:258-270 | Whatever order the table lists the rooms in, afterwards none waits without reason |
| PushFetch.StepKeepsInv | src/pushactions.cpp:242-284 | Every push, finished fetch and sign-out keeps all of this |
| PushFetch.PushActions.OnPush | src/pushactions.cpp:221-234 | A push that names a room and a message is fetched or queued |
| PushFetch.PushActions.FetchOrQueue | src/pushactions.cpp:242-256 | Sends into a free slot of a free room, else keeps the latest push of up to 16 rooms |
| PushFetch.PushActions.FetchWaiting | src/pushactions.cpp:258-270 | Takes waiting rooms in table order while slots are free |
| PushFetch.PushActions.FinishFetch | src/pushactions.cpp:272-277 | A known fetch frees its slot and the waiting rooms are looked at |
| PushFetch.PushActions.Emit | src/pushactions.cpp:279-284 | A sent fetch is remembered under its id, one without an id is not |
| PushFetch.PushActions.Forget | src/pushactions.cpp:191-206 | A sign-out empties both tables |
| Requests.EveryRun | src/matrixbridge.cpp:504-651 | After every run, sign-outs included, each id held is of a command in flight and the registers miss none of their kind; with a core every register entry is of a command in flight, too. No picture is in flight twice; each asked for is settled once or still in flight; the watchdog runs while anything is in flight |
| Requests.KeysInFlightExactly | src/matrixbridge.cpp:1555-1915 | In every run all register entries are of commands in flight exactly if there is a core or none of the four requests was made that do not look at the id they get |
| Requests.FiledUnderZero | src/matrixbridge.cpp:1555-1915 | The four inputs: without a core a member removed, a space, the readers and the reactors of a message are filed under 0, and nothing else changes |
| Requests.SweepEndsWaiting | src/matrixbridge.cpp:546-651 | After a watchdog round of any run the table keeps exactly the commands younger than 120 s and nothing is awaited but one of those; only what was filed under 0 without a core is awaited for good |
| Requests.StepTells | src/matrixbridge.cpp:2610-3177 | Every step tells of each picture it settles, be it by an answer or by giving up, except a good answer that names no file |
| Requests.EveryPictureIsTold | src/matrixbridge.cpp:3159-3177 | In every run the pictures told of are among the settled ones, and all of them exactly if no good answer came without a path, as the core promises |
| Requests.LateAnswer | src/matrixbridge.cpp:2610-2784 | An answer to a command given up, or to none, changes nothing |
| Requests.ReplyToNothing | src/matrixbridge.cpp:2610-2784 | A reply without an id answers nothing |
| RequestTurns.TurnsExactly | src/matrixbridge.cpp:504-2531 | Place by place what every request sends, files, holds and shows: a picture only if its file is not there and nothing is out for it, a file for removal only if it is the app's own |
| RequestTurns.AnswerIsTaken | src/matrixbridge.cpp:2610-2650 | Any answer takes its own command off the table, and the watchdog goes off with the last one |
| RequestTurns.FileArrives | src/matrixbridge.cpp:3159-3177 | A good answer makes available exactly the picture it brought a file for |
| RequestTurns.SweptExactly | src/matrixbridge.cpp:546-651 | A round of the watchdog, place by place: what waited 120 s is let go everywhere, what waited 10 s is noted, all the rest stays |
| Requests.StepKeepsInv | src/matrixbridge.cpp:504-3910 | Every request, answer, watchdog round and sign-out (3885-3906 of the same file) keeps the bookkeeping, an opening room always having its opening in flight |
| Requests.ReplyKeeps | src/matrixbridge.cpp:2610-2784 | An answer clears exactly its own traces |
| Requests.GrantedIs | src/matrixbridge.cpp:3137-3366 | A good answer, too: whichever command it is for, nothing else is cleared and nothing of it is left |
| Requests.SweepKeeps | src/matrixbridge.cpp:570-626 | Commands given up are let go everywhere at once |
| Requests.WithoutOne | src/matrixbridge.cpp:572-626 | Giving commands up one by one, in any order, comes to giving them up together |
| Bridge.MatrixBridge.Send | src/matrixbridge.cpp:504-532 | A fresh id in the table with the watchdog on; 0 and nothing without a core |
| Bridge.MatrixBridge.RequestPicture | src/matrixbridge.cpp:2476-2531 | One request a picture at a time, under the id really used |
| Bridge.MatrixBridge.LoadOlder | src/matrixbridge.cpp:1117-1137 | One page at a time |
| Bridge.MatrixBridge.LoadNewer | src/matrixbridge.cpp:1139-1156 | One page at a time, none past the end |
| Bridge.MatrixBridge.ShowRoom | src/matrixbridge.cpp:992-1084 | A kept view asks again; another room drops the page in flight and waits for its opening |
| Bridge.MatrixBridge.EndSession | src/matrixbridge.cpp:3885-3906 | A sign-out leaves no room open and every request to its answer |
| Bridge.MatrixBridge.LeaveRoom | src/matrixbridge.cpp:1086-1115 | Leaving a room leaves its requests to their answers |
| Bridge.MatrixBridge.StartChat | src/matrixbridge.cpp:2016-2026 | One direct chat at a time |
| Bridge.MatrixBridge.StartIndex | src/matrixbridge.cpp:1473-1482 | One indexing at a time |
| Bridge.MatrixBridge.StartSearch | src/matrixbridge.cpp:1484-1505 | A new query replaces the search waited for, an empty one ends it |
| Bridge.MatrixBridge.ContinueSearch | src/matrixbridge.cpp:1507-1513 | No further page while one is in flight |
| Bridge.MatrixBridge.RemoveFromRoom | src/matrixbridge.cpp:1555-1563 | The register names the member under the id used |
| Bridge.MatrixBridge.FetchSpace | src/matrixbridge.cpp:1637-1643 | The register names the space under the id used |
| Bridge.MatrixBridge.ShowReaders | src/matrixbridge.cpp:1895-1904 | The register names the message under the id used |
| Bridge.MatrixBridge.ShowReactors | src/matrixbridge.cpp:1906-1915 | The register keeps the id used |
| Bridge.MatrixBridge.SendPicture | src/matrixbridge.cpp:2344-2352 | Files of one's own are remembered for removal |
| Bridge.MatrixBridge.ForgetRequest | src/matrixbridge.cpp:1363-1379 | The id leaves all six registers |
| Bridge.MatrixBridge.HandleReply | src/matrixbridge.cpp:2610-2784 | A refusal or a good answer takes the state where the specification says |
| Bridge.MatrixBridge.ReportWaits | src/matrixbridge.cpp:546-562 | Waits of ten seconds are noted once |
| Bridge.MatrixBridge.GiveUpOn | src/matrixbridge.cpp:572-626 | One command given up: every id, flag and register that waited for it lets go |
| Bridge.MatrixBridge.CheckStalledCommands | src/matrixbridge.cpp:546-651 | A round of the watchdog, in any order of the table, leaves the state the specification gives |
| OutgoingImage.GifExact | src/outgoingimage.cpp:65-118 | On the encoding of any GIF (GIF89a, sections 15 to 27) the walk answers exactly whether a comment or an XMP block occurs, whatever follows the trailer |
| OutgoingImage.WalkExact | src/outgoingimage.cpp:75-117 | The same from the first block on |
| OutgoingImage.BlocksOf | src/outgoingimage.cpp:75-117 | "None" is answered only for bytes that parse as blocks up to a trailer, none of them a comment or a block named XMP Data, of whatever size its name |
| OutgoingImage.FileOf | src/outgoingimage.cpp:65-118 | A file the walk finds nothing in is a screen descriptor, the colour table it announces, such blocks, a trailer, and any rest |
| OutgoingImage.TableSizeIs | src/outgoingimage.cpp:70-73 | The size of a colour table: three bytes for each of two to the power of the lower three bits plus one |
| OutgoingImage.SkipEncoded | src/outgoingimage.cpp:47-61 | Skipping encoded sub-blocks ends right after their terminator |
| OutgoingImage.SubsOf | src/outgoingimage.cpp:47-61 | What was skipped parses as sub-blocks |
| OutgoingImage.ExtExact | src/outgoingimage.cpp:85-102 | An extension is metadata exactly if it is a comment or an application named XMP Data |
| OutgoingImage.ImageExact | src/outgoingimage.cpp:103-116 | An image with or without its own colour table is passed over |
| OutgoingImage.SkipSubBlocks | src/outgoingimage.cpp:47-61 | Ends on every file, with the rest after the terminator or a short file |
| OutgoingImage.WalkExtAt | src/outgoingimage.cpp:85-102 | One extension of the walk |
| OutgoingImage.WalkImageAt | src/outgoingimage.cpp:103-116 | One image of the walk |
| OutgoingImage.GifCarriesMetadata | src/outgoingimage.cpp:65-118 | The walk ends on every file and answers what the specification answers |
| OutgoingImage.ScanExact | src/outgoingimage.cpp:169-193 | For every file, every way of cutting it and every mark of up to 33 bytes, some chunk with its carry holds the mark exactly if the file does |
| OutgoingImage.LongMarksAreMissed | src/outgoingimage.cpp:174-178 | Every longer mark is missed in some file that holds it, however large the reads: 33 is the bound of a 32-byte carry |
| OutgoingImage.NewOccurrence | src/outgoingimage.cpp:176-192 | An occurrence that was not there before reaches back no further than the carry |
| OutgoingImage.CarriedIsTail | src/outgoingimage.cpp:191 | The carry is the tail of all that was read |
| OutgoingImage.Scan | src/outgoingimage.cpp:174-192 | The scan finds something exactly if some mark is met in some chunk with its carry |
| OutgoingImage.ScanFile | src/outgoingimage.cpp:169-193 | With marks of 1 to 33 bytes the scan finds something exactly if one of them is in the file, however it is cut |

## Left out

- GStreamer, libnice, PulseAudio, Qt Multimedia, Speex, D-Bus, files, JSON, settings, QML, translations and log lines.
- Video in calls: camera, fallback, orientation and frames; the three seconds in which a relay is still released.
- Floating-point rounding and the widths of counters: unread counts, generations and positions are unbounded.
- How a notch's coefficients follow from its frequency.
- The decimation in the delay estimator's `push` and the vote of `check()` that moves the echo delay.
- Threads: their view, their tokens, and how they share the drift and resync path. Resolve and resync registers are not in the register invariant either, as the watchdog does not clear them.
- The bodies of requests and replies, and what pages show: a command is its kind, an answer whether it was good. What closing a thread or fetching keys sends beside an opening counts as other commands.
- The texts of failures in transcripts, the revision counter, and the subscription to the service's signals: signals may come at any time here.
- PNG chunks, TIFF heads and SVG marks of pictures; which of the marks apply to which format.
- The system call numbers of the three architectures: the filter is proved for all lists.
- Room order, space markers, link previews, location shares, drafts, the send queue, encryption and the rest of the Rust core.
- TimelineView.RowsFollowTheCurrentView: for the room timeline only, since closing a thread does not move its generation.
