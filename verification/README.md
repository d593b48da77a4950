# Portty phone core: a verified model

Portty is a remote terminal: a phone app talks to a host on a laptop over one
encrypted link at a time. This project models the parts of the phone app in
which loss, reordering, reconnects, host switches, stops and failing system
calls interact, and proves what those parts promise, for every input and every
run. `dafny verify dfyconfig.toml` checks all of it.

## What is modelled

**File transfers.** `Downloads` is one download: the staged file with its
cursor, the chunk counter, the running hasher, the restart counter. `Uploads`
is one upload: the streaming tasks and the links they send on, the file mutex,
the epoch that retires a pass, the cancel flag and the count of holders;
`UploadRuns` runs it under any interleaving. `Commit` is the last step of a
download: a rename, with a backup where rename does not overwrite, or a copy
that is verified again. `Transfers` puts all of this into one transition system
over arbitrary frames on arbitrarily many links, user commands, the second half
of `FileDone`, commits that fail anywhere, host-switch purges and probes.
`TransferSafety`, `Receiver`, `Limits`, `DiskUse`, `Ownership` and `EndToEnd`
prove its properties, `Streams` proves the two senders, `UploadStarts` where
passes start and end, `Recovery` what requests and their answers achieve, and
`Client` is the mutable registry, method by method, proved to stay within the
reachable states of the transition system.

**Links and requests.** `Links` is the slot of the current connection with a
kill switch and a session loop per generation. `Requests` is the per-generation
tables of waiting calls, with every lock-protected region as a step. `Sessions`
is both together: calls are registered under the slot's lock, results come
through the loop, and loops and takers clear the tables in the code's order.

**Terminal and chat.** `AltScreen` is the byte scanner for alternate-screen
switches. `Timeline` is the bounded per-session event cache, `Feed` the fold
from events to chat rows, `Markdown` the block scan of a message.

**Credentials, URLs and names.** `Migration` moves records between two stores
that may fail or stop at any step. `Utf8`, `FileUrls` and `FileNames` are the
decoding of picker URLs and the reduction of names.

## What the proofs found

- A restart after a failed verification ignores the results of `set_len` and
  `seek`. Whatever they did, the bytes of the current attempt are the ones just
  before the cursor, on every run and against every peer; so a verified file is
  what was declared exactly when the staged file has the declared length, which
  the code does not look at before the rename (`Receiver.ReceiverInvariant`,
  `Receiver.GenuineIff`). `Downloads.PassAfterRestartIff` says after which
  restarts a complete pass leaves the served file,
  `Receiver.FailedTruncateInstallsStaleBytes` and
  `EndToEnd.FailedSeekInstallsWrongFile` are runs that install and report a
  wrong one. Copies into documents verify again and are caught
  (`Receiver.CopySucceedsIff`).
- `disconnect`, and the taking down of an old link before a new one, take the
  connection out of the slot before they drop it. In between the loop may still
  dispatch frames (`Links.TakenLinkStillDispatches`); a loop is silent exactly
  when its connection was dropped or it has left its select
  (`Links.NoMoreFramesIff`).
- An ending loop clears the request tables before it gives up the slot. A
  request made in between is left to its own timer once the link is gone, and no
  other request ever is (`Sessions.StrandedIff`, `Sessions.StrandedWasLate`,
  `Sessions.StrandedCallExists`).
- The Windows replacement can report an error although the new file is
  installed, exactly when the first four calls work and the removal of the
  backup fails (`Commit.Disk.ReplaceDownloadFile`, `Commit.BackupStays`).
- The 6 GiB limit counts only what registered downloads wrote in their current
  attempts. Files being finished, files being copied, the documents they are
  copied to, and what failed restarts left staged come on top. In real bytes the
  staging files take at most 64 GiB, and 80 GiB with the documents, on every run;
  when no restart fails, 16 GiB and 32 GiB (`DiskUse.DiskBound`,
  `DiskUse.CleanDiskBound`). All four are reached
  (`DiskUse.DiskBoundIsReached`, `DiskUse.CleanBoundIsReached`).
- A host switch does not keep the old host's downloads out for good. One comes
  back exactly when a `FileDone` arm that held it fails its verification with
  restarts left, or when a `download_file` that saw the old link registers late
  (`Ownership.HandReturnsIff`, `Ownership.SwitchLastsIff`).
- A host refuses a request for a chunk that begins past the end of the file. A
  download that has all its chunks, the last one short, asks for exactly that one
  when only the final frame was lost; so it is given up although it is complete
  (`Recovery.AnswerEndsIff`, `Recovery.LostFinalFrameLosesDownload`).
- A failing upload pass looks at the epoch, stores the cancel flag and leaves the
  registry in separate steps. A retry in between is cancelled with it
  (`UploadStarts.SupersededTouchesIff`, `UploadStarts.LateFailureCancelsRetry`).
- `plain_file_name` refuses `.` and `..` before it truncates, so a long name can
  still be cut down to one of them; `FileNames.DotsIff` says exactly when, and
  `FileNames.FixedPointIff` that these are the only results it would not accept
  again.

## Assumptions

- BLAKE3 is an arbitrary function from byte strings to digests; no result
  relies on collisions being impossible.
- Each region under a lock is one step, and so is one `select`. `FileDone` has
  two steps, because it takes the transfer out of the registry and works on it
  before it puts it back. A retry clones the upload under the lock and starts its
  pass after it: the `FileRetry` frame does both in one step, and the two halves
  are also events of their own, so everything may happen in between
  (`UploadRuns.RetryIsHoldThenLaunch`). `FileErr` takes both of its lock regions in
  one step, which `TransferSafety.ErrIsAtomic` justifies. File writes take effect
  when they are called.
- Transfer ids stay below 2^63, the bit that marks probes, and 64-bit counters
  do not wrap.
- In `UploadRuns.FinishedPassIsTheFile` and `Streams.FullReadsArePass` a read fills
  its buffer except at the end of the file; the host's sender needs no such
  assumption, because it collects short reads.
- In the end-to-end results for documents the copy reads the staging file as it
  was written; that file lies in the app's private cache.
- A failed rename leaves both names as they were. A failed write to or removal
  from a credential store may have taken effect, but not in part.
- The backup, staging and target paths of a replacement are three different
  paths.

## Model

| member | source | states |
|---|---|---|
| `Downloads.AcceptKeepsSound` | app/src-tauri/src/lib.rs:1767-1856 | an accepted chunk appends exactly its bytes and keeps length, cursor, hasher and counter in step with the staged file |
| `Downloads.RestartKeepsSoundIff` | app/src-tauri/src/lib.rs:1922-1926 | a restart keeps them in step if and only if nothing was staged or both ignored calls worked |
| `Downloads.VerifiedSound` | app/src-tauri/src/lib.rs:1887-1888 | what passes verification has the declared length and digest on disk, not only in the counters |
| `Downloads.AcceptKeepsWindow` | app/src-tauri/src/lib.rs:1827-1856 | an accepted chunk keeps the bytes of the current attempt just before the cursor and equal to what was hashed |
| `Downloads.RestartKeepsWindow` | app/src-tauri/src/lib.rs:1922-1926 | so does a restart, whatever its two ignored calls did |
| `Downloads.LengthTells` | app/src-tauri/src/lib.rs:1887-1888 | hence a verified staged file is at least as long as declared, and of the declared length only if it is what was hashed, with the declared digest |
| `Downloads.AcceptKeepsCarries` | app/src-tauri/src/lib.rs:1767-1856 | against a peer serving one file the current attempt stays the first `next_seq` chunks of it |
| `Downloads.RestartKeepsCarries` | app/src-tauri/src/lib.rs:1922-1926 | also after any restart |
| `Downloads.CarriesVerifies` | app/src-tauri/src/lib.rs:1887-1888 | there verification passes exactly when every chunk was accepted, and the staged file is the served one exactly when it has its length |
| `Downloads.PassAfterRestartIff` | app/src-tauri/src/lib.rs:1922-1926 | a complete pass after a restart always verifies, and leaves the served file exactly when the cursor was rewound and no more than the file's length was left behind |
| `Uploads.TaskStep` | app/src-tauri/src/lib.rs:3082-3178 | one step of one streaming task sends at most one frame, and only moves the epoch, the cancel flag and the registration onward |
| `Uploads.StepKeepsRefs` | app/src-tauri/src/lib.rs:3074-3178 | no step of a task adds a holder, and the holder count stays exact |
| `Uploads.SendKeepsPasses` | app/src-tauri/src/lib.rs:3122-3144 | a sent chunk continues its task's pass with the next number, under the file mutex |
| `Uploads.FinishKeepsPasses` | app/src-tauri/src/lib.rs:3145-3155 | the final frame ends its pass and carries the whole file's size and digest |
| `Uploads.TaskStepKeepsPasses` | app/src-tauri/src/lib.rs:3082-3178 | every step keeps the log of sent frames a concatenation of passes |
| `UploadRuns.ApplyKeepsPasses` | app/src-tauri/src/lib.rs:2001-2044 | so do starts, retries, rejections, completions and purges |
| `UploadRuns.ApplyKeepsRefs` | app/src-tauri/src/lib.rs:2988-3072 | the holder count stays exact under every event, and once zero stays zero |
| `UploadRuns.RetryIsHoldThenLaunch` | app/src-tauri/src/lib.rs:2001-2019 | the retry arm in one step is its lock region followed by its spawn, which other events may separate |
| `UploadRuns.RunKeeps` | app/src-tauri/src/lib.rs:2988-3178 | both hold after every run from a newly opened upload |
| `UploadRuns.UploadIsPasses` | app/src-tauri/src/lib.rs:3082-3178 | over every run the frames are whole passes with consecutive numbers from their `from_seq`, never interleaved, and every final frame has the whole file's digest |
| `UploadRuns.RetiredSendsOneMore` | app/src-tauri/src/lib.rs:3100-3144 | a superseded or cancelled pass sends at most one further frame, whatever happens next |
| `UploadRuns.ApplyKeepsToOwner` | app/src-tauri/src/lib.rs:2001-2019 | every event keeps an upload's tasks and frames on links of its owner |
| `UploadRuns.FinishedPassIsTheFile` | app/src-tauri/src/lib.rs:3100-3155 | with full reads each chunk frame is the file's chunk of that number, and a finished pass sent all of them from its start |
| `UploadStarts.EveryPassIsAskedFor` | app/src-tauri/src/lib.rs:3073-3093 | over every run each task and each frame sent belongs to a pass that one event asked for, on that event's link: from chunk 0 if the command started it, from the asked chunk if a retry did |
| `UploadStarts.OneSpawn` | app/src-tauri/src/lib.rs:3093-3093 | and no other event of the run started that task |
| `UploadStarts.PassCompletes` | app/src-tauri/src/lib.rs:3100-3155 | a live pass that gets the file can send exactly the chunks from its start on and the digest of the whole file, and is then gone |
| `UploadStarts.FirstPassSendsTheFile` | app/src-tauri/src/lib.rs:3073-3155 | from the opened file there is a run in which the command's pass sends the whole file from its first chunk |
| `UploadStarts.UnaskedUploadIsTheFile` | app/src-tauri/src/lib.rs:3073-3155 | in every run without a retry, with full reads, an upload whose pass has finished has sent the whole file from its first chunk and nothing else |
| `UploadStarts.ConfirmedUploadIsReleased` | app/src-tauri/src/lib.rs:1873-1885 | once the host confirms it nothing holds the slot, and it was not cancelled |
| `UploadStarts.AbortedUploadIsReleased` | app/src-tauri/src/lib.rs:3058-3071 | nor once the request could not be sent |
| `UploadStarts.FailedCallEndsPass` | app/src-tauri/src/lib.rs:3100-3155 | a failing rewind, read or send ends the pass, frees the file and sends nothing |
| `UploadStarts.RetiredEndsQuietly` | app/src-tauri/src/lib.rs:3107-3117 | a cancelled or superseded pass ends at its next check and touches nothing else |
| `UploadStarts.SupersededTouchesIff` | app/src-tauri/src/lib.rs:3157-3172 | a superseded pass changes the cancel flag or the registry exactly when it fails and had looked at the epoch before it was superseded |
| `UploadStarts.LiveFailureGivesUp` | app/src-tauri/src/lib.rs:3157-3172 | the failure of the live pass cancels the upload and takes it out of the registry |
| `UploadStarts.LateFailureCancelsRetry` | app/src-tauri/src/lib.rs:3160-3163 | a run in which a retry comes between those two steps and is cancelled with the old pass |
| `TransferSafety.StepIsSafe` | app/src-tauri/src/lib.rs:1748-2044 | every step keeps ids apart, free permits plus live holders at four, holder counts exact, and the byte budgets |
| `TransferSafety.RunIsSafe` | app/src-tauri/src/lib.rs:2882-3072 | so these hold in every reachable state: four slots are conserved on every path, each download has at most 4 GiB and all together at most 6 GiB |
| `TransferSafety.ChunkIsSafe` | app/src-tauri/src/lib.rs:1758-1856 | a chunk that would pass either byte limit drops the download, and every chunk keeps ids, slots and both limits |
| `TransferSafety.FinishIsSafe` | app/src-tauri/src/lib.rs:1887-1997 | finishing gives the slot back, hands it to the document copy, or keeps it for the restart, and never two of these |
| `TransferSafety.OrderIsSafe` | app/src-tauri/src/lib.rs:2882-3003 | the lock regions of the user's commands keep all four, so a permit is taken, passed on or returned and never lost |
| `TransferSafety.PurgeIsSafe` | app/src-tauri/src/lib.rs:1406-1440 | purging a transfer returns its slot once, when its last holder is gone |
| `TransferSafety.TotalUpdate` | app/src-tauri/src/lib.rs:1758 | the sum over all downloads moves by exactly one entry's change |
| `TransferSafety.ProbesStayApart` | app/src-tauri/src/download_probe.rs:30-44 | over every run probe ids and transfer ids are told apart by the top bit |
| `TransferSafety.ProbeIsSettled` | app/src-tauri/src/download_probe.rs:51-112 | the first frame about a probe from the host that was asked settles it, a chunk also stops the stream, and no transfer is touched |
| `Receiver.ReceiverInvariant` | app/src-tauri/src/lib.rs:1748-1997 | with no assumption about any peer, disk or restart: on every run the bytes of each current attempt are those before its cursor and what was hashed, an install by rename has the declared digest if it has the declared length, a document reported complete has both, and one that is not holds at most the declared bytes |
| `Receiver.GenuineIff` | app/src-tauri/src/lib.rs:1928-1997 | over every run an install by rename is genuine exactly when its length is the declared one |
| `Receiver.CleanRunIff` | app/src-tauri/src/lib.rs:1888-1927 | a run has no restart that failed with bytes staged exactly when after each of its steps the staged files are what the counters and hashers say |
| `Receiver.CleanInstallsGenuine` | app/src-tauri/src/lib.rs:1887-1997 | in such a run whatever is installed or reported is genuine |
| `Receiver.StepKeepsStagedIff` | app/src-tauri/src/lib.rs:1888-1927 | one step keeps that bookkeeping exactly when the restart in it was clean |
| `Receiver.CopySucceedsIff` | app/src-tauri/src/local_files.rs:625-695 | in every reachable state a copy whose calls work succeeds exactly when the staged file has the declared length, and then the document is the staged file |
| `Receiver.FailedTruncateInstallsStaleBytes` | app/src-tauri/src/lib.rs:1888-1997 | a run in which a failed truncation lets one stale byte be installed and reported as a verified empty file |
| `Receiver.StepInstalls` | app/src-tauri/src/lib.rs:1928-1997 | a step puts at most one file in place: a verified one by a rename that works up to the install, reported or not, or what the copy loop left |
| `Receiver.VerifiedEnds` | app/src-tauri/src/lib.rs:1928-1997 | a verified download is installed, or its copy begun, exactly when flush and sync worked and the target takes it; otherwise its slot is freed |
| `Limits.EveryStepCounts` | app/src-tauri/src/lib.rs:48-63 | restarts left and bytes left decrease lexicographically with every accepted byte and every failed verification |
| `Limits.RunCounts` | app/src-tauri/src/lib.rs:1758-1927 | over its whole life and every run a transfer accepts at most 16 GiB |
| `Limits.StagedIsAccepted` | app/src-tauri/src/lib.rs:1827-1927 | neither its staging file nor the cursor is ever past the bytes accepted for it, wherever the transfer is and whatever its restarts did |
| `DiskUse.DiskBound` | app/src-tauri/src/lib.rs:54-57 | in every reachable state, and wherever the copies are, the staging files of downloads that are registered, being finished or being copied hold at most 64 GiB, and with the documents being written at most 80 GiB |
| `DiskUse.CleanDiskBound` | app/src-tauri/src/lib.rs:54-57 | in a run in which no restart fails, at most 16 GiB and 32 GiB |
| `DiskUse.DiskBoundIsReached` | app/src-tauri/src/lib.rs:1887-1997 | a run that reaches exactly 64 GiB and 80 GiB, with copies that read their own staging files |
| `DiskUse.CleanBoundIsReached` | app/src-tauri/src/local_files.rs:658-695 | a clean run that reaches exactly 16 GiB and 32 GiB |
| `Ownership.ForeignStep` | app/src-tauri/src/lib.rs:1748-2044 | a frame on another pairing's link leaves every download, upload, half-finished transfer and probe of an owner as it was |
| `Ownership.OwnerNonInterference` | app/src-tauri/src/lib.rs:1442-1468 | so does any run of such frames |
| `Ownership.ProbeIsForeign` | app/src-tauri/src/download_probe.rs:51-82 | an answer from a host that was not asked settles nothing |
| `Ownership.PurgeAllDoes` | app/src-tauri/src/lib.rs:1406-1440 | purging a list of ids does, for each, exactly what the code does and nothing to others |
| `Ownership.HostSwitchLeavesOnlyOwner` | app/src-tauri/src/lib.rs:1406-1440 | just after the purge only the new owner's transfers are registered, unchanged, and every other upload is cancelled |
| `Ownership.HandReturnsIff` | app/src-tauri/src/lib.rs:1406-1440 | the one step that finishes a `FileDone` arm after the purge registers a download of another owner exactly when the arm held one and its verification fails with restarts left |
| `Ownership.StepKeepsOwnersIff` | app/src-tauri/src/lib.rs:1887-1927 | no step but such a restart and a late `download_file` registers a download of another owner |
| `Ownership.SwitchLastsIff` | app/src-tauri/src/lib.rs:2906-2966 | over any run after a host switch only the new owner's downloads are ever registered exactly when neither of the two happens |
| `Ownership.FramesGoToOwner` | app/src-tauri/src/lib.rs:1399-1440 | over every run each frame of an upload went out on a link of the pairing it was started for |
| `EndToEnd.DownloadIsTheFile` | app/src-tauri/src/lib.rs:1748-1997 | from any served state, under any loss, repetition, reordering, link drops, resumes, failing calls and other traffic, whatever a rename installs is the file exactly when it has its length, and a document reported complete is the file |
| `EndToEnd.NewDownloadIsServed` | app/src-tauri/src/lib.rs:2951-2966 | in every reachable state a newly registered download is served, whatever the file, and nothing is installed under its id |
| `EndToEnd.EveryDownloadIsTold` | app/src-tauri/src/lib.rs:1748-1997 | from start-up through any run, the start of a download and any honest run: the same, installed at the target the user chose, and the download stays the one that was ordered, its bytes before the cursor always the file's first `next_seq` chunks |
| `EndToEnd.EveryCleanDownloadIsTheFile` | app/src-tauri/src/lib.rs:1748-1997 | if no restart of this download failed with bytes staged, whatever happened to others, what a rename installs and what is reported complete is the file |
| `EndToEnd.JobSoundStepIff` | app/src-tauri/src/lib.rs:1922-1926 | a step keeps one download's counters in step with its staged file exactly when it is no failing restart of that download |
| `EndToEnd.CleanJobIsTheFile` | app/src-tauri/src/lib.rs:1748-1997 | the same from any served state, with the job's document copies of the declared length |
| `EndToEnd.ResumedPassIff` | app/src-tauri/src/lib.rs:1173-1185 | the pass a host sends in answer to a resume installs the file, from any prefix, exactly when nothing stale was staged |
| `EndToEnd.ResumedPassFillsDocument` | app/src-tauri/src/lib.rs:1173-1185 | into a document it is reported complete exactly then, and is the file |
| `EndToEnd.FailedSeekInstallsWrongFile` | app/src-tauri/src/lib.rs:1922-1926 | for every file of more than one chunk an honest run from start-up that installs and reports a longer file |
| `Recovery.GapIsHealed` | app/src-tauri/src/lib.rs:1769-1779 | a chunk out of order changes nothing and makes the phone ask for a chunk from which the rest of the file, delivered in order, is accepted to the end |
| `Recovery.ResumeAsks` | app/src-tauri/src/lib.rs:1173-1185 | a new link of the owner asks for a download under its own path, from its first missing chunk and with its own permission; any other link asks for nothing |
| `Recovery.AnswerIs` | crates/host/src/file_transfer.rs:643-650 | the host answers a request for a chunk within the file with the pass from it, and refuses one for the chunk after a short last one |
| `Recovery.AnswerEndsIff` | crates/host/src/file_transfer.rs:351-400 | the answer to a request for the first missing chunk completes the download exactly then; otherwise it is given up |
| `Recovery.ResumeCompletesIff` | app/src-tauri/src/lib.rs:1173-1185 | the request a new link posts and the host's answer to it, together |
| `Recovery.GapCompletesIff` | app/src-tauri/src/lib.rs:1769-1779 | the request after a gap and the host's answer to it, together |
| `Recovery.RestartCompletes` | app/src-tauri/src/lib.rs:1922-1935 | the request after a failed verification and the host's answer to it always end in a verified file, which is the served one exactly when the restart undid what mattered |
| `Recovery.NoFourthRestart` | app/src-tauri/src/lib.rs:1894-1921 | after three restarts the download is dropped, its slot freed and the host told |
| `Recovery.LostFinalFrameLosesDownload` | crates/host/src/file_transfer.rs:643-646 | for every file with a short last chunk an honest run in which all of it arrives, the final frame is lost, and the resumed download is given up |
| `Streams.HostStream` | crates/host/src/file_transfer.rs:625-726 | whether or not the file opens, however its reads are cut up, wherever one fails, whatever changed underneath and whenever the link goes: the host sends exactly its answer, as far as the link takes it |
| `Streams.UploadStream` | app/src-tauri/src/lib.rs:3100-3155 | whatever its reads return: the phone sends one chunk per read from the asked number on and the digest of all of them, up to the check at which it is retired, the read that fails or the send that fails |
| `Streams.FinishedPassIsStreamed` | app/src-tauri/src/lib.rs:3100-3155 | with full reads every finished pass of an upload, in any run, is the one this loop sends alone |
| `Streams.FillChunk` | crates/host/src/file_transfer.rs:660-674 | short reads are collected into the file's next full chunk |
| `Streams.AnswerIsHonest` | crates/host/src/file_transfer.rs:648-714 | every frame of an answer from an unchanged file, failed or cut short as it may be, is one the end-to-end result allows |
| `Streams.AnswerCertifiesIff` | crates/host/src/file_transfer.rs:690-724 | the final frame certifies the bytes read exactly when the file opened, the start was within it, every read worked and nobody changed it; otherwise the last word is an error |
| `Streams.UploadCertifiesIff` | app/src-tauri/src/lib.rs:3100-3155 | so does the phone's exactly when the pass was not retired and no read failed |
| `Streams.AnswerIsPass` | crates/host/src/file_transfer.rs:648-714 | with no failing read and no change it is the whole pass from `start_seq` |
| `Streams.FullReadsArePass` | app/src-tauri/src/lib.rs:3100-3155 | with reads that fill the buffer the phone's frames are the pass of the file from the asked chunk, with the whole file's digest |
| `Client.ClientTransfers.OnFileChunk` | app/src-tauri/src/lib.rs:1748-1867 | branch by branch: a foreign chunk does nothing, a gap only asks for the first missing chunk, one past a limit or a failed write drops the download and tells the host, an oversized one is passed over, and an accepted one is written, hashed and counted |
| `Client.ClientTransfers.SumWritten` | app/src-tauri/src/lib.rs:1758 | the loop over all downloads computes their total |
| `Client.ReachableIsSound` | app/src-tauri/src/lib.rs:1748-2044 | between any two methods the registry is in a reachable state, so ids, slots, budgets, staged and installed bytes are as proved of every run |
| `Client.ClientTransfers.TakeOwnedDownload` | app/src-tauri/src/lib.rs:1442-1455 | it removes and returns the download exactly when the asking link owns it |
| `Client.ClientTransfers.OnFileDone` | app/src-tauri/src/lib.rs:1868-1887 | exactly an owned download moves into the loop's hand; an owned upload leaves the registry without being cancelled; anything else changes nothing |
| `Client.ClientTransfers.RestartDownload` | app/src-tauri/src/lib.rs:1888-1935 | the restart branch puts the download back and asks from chunk 0, or gives it up after the third time |
| `Client.ClientTransfers.FinishFileDone` | app/src-tauri/src/lib.rs:1887-1997 | the second half restarts, gives up, renames into place or starts a copy as the transition system does, and leaves the hand empty |
| `Client.ClientTransfers.OnFileErr` | app/src-tauri/src/lib.rs:2020-2044 | afterwards the link owns neither a download nor a registered upload of that id, at most one of the two maps changed, and an owned upload is cancelled |
| `TransferSafety.ErrIsAtomic` | app/src-tauri/src/lib.rs:2025-2034 | whatever happens between the two lock regions of `FileErr`, the outcome is that of both in one step, before it or after it |
| `Client.ClientTransfers.OnFileRetry` | app/src-tauri/src/lib.rs:2001-2019 | for an owned upload the epoch goes up by one, one new pass waits on the asking link from the asked chunk, every earlier pass is retired and nothing is sent; otherwise nothing changes |
| `Client.ClientTransfers.Answer` | app/src-tauri/src/download_probe.rs:51-82 | a probe is settled exactly by the host that was asked, a chunk stops the stream, and any further answer from any link changes nothing |
| `Client.ProbeSettlesOnce` | app/src-tauri/src/download_probe.rs:51-82 | the second answer to a probe changes nothing |
| `Client.ClientTransfers.Dispatch` | app/src-tauri/src/lib.rs:1748-2044 | one frame on one link takes exactly the transition system's step |
| `Client.ClientTransfers.FinishDocument` | app/src-tauri/src/local_files.rs:532-575 | running the copy records what it left at the destination and whether it was complete, frees the slot, and removes the document only if nothing is left in it |
| `Client.ClientTransfers.AcquireSlot` | app/src-tauri/src/lib.rs:2892-2899 | a command gets a slot exactly when one is free |
| `Client.ClientTransfers.ReleaseSlot` | app/src-tauri/src/lib.rs:2892-2966 | an error path gives exactly one back |
| `Client.ClientTransfers.RegisterDownload` | app/src-tauri/src/lib.rs:2951-2966 | a new id gets an empty download with the owner, path, permission and target that were ordered, and keeps the command's slot |
| `Client.ClientTransfers.StartDownload` | app/src-tauri/src/lib.rs:2906-2982 | the new download is asked for from chunk 0 under its path and permission, or, if that cannot be sent, leaves no trace |
| `Client.ClientTransfers.RegisterUpload` | app/src-tauri/src/lib.rs:2994-3049 | a new id gets an upload held by the registry and the command |
| `Client.ClientTransfers.TakeTransfersNotOwnedBy` | app/src-tauri/src/lib.rs:1406-1440 | both loops leave only the owner's downloads and registered uploads, cancel the others, and return exactly the slots nobody holds any more |
| `Client.ClientTransfers.ResumeDownloads` | app/src-tauri/src/lib.rs:1173-1185 | each of the owner's downloads, and nothing else, is asked for once; the i-th frame carries its id, path, next chunk and permission |
| `Commit.Disk.ReplaceDownloadFile` | app/src-tauri/src/lib.rs:270-307 | on both platforms, wherever it fails or stops, the old bytes are at the target or the backup or the new ones are at the target and no other file changes; from the inputs alone: when the new file is in place, when that is reported, and when an error hides it |
| `Commit.BackupStays` | app/src-tauri/src/lib.rs:305-306 | a replacement that installs the new file and reports an error |
| `Commit.Document.CopyVerified` | app/src-tauri/src/local_files.rs:658-695 | the loop leaves what its specification says, never more than `size` bytes, and succeeds exactly when the specification does |
| `Commit.CopiedIsDelivered` | app/src-tauri/src/local_files.rs:658-695 | the destination holds only what was read, an unfailed loop all of it, and without failing writes the loop fails exactly when a read does or too much is read |
| `Commit.CopiesIff` | app/src-tauri/src/local_files.rs:658-695 | success means the destination is exactly what was read, with the verified size and digest; if no call fails that is all it takes |
| `Commit.Document.CommitByCopy` | app/src-tauri/src/local_files.rs:625-656 | the destination is touched only after the staged file was opened, the staging file is always given up, success means bytes of the verified size and digest, and a failure leaves the destination unopened, emptied or flagged |
| `Commit.Document.DiscardIfEmpty` | app/src-tauri/src/android_documents.rs:114-140 | the two attempts remove the document exactly when it is checked to be a regular, empty file and one of them deletes it |
| `Commit.Document.SaveDocument` | app/src-tauri/src/local_files.rs:534-608 | after a failed copy what the user is told about the destination is true: removed, empty, possibly incomplete, or unwritten; a document that holds anything is never removed |
| `Links.StepKeepsSlot` | app/src-tauri/src/lib.rs:1137-1149 | at most one generation is installed, it is the one in the slot, and its loop has not ended |
| `Links.RunKeeps` | app/src-tauri/src/lib.rs:2139-2161 | over every run that holds, and `disconnected` was said at most once per generation and only about one that is gone |
| `Links.AtMostOneDisconnected` | app/src-tauri/src/lib.rs:3485-3499 | each generation causes at most one `disconnected` event |
| `Links.AnnouncesIff` | app/src-tauri/src/lib.rs:2153-2161 | it is announced exactly when a link taken to disconnect is dropped or a loop leaves while its link is current |
| `Links.DroppedLoopEnds` | app/src-tauri/src/lib.rs:1514-1517 | the loop of a dropped link comes to its end by its own steps |
| `Links.RunFrom` | app/src-tauri/src/lib.rs:1134-1149 | a generation that is not installed never is again, and a dropped one stays dropped |
| `Links.LoopTouchesOnlyItself` | app/src-tauri/src/lib.rs:2155-2161 | no step of a stale or ending loop changes another generation or takes it out of the slot |
| `Links.SilentStays` | app/src-tauri/src/lib.rs:1508-1517 | once its connection is dropped a loop dispatches no further frame in any run |
| `Links.NoMoreFramesIff` | app/src-tauri/src/lib.rs:1508-1517 | and that is exactly when: otherwise some run makes it dispatch one more |
| `Links.RetiredIsSilent` | app/src-tauri/src/lib.rs:3485-3499 | a replaced link is silent at once, a taken one once it is dropped |
| `Links.TakenLinkStillDispatches` | app/src-tauri/src/lib.rs:3488-3497 | a run in which a frame is dispatched between take and drop |
| `Links.CurrentConnection.Install` | app/src-tauri/src/lib.rs:1137-1149 | publishing installs the new generation and drops the old one |
| `Links.CurrentConnection.TakeCurrent` | app/src-tauri/src/lib.rs:961-963 | taking empties the slot and keeps the link alive in hand |
| `Links.CurrentConnection.TakeConnectionForPeer` | app/src-tauri/src/lib.rs:3466-3479 | only a link to that peer is taken |
| `Links.CurrentConnection.RemoveConnectionIfCurrent` | app/src-tauri/src/lib.rs:2200-2208 | it clears the slot exactly when the given generation is in it |
| `Links.CurrentConnection.Disconnect` | app/src-tauri/src/lib.rs:3485-3499 | it drops the installed link and announces it, or reports that there was none |
| `Requests.StepIsAffected` | app/src-tauri/src/lib.rs:1630-1647 | the tables do to each call exactly what the event means for that call alone |
| `Requests.RunIsOk` | app/src-tauri/src/lib.rs:2718-2769 | over every run the tables hold exactly the open channels, and each call's stage agrees with its channels |
| `Requests.FinishedLeavesNothing` | app/src-tauri/src/lib.rs:2718-2769 | when a call has returned, by any path, its id is in neither table of any generation |
| `Requests.AnswerIsFinal` | app/src-tauri/src/lib.rs:661-696 | a call ends once: later events never change its answer |
| `Requests.EveryAnswerIsOwn` | app/src-tauri/src/lib.rs:661-696 | every answer has its cause after the call's own start: its result on its own link, a clear of that link's table, its own timer, the refusal of its own frame, or a confirmed listing that was cleared or timed out |
| `Requests.OtherGenerationsAreUntouched` | app/src-tauri/src/lib.rs:1630-1647 | a frame or clear on one generation changes no call of another |
| `Requests.EveryCallGoesOn` | app/src-tauri/src/lib.rs:661-696 | an unfinished call always has a next step of its own, each one brings it closer to its end, and nothing takes it further away |
| `Requests.CauseGivesAnswer` | app/src-tauri/src/lib.rs:679-696 | a refused frame, a timer, a closed channel, a result and a listing each give the call their own answer |
| `Requests.CommandIsAnswered` | app/src-tauri/src/lib.rs:661-696 | after any run, a command whose frame is taken and whose result comes returns that result |
| `Requests.ListingIsAnswered` | app/src-tauri/src/lib.rs:2718-2769 | and a confirmed listing returns its names |
| `Sessions.RunKeepsInv` | app/src-tauri/src/lib.rs:669-678 | over every run of links, loops, takers and callers together, an open call belongs to a generation that exists, was passed by no taker's clear, and by its loop's clear only if it came later |
| `Sessions.StrandedIff` | app/src-tauri/src/lib.rs:2139-2161 | a waiting call is left to its own timer, whatever happens, exactly when its generation is gone and its loop's clear is past |
| `Sessions.StrandedWasLate` | app/src-tauri/src/lib.rs:2139-2161 | only a call registered between the loop's clear and its leaving the slot gets there |
| `Sessions.EarlyCallsAreSettled` | app/src-tauri/src/lib.rs:2139-2146 | a call registered before its loop's clear is settled by it at the latest |
| `Sessions.LoopClearsFirst` | app/src-tauri/src/lib.rs:2139-2146 | from start-up a link is reached that is still in the slot while its loop has cleared both tables |
| `Sessions.StrandedCallExists` | app/src-tauri/src/lib.rs:2139-2161 | from there a request is registered, queued and stranded |
| `Sessions.RequestIsAnswered` | app/src-tauri/src/lib.rs:1630-1635 | on a working link a request is queued, its result comes in through the loop, and it returns it |
| `Sessions.DirsArrive` | app/src-tauri/src/lib.rs:1639-1647 | and a confirmed listing returns the names that come in |
| `Sessions.FrameIsHandled` | app/src-tauri/src/lib.rs:1630-1647 | a frame on the link in the slot is handed to that generation's tables and to no other |
| `Requests.RequestTables.Register` | app/src-tauri/src/lib.rs:667-678 | a call gets a new id in the table of the generation found in the slot; without one it fails and leaves no trace |
| `Requests.RequestTables.OnCommandResult` | app/src-tauri/src/lib.rs:1630-1635 | a result settles the call waiting under its id on its link, if there is one, and removes the entry |
| `Requests.RequestTables.OnWorkspaceDirs` | app/src-tauri/src/lib.rs:1639-1647 | so does a listing in the second table |
| `Requests.RequestTables.ClearTables` | app/src-tauri/src/lib.rs:2139-2146 | an ending loop wakes every waiting call of its generation and leaves neither table an entry |
| `AltScreen.FlipIffGrammar` | app/src/lib/altscreen.ts:91-164 | the scanner flips at a byte exactly when the bytes so far end in a reset or in a private-mode sequence with 47, 1047 or 1049 among at most 32 parameter bytes |
| `AltScreen.ModesIffGrammar` | app/src/lib/altscreen.ts:91-164 | after any stream the alternate screen, cursor-key and mouse modes are those the grammar gives |
| `AltScreen.SplitIsFields` | app/src/lib/altscreen.ts:133-143 | splitting at semicolons finds exactly the parameters between them |
| `AltScreen.RunIsLocated` | app/src/lib/altscreen.ts:91-164 | each of the five states says exactly how the bytes so far end |
| `AltScreen.CutAnywhere` | app/src/lib/altscreen.ts:91-169 | cutting a stream in two changes neither the final state nor any flip's offset |
| `AltScreen.ChunkingDoesNotMatter` | app/src/lib/altscreen.ts:91-169 | nor does any way of cutting it, from any starting state |
| `AltScreen.SegmentsJoin` | app/src/lib/altscreen.ts:91-169 | the segments of a chunk concatenate to the chunk |
| `AltScreen.SegmentsTell` | app/src/lib/altscreen.ts:91-169 | segment i ends with the byte of flip i and says which way it flips; the rest is one segment that flips nothing |
| `AltScreen.FlipsAre` | app/src/lib/altscreen.ts:91-169 | the flips of a chunk are exactly the bytes at which the scanner flips |
| `AltScreen.AltScreenScanner.EndModes` | app/src/lib/altscreen.ts:130-143 | the end of a parameter list sets every mode it names and reports whether it switches screens |
| `AltScreen.AltScreenScanner.Feed` | app/src/lib/altscreen.ts:91-164 | one byte moves the fields as the automaton does |
| `AltScreen.AltScreenScanner.Scan` | app/src/lib/altscreen.ts:91-169 | the loop ends in the automaton's state and cuts after every flip, losing no byte |
| `AltScreen.AltScreenScanner.MouseReporting` | app/src/lib/altscreen.ts:80-82 | mouse reporting is on exactly while some mouse mode is set |
| `AltScreen.AltScreenScanner.Forget` | app/src/lib/altscreen.ts:53-59 | a reset forgets the partial sequence and all modes |
| `Timeline.MergeAgentBatch` | app/src/App.tsx:2372-2411 | the stored list is strictly sorted, is exactly the newest 2000 of the union plus the newest of each sticky kind, and has at most 2007 entries |
| `Timeline.KeptExactly` | app/src/App.tsx:2384-2407 | kept are the events with fewer than 2000 newer ones, and the newest of available_commands, mode_state, config_options, session_info, replaying, auth_required and usage |
| `Timeline.IndexIsLast` | app/src/App.tsx:2381-2382 | a sequence number stands for the last event that has it |
| `Timeline.PruneThenMerge` | app/src/App.tsx:2372-2411 | merging into the pruned list gives what merging into the whole history would |
| `Timeline.StoredIsKept` | app/src/App.tsx:2372-2411 | after any sequence of batches the stored list is the kept part of everything ever sent |
| `Timeline.TimelineConverges` | app/src/App.tsx:2372-2411 | two clients that saw the same events, in any batches, order and repetition, show the same list |
| `Timeline.TimelineIsBounded` | app/src/App.tsx:2380-2407 | no kept history has more than 2007 events |
| `Timeline.PrunedLatest` | app/src/App.tsx:2385-2407 | for each sticky kind the pruned history has a newest event exactly when the whole one has, and the same |
| `Timeline.Latest` | app/src/AgentView.tsx:560-568 | the backward scan finds the newest event of a kind, or there is none |
| `Timeline.SortBySeq` | app/src/App.tsx:2383-2407 | sorting keeps exactly the members, in strictly increasing order |
| `Timeline.RetainLatest` | app/src/App.tsx:2397-2406 | one turn of the loop keeps the newest event of one sticky kind, once |
| `Timeline.AgentTimelines.Merge` | app/src/App.tsx:2372-2411 | a batch for one session keeps every session's list the kept part of what it was sent |
| `Timeline.AgentTimelines.LatestOf` | app/src/AgentView.tsx:560-568 | asking the stored list for a sticky kind answers for the whole history |
| `Feed.BuildFeed` | app/src/AgentView.tsx:109-200 | the loop with its two indices builds exactly one row per opening event, each as that row's own history says, and a trailing row exactly while a turn runs |
| `Feed.FeedOnlyGrows` | app/src/AgentView.tsx:109-200 | more events never remove or move a row, change its kind or shorten its text, nor its sequence number or tool id; only a plan row takes the number of its latest plan |
| `Feed.NoTwins` | app/src/AgentView.tsx:130-141 | two assistant rows, or two thought rows, are never adjacent |
| `Feed.FeedKeepsAllText` | app/src/AgentView.tsx:130-141 | the assistant rows concatenate to all message chunks in order, the thought rows to all thought chunks |
| `Feed.FeedKeepsAllEvents` | app/src/AgentView.tsx:121-186 | the user, error and tool rows, in order, are exactly the user messages, errors and tool calls in order, with their texts, ids and numbers |
| `Feed.EveryEventIsShown` | app/src/AgentView.tsx:130-178 | every text chunk is in the latest row and every plan has a row in its turn |
| `Feed.ToolRowShowsLastFields` | app/src/AgentView.tsx:142-168 | a tool row shows, field by field, the last value given by the updates that reach it |
| `Feed.LastGivenIsLast` | app/src/AgentView.tsx:156-168 | which is the value of the last such update that gives one, or the opening value |
| `Feed.LastUpdateShows` | app/src/AgentView.tsx:156-168 | title, kind, status and detail are each those of the last update that reaches the row and gives one |
| `Feed.PlanRowShowsLastPlan` | app/src/AgentView.tsx:169-178 | a plan row shows the entries and the number of the last plan of its turn |
| `Feed.WorkingIff` | app/src/AgentView.tsx:117-118 | a turn runs exactly when one started and none has finished since |
| `Feed.ToolsStep` | app/src/AgentView.tsx:142-182 | the tool index always holds exactly the rows that updates can still reach |
| `Feed.PlanStep` | app/src/AgentView.tsx:169-182 | the plan index always holds exactly this turn's plan row |
| `Markdown.RenderMarkdown` | app/src/AgentView.tsx:242-297 | the nested loops terminate and yield the maximal runs of fenced, list, heading and plain lines, an unclosed fence included |
| `Markdown.EveryLineOnce` | app/src/AgentView.tsx:242-297 | the blocks show every line exactly once and in order: code and prose whole, items and headings without their markers, fences and blank lines not at all |
| `Markdown.HeadingIsWholeIff` | app/src/AgentView.tsx:273-275 | a heading shows the whole rest of its line exactly when no carriage return, U+2028 or U+2029 is in it, and otherwise what precedes the first one |
| `Markdown.TakeCode` | app/src/AgentView.tsx:248-262 | the fence loop takes exactly the lines up to the closing fence or the end |
| `Markdown.TakeList` | app/src/AgentView.tsx:263-272 | the list loop takes exactly the run of list lines, without their markers |
| `Markdown.TakeParagraph` | app/src/AgentView.tsx:279-291 | the paragraph loop takes exactly the run of plain lines |
| `Markdown.ListIffCuts` | app/src/AgentView.tsx:209 | every line that fits the list pattern is a list line, with that text and that kind of marker |
| `Markdown.ListHasCuts` | app/src/AgentView.tsx:209 | and only those |
| `Markdown.ListKindIsFirst` | app/src/AgentView.tsx:263-272 | a list is ordered exactly when its first marker is a number |
| `Markdown.HeadingIffCuts` | app/src/AgentView.tsx:273-275 | every line that fits the heading pattern is a heading, with that text |
| `Markdown.HeadingHasCuts` | app/src/AgentView.tsx:285-285 | and only those |
| `Markdown.FenceIff` | app/src/AgentView.tsx:248-248 | a fence is a line that begins with three backquotes |
| `Markdown.BlankIff` | app/src/AgentView.tsx:282-282 | a blank line is nothing but white space |
| `Markdown.InCodeIsOdd` | app/src/AgentView.tsx:248-262 | a line is code exactly when an odd number of fences precedes it |
| `Markdown.BlockKinds` | app/src/AgentView.tsx:248-297 | each block has the kind of the line that starts it |
| `Migration.Credentials.LoadOrMigrate` | app/src-tauri/src/mobile_credentials.rs:88-146 | wherever it fails or stops no existing record's effective value changes; a success leaves no legacy file; if nothing fails it succeeds exactly when the records load, and otherwise undoes its copies |
| `Migration.Credentials.Runs` | app/src-tauri/src/mobile_credentials.rs:88-146 | nor does any sequence of runs, each failing or stopping where it may, change one |
| `Migration.Credentials.Migrate` | app/src-tauri/src/mobile_credentials.rs:95-114 | the first loop copies exactly the records the secure store lacks, or a part of them |
| `Migration.Credentials.LoadIdentity` | crates/transport/src/identity.rs:127-136 | the identity loader leaves an existing record alone and may create a missing one |
| `Migration.Credentials.LoadPeers` | crates/transport/src/peers.rs:199-258 | the peer loader only reads and refuses a corrupt revocation record |
| `Migration.Credentials.RollBack` | app/src-tauri/src/mobile_credentials.rs:123-130 | the roll-back removes copies of this attempt only |
| `Migration.Credentials.RemoveFiles` | app/src-tauri/src/mobile_credentials.rs:133-143 | the last loop removes file records only, and all five if it succeeds |
| `Migration.RollBackKeeps` | app/src-tauri/src/mobile_credentials.rs:123-130 | undoing any part of the copies loses nothing |
| `Migration.RemovalKeeps` | app/src-tauri/src/mobile_credentials.rs:133-143 | removing any part of the files loses nothing once everything was copied |
| `Utf8.DecodeIff` | app/src-tauri/src/local_files.rs:313-313 | bytes decode to a text exactly when they are that text's bytes |
| `FileUrls.PercentDecode` | app/src-tauri/src/local_files.rs:297-314 | it yields a text exactly when the input is a percent-encoding of that text's bytes, in either case of hex digits; so it inverts every encoding and fails exactly on bad escapes or bad UTF-8 |
| `FileUrls.OneReading` | app/src-tauri/src/local_files.rs:297-314 | a text has at most one reading as raw bytes and escapes |
| `FileUrls.FileUrlToPath` | app/src-tauri/src/local_files.rs:136-149 | it yields a path exactly when the URL names it and it is absolute, without control characters, empty or dot segments |
| `FileUrls.EveryPlainPathHasAUrl` | app/src-tauri/src/local_files.rs:126-149 | every such path is named by some URL |
| `FileUrls.SplitIsPlain` | app/src-tauri/src/local_files.rs:142-144 | checking the split parts is checking every stretch between slashes |
| `FileNames.PlainFileName` | app/src-tauri/src/local_files.rs:262-281 | the truncation loop ends at the longest whole-character prefix within 255 bytes, and the rest is the pure chain around it |
| `FileNames.StopsAtFit` | app/src-tauri/src/local_files.rs:276-279 | the greatest character boundary within the limit ends that prefix |
| `FileNames.NameIsPlain` | app/src-tauri/src/local_files.rs:262-281 | a result is not empty, at most 255 bytes, trimmed, and free of separators, control and reserved characters |
| `FileNames.PlainNameStays` | app/src-tauri/src/local_files.rs:262-281 | a name that is already so is left alone, except that `.` and `..` are refused |
| `FileNames.FixedPointIff` | app/src-tauri/src/local_files.rs:262-281 | a result is a fixed point exactly when it is neither |
| `FileNames.DotsIff` | app/src-tauri/src/local_files.rs:273-280 | a result is `.` or `..` exactly when the name was too long and only white space follows the dots within the limit |
| `FileNames.DotSlipsThrough` | app/src-tauri/src/local_files.rs:273-280 | a family of names that are cut down to `.` |
| `FileNames.LastPartIs` | app/src-tauri/src/local_files.rs:263-263 | only what follows the last separator counts |
| `FileNames.ScrubbedParts` | app/src-tauri/src/local_files.rs:264-271 | characters are scrubbed one by one, independently of their neighbours |
| `FileNames.ScrubbedAt` | app/src-tauri/src/local_files.rs:264-271 | position by position the seven reserved characters become underscores and every other one stays |
| `FileNames.ControlsVanish` | app/src-tauri/src/local_files.rs:266-266 | exactly the control characters are dropped |
| `FileNames.FileNameIs` | app/src-tauri/src/local_files.rs:262-281 | the name is the cleaned text cut after its longest prefix of at most 255 bytes and trimmed again; there is none exactly for an empty or dot text |
| `FileNames.ShortNameIs` | app/src-tauri/src/local_files.rs:262-281 | a short plain-looking name keeps everything but the white space around it and its reserved characters |
| `FileNames.CleanedIs` | app/src-tauri/src/local_files.rs:263-272 | the cleaned name is the scrubbed last part without the white space around it |

## Left out

- The permission-card list of the app and its automatic approvals: the policy engine behind it decides the outcome, and without it only set and list updates remain.
- The host's session engine, the handshake, the envelope cipher and the frame codec: links deliver decoded frames.
- Warm resume of terminal output (`last_seen_seq`): it depends on the host's replay rules.
- `PairRevoked`, the peer store's own operations and nickname files.
- Progress events and user-visible messages, except `disconnected`, whose count is proved, and what is said about a document after a failed copy.
- The interior of `renderInline` (inline code, bold, links), the parsing of `content://` URIs and connection-error texts: small cases that would add easy members.
- The unpair, session, provider and root tables next to the request tables: they work like the one-table call.
- Migration.Credentials.LoadOrMigrate: says nothing about the grace record, which the loader reads from the secure store and the code neither migrates nor removes.
- Migration.Credentials.Runs: the loaders' decoders are parameters, so what counts as a corrupt record is not modelled.
- DiskUse.DiskBound: counts the files of transfers that hold a slot; a staging file whose removal failed after its transfer ended, a Windows backup and finished files are not counted.
- Links.NoMoreFramesIff: one poll of the select is one step, so a kill that lands inside a poll counts as before or after it.
- Markdown.RenderMarkdown: works on Unicode characters where the source works on UTF-16 units; every character it looks for is a single unit.
