# Geda Transfer, verified

Geda Transfer moves photographs from phones to a computer and back, and may delete them from the
phone afterwards. This project models the code that stands between a received byte and the loss of
the last copy of a photograph, together with the schedulers and protocols around it, and proves what
that code keeps in every run.

`dafny verify dfyconfig.toml` checks all of it.

## How it is modelled

- `ledger.dfy` is the receiver as a transition system: the tables `files`, `pair_basenames` and
  `conversions`, the destination directory, and the conversion workers. SQL statements, renames and
  unlinks are steps, so a crash, another worker or the world outside may come between any two; three
  steps join effects: a commit's exclusive create with its ledger transaction, the exclusive create
  of a copy's name with the rename over it, and the two deletions after a failed rename.
  `receiver.dfy` has the methods of the store and the queue as they are written,
  each proved to take exactly those steps; `conversions.dfy`, `allocator.dfy`, `receiver_runs.dfy`,
  `guarantees.dfy`, `limits.dfy` and `custody.dfy` prove what every run of them keeps, and
  `failing_runs.dfy` has the runs in which it is not kept.
- `naming.dfy` over `texts.dfy` renders templates, `variables.dfy` says what the variables stand for and what
  whole templates come to, and `spellings.dfy` has the names that the runs of `failing_runs.dfy` need;
  `output_policy.dfy` decides about conversions, and `endings.dfy` says for which file names;
  `hashing.dfy` and `upload.dfy` are the digests and the hashing of an upload while it lands.
- `selection.dfy`, `deletion.dfy` and `reclaim.dfy` are the phone's side of delete-after-transfer.
- `outbox.dfy`, `delivery.dfy` and `inbox.dfy` are the way back: a receiver's outbox, the two-party
  protocol, in which checking, reading and handing out an item is one step of the receiver, and one
  phone's inbox; `swapped_save.dfy` has a run in which what is delivered was not saved.
- `work_queue.dfy`, `migrations.dfy`, `rate_limit.dfy`, `throughput.dfy` and `sweep.dfy` are the
  pausable queue, the migrations by several processes, the token bucket, the upload order with the
  background selection, and the prefix arithmetic.

The theorems about runs of the receiver are for any way of naming files that gives well-formed names
(`Naming.Rules`). `Naming.RulesOf` is the receiver's own, `Naming.RendersNames` that it is one of them;
where a theorem depends on more of it, that is a lemma of its own (`Allocator.CodeCountersApart`,
`Spellings.CodeRendersAsWritten`).

A digest is modelled by what it stands for: two are equal exactly when the digested bytes are. Text
is a sequence of Unicode scalar values, and of bytes where the code counts bytes. Unicode tables,
what tools and disks do, which request is lost, and what arrives are parameters, and every theorem
is for all of them. Histories that no program stores (which rows finished, what was ever put away,
what became of an item) are components of the state machines that only the theorems read.

The code does not check three things about where commits land, and custody depends on each of them:
that no two rows are one place on disk under two spellings, that none lies directly in the directory
of partial uploads, and that no video stored under the extension of a converted still is to be
replaced. `Guarantees.CustodyInEveryRun` is for runs with these three and nothing else;
`Limits.CustodyExactlyThroughout` is for all runs and says step by step which end custody, in terms of
what is on disk, and `Limits.KeptExactlyThroughout` does so in terms that can be looked up before the
step. `FailingRuns` has, for each of the three, a run that breaks it alone and loses a file.

The allocator's promise about pairs has one exception of its own: undoing a commit whose rename failed
removes the row but not the pair's reservation (`Allocator.AllocatedExactlyThroughout`), after which
a stranger may be given the reserved basename (`FailingRuns.StrangersShareABasename`). And the work
queue keeps what is in flight in a table by item, so an item added again while it is being worked on
escapes the limit, the pause and the wait for idle (`WorkQueues.TrackedExactlyThroughout`).

A phone reads a verified download once more to put it away, by a name made from the item alone. If the
user cancels in between and the item is asked for again, what is put away may be something else
(`Delivery.HonestExactlyThroughout`, `SwappedSave.DeliveredButNotSaved`).

Where the code and its comments differ the model follows the code: a cancel of a paused queue leaves
its waiters behind although `whenIdle` promises to resolve (`WorkQueues.StrandedExactly`), and a short
write to a partial upload is counted although the hasher never saw it (`Uploads.DigestIsOfTheFile`). The
separators around a variable without a value are not collapsed (`Variables.NamedByDate`).

## Model

| member | source | states |
|---|---|---|
| `Limits.CustodyExactlyThroughout` | core/formats/queue.go:290-358 | For every run from a fresh ledger, with crashes, sweeps and failures anywhere and no hypothesis about the commits: custody of every finished, unmarked row holds at every point of the run if and only if every step was harmless when taken. |
| `Limits.KeptExactlyThroughout` | core/formats/queue.go:290-358 | The same with conditions that can be looked up before each step: every row whose bytes were moved in and not deleted has them, and every deleted one is marked, at every point of a run, if and only if no step touched the place of another such row and no mark was taken back from a deleted file. It implies custody. |
| `Limits.KeptExactly` | core/formats/queue.go:344-358 | One step keeps that if and only if it is gentle: told from places on disk and from what was deleted before, not from what is there after. |
| `Limits.CustodyKeptExactly` | core/formats/queue.go:344-358 | One step from a state in custody keeps it if and only if it does not sweep, take back or delete a live row under any spelling of its path, move other bytes over one, or undo the mark of a row whose bytes are not there. |
| `Limits.IrrevocableNeverMarked` | core/formats/queue.go:344-358 | In every run at all, whatever was stored as preset and matrix and whatever the commits: a pair member, a file sent as kind "file" and a file of the raw class is never marked as removed and no worker is ever about to delete it. Which files are of that class is in Endings.EndingDecides. |
| `Endings.EndingDecides` | core/formats/formats.go:278-329 | Which class an extension puts a file in, by the list of extensions of each class, in any case of the letters and behind any stem, in both directions; kind "file" is of no class at all. |
| `Endings.CaseIsIgnored` | core/formats/formats.go:283-291 | Names whose extensions differ in the case of ASCII letters alone have one class. |
| `Endings.NoEndingIsByKind` | core/formats/formats.go:294-302 | A name without a dot after its last slash is a video if it was sent as one, and of no class otherwise. |
| `Endings.RawOnThePhone` | mobile/src/core/selection.ts:358-366 | What the phone takes for a raw negative: three type identifiers or ten endings in any case, in both directions. |
| `Endings.NegativesAreKept` | core/formats/formats.go:260-291 | Whatever the phone takes for a raw negative by its name is raw to the receiver as well and kept under every policy, unless it was sent as kind "file". |
| `Endings.NegativesNeverMarked` | core/formats/queue.go:344-358 | In every run at all, a file with the name of a raw negative is never marked as removed and no worker is about to delete it, whatever kind it was sent as. |
| `Endings.NegativesStay` | core/formats/queue.go:290-358 | In the runs that keep custody the bytes of such a file are where they were put. |
| `Endings.ConvertedTo` | core/formats/convert.go:136-164 | What is converted and to what: a HEIC to .jpg, a video to .mp4 unless its name ends so in any case, and nothing else. |
| `FailingRuns.SecondSpellingIsDeleted` | core/storage/storage.go:425-450 | A run the code allows that loses a file: a template whose first directory is cut down to nothing gives a second spelling of one place; after a crash between deletion and bookkeeping a second video takes that place, and the first one's requeued conversion deletes it. |
| `FailingRuns.UndoTakesACopyForTheOriginal` | core/formats/queue.go:344-358 | Another: a video stored as .jpg is replaced, the process dies before the ledger knows, a still's converted copy takes the free name, the video's row is worked again, the deletion fails and the mark is undone, so the row claims bytes that are gone. |
| `FailingRuns.SweepLosesACommit` | core/receiver/upload.go:479-510 | A third: a template naming the directory of partial uploads puts a commit there, custody holds, and the next sweep deletes it. Each of the three runs breaks one of the three conditions of `PlacedApart` and keeps the other two. |
| `FailingRuns.StrangersShareABasename` | core/storage/storage.go:512-517 | A run in which a failed rename takes back the first member of a pair but not its reservation: a file of no pair is given the reserved basename, and the second member then shares it with that stranger. |
| `Spellings.CodeRendersAsWritten` | core/naming/naming.go:221-259 | The five templates of these runs have the names the runs need, in the receiver's own naming and whatever the values are; a directory whose first two hundred bytes are dots is cut down to nothing. |
| `Guarantees.CustodyInEveryRun` | core/formats/queue.go:290-358 | In every run of commits, conversions, confirmations, sweeps and restarts with a crash between any two effects, every row whose commit finished and whose original is not marked removed still has exactly the bytes that were moved in at its path, as long as no two rows are one place on disk, none lies directly in the directory of partial uploads and no video stored as .jpg is being replaced. |
| `Guarantees.IrrevocableOriginalsStay` | core/formats/formats.go:200-223 | Whatever was stored as preset and matrix at each commit, a pair member, a file sent as kind "file" and a file of the raw class is neither marked as removed nor deleted nor altered, in the same runs. |
| `Guarantees.NothingIsOverwritten` | core/storage/storage.go:425-450 | From any state, no step replaces or takes a file that is on disk but the deletion of a marked original, the sweep, the outside, and the rename that ends a commit or its undoing: a commit claims and a copy lands only where nothing is. |
| `Guarantees.MoveInCoversItsPlaceholder` | core/storage/storage.go:236-244 | In a sound state the rename that ends a commit covers nothing but the commit's own empty placeholder. |
| `Guarantees.UnplaceTakesItsPlaceholder` | core/storage/storage.go:512-517 | In a sound state a commit that could not be finished takes back nothing but its own empty placeholder. |
| `Guarantees.ExclusiveInEveryRun` | core/formats/queue.go:260-283 | Under every interleaving of workers and every crash, no two workers hold the same row and whoever holds a row has it in state running. |
| `Guarantees.FinalStatesStay` | core/formats/queue.go:360-381 | A conversion that reached done, skipped or failed never changes again, so each claim ends in at most one final state. |
| `Guarantees.CopyBeforeDeletion` | core/formats/convert.go:234-262 | Whenever a worker is in a position to delete an original, an earlier step of the run put a non-empty copy of that row at a name nothing on disk had. |
| `Guarantees.SweepKeepsCustodyExactly` | core/receiver/upload.go:479-510 | The sweep keeps custody for every choice of old files if and only if no live row lies directly in the directory of partial uploads. |
| `Guarantees.RemoveKeepsCustodyExactly` | core/formats/queue.go:344-358 | Deleting a marked original keeps custody if and only if no live row has the same place on disk under another spelling. |
| `Guarantees.DeduplicatedBytesExactly` | core/storage/storage.go:300-312 | The row a deduplicated commit points to has these bytes on disk if and only if its own commit finished with them and its original was not deleted, or it never finished and the bytes are none. |
| `ReceiverRuns.SoundInEveryRun` | core/storage/storage.go:193-258 | The whole invariant behind custody (who holds which bytes, which rows may be marked, what each worker's progress implies) holds after every run whose rows were placed apart throughout. |
| `ReceiverRuns.ApartAllAlong` | core/storage/storage.go:316-391 | Where no row was taken back it is enough to look at the end: rows that are apart there were apart at every point. |
| `ReceiverRuns.OrdinaryIsPlacedApart` | core/naming/naming.go:221-259 | Names that are clean one by one (no emptied directory, not the directory of partial uploads, no video stored as .jpg) are placed apart. |
| `Conversions.ConversionIsARun` | core/formats/queue.go:290-337 | One conversion, whatever fails in it, is a run of atomic steps, so every guarantee about runs holds between its effects. |
| `Conversions.ConversionLosesNothing` | core/formats/queue.go:290-358 | Of an original and its copy at least one is left; the original goes exactly when a replacement was asked for, the copy is non-empty at a free name, and mark and deletion both went through; the mark outlives a failed deletion only if its undoing failed; no other file is touched. |
| `Conversions.ConversionEndsExactly` | core/formats/queue.go:290-337 | Skipped, done and failed each exactly when class, name, tool and disk say so, and the copy is at the first of a hundred names beside the original that was not on disk. |
| `Conversions.ConvertedOnlyThisRow` | core/formats/queue.go:360-381 | A conversion changes its own conversion row, its own file row only in the mark, and no other row. |
| `Conversions.ClaimsUseUpPending` | core/formats/queue.go:221-253 | However many workers interleave, with commits that queue more work among them, claims made plus rows still pending equals the rows that were pending plus those queued: nothing else uses them up, so the loop ends. |
| `Conversions.AnyWorkersFinish` | core/formats/queue.go:221-253 | With any number of workers, interleaved with one another and with sweeps and commits, also such as queue more work: once all have stopped and nothing is pending, each row that was pending or was queued meanwhile was settled exactly once in a final state, and no other row changed. |
| `Conversions.RunningIsInterrupted` | core/formats/queue.go:260-395 | In every run the rows in state running are exactly those that its steps claimed and neither settled nor requeued since, told from the list of steps alone. |
| `Conversions.RestartRequeuesInterrupted` | core/formats/queue.go:384-395 | A crash after any run and the restart after it requeue exactly the rows that the run left interrupted in that sense, and change nothing else in the ledger or on disk. |
| `Receiver.Receiver.ExistingPath` | core/storage/storage.go:300-312 | Some row of this device with this content, or none and there is none. |
| `Receiver.Receiver.ClaimName` | core/storage/storage.go:425-510 | Claims a name if and only if neither the disk nor the ledger has it, then with row, placeholder and the pair's first reservation; otherwise nothing changes. |
| `Receiver.Receiver.PlaceFile` | core/storage/storage.go:316-391 | The loop over the pair's reserved name and ten thousand counters lands exactly where the allocator's search function says, or changes nothing and reports why; where that is, is in Allocator.PlacedExactly. |
| `Receiver.Receiver.Commit` | core/storage/storage.go:193-258 | What a commit comes to is exactly what the ledger before it, the name its file is given and the failures say: which refusal, which duplicate, or which path, row, decision and queued conversion. It is the steps place, move in and queue, on disk one key changes where nothing was; a rename that fails takes back what was placed, all of it but a reservation when both deletions go through; any other refusal changes nothing. |
| `Receiver.Receiver.QueueConversion` | core/storage/storage.go:267-296 | The policy's decision, and a pending conversion of that class and action when it is work; a queue that fails keeps the original and says so. |
| `Receiver.Receiver.RemoveOriginal` | core/formats/queue.go:344-358 | Mark, deletion, and the mark undone when the deletion failed, for each combination of failures. |
| `Receiver.Receiver.Convert` | core/formats/queue.go:290-337 | Each branch of a conversion has exactly the effect the specification of a conversion gives it. |
| `Receiver.Receiver.ConvertNext` | core/formats/queue.go:260-283 | One claim and its conversion are a run of atomic steps; none is claimed only when none is pending. |
| `Receiver.Receiver.ConvertPending` | core/formats/queue.go:221-253 | One worker: the queue is worked empty, the count is the number of rows that were pending, each of them ended in a final state, no other row changed. |
| `Receiver.Receiver.Requeue` | core/formats/queue.go:384-395 | The restart's single UPDATE, with the number of rows it requeued. |
| `Receiver.Receiver.Confirm` | core/storage/custody.go:131-145 | One answer for each request, in order, each computed from what the disk showed while it was asked; exactly the rows that got a yes are noted as vouched for, and nothing else changes. |
| `Allocator.AllocatedExactlyThroughout` | core/storage/storage.go:316-517 | Two rows share a basename in a directory only as members of one device's pair, and a reserved basename belongs to that pair alone and to a row of it, at every point of a run, if and only if no failed rename took away the only row of a reserved basename. |
| `Allocator.AllocatedKeptExactly` | core/storage/storage.go:316-517 | Every single step keeps that but the one that takes away the only row of a reserved basename, which never does. |
| `Allocator.FiledInEveryRun` | core/storage/storage.go:425-510 | In every run each row lies under the path of its own name, and names and reservations hold no separator, no dot component and no empty base. |
| `Allocator.RowsStay` | core/storage/storage.go:455-510 | No step displaces a row: it keeps its path, digest, owner and pair until, at most, its own rename fails. |
| `Allocator.PairSharesBasename` | core/storage/storage.go:327-369 | In either arrival order, with any run of other steps in between and whatever the template is by then: the first member reserves the basename for good, and a later one gets it with its own extension exactly when that very path is free, which a member with another extension does not prevent. |
| `Allocator.ReservationsStay` | core/storage/storage.go:481-494 | In every run a basename once reserved for a pair stays reserved for it, unchanged. |
| `Allocator.PlacedNameIsFree` | core/storage/storage.go:357-391 | What is handed out is free on disk and in the ledger, and its basename is nobody's or reserved for its own pair. |
| `Allocator.PlacedExactly` | core/storage/storage.go:316-391 | Which name is handed out, or which refusal: a later pair member has its pair's own name if that path is free; anything else the name of the first counter whose name is not in use by basename, path or file; refused as unusable exactly when the first counter not passed over gives no name, and for lack of space exactly when all ten thousand are passed over. |
| `Allocator.SearchedExactly` | core/storage/storage.go:357-391 | The same of the counter search by itself. |
| `Allocator.NoSpaceMeansAllHeld` | core/storage/storage.go:357-391 | Without {counter}, giving up means that 9,999 different basenames of one directory were each in use by a row or by a file on disk. |
| `Allocator.TriedAllDistinct` | core/storage/storage.go:357-382 | Where counters are apart, the basenames tried with counters 1 to n are n different ones. |
| `Allocator.CodeCountersApart` | core/naming/naming.go:171-217 | In the receiver's own naming they are, for every template without {counter}. |
| `Naming.RenderedBounds` | core/naming/naming.go:171-259 | Every component of every successful rendering is at most 200 bytes with extension and counter, free of separators, control and forbidden characters, and never "." or "..". |
| `Naming.RenderedStaysBelow` | core/naming/naming.go:88-104 | Joined to any root, a rendered path ends strictly below that root. |
| `Naming.CountersDiffer` | core/naming/naming.go:171-217 | Without {counter}, two positive counters give one directory, one extension and different basenames, however much was cut off. |
| `Naming.RendersNames` | core/naming/naming.go:171-259 | The receiver's own naming is one of the rules that the theorems about runs are for: whatever it renders is a name with a base, no separator and no dot component. Which name it is, is in Variables. |
| `Variables.VariablesMean` | core/naming/naming.go:185-198 | What each of the twelve variables stands for, wherever it is in a template: the named field of the date or nothing without one, the cleaned base, device and album, the counter from one on, the first eight characters of the hash, the cleaned extension. |
| `Variables.StrayBraceStays` | core/naming/naming.go:185-200 | A brace that begins no variable is text like any other. |
| `Variables.AllFilledIn` | core/naming/naming.go:185-200 | A template in pieces renders to its text and values in their order: every variable once, nothing else. |
| `Variables.FiledByMonth` | core/naming/naming.go:171-217 | {yyyy}/{MM}/{original_name}.{ext} files a plainly named photograph under its year and month with its own base and extension, and a counter follows the base. |
| `Variables.NamedByDate` | core/naming/naming.go:40 | The template out of the box gives date, time and own name; without a date only the separators are left before the name. |
| `Variables.CounterWhereAsked` | core/naming/naming.go:181-211 | A template that says where the counter goes has it there, once. |
| `Variables.CleanedExactly` | core/naming/naming.go:312-353 | A cleaned component is the one given with underscores for what may not be in a name, trimmed of dots and spaces at its end and spaces at its start, and hidden behind an underscore if it is a device name; nothing else changes. |
| `Variables.ExtensionKeeps` | core/naming/naming.go:358-369 | Of an extension every letter and digit stays where it was and everything else goes. |
| `Variables.SplitsAtTheLastDot` | core/naming/naming.go:264-270 | A name is split at its last dot, unless nothing comes before it. |
| `Variables.WithoutADot` | core/naming/naming.go:264-267 | A name without a dot after its last slash has no extension. |
| `Variables.BothSlashesSeparate` | core/naming/naming.go:221-227 | A backslash separates directories like a slash. |
| `Variables.EmptyPartsVanish` | core/naming/naming.go:229-236 | A directory of which cleaning leaves nothing is as if it had not been there. |
| `Naming.CleanComponent` | core/naming/naming.go:312-353 | The character loop computes the cleaned component. |
| `Naming.CleanIsSafe` | core/naming/naming.go:312-353 | A cleaned component holds nothing forbidden and does not end in a dot or a space. |
| `Naming.SanitizeExt` | core/naming/naming.go:358-369 | The loop over an extension keeps its letters and digits, cut to sixteen bytes. |
| `Naming.CleanExtIsSafe` | core/naming/naming.go:358-369 | A cleaned extension holds nothing forbidden and no dot, and is at most sixteen bytes. |
| `Naming.SplitRendered` | core/naming/naming.go:221-259 | The two loops compute directory, base and extension of a rendered template, or report that nothing was left. |
| `Texts.Truncate` | core/naming/naming.go:373-389 | The byte loop cuts at most n bytes off whole characters (section 3 of RFC 3629) and trims what it left at the cut. |
| `Texts.TruncatedIsLongest` | core/naming/naming.go:373-389 | Text that fits stays; of any other what is left is the longest beginning that fits and does not end in a dot or a space. |
| `Texts.DecimalReads` | core/naming/naming.go:178-181 | A counter is written so that its digits read as it, without leading zeros. |
| `Custody.ConfirmedExactly` | core/storage/custody.go:147-224 | A yes to a question about some bytes is given if and only if exactly those bytes were read at the place of an unremoved row of the asking device. |
| `Custody.RefusalsExactly` | core/storage/custody.go:147-224 | Which state of ledger and disk each of the seven refusals stands for, in both directions. |
| `Custody.CommittedRowsConfirm` | core/storage/custody.go:147-237 | In every run of rows placed apart, a device asking about the bytes it committed under a path gets a yes if and only if the row is not marked removed, the file is no larger than the 1 TiB that are read, and the path does not begin with a slash. |
| `OutputPolicy.SavedPolicyActsTheSame` | core/formats/formats.go:357-392 | Unmarshal of Marshal resolves every class to the same action as the saved policy. |
| `OutputPolicy.StoredPolicyIsSane` | core/formats/formats.go:377-392 | Whatever the settings hold, the policy read from them is valid or keeps everything. |
| `OutputPolicy.StoredMatrixExactly` | core/formats/formats.go:149-197 | A stored matrix is acted on entry by entry unless it has an unknown class or action or anything but keeping for raw, and then everything is kept; other presets ignore it. |
| `OutputPolicy.GivenUpExactly` | core/formats/formats.go:200-272 | An original is replaced exactly when the user chose that for its class and it is no pair member; a pair member's replacement becomes a sidecar and is reported as one. |
| `OutputPolicy.NeverReplaced` | core/formats/formats.go:260-272 | No policy replaces a pair member, a file of the raw class or a file sent as kind "file". |
| `Hashing.Hasher.Write` | core/hash/hash.go:87-101 | After a write both digests and the size are those of everything seen so far and the new bytes. |
| `Hashing.Hasher.Sum` | core/hash/hash.go:108-114 | The digest of a hasher is the digest from scratch of the bytes it has seen. |
| `Hashing.Reader` | core/hash/hash.go:125-145 | Whatever sizes the reads come in, the digest is that of the whole stream. |
| `Uploads.DigestIsOfTheFile` | core/receiver/upload.go:198-241 | Over every split into chunks, every resume and restart, the digest used is the one of the finished file from scratch, full and head, if and only if no write was torn since the hasher used was started. |
| `Uploads.ChunkingPlaysNoPart` | core/receiver/upload.go:256-314 | With whole writes only, two histories that leave the same file give the same digest. |
| `Uploads.TornWriteGoesUnnoticed` | core/receiver/upload.go:296-305 | The smallest history in which a short write makes the digest wrong. |
| `Uploads.UploadStore.HasherFor` | core/receiver/upload.go:198-215 | The running hasher for an upload: the one at this offset, a new one at the start, none otherwise; no other upload changes. |
| `Uploads.UploadStore.WriteChunk` | core/receiver/upload.go:256-314 | A chunk at the wrong offset writes nothing; any other leaves file and hasher as the state machine's step does, and no other upload changes. |
| `Uploads.UploadStore.FinishUpload` | core/receiver/upload.go:340-383 | Each refusal exactly when it applies: a read that fails when one is needed, a declared hash that is not the one found, metadata that mean nothing, and otherwise what the receiver says of the upload's request under the digest that was found. What is stored is the file's bytes under that digest; a wrong hash discards the upload and only that; a commit that is refused leaves upload and ledger as they were, but for the traces of a failed rename. |
| `Uploads.WholeUploadsAreStoredAsThemselves` | core/receiver/upload.go:340-383 | An upload without a torn write since its hasher was started is stored under the digest of its own bytes. |
| `Selection.WithheldIsExact` | mobile/src/core/selection.ts:298-327 | For every list, flags and options, nothing is withheld if and only if the list is non-empty and every photograph in it, by position, was chosen. |
| `Selection.WithheldNamesTheUnchosen` | mobile/src/core/selection.ts:298-327 | The types listed as withheld are exactly those of the photographs not chosen. |
| `Selection.NeverNothing` | mobile/src/core/selection.ts:199-275 | Something is chosen whenever there is a photograph. |
| `Selection.PickedFirsts` | mobile/src/core/selection.ts:199-275 | What is chosen is each the first of its type, a photograph, and nothing twice. |
| `Selection.VideosSent` | mobile/src/core/selection.ts:216-220 | Of a video with either version or both: the render, the capture or both as the setting says, the only one there is if one is missing, and which leads. |
| `Selection.StillsSent` | mobile/src/core/selection.ts:243-248 | The same of a still that is no raw negative, and the picture beside it exactly when both formats are asked for. |
| `Selection.RawSent` | mobile/src/core/selection.ts:226-242 | Of a raw negative with or without a picture beside it or a render: which of the three goes for each setting, and which leads. |
| `Selection.PictureAlone` | mobile/src/core/selection.ts:245-248 | A picture with nothing to stand beside goes when both formats are asked for. |
| `Selection.MotionSent` | mobile/src/core/selection.ts:251-259 | With Live Photo video on and any motion there, whatever else the asset has: the one that fits the edits setting, the other one if it is missing, both for both. |
| `Selection.NoMotionSent` | mobile/src/core/selection.ts:251-259 | With it off, no motion goes with a still or a video. |
| `Selection.TheFirstInstead` | mobile/src/core/selection.ts:261-266 | When nothing asked for is there, the first photograph of all goes, alone. |
| `Selection.MotionMatchesTheStill` | mobile/src/core/selection.ts:251-259 | Of a Live Photo that has all four resources the motion goes exactly with the still it belongs to, and only when asked for. |
| `Selection.ChooseResources` | mobile/src/core/selection.ts:199-275 | The table of first resources and the branches over the options give the chosen positions, each described by its own type, name and size, the first as the primary, and as a video if its type is one of six. |
| `Selection.WithheldResources` | mobile/src/core/selection.ts:298-327 | The two counting maps give the list of withheld types. |
| `Deletion.DeletableExactly` | mobile/src/core/deletion.ts:112-176 | An asset is deletable exactly when every recorded file of it has withheld equal to the empty list, a path, a size and a digest, an answer and no refusing answer. |
| `Deletion.StaysUnsent` | mobile/src/core/deletion.ts:149-164 | An asset of which a file was not sent in full, or may not have been, stays for the first such file, whatever the receiver says. |
| `Deletion.StaysUnvouched` | mobile/src/core/deletion.ts:166-176 | An asset all of which was sent stays for the first of its files that is not fully recorded, not answered for or refused, with the word of the first refusal; and it is shown under the name of its first file. |
| `Deletion.OrderPlaysNoPart` | mobile/src/core/deletion.ts:112-146 | The order and repetition of neither list decides whether an asset is deletable. |
| `Deletion.EveryAssetOnce` | mobile/src/core/deletion.ts:112-146 | Every asset among the candidates is in exactly one of deletable and kept, once, and nothing else is. |
| `Deletion.FilterIsTransparent` | mobile/src/core/deletion.ts:192-209 | With unique keys, asking only about the candidates worth asking gives the same plan, reasons included, as asking about all. |
| `Deletion.PlanDeletions` | mobile/src/core/deletion.ts:112-146 | The loops over answers, candidates and groups compute the plan. |
| `Deletion.VerdictFor` | mobile/src/core/deletion.ts:149-176 | The two scans of a group give its verdict: parts left behind first, answers second. |
| `Reclaim.Phone.ReclaimSpace` | mobile/src/engine/deletion.ts:131-191 | What is handed to the library and what is reported kept, with each reason, is the plan over what was heard about everything worth asking; each handed asset's every recorded file was found by the receiver during this reclaim with exactly the bytes the phone hashed under an unremoved row of this device; afterwards exactly its questions are gone. |
| `Reclaim.EveryPhotographWasFound` | mobile/src/engine/deletion.ts:86-191 | If every chosen resource was noted and the asset is unchanged, every photograph of a handed-over asset, chosen or not, was found on the receiver byte for byte. |
| `Reclaim.PlanHandsOver` | mobile/src/engine/deletion.ts:139-155 | What the plan deletes is exactly the assets all of whose files are worth asking about and were answered with a yes in their batch. |
| `Reclaim.VouchedIsSaidYes` | mobile/src/engine/deletion.ts:198-253 | With unique keys the phone takes a file for vouched exactly when the receiver said yes to it in a batch that was not lost. |
| `Reclaim.YesExactly` | mobile/src/engine/deletion.ts:198-218 | The receiver says yes to what it is asked if and only if it read back the bytes the phone hashed, under the path it was told. |
| `Reclaim.ConfirmAll` | mobile/src/engine/deletion.ts:198-218 | The batches of one hundred together hear exactly what each item's own moment says, lost batches nothing. |
| `Reclaim.OnlyTrueIsAYes` | mobile/src/engine/deletion.ts:263-291 | A reply reads as a yes about a key exactly when an entry has that non-empty key as a string and the boolean true beside it. |
| `Reclaim.ParseConfirmations` | mobile/src/engine/deletion.ts:263-291 | The loop over a reply's entries keeps those with a usable key. |
| `Reclaim.WithheldSurvives` | mobile/src/data/deletion.ts:36-66 | Unknown and nothing withheld survive the table apart, and only an empty array reads as the latter. |
| `Reclaim.Phone.NoteSent` | mobile/src/engine/deletion.ts:86-112 | A file that was stored and could be hashed replaces its row with one about exactly the hashed bytes; otherwise nothing changes. |
| `Reclaim.Phone.ClearCandidates` | mobile/src/data/deletion.ts:92-107 | In chunks of four hundred, exactly the given keys of this receiver go. |
| `Reclaim.LedgerKeysDiffer` | mobile/src/core/plan.ts:92-103 | Two files share a ledger key only if they are the same part of the same asset at the same size. |
| `WorkQueues.InvInEveryRun` | mobile/src/core/queue.ts:72-160 | Between any two events of every run, whatever is added how often: every addition accounted for exactly once so a pause loses and repeats nothing, at most limit entries in the table of what is in flight, the table full while there is work and no pause, everything in it told of a pause or cancel, interrupted items first and the rest in order. |
| `WorkQueues.TrackedExactlyThroughout` | mobile/src/core/queue.ts:119-160 | The table knows every running worker at every point of a run if and only if no event started an item that was being worked on; then no more workers run than the limit, a pause or cancel reaches all of them, and an idle queue has none. |
| `WorkQueues.StepTracksExactly` | mobile/src/core/queue.ts:119-160 | One event loses track of a worker exactly when its pump starts an item twice or one that is in flight. |
| `WorkQueues.FreshIsTracked` | mobile/src/core/queue.ts:72-75 | Whoever adds only items that neither wait nor are being worked on, if need be again and again, never makes the table lose track. |
| `WorkQueues.RepeatsAreLostTrackOf` | mobile/src/core/queue.ts:119-160 | An item added three times to a queue of limit two runs three times at once, and the queue calls itself idle while two of them still run. |
| `WorkQueues.NothingStartsAfterCancel` | mobile/src/core/queue.ts:94-100 | After a cancel nothing ever starts and nothing takes it back. |
| `WorkQueues.EndedExactly` | mobile/src/core/queue.ts:141-160 | A job ends exactly when its worker is through with it or is interrupted after a cancel, and is thrown away exactly by a cancel before it started; the limit never changes. |
| `WorkQueues.LimitIsKept` | mobile/src/core/queue.ts:52-57 | In every run the limit is the one asked for, and one for anything below. |
| `WorkQueues.InterruptedGoesAgain` | mobile/src/core/queue.ts:141-160 | Interrupted work is first in line one attempt further, or has been started again at once. |
| `WorkQueues.FirstSignalStays` | mobile/src/core/queue.ts:77-100 | A worker told to stop is told nothing else until it is done. |
| `WorkQueues.ReleasedOnlyWhenIdle` | mobile/src/core/queue.ts:103-139 | Waiters are released all at once and only when the table of what is in flight is empty and nothing is left to start, or the queue was cancelled. |
| `WorkQueues.StrandedExactly` | mobile/src/core/queue.ts:94-117 | A step leaves somebody waiting for an idle queue if and only if it is a cancel with nothing in flight while somebody waits. |
| `WorkQueues.StrandingNeedsAPause` | mobile/src/core/queue.ts:94-117 | A cancel can find waiters and nothing in flight only on a paused queue that still has work. |
| `WorkQueues.WaitersAreServed` | mobile/src/core/queue.ts:103-139 | In every run without such a cancel, nobody waits once the queue is idle. |
| `WorkQueues.CancelCanStrand` | mobile/src/core/queue.ts:94-100 | A run in which cancelling a paused queue leaves a waiter behind. |
| `WorkQueues.WorkQueue.Pump` | mobile/src/core/queue.ts:119-139 | The loop that fills the slots is the state machine's filling, and releases waiters when the queue ends up idle. |
| `WorkQueues.WorkQueue.Leave` | mobile/src/core/queue.ts:141-160 | What happens when a worker is done: requeued at the front if interrupted before a cancel, settled otherwise, and pumped. |
| `WorkQueues.WorkQueue.AddItems` | mobile/src/core/queue.ts:72-75 | Adding is the state machine's step, for any items. |
| `WorkQueues.WorkQueue.PauseQueue` | mobile/src/core/queue.ts:77-85 | Pausing is the state machine's step. |
| `WorkQueues.WorkQueue.ResumeQueue` | mobile/src/core/queue.ts:87-91 | Resuming is the state machine's step. |
| `WorkQueues.WorkQueue.CancelQueue` | mobile/src/core/queue.ts:94-100 | Cancelling is the state machine's step. |
| `WorkQueues.WorkQueue.WaitUntilIdle` | mobile/src/core/queue.ts:103-106 | Resolves at once when nothing is in flight and nothing is left to start, and waits otherwise. |
| `Delivery.DeliveredMeansSaved` | core/outbox/query.go:138-154 | In every run of both parties, with sources edited, downloads cut off or cancelled, acknowledgements lost or repeated and phones killed anywhere, a row is delivered only if its device recorded it under the row's digest, and, unless a file was swapped under a save, put away bytes with that digest. |
| `Delivery.HonestExactlyThroughout` | mobile/src/engine/inbox.ts:287-331 | At every point of a run each phone has put away what its ledger says and is about to put away nothing but what it verified, if and only if no step swapped a file under a save: other bytes arriving under an item that was verified, cancelled and asked for again before it was put away. |
| `Delivery.HonestKeptExactly` | mobile/src/engine/inbox.ts:287-331 | One step keeps that if and only if it is no such swap. |
| `SwappedSave.DeliveredButNotSaved` | mobile/src/engine/inbox.ts:179-182 | A run the code allows in which it happens: a cancel between verifying and putting away, a new check, other bytes under the same name; they are put away unverified and the receiver marks the item delivered. |
| `Delivery.DigestIsFinal` | core/outbox/outbox.go:312-330 | Once a row has left pending, no step changes its digest or its device, and a delivered row stays delivered. |
| `Delivery.ToldOnlyTheDigest` | core/outbox/query.go:57-62 | What a phone downloads is checked against the digest its row has. |
| `Delivery.OfferedExactly` | core/outbox/query.go:57-62 | In every run a row is on offer to its own device and no other, under its own digest, exactly as long as it is neither pending nor failed nor delivered. |
| `Delivery.OfferEndsExactly` | core/outbox/query.go:79-182 | A step takes an item off offer if and only if the device cancels or acknowledges it or its source is found gone or changed; a fetch, or a source out of reach, does not. |
| `Delivery.ServedEveryTime` | core/outbox/query.go:79-129 | From any point of any run until one of those steps, the item is on offer under the same digest, and any fetch that finds the source as it was hashed is given its bytes, however often it was fetched before. |
| `Delivery.LedgeredIsNotAskedFor` | mobile/src/engine/inbox.ts:112-118 | A check asks for nothing the ledger already had when it read it. |
| `Delivery.OtherDevicesUntouched` | core/outbox/query.go:68-182 | Nothing one device asks for, cancels or clears touches another device's row. |
| `Delivery.NothingOwedMeansTold` | mobile/src/engine/inbox.ts:396-418 | A phone stops owing an acknowledgement only when the row is delivered or gone. |
| `Delivery.SavedIsRecordedButForMishaps` | mobile/src/engine/inbox.ts:287-331 | Whatever was put away is in the ledger, is about to be recorded, or was cut off exactly in between. |
| `Inbox.InboxApp.SaveOne` | mobile/src/engine/inbox.ts:287-331 | One save: damaged bytes start over, a phone that cannot keep them leaves the download, otherwise the file is in the library and recorded before the download is given up. |
| `Inbox.InboxApp.SaveArrivals` | mobile/src/engine/inbox.ts:256-285 | Every arrived download is dealt with, what is saved is in the library and in the ledger under its digest as owing an acknowledgement, unless the ledger had it already; the count is exact, and the whole is a run of the protocol. |
| `Inbox.InboxApp.SendAcknowledgements` | mobile/src/engine/inbox.ts:396-433 | Each acknowledgement owed is sent once; those heard are no longer owed, the others still are. |
| `Inbox.InboxApp.Collect` | mobile/src/engine/inbox.ts:96-118 | Downloads are added for exactly what was listed and is not in the ledger. |
| `Inbox.InboxApp.CheckInbox` | mobile/src/engine/inbox.ts:80-130 | A whole check is a run of the protocol that keeps its invariant, and its new downloads are for exactly what is on offer, was listed and is not in the ledger. |
| `Outbox.ServesWhatItHashed` | core/outbox/query.go:79-117 | A row is served only while its source has the size and mtime it was hashed at; one that is gone or differs fails the row, which nobody is then offered; another device is told there is no such item. |
| `Outbox.OutboxQueue.AddFile` | core/outbox/outbox.go:164-236 | A readable file for a paired device becomes a pending row; anything else changes nothing. |
| `Outbox.OutboxQueue.HashPending` | core/outbox/outbox.go:281-330 | Until no row is pending: each that was is ready under what was read, or failed; the others are untouched and the count is exact. |
| `Outbox.OutboxQueue.Fetch` | core/outbox/query.go:79-129 | Who gets the bytes, who is refused why, and what becomes of the row, each exactly: a row handed out before is served again, a source out of reach changes nothing, one that is gone or changed fails the row. |
| `Outbox.OutboxQueue.Deliver` | core/outbox/query.go:138-154 | Idempotent, for a row of the asking device and no other. |
| `Outbox.OutboxQueue.Remove` | core/outbox/query.go:159-169 | The asking device's row goes, or nothing does and it says so. |
| `Outbox.OutboxQueue.Clear` | core/outbox/query.go:173-182 | Exactly the device's delivered and failed rows go, the others stay as they are, and those that went are counted. |
| `Migrations.AppliedIsAPrefix` | core/store/store.go:205-281 | For every interleaving of processes and every failure or death, what is applied is a prefix of the list in version order, each once, and a process that returned success saw all of it. |
| `Migrations.OneAtATime` | core/store/store.go:229-255 | Only one process is ever between its BEGIN IMMEDIATE and its commit or rollback. |
| `Migrations.LoadMigrations` | core/store/store.go:161-199 | Every file once in version order, or an error exactly when a name does not parse or two share a version. |
| `Migrations.Database.ApplyMigration` | core/store/store.go:229-281 | With other processes at work before each of its statements, and whichever of them goes wrong: exactly the listed statements are its own, it succeeds exactly in the listed cases, the version is then applied, and the lock is not kept. |
| `Migrations.Database.Migrate` | core/store/store.go:205-227 | With any number of other processes migrating in between: success means the whole list is applied, nothing going wrong and no wait in vain means success, and what is applied is at any rate a prefix that only grew. |
| `RateLimit.EvictionIsUnobservable` | core/discovery/ratelimit.go:64-104 | On every monotone trace of no more sources than the table holds, evicting idle sources anywhere changes no answer. |
| `RateLimit.RateIsBounded` | core/discovery/ratelimit.go:64-90 | In every window, with other sources, evictions and overflows in it, one source is answered at most a burst and the rate times the window, and one burst more for each time that somebody else's question dropped the full table with its bucket in it. |
| `RateLimit.ForgottenIsServed` | core/discovery/ratelimit.go:64-90 | Being dropped does give a burst: a source with nothing left has a full bucket once a stranger overflowed the table at the same instant. |
| `RateLimit.BurstIsServed` | core/discovery/ratelimit.go:51-90 | An unknown source is answered exactly a full burst at one instant. |
| `RateLimit.WaitingEarnsAReply` | core/discovery/ratelimit.go:64-90 | Whoever waited for a token's worth of time, and every newcomer, is answered. |
| `RateLimit.TracesAreSane` | core/discovery/ratelimit.go:64-90 | Every trace from an empty table leads to a table the bound applies to. |
| `RateLimit.Limiter.Allow` | core/discovery/ratelimit.go:64-90 | A reply is allowed exactly when the refilled bucket holds a token, which it then pays. |
| `RateLimit.Limiter.EvictIdle` | core/discovery/ratelimit.go:93-104 | Exactly the sources silent for more than a minute go. |
| `Throughput.OrderIsAPermutation` | mobile/src/core/plan.ts:67-83 | The order is of exactly the assets given. |
| `Throughput.OrderIsWholeGroups` | mobile/src/core/plan.ts:67-83 | It is a row of whole groups, one for each key, totals non-increasing along it and sizes within each. |
| `Throughput.PairsStayTogether` | mobile/src/core/plan.ts:67-83 | What lies between two members of a pair is of that pair, or an asset without a pair whose id is the pair's. |
| `Throughput.SortedSorts` | mobile/src/core/plan.ts:76-82 | The sort is a stable, non-increasing permutation. |
| `Throughput.SelectionIsMaximal` | mobile/src/core/background.ts:171-198 | Every asset is in exactly one of selected, deferred and skipped; the selection keeps to the count, the bytes and half the free space; and whatever was deferred would exceed one of the three. |
| `Throughput.EarlierFirst` | mobile/src/core/background.ts:171-198 | What comes first in the order is decided first: the selection of a longer order only adds to that of its beginning. |
| `Throughput.SelectForBackground` | mobile/src/core/background.ts:171-198 | The greedy loop computes that selection. |
| `Throughput.OrderForThroughput` | mobile/src/core/plan.ts:67-83 | Grouping, the two sorts and the flattening compute that order. |
| `Throughput.BuildPlan` | mobile/src/core/plan.ts:38-56 | What was sent is skipped in the order given, the rest is planned exactly in the throughput order, nothing is lost or repeated, and the total is that of the planned. |
| `Sweep.BroadcastOf` | core/discovery/addrs.go:191-202 | The byte-wise bit loop gives the network number plus the size of the host field less one (section 7 of RFC 919). |
| `Sweep.SweepHosts` | core/discovery/addrs.go:213-234 | The walk ends, also at the last address there is, with exactly the host list, or refuses a prefix that is too wide. |
| `Sweep.HostsExactly` | core/discovery/addrs.go:204-234 | The host list is increasing, at most 4096 long, and holds exactly the prefix's addresses without the edges of an IPv4 prefix shorter than 31 bits. |

## Left out

- Guarantees.CustodyInEveryRun: is for rows placed apart, because without each of the three conditions it is false (FailingRuns); what decides in all runs is in Limits.CustodyExactlyThroughout and Limits.KeptExactlyThroughout.
- Limits.CustodyExactlyThroughout: is exact step by step; its clause about undoing a mark asks whether the bytes are there, and the condition to be looked up beforehand is that of Limits.KeptExactlyThroughout.
- Guarantees.DeduplicatedBytesExactly: is for rows that no failed rename left behind without a file, of whose place nothing is known.
- Reclaim.EveryPhotographWasFound: keeps the hypothesis that every chosen resource has a row, because a member whose upload or hashing failed is invisible to the plan.
- Outbox.OutboxQueue.AddFile: takes an id no row has, because the original draws 128 random bits.
- Receiver.Receiver.ConvertPending: is one worker's loop; what any number of them do together is Conversions.AnyWorkersFinish, over the transition system.
- A crash between the ledger insert and the final rename: the row then describes an empty placeholder, so custody is about rows whose commit finished.
- Two commits at the same moment: looking for a free basename and claiming it is one step.
- A crash between the two deletions that undo a failed rename; either of them may fail.
- Ledger errors while a name is looked for or claimed, or during a confirmation, which end it with an error and no answer.
- The age of pending conversions and queue positions by time: any pending row may be the next one claimed.
- The temporary file a conversion tool writes, its arguments, and what the tool does inside: a tool is one step that makes a copy or does not.
- Directories on disk, permissions, case-insensitive file systems and modification times of stored files.
- Hash texts as hexadecimal digits, except that a digest that is not 64 of them is refused.
- JSON syntax, HTTP, TLS, tus and SQLite themselves; replies are modelled from the parsed document on.
- `Validate` of a template and the preview of a path: they only report, and rendering accepts any template.
- The events a transfer publishes, and the memory of announced uploads but for the hashers it frees.
- Which assets are hidden, screenshots or burst frames: an option that only filters.
- Names and folders of files saved on the phone, and the choice between the library and the Files folder.
- Deletion by the user from the phone's library: what was put away is a history.
- Floating-point rounding in the token bucket: amounts are real numbers.
- Interface discovery, VPN detection and broadcast addresses beyond the arithmetic.
- User interfaces, pairing, certificates, mDNS, autostart and configuration.
