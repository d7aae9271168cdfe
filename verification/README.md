# Dumpbox upload store: a verified model

Dumpbox accepts uploads from many authenticated users at once, charges each of them against per-identity
budgets, streams every file into a temporary inode and publishes it under its final name with a hard link.
This project models that upload store in Dafny and proves what its design promises, for every interleaving
of any number of requests and every failure of the calls they make.

`dafny verify dfyconfig.toml` checks everything.

## How the model is built

There are two layers, and the first is proved to be a run of the second.

* **The code.** `StorageQuota` and `UploadSlots` (module `Limits`) are the two mutex-protected objects, on 64-bit
  counters, updated in place. Module `Server` holds the class with the quota, the slots and the disk, and the
  methods of `storePart`: reserving, creating the temporary file, the copy loop with its quota writer, publishing,
  and the three deferred functions in the order they run. `Folders` makes directories, `Uploads` is the handler and
  its loop over the parts of a request, `Startup` rebuilds the ledgers, `Client` is the browser's side, `Naming`,
  `Candidates`, `Directories` and `Paths` are the string code on bytes, `Token` is the cookie code.
* **The protocol.** Module `Protocol` is a transition system with a map of workers, each with a program counter.
  Every call that takes the mutex and every file system call is one atomic step; any of them may fail; a run is any
  sequence of steps of any workers. `DiskInvariant`, `TreeInvariant`, `Conservation` and `SlotsInvariant` are what
  every step keeps; `Safety` puts them together; `Guarantees`, `Capacity` and `Recovery` are what follows.

The two are tied in `Server.Server.Valid`: the objects always hold what the trace of all steps so far has made of the
state at startup. Before each atomic operation a method lets the other requests take any number of steps
(`Server.Server.Pause`), so a contract such as that of `StorePart` or `Upload` holds under arbitrary interference.
Module `Runs` says what a request can rely on meanwhile: what is settled stays settled, and nobody else touches the
inside of its folder. Module `Causes` says what can be pointed at in that trace for a refusal that is not the request's
own doing: a call of its that failed, a moment at which a quota had no room for what it asked, or, for each name it
tried in vain, a moment at which that name was in use. `Room`, `Clashes`, `Exhaustion` and `Outcomes` turn these
causes into conditions on the request, the ledgers and the directories, `Answers` into the number a request is
answered with; `Containment` and `Overrun` compare the disk with the quota. A failed call gets into the trace only where
the call is made: in the method that stands for it.

Some vocabulary. A path is *settled* when it was found at startup or published since; it is never a temporary name.
A worker *holds* what it has taken from a ledger and not yet turned into a settled file. `Outcome` is everything one
request did: its answer, the files it stored, what it counted, what its folder looks like inside, and why it stopped.
`IoFailed` means that a file system call of the request failed or its copy could not be written; it is the one cause
left to the environment. A request is *alone* when no other request of its identity is at work while it is, as is
always so with one upload slot for each subject (`Room.OneAtATime`). Strings are Go byte strings: each `char` is one
byte, and runes are decoded from them as the language does, invalid bytes included.

## Where the code and its description differ

* The configuration table calls `MAX_BYTES_PER_USER` the cumulative storage allowed. The byte ledger keeps to it, the
  disk does not at every moment: a failed upload gives its bytes back before it removes its file, and another may be
  charged in between. `Overrun.ContainedExactly` proves for which configurations the disk keeps to it in every state of
  every run: those with one upload slot for each subject, with one file for each identity, or with two files where even
  two that are too large by a byte fit together. For every other configuration it constructs a run that goes beyond.
  `Capacity.BytesOnDisk` says how far it can go, `Capacity.BytesLagExactly` by how much disk and ledger differ.
* The description says that exceeding a size limit is answered with 413. A part that is too large can meet the quota
  first and is then answered with 507: `Outcomes.TooLargeFor507` has the smallest example, two bytes under a quota and a
  file limit of one, and `Overrun.OversizeRefused` its run. `Outcomes.TooLargeExactly` proves when it is 413: exactly
  when one byte more than the file limit would have fitted the quota.
* `MAX_FILE_BYTES` may be set to 2^63-1, and then the limit plus one overflows and the reader yields nothing.
  `Server.LimitIsExact` shows that every smaller limit works and this one does not; the server class assumes a smaller
  one.
* The page lets a user pick several files at once (internal/dumpbox/page.go:51). `Client.UploadAll` proves that only the
  first of them is sent: the position of a file in the list is taken for the name of a root folder. Folders, and files
  that are dropped, do not go this way.
* A path in a folder upload can arrive with fewer segments than were sent: `LostSegment.SegmentLost` has the names, 109
  no-break spaces, a dot, a space and 300 letters for example, of which the length limit leaves a single dot.
  `Paths.DepthKept` proves when the depth is kept: exactly when every segment comes out of sanitising as a real name;
  `Paths.SteadyPathKeepsDepth` that it is whenever no segment is cut in leading white space, as no ASCII segment is.
  `Paths.RelativeStaysBelow` holds for all byte strings.

## Model

| member | source | states |
|---|---|---|
| Limits.StorageQuota.ReserveBytes | internal/dumpbox/limits.go:99-111 | the subtraction form never leaves 64 bits, even when startup usage is above the limit; a refusal changes nothing |
| Limits.StorageQuota.ReleaseBytes | internal/dumpbox/limits.go:113-124 | subtracts, and drops the entry at zero or below |
| Limits.StorageQuota.ReserveFile | internal/dumpbox/limits.go:126-138 | takes one slot exactly when the count is below the limit |
| Limits.StorageQuota.ReleaseFile | internal/dumpbox/limits.go:140-151 | gives one slot back |
| Limits.UploadSlots.Acquire | internal/dumpbox/limits.go:157-169 | admits exactly when the counter is below the total and the subject's entry below its share, and then counts one more in both |
| Limits.UploadSlots.Release | internal/dumpbox/limits.go:171-185 | gives the slot back, and drops the entry of a subject with none left |
| Limits.ReleaseUndoesReserve | internal/dumpbox/limits.go:99-124 | releasing what was reserved restores the reading of every identity; a reservation succeeds exactly when it fits |
| Startup.Walk | internal/dumpbox/limits.go:56-71 | adds every regular file's size and count to one key, or fails at the first unreadable item |
| Startup.NewStorageQuota | internal/dumpbox/limits.go:37-77 | the rebuilt ledgers show, for every key, exactly the regular files below directories carrying it; it fails exactly when something that must be read cannot be |
| Startup.RebuildShowsUsage | internal/dumpbox/limits.go:51-76 | rebuilding from a true listing of a disk gives that disk's usage for every identity |
| Restart.Restart | internal/dumpbox/limits.go:37-77 | a server started over what a crash left behind, at any point of any run, is valid again |
| Restart.ConfigIsValid | internal/dumpbox/server.go:597-604 | with hexadecimal keys, every user's directory leads back to the user's key |
| Directories.QuotaKeyLanguage | internal/dumpbox/limits.go:83-97 | a name is accepted exactly when it is "user-", anything, and 24 lowercase hex digits, and yields those |
| Directories.SafeDirectoryComponent | internal/dumpbox/server.go:606-619 | the builder loop computes the bounded, word-only, trimmed component |
| Directories.ComponentSafe | internal/dumpbox/server.go:606-619 | the component has at most 100 bytes and no separator |
| Directories.ComponentOfAscii | internal/dumpbox/server.go:606-619 | of an ASCII username the first 100 bytes are kept, each a letter, a digit, one of - _ . @ or else "_", and exactly the - _ . at the ends are lost |
| Directories.DirectoryNamed | internal/dumpbox/server.go:597-604 | what is left of the username is in the name of the directory |
| Directories.DirectoryRoundTrip | internal/dumpbox/server.go:597-604 | the key is read back from the directory of any user, and the directory is a real name |
| Directories.DirectoriesDiffer | internal/dumpbox/server.go:597-604 | users with different keys never share a directory |
| Naming.SafeFilenameBytes | internal/dumpbox/server.go:569-595 | for all byte strings: at most 220 bytes, no control, reserved or separator character |
| Naming.SteadyName | internal/dumpbox/server.go:578-584 | a name not cut in leading white space comes out empty or starts with no blank, dot or hyphen |
| Naming.AsciiSteady | internal/dumpbox/server.go:569-595 | every ASCII name is such a name |
| Naming.SafeFilenameTwice | internal/dumpbox/server.go:569-595 | sanitising twice is sanitising once when nothing was cut off |
| Sanitising.LastElement | internal/dumpbox/server.go:569-570 | of a path with slashes or backslashes, trailing ones included, the last element is sanitised |
| Sanitising.CleanRuneByRune | internal/dumpbox/server.go:571-576 | control characters, format characters and the nine reserved ones become "_", every other rune stays |
| Sanitising.CleanByteByByte | internal/dumpbox/server.go:571-576 | the same for ASCII, byte by byte |
| Sanitising.CleanedEnds | internal/dumpbox/server.go:577-583 | exactly the blanks and dots at the ends are lost, and a leading hyphen becomes "_" |
| Sanitising.TrimSpaceExactly | internal/dumpbox/server.go:592 | trimming loses white space runes at the ends, all of them, and nothing else |
| Sanitising.CutName | internal/dumpbox/server.go:584-593 | a name that is too long keeps its extension, and before it as many of its first bytes as 220 allow, less the white space at their ends; only an extension of 220 bytes or more is given up |
| Sanitising.CutAscii | internal/dumpbox/server.go:584-593 | of a long ASCII name only the bytes beyond the limit and the blanks before them are lost |
| Candidates.FileCandidatesDiffer | internal/dumpbox/server.go:508-514 | the names tried for a file are pairwise distinct |
| Candidates.FolderCandidatesDiffer | internal/dumpbox/server.go:530-534 | the names tried for a folder are pairwise distinct |
| Candidates.CandidateLength | internal/dumpbox/server.go:507-545 | every candidate of a sanitised name has at most 227 bytes |
| Candidates.DecimalReads | internal/dumpbox/server.go:513 | the number in a candidate is written in decimal without a leading zero |
| Candidates.CandidateWithExtension | internal/dumpbox/server.go:508-514 | the k-th candidate for "stem.ext" is "stem (k).ext" |
| Candidates.CandidatePlain | internal/dumpbox/server.go:530-534 | for a folder, and for a file without an extension, it is "name (k)" |
| Candidates.FileSearch | internal/dumpbox/server.go:507-523 | with fewer than 10,000 names taken a free candidate exists, and there is a first one |
| Candidates.FolderSearch | internal/dumpbox/server.go:525-545 | the same for folders |
| Exhaustion.FilesExhausted | internal/dumpbox/server.go:507-523 | publishing gives up on names only in a directory with an entry for each of the 9,999 numbers, and for the name itself if it is an ordinary one, whatever the others did meanwhile |
| Exhaustion.FoldersExhausted | internal/dumpbox/server.go:525-545 | the same for folders |
| Exhaustion.CandidatesOrdinary | internal/dumpbox/server.go:511-514 | a numbered candidate is always a real name and never looks like a temporary file's |
| Paths.ResolveRelative | internal/dumpbox/server.go:547-563 | the loop over the segments computes the cleaned local path or refuses |
| Paths.RelativeStaysBelow | internal/dumpbox/server.go:551-563 | for every path a client can send, only real names are appended to the folder |
| Paths.GoingBack | internal/dumpbox/server.go:551-562 | after any path a segment "." stays where it is and ".." goes back by one, or outside and is refused |
| Paths.DepthKept | internal/dumpbox/server.go:551-563 | an accepted path yields one segment per segment sent if and only if each is sanitised to a real name, and never more |
| Paths.SteadyPathKeepsDepth | internal/dumpbox/server.go:551-563 | so it does whenever no segment is cut in leading white space |
| Paths.AsciiPathKeepsDepth | internal/dumpbox/server.go:551-563 | and therefore for every accepted ASCII path |
| LostSegment.SegmentLost | internal/dumpbox/server.go:551-594 | a path of two segments that arrives with one |
| LostSegment.LongNameIsDot | internal/dumpbox/server.go:584-594 | a family of names that the length limit leaves as "." |
| Paths.RelativeRoundTrip | internal/dumpbox/server.go:547-567 | a path of names that sanitising leaves alone arrives as it was sent |
| Paths.WhenFaithful | internal/dumpbox/server.go:569-595 | for ASCII and for uncut names, being a fixed point is all that takes |
| Paths.AsciiFaithful | internal/dumpbox/server.go:569-595 | exactly which ASCII names sanitising leaves alone |
| DiskInvariant.WorkerSoundStep | internal/dumpbox/server.go:471-504 | every step keeps a worker's counter within the part and the limit, and lets only a complete part within the limit reach publishing |
| DiskInvariant.DiskSoundStep | internal/dumpbox/server.go:453-504 | every step of every worker keeps: each name is settled or one worker's temporary name, settled names keep inode and content, an inode is written only by its worker and only before it is linked |
| TreeInvariant.OwnedStep | internal/dumpbox/server.go:351-369 | every step keeps the directories a tree, and everything inside a request's folder that request's |
| SlotsInvariant.SlotsStep | internal/dumpbox/limits.go:157-185 | every step keeps the in-flight count equal to the sum over subjects and to the requests between acquire and release, each within its limit |
| SlotsInvariant.RefusedExactly | internal/dumpbox/limits.go:157-169 | a request is refused if and only if as many requests are open as may be in all, or as many of its subject as it may have |
| SlotsInvariant.IdleRefusal | internal/dumpbox/limits.go:163-165 | an idle subject is refused only when all slots are taken and the subjects active share them out |
| Conservation.HeldCovered | internal/dumpbox/limits.go:113-151 | no worker holds more than its identity's ledger shows, so no release is clamped |
| Conservation.LedgerMoves | internal/dumpbox/limits.go:99-151 | a ledger step changes its own identity's entry by what the worker then holds more or less, and no other entry |
| Conservation.PublishMoves | internal/dumpbox/server.go:499-503 | publishing turns what the worker holds into settled weight of the same identity |
| Conservation.BalancedStep | internal/dumpbox/server.go:414-505 | every step keeps each ledger equal to what is settled plus what is held |
| Safety.InvRun | internal/dumpbox/server.go:271-545 | all invariants hold in every state of every run |
| Guarantees.LedgersExact | internal/dumpbox/limits.go:99-151 | in every reachable state each ledger shows startup usage, plus what was published since, plus what uploads in flight hold |
| Guarantees.SlotsExact | internal/dumpbox/limits.go:157-185 | in every reachable state the counters equal the handlers between acquire and release, in all and per subject, within the limits |
| Guarantees.AdmittedExactly | internal/dumpbox/limits.go:157-169 | in every reachable state a new request is admitted if and only if fewer than the total are open and fewer of its subject than each may have |
| Guarantees.PublishedForever | internal/dumpbox/server.go:507-523 | a settled name has the same inode and the same bytes in every later state |
| Guarantees.PublishedWhole | internal/dumpbox/server.go:480-504 | a name appears with the whole part already in its inode, was free before, and a broken part never appears |
| Guarantees.WalkCounts | internal/dumpbox/limits.go:51-76 | at any moment a startup walk would count what is settled plus every temporary file |
| Capacity.FileSlotsCoverInodes | internal/dumpbox/server.go:444-463 | at every step an identity's inodes are at most its file ledger, which is at most the limit or the startup count |
| Capacity.OccupiedExactly | internal/dumpbox/server.go:453-504 | in every reachable state an identity occupies what it occupied at startup, what was published since, and its unpublished temporary files |
| Capacity.PublishedApartRun | internal/dumpbox/server.go:507-523 | in every reachable state a published file shares its inode with no other settled name |
| Capacity.SurplusCounts | internal/dumpbox/limits.go:56-71 | counting names counts too much, if anything, and nothing too much where no inode has two names |
| Capacity.LedgerBound | internal/dumpbox/limits.go:99-138 | over whole runs no ledger exceeds its limit or what startup found |
| Capacity.BytesLag | internal/dumpbox/server.go:447-470 | the disk exceeds the byte ledger by at most the temporary files whose bytes were given back |
| Capacity.BytesLagExactly | internal/dumpbox/server.go:447-470 | in every reachable state disk and ledger differ by exactly what was given back, less what is charged and not written and what startup counted twice |
| Capacity.BytesOnDisk | internal/dumpbox/server.go:447-470 | published bytes stay within the quota or the startup usage; all bytes within that plus one file of limit size per upload slot of the subject |
| Containment.CautiousRun | internal/dumpbox/server.go:447-470 | with one slot per subject, one file per identity, or two files that fit together even if too large, ledger and given-back files stay within the quota in every run |
| Containment.ExposureStep | internal/dumpbox/server.go:421-470 | only a charge raises what the ledger shows plus what was given back and is still on disk |
| Overrun.TwoChunks | internal/dumpbox/server.go:421-470 | a second upload writes while the first has given its bytes back and still has its file |
| Overrun.ContainedExactly | internal/dumpbox/server.go:447-470 | the disk stays within the quota or the startup usage in every run, if and only if the configuration is one of those |
| Recovery.QuiescentRebuild | internal/dumpbox/limits.go:37-77 | with no upload in flight a rebuild gives the counters the ledgers already show |
| Recovery.CrashRebuild | internal/dumpbox/limits.go:37-77 | a rebuild at any crash point of any run never undercounts, and exceeds the disk by exactly the uploads between link and removal, then and in earlier crashes |
| Recovery.RestartStarts | internal/dumpbox/limits.go:37-77 | a rebuilt server is in a state from which all theorems start, with every published file |
| Recovery.FoldersArePrivate | internal/dumpbox/server.go:351-369 | in every reachable state what lies in a request's folder was put there by that request, and no two requests share a folder |
| Runs.Meanwhile | internal/dumpbox/server.go:271-408 | whatever the others do, a request's own record, its folder's inside, and everything settled stay |
| Runs.OnlyWorkersSettle | internal/dumpbox/server.go:499-503 | a request that has not begun has no files |
| Server.LimitIsExact | internal/dumpbox/server.go:472-475 | the limited reader passes every allowed part whole, and betrays every longer one, if and only if the limit is below 2^63-1 |
| Causes.SeenIsTaken | internal/dumpbox/server.go:515-520 | a name in use at one moment is taken in every later state, unless it was a temporary file's |
| Room.RestStep | internal/dumpbox/limits.go:99-151 | what a ledger shows besides a request's own holding and files is moved by other requests of the identity only |
| Room.RoomIsEnough | internal/dumpbox/limits.go:99-138 | while there is room for all a request needs, no quota refuses it |
| Room.OneAtATime | internal/dumpbox/limits.go:157-169 | with one upload slot per subject every request is alone |
| Room.RefusedMeansFull | internal/dumpbox/limits.go:99-138 | a refusal by a quota means that startup usage, what was published, what others hold and what was asked exceeded the limit at that moment |
| Server.Server.QuotaWrite | internal/dumpbox/server.go:421-432 | a chunk is charged before it is written, what was not written is given back; a refusal had a moment without room, an error a failed call |
| Server.Server.CopyPart | internal/dumpbox/server.go:471-498 | the copy ends with the whole part written and charged, within the limit, or with the worker failing, exactly the written bytes charged, and a reason in the part or in the run; too large if and only if it is and its bytes were charged |
| Server.Server.Link | internal/dumpbox/server.go:515-520 | a free name is published with the whole part; a name in use was so when tried; an error is the call's own |
| Server.Server.PublishFile | internal/dumpbox/server.go:507-523 | the first candidate that is free when tried, each earlier one being in use when it was tried; else a link failed, or all 10,000 were in use |
| Server.Server.Unwind | internal/dumpbox/server.go:447-470 | bytes, temporary file and slot go back in that order, and nothing is held afterwards |
| Server.Server.StorePart | internal/dumpbox/server.go:439-505 | the whole part is settled under the first candidate that could be had, or the disk and the worker are as before; every refusal has its cause in the part or in what happened meanwhile |
| Folders.MakeHome | internal/dumpbox/server.go:294-298 | the user's directory exists afterwards, or nothing has changed and a call failed |
| Folders.CreateUniqueDirectory | internal/dumpbox/server.go:525-545 | the first candidate that could be had becomes the request's own, new and empty folder; else the name is none, or all were in use when tried, or a call failed |
| Folders.MakeDirs | internal/dumpbox/server.go:564-566 | the directories on a path are there afterwards and nothing else is added; only a file of the same request can be in the way |
| Folders.CreateRelativeDirectory | internal/dumpbox/server.go:547-567 | the directory of the sanitised path below the folder, or the path is refused, or a file of the request is in the way, or a call failed |
| Requests.CreatedExactlyWhen | internal/dumpbox/server.go:300-408 | 201 exactly when nothing went wrong and the parts are acceptable: one root at most and before any file, paths below a root only, fields short, files within the limit and at least one |
| Requests.AnswerIsDetermined | internal/dumpbox/server.go:300-408 | without trouble the answer and the part it stops at depend on the request alone |
| Requests.FileLimit | internal/dumpbox/server.go:346-350 | checking the limit file by file is limiting their number |
| Requests.PathWaits | internal/dumpbox/server.go:333-340 | a path waits for the next file |
| Requests.NoPathWaits | internal/dumpbox/server.go:368 | and serves no other |
| Uploads.StoreFile | internal/dumpbox/server.go:351-402 | one file: the folder is made once, then the directories, then the file; or what was stored before stands and the trouble is explained |
| Uploads.ReadOther | internal/dumpbox/server.go:315-345 | a field or a foreign part passes exactly when it is acceptable where it stands |
| Uploads.ReadParts | internal/dumpbox/server.go:304-407 | the loop: its answer, the files on disk, the names reported, the sizes counted and the reason it stopped all follow from the parts read and what happened meanwhile |
| Uploads.Begin | internal/dumpbox/server.go:277-281 | a request is admitted exactly when slots in all and of its subject are not all taken by open requests; a refused one changes nothing |
| Uploads.Upload | internal/dumpbox/server.go:271-408 | a refused request leaves no trace; an admitted one returns its slot however it ends, and has the outcome described |
| Filling.FolderOneMore | internal/dumpbox/server.go:352-378 | the inside of the folder is always exactly the files stored so far and their directories, each file under the first name that was free |
| Clashes.ClashAnywhere | internal/dumpbox/server.go:564-566 | whether files of a folder upload get in each other's way does not depend on the folder |
| Clashes.NoClash | internal/dumpbox/server.go:564-566 | and is decided by the files sent: what was stored was not in the way |
| Outcomes.StoreVerdict | internal/dumpbox/server.go:439-505 | alone and with no call failing, storing a part ends as a function of the ledgers and the part says: stored, invalid, over quota, too large, broken or panicked |
| Outcomes.TooLargeExactly | internal/dumpbox/server.go:472-489 | an over-long part is called too large if and only if one byte more than the limit fits the quota; else the quota refuses it |
| Outcomes.TooLargeFor507 | internal/dumpbox/server.go:380-387 | two bytes under a quota and a file limit of one are answered with 507 |
| Overrun.OversizeRefused | internal/dumpbox/server.go:421-425 | a run of five steps, none of them a failed call, in which the charge for those two bytes is refused |
| Outcomes.NoQuotaTrouble | internal/dumpbox/server.go:384-387 | a request with room for all its files is never answered with 507 |
| Answers.StatusByCause | internal/dumpbox/server.go:271-408 | every answer in numbers, by what the request stopped for: 413, 507, 400, 500, or aborted |
| Answers.AcceptableExactly | internal/dumpbox/server.go:300-350 | the parts are acceptable if and only if fields have at most 4096 bytes and are complete, a root comes once and before any file, paths after it, foreign parts are readable, and there is a file but not more than allowed |
| Answers.AnswerIs | internal/dumpbox/server.go:300-408 | no call failing, names and room left, no file in another's way: reading stops at the first part with which anything is wrong and the answer is the number for it, and with nothing wrong it is 201 |
| Answers.AnswerIsAlone | internal/dumpbox/server.go:300-408 | alone, the same with the quotas in the condition: the first file that does not fit what the ledgers show is answered with 507 |
| Outcomes.StoredIsPrefix | internal/dumpbox/server.go:346-402 | whatever the answer, the files stored and the sizes counted are a prefix of the files sent |
| Outcomes.CreatedIffSound | internal/dumpbox/server.go:300-408 | no call failing, names and room left: 201 if and only if the order is acceptable, the root names a folder, every file has a name, a path, an end and an allowed size, and none is in another's way |
| Outcomes.CreatedIffFits | internal/dumpbox/server.go:300-408 | alone, the same with the limits as part of the condition: 201 if and only if moreover the ledgers leave room, when the request begins, for the number and the sizes of its files |
| EndToEnd.FormSays | internal/dumpbox/assets/app.js:130-134 | the server reads from the form the root and each file with its path |
| EndToEnd.FormInOrder | internal/dumpbox/assets/app.js:130-134 | every part the page sends is acceptable where it stands |
| EndToEnd.AllTree | internal/dumpbox/assets/app.js:72-84 | the files of a directory tree with distinct sibling names never stand in each other's way |
| EndToEnd.FolderArrives | internal/dumpbox/server.go:351-379 | a folder upload within the limits is answered with 201, and the new folder, root or the first "root (k)" that could be had, holds exactly the tree; unless a call failed, a quota had no room, or all 10,000 folder names were taken |
| EndToEnd.TreeArrives | internal/dumpbox/server.go:351-379 | no call failing, a folder name and room left: it arrives |
| EndToEnd.TreeArrivesIffFits | internal/dumpbox/server.go:351-379 | alone: it arrives if and only if the ledgers leave room for it when it begins |
| EndToEnd.UploadTree | internal/dumpbox/assets/app.js:111-134 | the same from the dropped directory to the disk, with any number of other uploads running |
| EndToEnd.SingleForm | internal/dumpbox/assets/app.js:111-134 | the form of a single file is one part named "file", read by the server as that file in no folder |
| EndToEnd.FileArrives | internal/dumpbox/server.go:375-407 | a single file within the limit is answered with 201, and is settled whole in the user's directory under the first candidate that could be had; unless a call failed, a quota had no room or the names are used up |
| EndToEnd.FileArrivesWithRoom | internal/dumpbox/server.go:375-407 | no call failing, names and room left: it arrives |
| EndToEnd.UploadFile | internal/dumpbox/assets/app.js:111-134 | the same from the picked file to the disk, with any number of other uploads running |
| Client.EntriesFromFiles | internal/dumpbox/assets/app.js:32-52 | the loop with its shared folder objects computes the grouping |
| Client.PickedInFolder | internal/dumpbox/assets/app.js:35-47 | a file goes below the first element of its path, at the elements between the first and the last |
| Client.PickedAlone | internal/dumpbox/assets/app.js:35-38 | a file without a folder in its path is uploaded on its own |
| Client.GroupingKeepsAll | internal/dumpbox/assets/app.js:32-52 | every file appears exactly once |
| Client.GroupingIsStable | internal/dumpbox/assets/app.js:39-50 | each folder holds the files of its root in input order, and no root comes twice |
| Client.ReadersAgree | internal/dumpbox/assets/app.js:72-84 | for a tree with a file in it, picking and dropping give the same upload |
| Client.Send | internal/dumpbox/assets/app.js:127-134 | the form holds the root, and for every file its path and the file |
| Client.UploadAll | internal/dumpbox/assets/app.js:28 | of the files picked at once the first is sent and no other, so all of them if and only if there is at most one |
| Token.DecodeUndoesEncode | internal/dumpbox/session.go:35-38 | raw URL-safe base64 round trip, also with a line end behind; the alphabet excludes the separator |
| Token.Vectors | internal/dumpbox/session.go:35-38 | the test vectors of section 10 of RFC 4648 without padding, and the two letters of section 5 |
| Token.VerifyUndoesSign | internal/dumpbox/session.go:30-64 | every signed object verifies and is recovered |
| Token.VerifiedWasSigned | internal/dumpbox/session.go:42-55 | what verifies carries the MAC of its first half |
| Token.NotUnique | internal/dumpbox/session.go:47-48 | a token has more than one textual form |
| Token.SessionRoundTrip | internal/dumpbox/session.go:30-64 | a session comes back as it was, with or without a username |
| Token.AuthRequestRoundTrip | internal/dumpbox/session.go:30-64 | an auth request comes back as it was |
| Token.SessionExpires | internal/dumpbox/session.go:66-68 | what a session's token yields is valid exactly until it expires, and never again |
| Token.AuthRequestExpires | internal/dumpbox/session.go:70-72 | the same for an auth request |
| Token.KindsAreSeparate | internal/dumpbox/session.go:66-72 | a token of one kind never yields a valid value of the other |

## Left out

- HTTP routing, headers, cookies, origin checks, the OIDC flow, templates and static files.
- Multipart wire parsing and the request size limit: a request is a sequence of parts, each with its bytes and the way its stream ends.
- Prometheus: only the sizes passed to `recordFile` are kept, in order.
- Nil receivers of the quota and the slots, and configuration parsing; the limits are taken as validated.
- File modes, durability of `Sync`, failures of `os.Remove` on a temporary file, panics inside the write to it, and other programs writing below the data directory.
- SHA-256, HMAC and JSON: a key is any function into 24 hex digits, the MAC any function, JSON any encoding that reads back what it wrote; so strings with invalid UTF-8, and the decoder's indifference to the case of field names, are not modelled.
- `unicode.IsLetter` and `unicode.IsNumber`: a parameter of the directory component.
- `filepath.Rel` of a stored file's directory, which cannot fail for a directory below the user's own.
- The drag-and-drop fallbacks, the page itself, retry and progress display; reading a directory in batches is modelled by its result, in a fixed order of enumeration.
- Startup.NewStorageQuota: assumes that the sizes below each key add up to less than 2^63, because the sum would wrap otherwise.
- Server.Server.StorePart: assumes a file limit between 1 and 2^63-2, as configured limits are positive and the largest one does not work.
- Naming.SteadyName: first bytes are settled for names not cut in leading white space only, because byte slicing and Unicode trimming break the fact for others.
- EndToEnd.FolderArrives: the names of the tree are taken to be fixed points of sanitising that were not cut in leading white space.
- Requests.AnswerIsDetermined: the names chosen for stored files depend on what the directory holds and are stated elsewhere.
- Outcomes.CreatedIffSound: where a name sent looks like a temporary file's, which takes a name cut in leading white space, it is open whether it is in the way of another file.
- Answers.AnswerIs: assumes that no file sent needs a directory where another one was stored; such a request is answered with 400, as the table by cause says.
