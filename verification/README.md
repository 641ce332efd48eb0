# FastBackup: a verified model

FastBackup is a gRPC service that dumps a PostgreSQL database into a Google Drive folder, restores it from there and
prunes old backups. Before every restore it stores a copy of the current database (a "pre-restore" backup). This
project models the logic behind those promises in Dafny and proves them.

`dafny verify dfyconfig.toml` checks the whole project.

## How the model is organised

| file | models |
|---|---|
| `Core`, `Format`, `Mapping` | backup descriptions, file names, Drive file records and the mapping between them |
| `Query` | the Drive search texts, with a reader and an evaluator for the language they are written in |
| `Retry`, `DriveStorage`, `Listing` | Drive calls over a network that may lose replies: retry, delete, upload, download, paged listings |
| `Retention`, `Prune` | which backups are pruned, and pruning end to end |
| `Protocol` | any number of concurrent `create_backup` and `restore` calls as a step machine |
| `ProtocolInvariant`, `ProtocolSteps` | the inductive invariant and the proof that every step keeps it |
| `ProtocolSafety` | what follows for every run: exclusion, uploads, removals |
| `ProtocolHistory`, `ProtocolWindow` | what the events of a run tell: which file each restore was asked for, and which overwritten databases are kept |
| `ProtocolUndo` | runs that exist: every kept copy can be restored, and writes that are lost |
| `ServiceSpec` | what the two calls may answer: the one answer of an unhindered call, and the named obstacles behind any other |
| `Service` | the same two calls as imperative code; each execution is a run of the machine |
| `Stream` | the download stream: a producer, a channel of capacity four, a consumer |
| `Tail` | cutting error output on a UTF-8 character boundary |

## The protocol machine

The state holds the database, the folder with contents and metadata, the temporary files, the try-lock and one program
counter per call. Every `await` of the source is a boundary between steps. At each boundary another call may move, the
awaited operation may fail, or the caller may be cancelled, which drops the guard and the temporary files. An upload or
delete whose reply was lost may take effect at once, later, or never. History components record every file ever
stored, who created it, which database each dump saw, and every overwriting of the database.

What the machine assumes:

- `pg_dump` looks at the database at one moment after it was started and writes some archive that `pg_restore` turns
  back into the database of that moment; `pg_restore` replaces the whole database or nothing (single transaction, exit
  on error), but may commit and still report an error.
- Cancelling a call stops its child process at once.
- A download that succeeds yields the stored content (proved of the download code separately, up to the digest).
- Drive never reuses a file id and does not change stored contents.
- Other programs may write the database and add files at any time, and may delete any file except a pre-restore copy.

The source's documentation promises that the overwritten state is kept without naming the case in which another
program writes the database while a restore is under way. The window of a restore reaches from the moment its dump
looks at the database to the commit. `OverwrittenIsKept` reads it off the events of the run: the copy keeps the
overwritten database if and only if nobody else wrote it inside the window, or the last such write put back what the
dump had seen. When only the service writes the database, everything is kept and every restore can be undone
(`NothingIsLost`, `UndoReturnsTheDatabase`, `EveryRestoreCanBeUndone`). `WriteDuringDumpIsLost` and
`WriteBeforeCommitIsLost` give the runs of the other case.

A second promise is false as stated: the files pruning removes are not exactly those whose deletion succeeded, since an
attempt can take effect and lose its reply on the last try, and Drive also answers "not found" for a file it hides from
the account, which counts as deleted. `LostDeleteStillRemoves` gives an input and `RemovalVersusSuccess` says exactly
when removal and success differ.

## Model

| member | source | states |
|---|---|---|
| ProtocolSteps.InvStep | crates/backup-server/src/service.rs:72-207 | every step of every call, every late effect and every outside change keeps the protocol invariant |
| ProtocolWindow.OverwrittenIsKept | crates/backup-server/src/service.rs:169-207 | in every run each database a restore overwrote is held by a pre-restore copy still in the folder, if and only if no other program wrote between the moment the dump looked and the commit, or the last such write put back what the dump saw; the copy always holds what the dump saw |
| ProtocolWindow.NothingIsLost | crates/backup-server/src/service.rs:169-207 | in every run in which only the service writes the database, every overwritten database is held by a copy still in the folder |
| ProtocolWindow.TouchedMeansWritten | crates/backup-server/src/service.rs:193-196 | each restore has one window, and the machine records it as disturbed exactly when a write of another program lies inside |
| ProtocolWindow.MarkOnce | crates/backup-server/src/service.rs:79-90 | along every run a call looks at the database at most once and overwrites it at most once |
| ProtocolSafety.ChangesAreRecorded | crates/backup-server/src/service.rs:193-196 | the database changes only by an outside write or by a committing restore, and each commit is recorded with both databases, so the record of overwritten databases is complete |
| ProtocolHistory.RestoresWhatWasAsked | crates/backup-server/src/service.rs:140-150 | what a restore works on and reports is the file with the requested id, in the folder, or for "latest" a regular backup that the latest query selects |
| ProtocolWindow.RestoreLoadsSource | crates/backup-server/src/service.rs:182-206 | when a restore reports success, it worked on the file it was asked for and the database is what that file holds, overlaid by what others wrote after the commit |
| ProtocolWindow.RestoreIsUndone | crates/backup-server/src/service.rs:917-945 | a later successful restore of the id of the reported copy loads what the first dump saw, which is the overwritten database if and only if the first window was harmless, whatever ran in between |
| ProtocolWindow.UndoReturnsTheDatabase | crates/backup-server/src/service.rs:917-945 | when only the service writes the database, restoring the reported copy returns exactly the database that the first restore overwrote |
| ProtocolSafety.Exclusion | crates/backup-server/src/service.rs:58-70 | at most one call is past the lock, the lock is free exactly when none is, and the temporary files are exactly those of that call, so none outlives success, failure or cancellation |
| ProtocolSafety.BusyChangesNothing | crates/backup-server/src/service.rs:58-62 | along a whole run, no step of a call that ends with Busy changes database, storage, temporary files or lock |
| ProtocolSafety.UploadAtMostOnce | crates/backup-server/src/service.rs:79-90 | no call ever creates two files, even when a cut-off upload arrives after the call has ended |
| ProtocolSafety.SuccessOwnsItsFile | crates/backup-server/src/service.rs:72-90 | a successful call created exactly the file it reports, with the kind of the call |
| ProtocolSafety.BackupsLoad | crates/backup-server/src/service.rs:79-90 | every file the service created loads to the database its own dump saw |
| ProtocolSafety.RemovesOnlyPrunable | crates/backup-server/src/service.rs:92-110 | a file that a step takes away mapped to a backup of kind regular and format pg_custom, or the step is a removal by somebody else |
| ProtocolUndo.UndoIsPossible | crates/backup-server/src/service.rs:169-207 | from every reachable state with a free lock, a restore of any kept copy can run to success and brings back what its dump saw, the overwritten database if and only if the window was harmless |
| ProtocolUndo.EveryRestoreCanBeUndone | crates/backup-server/src/service.rs:169-207 | when only the service writes the database, every overwritten database can be brought back |
| ProtocolUndo.WriteDuringDumpIsLost | crates/backup-server/src/service.rs:79-90 | a write while pg_dump runs is not in the archive and is overwritten; the copy keeps it exactly when it equals what the dump saw |
| ProtocolUndo.WriteBeforeCommitIsLost | crates/backup-server/src/service.rs:193-196 | the same for a write just before the commit |
| Service.BackupService.CreateBackup | crates/backup-server/src/service.rs:72-77 | every execution is a run of the machine that ends this call with the returned outcome; a taken lock gives Busy and changes nothing; otherwise the outcome is the stored backup, field by field, or the answer of a named obstacle met in a state this call went through; once the file is stored and the reply has come it is that backup or a cancellation; alone and with good answers the folder is the old one with exactly the new file, less the listed regular pg_dump backups of rank `keep` or more whose delete takes effect, and less nothing when no complete listing of at most 100 pages comes through |
| Service.BackupService.DumpAndUpload | crates/backup-server/src/service.rs:79-90 | however it returns, its temporary file is gone and the machine stands where the code stands; it returns the record of the file it stored or the answer it ran into; alone and with good answers exactly that file is new |
| Service.BackupService.PruneOldBackups | crates/backup-server/src/service.rs:92-130 | pruning never turns a stored backup into an error; alone it removes exactly the listed regular pg_dump backups of rank `keep` or more whose delete takes effect, and nothing without a complete listing |
| Service.BackupService.Restore | crates/backup-server/src/service.rs:169-207 | every execution is a run of the machine that ends this call with the returned outcome; a wrong confirmation or a taken lock changes nothing; otherwise the outcome is the restored pg_dump file with its copy, or the answer of a named obstacle met in a state this call went through; after success the database is what the requested file holds, overlaid by what others wrote after the commit; alone and with good answers it succeeds, the database is the load of the resolved file, and the folder is the old one with one copy that loads to the old database |
| ServiceSpec.RemovedByRank | crates/backup-server/src/service.rs:92-110 | deleting along the list of candidates removes the same files as the definition by rank over the listing, with kind and format written out |
| ServiceSpec.NewFileMaps | crates/backup-server/src/service.rs:79-90 | the file a call stores maps to the description that success reports: id, generated name, time, size, digest, format and the kind of the call |
| ServiceSpec.CompleteListing | crates/backup-server/src/service.rs:112-130 | at most one number of pages makes a listing complete: fewer than 100 pages that all come through, of which only the last says that there are no more |
| Service.BackupService.NothingIsLost | crates/backup-server/src/service.rs:193-196 | wherever the code stands, every overwritten database is kept in a stored file exactly when its window was harmless, and always when only the service writes the database |
| Retrying.Retry | crates/backup-gdrive/src/retry.rs:26-50 | between 1 and max(1, attempts) calls, all but the last transient; a transient last call means the attempts are used up; the result is that of the last reply; the first pause is the base delay and each further one the double of the one before, cut at the maximum |
| Retrying.LastCallUnique | crates/backup-gdrive/src/retry.rs:26-50 | the last call is determined by the replies alone: the first that is not transient, or the last allowed |
| Retrying.StatusDecidesRetry | crates/backup-gdrive/src/errors.rs:18-37 | a lasting 429, 5xx or rate-limit 403 uses all attempts and becomes Unavailable; any other status ends after one call |
| Retrying.PauseDoubles | crates/backup-gdrive/src/retry.rs:42-47 | doubling under the cap agrees with base * 2^i cut at the maximum |
| Retrying.TotalPause | crates/backup-gdrive/src/retry.rs:26-50 | all pauses together last at most base + (attempts - 2) * max |
| DriveStorage.GoogleDriveStorage.Delete | crates/backup-gdrive/src/storage.rs:270-284 | over every sequence of fates: the file is gone exactly when it was absent or an attempt took effect, no other file changed, and success means it is gone, except exactly when Drive hides it and no attempt took effect; every attempt but the last was lost, overloaded, refused by a server error or rate limited, and the last one is so only when the attempts are used up |
| DriveStorage.GoogleDriveStorage.Upload | crates/backup-gdrive/src/storage.rs:166-193 | one attempt creates at most one file, in the folder, with the given content and metadata that map to the request; success exactly when an answer came and maps, and if the record that came back is that file's, it describes what was requested |
| DriveStorage.GoogleDriveStorage.DownloadOnce | crates/backup-gdrive/src/storage.rs:107-161 | an attempt succeeds exactly when every frame arrived, was stored and the digest agrees, and then the destination is exactly its data frames; a digest of another length, or that differs at some place by more than the case of an ASCII letter, makes the attempt transient |
| DriveStorage.FaultDecidesRetry | crates/backup-gdrive/src/storage.rs:107-161 | the first fault of an attempt decides: a body that breaks off is transient, a destination that cannot be created, written or flushed is not |
| DriveStorage.GoogleDriveStorage.Download | crates/backup-gdrive/src/storage.rs:253-268 | after any number of failed attempts, success means the destination holds the last attempt's data and nothing else, and the digest of the destination agrees with the stored one character by character up to ASCII case |
| DriveStorage.ComparisonIsChecksum | crates/backup-gdrive/src/storage.rs:150-158 | comparing lower-cased texts accepts exactly the texts of equal length that differ only by the case of ASCII letters |
| DriveStorage.UploadsCounted | crates/backup-gdrive/src/storage.rs:166-193 | over every run of uploads, new files are the successes plus the calls whose effect happened but whose reply was lost or unmappable; old files stay |
| Listing.List | crates/backup-gdrive/src/storage.rs:195-208 | over every storage, a returned page is the page its token stands for; a rejected client token is reported as an invalid argument |
| Listing.BackupsInOrder | crates/backup-gdrive/src/storage.rs:67-105 | unmappable files are skipped and the i-th mappable file is the i-th backup of the page |
| Listing.CollectPages | crates/backup-server/src/service.rs:112-130 | over every storage, whatever its tokens do: success exactly when the chain of tokens ends within the cap and each page was served, and then the whole listing in order |
| Listing.ListAll | crates/backup-server/src/service.rs:14-15 | the same over Drive with retries and the cap of 100 pages: all or nothing |
| Listing.EndlessIsRefused | crates/backup-server/src/service.rs:14-15 | a chain of tokens that never ends is an error |
| Listing.SameTokenNeverEnds | crates/backup-server/src/service.rs:14-15 | a storage that keeps handing out one token has such a chain |
| Listing.PagedChain | crates/backup-gdrive/src/storage.rs:67-105 | the chain of a listing cut into pages with distinct tokens is that listing |
| Listing.FirstBackup | crates/backup-gdrive/src/storage.rs:210-230 | over every storage the page loop answers what the simple definition over the first pages answers, or fails with the error of the first page not served |
| Listing.LatestBackup | crates/backup-gdrive/src/storage.rs:210-230 | the same over Drive with retries and ten pages |
| Listing.LatestOverWholeFolder | crates/backup-gdrive/src/storage.rs:210-230 | however far the chain is followed, a found backup is the first of all; none means that the chain ends and holds none; giving up means that the pages read hold none and none was the last |
| Listing.LatestIsNewest | crates/backup-gdrive/src/storage.rs:210-230 | over a chain in the requested order a found backup is at least as new as every backup of the folder |
| Listing.Get | crates/backup-gdrive/src/storage.rs:232-251 | success means that the file is stored, not trashed, has the folder among its parents and is described by its mapping; without network faults a missing, trashed or foreign file is NotFound and any other file answers its mapping; otherwise the last fault is reported |
| Listing.ListedIsGettable | crates/backup-gdrive/src/query.rs:22-35 | what list or latest returns, get accepts with the same description, and latest never returns a pre-restore copy |
| Retention.RankedAtRank | crates/backup-core/src/backup.rs:97-104 | the stable sort puts each regular pg_dump backup at the number of such backups that are newer, or as new and listed earlier |
| Retention.RankedHasRank | crates/backup-core/src/backup.rs:97-104 | and every place of the sorted list is taken by the regular pg_dump backup of that rank |
| Retention.CandidateIffRank | crates/backup-core/src/backup.rs:97-104 | a backup is chosen if and only if its kind is regular, its format is pg_custom and at least `keep` such backups come ahead of it |
| Retention.CandidateHasRank | crates/backup-core/src/backup.rs:97-104 | the k-th candidate is the regular pg_dump backup of rank keep + k |
| Retention.CandidateAtRank | crates/backup-core/src/backup.rs:97-104 | and the backup of each rank from `keep` on is the candidate at that place, also when ids repeat |
| Retention.CandidatesAreRegularDumps | crates/backup-core/src/backup.rs:97-104 | every candidate is in the listing, of kind regular and format pg_custom |
| Retention.CandidatesAreOldest | crates/backup-core/src/backup.rs:97-104 | max(0, n - keep) are chosen, newest first, and none is newer than a kept one |
| Retention.LargerKeepIsSuffix | crates/backup-core/src/backup.rs:97-104 | a larger `keep` chooses a suffix |
| Retention.RankedWithout | crates/backup-core/src/backup.rs:97-104 | stable sorting commutes with the deletion of any backups |
| Retention.RetentionResumes | crates/backup-core/src/backup.rs:97-104 | after any subset of the candidates was deleted, the next run chooses exactly the rest, so one full run clears any backlog and the next finds nothing |
| Retention.OrderIndependent | crates/backup-core/src/backup.rs:97-104 | with distinct times the choice does not depend on the listing order |
| Retention.NewestSurvives | crates/backup-core/src/backup.rs:97-104 | the strictly newest backup survives every positive `keep` |
| Prune.DeleteAll | crates/backup-server/src/service.rs:104-109 | every candidate is tried; exactly those with an effective attempt disappear, exactly those with a served last attempt are reported |
| Prune.PruneOldBackups | crates/backup-server/src/service.rs:92-110 | without setting or listing nothing changes; otherwise the listing is all or nothing and the folder loses exactly the effectively deleted candidates |
| Prune.RemovalVersusSuccess | crates/backup-gdrive/src/storage.rs:270-284 | a failed delete removed the file if and only if an attempt took effect and lost its reply; a successful one did not remove it if and only if Drive hides it and no attempt took effect |
| Prune.LostDeleteStillRemoves | crates/backup-gdrive/src/storage.rs:270-284 | under every policy, replies lost after taking effect remove the file although the delete reports failure |
| Prune.RetentionKeeps | crates/backup-server/src/service.rs:92-110 | whatever deletes happened, files outside the folder's listing, files that do not map, those of another kind than regular or another format than pg_custom, and the newest `keep` backups are untouched |
| Prune.PruneFolder | crates/backup-server/src/service.rs:92-110 | end to end: for every folder, paging and fate of listing and deletes, exempt files, the newest `keep` and for a positive count the strictly newest upload are still stored; when the listing came through and every delete took effect, exactly the newest `keep` are left |
| Prune.NewestIsNoCandidate | crates/backup-server/src/settings.rs:60-70 | with a positive retention count a strictly newest upload is never a candidate of its own pruning |
| Prune.FullPruneLeavesNewest | crates/backup-server/src/service.rs:92-110 | when every candidate is removed, the prunable files left are exactly the newest `keep` |
| Query.EscapeIsOnePass | crates/backup-gdrive/src/query.rs:16-18 | the two successive replacements equal one per-character escape |
| Query.LiteralRoundTrip | crates/backup-gdrive/src/query.rs:16-18 | a reader started at the opening quote recovers any value and leaves exactly what follows the literal |
| Query.FolderQueryReads | crates/backup-gdrive/src/query.rs:22-27 | for every folder id the text reads as the three intended terms, followed by any query appended to it |
| Query.LatestQueryReads | crates/backup-gdrive/src/query.rs:29-35 | the latest query reads as those terms and the exclusion of pre-restore copies |
| Query.FolderQuerySelects | crates/backup-gdrive/src/query.rs:22-27 | the printed text, read by a reader with its own words, selects exactly the files in the folder that are neither trashed nor folders |
| Query.LatestQuerySelects | crates/backup-gdrive/src/query.rs:29-35 | and the latest text exactly those of them whose kind property is not pre_restore |
| Query.QueriesAgreeWithMapping | crates/backup-gdrive/src/query.rs:22-35 | the texts select exactly the non-folder files that the local check accepts, and the exclusion coincides with the kind the mapping parses |
| Mapping.KindComesFromProperty | crates/backup-core/src/backup.rs:15-34 | a file maps to a pre-restore copy exactly when its property says so, and to a regular backup exactly when it says "regular" or nothing |
| Mapping.MapsExactlyWhen | crates/backup-gdrive/src/mapping.rs:12-54 | a file maps to a description if and only if id, name and time are there and equal, the digest is passed on, a negative size counts as missing, and kind and format come from the written-out property values, the format otherwise from the name |
| Mapping.UnmappableBecause | crates/backup-gdrive/src/mapping.rs:12-29 | a file fails to map with a storage error exactly when id, name or time is missing, and otherwise as no backup of the service |
| Mapping.UploadRoundTrip | crates/backup-gdrive/src/mapping.rs:12-54 | upload metadata, completed by Drive, maps back to the request, has the folder as its only parent, carries the database name and is shown by listings, and by latest exactly when it is regular |
| Mapping.DetectedWithoutFormatProperty | crates/backup-core/src/format.rs:38-64 | a dump whose format property was lost maps to the same description |
| Format.ExtensionOfPlainSuffix | crates/backup-core/src/format.rs:50-64 | the extension of "path stem.ext" is ext, whatever dots and slashes come before |
| Format.ExtensionOfName | crates/backup-core/src/format.rs:50-64 | a plain name has the extension ext exactly when it is a non-empty stem, a dot and ext without dots |
| Format.ExtensionOfPath | crates/backup-core/src/format.rs:50-64 | only the last component of a path counts, and trailing separators do not |
| Format.PlainNameDetected | crates/backup-core/src/format.rs:50-64 | without the property exactly the extensions "pgdump" and "dump" are accepted, each as its format |
| Format.NameDetected | crates/backup-core/src/format.rs:50-64 | without the property a plain name is detected as a format if and only if it is a non-empty stem followed by that format's suffix |
| Format.GeneratedNameDetected | crates/backup-core/src/format.rs:38-64 | every generated name is recognised by its extension, for every database name |
| Format.NameTells | crates/backup-core/src/format.rs:38-48 | a generated name tells the kind by its beginning, and for one time no two databases or kinds share a name |
| Stream.StreamIsPrefix | crates/backup-server/src/grpc.rs:123-131 | under every schedule and pattern of short reads: at most four queued messages, header first, chunks of 1 byte to 1 MiB, their bytes a prefix of the file, an error only as the last message |
| Stream.CompletionDeliversAll | crates/backup-server/src/grpc.rs:35-61 | a completed producer has handed a connected consumer exactly the file |
| Stream.StreamTerminates | crates/backup-server/src/grpc.rs:35-61 | no schedule takes more than 4 n + 7 steps and the transfer never gets stuck |
| Stream.MaximalRunDelivers | crates/backup-server/src/grpc.rs:35-61 | a run that cannot go on has delivered the header and either the whole file or a final error |
| Stream.SendFile | crates/backup-server/src/grpc.rs:123-131 | every execution of the producer's code is a run of the stream machine; what it sends and how it ends is exactly what the read replies and the receiver's patience allow, the whole file unless opening or reading failed or the receiver was gone |
| Stream.StreamFile | crates/backup-server/src/grpc.rs:35-61 | the reading loop with its one reused buffer sends exactly the chunks the reads give, of at most 1 MiB, and fails only when a read fails |
| Tail.ByteTestIsExact | crates/backup-pg/src/tools.rs:131-138 | the byte test for a boundary holds exactly where some prefix of the text ends, on every UTF-8 text |
| Tail.DecodeEncode | crates/backup-pg/src/tools.rs:131-138 | the bytes of a text determine the text: decoding by lead bytes returns every text |
| Tail.BoundaryIsNear | crates/backup-pg/src/tools.rs:131-138 | from every position a boundary is at most three bytes ahead |
| Tail.Tail | crates/backup-pg/src/tools.rs:131-138 | within three advances, the longest suffix of the trimmed text that fits the limit and starts on a boundary |

## Left out

- OAuth, TLS, HTTP client construction, settings parsing, command-line assembly, logging, health checks and start-up: no logic beyond single branches.
- MD5, zstd and time formatting: the digest is an arbitrary function, the printed time a text without a slash.
- The insides of `pg_dump`, `pg_restore` and `psql`, and process spawning: an arbitrary loader with an atomic outcome.
- Downloads for clients take no lock and are not steps of the protocol machine; their delivery is modelled in `Stream`.
- Legacy decompression in `download`: a blocking task over a foreign codec, outside the lock protocol.
- gRPC conversions, page-size clamping and the error-to-status table: single-branch facts.
- Real time and fairness: a timeout is a lost reply that may come at any await.
- Error texts are kept only where a caller can distinguish the outcome by them.
- Service.BackupService.CreateBackup: the world next to the code's own fields is one value, so sharing between threads is the interleaving at awaits, not aliasing.
- Listing.ListAll: assumes that the answers to page tokens do not change while the pages are read, that is, that the folder is not written meanwhile; in the protocol machine each page is served from the folder as it is at that moment.
- Tail.Tail: the encoder is written out from section 3 of RFC 3629; decoding of malformed bytes does not occur because the source's strings are well formed.
