# Verification model

A Dafny model of the parts of this repository whose correctness rests on more than one function: the log
archive, select-all mail actions, Sieve team editing, the Gmail filter converter and the mail monitor's
windows.  `dafny verify dfyconfig.toml` checks all of it.

**The log archive** (`log-archiver/`). A disk is a map from names to contents, every transaction a list of
disk operations, and a crash a stop inside any of them, with any part of a write done. `ArchiveCrash` proves
that a commit, expiry or compaction that dies anywhere, followed by reopenings that die anywhere, ends in the
archive before or the archive after, and which. `ArchiveRun` follows whole lives of an archive: commits,
expiries, compactions that read beside other transactions, and deaths. In every one of them each hour can be
decoded, published time ranges are exact, and file identifiers determine contents. `ArchiveQuery` puts the
search on top of such a life: it reads while the archive moves on, and whatever it met, a page that is
published is a page of the snapshot it names, and a snapshot that was replaced is reported as expired, never as
damage. `ArchiveRows` says what following the cursors to the end amounts to.
`CollectorHistory` puts the collector on top of it: while log files only grow, each complete line is archived
once. The classes `ArchiveStore.Store`, `CollectorFollow.Reading` and the methods of `CollectorTracking`,
`CollectorOnce`, `ArchiveSearch` and `ArchiveQuery` are the loops that update state step by step; each is proved against these
specifications.

**Select-all actions** (`webmail/server/mail/`). The mail server is an adversary: its answers are a script
that may fail, refuse or stall at any point. `ScopedGroup` proves that a batch run sends no message twice and
reports each of them once, and that only what was acknowledged is reported as processed. `ScopedActions` keeps
the books of a selection over any number of requests. `UidSets` proves the batching of UIDs.

**Sieve team editing** (`webmail/server/admin/sieve-team.js`). The tokenizer, the grouping of commands and the
four edits, with a theorem that makes the self-check after an edit unable to fail: replacing text at a command
boundary changes exactly the commands that were replaced.

**The Gmail converter** (`tools/gmail2sieve/core.js`). Search text is parsed to a condition, the condition
printed as a Sieve test; the printed text is read back by the grammar of RFC 5228 and means what the condition
means.

**Mail monitor windows** (`webmail/server/admin/mail-monitor-collector.js`). Collections over any sequence of
runs, restarts and saved states, and the windows summed from them.

What is assumed: gzip decodes what it encoded, members one after the other decode one after the other, and no
encoding is empty (`ArchiveTypes.Sound`; `ArchiveCodec.SoundCodec` gives one that does); hashes are injective,
so a fingerprint is the bytes it was taken of; random identifiers do not repeat.

## Findings

Four properties that the design suggests do not hold of the code in full. Each has its exact condition, and
an input or a run that shows the failure.

- Receipts do not always add up to the totals. When a session ends after a batch was settled, `execute`
  rethrows before it writes a receipt (`webmail/server/mail/scoped-actions.js:396-397`), and the next receipt
  starts from the totals it finds (`:356`). `ScopedActions.ReceiptsAddUp`: the deltas add up exactly when there is
  no call whose planned batches and the server's replies to them end the session, or in which the selection or
  the store goes away, after the replies gave a message its outcome; `StepEnd` and `ScopedGroup.EndOf` say of a
  batch and its replies, without running it, whether they do either. `ScopedActions.LosesAReceipt` runs the code
  into it: two folders, the first batch is acknowledged, the server ends the session when the second folder is opened.
- A search can miss a matching line. A member is skipped by the time range that the collector staged
  (`log-archiver/search.js:204`), but the two do not read the same time in every line: the collector dates an
  access line by its brackets (`log-archiver/sources.js:91-97`), the search by a time in front of it, if there is
  one (`log-archiver/search.js:99`). `ArchiveRows.ArchivePages`: the pages hold all matching lines exactly when no
  pinned hour has a member whose lines the collector all dated on one side of the window and in which a line
  matches; `ArchiveRows.SkipsRight`: that cannot happen to a member, whatever is asked for, exactly when the search
  reads in each of its lines a time in the member's range. `ArchiveRows.SkippedMatch` is a line that is not found.
- A Gmail filter can yield a test with an empty search value, which every mail with that header passes.
  `buildCondition` skips blank attributes by `trim` before control characters are taken out, and the
  single-phrase form does not check the cleaned value (`tools/gmail2sieve/core.js:236-244`). `GmailFilter.EmptyValues`: this happens exactly when
  one of from, to and subject consists of control characters and white space only, and not of white space only.
  `GmailFilter.EmptyValueHappens` is the one-character case.
- Removing an added member does not always give back the script. When the last member's line is not ended and
  the script's last character is a lone CR, `removeMember` takes that CR for part of the line end that
  `addMember` wrote (`webmail/server/admin/sieve-team.js:149`). `SieveUndo.AddThenRemove`: in all other cases the
  script comes back byte for byte. `SieveUndo.BareCrIsLost` gives scripts on which it does not.

One condition is worth knowing: a generation that was closed before anything of it was read is a tombstone for
whatever its inode holds later. `matches` accepts every file at offset 0 (`log-archiver/collector.js:23-24`), so a
file that is found again there is never read (`:166-173`). `CollectorTracking.Track` states what is opened: every
file that is not followed and matches no closed generation.

## Model

| member | source | states |
|---|---|---|
| ArchiveCrash.CrashAtomicity | log-archiver/store.js:460-508 | A commit, compaction or expiry of a valid archive stopped inside any disk operation, torn writes included, and any number of reopenings stopped the same way: the next reopening succeeds with exactly the archive before or after, and "after" exactly when the commit point was passed. |
| ArchiveCrash.FirstOpening | log-archiver/store.js:107-155 | The first opening may die anywhere and be repeated; it ends in the empty archive. |
| ArchiveStaging.PackExact | log-archiver/store.js:231-237 | Batching drops, repeats and reorders nothing; no batch is empty; only a single line may exceed the member size. |
| ArchiveStaging.PackFull | log-archiver/store.js:232-235 | A batch is followed by another only if it has reached the member size or the next line would exceed it. |
| ArchiveStaging.AppendChangeOk | log-archiver/store.js:195-240 | The change staged for an hour is one that may be published, and the hour's decoded text grows by exactly the lines, in order. |
| ArchiveCommit.CommitTxOk | log-archiver/store.js:243-303 | Every commit of whole lines to a readable archive is a transaction crash atomicity covers. |
| ArchiveCommit.CommitText | log-archiver/store.js:243-303 | After it every hour holds its old text followed by its lines of the batch, and the checkpoint has exactly the given generations replaced. |
| ArchiveHistory.FileIdDeterminesContents | log-archiver/store.js:171-182 | In any history, between two moments at which an hour has one fileId the hour only grew, had that fileId all along, and equal sizes mean equal bytes, index and entry. |
| ArchiveReaders.SnapshotIsolation | log-archiver/search.js:306-315 | Whatever a reader sees of an hour's file between two such moments, even inside a transaction, starts with the bytes the hour had at the first. |
| ArchiveReaders.ReadIndexExact | log-archiver/store.js:175-182 | An index read later for a snapshot is the snapshot's own, and is given out whenever the fileId is still the same. |
| ArchiveReaders.MemberReadExact | log-archiver/search.js:208-208 | Reading a member's byte range at any moment of an unchanged snapshot gives exactly its bytes. |
| ArchiveReaders.CompactionRebuilds | log-archiver/store.js:323-393 | If the publication guard passes, the hour is byte for byte the one chosen, the rebuild from pieces read at different moments succeeded, and it holds the hour's present text. |
| ArchiveReaders.CompactionTxOk | log-archiver/store.js:391-426 | Publishing a rebuild is a transaction crash atomicity covers. |
| ArchiveReaders.CompactionFaithful | log-archiver/store.js:391-426 | It changes no line of any hour, no line count and no generation. |
| ArchiveRanges.BatchRanged | log-archiver/store.js:219-221 | The range staged with a batch is the tightest one that holds its lines, and the undated lines are counted. |
| ArchiveRanges.CommitRanged | log-archiver/store.js:219-227 | A commit keeps every published time range and undated count right, of members and of hours. |
| ArchiveRanges.ExpireRanged | log-archiver/store.js:523-547 | So does an expiry. |
| ArchiveRanges.CompactRanged | log-archiver/store.js:345-374 | So does a compaction of an exact rebuild. |
| ArchiveRun.CommitIdentified | log-archiver/store.js:196-201 | The changes a commit builds give new hours new fileIds, and keep fileId, bytes and index of an hour that is appended to. |
| ArchiveRun.CompactStep | log-archiver/store.js:323-426 | A compaction whose guard passes, however its reads were spread over the history, publishes a transaction of that history which leaves every text, range, count and generation as it was. |
| ArchiveRun.LivesAreSane | log-archiver/store.js:98-105 | Every life of commits, expiries, compactions and deaths is a history in the sense above, and all its archives are readable with right ranges and counts. |
| ArchiveStore.Store.Publish | log-archiver/store.js:261-299 | The disk ends as the transaction's operation list says, memory changes only after the checkpoint, and any failure closes the store. |
| ArchiveStore.Store.Commit | log-archiver/store.js:243-303 | Refused exactly when an offset goes back, with nothing changed; an accepted commit is done exactly when the process lives through its operations; then every hour has exactly its lines appended; died, the disk is what crash atomicity starts from. |
| ArchiveStore.Store.Expire | log-archiver/store.js:523-547 | Exactly the hours past retention go, every other hour keeps its text, the checkpoint stays; it succeeds exactly when the process lives through its operations. |
| ArchiveStore.Store.PublishCompaction | log-archiver/store.js:391-426 | Publishes exactly when the hour is the one that was read, and succeeds exactly when the process lives through its operations; no hour's text changes and ranges stay right. |
| ArchiveStore.Store.Init | log-archiver/store.js:107-155 | Carries out the opening plan crash atomicity speaks of, and is open only on an archive that passes its checks. |
| ArchiveStore.ExpiredIsOld | log-archiver/store.js:527-530 | An hour is deleted only when every dated line in it has outlived its retention. |
| ArchiveStore.ExpiresExactly | log-archiver/store.js:527-530 | An hour of dated lines is deleted exactly when all of them have outlived their retention; any hour at the latest when its end has. |
| ArchiveSearch.SkipIsSound | log-archiver/search.js:204-207 | A member skipped by its time range holds no matching line, if its lines show times in that range. |
| ArchiveSearch.ScanPart | log-archiver/search.js:208-301 | Reading a member in chunks under a budget, a row limit, a size limit and a deadline delivers exactly the rows owed from the resume line on, or a cursor at which the rest is still owed; it stops only at a limit that was reached, and counts the bytes it reads. |
| ArchiveSearch.PageGenuine | log-archiver/search.js:256-264 | Every row delivered is a line of the snapshot, at its place, with a time in the window and within the retention, and holds the text. |
| ArchiveSearch.PagesEqualFilter | log-archiver/search.js:188-303 | However pages were cut, their rows joined are, in order, the matching lines of the members that are not skipped; all of them when no cursor is left. |
| ArchiveSearch.PagesEnd | log-archiver/search.js:19-25 | A chain of pages is no longer than the snapshot has places. |
| ArchiveSnapshot.SnapshotSound | log-archiver/search.js:175-183 | Every snapshot of a readable archive with right ranges is what the page loop relies on. |
| ArchiveSnapshot.WindowCovered | log-archiver/search.js:176-176 | No line that was dated in the window lies in an hour that is not pinned. |
| ArchiveQuery.MemberReadRight | log-archiver/search.js:208-279 | Until its hour is replaced, reading a member at any moment gives the snapshot's member, and passes its checks. |
| ArchiveQuery.ReadHour | log-archiver/search.js:195-195 | The index is the snapshot's own; none is given only if from then on no check of the snapshot passes. |
| ArchiveQuery.Damaged | log-archiver/search.js:280-295 | Bytes that are not the member's end the page or the search; when they are noticed, the file has been replaced, so the search is expired and the archive not corrupt. |
| ArchiveQuery.Visit | log-archiver/search.js:198-302 | Skipping or reading one member, at a moment of its own and whatever bytes are found, keeps the page on course unless a pinned file was replaced by the end of the read. |
| ArchiveQuery.SearchArchive | log-archiver/search.js:185-324 | While the store goes on, a search ends in a page, expired, cancelled or out of time, never in an invalid cursor or a corrupt archive. A page holds the next rows owed, at most the limit, with a strictly later cursor for exactly the rest, of a snapshot that was still current when it was checked last; expired means that it was not. A page with a cursor ended at the limit it names, and counts no more bytes than the members from its first cursor to the next hold; a search is given up only for time, a replaced file or a limit that left the cursor where it was. |
| ArchiveRows.RowsAreLines | log-archiver/search.js:256-264 | The rows of a snapshot are the matching lines of what its hours decode to, but for as many as the skipped members hold. |
| ArchiveRows.MissedExactly | log-archiver/search.js:204-207 | A member is skipped with a matching line in it exactly when the collector dated all its lines on one side of the window and by the search's reading one of them matches. |
| ArchiveRows.SkipsRight | log-archiver/search.js:204-207 | Skipping a member of dated lines loses nothing, for any window and text, exactly when the search reads in each line a time in the range the collector staged. |
| ArchiveRows.SkippedMatch | log-archiver/search.js:99-99 | A line with two times that matches, in an hour that is pinned, and is skipped. |
| ArchiveRows.ArchivePages | log-archiver/search.js:185-318 | Pages followed to the end hold exactly the matching lines of the pinned hours as they were when the search began, in order, if and only if no member is skipped with a match in it. |
| ArchiveRows.NothingOverlooked | log-archiver/search.js:176-264 | Then every line of the source that was dated in the window and matches is on one of the pages. |
| CollectorPrint.RollEnds | log-archiver/collector.js:271-275 | The rolling prefix and tail are those of everything consumed. |
| CollectorPrint.PrintGrows | log-archiver/collector.js:30-35 | A file that only grew keeps the fingerprint of what was consumed. |
| CollectorFollow.Read | log-archiver/collector.js:253-318 | Whatever the chunks and the budget, the records are the kept lines completed by the bytes consumed, and gaps are the oversized and undated lines; it fails exactly when the file changed; with budget left, no complete or oversized line is left, and no more than a line and a chunk is taken beyond it. |
| CollectorTracking.Keep | log-archiver/collector.js:124-138 | Generations stay on their files; one that does not has no file that goes on where it stopped. |
| CollectorTracking.RehomeAll | log-archiver/collector.js:139-165 | Every other open generation adopts its one unused matching copy or is closed, exactly as the files have it; no two share a file. |
| CollectorTracking.Track | log-archiver/collector.js:120-178 | Distinct open generations are on distinct files, offsets never move, new generations are exactly the files neither followed nor archived, each with its own name; a generation is closed only if no file goes on where it stopped; it fails only if a file cannot be read. |
| CollectorOnce.FollowOne | log-archiver/collector.js:193-228 | One file's turn: records are the kept lines of what it consumed; a failed read changes no accounting, and a file that only grew and can be read does not fail; with budget left, it is read to its last complete line. |
| CollectorOnce.Work | log-archiver/collector.js:184-228 | The batch of a cycle is, generation by generation, the lines between the old and the new offsets; every calm file is read to its last complete line, or the cycle has spent its allowance; it takes no more than a line and a chunk beyond that. |
| CollectorOnce.Cycle | log-archiver/collector.js:93-229 | Tracking and reading together: checkpoints, batch and offsets agree, files that only grow keep every generation rooted at the beginning of its file, and what can be read is read as far as the allowance goes. |
| CollectorOnce.RecordsExact | log-archiver/collector.js:288-292 | The records of some lines are those within the retention, each once and in order, under the hour of the time they show, or of the reading if they show none. |
| CollectorWorld.TrackedApart | log-archiver/collector.js:124-178 | No file is given to a second generation, except by adoption. |
| CollectorHistory.CycleCommits | log-archiver/collector.js:229-230 | What a cycle hands over is a commit that the archive's life can go on with. |
| CollectorHistory.ExactlyOnce | log-archiver/collector.js:75-83 | Over any life of cycles, crashes, compactions, expiries and reopenings, while files only grow: every hour holds its unexpired records once and in order, and what a generation contributed and consumed is what its file held up to its offset. |
| CollectorHistory.EachLineOnce | log-archiver/collector.js:253-318 | So a generation's lines are exactly the kept complete lines of its file up to its offset, in file order, and no place is counted under two generations unless one adopted it as a copy. |
| CollectorHistory.NothingLeft | log-archiver/collector.js:184-229 | After a cycle that commits, all complete lines of every calm file are archived, unless the allowance was spent or the file belongs to a closed generation. |
| UidSets.UidSet | webmail/server/mail/ref.js:84-95 | The text printed is that of the maximal runs of the numbers read. |
| UidSets.UidSetDenotes | webmail/server/mail/ref.js:84-95 | Read as a sequence set of RFC 3501, it denotes exactly the UIDs. |
| UidSets.NextBatch | webmail/server/mail/ref.js:96-110 | The longest prefix whose count and text fit. |
| UidSets.Batches | webmail/server/mail/ref.js:96-110 | Batches are non-empty, fit, make up the input in order, and none could take one more UID. |
| UidSets.BatchState.Update | webmail/server/mail/ref.js:127-131 | The next batch size is the largest within its range, at most twice the last one, that keeps the expected time within the target. |
| ScopedGroup.GroupRun.Settle | webmail/server/mail/actions.js:108-116 | Moves exactly the given references to one result, each reported once, and nothing after the end of the run. |
| ScopedGroup.GroupRun.Send | webmail/server/mail/actions.js:154-165 | From sending to acknowledgement the command is in doubt; any other answer leaves it so. |
| ScopedGroup.GroupRun.Mutate | webmail/server/mail/actions.js:166-212 | Batch by batch, only acknowledged batches become processed, no candidate is sent twice. |
| ScopedGroup.GroupRun.Run | webmail/server/mail/actions.js:87-225 | Whatever the server answers: every reference ends in exactly one of processed, skipped, failed, unknown and remaining; what remains, failed or was skipped was never sent; the size guard fires only on sets that are too long. By the replies alone: what error ends the run, and whether it is thrown; that what the search did not find is skipped, what a refusal stopped failed with its code, what a command in doubt leaves is unknown, and messages remain only for want of time; and for a planned batch whether the session is lost and whether anything was settled before. |
| ScopedLedger.LedgerSettle | webmail/server/mail/scoped-actions.js:359-374 | Recording one outcome keeps totals, failure list and code counts in agreement with the outcomes. |
| ScopedLedger.LeftIsUnset | webmail/server/mail/scoped-actions.js:311-313 | Messages without an outcome and the three totals make up the selection. |
| ScopedActions.Selection.Settle | webmail/server/mail/scoped-actions.js:361-374 | The first outcome of a message counts, later ones change nothing. |
| ScopedActions.Selection.Execute | webmail/server/mail/scoped-actions.js:340-422 | Outcomes are only added, used cursors give their stored receipts and change nothing, a run's receipt reports exactly what it recorded, a broken-off run keeps its cursor. The call is noted with the turns it was given: by their replies it was broken off or not, and moved the totals or not; every message of a planned batch has the outcome the replies call for. The receipt answers for them: its error is the one the last replies call for, a stale folder or a refused target, and ends the selection; without one the next cursor stays while messages remain, and the reason is a command in doubt, or else that time ran out; each failure bears the code of its refusal. |
| ScopedActions.Selection.Retry | webmail/server/mail/scoped-actions.js:224-239 | A retry holds, per folder, exactly the retryable failed messages, each folder once, none of which was ever in a command that was sent. |
| ScopedActions.ReceiptsAddUp | webmail/server/mail/scoped-actions.js:396-416 | Receipt deltas add up to the totals exactly when in no call the replies to its batches end the session, or the selection or the store goes away, after the replies settled a message; and they never exceed them. |
| ScopedActions.LosesAReceipt | webmail/server/mail/scoped-actions.js:396-397 | A run that processes a message no receipt reports. |
| SieveLex.HitsLocal | webmail/server/admin/sieve-team.js:8-56 | Items before a seam are read the same whatever follows it. |
| SieveAnalysis.Tokenize | webmail/server/admin/sieve-team.js:8-56 | The loop reads the tokens of the item grammar with their places, brackets matched. |
| SieveAnalysis.Commands | webmail/server/admin/sieve-team.js:63-80 | The grouping loop yields the commands of the state machine and their places, or fails exactly when it does. |
| SieveAnalysis.LineStops | webmail/server/admin/sieve-team.js:81-93 | On a simple line the tokenizer stops at the line's start and at the next line's, with nothing in between but the command. |
| SieveTeam.Analyze | webmail/server/admin/sieve-team.js:94-114 | The rows are exactly the member commands in order, each with its place and line. |
| SieveEdits.Replace | webmail/server/admin/sieve-team.js:119-122 | Whatever replaces the text behind a command boundary, the commands before it stay and the rest is parsed on its own. |
| SieveAdd.AddMember | webmail/server/admin/sieve-team.js:123-136 | Never fails its own check; the address is a new member behind the last one and no other command changes; which answer is given when, and the new text, are fixed by the analysed rows. |
| SieveRemove.RemoveMember | webmail/server/admin/sieve-team.js:137-154 | Never fails its own check; every line of the address goes and no other command changes; answers and new text are fixed by the analysed rows. |
| SieveCollapse.CollapseMembers | webmail/server/admin/sieve-team.js:156-173 | Never fails its own check; the chosen members become the alias where the first of them stood and no other command changes; each refusal is given exactly in its case. |
| SieveRename.RenameMember | webmail/server/admin/sieve-team.js:176-195 | Never fails its own check; exactly the members with the old address are renamed, the text changes between the quotes of their addresses only, and each refusal is given exactly in its case. |
| SieveUndo.RowsUnique | webmail/server/admin/sieve-team.js:94-114 | The places of the members are fixed by the script and its commands. |
| SieveUndo.AddThenRemove | webmail/server/admin/sieve-team.js:123-154 | Removing an added member gives back the script byte for byte, unless the last line is not ended and the script ends in a lone CR, which is then what is lost. |
| SieveUndo.BareCrIsLost | webmail/server/admin/sieve-team.js:147-151 | A family of scripts on which it is lost. |
| SieveText.UnescapeEscape | tools/gmail2sieve/core.js:25-28 | A printed string literal reads back to its value. |
| SieveTests.TestParses | tools/gmail2sieve/core.js:188-198 | The test grammar of RFC 5228 reads every test back from its tokens. |
| GmailTree.MkHolds | tools/gmail2sieve/core.js:102-106 | Flattening keeps the truth value. |
| GmailMeaning.FmtFirm | tools/gmail2sieve/core.js:188-198 | At any indent and in either layout, the printed text has the words of the condition's test. |
| GmailMeaning.ReadsBack | tools/gmail2sieve/core.js:157-198 | The printed text, read by that grammar, is the tree that was printed. |
| GmailMeaning.PatternExact | tools/gmail2sieve/core.js:30-30 | The escaped pattern matches exactly what the value matches with only its stars special. |
| GmailMeaning.TestExact | tools/gmail2sieve/core.js:157-198 | The Sieve test accepts exactly the mails the condition accepts without blind copies. |
| GmailMeaning.Polarity | tools/gmail2sieve/core.js:157-198 | Not seeing blind copies can only narrow what a printed condition accepts. |
| GmailMeaning.Printable | tools/gmail2sieve/core.js:157-198 | Printing succeeds exactly when every recipient term is under an even number of negations and no value holds a variable reference. |
| GmailQuery.Tokenize | tools/gmail2sieve/core.js:57-100 | The index loop reads the tokens of the text grammar, and the first fault decides. |
| GmailQuery.SpellLexes | tools/gmail2sieve/core.js:57-100 | Tokens written down are read back. |
| GmailParser.Parse | tools/gmail2sieve/core.js:109-154 | The parser with its shared position reads what the grammar reads. |
| GmailShow.ParsedReadable | tools/gmail2sieve/core.js:109-154 | It builds only flat conditions with filled, cleaned values. |
| GmailShow.SaidAndRead | tools/gmail2sieve/core.js:109-154 | Every such condition, written with no needless bracket, parses to itself: "not" binds before "and", "and" before "or". |
| GmailFilter.TranslationExact | tools/gmail2sieve/core.js:230-267 | The test of a filter reads back as its tree and accepts exactly the mails that meet every attribute: from, to, subject and has hold in their own fields, hasNot does not hold, the size is over or under the number. |
| GmailFilter.TranslationSucceeds | tools/gmail2sieve/core.js:221-267 | A filter is translated exactly when all of it is understood, no value holds a variable reference, and recipients are asked for under an even number of negations only. |
| GmailFilter.TranslationNarrows | tools/gmail2sieve/core.js:230-267 | It accepts no mail that the filter, by the same attributes but seeing blind copies, would not. |
| GmailFilter.EmptyValues | tools/gmail2sieve/core.js:235-250 | A value is empty exactly when a phrase attribute holds control characters and white space only, but not white space only. |
| GmailFilter.EmptyValueHappens | tools/gmail2sieve/core.js:242-244 | Such an attribute. |
| MonitorCounts.SeenExact | webmail/server/admin/mail-monitor-collector.js:92-94 | After a pass exactly the messages are known that were logged, in it or before, and not removed from the queue since. |
| MonitorCounts.CountsExact | webmail/server/admin/mail-monitor-collector.js:91-99 | The counts are the numbers of messages not known before: by account, by client, without authentication, refused, and in total; nothing else is listed. |
| MonitorCounts.CountsAddUp | webmail/server/admin/mail-monitor-collector.js:95-99 | Every submission is counted once by its client and every authenticated one in the total; by account unless some account could not be told. |
| MonitorWindows.ReadPass | webmail/server/admin/mail-monitor-collector.js:70-108 | An attempt finishes exactly when the replies are the pages of the bucket to the end, of one archive, without a faulty or repeated row or a repeated cursor; it counted all of them from nothing. |
| MonitorWindows.MonitorCollector.ReadArchive | webmail/server/admin/mail-monitor-collector.js:46-113 | Over any sequence of runs, restarts and saved states: at most twelve ordered buckets of the last hour, each of them one finished pass. A run reads bucket after bucket from the replies in order, each with what was known after the one before, and holds what it began with and these; it is incomplete only if the archive is off, silent or behind, a bucket cannot be read, or the collection cannot be saved. |
| MonitorWindows.WindowTiled | webmail/server/admin/mail-monitor-collector.js:126-131 | A shown window has every five-minute bucket in it, each once, all complete. |
| MonitorWindows.WindowPasses | webmail/server/admin/mail-monitor-collector.js:126-138 | It is the sum of as many different finished passes, one ending on each five-minute mark. |
| MonitorWindows.SumWindow | webmail/server/admin/mail-monitor-collector.js:132-137 | The summing loop adds each bucket of the window once. |

## Left out

- CollectorHistory.ExactlyOnce: assumes that files only grow and, where a generation goes over to a copy, that equal fingerprints mean equal beginnings; what happens to a rewritten file is stated by CollectorTracking.Track and CollectorFollow.Read only.
- ArchiveQuery.SearchArchive: the deadline, a cancellation and the size of an answer are inputs, and which of several limits that are reached ends a page first is left open; so is what is taken for rows of bytes that are not the member's. The refusal of answers that are too large, and errors of the disk, are not part of this model.
- ScopedActions.Selection.Execute: a selection that is disposed of, or a store that is closed, while a batch is running is seen at the end of the call; outcomes reported between the two are recorded in the model and dropped by the program.
- Each range read and each index read happens at one moment, and a collected file has one content while it is read in a cycle, and one more when the read is checked. A file that changes between two chunks of one read is not part of this model.
- The catalog's list of hours is a map by source and hour; its order is the order of the keys.
- JSON files are replaced at one stroke, links and renames too; fsync, directory syncs, permissions and the socket lock are not part of this model.
- Projection of log lines, time parsing and case folding are arbitrary functions; the search result keeps the raw line instead of its projection.
- Cursors are positions and receipts are stored under numbers: signatures, expiry of cursors, session tokens and memory limits are not part of this model.
- Issue generations carry no offsets and are left as they are; the discovery of source files is an input, and files are read in an arbitrary order.
- Status reports, lag, and the times at which gaps were observed.
- IMAP is an adversary with one answer per step; the mail client is taken never to raise the program's own STALE_SCOPE and INVALID errors.
- The preparation of a selection from a search, its fences and preflight checks, and the paging of failures; only the retry that starts from failed messages is modelled.
- The one-folder action `run` of actions.js, which reports no outcomes, and HTTP routes.
- Error messages, and the reasons an analysis gives for a script that cannot be read.
- Facts, warnings, labels and forwarding in the Gmail converter, and reading its XML; only conditions are modelled.
- Characters are Unicode characters; lengths in UTF-16 units matter only to the line-width rule of `fmt`, whose two layouts read the same.
- `toolkit/app/sieve_dist.py`, which is the same algorithm as sieve-team.js.
- Relay networks, the mail queue and thresholds of the monitor; log rows are events already read, and limits on time, pages, rows, bytes and keys end a run like a reply that does not do.
