# JIAJIA: coherence, transport and search, verified

JIAJIA is a software distributed shared memory: pages live at a home host, other hosts cache them,
write them against a twin, and send the differences home when they synchronise; locks and barriers
carry write notices that tell which cached copies are stale. This project models the protocol, the
data structures it updates in place and the transport it runs on, and, separately, the
branch-and-bound search of the TSP application, and proves what each of them is for.

`dafny verify dfyconfig.toml` checks everything.

## How the files fit together

| layer | files | form |
|---|---|---|
| data | `Seqs`, `Pages`, `PageDiff`, `DiffInterleaving`, `DiffBatch` | arrays of words written in place; a class for the batching of diffs, with homes and network acting at any time |
| write notices | `Notices`, `WriteNotices`, `NoticeLog`, `NoticeStream`, `NoticeRefinement`, `LockManager` | linked nodes updated in place, refined by a list, refined by the protocol's map; the manager of a lock or of the barrier as a class |
| protocol | `Protocol`, `ProtocolInv`, `ProtocolHosts`, `ProtocolLocks`, `ProtocolBarrier`, `ProtocolCoherence`, `ProtocolUnits`, `ProtocolReports`, `ProtocolReleases`, `ProtocolSteps`, `ProtocolMigration`, `ProtocolRuns`, `ProtocolTheorems`, `ProtocolLedger`, `ProtocolProgress`, `ProtocolLosses`, `ProtocolLostNotice`, `ProtocolScope`, `ProtocolScopeSteps`, `ProtocolScopeSync`, `ProtocolScopeBarrier`, `ProtocolScopeTheorems` | one state machine of all hosts, managers and messages in flight, whose runs include home migrations; an inductive invariant; the theorems; a ledger of what was written and sent out, kept from the steps alone; that the protocol always comes to an end; a second invariant for scope consistency |
| tables of the hosts | `HostTables`, `Migration`, `MigrationRuns`, `MigrationRefinement`, `Allocation` | `cache[]`, `home[]` and `page[]` as arrays of a class, one object a host; runs of all hosts over any number of barriers |
| transport | `StopAndWait`, `RingMask`, `MsgQueue` | a state machine over an unreliable network; a class whose methods are the atomic steps of its threads |
| trees | `Broadcast`, `Reduction` | messages handled in any order |
| search | `TspTours`, `TspSearch`, `TspBound` | recursion over arrays with undo |

The layers meet in these places. `Pages.Merge` is what the protocol does to a home page when a diff
arrives, and `PageDiff.DiffMerges` proves that the bytes do the same. `Protocol.Record` and
`Protocol.GrantNotices` are maps; `NoticeRefinement` proves that the compacted lists of
`Notices.Saved` mean those maps, `WriteNotices.SaveWtnt` that the linked nodes hold those lists, and `LockManager` that the
server's handlers, on arrays and nodes, do to queue, scope and notices what the protocol's steps do, message
by message: `LockManager.StreamIsReport` proves that `NoticeStream.SendWtnts` splits a report as the
protocol's releases are split.
Migration appears twice: `MigrationRuns` moves the homes in the tables of all hosts, `Protocol.Migrated`
moves them in the state machine, where the data is, and `MigrationRefinement.HomesRefine` proves that
both move the same pages to the same hosts.
`StopAndWait.PrefixDelivery` and `MsgQueue.Run` give the order in which the protocol's lock channel
keeps the messages of one host; everything else in the protocol is proved for any delivery order.

## Where the code and what it is for differ

- `src/syn/syn.c:393`: the guard reserves 8 bytes an entry, and 16 are appended. `NoticeStream` sends
  with the guard of `src/syn/syn.c:485`. `GrantAsWritten` follows the sizes under the guard as written,
  for any list and any acquirer: the assertion of `appendmsg` fails if and only if some node slips
  through the guard, which depends on the counts of the nodes before it alone. `LockGuardExact` gives
  the list lengths for which that happens when every entry is sent (2558 is the least).
- `src/syn/syn.c:592` reads `mig` at the offset of the address; the model reads it where
  `src/syn/syn.c:657` put it.
- `src/syn/synserver.c:323` compares the scope of a lock with that of the barrier. The model takes the
  comparison that is meant: the release comes from a host that is past a barrier whose grant the
  manager has not handled.
- `src/syn/synserver.c:432-440`: a release of more than 3410 pages arrives as WTNT messages and a REL. Only
  the REL is looked at for a sender that is past a barrier whose grant the manager has not handled
  (`src/syn/synserver.c:323-324`), so if the manager handles that grant in between, it clears what the WTNT
  told it (`src/syn/synserver.c:407-408`, `src/syn/syn.c:263-269`), although that belongs to the epoch that
  begins. `ProtocolLosses.LostIff` says exactly what a run loses: what a manager holds of a release that is
  ahead of it, at the moments when it handles a barrier grant before the REL. Nothing is lost in a run without
  such a moment (`NothingLost`), nor when every report fits one message (`OneMessageLosesNothing`), nor with
  at most 3410 shared pages (`FewPagesLoseNothing`). With one page more there is a run in which a host goes on
  reading a stale copy in a section of the lock: `ProtocolLostNotice.LockNoticeLost`. The theorems on locks,
  `LockCoherence` and `ScopeConsistency`, are therefore stated for what was not lost, and
  `ScopeConsistencyOfFewPages` without that.
- `src/udp/udp_listen.c:66` acknowledges a packet before `src/udp/udp_listen.c:83` enqueues it, and `enqueue`
  may have to wait. So an accepted acknowledgement means that the message is delivered or is the one in the
  listener's hands (`StopAndWait.AckMeansReceived`), and delivered exactly if it is not
  (`AckMeansDeliveredIff`); `AckBeforeDelivery` is a run in which it is not yet.
- `src/mem/memsyn.c:507` enqueues `slot`, which is not set on that path; the model sends the pending
  message of the home.
- `src/mem/memsyn.c:235-236` gives up when the proposed slot is dirty, although another may be
  read-only, and `src/mem/memsyn.c:353` does not look at the result. `HostTables.PickPriority` says
  exactly when that happens; `FaultNew` requires that it does not.
- `src/mem/memserver.c:350-368`: a prefetch looks for a slot while a fault may wait for its page in a slot
  that still counts as UNMAP. `HostTables.PrefetchSafeIff` says exactly when the prefetch leaves that slot
  alone, `PicksSlot` when it does not, and `PrefetchClash` what is wrong then.
- `src/syn/mig.c:129-130` fails when a page moves here and no home slot is free. `MigrationRuns.Barrier`
  goes through exactly if every host finds one whenever it needs one.
- `src/syn/mig.c:107` leaves the number of home pages one short when `home[]` is full;
  `Migration.MigArrangeHome` states both cases.
- `src/syn/mig.c:72-73` looks at `cache[Cachepages]` when a page is not cached; the model takes such a
  page as not held.
- `src/comm/comm.c:194` and `src/comm/comm.c:222` mask the ring index. `RingMask.MaskWrapsIff`: that
  walks round the ring exactly when the size is a power of two. The size comes from the settings.
- `src/udp/udp_client.c:43-66`: sequence numbers are 32 bits wide. `StopAndWait` proves delivery for any
  number of messages if the network keeps no packet for a whole cycle, for fewer than 2^32 messages
  without that, and gives a run with 2^32 messages that breaks it.
- `apps/tsp/src/solve.c:142-150`: the branch that completes a tour does not look whether the two last
  edges exist. `TspBound.CompletedIsCycle` says exactly when it records a cycle. It also writes
  `prefix[TspSize]`, so the model asks for fewer than 32 nodes there.

## Model

| member | source | states |
|---|---|---|
| Pages.MergeRestores | src/mem/memserver.c:136-162 | applying a diff to the twin it was taken against gives back the dirty page |
| Pages.DisjointMergesCommute | src/mem/memserver.c:116-170 | diffs that change disjoint units may reach the home in either order |
| Pages.MergeIdempotent | src/mem/memserver.c:136-162 | a diff applied twice has the effect of one |
| PageDiff.DiffMerges | src/mem/memsyn.c:402-460 | the runs of (page, twin) applied to any base page give the changed units over the base; applied to the twin they give the page |
| PageDiff.AppliedWord | src/mem/memserver.c:136-162 | word by word, what applying a page's runs does to a whole memory: changed units of that page, nothing else |
| PageDiff.DisjointDiffsCommute | src/mem/memserver.c:116-170 | the same commutation for encoded diffs |
| PageDiff.HeaderFields | src/mem/memsyn.c:441-446 | offset and length of a run survive packing into one word |
| PageDiff.EncodedSize | src/mem/memsyn.c:402-460 | one page's encoding never exceeds 4112 bytes, and a page changed throughout takes exactly that |
| PageDiff.EncodeDiff | src/mem/memsyn.c:402-460 | the buffer holds exactly the address, the size and the runs of the page against its twin |
| PageDiff.EncodeBody | src/mem/memsyn.c:418-450 | the scanning loop writes every maximal run of changed units, in order, and nothing else |
| PageDiff.Scan | src/mem/memsyn.c:420-440 | the inner loops stop at the first unit that differs, or agrees |
| PageDiff.ApplyRuns | src/mem/memserver.c:139-163 | the inner loop, over any well-formed run list, copies each run to its place in the page |
| PageDiff.DiffServer | src/mem/memserver.c:116-170 | parsing a message of any number of diffs leaves the home memory as applying exactly those diffs in order |
| DiffBatch.IntervalMerges | src/mem/memsyn.c:482-515 | after an interval ends, a word of a dirty page at its home is the writer's if the writer changed it and the home's own otherwise |
| DiffBatch.IntervalKeeps | src/mem/memsyn.c:482-515 | and every word outside the dirty pages is unchanged |
| DiffInterleaving.MixedWord | src/mem/memserver.c:116-170 | however the diffs of two sides are interleaved at a home, a word that only one side carries ends as that side's diffs alone would leave it |
| DiffInterleaving.TouchesIff | src/mem/memsyn.c:402-460 | the diff of a page carries exactly the words in which the page differs from its twin |
| DiffBatch.SharedWord | src/mem/memserver.c:116-170 | at the end of an interval in which the home also applied other writers' diffs, a word they do not carry is what this writer's diffs make of it, and a word this writer did not change is what theirs make of it |
| DiffBatch.ChangedWord | src/mem/memsyn.c:482-515 | in particular a word that this writer changed and no other did has this writer's value |
| DiffBatch.CarriedIff | src/mem/memsyn.c:482-515 | the writer's diffs for a home carry a word exactly if it changed the word in a dirty page there |
| DiffBatch.AppliedAllAppend | src/mem/memserver.c:116-170 | applying two batches of diffs is applying their concatenation |
| DiffBatch.SendKeeps | src/mem/memsyn.c:521-537 | moving the pending message into the channel keeps the order and the contents of all diffs saved |
| DiffBatch.ServeKeeps | src/mem/memserver.c:99-185 | a home that handles the oldest message applies exactly the oldest diffs in flight |
| DiffBatch.SaveKeeps | src/mem/memsyn.c:512-514 | a diff that fits joins the pending message behind the others |
| DiffBatch.Writer.MakeRoom | src/mem/memsyn.c:491-509 | a message is sent exactly if the diff would push it over the limit; then the pending one is empty, and otherwise it is as it was; no message exceeds the limit |
| DiffBatch.Writer.SaveDiff | src/mem/memsyn.c:482-515 | the diff of the page is the next one saved for its home and no other home's diffs change; a diff that fits joins the pending message and nothing leaves, and one that does not starts the next message after every grant is in |
| DiffBatch.Writer.SendDiffs | src/mem/memsyn.c:521-537 | every pending message that has words leaves as it stands, an empty one does not, and nothing saved is lost |
| DiffBatch.Writer.ServeDiff | src/mem/memserver.c:99-185 | handling a message at the home keeps the account of saved diffs and answers with one grant |
| DiffBatch.Writer.ServeOther | src/mem/memserver.c:99-185 | a home that handles another writer's message changes its memory by those diffs and nothing in this writer's account |
| DiffBatch.Writer.DiffGrantServer | src/mem/memserver.c:192-197 | one grant, one less unacknowledged |
| DiffBatch.Writer.AwaitGrants | src/syn/syn.c:171-172 | the busy wait ends, whatever order homes and network move in and whichever messages of other writers are handled, and then nothing of this writer is in flight |
| DiffBatch.Writer.EndInterval | src/syn/syn.c:134-143 | when it returns, each home's memory is what applying some interleaving of two sequences makes of it: its dirty pages' diffs, in cache order and all of them, and the first of the diffs that other writers had on their way |
| Notices.Saved | src/syn/syn.c:532-579 | a new page goes last as reported; a page already there keeps place and address, takes the new scope and tag and loses its writer; pages stay distinct |
| Notices.SavedAllMentions | src/syn/syn.c:586-593 | a sequence of reports keeps pages distinct and adds exactly the pages that it mentions |
| WriteNotices.SaveWtnt | src/syn/syn.c:532-579 | the linked nodes, updated in place, hold the list that Saved gives; every node but the last stays full |
| WriteNotices.Find | src/syn/syn.c:544-555 | finds the node and the place of the page, or null when no node has it |
| WriteNotices.LastFree | src/syn/syn.c:563-568 | the walk over full nodes ends at the last one |
| WriteNotices.Append | src/syn/syn.c:562-573 | a new page goes behind all others, into a new node if the last is full |
| WriteNotices.Overwrite | src/syn/syn.c:574-578 | a page reported again keeps its place and address and loses its writer |
| WriteNotices.FreeWtntSpace | src/tools/tools.c:165-176 | only the first node stays, and it is empty |
| WriteNotices.PopStack | src/syn/syn.c:317-335 | the closed level's notices are saved at the enclosing level, in order, and the closed level is empty |
| WriteNotices.AppendFlat | src/syn/syn.c:562-573 | appending to the node chain is appending to the list |
| WriteNotices.IndexOfFlat | src/syn/syn.c:544-555 | the first match found node by node is the first match of the list |
| NoticeLog.EntryRemembers | src/syn/syn.c:532-579 | an entry holds the first address, the last scope and tag, and the writer only if there was one report |
| NoticeLog.WriterNamed | src/syn/syn.c:557-578 | an entry names a host exactly when that host made the page's only report, and nobody exactly when there were several |
| NoticeLog.AnswersLikeTheLog | src/syn/syn.c:383-409 | "was the page reported after this scope" has the same answer in the compacted list as in the full history |
| NoticeLog.LockStepInv | src/syn/synserver.c:289-356 | grants, releases and clearing keep list and history in step |
| NoticeLog.GrantsRefineTheLog | src/syn/syn.c:383-409 | in every run, a grant carries exactly the pages, homed elsewhere, that were reported after the acquirer's last grant, and never names the acquirer as writer |
| NoticeRefinement.ReportsRecorded | src/syn/syn.c:586-593 | recording a report on the list is the protocol's recording on maps |
| NoticeRefinement.GrantMeaning | src/syn/syn.c:383-409 | selecting from the list for an acquirer is the protocol's selection on maps |
| NoticeStream.AppendWtnts | src/syn/syn.c:477-497 | appends the selected entries of as many whole nodes as fit and no fewer, at least one to an empty message, and stays within the limit |
| NoticeStream.SendWtnts | src/syn/syn.c:602-636 | a list of any length leaves in finitely many messages within the limit that carry all its entries in order; each message of a report but the last carries exactly 3066 of them, and the last at most 3410 |
| NoticeStream.RecordWtnts | src/syn/syn.c:586-593 | parsing one report message saves exactly its entries, in order |
| NoticeStream.RecordStream | src/syn/synserver.c:432-440 | a whole stream of reports leaves the manager's list as saving the sender's entries one by one |
| NoticeStream.ParseGrant | src/syn/synserver.c:202-214 | parsing one grant message gives its entries, field by field |
| NoticeStream.ParseStream | src/syn/synserver.c:190-214 | reading a whole grant stream gives exactly the entries selected for the acquirer, in list order, and of a barrier grant every entry of the list; each message by itself is the lock's name followed by its share of them |
| NoticeStream.StreamCarries | src/syn/syn.c:383-497 | the words of a grant's messages, three to an entry, read message by message, are address, writer and tag of exactly the entries meant for the acquirer |
| NoticeStream.EncodeAt | src/syn/syn.c:399-401 | where an entry lies in the payload, and that it is not mixed with others |
| NoticeStream.OutgrowsIff | src/syn/syn.c:388-406 | for any counts and any selection, a message outgrows its data area exactly if some node passes the guard and does not fit |
| NoticeStream.GrantAsWritten | src/syn/syn.c:346-409 | granting with the guard as written goes through exactly if no node of the list slips through |
| NoticeStream.LockGuardExact | src/syn/syn.c:393-401 | a list of which every entry is sent has such a node exactly for lengths of 3 or 4 above a positive multiple of 2555 |
| LockManager.Manager.AcqServer | src/syn/synserver.c:289-304 | the host joins the end of the queue, and exactly if nobody was before it is sent messages whose words say the entries that it has not seen and does not home |
| LockManager.Manager.Shift | src/syn/synserver.c:329-334 | moving the waiting hosts up in the arrays removes the head of the queue and nothing else |
| LockManager.Manager.WtntServer | src/syn/synserver.c:432-440 | a message of a report that is not its last has its entries saved at the present scope, and does nothing else |
| LockManager.Manager.RelServer | src/syn/synserver.c:313-339 | the notices are marked to survive the barrier exactly if the REL is from beyond it; its entries are recorded at the scope of the grant, the scope advances, the holder leaves, and the next host is sent messages whose words say the updated list for it |
| LockManager.Manager.BarrServer | src/syn/synserver.c:366-394 | the entries of the BARR are recorded; exactly the last arrival has messages granted whose words say address, writer and tag of every entry of the complete list, in order, the scope advanced and the list emptied |
| LockManager.Manager.Clear | src/syn/syn.c:263-269 | the notices are gone and the queue stays |
| LockManager.BarrierCarries | src/syn/syn.c:420-497 | a barrier grant leaves out no entry of the list |
| LockManager.StreamMeaning | src/syn/syn.c:383-409 | the entries of a grant stream mean exactly the protocol's grant |
| LockManager.BarrierMeaning | src/syn/syn.c:420-449 | the words of a barrier grant, read message by message, mean exactly the notices that the protocol sends when the last report is recorded |
| LockManager.StreamIsReport | src/syn/syn.c:602-636 | the messages of a report name no page twice, name together exactly its pages, and are cut where the protocol's releases are |
| LockManager.WtntRefines | src/syn/synserver.c:432-440 | what a WTNT leaves is what the protocol's step for it leaves |
| LockManager.ReleaseRefines | src/syn/synserver.c:313-339 | queue, scope and notices after a REL are those of the protocol's step |
| LockManager.BarrierRefines | src/syn/synserver.c:366-394 | a barrier report on the list is the protocol's recording |
| ProtocolTheorems.BarrierCoherence | src/syn/synserver.c:190-269 | after a host has handled BARRGRANT, each copy it still holds equals the home copy as it stood when the last host arrived |
| ProtocolTheorems.SnapshotIsHomeAtLastArrival | src/syn/synserver.c:366-394 | that snapshot is the home memory at the step that completed the last barrier of the run |
| ProtocolTheorems.SoleWriterIsCurrent | src/syn/mig.c:118-165 | a host that alone reported a page and holds it keeps it, and its data is the home's of the last arrival, after any number of earlier migrations |
| ProtocolTheorems.MigrationCoherence | src/syn/mig.c:118-197 | when the homes move at a completed barrier, in any run, the invariant holds with the new homes, the new home's data is the old one's, a copy that the old home keeps equals it, and no other page changes |
| ProtocolTheorems.MigrationInvalidates | src/syn/synserver.c:202-268 | a cached copy goes at a migrating barrier exactly if another host reported its page, and one that stays is as it was |
| ProtocolTheorems.BarrierMerges | src/syn/syn.c:129-174 | at a barrier, a unit one host wrote has that host's last value, and a unit nobody wrote is unchanged |
| ProtocolTheorems.BarrierSafety | src/syn/synserver.c:366-421 | no host leaves barrier k before all have arrived at it, and completed counts differ by at most one |
| ProtocolTheorems.WritersClassified | src/syn/syn.c:557-578 | a granted entry names a host exactly when it alone reported the page, and Maxhosts exactly when several did |
| ProtocolTheorems.UnlockReports | src/syn/synuser.c:137-145 | an unlock reports exactly the pages that its section counts as dirtied, nested sections included, in one message exactly if they are at most 3410, and passes them to the enclosing level |
| ProtocolTheorems.BarrierReports | src/syn/synuser.c:184-193 | a barrier reports exactly the pages counted as dirtied since the barrier before, in any nesting |
| ProtocolLedger.UnlockNames | src/syn/syn.c:129-174 | in every reachable state an unlock names a page exactly if in that section, by the ledger of the run, the host began to write a cached copy of it, or homes it, wrote it and the page was out to another host when the interval ended; so a page never sent out is in no report of its home |
| ProtocolLedger.BarrierNames | src/syn/synuser.c:184-193 | the same of the report of a barrier |
| ProtocolLedger.EveryRunRecounted | src/syn/synuser.c:68-203 | every run has such a ledger, entered step by step from what the steps do |
| ProtocolLedger.RecountedHonest | src/mem/memserver.c:204-240 | after any number of steps the ledger accounts for what every host counts as dirtied, at every level of its lock stack, and for the flags of every home page |
| ProtocolLedger.StepBooked | src/syn/syn.c:129-195 | every single step keeps that |
| ProtocolLedger.RehomedBooked | src/syn/mig.c:118-197 | and so does moving the homes |
| ProtocolTheorems.LockSafety | src/syn/synserver.c:289-356 | the one host that holds a lock, or has its grant or release in flight, is the head of the manager's queue, and there is one whenever the queue is not empty |
| ProtocolTheorems.LockFairness | src/syn/synserver.c:289-340 | the queue never exceeds the host count and grants follow the arrival order |
| ProtocolTheorems.LockCoherence | src/syn/synserver.c:346-356 | when a grant has been handled, every page reported in an unseen release of this barrier epoch, or in a message of one, is invalid here unless the manager lost that message, and the diffs of that release are at the homes |
| ProtocolTheorems.GrantInvalidates | src/syn/syn.c:383-409 | a copy goes at a grant exactly if a release that the grant was cut from and this host had not seen names its page, and of this epoch those are exactly the ones not lost |
| ProtocolScopeTheorems.ScopeConsistency | src/syn/synuser.c:68-145 | a unit that since the last barrier was written only inside sections of one lock: inside such a section any host reads the last value that any host wrote, in its copy, at the home or in a page just fetched, unless the manager lost a release of this epoch that named the page |
| ProtocolScopeTheorems.GrantBringsValue | src/syn/synserver.c:346-356 | when a grant of that lock is handled the home has that value, and so has the acquirer's copy if it stays |
| ProtocolScopeTheorems.ScopeConsistencyOfFewPages | src/syn/synuser.c:68-145 | with at most 3410 shared pages the same holds in every run with no further condition |
| ProtocolScopeTheorems.ValueIsLatest | src/mem/memsyn.c:347-377 | the value meant is that of the last write by any host since the last barrier completed, or the home's at that barrier, and the unit is guarded as long as each write was made with the lock held |
| ProtocolScopeTheorems.RunConsistent | src/syn/synuser.c:68-203 | the account of where the last value is holds after every run, migrations included |
| ProtocolScopeTheorems.StepScope | src/syn/synserver.c:190-421 | every step keeps it |
| ProtocolScopeSync.GrantPays | src/syn/syn.c:383-409 | whatever the acquirer was owed notice of, the grant invalidates |
| ProtocolScopeSteps.HomeValue | src/mem/memserver.c:99-185 | a home that does not have the last value belongs to a page that the holder of the lock will report |
| ProtocolScopeBarrier.MigrateScope | src/syn/mig.c:118-197 | moving the homes keeps the account for the new home map |
| ProtocolLosses.TornIsUnderWay | src/syn/synserver.c:313-356 | an early part that clearing would lose belongs to the release of the head of the queue, which is one barrier ahead of the manager and whose REL is still to come |
| ProtocolLosses.LostIff | src/syn/synserver.c:401-421 | a run has lost exactly the early parts that managers held when they cleared their notices |
| ProtocolLosses.NothingLost | src/syn/synserver.c:401-421 | a run in which no manager handles a barrier grant between a first WTNT and the REL of a release ahead of it loses nothing |
| ProtocolLosses.OneMessageLosesNothing | src/syn/syn.c:602-636 | a run in which every report fits one message loses nothing |
| ProtocolLosses.FewPagesLoseNothing | src/syn/syn.c:602-636 | with at most 3410 shared pages no run loses anything |
| ProtocolLosses.KeptOnlyForRelease | src/syn/synserver.c:313-339 | a manager resolves to keep its notices over the next barrier only if a release of one of its locks has come from beyond that barrier |
| ProtocolLostNotice.LockNoticeLost | src/syn/synserver.c:401-440 | with more pages, from any start, a run in which a host keeps a stale copy of a page that an unseen release of its own epoch reported, although its words were written in sections of the lock only |
| ProtocolReports.OneMessageIff | src/syn/syn.c:602-636 | a report is one message exactly if it names at most 3410 pages |
| ProtocolReports.ReportExists | src/syn/syn.c:602-636 | every list of pages can be sent |
| ProtocolReports.SplitReportsSame | src/syn/synserver.c:366-394 | however the hosts' barrier reports are split and interleaved, the notices are those of every report arriving whole |
| ProtocolTheorems.InvalidationLosesNothing | src/syn/synserver.c:243-257 | a host that handles a grant has no diff under way and no change unlisted, and each unit of its copies that only it wrote in the interval is the home's |
| ProtocolTheorems.MessagesAccepted | src/mem/memserver.c:99-330 | no handler meets a message it would reject |
| ProtocolTheorems.LockMessagesAccepted | src/syn/synserver.c:289-356 | in particular a release always comes from the head of the queue |
| ProtocolTheorems.SlotsSuffice | src/mem/memsyn.c:115-145 | no step sends into a slot of the network that is still occupied |
| ProtocolProgress.Settles | src/syn/synuser.c:68-203 | from every state of every run, if the applications do nothing more the protocol comes to an end after finitely many steps of its own; no message is then in flight, and each host runs, or waits for a lock that another host holds, or at a barrier that another host has not come to |
| ProtocolProgress.DoneIff | src/syn/synserver.c:190-421 | in a reachable state the protocol has nothing to do exactly if every host is in one of these situations with no message in flight |
| ProtocolProgress.StepNearer | src/mem/memserver.c:99-330 | every step of the protocol's own gets one host on and sets no host back, whatever the order |
| ProtocolProgress.OnlyNestedLocksBlock | src/syn/synuser.c:68-145 | if nothing can go on and no host runs, every host that holds a lock waits for one that another holds, and there are such hosts: without nested sections that cannot happen, whatever barriers are used |
| ProtocolProgress.WriteGoesThrough | src/mem/memsyn.c:347-377 | a host that runs can write any unit of any page after at most a fault, the GETP and its answer |
| ProtocolProgress.ReachableTodo | src/syn/syn.c:134-172 | endinterval only ever has pages to look at that exist |
| ProtocolRuns.RunInv | src/syn/synuser.c:68-203 | the whole invariant holds after every run, migrations included |
| ProtocolSteps.StepInv | src/syn/synserver.c:190-421 | every single step keeps it |
| ProtocolMigration.MovedCopyIsHome | src/syn/mig.c:118-165 | when all hosts are past a barrier and nothing has happened since, the copy of a page's only reporter is the page at its home |
| ProtocolMigration.MigrateInv | src/syn/mig.c:118-197 | and moving the homes keeps the invariant |
| ProtocolHosts.EndPageGood | src/syn/syn.c:134-172 | flushing one page keeps the host's account of diffs, notices and scopes |
| ProtocolReleases.ServeWtntReleases | src/syn/synserver.c:432-440 | recording a part of a release keeps every manager's account of releases, and every grant in flight complete |
| ProtocolReleases.TakeBarrGrantReleases | src/syn/synserver.c:401-421 | so does the end of an epoch, whatever it loses |
| ProtocolLocks.ServeRelLocks | src/syn/synserver.c:313-339 | handling a release keeps queue, order and status of every lock |
| ProtocolBarrier.RecordAllClassified | src/syn/syn.c:557-578 | recording one more host's report keeps every entry classified by its reporters |
| HostTables.PickPriority | src/mem/memsyn.c:193-250 | from any start UNMAP is preferred to INV to RO, a dirty page is never evicted, and the choice fails exactly when nothing is UNMAP or INV and the proposed slot is dirty |
| HostTables.Tables.constructor | src/mem/mem.c:87-105 | the initial tables agree |
| HostTables.Tables.FlushPage | src/mem/memsyn.c:94-107 | the page loses its slot, the slot is free, nothing else changes |
| HostTables.Tables.Scan | src/mem/memsyn.c:200-212 | one pass finds the first UNMAP slot and the first INV slot from the start, going round |
| HostTables.Tables.FindPosition | src/mem/memsyn.c:193-250 | the chosen slot belongs to the new page and to no other, and all other slots and indexes are unchanged |
| HostTables.FilledOk | src/mem/memsyn.c:362-377 | filling the reserved slot completes the agreement and moves no dirty page |
| HostTables.Tables.FaultCached | src/mem/memsyn.c:347-377 | a fault on a page with a slot leaves it readable or dirty as asked, fetches it exactly if it was invalid, and marks it as written exactly if the fault is a write or it was marked before; nothing else changes |
| HostTables.Tables.FaultReserve | src/mem/memsyn.c:352-361 | while the page is fetched the tables agree but for it, and its slot is known |
| HostTables.Tables.FaultFill | src/mem/memsyn.c:362-377 | when it has arrived they agree again and dirty pages stay |
| HostTables.Tables.FaultNew | src/mem/memsyn.c:352-377 | a fault on a page without a slot fetches it into the chosen one; indexes agree and dirty pages stay |
| HostTables.FaultedKeeps | src/mem/memsyn.c:347-377 | after a fault the access goes through, dirty pages stay where they were and every page keeps its home |
| HostTables.Tables.Prefetch | src/mem/memserver.c:350-368 | a page that comes unasked gets a slot of its own and is readable; no dirty page is evicted |
| HostTables.PrefetchSafeIff | src/mem/memserver.c:350-368 | a prefetch during a fault leaves the waiting slot alone exactly if it chooses another one |
| HostTables.PicksSlot | src/mem/memsyn.c:200-217 | it chooses that slot exactly if no UNMAP slot lies between the proposed one and it |
| HostTables.PrefetchClash | src/mem/memserver.c:350-368 | when it does, marking the slot for the waiting fault leaves two pages claiming one slot |
| HostTables.Tables.StartInterval | src/syn/syn.c:187-195 | the written copies become read-only and unmarked, no other slot changes |
| Migration.MigCheckCache | src/syn/mig.c:62-79 | an entry is tagged exactly when its page is held here |
| Migration.NewHome | src/syn/mig.c:126-153 | the page takes the first empty home slot, with the mark of its copy and as sent out, leaves the cache, no other slot changes, and the tables agree |
| Migration.OldHome | src/syn/mig.c:161-188 | the page leaves home[]; it is cached afterwards exactly if some slot was UNMAP or INV, in the first such slot, read-only and with the mark of its home slot; no other slot changes, and the tables agree |
| Migration.MigPage | src/syn/mig.c:118-197 | afterwards the page's home is the writer on every host, its slots are those of the old or the new home as above, and no other page is touched |
| Migration.Invalidate | src/syn/synserver.c:243-257 | the slot of the page becomes invalid and unmarked, and no other slot changes |
| Migration.HandleNotice | src/syn/synserver.c:202-268 | one entry: the tables become exactly what the tables before it determine: a stale copy goes, and the home moves, with the slots it takes and leaves, exactly if one host wrote and still holds the page |
| Migration.KeptIff | src/syn/mig.c:161-188 | when an entry moves a page away from this host, the host keeps a copy exactly if a cache slot is UNMAP or INV at that entry's turn |
| Migration.HeldIsReadable | src/mem/memsyn.c:347-377 | a page of another host is held exactly if it can be read without a fault, and dirty exactly if it can be written |
| Migration.HandleGrant | src/syn/synserver.c:190-269 | a whole grant, whenever each page that moves here finds a home slot free at its turn: the tables are the result of its entries one after another, each on the tables as they are at its turn; they agree, no copy that the grant calls stale can be read, and the home of every page depends only on the grant and its home before |
| Migration.FitsIff | src/syn/mig.c:118-197 | a grant goes through, entry by entry, exactly if counting free home slots from entry to entry never goes below none: all else it needs is there |
| MigrationRuns.GrantIsReady | src/syn/mig.c:62-79 | the list that the manager compacts from the tagged reports, whatever the arrival order, names each page once and moves a page only to a host that holds it |
| MigrationRuns.OneHomePerPage | src/syn/mig.c:118-197 | when hosts agree, exactly the home of a page has it in home[], in one slot |
| MigrationRuns.HandleEverywhere | src/syn/synserver.c:190-269 | all hosts handle one grant: from agreement on the homes to agreement on the new ones, each host's slots being those that the entries make one after another |
| MigrationRuns.ScanMissesNone | src/syn/mig.c:81-109 | in agreement, the scan over the first homesize slots meets every page homed here, except exactly the last slot of a full home[] that was rearranged |
| MigrationRuns.Gather | src/syn/synuser.c:184-193 | the grant is the compaction, in arrival order, of the reports with every entry tagged exactly if its page is held; ok tells exactly whether on every host each entry finds what it needs at its turn |
| MigrationRuns.Barrier | src/syn/synserver.c:401-413 | tagging, report, that grant, moves and rearrangement take agreement to agreement for exactly the homes the grant gives, leaving on every host the copies and slots that its entries leave one after another, and go through exactly if on every host each entry finds what it needs at its turn |
| MigrationRuns.Run | src/syn/synserver.c:190-269 | through any sequence of faults, invalidations, interval starts and migrating barriers, each event takes the tables and homes to what it says, and the run stops early only at a barrier for which a home slot is missing |
| MigrationRuns.AgreeThroughout | src/syn/mig.c:118-197 | so the hosts agree on one home per page after every event |
| MigrationRefinement.HomesRefine | src/syn/mig.c:118-197 | the home that the tables give a page after a grant is the one that the protocol's migration gives it |
| Migration.OccupiedMoved | src/syn/mig.c:86-93 | moving an entry down over empty slots keeps the entries and their order |
| Migration.MigArrangeHome | src/syn/mig.c:81-109 | the entries fill a dense prefix in their old order, indexes follow, and homesize is their number unless home[] is full |
| Allocation.AllocBlock | src/mem/memuser.c:66-101 | a block's pages get their home on every host, and on that host the next slots of home[] |
| Allocation.Alloc3 | src/mem/memuser.c:41-108 | the home map is the round robin of the blocks, the same on every host; home[] is a dense prefix of length homesize; the assertion on home pages fails exactly if this host's own blocks do not fit |
| Allocation.RoundRobinAt | src/mem/memuser.c:41-108 | the k-th page is in block k / b, and that block belongs to the host that many turns after the first, modulo the host count |
| Allocation.RoundRobinCovers | src/mem/memuser.c:41-108 | the blocks cover the size asked for and exceed it by less than a block |
| StopAndWait.PrefixDelivery | src/udp/udp_listen.c:55-98 | over loss, duplication and reordering, what is delivered is always a prefix of what was sent |
| StopAndWait.AckMeansReceived | src/udp/udp_listen.c:54-84 | while no send has exhausted its retries, an accepted ack means everything sent is delivered but for the message the listener is about to enqueue, and the two sides differ by at most one either way |
| StopAndWait.AckMeansDeliveredIff | src/udp/udp_client.c:125-152 | an accepted ack means delivery exactly if the listener does not hold the message then |
| StopAndWait.AckBeforeDelivery | src/udp/udp_listen.c:66-83 | a run in which an ack is accepted whose message is not delivered yet |
| StopAndWait.FewMessages | src/udp/udp_client.c:42-66 | with fewer than 2^32 messages prefix delivery needs no assumption about the network |
| StopAndWait.WrapBreaksDelivery | src/udp/udp_listen.c:76-83 | with 2^32 messages a late copy of the first packet is accepted: delivery is no prefix |
| StopAndWait.GiveUpBreaksAck | src/udp/udp_client.c:46-66 | after a message is given up, an ack can be accepted for one that is dropped |
| StopAndWait.LeavesSender | src/udp/udp_client.c:46-66 | a message leaves the sender either by a matching ack, accepted after exactly one transmission more than timeouts, or, given up, by the timeout that completes RETRYNUM of them after as many transmissions |
| StopAndWait.TriesAgain | src/udp/udp_client.c:46-66 | after fewer timeouts than RETRYNUM the sender transmits the same message again |
| StopAndWait.GivesUpOnlyAfterRetries | src/udp/udp_client.c:35-69 | a run that has given up has transmitted some message RETRYNUM times and timed out as often, all between taking it and giving it up |
| StopAndWait.StillDelivers | src/udp/udp_client.c:77-152 | from any state of any run in which a send is still trying and none was given up, the run can go on so that this message, and every one before it, is delivered and acknowledged without giving up |
| StopAndWait.StepInv | src/udp/udp_client.c:35-69 | every step of either side keeps the link invariant |
| RingMask.MaskWrapsIff | src/comm/comm.c:194 | masking the next index walks round the ring if and only if the size is a power of two |
| RingMask.MaskIsRemainder | src/comm/comm.c:222 | masking with a power of two less one is the remainder |
| MsgQueue.Queue.constructor | src/comm/comm.c:109-146 | the empty queue satisfies the invariant |
| MsgQueue.Queue.WaitFree | src/comm/comm.c:180-186 | passing the free semaphore keeps the invariant |
| MsgQueue.Queue.TakeSlot | src/comm/comm.c:191-194 | the message is the next in order of slot acquisition |
| MsgQueue.Queue.WriteSlot | src/comm/comm.c:197-199 | the slot is filled and the message being handled is not touched |
| MsgQueue.Queue.PostBusy | src/comm/comm.c:202-203 | posting keeps the invariant |
| MsgQueue.Queue.Dequeue | src/comm/comm.c:210-227 | the slot returned is filled, with the oldest message not handled |
| MsgQueue.Queue.PostFree | src/udp/udp_server.c:26-29 | what was handled is the next message in order, and only now may its slot be reused |
| MsgQueue.DoEnqueue | src/comm/comm.c:168-206 | no step of an enqueuer changes the message that is being handled |
| MsgQueue.Run | src/udp/udp_server.c:14-29 | in any interleaving each step moves its thread exactly as it can, the messages given to enqueue are ordered once each and handled in that order, at most size are in the ring, and a quiet queue has handled all |
| MsgQueue.Drain | src/udp/udp_server.c:14-29 | from whatever state, if no thread begins another call and those that can move go on, everything given to enqueue is handled, in order and each once |
| MsgQueue.NoDeadlock | src/comm/comm.c:168-227 | in every state some thread can move |
| Broadcast.RootLevel | src/msg/msg.c:257-263 | the level is the least, but at least 1, whose tree has room for all hosts |
| Broadcast.BcastServer | src/msg/msgserver.c:79-113 | the messages sent on are those for the two halves of the subtree |
| Broadcast.ChildrenServe | src/msg/msgserver.c:90-112 | handling a message keeps every host below it served exactly once |
| Broadcast.BsendMsg | src/msg/msg.c:251-268 | from any root and for any host count the broadcast ends and each host handles the operation exactly once |
| Reduction.Partner | src/msg/msguser.c:121-136 | the position a receiver waits for sends at the same level, to it |
| Reduction.DividesIsRemainder | src/msg/msguser.c:122-125 | the test on low-order bits is the source's remainder test |
| Reduction.TurnKeeps | src/msg/msguser.c:121-137 | every turn of any host's loop keeps the partial folds and the messages in flight |
| Reduction.SomeoneMoves | src/msg/msguser.c:121-137 | a reduction that is not finished never blocks |
| Reduction.AllDone | src/msg/msguser.c:102-139 | at the end every send has been received, and the root has the fold of all contributions |
| Reduction.JiaReduce | src/msg/msguser.c:102-139 | for any associative operation and any pace of the hosts it ends with the contributions combined in rotated host order |
| TspTours.Best.SetBest | apps/tsp/src/tours.c:65-94 | a shorter tour replaces length and path together, a longer one neither |
| TspTours.PrefixWeight | apps/tsp/src/solve.c:88-105 | a path weighs at least as much as each of its prefixes |
| TspSearch.NoCycleThrough | apps/tsp/src/solve.c:88-90 | skipping a visited, unconnected or too distant node loses no better cycle |
| TspSearch.Search.Leaf | apps/tsp/src/solve.c:97-104 | a completed path is offered exactly if it closes to a cycle |
| TspSearch.Search.VisitNodes | apps/tsp/src/solve.c:79-112 | afterwards the best length is at most that of every cycle that continues the path, belongs to a real cycle if it changed, and the search state is restored |
| TspSearch.Search.RecursiveSolve | apps/tsp/src/solve.c:33-68 | the same from a partial tour on the queue |
| TspSearch.WholeSearch | apps/tsp/src/solve.c:33-112 | from the start node alone the result beats every cycle of the graph |
| TspBound.CheapestIsLeast | apps/tsp/src/solve.c:184-199 | no two different usable edges are cheaper than the pair found |
| TspBound.CheapestIsReal | apps/tsp/src/solve.c:184-199 | and the pair consists of two different usable edges |
| TspBound.BoundAdmissible | apps/tsp/src/solve.c:168-216 | for symmetric weights below BIGINT and two nodes to go the bound never exceeds the weight of a completion |
| TspBound.TermsAtMost | apps/tsp/src/solve.c:181-214 | the halved sums along the rest of a cycle, plus half of its two outer edges, are at most its weight |
| TspBound.TwoCheapest | apps/tsp/src/solve.c:184-199 | the inner loop computes that pair |
| TspBound.TermContributes | apps/tsp/src/solve.c:201-214 | an unvisited node adds half of what its two lightest usable edges weigh, rounded down; the weight of the only one; or nothing |
| TspBound.ContributionUnique | apps/tsp/src/solve.c:201-214 | the edges fix that number |
| TspBound.TermAtLeast | apps/tsp/src/solve.c:201-214 | it is at least half, but for rounding, of any weight that no two usable edges fall short of together |
| TspBound.BoundUnique | apps/tsp/src/solve.c:179-216 | graph and path fix the bound |
| TspBound.Complete | apps/tsp/src/solve.c:133-164 | the one missing node is appended and the tour becomes the best if it is shorter |
| TspBound.CompletedIsCycle | apps/tsp/src/solve.c:142-150 | what is recorded is a cycle if and only if both closing edges exist |
| TspBound.RecordsNoCycle | apps/tsp/src/solve.c:142-150 | a graph in which the branch records a tour that is no cycle |
| TspBound.CalcBound | apps/tsp/src/solve.c:121-216 | completes a tour that lacks one node, and otherwise stores the prefix weight plus one plus what the unvisited nodes add by their edges, changing no best tour |

## Left out

- The RDMA transport: its completions come from a library that is not visible, and its self-send path has no back-pressure.
- Real memory mapping, page protection, signals and sockets: protection is the state of a page and the network a set of messages.
- Write vectors, adaptive write detection and prefetch in the protocol: off by default, or of no effect.
- Condition variables, `jia_wait`, and messages between applications: easy members of the same kind.
- `jia_alloc4` and `jia_alloc_array`: the first is the loop of `jia_alloc3` with a block size that changes each round, the second reuses its loop index.
- A GETP that reaches a new home before its tables are updated: in the state machine the homes move on all hosts before any host goes on. The copy such a GETP finds is the home's of the last arrival, by `ProtocolTheorems.SoleWriterIsCurrent`.
- Finding a free message buffer: a buffer is taken as found.
- Whole-run optimality of the TSP priority queue, and its heap.
- Protocol.Apply: messages are handled one at a time per host and each page's diff travels alone; the batching is proved in `DiffBatch` and `MsgQueue`, not inside the state machine. The state machine is on values; update in place in the same code is in `LockManager`, `WriteNotices`, `DiffBatch`, `HostTables` and `Migration`.
- Protocol.GrantNotices: grants split over INVLD messages arrive as one, as `NoticeStream.ParseStream` justifies.
- Protocol.DoServeBarr: barrier reports split over WTNT messages arrive as one, as `ProtocolReports.SplitReportsSame` justifies; the parts of a release are handled one by one.
- Protocol.Migrated: at a barrier that moves pages all hosts handle the grant in one step; a barrier that moves none is handled host by host.
- StopAndWait.PrefixDelivery: assumes for unbounded runs that the network keeps no packet for a whole cycle of sequence numbers, because without that it is false.
- DiffBatch.Writer.EndInterval: the messages of other writers that reach a home during the interval are on their way when it begins (`Arrive`).
- NoticeStream.AppendWtnts: uses the larger reserve for lock grants, because with the one in the code a grant can outgrow its message.
- Notices.SavedAllMentions: the fields of the entries are stated by `NoticeLog.EntryRemembers`.
- HostTables.Tables.FaultReserve: asks that a slot can be had, which the code does not check.
- HostTables.Tables.Prefetch: asks that the slot chosen is not the one reserved for a waiting fault; `HostTables.PrefetchClash` is the other case.
- HostTables.Tables.FaultNew: asks that a slot can be had, which the code does not check; contents of pages are in the protocol.
- Allocation.Alloc3: asks that the pages of the last block exist and that a block is not empty, which the code does not check.
- MsgQueue.Queue.WriteSlot: the copy of one message is one step; it is made under the tail lock.
- TspSearch.Search.VisitNodes: one host searches alone; other hosts may lower the best length at any time, which only prunes more.
- TspTours.TourElement: node sets are sets, not bit masks, and the stack of free tours is not modelled.
