# AirStore replica management, verified in Dafny

AirStore keeps files as chunks on a set of storage nodes. A manager records in four tables which nodes exist, which
files there are, how each file was cut into chunks and which node holds which chunk; it re-replicates chunks when a
node fails, takes back what a returning node still has, and reads files back with failover and end-to-end hash checks.
This project models that protocol and proves what it keeps, together with the parts it stands on (chunking, naming,
the on-disk engine, placement) and the independent erasure codec.

`dafny verify dfyconfig.toml` checks everything.

## How the model is built

**State.** `Types.State` holds the tables `nodes`, `files`, `chunks` and `replicas` (keyed by chunk and node, the
tables' own primary keys) and one disk per node (`disk`, keyed the same way). Foreign keys are never switched on
(airstore/manager/database/db.py:22-26), so deleting a file leaves its chunk and replica rows behind, and the model
does the same.

**Environment.** What the code cannot control is a parameter, `Types.Env`, quantified over in every theorem: the order
in which each SELECT returns its rows (`scan`, any enumeration; this includes the orders the code asks for), the fate
of each remote call (`reply`: answered, never delivered, or carried out with the answer lost), whether a verify call
is answered, and the nonce of each encryption. SHA-256 and AES-GCM are arbitrary functions (`Types.Crypto`).
Collision-freeness is a hypothesis only where bytes are concluded from hashes, and that decryption undoes encryption
only where encrypted copies are shown readable.

**Two layers.** The atomic layer (`Recovery`, `Transfers`, `Downloads`, `UploadOutcome`, `Replication`, `Sweep`,
`Audits`, `Outcomes`, `Runs`) treats each request as one step and carries the theorems about runs of whole requests.
The interleaved layer (`Interleaving`, `Races`, `Hazards`, `Numbering`, `Distinctness`, `Endurance`, `Durability`,
`CalmUploads`) cuts every request into table accesses and remote calls, lets any number of requests run at once, and
has the lock of recovery_service.py as a variable. `Solo` proves that a request scheduled alone in the interleaved
machine does exactly what its atomic step says. `Witness`, `NumberWitness` and `FactorWitness` build concrete runs in
which promises fail.

**Plain statements.** What each request does is also stated without the functions that define it: `Outcomes` says, for
every row and every copy, what it is afterwards in terms of the tables, the disks and the fate of the calls before;
`Readings` says for every interleaved access which table it goes by, and when that was read. `Placement.SelectIs`,
`Chunking.Tabulates`, `Erasure.SplitSpelled` and the `...Spelled` lemmas do the same for the parts.

**Code.** The services, the database, the nodes' request handlers, the chunker, the codec and the storage engine are
classes and methods with the source's loops (`RecoveryServices`, `StorageManagers`, `Tables`, `Chunking`, `Erasure`,
`StorageEngine`). Each is proved to compute the specification that the theorems are about.

## What the proofs found

- Durability holds for atomic steps: after any run without tampering, every ACTIVE file asked for at least one replica
  downloads to the uploaded bytes (`Runs.ActiveFilesDownload`).
- Under interleaving durability means: every chunk of an ACTIVE file that asked for replicas and is not being deleted
  has a STORED row on an ONLINE node, or is one the running pass has still to decide. Over untampered runs it holds at
  every moment if and only if no upload declares success while one of its chunks is neither
  (`Durability.DurableUnlessBlind`); then every such file, encrypted or not, downloads to its bytes once the lock is
  free (`Durability.SightedRunsDownload`). A schedule ensures it by never letting a pass take down a node that an
  upload under way counts on (`CalmUploads.CalmRunsAreDurable`). The code does not ensure it. Two runs from an empty
  cluster, every call answered, end with an ACTIVE file nobody can read: a row recorded on a node that has gone
  OFFLINE (`Witness.UploadRace`), and an upload whose last access overwrites the CORRUPTED mark of a pass with ACTIVE
  (`Witness.OverwriteRace`). In the second no row is recorded on an OFFLINE node, and no row is STORED at the end.
- STORED means ONLINE throughout an interleaved run exactly when no row is recorded on a node that a pass has taken
  OFFLINE in the meantime (`Hazards.StoredMeansOnlineUnlessLate`). Recovery passes never do that
  (`Hazards.RecoveryIsNeverLate`); uploads do (`Witness.UploadRace`), and so do reconciliations
  (`Witness.ReconcileRace`).
- What survives every interleaving: an untampered STORED copy of an unencrypted file hashes to what the chunk table
  says, a completed download delivers the uploaded bytes, and at most one pass runs at a time.
- Distinct replica numbers do not survive it: an upload does not take the lock, and a pass that plans a copy meanwhile
  can give a number twice (`NumberWitness.NumberRace`). The numbers of a chunk stay distinct exactly when no row is
  recorded under a number in use, and always if no pass plans a copy of the chunk while its upload is under way
  (`Distinctness.NumbersDistinctExactly`).
- The replication factor is not preserved by recovery, contrary to docs/recovery.md:40. A chunk re-replicated and
  later reconciled ends with three replicas of two (`FactorWitness.FactorExceeded`), a pass that finds no further node
  leaves one of two (`FactorWitness.FactorMissed`). With calls answered, a chunk of an unencrypted file is
  re-replicated exactly when another ONLINE node holds it and yet another has room for it
  (`Replication.ReplicatedExactly`), and a pass keeps every file at its replication factor exactly when each chunk on
  the node has replicas to spare or can be replaced so (`Replication.HealthKeptExactly`). It also re-replicates rows
  that were MISSING before, so from exactly the factor it ends there only if it re-replicates the chunks the node held
  and no others (`Replication.FactorPreservedExactly`). Over a run the exact balance is `Runs.LedgerBalances`.
- Chunks of encrypted files are never re-replicated and never reconciled unless some disk holds their plaintext: both
  check the ciphertext against the hash of the plaintext (`Replication.SealedStaysPut`,
  `Replication.EncryptedOnlyIfPlain`).
- An upload succeeds exactly when it has a chunk, every chunk finds an ONLINE node with room, and the call for every
  chosen node succeeds (`UploadOutcome.UploadSucceedsExactly`). An empty file, or a chunk size of zero, has no chunk and
  ends CORRUPTED: the loop never binds the index used after it (airstore/manager/services/storage_manager.py:132). With
  chunk size zero the recorded digest is that of no bytes.
- An upload reports success although a download that every ONLINE node answers cannot read its file back exactly when
  placement gave some chunk no node at all (`Runs.UploadReadable`). A replication factor of zero does that, and the HTTP
  form accepts it (`UploadOutcome.ZeroFactorSucceeds`).
- A heartbeat keeps STORED meaning ONLINE unless it reports another status for a node that holds something
  (`Runs.HeartbeatKeepsExactly`).
- The codec's docstring promises to survive the loss of any M shards (airstore/core/erasure_coding.py:13-18). It
  decodes exactly when all data shards survive, or one is lost and the first parity survives (`Erasure.DecodeExact`).
  Any decoder at all can succeed exactly when at most one data shard with payload bytes is lost, and none unless some
  parity survives (`Erasure.DeterminedExactly`, `Erasure.DecoderExists`). So two lost shards with payload are beyond
  every decoder (`Erasure.NoDecoderForTwo`), but the refusals for a lost first parity (`Erasure.RefusalNotForced`) and
  for a lost shard of padding (`Erasure.PaddingShardIsDetermined`) are the code's own.
- The docstring of `assemble_file_from_stream` says the output file is deleted on a hash mismatch
  (airstore/core/chunking.py:99-103); the code keeps the old output and deletes only the temporary file, and that is
  what is proved.

## Model

| member | source | states |
|---|---|---|
| Runs.ActiveFilesDownload | airstore/manager/services/storage_manager.py:162-249 | Durability: after every run of atomic steps without tampering, an ACTIVE file with replication factor at least one, encrypted or not, downloads from answering nodes to exactly the bytes some upload step of the run sent for it |
| Durability.DurableUnlessBlind | airstore/manager/services/storage_manager.py:137-138 | Durability under interleaving: over every untampered run from the empty cluster, all chunks of ACTIVE undying files with replication factor at least one stay held by an ONLINE node or before the running pass, if and only if no upload declares success while one of its chunks is neither |
| Durability.ActionDurable | airstore/manager/services/recovery_service.py:171-179 | The same for one action of any request: it keeps durability exactly when it is not such a declaration |
| Durability.SightedRunsDownload | airstore/manager/services/storage_manager.py:186-235 | After an untampered run without such a declaration, with the lock free, every such file, encrypted or not, downloads to its uploaded bytes |
| Durability.DurableDownloads | airstore/manager/services/storage_manager.py:189-215 | In one state: held chunks make the download deliver the uploaded bytes |
| CalmUploads.CalmRunsAreDurable | airstore/manager/services/storage_manager.py:83-138 | If no pass that has taken a node OFFLINE is still to mark rows on it while an upload counts on that node, durability holds at every moment |
| Endurance.MoveMild | airstore/manager/services/storage_manager.py:104-128 | Guarantee without tampering: every move of every request leaves a legible copy behind every row, the chunk tables filled, and the request with what it knows |
| Endurance.ActionSolid | airstore/manager/services/recovery_service.py:219-236 | Every untampered action keeps a legible copy behind every row of an undying file, encrypted files included |
| Endurance.UntamperedRowsAreLegible | airstore/manager/services/storage_manager.py:104-128 | After every untampered interleaved run from the empty cluster, every row of a file that exists and is not being deleted, whatever its status and encrypted or not, has a copy behind it that a download would accept |
| Runs.StepKeepsSound | airstore/manager/services/recovery_service.py:113-259 | Without tampering every step keeps a legible copy behind every row of an existing file and a STORED row on an ONLINE node for every chunk of an ACTIVE one |
| Runs.RunKeepsSound | airstore/manager/services/storage_manager.py:94-138 | The same over whole runs |
| Runs.StepKeepsInv | airstore/manager/services/recovery_service.py:123-236 | Tampering included, every step keeps: rows refer to known chunks and nodes, a STORED row's node is ONLINE, the replica numbers of a chunk are positive and distinct, the tables describe the uploaded bytes |
| Runs.RunKeepsInv | airstore/manager/database/db.py:273-295 | The same in every reachable state |
| Runs.InitIsSound | airstore/manager/database/db.py:28-108 | The empty tables satisfy every invariant, whatever the disks hold |
| Runs.DownloadSucceedsExactly | airstore/manager/services/storage_manager.py:186-235 | In every reachable state, tampered with or not, a download succeeds if and only if every chunk has a STORED replica on an ONLINE, answering node with the right bytes, and then returns the uploaded bytes unless the chunk size was zero |
| Runs.ServableDelivers | airstore/manager/services/storage_manager.py:186-235 | In any state whose tables describe the file, a download delivers its pieces if every chunk is servable and nothing otherwise |
| Runs.UploadedByStep | airstore/manager/services/storage_manager.py:62-80 | The bytes recorded for a file are those an upload step of the run sent under its id |
| Runs.LedgerBalances | airstore/manager/services/recovery_service.py:41-52 | Over every run, tampering included, the ONLINE holders of a chunk at the end are those at the start, less the passes on a holder, plus re-replications and reconciled rows, less rows downgraded by downloads |
| Replication.ReplicatedExactly | airstore/manager/services/recovery_service.py:162-237 | With legible copies and answered calls, a chunk of an unencrypted file with a row on the failed node is re-replicated if and only if another ONLINE node holds it STORED and another ONLINE node can receive it |
| Replication.EncryptedOnlyIfPlain | airstore/manager/services/recovery_service.py:219-226 | A chunk of an encrypted file is re-replicated or reconciled only if some disk holds exactly its plaintext piece |
| Replication.SealedStaysPut | airstore/manager/services/recovery_service.py:45-52 | A chunk none of whose copies hashes as recorded is neither re-replicated nor reconciled |
| Replication.HealthKeptExactly | airstore/manager/services/recovery_service.py:159-243 | If every chunk has its replication factor in STORED rows, it still has after a pass if and only if each chunk held by the node had replicas to spare or is unencrypted and replaceable; encrypted copies are assumed not to be plaintext |
| Replication.FactorPreservedExactly | airstore/manager/services/recovery_service.py:144-237 | From exactly the replication factor everywhere, a pass ends there if and only if the chunks held by the node are the ones it re-replicates; rows that were MISSING or CORRUPTED already are re-replicated too. Encrypted copies are assumed not to be plaintext, here and below |
| Replication.NoneAboveAfterPass | airstore/manager/services/recovery_service.py:159-237 | A pass leaves no chunk above its replication factor if and only if, per chunk, the holders other than the node and the copy it makes are not too many, read off the tables before |
| Replication.NoneAboveAfterRegistration | airstore/manager/services/recovery_service.py:34-52 | A registration leaves no chunk above its replication factor if and only if, per chunk, the holders and the MISSING row the node answers for are not too many |
| FactorWitness.FactorExceeded | airstore/manager/services/recovery_service.py:228-237 | An untampered run from the empty tables, calls answered, that ends with three ONLINE holders for replication factor two |
| FactorWitness.FactorMissed | airstore/manager/services/recovery_service.py:213-214 | An untampered run from the empty tables, calls answered, that ends with one ONLINE holder for replication factor two |
| Runs.HoldersDropOnlyByFailures | airstore/manager/services/recovery_service.py:149-237 | Without tampering the holders of a chunk never drop by more than the passes that took one away and failed to re-replicate it |
| Runs.UploadReadable | airstore/manager/services/storage_manager.py:94-138 | A successful upload can be read back if and only if placement gave each of its chunks at least one node |
| UploadOutcome.UploadSucceedsExactly | airstore/manager/services/storage_manager.py:82-138 | An upload succeeds if and only if it has a chunk, every chunk finds an ONLINE node with room, and for every chosen node the PUT is answered or an existing copy is vouched for |
| UploadOutcome.NothingToSend | airstore/core/chunking.py:36-57 | There is no chunk to send if and only if the file is empty or the chunk size zero |
| UploadOutcome.UploadEnds | airstore/manager/services/storage_manager.py:131-160 | An upload ends ACTIVE on success and CORRUPTED on failure, and with no chunk to send it fails on the unbound index |
| UploadOutcome.ZeroFactorSucceeds | airstore/manager/main.py:160-182 | With replication factor zero, a nonempty file and room on ONLINE nodes, the upload succeeds and no download can read the file |
| Runs.UploadKeepsRows | airstore/manager/services/storage_manager.py:103-129 | An upload keeps row, node and number invariants, in success and failure |
| Runs.UploadKeepsCatalog | airstore/manager/services/storage_manager.py:63-80 | After an upload the tables describe the bytes of every file, old and new |
| Runs.UploadKeepsCopies | airstore/manager/services/storage_manager.py:104-128 | After an upload every row still has a legible copy behind it |
| Runs.RecoverKeepsRows | airstore/manager/services/recovery_service.py:123-236 | A pass keeps row, node and number invariants, reused MISSING rows included |
| Runs.RecoverKeepsCopies | airstore/manager/services/recovery_service.py:181-236 | A pass leaves a legible copy behind every row |
| Runs.RecoverKeepsBacked | airstore/manager/services/recovery_service.py:163-179 | A pass leaves every chunk of a still ACTIVE file with a holder |
| Runs.RegisterKeeps | airstore/manager/main.py:78-94 | Registration with reconciliation keeps every invariant |
| Runs.HeartbeatKeeps | airstore/manager/main.py:117-132 | A heartbeat that says ONLINE, the only kind the nodes send, keeps every invariant |
| Runs.HeartbeatKeepsExactly | airstore/manager/database/db.py:132-144 | A heartbeat of any status keeps STORED meaning ONLINE if and only if it says ONLINE, or its node is unknown or holds nothing |
| Runs.DownloadKeepsInv | airstore/manager/services/storage_manager.py:186-235 | A download, successful or not, keeps the row and catalog invariants, and the copies |
| Runs.DownloadLosesNothing | airstore/manager/services/storage_manager.py:206-215 | With every copy legible a download downgrades no row |
| Runs.DeleteKeeps | airstore/manager/services/storage_manager.py:251-279 | A delete keeps every invariant although its chunk and replica rows stay |
| Runs.ListedInOrder | airstore/manager/database/db.py:259-271 | The chunk list of a recorded file is its pieces, all of them, in order |
| Outcomes.RecoveryOutcome | airstore/manager/services/recovery_service.py:123-237 | Row by row and copy by copy: a chunk with a row on the node, a record, a STORED row on another ONLINE node and another ONLINE node with room and no row but a MISSING one is copied from the first such source listed to the highest ranked such target, the first listed of equals; the bytes arrive if the call does and they hash as recorded, the row with the next number is there if the call is answered; nothing else changes but the rows on the node, which are MISSING |
| Outcomes.DownloadOutcome | airstore/manager/services/storage_manager.py:186-235 | Row by row: reading the chunks in order up to the first nobody can serve, a download sets to CORRUPTED exactly the STORED rows on ONLINE answering nodes whose bytes, decrypted if need be, hash otherwise than recorded and that stand ahead of every row with the right bytes; a copy that cannot be decrypted is passed over |
| Outcomes.UploadTablesOutcome | airstore/manager/services/storage_manager.py:62-80 | The file row has the size and digest of the file and the request's settings; the chunk rows have number, length and hash of the pieces; rows and copies of other chunks stay |
| Outcomes.UploadRowsOutcome | airstore/manager/services/storage_manager.py:94-129 | Whether or not the upload succeeds, each row of piece i is STORED on an ONLINE node with at least the piece's length free, over a legible copy, and the numbers run from one without gaps; after a success as many nodes as asked for have it, and none left out ranks above one taken |
| Outcomes.UploadStops | airstore/manager/services/storage_manager.py:94-119 | Pieces go out in order up to the first failure: the ones before it are on as many nodes as asked for, the ones after it untouched |
| Outcomes.AttemptOutcome | airstore/manager/services/storage_manager.py:105-128 | One replica by the fate of its calls: a vouched-for copy is not sent, a sent one is on disk unless the call is lost or the hash wrong, the row is there once the answer is |
| Outcomes.RegisterOutcome | airstore/manager/main.py:78-94 | The node's row is the one given, ONLINE; of the rows on it exactly the MISSING ones with a record whose recorded hash the node vouches for become STORED, numbers kept; nothing else changes |
| Outcomes.HeartbeatOutcome | airstore/manager/database/db.py:132-144 | A known node's row gets available and total storage, status and time as reported; no other row changes |
| Outcomes.DeleteOutcome | airstore/manager/services/storage_manager.py:251-279 | The file row goes and, of the copies, exactly those of its chunks with a row of any status on an ONLINE node that the call reaches; chunk and replica rows stay |
| Recovery.PlanMeans | airstore/manager/services/recovery_service.py:163-229 | A chunk is given up exactly when no STORED row is on an ONLINE node; otherwise the source has one, the target is an ONLINE node with room and no row but a MISSING one, and the new number exceeds all others |
| Recovery.PlanDependsOn | airstore/manager/services/recovery_service.py:159-214 | The decision for one chunk depends on that chunk's rows, its record and the nodes only |
| Recovery.PassLeavesPlan | airstore/manager/services/recovery_service.py:159-243 | Processing other chunks first changes neither the decision for a chunk nor the bytes it would copy |
| Recovery.PassStep | airstore/manager/services/recovery_service.py:159-237 | One iteration of the loop extends the closed form of the pass by one chunk |
| Recovery.RecoveryMovesHolders | airstore/manager/services/recovery_service.py:149-236 | Per chunk a pass trades the failed node for at most one new holder: an ONLINE node with no row for the chunk, or only a MISSING one |
| Recovery.RecoveryClearsNode | airstore/manager/services/recovery_service.py:123-151 | The failed node ends OFFLINE with all its rows MISSING, and no other node changes |
| Recovery.RecoveryCorruptsExactly | airstore/manager/services/recovery_service.py:164-179 | A file is marked CORRUPTED if and only if one of its chunks had a row on the failed node and no STORED row on another ONLINE node |
| Recovery.RecoveryConserves | airstore/manager/services/recovery_service.py:149-237 | STORED rows afterwards = before, minus those on the failed node, plus recovered_chunks |
| Recovery.RecoveryCounts | airstore/manager/services/recovery_service.py:156-243 | recovered + failed equals the affected rows exactly when every one with a survivor elsewhere has its chunk record, and never exceeds them |
| Recovery.CompletedRecoveryKeepsHealth | airstore/manager/services/recovery_service.py:245-259 | If the audit is healthy and recovery reports COMPLETED, the audit is still healthy |
| Recovery.ReconcileMovesHolders | airstore/manager/services/recovery_service.py:41-52 | Reconciliation adds the returning node to the holders of exactly the MISSING chunks it verifies |
| RecoveryServices.ReconcileConserves | airstore/manager/services/recovery_service.py:36-58 | The reported number of reconciled rows is the number of rows that became STORED |
| Recovery.ChunkRowsHas | airstore/manager/database/db.py:303-315 | A listing by chunk has exactly the chunk's rows |
| Recovery.NodeRowsHas | airstore/manager/database/db.py:169-186 | The node listing has exactly the nodes; its ONLINE part exactly the ONLINE ones |
| Recovery.MaxNumberBounds | airstore/manager/services/recovery_service.py:229 | The maximum replica number is at least every number listed |
| Recovery.PlanNumbers | airstore/manager/services/recovery_service.py:229-233 | A planned copy gets the successor of the highest number some row of the chunk has |
| Sweep.SweepIsRun | airstore/manager/scheduler/heartbeat_monitor.py:32-48 | A timeout sweep is a run of recoveries, so all run theorems hold of it |
| Sweep.SweepClears | airstore/manager/scheduler/heartbeat_monitor.py:37-48 | Nodes cleared early in a sweep stay cleared while later ones are recovered |
| Sweep.SweepExact | airstore/manager/scheduler/heartbeat_monitor.py:32-48 | Every node that was ONLINE with its last heartbeat more than the timeout ago ends OFFLINE with every row on it MISSING, even if an early recovery of the sweep placed replicas on it, and every other node keeps its row |
| RecoveryServices.RecoveryService.RecoverNodeFailure | airstore/manager/services/recovery_service.py:109-259 | The marking and re-replication loops compute the closed form of a pass, and the reported counts are the recovered and failed chunks |
| RecoveryServices.RecoveryService.MarkNode | airstore/manager/services/recovery_service.py:123-151 | OFFLINE, then exactly the node's rows MISSING |
| RecoveryServices.RecoveryService.RecoverChunk | airstore/manager/services/recovery_service.py:159-243 | One iteration: rows, disks, file status and outcome are those of the plan for that chunk |
| RecoveryServices.RecoveryService.ReconcileReturningNode | airstore/manager/services/recovery_service.py:32-58 | The loop flips exactly the verified MISSING rows and counts them |
| RecoveryServices.RecoveryService.RegisterNode | airstore/manager/main.py:78-94 | The node row goes in ONLINE, then reconciliation |
| RecoveryServices.RecoveryService.AuditReplicaConsistency | airstore/manager/services/recovery_service.py:60-107 | The nested loops count exactly the chunks, the rows in all and by status, and the short files; healthy means every chunk of every file has its replication factor in STORED rows |
| RecoveryServices.RecoveryService.AuditFile | airstore/manager/services/recovery_service.py:75-98 | One file's share of the counters, and whether it is short of replicas |
| RecoveryServices.RecoveryService.AuditChunk | airstore/manager/services/recovery_service.py:80-91 | One chunk's counters are its rows, in all and by status |
| RecoveryServices.HeartbeatMonitor.CheckNodesNow | airstore/manager/scheduler/heartbeat_monitor.py:32-48 | The loop performs the sweep over the node list read at its start: afterwards a node is OFFLINE with its rows MISSING if it was ONLINE and silent for longer than the timeout, and has the row it had otherwise |
| RecoveryServices.HeartbeatMonitor.HandleHeartbeat | airstore/manager/main.py:117-132 | Known nodes get the reported figures and status, unknown ones are refused |
| RecoveryServices.PassExtends | airstore/manager/services/recovery_service.py:159-243 | An iteration decided on the current tables has the effect it would have had on the tables at the start of the loop |
| Audits.TalliedNext | airstore/manager/services/recovery_service.py:75-98 | Adding one file's counters to those of other files counts the union |
| Audits.NoShortFileMeans | airstore/manager/services/recovery_service.py:95-106 | No inconsistent file if and only if every chunk has its replication factor in STORED rows |
| Audits.StoredRowsAreHolders | airstore/manager/services/recovery_service.py:83-87 | The audit's STORED counter of a chunk is its number of holding nodes |
| Audits.ListingCounts | airstore/manager/services/recovery_service.py:80-91 | Counting a listing of a chunk's rows counts the table's rows |
| Transfers.UploadPlaces | airstore/manager/services/storage_manager.py:94-138 | An upload fills every chunk's chosen nodes in order, numbered from 1 with a legible copy behind each row, or stops at some prefix and marks its file CORRUPTED; no other chunk is touched |
| Transfers.UploadExact | airstore/manager/services/storage_manager.py:96-129 | A successful upload gives each chunk exactly the quota of STORED rows, numbered 1 to the quota |
| Transfers.UploadTargetsPlaces | airstore/manager/services/storage_manager.py:103-129 | The replica loop fills a prefix of the chosen nodes, all of them exactly when no call failed |
| Transfers.AttemptEffect | airstore/manager/services/storage_manager.py:104-128 | A replica row is added only over a legible copy; a failed or unanswered PUT adds none |
| Downloads.DownloadExact | airstore/manager/services/storage_manager.py:186-235 | Failover is exact: all chunks are served iff each has a STORED replica on an ONLINE, answering node with the right bytes |
| Downloads.DownloadRows | airstore/manager/services/storage_manager.py:206-215 | In success and failure alike the rows downgraded to CORRUPTED are exactly the mismatching, answering ones ahead of the first good one of a chunk reached |
| Downloads.DownloadMovesHolders | airstore/manager/services/storage_manager.py:212-215 | A download removes from a chunk's holders exactly the nodes it downgrades, each of which answered with wrong bytes |
| Downloads.TryRowsExact | airstore/manager/services/storage_manager.py:195-217 | The failover loop stops at the first good replica and downgrades exactly the bad ones before it |
| Downloads.FetchAllExact | airstore/manager/services/storage_manager.py:188-229 | Chunk after chunk, the generator delivers what the starting state would deliver, and downgrades what it would downgrade |
| Downloads.ServedMeans | airstore/manager/services/storage_manager.py:189-222 | A chunk is served exactly when some STORED replica is good, and the bytes hash to the recorded hash |
| Downloads.ChunkList | airstore/manager/database/db.py:259-271 | The chunk listing has the file's chunks once each, by ascending sequence number |
| StorageManagers.StorageManagerService.ProcessFileUpload | airstore/manager/services/storage_manager.py:35-160 | The upload with all its error paths computes the upload specification |
| StorageManagers.StorageManagerService.SendChunks | airstore/manager/services/storage_manager.py:94-101 | The chunk loop stops at the first chunk without eligible nodes or with a failed call |
| StorageManagers.StorageManagerService.SendChunk | airstore/manager/services/storage_manager.py:103-129 | The replica loop of one chunk |
| StorageManagers.StorageManagerService.SendReplica | airstore/manager/services/storage_manager.py:105-128 | Verify first unless encrypted, else PUT, then the row |
| StorageManagers.StorageManagerService.StreamFileReconstruction | airstore/manager/services/storage_manager.py:162-249 | Tables as the download specification says; the output file replaced by the whole content on success and untouched on failure, and no temporary file left |
| StorageManagers.StorageManagerService.FetchStream | airstore/manager/services/storage_manager.py:186-229 | The generator, run to its end or to the first chunk nobody serves |
| StorageManagers.StorageManagerService.FetchOne | airstore/manager/services/storage_manager.py:189-222 | The failover loop of one chunk |
| StorageManagers.StorageManagerService.DeleteFile | airstore/manager/services/storage_manager.py:251-279 | The file row goes, the copies on reachable ONLINE nodes go, chunk and replica rows stay |
| StorageManagers.StorageManagerService.DeleteCopies | airstore/manager/services/storage_manager.py:260-269 | Exactly the copies of one chunk on ONLINE nodes whose call is carried out are erased |
| Races.ChunksStay | airstore/manager/database/db.py:251-257 | No access of any request removes or changes a chunk row that is already there |
| Races.MoveOk | airstore/manager/services/storage_manager.py:104-128 | Guarantee: every move of every request, an access or call or one of the merged pairs named below, has an effect that spoils no good copy and leaves the request with what it relies on |
| Races.ThreadStays | airstore/manager/services/recovery_service.py:109-111 | Rely: what a request has established survives every such effect of the others |
| Races.GoodCopyStays | airstore/node/storage.py:27-51 | No such effect spoils a copy that hashes to the recorded hash |
| Races.ActionKeeps | airstore/manager/services/recovery_service.py:34-52 | Every action of any request or of the environment keeps the machine's invariant |
| Races.StoredCopiesAreIntact | airstore/manager/services/recovery_service.py:219-236 | In every interleaved run, tampering included, a STORED row of an unencrypted file whose deletion has not begun has bytes that hash to the recorded SHA-256, unless that copy was tampered with since it was stored or verified |
| Races.OnePassAtATime | airstore/manager/services/recovery_service.py:109-111 | The lock admits one recovery or reconciliation at a time |
| Races.MoveLocks | airstore/manager/services/recovery_service.py:30-34 | The lock is taken on entering and returned on leaving and at no other time |
| Races.DeliveredIsUploaded | airstore/core/chunking.py:111-130 | Whatever else runs, a completed download delivers the bytes uploaded under that file id, except for non-empty files uploaded with chunk size zero |
| Hazards.StoredMeansOnlineUnlessLate | airstore/manager/services/recovery_service.py:123-151 | Through an interleaved run STORED means ONLINE, or about to be marked by the running pass, if and only if no row is recorded on a node a pass took OFFLINE in the meantime |
| Hazards.ActionUpright | airstore/manager/services/storage_manager.py:121-128 | The same for one action: it keeps STORED meaning ONLINE exactly when it does not record late |
| Hazards.RecoveryIsNeverLate | airstore/manager/services/recovery_service.py:153-236 | A recovery pass never records a row on a node that is no longer ONLINE |
| Hazards.ActionSees | airstore/manager/services/recovery_service.py:153-154 | The nodes a pass has read as ONLINE, in either of its two listings, stay ONLINE until it is over |
| Numbering.NumbersStayDistinct | airstore/manager/services/recovery_service.py:229-236 | Once its upload is over, a chunk whose replica numbers are distinct while the lock is free keeps them distinct through every further interleaving; how they come to be distinct is Distinctness.NumbersDistinctExactly |
| Numbering.AdvanceOrderly | airstore/manager/services/recovery_service.py:163-236 | A planned copy's number stays above all numbers of its chunk until it is recorded |
| Distinctness.NumbersDistinctExactly | airstore/manager/services/recovery_service.py:228-236 | From the empty cluster, tampering included: if no pass plans a copy of a chunk while its upload is under way, the numbers of the chunk are distinct at every moment; in general they are if and only if no row is recorded under a number another row has |
| Distinctness.DistinctUnlessRepeated | airstore/manager/database/db.py:273-286 | The same equivalence from any moment at which the numbers are distinct |
| NumberWitness.NumberRace | airstore/manager/services/storage_manager.py:103-129 | An untampered run from the empty cluster, calls answered, at whose end every request is done, the lock free, and two STORED rows of a chunk have one number |
| Solo.AloneIsAtomic | airstore/manager/services/recovery_service.py:113-259 | Each kind of request, scheduled alone, runs to its end and leaves exactly the state of its atomic step, the lock free |
| Readings.DecideOutcome | airstore/manager/services/recovery_service.py:162-217 | A decision under interleaving: sources by the rows now and the node map read at the start, targets by the rows now and the ONLINE list read at the start, the highest ranked one, under the next number; the file is doomed exactly when no source is left |
| Readings.TryOutcome | airstore/manager/services/storage_manager.py:195-217 | A download's try goes by the node map read at the start; it keeps right bytes, passes over a silent node or an undecryptable copy, and distrusts other bytes only |
| Readings.UploadReads | airstore/manager/services/storage_manager.py:83-129 | An upload reads the nodes once and afterwards only the disks it asks about |
| Readings.RecoveryReads | airstore/manager/services/recovery_service.py:144-237 | A pass reads nodes twice, after marking, and per chunk its rows and record once; the row added is settled with the decision |
| Readings.RegisterReads | airstore/manager/services/recovery_service.py:35-51 | A reconciliation lists the MISSING rows once and asks per row |
| Readings.DownloadReads | airstore/manager/services/storage_manager.py:167-209 | A download reads file, chunks and nodes once, the rows of a chunk when it comes to it, copies as it tries them |
| Readings.DeleteReads | airstore/manager/services/storage_manager.py:251-269 | A delete reads file, chunks and nodes once, the rows of a chunk when it comes to it |
| Solo.RecoverAlone | airstore/manager/services/recovery_service.py:113-259 | A recovery, access by access, is the atomic recovery |
| Solo.UploadAlone | airstore/manager/services/storage_manager.py:62-156 | An upload, access by access, is the atomic upload |
| Solo.DownloadAlone | airstore/manager/services/storage_manager.py:167-235 | A download, access by access, is the atomic download, and delivers the same bytes |
| Solo.DeleteAlone | airstore/manager/services/storage_manager.py:251-271 | A delete, access by access, is the atomic delete |
| Solo.RegisterAlone | airstore/manager/main.py:78-94 | A registration, access by access, is the atomic registration |
| Solo.ReconcileAlone | airstore/manager/services/recovery_service.py:34-52 | A reconciliation, from its wait for the lock on, is the atomic reconciliation |
| Witness.UploadRace | airstore/manager/services/storage_manager.py:83-138 | A run from the empty cluster, every call answered and no tampering, that ends with an ACTIVE file no download can read |
| Witness.OverwriteRace | airstore/manager/services/storage_manager.py:137-138 | A second such run: a whole pass marks the row MISSING and the file CORRUPTED, and the upload's last access overwrites that with ACTIVE; STORED means ONLINE all the same |
| Witness.ReconcileRace | airstore/manager/services/recovery_service.py:41-52 | A run in which a reconciliation records a row STORED on a node that a pass took OFFLINE after its registration |
| Placement.SelectTakes | airstore/manager/placement.py:50-74 | Selection refuses exactly when no node is eligible; otherwise it takes distinct eligible nodes, min(rf, eligible) of them for rf at least zero |
| Placement.SelectIs | airstore/manager/placement.py:46-74 | The whole selection, over whole numbers: refused exactly when no node is ONLINE, allowed and large enough; else rf of them, all when there are no more, Python's slice for a negative rf; none left out ranks above one taken by 0.7 per MiB free plus 30 for the free share, and those taken are in rank order unless all were taken unsorted |
| Placement.SelectBreaksTies | airstore/manager/placement.py:71-72 | Of two nodes of equal rank the one listed first is taken if the other is |
| Placement.SelectIsOptimal | airstore/manager/placement.py:65-72 | No eligible node left out has a higher score than one taken |
| Placement.SelectIsStable | airstore/manager/placement.py:71-72 | Among equal scores the first in list order are taken, in that order |
| Placement.ScoreOrdersBySpace | airstore/manager/placement.py:66-69 | Among nodes of equal positive capacity the score order is the free-space order |
| Placement.StableSortIs | airstore/manager/placement.py:71 | The sort is a descending rearrangement of its input |
| Placement.StableSortStable | airstore/manager/placement.py:71 | Equal keys keep their list order under reverse sorting |
| Chunking.GetFileInfoAndChunks | airstore/core/chunking.py:19-58 | The read loop yields the file's size, the hash of the bytes read, and for chunk i its id, number, length and the hash of bytes i*n up to (i+1)*n or the end; the lengths add up to the file |
| Chunking.StreamChunks | airstore/core/chunking.py:61-92 | The second reader yields the same metadata, each with its bytes |
| Chunking.ModelsTabulate | airstore/core/chunking.py:36-57 | For n >= 1 the rows are ceil(size / n), row i with the length and hash of bytes i*n up to (i+1)*n or the end; a negative n gives one row, zero none; unless n is zero the lengths add up to the file |
| Chunking.SplitShape | airstore/core/chunking.py:36-57 | For chunk size n >= 1: ceil(size / n) chunks, chunk i holding bytes i*n up to (i+1)*n or the end |
| Chunking.SplitThenConcat | airstore/core/chunking.py:36-57 | Splitting then concatenating is the identity if and only if the chunk size is not zero or the file is empty |
| Chunking.FileSystem.Assemble | airstore/core/chunking.py:95-138 | All or nothing: on success the output holds the whole stream, on a hash mismatch or a failing stream the old output is unchanged; no temporary file stays |
| Chunking.IncrementalHasher.Update | airstore/core/hashing.py:28-30 | Hashing piece by piece is hashing the concatenation |
| Chunking.CalculateFileHash | airstore/core/hashing.py:11-20 | Buffered reading gives the hash of the whole file for every buffer size but zero, with which nothing is read |
| Naming.ChunkIdReads | airstore/core/chunking.py:45 | File id and sequence number can be read back from every chunk id, beyond six digits too |
| Naming.ChunkIdShape | airstore/core/chunking.py:45 | File id, "_chunk_" and the number in decimal: six digits below a million, otherwise more and no leading zero |
| Naming.ChunkIdInjective | airstore/core/chunking.py:45 | Distinct chunks have distinct ids |
| Naming.SanitizeClean | airstore/node/storage.py:19-22 | ASCII letters, digits, '-' and '_' are kept whatever else counts as alphanumeric |
| Naming.SanitizeExact | airstore/node/storage.py:19-22 | Sanitising leaves an id alone if and only if each of its characters is alphanumeric, '-' or '_' |
| Naming.SanitizeSpelled | airstore/node/storage.py:19-22 | Character by character, ASCII letters, digits, '-' and '_' stay, and beyond ASCII what counts as alphanumeric |
| Naming.StableIdsDiffer | airstore/node/storage.py:19-22 | Distinct ids that sanitising leaves alone have distinct sanitised forms |
| Naming.ChunkIdClean | airstore/core/chunking.py:82 | Chunk ids of clean file ids are clean |
| Naming.SanitizeCollides | airstore/node/storage.py:19-22 | Every id shares its file with another id, its own sanitised form among them unless it is stable |
| StorageEngine.EngineRefinesMap | airstore/node/storage.py:27-74 | On ids that sanitising leaves alone, the empty one included, the engine answers like a map from ids to bytes under every sequence of operations |
| StorageEngine.StepRefines | airstore/node/storage.py:27-74 | One operation keeps directory and map in step, a rejected store changing nothing |
| StorageEngine.StablePaths | airstore/node/storage.py:19-38 | Ids that sanitising leaves alone have their own chunk files, and no temporary file is a chunk file |
| StorageEngine.PathsSpelled | airstore/node/storage.py:19-38 | The chunk file of an id is its sanitised form with ".chunk", the temporary one has ".tmp" instead |
| StorageEngine.DirectoryOutcome | airstore/node/storage.py:27-66 | File by file: an accepted store replaces the chunk file and leaves no temporary one, a mismatch changes nothing, a delete removes the chunk file; no other file changes |
| StorageEngine.TempIsNoChunk | airstore/node/storage.py:37-38 | The temporary file of any id is no id's chunk file |
| StorageEngine.Engine.StoreChunk | airstore/node/storage.py:27-51 | Check, write beside, remove, rename: the directory ends with the new bytes, or unchanged after a mismatch |
| StorageEngine.Engine.RetrieveChunk | airstore/node/storage.py:53-58 | The stored bytes, or not found |
| StorageEngine.Engine.DeleteChunk | airstore/node/storage.py:60-66 | The file is gone; true exactly when it was there |
| StorageEngine.Engine.VerifyChunk | airstore/node/storage.py:68-74 | True exactly when the file is there with the given hash |
| Erasure.SplitData | airstore/core/erasure_coding.py:21-55 | The in-place loops build the padded data shards and all parity shards |
| Erasure.BuildParity | airstore/core/erasure_coding.py:37-53 | The accumulated buffer is the XOR of the rotated data bytes at each position |
| Erasure.SplitSpelled | airstore/core/erasure_coding.py:28-53 | Shards of ceil(n / d) bytes, data shard i the i-th run of the payload continued with zeros; for a payload with nothing outside data shard i, parity 0 is that shard and every other parity is it with each byte rotated left by i % 8 bits, which by linearity fixes all parities |
| Erasure.ReconstructData | airstore/core/erasure_coding.py:58-102 | The loops compute the decoding specification for all integers, errors, short shards and negative sizes included |
| Erasure.DecodeCuts | airstore/core/erasure_coding.py:77-80 | With all data shards there the result is their join cut by a Python slice, negative sizes included |
| Erasure.DecodeFailsShort | airstore/core/erasure_coding.py:82-95 | With one data shard missing and the first parity there, decoding raises IndexError exactly when some data shard or that parity is shorter than the first shard there |
| Erasure.DecodeRebuilds | airstore/core/erasure_coding.py:88-100 | Otherwise the missing shard is the parity XOR the other data shards over that length, the parity's own bytes beyond it |
| Erasure.Rebuild | airstore/core/erasure_coding.py:86-97 | The rebuilt shard is the first parity XOR the surviving data shards, or an IndexError for a short one |
| Erasure.DecodeExact | airstore/core/erasure_coding.py:67-102 | For every payload and erasure: decoding succeeds iff all data shards survive, or exactly one is lost and the first parity survives; then it returns the payload |
| Erasure.DeterminedExactly | airstore/core/erasure_coding.py:13-53 | For every payload length, shard counts and set of lost shards: the surviving shards determine the payload if and only if no lost data shard holds payload bytes, or one does and some parity survives |
| Erasure.DecoderExists | airstore/core/erasure_coding.py:13-18 | Some function of the surviving shards returns every payload if and only if that condition holds |
| Erasure.RefusalNotForced | airstore/core/erasure_coding.py:86-102 | With one data shard and the first parity lost the code raises, although any other surviving parity would determine the payload |
| Erasure.SplitIsLinear | airstore/core/erasure_coding.py:28-53 | Data and parity shards are XOR-linear in the payload |
| Erasure.TwoLostLookAlike | airstore/core/erasure_coding.py:44-53 | Flipping the first byte of two data shards that hold payload bytes leaves every other shard unchanged, for any parity count |
| Erasure.NoDecoderForTwo | airstore/core/erasure_coding.py:102 | So no decoder recovers two such shards: the refusal is forced |
| Erasure.PaddingShardIsDetermined | airstore/core/erasure_coding.py:28-42 | When one of two lost shards is only padding, the surviving ones determine the payload: there the refusal is not forced |

## Left out

- HTTP, SQL text, connections, threads and event loops as such: calls have a fate, tables are maps, threads are the
  interleaved machine.
- Each node's address is its id: no two ids share a disk, and a re-registered node keeps its disk.
- Upload file ids are never reused, as uuid4 promises; the source file exists and does not change between the two reads
  of it.
- Transfers, the event log, statistics, metrics and throughput: no effect on replicas.
- `check_upload_chunks` and `get_system_metrics`: they use names that are not imported.
- `AIPlacementStrategy`: passes through to the rule-based one. Scores are exact reals, without rounding.
- Runs.HeartbeatKeeps: runs have heartbeats that say ONLINE only, since nodes send no other
  (airstore/node/heartbeat.py:34); one with any status is Runs.HeartbeatKeepsExactly.
- Authentication, path-traversal checks, registration retries, address detection, disk statistics, the command line, the
  frontend and the scripts.
- Crashes of a process in the middle of an operation, and file operations that fail between remove and rename.
- StorageManagers.StorageManagerService.StreamFileReconstruction: the generator is run before the file is assembled, not
  pulled chunk by chunk; tables and output file do not read each other, so the end states are those of the source.
- Numbering.NumbersStayDistinct: starts at a moment when the upload of the chunk's file is over and the numbers are
  distinct; when they are, uploads under way included, is what Distinctness.NumbersDistinctExactly says.
- Races.StoredCopiesAreIntact: encrypted files are left out because their recorded hash is that of the plaintext, so
  replication and verification of their copies check something else.
- Transfers.UploadTargetsPlaces: ties completeness to the returned flag; when that flag is true is what
  UploadOutcome.UploadSucceedsExactly says.
- Races.MoveOk: two moves merge two accesses each. Deciding on a chunk takes its replica listing and its chunk row
  together (airstore/manager/services/recovery_service.py:163 and 191), and dooming its file takes the SELECT of the
  file id and the UPDATE together (176-178): a replica row comes after its chunk row, which never changes, so the
  merged pair sees what the two would see apart.
- A duplicate primary key in `create_chunks`, which raises: upload file ids are fresh, so it does not arise.
- Replication.HealthKeptExactly: assumes answered calls, legible copies, and that no stored ciphertext hashes to the
  recorded hash of its plaintext; Replication.FactorPreservedExactly and the two results on chunks above their factor
  assume the same, the one on registrations except for the answers.
