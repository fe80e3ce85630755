# Verified model of document ingestion and publication

The repository publishes search indexes for documents. Several workers may ingest the same
document version at the same time. Each takes a lease with a fencing token, claims a job for
the fingerprint of its input, stores chunks and vectors under a generation id of its own, and
publishes that generation with one conditional transaction over five items of a control table.
Afterwards it removes the generation it replaced, or its own one when something failed. This
project models that protocol and the algorithms beside it, and proves what they guarantee.

`dafny verify dfyconfig.toml` checks everything.

## How the model is built

| file | what it models |
|---|---|
| `Entities.dfy` | documents, jobs, fingerprint markers, leases, generations |
| `ControlTable.dfy`, `JobCoherence.dfy` | the conditional writes of the control table, one atomic function each; what every sequence of job writes keeps |
| `DynamoRepositories.dfy` | the DynamoDB repositories as objects over one table that other clients write to between any two calls |
| `Protocol.dfy` | any number of workers and submission requests as programs with program counters; crashes, cancellation, expired leases, lost answers, late object writes |
| `ProtocolInvariant.dfy`, `ProtocolSteps.dfy` | the invariant, what a step may do to other workers, and one lemma per kind of step |
| `DocumentHistory.dfy`, `TableHistory.dfy` | results about all runs, with no hypothesis on tokens: documents, and what the writes of the control table keep |
| `PublicationTheorems.dfy` | results about all runs in which no two attempts build one generation, that is, no ingestion attempt repeats the fingerprint, the job and the token of an earlier one |
| `FencingTokens.dfy` | the in-memory lease repository always meets that hypothesis; exactly when the DynamoDB one repeats a token |
| `Redelivery.dfy` | both repositories meet it in runs where no message is taken up a second time |
| `RunBuilding.dfy` | continuations of a run, for the results that exhibit one |
| `TokenReuse.dfy` | a run with the DynamoDB repository in which a redelivered job breaks the hypothesis and an index is lost |
| `Republishing.dfy` | exactly when a document version can be published again |
| `ReusedResults.dfy` | exactly when the result of another job can be recorded |
| `BlockedClaims.dfy` | what an attempt that ended with its job still running does to its fingerprint |
| `InMemoryLeases.dfy` | the in-memory lease repository and all sequences of calls to it |
| `InMemoryStores.dfy`, `Embedding.dfy`, `SequentialWorlds.dfy`, `SequentialIngest.dfy` | one worker against the in-memory repositories: the worlds a run may leave, and the service that leaves them, with a heartbeat beside it and a cancellation at any of its calls |
| `Heartbeats.dfy`, `Worker.dfy` | the heartbeat, and the worker up to the acknowledgement of the queue message |
| `PythonStrings.dfy`, `Pieces.dfy`, `Windows.dfy`, `Normalization.dfy`, `Chunking.dfy` | the paragraph chunker |
| `VectorStore.dfy`, `ChunkStore.dfy` | the two object stores with their manifests, under failures at any call |
| `Base64Url.dfy`, `ObjectKeys.dfy`, `CompositeKeys.dfy`, `Decimals.dfy` | object keys and control-table keys |
| `Canonical.dfy`, `CanonicalText.dfy`, `PayloadIdentity.dfy`, `TextOrder.dfy` | the canonical form of transaction payloads, its text, and what a token identifies |

Three choices run through the model. A digest (fingerprint, generation id) is represented by
what it digests, because SHA-256 is taken to be injective, and for transaction tokens also the
first 36 hex digits of it that are kept; that the digested material is itself unambiguous is
proved (`Chunking.GenerationIdsAreDistinct`, `Chunking.ChunkIdsAreDistinct`,
`PayloadIdentity.TokensIdentifyPayloads`).
Clock readings are arbitrary integers chosen at each step, so the protocol results need no
synchronised clocks. Foreign calls succeed, fail or fail half done, as they please.

## Results that disagree with the repository's own documentation or intent

* **Fencing tokens restart, and an index can be lost.**
  docs/adr/0007-application-owned-document-ingestion.md and
  docs/adr/0010-asynchronous-document-ingestion.md ask for monotonically increasing tokens,
  and the in-memory repository keeps its counter when a lease is released. The DynamoDB
  repository deletes the lease item, so that the next token is 1 again
  (`FencingTokens.DynamoRepeatsExactlyAfterRelease` gives the exact condition). Token and job
  make up the generation id, so a job that is delivered again after such a release may build
  a generation with the id of an earlier attempt of its own, and that attempt's delayed
  cleanup then deletes it: `TokenReuse.DynamoCanLoseTheActiveGeneration` is a run, for every
  document and command, that ends with a document pointing to a generation without chunks.
  The danger is there in every state in which somebody has still to delete a generation that
  a worker is about to build again (`TokenReuse.PendingDeletionLosesTheIndex`).
  Nothing is lost as long as no two attempts build one generation
  (`PublicationTheorems.ActiveGenerationIsComplete`), in particular without redeliveries of
  ingestion messages (`Redelivery.WithoutRedeliveryTheIndexIsComplete`); repeated submissions
  do no harm.
* **A published version may be impossible to publish again.** A worker whose document has not
  changed since it was read and whose claim would be granted can still publish exactly when
  the token it is about to be granted is above the document's last one
  (`Republishing.PublishesIffTokenIsNewer`). The durable counter always grants such a token
  (`Republishing.DurableCounterCanAlwaysPublish`). With the DynamoDB repository and the lease
  item gone, the token is 1 and only a document that was never published can be
  (`Republishing.AfterReleaseOnlyTheUnpublished`); `Republishing.RepublishingIsRejected` is a
  run, for every document, that publishes it once and ends in that state.
* **An interrupted attempt may block its fingerprint for good.** An attempt that is
  cancelled when its heartbeat is lost, whose preparation raises, or whose failure cannot be
  recorded gives its lease back and leaves its job running.
  docs/adr/0010-asynchronous-document-ingestion.md has such a job taken up again under a
  higher token, and it can be claimed only under one
  (`BlockedClaims.RetryMayClaimIffTokenIsNewer`). With the DynamoDB repository the released
  lease means token 1 again, so that nothing of the fingerprint is claimed or published as
  long as leases are given back before the next attempt takes its own
  (`BlockedClaims.BlockedWhileLeasesAreGivenBack`, in every continuation).
  `BlockedClaims.CancellationBlocksTheFingerprint` is a run, for every document and command,
  that ends in that state.
* **A vector that lands late may stay for ever.** A put that was reported as failed and takes
  effect after its generation was deleted is in no manifest, and vectors have no listing to
  fall back on. `VectorStore.LateVectorIsRecoverableIffListed` gives the exact condition,
  `VectorStore.LateVectorIsForgotten` shows that no later deletion finds it.
* **A second chunk batch hides the first.** `put_batch` overwrites the manifest of its
  generation. `ChunkStore.RecoverableExactlyWhenCovered` gives the exact condition under which
  every stored object can still be found, `ChunkStore.SecondBatchForgetsTheFirst` a concrete
  input that fails it.
* **A reused result may never be recorded.** A job that once ran keeps its fencing token, and
  the repositories then refuse the result of another job with the same fingerprint as stale:
  it is recorded exactly for a job that was never claimed
  (`ReusedResults.ReuseIsRecordedForUnclaimedJobsOnly`). As long as the job is not finished
  the refusal meets every later delivery too, whatever is written in between
  (`ReusedResults.ReuseStaysRefused`), and it acknowledges nothing.
  `ReusedResults.ReuseMayBeRefused` is a run, for every document and command, in which a failed
  job, due to be delivered again, ends so.

## Model

| member | source | states |
|---|---|---|
| `JobCoherence.RunKeepsCoherence` | packages/aws-clients/src/ia_aws_clients/dynamodb_ingestion_job_repository.py:45-138 | any run of submits, claims, fenced saves and activations, mixed with arbitrary changes of the other items, leaves each marker naming an existing job with the same fingerprint, token and status |
| `JobCoherence.LookupNeverMissesItsJob` | packages/aws-clients/src/ia_aws_clients/dynamodb_ingestion_job_repository.py:149-164 | in every reachable table find_by_fingerprint answers None exactly without a marker, and otherwise the owning job; its missing-job error is unreachable |
| `JobCoherence.MarkersMoveForward` | packages/aws-clients/src/ia_aws_clients/dynamodb_ingestion_job_repository.py:108-123 | one write leaves a marker alone, finishes it for its owner, hands a running one to a strictly larger token, or retries a failed one; nothing removes it |
| `JobCoherence.SucceededIsAbsorbing` | packages/aws-clients/src/ia_aws_clients/dynamodb_ingestion_job_repository.py:173-188 | a succeeded marker keeps its job and its token in every continuation |
| `JobCoherence.FingerprintIsPublishedAtMostOnce` | packages/aws-clients/src/ia_aws_clients/dynamodb_index_activation_repository.py:296-334 | after one committed activation, every later activation naming the fingerprint is rejected, whoever sends it and whatever happened in between |
| `DynamoRepositories.DynamoDocumentIngestionLeaseRepository.Acquire` | packages/aws-clients/src/ia_aws_clients/dynamodb_ingestion_lease_repository.py:27-79 | a grant takes effect on the table its conditional write meets and changes only the lease item; a refusal changes nothing and returns the blocking lease; the conflict and value errors occur in exactly the stated cases |
| `DynamoRepositories.DynamoDocumentIngestionLeaseRepository.Renew` | packages/aws-clients/src/ia_aws_clients/dynamodb_ingestion_lease_repository.py:81-120 | only an unexpired lease under the same owner, token and execution is prolonged, and only its expiry changes; the three value errors |
| `DynamoRepositories.DynamoDocumentIngestionLeaseRepository.Release` | packages/aws-clients/src/ia_aws_clients/dynamodb_ingestion_lease_repository.py:122-133 | the holder's release removes the item and with it the counter; any other release changes nothing |
| `DynamoRepositories.DynamoDocumentRepository.SaveExpecting` | packages/aws-clients/src/ia_aws_clients/dynamodb_document_repository.py:45-55 | a save with an expected revision succeeds exactly when the table it meets has that revision, and then stores the next one |
| `DynamoRepositories.DynamoDocumentRepository.Save` | packages/aws-clients/src/ia_aws_clients/dynamodb_document_repository.py:19-55 | a save without one creates the item if it is absent at the write, and otherwise swaps against the revision read last; every outcome under interference |
| `DynamoRepositories.DynamoDocumentRepository.Get` | packages/aws-clients/src/ia_aws_clients/dynamodb_document_repository.py:57-64 | returns the item exactly when it carries the identity asked for |
| `DynamoRepositories.DynamoIngestionJobRepository.Save` | packages/aws-clients/src/ia_aws_clients/dynamodb_ingestion_job_repository.py:29-43 | an accepted save leaves exactly this job stored; a fenced one is accepted when its conditions hold or the identical job is already there, and otherwise changes nothing; an unfenced one is an unconditional put |
| `DynamoRepositories.DynamoIngestionJobRepository.Submit` | packages/aws-clients/src/ia_aws_clients/dynamodb_ingestion_job_repository.py:45-68 | the first submission of an id is stored, a repeated one for the same document version returns what is stored, any other is a conflict |
| `DynamoRepositories.DynamoIngestionJobRepository.Claim` | packages/aws-clients/src/ia_aws_clients/dynamodb_ingestion_job_repository.py:70-138 | a claim replaces job and marker together when both conditions hold, and otherwise changes nothing and names the owner |
| `DynamoRepositories.DynamoIngestionJobRepository.FindByFingerprint` | packages/aws-clients/src/ia_aws_clients/dynamodb_ingestion_job_repository.py:149-164 | the two reads answer as the lookup function of the coherence results |
| `DynamoRepositories.RefusedClaimNamesTheOwner` | packages/aws-clients/src/ia_aws_clients/dynamodb_ingestion_job_repository.py:133-137 | what a refused claim is answered, others writing before the lookup: never the missing-job error; a conflict exactly without a marker, and then the stored job of that id stood in the way; otherwise an owner of this fingerprint, done or not older if the marker stood in the way |
| `DynamoRepositories.DynamoIndexActivationRepository.Activate` | packages/aws-clients/src/ia_aws_clients/dynamodb_index_activation_repository.py:43-101 | the table changes exactly when the transaction was executed with its five conditions true; an answered call says which; after a lost answer the outcome is decided by the four reads, others writing in between; a transaction that could commit and was not executed is never reported as a success unless others finish the same job meanwhile |
| `DynamoRepositories.DynamoIndexActivationRepository.ReconcileCommittedActivation` | packages/aws-clients/src/ia_aws_clients/dynamodb_index_activation_repository.py:122-208 | four reads at four moments, others writing in between: accepted exactly when each item read shows the activation, and then the document of the first read is returned |
| `DynamoRepositories.CommittedActivationIsFound` | packages/aws-clients/src/ia_aws_clients/dynamodb_index_activation_repository.py:141-206 | read back at once, a committed activation is recognised exactly when stored job and generation name the same document version, the fields that no condition of the transaction compares |
| `ProtocolSteps.MoveIsGood` | packages/application/src/ia_application/ingestion.py:119-284 | every step of a worker keeps the shared invariant and its own, and stays within what other workers rely on |
| `ProtocolInvariant.WorkerInvIsStable` | packages/application/src/ia_application/ingestion.py:119-284 | no step of one worker breaks what another worker knows at its program point |
| `ProtocolSteps.OutsideIsGood` | packages/application/src/ia_application/documents.py:219-249 | the same for registration, heartbeats and failure records made outside the protocol's programs |
| `PublicationTheorems.ActiveGenerationIsComplete` | packages/application/src/ia_application/ingestion.py:243-283 | in every interleaving, with crashes, takeovers and lost answers, the generation a document points to has all its chunks and vectors stored |
| `PublicationTheorems.DisplacedAttemptNeverCommits` | packages/aws-clients/src/ia_aws_clients/dynamodb_ingestion_job_repository.py:83-123 | once another attempt's claim has taken its fingerprint, no later save and no activation of an attempt commits, in any continuation |
| `PublicationTheorems.NegativeAnswerMeansReplaced` | packages/aws-clients/src/ia_aws_clients/dynamodb_index_activation_repository.py:141-208 | when a reconciling worker gives up although its transaction committed, its generation has been replaced and is never active again |
| `PublicationTheorems.ReadsMatchUntilReplaced` | packages/aws-clients/src/ia_aws_clients/dynamodb_index_activation_repository.py:141-208 | after a committed transaction each of the four reads matches for as long as the document points to the generation |
| `DocumentHistory.SuccessMeansCommitted` | packages/aws-clients/src/ia_aws_clients/dynamodb_index_activation_repository.py:90-101 | a worker goes on as successful only if the activation of its own generation committed earlier in the run |
| `DocumentHistory.PublishedMeansCommitted` | packages/aws-clients/src/ia_aws_clients/dynamodb_index_activation_repository.py:80-101 | a generation counts as published only through a committed activation in the run |
| `DocumentHistory.IndexedIffActive` | packages/aws-clients/src/ia_aws_clients/dynamodb_index_activation_repository.py:246-272 | in every state of every run a document is indexed exactly when it points to a generation |
| `DocumentHistory.DocumentsMoveForward` | packages/aws-clients/src/ia_aws_clients/dynamodb_document_repository.py:45-55 | over any stretch of a run revisions and last fencing tokens never decrease, and equal revisions mean equal documents |
| `DocumentHistory.EveryWriteIsExplained` | packages/application/src/ia_application/ingestion.py:195-205 | a document changes only by one of four writes, each raising the revision by exactly one and replacing the value its writer had read; only activation changes the active generation |
| `TableHistory.EventIsAWrite` | packages/aws-clients/src/ia_aws_clients/dynamodb_ingestion_job_repository.py:45-138 | the protocol refines the job writes: every step of every worker changes the table by one of the writes of the coherence results, so those hold in all its runs |
| `TableHistory.LookupNeverFails` | packages/aws-clients/src/ia_aws_clients/dynamodb_ingestion_job_repository.py:149-164 | in no state of any run does find_by_fingerprint end in its missing-job error |
| `TableHistory.OnePublicationPerFingerprint` | packages/aws-clients/src/ia_aws_clients/dynamodb_index_activation_repository.py:296-334 | two generations of one fingerprint that were ever published are the same generation |
| `TableHistory.ActivationCarriesNewestToken` | packages/aws-clients/src/ia_aws_clients/dynamodb_index_activation_repository.py:221-272 | a committing activation carries the newest token granted for its lease key |
| `TableHistory.ActivationTokensIncrease` | packages/aws-clients/src/ia_aws_clients/dynamodb_index_activation_repository.py:246-272 | the tokens of successive activations of one document version strictly increase |
| `FencingTokens.DurableCounterNeverRepeats` | packages/test-support/src/test_support/ingestion_coordination_fakes.py:45-60 | with a counter that survives release no run grants a token twice for one key, so no two attempts build one generation and every result above applies |
| `Redelivery.RunIsFresh` | packages/application/src/ia_application/ingestion.py:138-147 | with either lease repository, a run in which no two ingestions take up the same message (tenant, document, job) never builds one generation twice, whatever is submitted how often |
| `Redelivery.WithoutRedeliveryTheIndexIsComplete` | packages/application/src/ia_application/ingestion.py:243-283 | in every such run the generation a document points to has all its chunks and vectors stored, however often tokens restart |
| `TokenReuse.DynamoCanLoseTheActiveGeneration` | packages/application/src/ia_application/ingestion.py:338-355 | for every document and command there is a run with the DynamoDB lease repository that ends with the document pointing to a generation of which nothing is stored; the event is named at which it builds a generation a second time |
| `TokenReuse.PendingDeletionLosesTheIndex` | packages/application/src/ia_application/ingestion.py:338-355 | from every state in which a worker may take its lease and publish under a newer token, and another worker has still to delete a generation of the same id, there is a continuation that ends with the document pointing to that generation and nothing of it stored |
| `FencingTokens.DynamoRepeatsExactlyAfterRelease` | packages/aws-clients/src/ia_aws_clients/dynamodb_ingestion_lease_repository.py:51-74 | with the DynamoDB repository a grant repeats a token exactly when the key was leased before and its item is gone |
| `FencingTokens.TokensMakeGenerations` | packages/aws-clients/src/ia_aws_clients/dynamodb_ingestion_lease_repository.py:51-74 | a run with the DynamoDB repository that grants no token twice builds no generation twice, so that every publication result applies to it |
| `FencingTokens.DynamoRepeatsAToken` | packages/aws-clients/src/ia_aws_clients/dynamodb_ingestion_lease_repository.py:122-133 | a concrete run of the protocol in which a token is granted twice |
| `Republishing.StaleTokenNeverPublishes` | packages/aws-clients/src/ia_aws_clients/dynamodb_index_activation_repository.py:255-258 | an attempt whose token does not exceed the document's last fencing token never activates, in any continuation, whichever lease repository is used |
| `Republishing.PublishesIffTokenIsNewer` | packages/aws-clients/src/ia_aws_clients/dynamodb_index_activation_repository.py:246-272 | after every run a worker about to take a free lease, its document unchanged and its claim allowed, has a continuation in which its activation commits if and only if the token it will be granted is above the document's last one; with either lease repository |
| `Republishing.DurableCounterCanAlwaysPublish` | packages/test-support/src/test_support/ingestion_coordination_fakes.py:45-60 | with the durable counter that condition is met in every run |
| `Republishing.AfterReleaseOnlyTheUnpublished` | packages/aws-clients/src/ia_aws_clients/dynamodb_ingestion_lease_repository.py:51-74 | with the DynamoDB repository and no lease item, such a worker can publish if and only if the document was never published |
| `Republishing.RepublishingIsRejected` | packages/aws-clients/src/ia_aws_clients/dynamodb_ingestion_lease_repository.py:122-133 | for every document and two jobs there is a run that publishes it, gives the lease back, and leaves the second worker unable to publish in any continuation |
| `ReusedResults.ReuseIsRecordedForUnclaimedJobsOnly` | packages/application/src/ia_application/reliable_worker.py:245-268 | in every table the writes can reach, when find_by_fingerprint answers with another job that succeeded, its result is recorded by the DynamoDB job repository exactly for a job that has no fencing token of its own |
| `ReusedResults.ReuseStaysRefused` | packages/aws-clients/src/ia_aws_clients/dynamodb_ingestion_job_repository.py:29-43 | once refused, the result is refused in every continuation of the table: a job never loses its token, and a finished marker never changes |
| `ReusedResults.ReuseMayBeRefused` | packages/application/src/ia_application/reliable_worker.py:135-174 | for every document and command a run of the protocol ends with a failed job, to be delivered again, for which the published result of its fingerprint cannot be recorded |
| `BlockedClaims.BlockedUntilANewerToken` | packages/aws-clients/src/ia_aws_clients/dynamodb_ingestion_job_repository.py:108-123 | over every run: while a fingerprint is held by a running job that nobody works for, its marker does not change and nothing of it is published, until an attempt on it is granted a newer token or the job's failure is recorded from outside |
| `BlockedClaims.BlockedWhileLeasesAreGivenBack` | packages/aws-clients/src/ia_aws_clients/dynamodb_ingestion_lease_repository.py:122-133 | with the DynamoDB repository that lasts as long as attempts on the fingerprint find no lease item, in every continuation |
| `BlockedClaims.RetryMayClaimIffTokenIsNewer` | packages/aws-clients/src/ia_aws_clients/dynamodb_ingestion_job_repository.py:83-123 | after every run, the blocking job, delivered again, may claim its fingerprint if and only if the token it will be granted is above the marker's |
| `BlockedClaims.CancellationBlocksTheFingerprint` | packages/application/src/ia_application/reliable_worker.py:190-198 | for every document and command there is a run with the DynamoDB repository in which an attempt is cancelled, and the redelivered job finds its lease free and its claim refused |
| `InMemoryLeases.InMemoryDocumentIngestionLeaseRepository.Acquire` | packages/test-support/src/test_support/ingestion_coordination_fakes.py:33-60 | the three dictionaries after an acquire, granted or not, and the lease it returns |
| `InMemoryLeases.InMemoryDocumentIngestionLeaseRepository.Renew` | packages/test-support/src/test_support/ingestion_coordination_fakes.py:62-85 | renews exactly the unexpired lease held under the same owner, token and execution |
| `InMemoryLeases.InMemoryDocumentIngestionLeaseRepository.Release` | packages/test-support/src/test_support/ingestion_coordination_fakes.py:87-96 | removes lease and execution token of the holder and keeps the counter |
| `InMemoryLeases.TokensStrictlyIncrease` | packages/test-support/src/test_support/ingestion_coordination_fakes.py:45-60 | over any sequence of calls the tokens granted for one key strictly increase |
| `InMemoryLeases.OnlyReleaseOrExpiryEndsALease` | packages/test-support/src/test_support/ingestion_coordination_fakes.py:62-96 | a granted lease stands, renewals aside, until its holder's release or a grant that found it expired |
| `InMemoryLeases.MutualExclusion` | packages/test-support/src/test_support/ingestion_coordination_fakes.py:43-46 | under a clock that never runs back no acquire succeeds between a grant and the earlier of its renewed expiry and its own release |
| `Windows.PreferredBoundary` | packages/application/src/ia_application/chunking.py:130-138 | the end lies beyond the start and within reach; short of the proposed end it keeps the minimum length and sits on a paragraph break or a space |
| `Windows.BoundaryIsBest` | packages/application/src/ia_application/chunking.py:130-138 | no later paragraph break was in reach, and where the end is no paragraph break there was none and no later space |
| `Windows.SpansChain` | packages/application/src/ia_application/chunking.py:110-128 | raw windows: the cursor strictly advances, nothing is skipped, at most overlap_characters repeat, no window exceeds max_characters, the last ends with the text |
| `Windows.WindowsCoverTheText` | packages/application/src/ia_application/chunking.py:110-128 | every position of the text lies in a raw window |
| `Windows.FindSkipsWhitespace` | packages/application/src/ia_application/chunking.py:121 | the first occurrence of the stripped content from the cursor on is where it was cut |
| `Windows.WindowAt` | packages/application/src/ia_application/chunking.py:119-123 | stripping and searching emit exactly the span from the first to the last visible character of the window, or nothing |
| `Windows.ComputeWindows` | packages/application/src/ia_application/chunking.py:110-128 | the loop terminates and returns the windows of all raw windows in order |
| `Windows.WindowsAreExact` | packages/application/src/ia_application/chunking.py:119-123 | an emitted window is the text between its offsets, begins and ends visibly, is not empty and not longer than max_characters |
| `Windows.WindowsAreOrdered` | packages/application/src/ia_application/chunking.py:119-123 | the starts of emitted windows never decrease |
| `Windows.NoVisibleCharacterIsLost` | packages/application/src/ia_application/chunking.py:110-128 | every non-whitespace position lies in an emitted window |
| `Normalization.BreakEnd` | packages/application/src/ia_application/chunking.py:12 | the greedy match of the paragraph-break pattern at a position: it is a match, and none is longer |
| `Normalization.Normalize` | packages/application/src/ia_application/chunking.py:101-108 | the loop returns the normalised text of the functions the next rows are about |
| `Normalization.NormalizationKeepsVisible` | packages/application/src/ia_application/chunking.py:101-108 | normalising keeps the exact sequence of non-whitespace characters |
| `Normalization.NormalizationIsIdempotent` | packages/application/src/ia_application/chunking.py:101-108 | normalising twice is normalising once |
| `Normalization.FixedTextsAreNormal` | packages/application/src/ia_application/chunking.py:101-108 | the texts it leaves alone are exactly the joins of clean paragraphs by one empty line |
| `Chunking.Chunk` | packages/application/src/ia_application/chunking.py:42-89 | a foreign extraction is refused; otherwise the chunks are the windows of all sections in order, numbered from zero |
| `Chunking.ChunksAreExcerpts` | packages/domain/src/ia_domain/models.py:241-246 | the validators of a chunk can never fail: its end lies beyond its start, its content is not empty and within its bounds, and it is an excerpt of a section |
| `Chunking.ChunksShowEverything` | packages/application/src/ia_application/chunking.py:42-89 | no visible character of any section is lost between its content and the chunks of that section |
| `Chunking.ChunkIdsAreDistinct` | packages/application/src/ia_application/chunking.py:140-159 | two chunks of one call digest different material, whatever their sections and contents hold |
| `Chunking.GenerationIdsAreDistinct` | packages/application/src/ia_application/ingestion.py:477-484 | fingerprint, job id and token can be read back from the material of a generation id |
| `VectorStore.Distinct` | packages/aws-clients/src/ia_aws_clients/s3_vector_manifests.py:51 | merging keeps every key and each one once |
| `VectorStore.DistinctKeepsOrder` | packages/aws-clients/src/ia_aws_clients/s3_vector_manifests.py:51 | the merged keys stand in the order of their first occurrences |
| `VectorStore.S3VectorRepository.RecordKeys` | packages/aws-clients/src/ia_aws_clients/s3_vector_manifests.py:43-60 | the manifest grows by the new keys, or is untouched when the call fails |
| `VectorStore.S3VectorRepository.UpsertGeneration` | packages/aws-clients/src/ia_aws_clients/s3_vectors.py:165-186 | at every point where it may break off, what is stored is listed in the manifest and nothing else changed; completed, it has the effect of storing the records in order |
| `VectorStore.S3VectorRepository.Upsert` | packages/aws-clients/src/ia_aws_clients/s3_vectors.py:91-102 | invalid records are refused before anything is written; completed, the records are stored in the order given; broken off anywhere, some owners are done, one in part and the others untouched, every older vector and manifest entry is still there, and every new vector is one of the records and is listed |
| `VectorStore.S3VectorRepository.DeleteGeneration` | packages/aws-clients/src/ia_aws_clients/s3_vectors.py:116-132 | only vectors of the manifest go, the manifest goes last, and a broken deletion leaves the rest recoverable |
| `VectorStore.S3VectorRepository.DeleteDocument` | packages/aws-clients/src/ia_aws_clients/s3_vectors.py:104-114 | completed, no vector and no manifest of the document is left, and vectors of other documents are untouched |
| `VectorStore.RunKeepsRecoverable` | packages/aws-clients/src/ia_aws_clients/s3_vectors.py:116-186 | after any run of upserts and deletions, complete or broken off anywhere, and of late vectors that their manifest still lists, every stored vector is in its generation's manifest |
| `VectorStore.LateVectorIsRecoverableIffListed` | packages/aws-clients/src/ia_aws_clients/s3_vectors.py:165-186 | a vector that lands late leaves the store recoverable if and only if the manifest of its generation still lists it |
| `VectorStore.LateVectorIsForgotten` | packages/aws-clients/src/ia_aws_clients/s3_vectors.py:116-132 | a vector that lands when its manifest does not list it is neither removed nor listed by any run of upserts and deletions that does not store the same vector again |
| `VectorStore.CompletedDeletionRemovesAll` | packages/aws-clients/src/ia_aws_clients/s3_vectors.py:116-132 | after any such run one completed deletion removes every vector of the generation and nothing else |
| `ChunkStore.S3ChunkStore.PutBatch` | packages/aws-clients/src/ia_aws_clients/s3_chunk_store.py:116-148 | mixed batches are refused untouched; at every point of a batch, objects in any order, the stored objects stay recoverable |
| `ChunkStore.S3ChunkStore.DeleteKeys` | packages/aws-clients/src/ia_aws_clients/s3_json_store.py:122-138 | deletes nothing but the given keys, and all of them when no batch reports errors |
| `ChunkStore.S3ChunkStore.DeleteGeneration` | packages/aws-clients/src/ia_aws_clients/s3_chunk_store.py:182-208 | works through the manifest, or through a listing of the generation when there is none, and removes the manifest last |
| `ChunkStore.S3ChunkStore.DeleteDocument` | packages/aws-clients/src/ia_aws_clients/s3_chunk_store.py:170-180 | exactly the generations of the document that have a manifest go; completed, no manifest of it is left; objects of other documents, and objects that landed after their generation was deleted, stay |
| `ChunkStore.RecoverableExactlyWhenCovered` | packages/aws-clients/src/ia_aws_clients/s3_chunk_store.py:129-141 | a batch leaves every object findable exactly when no object of the generation lies outside it |
| `ChunkStore.SecondBatchForgetsTheFirst` | packages/aws-clients/src/ia_aws_clients/s3_chunk_store.py:129-141 | a concrete second batch that makes an earlier object unfindable |
| `ChunkStore.CompletedDeletionRemovesAll` | packages/aws-clients/src/ia_aws_clients/s3_chunk_store.py:182-208 | after any run of batches, late object writes and broken deletions one completed deletion removes every object of the generation and nothing else |
| `Base64Url.ComponentRoundTrip` | packages/aws-clients/src/ia_aws_clients/s3_json_store.py:170-179 | a non-empty component decodes to what it encodes, and holds neither separator |
| `ObjectKeys.KeyInjective` | packages/aws-clients/src/ia_aws_clients/s3_json_store.py:165-167 | equal keys come from equal part lists, whatever their arity |
| `ObjectKeys.ListedExactly` | packages/aws-clients/src/ia_aws_clients/s3_vector_manifests.py:102-103 | a listing under a key and a slash shows exactly the keys that extend it |
| `ObjectKeys.ListingDecodesToRecordedGenerations` | packages/aws-clients/src/ia_aws_clients/s3_vector_manifests.py:97-104 | listing under a document's prefix and decoding the last segment gives exactly the generations recorded for that tenant and document |
| `ObjectKeys.VectorKeyInjective` | packages/aws-clients/src/ia_aws_clients/s3_vectors.py:283-295 | distinct vectors have distinct keys |
| `CompositeKeys.CompositeRoundTrip` | packages/aws-clients/src/ia_aws_clients/dynamodb_document_codec.py:31-35 | a length-prefixed concatenation of any number of parts determines the parts |
| `CompositeKeys.DistinctItemsHaveDistinctKeys` | packages/aws-clients/src/ia_aws_clients/dynamodb_document_codec.py:47-91 | documents, jobs, fingerprints, leases and generations never share a primary key, within a kind or across kinds |
| `Canonical.SameText` | packages/aws-clients/src/ia_aws_clients/dynamodb_control.py:342-369 | values that differ in the order of dictionary entries and of set elements only, at any depth, have canonical forms with the same JSON text |
| `Canonical.EqualPayloadsHaveEqualTokens` | packages/aws-clients/src/ia_aws_clients/dynamodb_control.py:73-111 | transactions that differ in that order only have the same token |
| `Canonical.CanonicalIsIdempotent` | packages/aws-clients/src/ia_aws_clients/dynamodb_control.py:342-369 | the canonical form of a canonical form is itself |
| `CanonicalText.CanonicalTextDetermines` | packages/aws-clients/src/ia_aws_clients/dynamodb_control.py:104-110 | the JSON text of a canonical form determines the form: no string, number or bracket of one can be read as part of another |
| `PayloadIdentity.SameTextIffSame` | packages/aws-clients/src/ia_aws_clients/dynamodb_control.py:342-369 | two values have the same canonical text if and only if they differ in the order of entries and set elements only, binary data being what it is written as |
| `PayloadIdentity.TokensIdentifyPayloads` | packages/aws-clients/src/ia_aws_clients/dynamodb_control.py:73-111 | two requests have the same digested text, and so the same token as far as the shortened digest is injective, if and only if they have the same namespace and the same actions in that sense |
| `PayloadIdentity.BinaryCollides` | packages/aws-clients/src/ia_aws_clients/dynamodb_control.py:364-365 | the one exception: binary data and the dictionary it is written as are different values with the same text |
| `TextOrder.SortedUnique` | packages/aws-clients/src/ia_aws_clients/dynamodb_control.py:351-360 | two arrangements of the same elements sorted by distinguishing keys are equal |
| `InMemoryStores.InMemoryIngestionJobRepository.Claim` | packages/test-support/src/test_support/ingestion_coordination_fakes.py:132-157 | a fingerprint goes to a newer token or to anyone once it failed; a refusal changes nothing and returns its owner; conflicts in exactly the stated case |
| `InMemoryStores.InMemoryIngestionJobRepository.Save` | packages/test-support/src/test_support/ingestion_coordination_fakes.py:104-115 | a save is refused exactly when it is stale, and then changes nothing |
| `InMemoryStores.InMemoryDocumentRepository.Save` | packages/test-support/src/test_support/index_storage_fakes.py:184-201 | create, compare-and-swap and conflict, with the resulting dictionary |
| `InMemoryStores.InMemoryIndexActivationRepository.Activate` | packages/test-support/src/test_support/ingestion_coordination_fakes.py:186-232 | refused exactly when a check fails, and then without effect; unlike the transaction it may stop after two of its three writes, exactly when the job is stale |
| `InMemoryStores.InMemoryChunkStore.PutBatch` | packages/test-support/src/test_support/index_storage_fakes.py:126-128 | all chunks are stored, or a prefix of them when a put raises |
| `InMemoryStores.InMemoryVectorRepository.Upsert` | packages/test-support/src/test_support/index_storage_fakes.py:27-30 | all records are stored, or a prefix of them when a put raises |
| `Embedding.EmbedChunks` | packages/application/src/ia_application/ingestion.py:286-336 | one record per chunk, in order, each with the vector that was answered for its text, of the declared dimension and finite |
| `Embedding.RecordBatch` | packages/application/src/ia_application/ingestion.py:304-335 | a batch is accepted exactly when all its vectors are of the declared dimension and finite |
| `SequentialIngest.DocumentIngestionService.Materialize` | packages/application/src/ia_application/ingestion.py:207-219 | a foreign or empty extraction is an invalid extraction; otherwise chunks and records are those of the extraction |
| `SequentialIngest.DocumentIngestionService.Publish` | packages/application/src/ia_application/ingestion.py:220-266 | completed, the whole world after an activation, the previous generation still there; stopped by any failure or a cancellation, the candidate stored in part and the document as prepared |
| `SequentialIngest.DocumentIngestionService.Recover` | packages/application/src/ia_application/ingestion.py:267-284 | from every partial world the except block reaches exactly the rolled-back one, save for the calls that raise; cancelled in between, the rest of it is not done |
| `SequentialIngest.DocumentIngestionService.Ingest` | packages/application/src/ia_application/ingestion.py:119-284 | every end of a run with the whole world it leaves, whichever foreign calls raise, with lease renewals at every await and a cancellation at any of them: failed, undone as far as clean-up succeeded; succeeded, exactly the candidate stored; cancelled, what had not been done is not done; escaped, an error outside the guarded part with the job, once claimed, still running; in each case the lease is gone unless giving it back raised |
| `SequentialWorlds.ExactlyOneRecordPerChunk` | packages/application/src/ia_application/ingestion.py:213-221 | after a success each chunk is stored under its own key with its own record beside it, and nothing else is stored for the candidate, whatever became of the supersession |
| `SequentialWorlds.OnlyThePreviousGenerationGoes` | packages/application/src/ia_application/ingestion.py:259-265 | after a success and a supersession without errors the previous generation has nothing stored and every other generation has what it had |
| `SequentialWorlds.FailureIsAtomic` | packages/application/src/ia_application/ingestion.py:267-284 | a failed attempt whose clean-up meets no error leaves both stores exactly as they were, the generation and the job stored as failed, and the document, if it was marked for the attempt, marked as failed |
| `SequentialWorlds.FailureKeepsTheIndex` | packages/application/src/ia_application/ingestion.py:267-284 | after a failure, whatever also went wrong in its clean-up, or an error of the preparation, the document points to what it pointed to and every other generation is stored as before |
| `SequentialWorlds.CancellationKeepsTheIndex` | packages/application/src/ia_application/reliable_worker.py:190-198 | wherever an attempt is cancelled, either the same holds or the document points to the completely stored candidate |
| `SequentialWorlds.ChunksLeaveNoTrace` | packages/application/src/ia_application/ingestion.py:338-355 | chunks of a new generation, stored in part and then deleted, leave the store as it was |
| `SequentialWorlds.FreshCandidate` | packages/application/src/ia_application/ingestion.py:152-155 | a token that was never granted makes a generation under which nothing is stored |
| `Worker.DocumentIngestionWorker.ConfigureTiming` | packages/application/src/ia_application/reliable_worker.py:83-107 | the three periods are accepted together or not at all, exactly when heartbeats come before lease and visibility run out |
| `Heartbeats.Heartbeat.Run` | packages/application/src/ia_application/reliable_worker.py:200-243 | turns until one fails or the heartbeat is cancelled: nothing but the expiry of the job's own lease changes, and the message is extended exactly once for each turn that did not fail |
| `Heartbeats.Heartbeat.Turn` | packages/application/src/ia_application/reliable_worker.py:214-243 | without a running job or a lease to renew it is lost and nothing changes; otherwise the lease is renewed, and then the message is extended unless that raises |
| `Worker.DocumentIngestionWorker.IngestWithHeartbeat` | packages/application/src/ia_application/reliable_worker.py:176-198 | an ingestion with turns of the heartbeat between its steps; lost, it is cancelled there; the stores stay known and the jobs filed in every case, and a job reported as succeeded is stored so |
| `Worker.DocumentIngestionWorker.Conclude` | packages/application/src/ia_application/reliable_worker.py:135-174 | what run_once makes of each end of ingest; a retryable failure is raised again with the job stored as failed; a cancelled ingestion is the lost heartbeat; an escaped error is let through with the jobs unchanged |
| `Worker.DocumentIngestionWorker.RunOnce` | packages/application/src/ia_application/reliable_worker.py:109-174 | composed with the real service and its heartbeat: a message is acknowledged exactly when the answer is True, and then its job is absent, belongs to another document, or is stored as succeeded or failed; a fingerprint published by another job is recorded, or refused exactly when the job has a fencing token |

## Left out

- HTTP routes, settings, container wiring, authentication, chat, usage and profile repositories, and deployment code: no hard invariants.
- Vector queries and similarity scores: floating-point arithmetic; a vector component is finite or not.
- The bytes of UTF-8, the text of timestamps and of JSON numbers, and SHA-256 itself: taken to be injective functions.
- Durable deletion: the deleting and deleted states have no implemented transition.
- Unfenced job saves in the coherence results and in the protocol: they are unconditional puts, and one that overwrites a claimed job breaks coherence; the repository contract covers them.
- Reconciliation reads that fail: the reads of the model answer, and the fate of a lost transaction is settled when the error surfaces.
- The answer of find_by_fingerprint at the start of a protocol attempt, and the early returns of submit_ingestion for an existing job: they only end an attempt before it takes a lease, so the model lets the attempt end there at any time.
- Uploads, source inspection and the queue inside submit_ingestion: foreign calls between its table writes; the table writes are modelled.
- Fields of documents and jobs that no step of the protocol reads (titles, roles, checksums, profile revisions) are folded into one metadata field or dropped.
- Real asyncio scheduling: interleaving is arbitrary. In the protocol a cancelled worker gives its lease back at once, and whatever its unfinished call may still do is any further steps of its own, which is more than the source does.
- Pagination of object listings, and the length limit of vector keys: single foreign calls and one-branch checks.
- Lenient decoding: foreign base64 text that no component produces is rejected by the model's decoder.
- Concurrent upserts of one generation: the manifest is read, merged and written back, so two writers could lose keys; a generation has one writer because its id carries job and token.
- PublicationTheorems.ActiveGenerationIsComplete: assumes that no two attempts build one generation, which always holds for the durable counter and may fail with the DynamoDB repository when a message is delivered again; the results on displaced attempts and reconciliation answers assume the same, and a run that breaks the assumption and the result is given.
- SequentialWorlds.CancellationKeepsTheIndex: the two deletions of a clean-up, and those of a supersession, run side by side in the source; here one follows the other, and a cancellation may fall between them; the protocol has them interleave with everything else.
- PayloadIdentity.TokensIdentifyPayloads: a token is represented by the text that is digested; that the first 36 hex digits of its SHA-256 differ for different texts is assumed.
- TokenReuse.PendingDeletionLosesTheIndex: one direction; that nothing is lost is proved from the absence of repeated generations, not state by state.
- Errors of the calls that ingest does not guard are modelled one at a time, each with no effect of the call that raised; the protocol has writes that take effect and then report an error.
- CanonicalText.CanonicalTextDetermines: the text of a number is given, and taken to be free of the characters that separate JSON values.
