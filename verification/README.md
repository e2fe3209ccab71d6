# ByteHangar: a verified model

ByteHangar keeps two stores that must agree: database rows (files, variants, grants, usage counters,
webhook deliveries, catalog versions, tenant secrets) and a blob store that takes no part in
transactions. This project models the code that keeps them in step and proves what it promises, in
Dafny 4.11. `dafny verify dfyconfig.toml` checks everything.

## The parts

**File lifecycle** (`Lifecycle*.dfy`, `Tally.dfy`, `Keys.dfy`, `FileOps.dfy`). A state machine over rows, blobs, grants,
counters, the event ledger, uploads in flight, the holder of the GC advisory lock and running
reconciliations. Every statement or store call that others can observe is one step; a transaction
takes effect at its commit, and the row locks and the advisory lock it holds before that are guards
on the steps of others. Uploads, deletes, restores, sweeps (also those that roll back after deleting
blobs), reconciliations and crashes interleave freely. `LifecycleBase`, `LifecycleTracked`,
`LifecycleSafety`, `LifecycleAccounts` and `LifecycleGrants` hold the inductive invariants,
`LifecycleTheorems` the results over all runs. `FileOps` carries out one request at a time as the
handlers do, with the exact condition for success and the exact error; `LifecycleRequests` shows that
the machine's own steps, when nothing interrupts them, do the same.

The comment at the top of `gc/mod.rs` (lines 3-5) calls reclamation race-free because duplicates are
looked up among live files only, and the one at lines 254-255 says that reconciliation's re-check
closes its race independently of the grace window. Neither holds: the lookup is not in the transaction
that inserts the row, and a row can commit between the re-check and the delete. What an interleaving
has to respect is written as four assumptions (`Care` in `LifecycleTracked`): no sweep *counts* a key
that an upload has adopted and not yet settled; no sweep *purges* such a key; uploads *settle* within a
given time of their blob's date; and no reconciliation runs with a smaller *grace*, which the handler's
floor of a minute guarantees when uploads settle within a minute. A run is careful when it respects all
four. `LifecycleExact` shows that these are
exact: from an empty server live files stay readable in all runs if and only if the runs respect all
four, and reconciliation spares every referenced blob if and only if they respect the last three. Each
"only if" is a run given step by step (`LifecycleRace`, `LifecycleExact`). `CommitStaysReadableIff` is
the local form: a commit outside the assumptions leaves live files readable for good exactly when its
key is still stored and neither a sweep nor a reconciliation has already decided to delete it. A
tombstone inside its retention window may have lost its bytes to the sweep of an older sibling, so the
blob guarantee is about live files.

**Collection on its own** (`Gc.dfy`). One sweep, or one reconciliation, without interleaving, as the
loops of the code run it. `broken` names the keys whose delete fails; such a sweep rolls its row
purges back and keeps its blob deletes. `LifecycleSweep` shows that an uninterrupted sweep
or reconciliation of the lifecycle machine is this one.

**Variant cache** (`Variants.dfy`, `VariantCache.dfy`, `Transform.dfy`). All requests interleaved, with presets
redefined and any blob or row taken away at any time, which covers every interleaving with
collection and reconciliation; one request at a time; and (`VariantRun.dfy`) one request's steps in the machine when
nothing interrupts them. Rendering is a function of the bytes and
the preset.

**Webhook queue** (`Webhooks.dfy`, `Batch.dfy`). Workers claim rows under a lease, crash, and lose
status writes. The results over whole runs need each claim to end before its lease; `Batch` shows when
a batch does and composes the two. `LateBatchOverwritesDelivered` is the run that goes wrong without it, and
`FinalIffUnheld` the exact condition for one status to be final in any run at all.

**Rate limiter** (`RateLimit.dfy`, `RateWindow.dfy`), **writers and streaming** (`BlobStore.dfy`, `Streaming.dfy`),
**catalog** (`Ordering.dfy`, `Catalog.dfy`, `Canonical.dfy`, `Registry.dfy`), **key rotation** (`Secrets.dfy`,
`Rotation.dfy`).

## Idealisations

- SHA-256 is injective: a digest is its preimage (`Digest`, `VariantKey`, the catalog text). AES-GCM is ideal: an
  envelope opens under its own key only. Nonces of envelopes are not represented.
- Timestamps are whole seconds and come from one clock that does not run backwards; the date of a blob is any time up to the end of its writing; the rate limiter
  uses exact reals for seconds and tokens in place of 64-bit floats.
- The outcome of a commit is known to its caller. Blob store calls are atomic.
- The advisory lock is held until the sweep or restore that took it has stopped. File ids, nonces and temporary
  names are fresh.
- The result of a call to the outside (store, database, receiver, image decoder) is a parameter or a
  nondeterministic step.

## Model

| member | source | states |
|---|---|---|
| LifecycleTheorems.LiveFilesAreReadable | server/src/files/mod.rs:213-316 | In every state of every run that respects the four assumptions, the grace covering the time uploads have or that time being at most the floor of 60 seconds, each live row's blob is present with exactly the row's size and checksum, for any interleaving of uploads, deletes, restores, sweeps, aborted sweeps, reconciliations and crashes |
| LifecycleExact.LiveFilesStayReadableIff | server/src/gc/mod.rs:115-151 | From an empty server live files stay readable in all runs if and only if runs respect all four assumptions: dropping any one admits a run, given step by step, that ends with a live file without bytes |
| LifecycleTheorems.CommitStaysReadableIff | server/src/files/mod.rs:214-228 | Live files stay readable in every careful run after an upload's commit if and only if its key is still stored, no sweep is about to delete it and no reconciliation is about to remove it |
| LifecycleTracked.RespectsIff | server/src/gc/mod.rs:115-151 | What the assumptions rule out, and all they rule out: a count or a purge of a key that an upload under way took over from another row, a clock past or a blob dated before the time an upload has, a grace shorter than that time, be it asked for, the default hour or the floor of a minute |
| LifecycleTheorems.ReconcileTakesOnlyOrphans | server/src/gc/mod.rs:233-281 | Where uploads settle within the grace and no sweep purges an adopted key, a blob that reconciliation deletes is referenced by no row at that moment, live or in the trash, and by no row that any later step commits; sweeps may count and delete adopted keys |
| LifecycleExact.ReconcileSparesIff | server/src/gc/mod.rs:233-303 | Reconciliation spares every referenced blob in all runs if and only if no sweep purges an adopted key, uploads settle in time, and the grace asked for, or else the floor of a minute, covers that time |
| LifecycleExact.SlowUploadLoses | server/src/gc/mod.rs:254-275 | The re-check does not close the race: an upload that outlives the grace commits between re-check and delete, and its live row is about to lose its blob |
| LifecycleExact.PurgeLoses | server/src/gc/mod.rs:135-151 | With counts, uploads and grace in order, the purge of an adopted key alone brings reconciliation to a live row's blob |
| LifecycleTheorems.UsageIsConserved | server/src/usage/mod.rs:15-83 | In every state of every run used bytes equal the live row sizes and also the ledger's upload + restore - delete, object count equals the live rows, and a fixed positive quota is never exceeded |
| LifecycleTheorems.ClampsNeverFire | server/src/usage/mod.rs:61-83 | The clamps at zero in a delete never decide: the counter always covers the row given back |
| LifecycleTheorems.GrantsAreSingleUse | server/src/files/mod.rs:236-252 | Over every run a nonce yields one row at most, ever, pruned or not, in a transaction begun before it expired, and the row has the minted tenant, policy, category and visibility, a type outside the denylist and on both lists unless they are empty, and a size within both caps |
| LifecycleTheorems.KeysAreTenantScoped | server/src/files/mod.rs:388-397 | Rows that share a stored key belong to the tenant the key names |
| LifecycleSafety.SafeStep | server/src/gc/mod.rs:115-151 | Every careful step keeps the safety invariant: live rows and the targets of uploads have blobs, and what a sweep is about to delete no live row and no upload needs |
| LifecycleTracked.TrackedStep | server/src/gc/mod.rs:233-281 | Steps that respect the last three assumptions keep adopted keys on a surviving row, and what reconciliation is about to remove clear of rows and uploads |
| LifecycleTracked.OldBlobIsSettled | server/src/gc/mod.rs:240-262 | A listed blob past the grace window that no row refers to is no longer on any in-flight upload's way to a row |
| LifecycleAccounts.AccountsStep | server/src/files/mod.rs:253-290 | Every step keeps books, row-lock reservations and quotas: of the transactions that checked a tenant's quota one at most is open, and what it saw is still true when it commits |
| LifecycleGrants.GrantsStep | server/src/gc/mod.rs:354-356 | Every step, pruning included, keeps single use: a nonce that gave a row is consumed or gone for good |
| LifecycleRace.AdoptionCanLoseTheBlob | server/src/gc/mod.rs:3-5 | From every reachable state in which an upload is about to look up the only live row on a key that a sweep may take up, can consume its grant, and finds no other upload holding its tenant's counter, some run leaves a live row without bytes, with or without a quota, whoever holds the advisory lock, and whatever the retention window if an older sibling is past it, or else if the row was committed before the cutoff and a delete begun in between takes it |
| LifecycleExact.RaceFreeRemarkFails | server/src/gc/mod.rs:3-5 | Such a run exists from an empty server, for every tenant, policy and type that lets a byte through; its delete begins after the row was committed |
| LifecycleRequests.UninterruptedUpload | server/src/files/mod.rs:213-316 | In the interleaving machine an upload whose body is stored can be finished by its own steps: it commits if its grant is unused and unexpired and the quota has room, on a live duplicate's key if there is one, with the row, counter, ledger entry and consumed grant written out, and otherwise leaves nothing but what it could not delete |
| LifecycleRequests.UninterruptedRestore | server/src/files/mod.rs:1007-1055 | A restore that finds the locks free brings the row back and meters it if and only if the row is in the trash, its bytes are there and the quota has room; otherwise everything is as before |
| LifecycleRequests.DeleteIff | server/src/files/mod.rs:1058-1087 | A delete goes through if and only if the row is live, stamps it with the start of its transaction, and takes exactly its bytes and one object off the counter |
| Keys.StoredPathReadsBack | server/src/files/mod.rs:383-397 | A stored key determines its tenant and its file id, whatever the extension |
| Keys.StoredPathInjective | server/src/files/mod.rs:383-397 | Two stored keys are equal only if tenant, category, year, month, file id and extension are |
| Keys.VariantKeyInjective | server/src/files/mod.rs:611-616 | A variant key determines the original and the preset signature |
| FileOps.Service.FinishUpload | server/src/files/mod.rs:213-316 | After streaming, an upload succeeds if and only if its grant is unused and unexpired and the quota has room, with the exact error otherwise; it then inserts one row, on a live duplicate's key exactly when there is a duplicate and else on its own, with every field, the counter and the ledger written out; its own blob goes exactly when it has a duplicate or is refused, and the delete works; invariants are kept |
| FileOps.Service.DeleteFile | server/src/files/mod.rs:1058-1087 | Tombstones exactly a live row of the tenant, gives back exactly its bytes and one object, else not found and nothing changes |
| FileOps.Service.RestoreFile | server/src/files/mod.rs:1007-1055 | Refuses what is not in the trash, what lost its bytes, what exceeds the quota, in that order and without effect; otherwise the row is live, readable and metered again |
| FileOps.Service.MintGrant | server/src/grants/mod.rs:35-81 | The nonce row and the signed claims agree, live for the seconds requested or else configured, held between 30 and 3600, and carry the policy's fields |
| FileOps.RestoreUndoesDelete | server/src/files/mod.rs:1007-1087 | Delete then restore leaves rows and counters as they were, nets to zero in the ledger, and is never refused for quota |
| FileOps.StoredUnder | server/src/files/mod.rs:213-228 | The key a dedup adopts holds the very bytes uploaded, and dropping the own blob does not touch it |
| Gc.Hangar.RunGc | server/src/gc/mod.rs:81-171 | A sweep without interleaving succeeds if and only if every due blob can be deleted; then a row is gone if and only if it is a tombstone from before the cutoff, and of the tenant if one is named; the blobs gone are those of such rows that no live row refers to, and their variants that no row refers to, each counted once, in whatever order; a failed one changes no row and loses due blobs only |
| Gc.Hangar.RunReconcile | server/src/gc/mod.rs:223-288 | Deletes and counts exactly the listed blobs that no row refers to and that are known to be old enough, none in a dry run, and stops at one it cannot delete, having lost no other blob |
| Gc.GlobalSweepPurgesExpired | server/src/gc/mod.rs:98-150 | Surviving rows are exactly those live or deleted at or after the cutoff |
| Gc.WhoLosesTheBlob | server/src/gc/mod.rs:115-163 | A surviving row loses its bytes if and only if no live row holds its key and a sibling was due; live rows and surviving variants never do |
| Gc.SecondSweepIsIdle | server/src/gc/mod.rs:87-171 | A second sweep at the same cutoff finds and does nothing |
| Gc.RetryCompletes | server/src/gc/mod.rs:54-58 | Retrying after a failed sweep ends exactly where one undisturbed sweep would have |
| Gc.TenantOrderIsIrrelevant | server/src/gc/mod.rs:90-113 | Sweeping all tenants one by one in any order equals one global sweep, in rows, variant rows and deleted blobs |
| LifecycleSweep.UninterruptedSweepIsGc | server/src/gc/mod.rs:81-171 | A sweep of the lifecycle machine that nothing interrupts purges the rows and deletes the blobs that the sweep run on its own does, in whatever order it takes its keys |
| LifecycleSweep.UninterruptedSweepPurges | server/src/gc/mod.rs:81-171 | After a sweep of the lifecycle machine that nothing interrupts a row is gone if and only if it was a tombstone from before the cutoff, of the tenant if one is named, and a blob if and only if such a row held it and no live row did |
| LifecycleSweep.UninterruptedReconcileIsGc | server/src/gc/mod.rs:223-288 | A reconciliation of the lifecycle machine that nothing interrupts, and that takes up every listed key it can, deletes exactly the blobs that the one run on its own deletes over the same listing |
| LifecycleSweep.UninterruptedReconcileTakes | server/src/gc/mod.rs:223-303 | After a reconciliation that nothing interrupts and that takes up all it can, a blob is gone if and only if it was listed with a date, no row referred to it, and it was older than the grace asked for, or an hour if none was, and at least a minute |
| LifecycleSweep.SweepStaysInItsTenant | server/src/gc/mod.rs:115-163 | In every reachable state a tenant's sweep purges exactly that tenant's due rows and reclaims no blob that another tenant's file or variant refers to, although its queries do not name the tenant |
| Variants.ServedIsDirect | server/src/files/mod.rs:586-680 | Whatever a request streams, in any interleaving, is the rendering of the original under the preset it read, with that rendering's type, length and checksum; not-modified goes only to a client that named that checksum |
| Variants.ServedRendersUpload | server/src/files/mod.rs:586-680 | In a run in which certain bytes were uploaded under the path of a file, whatever is streamed for it later is the rendering of those bytes under the preset the request read |
| VariantRun.UninterruptedRequest | server/src/files/mod.rs:571-764 | In every reachable state a request that arrives can be answered by at most 16 steps of its own whenever its row is current and the blob is there or its checksum named, or the original can be rendered: not-modified if and only if the client named the checksum or any, else the rendering; the cache is untouched if it sufficed, and otherwise holds the rendering, the row points to it, and the blob the row pointed to is gone if and only if no other row does |
| Variants.InvStep | server/src/files/mod.rs:684-764 | Every step keeps each cached blob equal to the rendering its key stands for and each row a true description |
| Variants.KeyOfInjective | server/src/transform/mod.rs:97-104 | A cache key stands for one original and one preset, all fields of it |
| Variants.SharedVariantsShareOriginals | server/src/files/mod.rs:611-616 | Rows that share a variant blob belong to files that share an original, and agree on type, size and checksum |
| VariantCache.Server.ServeVariant | server/src/files/mod.rs:571-680 | One request alone answers exactly as rendering on demand would, from the cache when it can: when the row is current or the original can be rendered, not-modified if and only if the client named the rendering's checksum or any, else the rendering unless cached bytes and original are both gone; only its own row and blobs change; what was served stays cached; a full hit changes nothing; no blob is left without a row |
| VariantCache.Server.RenderAndCache | server/src/files/mod.rs:684-764 | Stores the rendering, upserts the row, and deletes the superseded blob if and only if no other row refers to it |
| VariantCache.RenderLeaksNothing | server/src/files/mod.rs:743-757 | A redefined preset leaves no variant blob without a row |
| Transform.CacheSignatureInjective | server/src/transform/mod.rs:97-104 | Changing any field of a preset changes its signature |
| Transform.SignatureHasNoSeparator | server/src/transform/mod.rs:97-104 | A signature holds no bar, comma or line feed |
| Transform.CoverCropFits | server/src/transform/mod.rs:178-194 | The crop lies in the source, spans one whole axis, is centred to within a pixel, and the upper clamp never decides |
| Transform.CoverCropIsLargest | server/src/transform/mod.rs:184-191 | On the other axis it is the largest whole number of pixels not exceeding the target ratio, or one |
| Transform.CoverCropHoldsExactRatios | server/src/transform/mod.rs:178-194 | Every rectangle of exactly the target ratio that fits in the source fits in the crop |
| Transform.CoverCropDoesNotOverflow | server/src/transform/mod.rs:184-191 | With 32-bit dimensions no product exceeds 64 bits and the crop fits 32 |
| Webhooks.NoTwoHolders | server/src/webhooks/mod.rs:108-123 | While claims end before their lease no two batches hold the same delivery |
| Webhooks.TerminalStatesStick | server/src/webhooks/mod.rs:160-208 | Then delivered and failed never change again, although no write checks the status |
| Webhooks.ErrorIsRetried | server/src/webhooks/mod.rs:140-219 | In every prompt run a recorded error before the sixth attempt leaves the delivery pending, in nobody's hands and due 5, 30, 120, 600 or 3600 seconds later by attempt; the sixth, and a blocked target, fail it |
| Webhooks.OutcomesDecide | server/src/webhooks/mod.rs:110-208 | With no outcome lost every claim ended in one outcome or is still held, and a delivery is failed if and only if six claims ended in errors or one was blocked, delivered if and only if one was acknowledged, and pending otherwise |
| Webhooks.AttemptsAreBounded | server/src/webhooks/mod.rs:110-208 | Attempts exceed 6, and acknowledged requests exceed 1, by lost outcomes only; delivered means acknowledged, and with nothing lost failed means never acknowledged |
| Webhooks.SixClaimsSettle | server/src/webhooks/mod.rs:181-197 | With no outcome lost a delivery is claimed six times at most and is settled once the sixth claim ends |
| Webhooks.SettledInTime | server/src/webhooks/mod.rs:211-219 | With no outcome lost and pick-up within d seconds, every delivery settles within six leases, six pick-ups and the five backoffs |
| Webhooks.FinalIffUnheld | server/src/webhooks/mod.rs:160-208 | In any state, with or without prompt claims, a settled status is final in all continuations if and only if no batch still holds the row |
| Webhooks.LateBatchOverwritesDelivered | server/src/webhooks/mod.rs:199-208 | Without the lease assumption a delivered row can become failed |
| Batch.BatchEnds | server/src/webhooks/mod.rs:125-131 | In every greedy schedule n deliveries of at most t seconds through c slots end within ceil(n/c) rounds of t |
| Batch.BoundIsMet | server/src/webhooks/mod.rs:125-131 | That bound is exact: deliveries of t seconds each form a greedy schedule that needs all of it |
| Batch.BatchEndsBeforeItsLease | server/src/webhooks/mod.rs:30-35 | A batch of 20 through 8 slots ends before its lease when it starts while three deliveries still fit |
| Batch.PlannedRunIsPrompt | server/src/webhooks/mod.rs:28-35 | Batches of at most the claim limit, run through the worker's slots and begun while three deliveries still fit the lease, give runs in which every claim ends before its lease, as the results on the queue assume |
| RateLimit.RateLimiter.Check | server/src/rate_limit.rs:44-81 | Disabled admits all; otherwise the client's tokens, a full capacity if it has no bucket, grow by rate x seconds since its last call up to the capacity, the call is admitted if and only if that is at least 1, which it then takes; eviction only for a new client over 100000 buckets; the map keeps its bound |
| RateLimit.EvictedMeans | server/src/rate_limit.rs:88-101 | An eviction leaves exactly the buckets seen in the last 600 seconds or, when those exceed 100000, exactly 90000 of them, none older than one it drops |
| RateWindow.WindowBoundIff | server/src/rate_limit.rs:62-101 | In every window of every history a client that the hard-cap phase spares is admitted at most capacity + rate x length times, if and only if 600 x rate covers the capacity; otherwise a history given call by call admits twice the capacity within ten minutes |
| RateLimit.WindowBound | server/src/rate_limit.rs:68-81 | The bound itself, for the limiter with eviction |
| RateLimit.ReferenceWindow | server/src/rate_limit.rs:68-81 | The same bound, without condition, for a limiter that never evicts |
| RateLimit.SpacedCallsAreAdmitted | server/src/rate_limit.rs:68-81 | Calls at least 1/rate apart are never refused, whatever is evicted |
| RateLimit.EvictionIsUnobservable | server/src/rate_limit.rs:62-71 | When 600 x rate covers the capacity a client that the hard-cap phase spares gets the answers of a limiter that never evicts |
| RateLimit.IdleDropIsInvisibleIff | server/src/rate_limit.rs:88-92 | Dropping any idle bucket is invisible if and only if 600 x rate covers the capacity |
| RateLimit.MapIsBounded | server/src/rate_limit.rs:62-66 | The map never exceeds the cap plus one |
| BlobStore.S3Writer.Write | server/src/blob/mod.rs:411-417 | Appends the chunk to what was written, sending full parts only |
| BlobStore.S3Writer.Commit | server/src/blob/mod.rs:419-437 | Commits the bytes written as parts 1..n, all but the last at least 5 MiB, or nothing; the service never has a reason to refuse the list |
| BlobStore.LocalWriter.Commit | server/src/blob/mod.rs:200-207 | The file appears under its key with the bytes written, or nothing appears |
| BlobStore.SendOne | server/src/blob/mod.rs:385-407 | One more part keeps the numbering and the concatenation, and makes an acceptable list whatever its size |
| Streaming.StreamField | server/src/files/mod.rs:331-441 | For any chunking and either backend: with no failing store call an upload succeeds if and only if it is acceptable, and then commits exactly the concatenated chunks and reports their size and checksum and the type sniffed, else declared, else application/octet-stream; on S3 in parts 1..n of at least 5 MiB but the last; failure commits nothing |
| Streaming.AcceptableIff | server/src/files/mod.rs:343-380 | An upload is acceptable if and only if its body arrives whole, is neither empty nor over the cap, neither its sniffed nor its declared type is denylisted, and the type kept is on the server's and on the policy's list unless those are empty; the head sniffed is the shortest run of chunks with 8192 bytes, or all |
| Streaming.RefusalIs | server/src/files/mod.rs:343-415 | Which refusal, in order: a broken or oversized head (bad request, too large), an empty body (bad request), a denylisted type or one not on the server's list (forbidden), one not on the policy's (bad request), a later broken or oversized chunk |
| Canonical.CanonicalIff | server/src/catalog/mod.rs:201-223 | Over a given set of characters the hash tells any two valid catalogs apart, up to reordering, if and only if types are neither empty nor hold commas, no bars in keys meet line feeds in keys or bars in types, and no bars meet line feeds in types; each of the five exceptions has two valid, different catalogs with one hash |
| Canonical.HashIsCanonical | server/src/catalog/mod.rs:135-223 | Over such characters sorted catalogs hash alike if and only if they are reorderings of policies, types and transforms |
| Catalog.ReorderingHashesAlike | server/src/catalog/mod.rs:135-145 | Any reordering hashes alike, whatever the strings |
| Catalog.CatalogHash | server/src/catalog/mod.rs:201-223 | The loop appends one line per policy, in order |
| Catalog.AcceptedIff | server/src/catalog/mod.rs:93-143 | A catalog is accepted if and only if it has a policy, no two share a key, and every one has a key that is not blank, a category of 1 to 64 characters of a-z, 0-9 and -, a size limit from 1 to the server's, a valid visibility, and transforms with valid names and presets, each rule written out |
| Catalog.RefusalIs | server/src/catalog/mod.rs:93-143 | The error names an empty catalog, else what is wrong with the first offending policy, else a repeated key |
| Registry.Store.Register | server/src/catalog/mod.rs:88-199 | Refuses with the exact error, or answers unchanged and leaves everything, or adds version n+1 and replaces the table by one row for each policy, its fields written out |
| Registry.UninterruptedRegistration | server/src/catalog/mod.rs:149-199 | In every state racing registrations can reach, one that nothing interrupts adds the next version and exactly the rows of its policies, or changes nothing when the newest version has its text |
| Registry.TableMatchesNewestVersion | server/src/catalog/mod.rs:149-193 | However registrations race, versions run 1..n and the policies table is what version n hashes |
| Registry.RacingCommitsExclude | server/src/catalog/mod.rs:184-193 | Of two registrations that read the same newest version one at most ever commits |
| Registry.UnchangedIffReordering | server/src/catalog/mod.rs:152-166 | Registering is a no-op if and only if the request reorders the newest catalog, both being over characters that `CanonicalIff` clears |
| Secrets.ReencryptKeepsMeaning | server/src/secrets.rs:55-64 | Re-encryption seals the same text under the current key, to be read without the previous one, or gives up, exactly on envelopes that hold nothing, the empty text, or what neither key opens |
| Secrets.EncryptReadsBack | server/src/secrets.rs:67-112 | Encryption reads back, except for text that starts with enc:v1: while no key is configured, and exactly when not |
| Secrets.PreviousCanBeDropped | server/src/secrets.rs:85-112 | A value reads the same without the previous key unless that key sealed it |
| Rotation.Database.RotateSecrets | server/src/tenants/mod.rs:459-534 | Whatever the outcome and the interleaved changes, every secret reads as what was last meant; after success all are sealed under the current key and read so under it alone; undisturbed, the number failed is the number of stuck tenants, the rest are rotated, and it succeeds if and only if none is stuck |
| Rotation.Database.RotateOne | server/src/tenants/mod.rs:473-514 | A tenant is left exactly as it was if it fails, and fails if and only if one of its envelopes reads as empty |
| Rotation.ChangesAreRead | server/src/tenants/mod.rs:98-137 | Concurrent creations, changes and deletions store what they mean |

## Left out

- HTTP routing, extractors, multipart parsing, CORS, audit rows, metrics and the admin listings.
- SQL and the database engine: statements are atomic steps; row locks, the advisory lock, primary keys, the snapshot of a restarted `UPDATE` and the foreign-key cascade are rules of the model.
- Signed URLs, HMAC, JSON, base64, image decoding and resampling, content sniffing and the choice of extension: functions or arbitrary values.
- Directory walking and listing pagination: a reconciliation lists any subset of the store, entry by entry.
- SSRF checks, DNS, the download callback, the schedulers, configuration and start-up; the SDK and the React adapter.
- `file_ref`, attribution metadata, original names, quota changes after creation, and the webhook row that an upload or delete inserts in its own transaction are not part of the lifecycle state.
- LifecycleTheorems.LiveFilesAreReadable: needs the four assumptions of `Care`, since the code enforces none of them; `LiveFilesStayReadableIff` shows that each is needed.
- LifecycleTheorems.ReconcileTakesOnlyOrphans: needs the assumptions on purges, uploads and grace; `ReconcileSparesIff` shows that each is needed.
- LifecycleTheorems.UsageIsConserved: the quota part is for a quota fixed when the tenant is created, as lowering one below current use is allowed.
- FileOps.Service.FinishUpload: a request is one call, so interleaving is the business of the lifecycle machine, which works on values; `LifecycleRequests` ties the two.
- RateLimit.WindowBound: needs 600 x rate to cover the capacity, which `WindowBoundIff` shows to be exact; clients dropped by the hard-cap phase are excluded.
- RateWindow.WindowBoundIff: the failing history is for a whole number of tokens, as the configuration has it.
- BlobStore.LocalWriter.Commit: flush and rename are each all or nothing, aborting always removes the temporary, and the service's own limit on the number of parts is not represented.
- Transform.CoverCropFits: a source without pixels, which is scaled without cropping, has no crop to speak of.
- Rotation.Database.RotateSecrets: all writers run with the same keys, webhook rows queued earlier keep the key they were sealed with, and DeleteTenant stands for any removal of a tenant row.
- Variant rows and variant keys do not appear in the lifecycle machine, where rendered blobs come and go freely; the collector's handling of them is in `Gc` and their contents in `Variants`.
