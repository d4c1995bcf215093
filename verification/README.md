# Duro, verified

Duro keeps artifacts in two stores: a content-addressed file store, which publishes a blob by staging it, hashing it,
syncing it, hard-linking it to its digest's path and syncing the chain of directories above it; and a PostgreSQL
ledger, to which a put then appends one observation event. This project models the protocol of each, their
composition, and the smaller algorithms around them, and proves what they promise over every run.

How the model is laid out:

- **The file store as a protocol.** `Filesystem` is a filesystem that can crash: a namespace as processes see it, the
  part of it that has reached the disk, and file inodes that are synced or not. `CasProtocol` is the state machine:
  any number of processes, each at one program point of `Open`, `Write`/`WriteFile`, `GetToWriter` or `GetToFile`,
  interleaved one system call at a time (`Step`), where each call may fail (`Fault`), any process may die, the kernel
  may write anything back at any time, and the machine may crash and lose any entries and bytes that are not on disk.
  The initial store is arbitrary: unsynced directories, unsynced or corrupt blobs, leftover temporaries. A get may
  have any destination, the store's own paths included. What each process knows at each program point is
  `CasInvariant.Known`; `CasSteps` shows that each step establishes it for its own process, and that no step disturbs
  another's; `CasReachable` carries it over every run; `CasTheorems` draws the promises from it, `CasProgress` says
  what can hinder a put or a get, and `CasWitness` builds the runs that show where a promise ends.
- **The file store as code.** `CasCode`, `CasOperations` and `CasGets` are the methods of `pkg/cas` in imperative form
  over a `Host` with a disk, between whose system calls other processes may run (`Yield`). Each method is proved to be,
  call by call, a run of the protocol that ends where its result says, so the theorems about runs are theorems about
  the code; and each error is proved to have a reason. `HashingCopy` is the copy loop on its own, with a bounded
  64-bit count, short writes and data returned together with EOF.
- **The ledger.** `Ledger` is the machine of transactions: a client begins, inserts, sends COMMIT, and gets an answer,
  or none, from a server that decides on its own. `MayAnswer` is the rule the environment is trusted to follow; it
  speaks of what the server means (a failed statement, the end of a session, the end of the server), while the clients
  see only how it is worded. `LedgerTheorems` shows what the reported outcomes mean, and what they need of the
  wording; `LedgerCode` is `Append` and `append_event` as code.
- **Both together.** `Artifact` composes the two machines into one, with puts among other store operations and other
  appends; `ArtifactTheorems` states what a put's report means; `PutCode` is `Put` as code, proved to extend a run of
  the composed machine.
- **The rest.** `Roles` and `Provisioning` (who may write), `Initialize` and `InitializeCode` (the advisory lock),
  `EventId` (UUIDs), `EventType` and `Utf8` (the event-type rule in three languages), `StorePaths`, `Identity`,
  `Octets`, `Wrappers`, `FreshNames`.

SHA-256 is a parameter, an arbitrary function from byte strings to 32 octets. Only where equality of bytes is claimed,
or where a put is to succeed over what others stored, is it assumed that the files (and processes) of the run at hand
hold no other bytes with the same digest.

Where the code does not do what is claimed for it, the model keeps the code, a lemma names an input, and another says
exactly when the claim holds:

- A comment in `GetToFile` (pkg/cas/cas.go:516-517) has the destination's entry survive a crash. Only the destination's
  own directory is synced, so it does if and only if that directory is on disk with all above it
  (`CasTheorems.DeliveredSurvivesIff`, `CasWitness.DeliveredIsLost`).
- `GetToFile` takes any destination. At another digest's path it puts other bytes there, and in the staging directory it
  leaves a name behind (`CasWitness.IntactIff`, `CasWitness.GetTearsBlob`, `CasWitness.StagingIff`).
- `classifyCommitErr` tells the end of a session by the text of the severity, which a server may translate
  (`LedgerTheorems.GoSoundIff`, `LedgerTheorems.MisreportedIff`).
- `append_event` has no branch for a COMMIT that is answered with a ROLLBACK tag (`LedgerTheorems.PythonSoundIff`,
  `LedgerTheorems.PythonTrustsRollbackTag`).
- A provisioned reader may become eligible to write later (`Roles.ReaderStaysOverIff`, `Roles.ReaderLosesEligibility`).

Check it with `dafny verify dfyconfig.toml --resource-limit 2000000 --verification-time-limit 0`.

## Model

| member | source | states |
|---|---|---|
| `CasTheorems.KeptForever` | pkg/cas/cas.go:289-323 | Once `Write` or `WriteFile` has returned nil, fresh or deduplicated, from any initial store: in every later state of every run (other puts and gets, failing calls, deaths, crashes) at the path of the SHA-256 hex of the put's bytes there is a synced file of as many bytes with that same hash, and its bytes and every directory entry from the filesystem root to it are on disk. |
| `CasTheorems.NoTornBlobEver` | pkg/cas/cas.go:261-280 | In every reachable state, crashes included, of every run in which no get has a digest's path as its destination: whatever Duro linked at a digest's path is complete, synced and hashes to that digest; only files that were there before the run can be otherwise. |
| `CasWitness.IntactIff` | pkg/cas/cas.go:504-509 | Which destinations keep that: every run whose gets all go to one destination keeps every blob intact, if and only if the destination is no digest's path (two short byte strings having different hashes). |
| `CasWitness.GetTearsBlob` | pkg/cas/cas.go:504-509 | The input that fails: a get of one digest to the path of another, which then holds the first one's bytes. |
| `CasReachable.FetchLinkTearsIff` | pkg/cas/cas.go:504-509 | Step by step: the link of a get tears a blob if and only if its destination is the path of a digest other than the one it fetched. |
| `CasTheorems.AtMostOneFresh` | pkg/cas/cas.go:295-322 | Over a whole run, with crashes and failures, two puts of one digest that both report `deduped=false` are the same put. |
| `CasProgress.ExactlyOneStoresFresh` | pkg/cas/cas.go:295-322 | Without faults, over a digest absent at the start and with no get's destination on its path: once some put has read the bytes with nothing in its way, and all operations have completed, exactly one put reports `deduped=false` (no file of the run holding other bytes with that digest). |
| `CasTheorems.NamesUntouched` | pkg/cas/cas.go:282-288 | No action but a crash changes an existing name, or the bytes under it, except the acting process's own temporary: neither a published blob nor a destination that exists or that a racer created. |
| `CasTheorems.PublishedUnchangedOver` | pkg/cas/cas.go:282-323 | Over any crash-free stretch of any run, every name under `sha256` that is no fetch's temporary keeps its inode and its bytes. |
| `CasTheorems.BlobKeptOrLost` | pkg/cas/cas.go:282-323 | Over any run with any crashes, a digest's path whose file was synced keeps that file and its bytes until a crash takes the path away: it denotes something else only if it was lost and linked anew. |
| `CasTheorems.CorruptBlobNeverKept` | pkg/cas/cas.go:298-310 | While the bytes at a digest's path are corrupt or of another size, no put of that digest and size has returned or returns success, and until a crash those bytes stay as they are. |
| `CasTheorems.StagingRestored` | pkg/cas/cas.go:261-280 | For every schedule of failures in which no process dies with a temporary, each unlink succeeds and no get has its destination in the staging directory: between two states with no put in progress the staging directory holds exactly the same names. |
| `CasWitness.StagingIff` | pkg/cas/cas.go:484-489 | Which destinations keep that: every such run whose gets all go to one destination leaves the staging directory as it was, if and only if the destination is not in it. |
| `CasTheorems.VisibleOnlyComplete` | pkg/cas/cas.go:475-518 | Each file name that appears is a new temporary on a new file, or is linked complete: synced bytes that hash to the digest being published; nothing but a step of a process makes a file name appear. |
| `CasTheorems.StreamedIsVerified` | pkg/cas/cas.go:453-467 | In every reachable state, over any initial store, a `GetToWriter` that returned nil delivered bytes that hash to the digest. |
| `CasTheorems.FetchedIsDelivered` | pkg/cas/cas.go:475-518 | A `GetToFile` that has returned nil since the last crash has its destination linked to its own file, with synced bytes that hash to the digest and the entry on disk, wherever the destination lies. |
| `CasTheorems.DeliveredSurvivesIff` | pkg/cas/cas.go:516-518 | What a crash leaves of it: the delivered destination survives every crash if and only if its directory is on disk with all above it, which the code does not see to. |
| `CasTheorems.DeliveredForever` | pkg/cas/cas.go:516-518 | If the destination's directory was on disk with all above it in some earlier state, before the call say, a destination delivered into it stays delivered in every later state, crashes included, and no later get to it returns nil. |
| `CasWitness.DeliveredIsLost` | pkg/cas/cas.go:516-518 | Else it can be lost: for any destination whose directory lies in one that neither `Open` nor the get syncs, a run in which the get returns nil and a crash takes the destination. |
| `CasTheorems.AtMostOneFetch` | pkg/cas/cas.go:504-515 | Of any number of gets to one destination at most one has returned nil since the last crash; across crashes see `DeliveredForever`. |
| `CasReachable.RunInvariant` | pkg/cas/cas.go:289-323 | The invariant of every run from any valid disk, with gets to any destination: each process knows what its program point needs, and no two own one file. |
| `CasReachable.RunKeepsStaging` | pkg/cas/cas.go:261-280 | As long as no get has its destination there, the staging directory holds exactly the abandoned names and one for each put in progress. |
| `CasReachable.StepNames` | pkg/cas/cas.go:289-323 | The only name a system call adds is the one its program point is about, and the only one it removes is its own temporary. |
| `CasSteps.StepSound` | pkg/cas/cas.go:261-518 | Each system call of each operation re-establishes what the process knows at its next program point, and stays within what the other processes rely on. |
| `CasSteps.FaultSound` | pkg/cas/cas.go:261-518 | So does each failing one, including a write that put a part of its chunk into the file. |
| `CasInvariant.Stable` | pkg/cas/cas.go:289-323 | What one process knows is not disturbed by what another may do. |
| `CasReachable.CrashKeeps` | pkg/cas/cas.go:174-179 | A crash that drops any set of entries and bytes that are not on disk keeps the invariant, and with it everything that was reported as stored. |
| `Filesystem.DurablePathSurvives` | pkg/cas/cas.go:174-179 | An entry whose whole chain is on disk survives a crash with that chain still on disk. |
| `Filesystem.SurvivesIffDurable` | pkg/cas/cas.go:174-179 | An entry survives every crash if and only if the whole chain above it is on disk. |
| `Filesystem.LostDirectoryStaysEmpty` | pkg/cas/cas.go:174-179 | A directory lost in a crash takes everything below it along, and is empty when it is made again. |
| `CasProgress.ClearStays` | pkg/cas/cas.go:293-310 | No action of any process but a crash gets in the way of a put, short of a get whose destination lies there: no file comes to lie where a shard directory must be, and what appears at the digest's path is these bytes (no file holding others with that digest). |
| `CasProgress.EmptyTreeIsClear` | pkg/cas/cas.go:112-142 | Over a store that holds nothing yet, nothing is in the way of any put. |
| `CasProgress.UndisturbedPutSucceeds` | pkg/cas/cas.go:289-323 | With nothing in its way, a put that has read its bytes, whose own calls do not fail and that does not die, stores them if it finishes, whatever other processes do, failing and dying included, short of a get to a destination on its path, without a crash. |
| `CasProgress.UndisturbedGetSucceeds` | pkg/cas/cas.go:453-467 | A `GetToWriter` of stored bytes whose own calls do not fail and that does not die delivers exactly them if it finishes, without a crash. |
| `CasProgress.UndisturbedFetchSucceeds` | pkg/cas/cas.go:475-518 | A `GetToFile` of stored bytes whose own calls do not fail and that does not die, to a destination with a directory and a free name that nobody else takes, ends, if it ends without a crash, with the destination delivered and holding exactly them, whatever other processes do. |
| `CasOperations.OpenStore` | pkg/cas/cas.go:112-142 | `Open`: a run of the protocol; nil only with both store directories and every entry above them on disk; an error only if a call failed or something else lies in a directory's place. |
| `CasOperations.SyncChainUp` | pkg/cas/cas.go:180-194 | `syncChain`: terminates; on nil it has fsynced exactly the chain of directories, in order; on failure a proper prefix of it, and a call did fail. |
| `CasOperations.StageTemp` | pkg/cas/cas.go:261-280 | `stageTemp`: on success the temporary holds exactly the source's bytes and is synced; it fails only if a call or the source fails or the bytes cannot be counted in an int64. |
| `CasGets.VerifyStored` | pkg/cas/cas.go:382-419 | `Verify` with any digest and size: nil only if bytes of that size with that digest were read; an error only for a failing call or if the store does not hold such bytes. |
| `CasOperations.ScriptIsSource` | pkg/cas/cas.go:226-253 | What the store's copy takes in from a script of reads is what `hashingCopy` delivers of it, byte for byte, with the same end, and the digest the store uses for it is the one `hashingCopy` returns. |
| `CasOperations.LinkStaged` | pkg/cas/cas.go:295-314 | The link: done, or the name was taken, or the call failed; nothing else. |
| `CasOperations.MakeDurable` | pkg/cas/cas.go:311-322 | The durability tail runs on the fresh and on the dedup path alike, over the blob and the whole chain to the store root. |
| `CasOperations.Publish` | pkg/cas/cas.go:289-323 | `publish`: keeps the blob only after link or verification, sync of the blob and of the chain; it gives up only for a failing call or an obstruction of its path. |
| `CasOperations.WriteFile` | pkg/cas/cas.go:329-378 | `WriteFile` (and `Write`, without a size): the receipt's digest is the hex hash of all the source's bytes and its size their number, the one seen at open, and they are on disk with every entry above them; there is no receipt only for a stated reason. |
| `CasGets.GetToWriter` | pkg/cas/cas.go:453-467 | `GetToWriter`: nil only if everything written hashes to the digest; if no call fails and the stored bytes verify, it is nil, whatever others do meanwhile. |
| `CasGets.GetToFile` | pkg/cas/cas.go:475-518 | `GetToFile`, to any destination: on nil the destination is new, verified, synced, its entry on disk; alone and with its unlink done, for every way the other calls fail the namespace is what it was plus at most the destination; an existing destination is untouched; in any company each error has its reason. |
| `CasGets.GetArtifact` | pkg/artifact/artifact.go:154-160 | `artifact.GetToWriter`: nil only if the identity is `sha256:` and the hex hash of all the bytes written; a malformed identity touches nothing. |
| `CasGets.FetchArtifact` | pkg/artifact/artifact.go:143-149 | `artifact.GetToFile`: nil only if the identity is `sha256:` and the hex hash of the destination's bytes; a malformed identity or an existing destination changes nothing. |
| `CasGets.GetBack` | pkg/artifact/artifact.go:154-160 | In whatever later state, a get of the identity of what a put stored succeeds unless one of its own calls fails, and delivers exactly the bytes that were put (unless it has come upon others with their digest). |
| `CasGets.FetchBack` | pkg/artifact/artifact.go:143-149 | So does a get to a file, in any company, unless a call fails, the destination has no directory, or its name was seen taken meanwhile. |
| `CasCode.Host.NowKnown` | pkg/cas/cas.go:289-323 | Between any two calls of the code, whatever ran in between, the disk is as the code's next call needs it. |
| `CasCode.Host.StillUnhindered` | pkg/cas/cas.go:293-310 | Over any continuation without a crash, a put that nothing hindered is still not hindered. |
| `HashingCopy.Copy` | pkg/cas/cas.go:226-253 | `hashingCopy` over real int64 counts and any script of reads and writes (data together with EOF, short writes): on nil the destination got the whole stream, the digest is its hash, the count its length; on error a prefix, counted exactly; the count never wraps; it terminates, and without a failure it succeeds on every stream whose length an int64 can hold. |
| `StorePaths.BlobPathIs` | pkg/cas/cas.go:200-206 | A digest's blob is at `sha256/`, its first two characters, the next two, and the digest, under the store root; the staging directory is `.tmp`. |
| `StorePaths.BlobPathsApart` | pkg/cas/cas.go:200-206 | `Path` is injective, no blob path lies above another, and none meets the staging directory. |
| `StorePaths.ChainIsAncestors` | pkg/cas/cas.go:180-194 | A directory is in the chain if and only if it is an ancestor of the start, or the start, and not above a stop that is one. |
| `StorePaths.ChainOnce` | pkg/cas/cas.go:180-194 | The chain starts at the start and climbs, so visits no directory twice. |
| `StorePaths.ChainCoversBlob` | pkg/cas/cas.go:316-321 | For every digest, the chain of `publish` contains the directory of each entry on the blob's path below the store root, and of no other entry of that path. |
| `StorePaths.WalkSyncs` | pkg/cas/cas.go:165-194 | A walk of fsyncs leaves what processes see unchanged, puts exactly the visible entries of each visited directory on disk, and no other entry. |
| `Identity.ValidDigest` | pkg/cas/cas.go:49-61 | Accepts exactly the strings of 64 lowercase hex characters. |
| `Identity.ParseIdentity` | pkg/cas/cas.go:71-81 | The parse of the code, loop included, is the specification's. |
| `Identity.IdentityRoundTrip` | pkg/cas/cas.go:63-81 | Parsing yields a digest if and only if the identity is that digest formatted, which is `sha256:` followed by it. |
| `Identity.HexOfSumIsDigest` | pkg/cas/cas.go:252-252 | Every digest the copy loop can emit is well-formed. |
| `Octets.HexInjective` | pkg/cas/cas.go:252-252 | Hex encoding of octets of equal number is injective. |
| `LedgerTheorems.OutcomeSound` | pkg/postgres/store.go:459-490 | From the moment an append returns, in every later state: a success of the Go client means exactly one row, with its event, and so does one of the Python client unless a ROLLBACK tag answered it; `not_committed` means none, unless the wording of the answer hid the end of the session; a failed validation means none; never more than one. |
| `LedgerTheorems.Conservation` | pkg/postgres/store.go:459-490 | In every reachable state, for both clients together: successes <= rows, but for Python calls that a ROLLBACK tag answered; and rows <= successes + unknowns + calls pending or killed, but for calls told `not_committed` by an answer that hid the end of the session. |
| `LedgerTheorems.PromisesKept` | pkg/postgres/store.go:520-539 | What the source promises, of a server that words every severity untranslated and sends no Python client a ROLLBACK tag: a success has exactly one row, `not_committed` and a failed validation none, for ever, and successes <= rows <= successes + unknowns + calls pending or killed. |
| `LedgerTheorems.TaggedIff` | python/duro/__init__.py:78-93 | The successes excepted above are exactly the Python calls that a ROLLBACK tag has answered. |
| `LedgerTheorems.AppendOnly` | pkg/postgres/store.go:450-458 | No action removes or changes a row. |
| `LedgerTheorems.NotCommittedIff` | pkg/postgres/store.go:540-555 | By the characters seen, for both clients: a server error is reported `not_committed` if and only if its severity is not FATAL or PANIC, its SQLSTATE does not begin with 08 and is not 57P01, 57P02 or 57P03, and, for the Python client, is not empty; every other one, and a silence, as unknown. |
| `LedgerTheorems.ReturnedIff` | pkg/postgres/store.go:459-490 | Over any run, a call has returned an outcome if and only if some action ended it so: failed validation as invalid, a failed connection or INSERT as `not_committed`, a COMMIT certainly not sent as `not_committed`, one that may not have been as unknown, and an answered one as the answer is classified. |
| `LedgerTheorems.UnknownIsInconclusive` | pkg/postgres/store.go:520-539 | Of the readable answers, those that end both a run that committed the row and one that did not are reported as unknown; and besides those only some failed statements are. |
| `LedgerTheorems.GoSoundIff` | pkg/postgres/store.go:540-555 | What `classifyCommitErr` makes of an answer is right about every transaction that can get the answer, if and only if the end of a session or of the server shows in its wording: an untranslated severity FATAL or PANIC, an SQLSTATE beginning with 08, or 57P01 to 57P03. |
| `LedgerTheorems.MisreportedIff` | pkg/postgres/store.go:540-555 | Some run reports `not_committed` and has the row, if and only if the answer's wording hides the end of a session or of the server. |
| `LedgerTheorems.PossibleIff` | pkg/postgres/store.go:540-555 | An answer can end a run with the row, or without it, exactly if the environment rule lets it follow a commit, or an abort. |
| `LedgerTheorems.PythonSoundIff` | python/duro/__init__.py:122-132 | The same for the Python client: what it makes of an answer is sound if and only if the wording shows the level, or there is no SQLSTATE, and it is not a ROLLBACK tag. |
| `LedgerTheorems.PythonTrustsRollbackTag` | python/duro/__init__.py:78-93 | The input that fails there: after a ROLLBACK tag the Python client reports a success without a row, the Go client a non-commit. |
| `Ledger.RunInvariant` | pkg/postgres/store.go:459-490 | In every reachable state each call's stage fits its transaction (a call whose answer hid the end of the session was told of a non-commit; a Python call that took a ROLLBACK tag for a success has an aborted one), and the rows are exactly those of committed transactions, one each. |
| `LedgerCode.Append` | pkg/postgres/store.go:459-490 | `Append` is a run of the ledger machine and returns the outcome the run records: a success has exactly its row, an unknown outcome at most that, `not_committed` none unless the wording of the answer hid the end of the session; invalid events never reach the server; without faults a valid one is committed. |
| `LedgerCode.AppendEvent` | python/duro/__init__.py:38-93 | So is `append_event`, which closes its connection on every path, validates code points, and takes a ROLLBACK tag for a success: but for that, a success has its one row, whose event type decodes to exactly the caller's code points and passes the Go check and both CHECK constraints. |
| `ArtifactTheorems.EventNamesSafeBlob` | pkg/artifact/artifact.go:111-138 | In every reachable state of any runs of puts, gets and appends: each event a put has in flight or committed, and each row it left, names a digest whose blob has the recorded size and digest and is wholly on disk, with a host that is not empty and a host and path that are UTF-8. |
| `ArtifactTheorems.PutSound` | pkg/artifact/artifact.go:111-138 | What `Put` reported stays true in every later state: a receipt means exactly one row, this observation; a plain error means none; `not_committed` means none, unless the wording of the answer hid the end of the session; and with a receipt or a `PutError` the bytes are wholly on disk. |
| `ArtifactTheorems.PutConservation` | pkg/artifact/artifact.go:127-138 | In every reachable state: receipts <= puts with a row <= receipts + unknowns + puts running or killed, and puts told `not_committed` by an answer that hid the end of the session. |
| `ArtifactTheorems.PutPromisesKept` | pkg/artifact/artifact.go:111-138 | Of a server that words its answers untranslated, without that exception: `not_committed` means no row, for ever, and receipts <= puts with a row <= receipts + unknowns + puts running or killed. |
| `ArtifactTheorems.ReportStays` | pkg/artifact/artifact.go:111-138 | A put's report never changes once made, nor whether it was misled. |
| `ArtifactTheorems.ReportIff` | pkg/artifact/artifact.go:127-138 | In every reachable state: a put reports `not_committed` if and only if its append has returned a confirmed non-commit, `unknown` if and only if it has returned an unknown outcome, and a receipt if and only if it succeeded; each names `sha256:` and the hex hash of the stored bytes, and their number; and the unknowns counted above are the puts whose append returned unknown. |
| `Artifact.ObservationAlwaysValid` | pkg/artifact/artifact.go:39-39 | The observation event always passes the client-side event-type check. |
| `Artifact.ObservationType` | pkg/artifact/artifact.go:39-39 | Its type is the bytes of `artifact.observed`. |
| `ArtifactTheorems.RoundTrip` | pkg/artifact/artifact.go:143-160 | After a receipt for bytes b, in every later state in which no file or process holds other bytes with b's digest: parsing the identity gives the digest, the store holds exactly b under it, and each get of it that returned nil delivered exactly b. |
| `ArtifactTheorems.PutThenGet` | pkg/artifact/artifact.go:154-160 | End to end: after a receipt for bytes b, whatever ran and crashed since, a `GetToWriter` of the receipt's identity whose own calls do not fail and that no crash interrupts ends, if it ends, by having delivered exactly b (no file holding other bytes with b's digest when it begins). |
| `ArtifactTheorems.PutThenFetch` | pkg/artifact/artifact.go:143-149 | And so does a `GetToFile`, to a destination with a directory and a free name that nobody else takes: it ends, if it ends, with the destination delivered and holding exactly b. |
| `ArtifactTheorems.CorruptBlobHasNoEvent` | pkg/artifact/artifact.go:111-114 | While what is stored at a digest is corrupt or of another size, there is no call and no row of any put whose event names that digest with that size. |
| `Artifact.JointRunInvariant` | pkg/artifact/artifact.go:85-138 | In every reachable state of the composed machine a put's append carries the observation of the blob that this put stored, of a named host and a path that are UTF-8, and never fails the client's check. |
| `PutCode.Put` | pkg/artifact/artifact.go:85-138 | `Put` extends the run of the composed machine, and reports what that run defines. An unrecordable host or path touches neither store; a failed store step leaves the ledger alone; otherwise the report names exactly the source's bytes, which are wholly on disk, a receipt has its one row, `not_committed` is reported if and only if the append returned a confirmed non-commit and `unknown` if and only if it returned an unknown outcome; each kind of error has its reason. |
| `PutCode.ReportEnded` | pkg/artifact/artifact.go:127-138 | A put reports `not_committed`, or `unknown`, if and only if the action of the ledger's run that ended its append stands for that, as `LedgerTheorems.ReturnedIff` says: a refused INSERT is `not_committed`. |
| `PutCode.PutInRun` | pkg/artifact/artifact.go:85-138 | So in the run of both stores that the code extends, each report made stays true, as `PutSound` says. |
| `PutCode.PutThenGetBack` | pkg/artifact/artifact.go:154-160 | `Put` followed by a get of the identity it returned: unless a call fails, exactly the source's bytes. |
| `Roles.EligibleIff` | pkg/postgres/store.go:298-329 | For an existing role the query returns no reason if and only if each role that a session of it can act as is restrained, and no role it inherits from has a privileged attribute. |
| `Roles.ReaderEligibleIff` | pkg/postgres/store.go:314-329 | For a reader the query returns no reason if and only if, besides, no role that a session of it can act as can insert into any column. |
| `Roles.WriterIsRestricted` | pkg/postgres/store.go:420-426 | An accepted writer, after its grants, is still eligible, and no choice of SET ROLE followed by inheritance gives it UPDATE, DELETE, TRUNCATE, TRIGGER, INSERT on a server-owned column (`id`, `received_at`, `actor`) or a privileged attribute. |
| `Roles.WriterGains` | pkg/postgres/store.go:420-426 | What a writer's provisioning gives: exactly the roles that inherit from the writer, itself among them, gain USAGE on the schema, SELECT on the table and INSERT on `event_type`, `content` and `refs`, and nothing else; all others hold what they held. So the writer can append and read its row back. |
| `Roles.WritersStayRestricted` | pkg/postgres/store.go:377-438 | So it stays, and it keeps what it needs to append, under any later sequence of `ProvisionWriter` and `ProvisionReader`, accepted or refused, of any roles in any order. |
| `Roles.ReprovisioningIsIdempotent` | pkg/postgres/store.go:420-438 | Provisioning an accepted writer or reader again is accepted and changes no grant. |
| `Roles.ReaderIsReadOnly` | pkg/postgres/store.go:431-438 | An accepted reader, after its grants, can neither insert into any column nor mutate, whichever role it acts as. |
| `Roles.ReaderGains` | pkg/postgres/store.go:431-438 | A reader's gives USAGE and SELECT to exactly the roles that inherit from it. |
| `Roles.ReaderStaysIff` | pkg/postgres/store.go:428-438 | A reader has no lasting guarantee: provisioning a writer keeps it eligible if and only if no role it reaches inherits from that writer. |
| `Roles.ReaderStaysOverIff` | pkg/postgres/store.go:377-438 | Over any sequence of provisionings an accepted reader is still eligible if and only if no role made a writer since is one it reaches. |
| `Roles.ReaderLosesEligibility` | pkg/postgres/store.go:428-438 | Such a case exists: a reader that is a member of a role later made a writer. |
| `Provisioning.AssertProvisionable` | pkg/postgres/store.go:338-371 | Nil only for an existing login role without reasons; a refusal only for one that is not. |
| `Provisioning.Database.Provision` | pkg/postgres/store.go:377-409 | `provision`: all grants or none; a refused or failed call changes nothing; a COMMIT whose answer is lost may have taken effect; without faults it is accepted exactly when it should be. |
| `Provisioning.Database.ProvisionWriter` | pkg/postgres/store.go:420-426 | One call of a writer provisioning, as the sequences above are made of: on nil a login role that can append; whatever the outcome, no role has lost a privilege, and none has gained one but the roles inheriting from this one, those of `Roles.WriterGains`. |
| `Provisioning.Database.ProvisionReader` | pkg/postgres/store.go:431-438 | One call of a reader provisioning, as the sequences above are made of: on nil a login role that can read, and nobody else has gained anything. |
| `Initialize.AtMostOneCreates` | pkg/postgres/store.go:138-161 | Over any run of any number of initializers at most one creates the table, and none where there was one. |
| `Initialize.ExistingUntouched` | pkg/postgres/store.go:119-123 | No initializer, failing or not, alters an existing relation. |
| `Initialize.AllSucceed` | pkg/postgres/store.go:138-161 | On a UTF-8 database that is empty or compliant, without faults, no initializer fails. |
| `Initialize.NoDeadlock` | pkg/postgres/store.go:150-152 | While one is unfinished, some initializer can take a step that brings it closer to its end. |
| `Initialize.DescriptorDiff` | pkg/postgres/store.go:270-283 | Reports none exactly for equal sequences, and otherwise their first disagreement. |
| `Initialize.Examine` | pkg/postgres/store.go:162-226 | The guards and the comparison accept exactly one relation, the contract's: an ordinary permanent table without row security, policies or extras and with equal descriptors; a difference reported is the first one. |
| `InitializeCode.InitializeLedger` | pkg/postgres/store.go:123-227 | `Initialize` is a run of the locking protocol: nil only with the contract's table there; a table that was there is unchanged and, without faults, accepted exactly when guards and descriptors agree; otherwise only a failing statement makes it fail. |
| `EventId.ValidID` | pkg/event/event.go:93-118 | Accepts exactly the case-insensitive 8-4-4-4-12 texts of 16 octets with version 7 and variant bits 10 (sections 4, 4.1 and 5.7 of RFC 9562). |
| `EventId.ValidIffUuidV7` | pkg/event/event.go:86-118 | The shape that the recogniser tests is that of the text of a version 7 UUID. |
| `EventId.ParseInvertsFormat` | pkg/event/event.go:86-118 | Reading the text of any 16 octets gives them back. |
| `EventId.FormatInvertsParse` | pkg/event/event.go:86-118 | Writing what was read gives the lowercase text. |
| `EventId.CaseInsensitive` | pkg/event/event.go:120-122 | Acceptance and value do not depend on letter case. |
| `EventId.TextOrderIsNumericOrder` | pkg/event/event.go:86-118 | Lexicographic order of lowercase texts is the numeric order of the 128-bit values. |
| `EventType.RulesAgree` | pkg/postgres/schema.sql:31-42 | For every sequence of Unicode scalar values the Go check, the Python check and the two CHECK constraints agree, on blankness and on the bound of 255 bytes, beyond which a text that is not blank is refused as too long. |
| `EventType.TrimEmpty` | pkg/event/event.go:52-54 | Trimming both ends leaves nothing exactly when each code point is in the trim set. |
| `EventType.OnlyTextPasses` | python/duro/__init__.py:96-106 | Go refuses as not UTF-8 exactly the byte strings that encode nothing; Python exactly the strings with a surrogate. |
| `Utf8.DecodeIsInverse` | pkg/event/event.go:48-57 | Decoding is exactly the inverse of the encoding of section 3 of RFC 3629. |

## Left out

What the model takes as given:

- The environment rule of the ledger: COMMIT is acknowledged, and the failure of a statement or a ROLLBACK tag is sent,
  only for a transaction that has committed or aborted, respectively. What PostgreSQL and the two drivers do is not
  shown, nor that a driver reports a ROLLBACK tag as the model says (the Go driver as an error, the Python one not).
- A failed fsync has no effect, though the kernel may write back at any time; one that reports success for bytes it
  earlier failed to write is not modelled. There is no bit rot, and nothing but Duro's operations changes the store.
- A path is looked up in one step, and an mkdir with the look at what it found is one step. `get` looks its blob up
  once (no operation renames or unlinks a blob). MkdirAll makes directories from the top; the code starts at the
  bottom and backs up, with the same calls that change anything.
- The size that `WriteFile` sees at open is arbitrary, so the source may change at will while it is read. Opening the
  source and asking for its size are part of the first step, which may fail.
- The removal of a temporary may be undone by a crash: the name comes back as an abandoned one.
- A crash is one of the store's machine: it kills the puts running there, while other appends and the server go on.
- Rows, calls and roles' grants from before a run: the ledger starts with no call and shows only the rows that the run adds.
- Other clients of the ledger do not use the ids of this machine's puts, which are names the model gives to calls.

What is weaker than it could be:

- CasTheorems.FetchedIsDelivered: is about gets that returned since the last crash; what a crash leaves of an earlier one
  is `CasTheorems.DeliveredForever` and `CasTheorems.DeliveredSurvivesIff`.
- CasTheorems.AtMostOneFetch: across a crash it holds for destinations whose directory was on disk, as
  `CasTheorems.DeliveredForever` says; a destination that was lost may be fetched again.
- CasOperations.WriteFile: that it fails only for a reason is shown for a machine whose gets keep out of the blob tree
  (`Host.tidy`); one that does not may obstruct any put. What a receipt says holds regardless.
- CasGets.GetToFile: the clause about the whole namespace is for a process that runs alone; that no other process's
  names are touched is `CasTheorems.NamesUntouched`. A destination named like one of its own temporaries may be taken
  by that temporary, which then fails the get.
- Roles.EligibleIff: covers attributes and table and column privileges, not the reasons from ownership of the table,
  schema or database.
- HashingCopy.Copy: the hash is computed from the collected bytes rather than updated block by block.
- PutCode.Put: between its store step and its append other store processes run, but the ledger's other clients run
  only during the append; `ArtifactTheorems` has all interleavings.

What is not modelled:

- Symbolic links (`Open` resolves them once), file modes and `chmod`, `Has`, closing of files, the text of errors.
- `encoding/json`, `jsonb`, the 1 MiB bounds and the objects' shape, so `validateObject`, `ContentOrDefault`,
  `RefsOrDefault` and `_json_object`; an observation is its four fields. Python's type checks and DSN lookup.
- The values PostgreSQL assigns (`id`, `received_at`, `actor`), its refusal of U+0000 in text, `Get` of one event.
- The catalog queries of `describeTable` and of the guards: what they return is given. That the lock is granted
  fairly: `Initialize.NoDeadlock` shows that somebody can always go on.
- Quoting in `quoteIdentifier`; what an administrator grants outside Duro.
- `cmd/duro`, `internal/pgtest`, `compose.yaml` and `scripts`: flags, printing, test support and deployment.
