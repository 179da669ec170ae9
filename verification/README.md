# sharp-store, modelled in Dafny

sharp-store opens file containers whose configuration comes from an application-owned
source, through a cache, and serves file operations through storage backends. This project
models the parts of it whose correctness is not visible from any single function, and proves
what they promise:

- **The configuration cache and the single-flight loader** (`CacheModel`, `ConfigCache`,
  `CacheRuns`, `CacheSweeps`, `LoaderProtocol`, `Schedules`, `Provenance`, `Coherence`, `Freshness`,
  `LoadBound`, `LoadBoundReached`, `LoadWindows`, `Progress`, `ConfigLoader`). `ConfigCache.MemoryConfigCache` and `ConfigLoader.CachedConfigSource` are
  the classes of the source, proved against the functions of `CacheModel`, one per critical
  section. `CacheRuns` interleaves those critical sections with the clock. `LoaderProtocol`
  interleaves the steps of any number of concurrent `Load` calls, of application writers that
  commit to the source and then publish to the cache, and of the clock; an operation is cut at
  every lock boundary, clock sample and source read.
- **The filesystem publish protocol** (`FileTree`, `ObjectSpec`, `PublishProtocol`,
  `PublishSafety`, `PublishSteps`, `FileUtil`, `FilesystemBackend`). Names refer to inodes and inodes hold bytes
  and a mode, with the atomic `link()`, `rename()` and `unlink()` of chapter 3 of the System
  Interfaces volume of IEEE Std 1003.1-2017. Any number of saves, deletes, existence checks and
  reads interleave system call by system call, and every call may fail. `FileUtil` and
  `FilesystemBackend` are the same code as methods, with any chosen set of calls failing.
- **Keys and paths** (`Lexical`, `KeyBuilding`, `PathResolution`). Go's lexical `Clean`, `Join`
  and `Rel` on Unix are stack algorithms; key building and path resolution are composed.
- **Upload measuring and the typed KS3 configuration** (`Uploads`, `Strconv`, `Ks3Codec`).
- **Ownership of configuration maps** (`ConfigClone`, `Ownership`): a heap of mutable maps, what
  the library holds and where it clones, and outside code, naming services included, that may
  write every map it can reach at any moment.

`Wrappers` and `ConfigTypes` hold the shared datatypes.

## Where the code and its descriptions differ

- `docs/config-sources.md:225-228` says that opens after a deletion reload from the source. An
  open that starts after the deletion but joins a load already in flight
  (`config_loader.go:64-71`) returns the deleted configuration:
  `Freshness.DeletedConfigurationIsReturned` is such a run, `Freshness.JoinedOpenMayBeStale` the
  general case. The exact condition is `Freshness.OpenIsStaleExactly`: once every write for the
  key is published, an open that arrives can return something the source has said at no moment
  since its arrival, whatever is committed while it is under way, if and only if the load in
  flight for its key already holds an outdated answer, read from the source or from a cache
  entry that is still unexpired. Opens that find no load in flight, or one that has yet to read,
  do see the update, or a later one. `Freshness.UndisturbedOpenIsStaleExactly` is the same
  condition for opens without a commit meanwhile.
- `config_cache.go:26-27` and `docs/config-sources.md:207-208` require an atomic read of entry
  and version. A miss on an entry that expires between the read lock and the clock sample
  (`config_cache.go:117-124`) need not be the answer of any instant:
  `CacheRuns.ExpiredMissMayNotLinearize` is such a run, `CacheRuns.ExpiredMissLinearizesExactly`
  says exactly when it is. A fill that carries its token is still decided correctly
  (`CacheRuns.ExactFillCondition`).
- `config_cache.go:58-60` says that abandoned keys cannot accumulate forever. Fills never sweep
  (`config_cache.go:171-191`), so without a `Set` any number of expired entries can stay:
  `CacheSweeps.ExpiredFillsAccumulate`. How many exactly is `CacheSweeps.AccumulationIsExact`:
  from any cache, k landing fills and no `Set` can leave more than a given number of entries, all
  expired, if and only if that number is less than the entries at the start and k together. What
  holds with `Set` calls is `CacheSweeps.SizeBound`.
- A waiter receives its leader's error, the leader's own context error included
  (`config_loader.go:69-70`); `LoaderProtocol.WaitersReturnTheLeadersOutcome` states it that way.
- A seekable upload positioned past its end is given a negative length
  (`backend/s3/s3.go:303-304`, `backend/minio/minio.go:226`): `Uploads.SizeIsRightExactly`
  and `Uploads.PastTheEndIsNegative`.
- `backend/s3/s3.go:299-300` and `backend/minio/minio.go:218-219` go on after a failed question for
  the position. If that failure moved the reader, bytes are lost; `Uploads.PlaceDecidesBytes`,
  `Uploads.FixedLengthBody` and `Uploads.UploadSize` say exactly when.
- `README.md:81-91` of the repository calls configurations snapshots. Two maps are not the
  library's own. `container.go:100` hands the container's own map to the naming service, which
  may write it: `Ownership.WritingNamingServiceBreaksSnapshots`. And `config_loader.go:88-90`
  clones what the source returned only when it succeeded, so the waiters of a failed call clone
  the source's own map, each at its own time: `Ownership.WaitersOfAFailedCallMayDiffer` is a run
  in which they return different configurations beside the error.
  `Ownership.SnapshotsBreakExactlyWhenShared` and `Ownership.SharingIsExact` say that these two
  are the only cases.

## Model

| member | source | states |
|---|---|---|
| `Coherence.WriteThroughCoherence` | config_loader.go:77-96 | In every reachable state of any number of loaders, expiries, sweeps and writers that commit and then publish, a cached configuration is the source's current one or a committed write for its key is still unpublished, as long as no fill is attempted after 2^64 mutations. |
| `Coherence.InvNext` | config_cache.go:171-191 | Every step keeps the invariant over every in-flight leader's version token and held configuration from which coherence follows. |
| `Coherence.LandingMeansUndisturbed` | config_cache.go:185-190 | If a leader's conditional fill lands, nothing has mutated the cache since the versioned read that gave it its token. |
| `Provenance.ReturnsAreAccountedFor` | config_loader.go:47-103 | Over every run, what a call returns is: the configuration of an entry its first read found for its key, unexpired at its look at the clock; as leader, such an entry of its second read or its source's answer; as waiter, what the call in its key's slot led to; or its own context's error while it waited. |
| `Provenance.ExpiryDecidesTheFirstRead` | config_cache.go:117-132 | A call whose first read found an entry returns it if and only if its look at the clock comes before the entry's expiry, and otherwise never returns from the cache. |
| `Provenance.SecondClockStepDecides` | config_loader.go:77-86 | The leader's second read ends its lead with the entry exactly when that has not expired, and goes on to the source otherwise. |
| `Provenance.LandedFillsComeFromTheSource` | config_loader.go:88-94 | Over every run, a fill that changes the cache stores, for the lifetime from its clock sample, what the leader's own source answered without error. |
| `Provenance.NoFillAfterAFailedRead` | config_loader.go:84-93 | Over every run, a leader whose versioned read failed never changes the cache. |
| `Provenance.CachedConfigurationIsServed` | config_loader.go:54-57 | An open of a cached key returns its configuration without asking the source if and only if it looks at the clock before the entry expires. |
| `Provenance.PublishStores` | config_cache.go:144-151 | Publishing a configuration caches it until the lifetime from the clock sample is over. |
| `Provenance.PublishRemoves` | config_cache.go:164-167 | Publishing a deletion removes the entry, and no fill with an earlier token lands after it. |
| `Freshness.OpenIsStaleExactly` | docs/config-sources.md:225-228 | With no unpublished write for the key, an open that arrives now has a run, with any commits, after which it has returned something the source said at no moment since, if and only if the leader in its key's slot already holds an outdated outcome. |
| `Freshness.OpenAfterUpdateIsFresh` | config_loader.go:54-76 | An open that starts with no unpublished write and no outdated load in flight for its key reports, in every run and whatever is committed meanwhile, a value or absence the source showed since its arrival. |
| `Freshness.UndisturbedOpenIsStaleExactly` | docs/config-sources.md:225-228 | Restricted to runs without a commit for the key, the same condition decides whether the open can return something other than the source's one answer. |
| `Freshness.ReachableStatesSettle` | config_loader.go:87-95 | Every reachable state in which the writes for a key are published satisfies what the two conditions ask of a state. |
| `Freshness.JoinedOpenMayBeStale` | config_loader.go:64-71 | From any state in which the leader of a key holds an outcome, from an unexpired cache entry or from the source, error or not, a newcomer has a schedule on which it returns exactly that outcome. |
| `Freshness.DeletedConfigurationIsReturned` | docs/config-sources.md:225-228 | A concrete run in which an open that starts after a deletion was committed and published returns the deleted configuration. |
| `LoaderProtocol.SingleFlightSafety` | config_loader.go:63-103 | In every reachable state a slot is taken exactly while a call for its key has an open channel, a key has at most one leader, and source loads of one key never overlap. |
| `LoaderProtocol.WaitersReturnTheLeadersOutcome` | config_loader.go:66-71 | A waiter returns its own context error or exactly the configuration and error its leader returned, whatever configuration a failing source returned beside its error, as long as nobody writes that source's map meanwhile. |
| `Progress.NoCallIsStranded` | config_loader.go:47-103 | From every reachable state every call has a schedule of at most thirteen steps to its return, its own and those of the one call it waits for, with no cancellation, cache outage or source failure. |
| `Progress.NextStepShrinks` | config_loader.go:63-102 | The next such step is always enabled, keeps to the same leader, and leaves less to do. |
| `LoaderProtocol.ClosedCallsNeverChange` | config_loader.go:98-102 | A closed call keeps its outcome, and a returned loader its result, at every later step of anyone. |
| `LoaderProtocol.SingleFlightNext` | config_loader.go:63-75 | Election, waiting, leading and release each keep the correspondence between slots, open channels, leaders and waiters. |
| `LoadBound.SourceLoadBound` | config_loader.go:77-96 | With no expiry, writes, failures or cancelled leaders, N keys cost at most N(N+1)/2 source loads over any run with any number of callers. |
| `LoadBoundReached.SourceLoadBoundIsReached` | config_cache.go:183-190 | For every set of N keys some such run from an empty cache makes exactly N(N+1)/2 source loads, so the bound is the best possible. |
| `LoadBound.OneKeyIsLoadedOnce` | config_loader.go:63-76 | Under the same conditions concurrent misses on a single key cause at most one source load. |
| `LoadBound.QuietCountsNext` | config_cache.go:183-190 | A rejected fill is charged to another key's fill that landed inside its window, so a key filled as the i-th has used at most i loads. |
| `CacheRuns.LazyExpiryRefinement` | config_cache.go:83-133 | Over every interleaving, the cache with expiry on read, rechecks and sweeps refines a plain TTL map that only `Set`, `Delete` and landing fills change. |
| `CacheRuns.LazyExpiryFromEmpty` | config_cache.go:72-79 | In particular every run of a new cache is one of the plain TTL map from empty. |
| `CacheRuns.ReadLinearizesAtReadLock` | config_cache.go:117-132 | A lookup's answer is that of an atomic lookup at the read lock if and only if it is a hit, a plain miss, or a miss on an entry already expired then. |
| `CacheRuns.CleaningKeepsLiveEntries` | config_cache.go:83-97 | Neither a sweep nor a recheck removes an entry that is unexpired at that step. |
| `CacheRuns.ExpiredMissLinearizesExactly` | config_cache.go:124-130 | A miss on an entry captured alive is an atomic answer for some moment of the call if and only if the entry expired before the first mutation after the read. |
| `CacheRuns.ExpiredMissMayNotLinearize` | config_cache.go:117-124 | A concrete run whose miss is the answer of no instant. |
| `CacheRuns.ExactFillCondition` | config_cache.go:183-190 | A fill with the token of an earlier read lands if and only if the mutations since number 0 modulo 2^64. |
| `CacheRuns.StaleFillChangesNothing` | docs/config-sources.md:225-227 | After one or more, but fewer than 2^64, mutations a fill leaves the cache as it is, so it never overwrites an update or undoes a deletion. |
| `CacheRuns.EmptyTokenChangesNothing` | config_loader.go:84-93 | The empty token a leader is left with when its versioned read fails fills nothing. |
| `CacheRuns.VersionCountsMutations` | config_cache.go:151-189 | Over any run the version has advanced, with wrap-around, by exactly the number of `Set` and `Delete` calls and landing fills. |
| `CacheModel.RecheckExactly` | config_cache.go:125-129 | A recheck removes its key exactly when the entry there has expired, and touches nothing else. |
| `CacheModel.LiveExactly` | config_cache.go:88-92 | What a sweep keeps: entries whose expiry lies after the clock. |
| `CacheModel.TokensAreDecimal` | config_cache.go:119 | A token reads back as the version in decimal. |
| `CacheModel.TokensIdentifyVersions` | config_cache.go:119 | Two versions print the same token only when equal, and no token is empty. |
| `CacheModel.AdvancedWraps` | config_cache.go:57 | Advancing the counter n times adds n modulo 2^64. |
| `CacheSweeps.ThresholdFollowsSurvivors` | config_cache.go:93-96 | In every reachable state the sweep threshold is the larger of 16 and twice the survivors of the last sweep. |
| `CacheSweeps.AmortizedSweeping` | config_cache.go:58-61 | Over any run all sweeps together visit at most twice as many entries as there were `Set` calls and landing fills. |
| `CacheSweeps.SweepPotential` | config_cache.go:83-97 | Entries never exceed the last survivors plus the writes since; two writes pay for each visited entry. |
| `CacheSweeps.SizeBound` | config_cache.go:148-151 | Entries never exceed the threshold by more than the fills that landed since the last `Set`. |
| `CacheSweeps.AccumulationIsExact` | config_cache.go:171-191 | From any cache, some run without `Set`, without a sweep and with at most k landing fills ends with more than a given number of entries, all expired, if and only if that number is less than the entries at the start and k together. |
| `CacheSweeps.ExpiredFillsAccumulate` | config_cache.go:58-60 | For every n a new cache that is only filled can end with more than n entries, all expired and never swept, with n + 1 fills and with no fewer. |
| `ConfigTypes.KeysIdentifyPairs` | config_cache.go:193-199 | Two pairs have one key if and only if container and tenant ID agree, no tenant counting as the empty ID. |
| `ConfigCache.SetThenGet` | config_cache.go:99-154 | A Get for the container and tenant ID just set returns the configuration until the lifetime from the clock sample is over, and nothing from then on. |
| `ConfigCache.SetThenGetOther` | config_cache.go:99-154 | A Get for another container or tenant ID returns after a Set exactly the unexpired entry it would have returned before. |
| `ConfigCache.FillAfterLookup` | config_cache.go:156-191 | A fill with the token of a lookup lands and is stored for its pair, and does not land after a Delete of any pair. |
| `ConfigCache.DeleteThenGet` | config_cache.go:156-169 | After a Delete its pair is gone. |
| `ConfigCache.MemoryConfigCache.constructor` | config_cache.go:64-79 | An empty cache at version 0 and threshold 16, with the given lifetime if positive and five minutes otherwise. |
| `ConfigCache.MemoryConfigCache.MaybeSweepLocked` | config_cache.go:83-97 | Below the threshold nothing changes; otherwise exactly the unexpired entries stay, the threshold is reset, and every entry was visited once. |
| `ConfigCache.MemoryConfigCache.GetWithVersion` | config_cache.go:108-133 | The hit, miss or context error with the version token, and the state after the recheck. |
| `ConfigCache.MemoryConfigCache.Get` | config_cache.go:99-106 | Found exactly when an entry for the key is cached and the clock lies before its expiry, and then with its configuration; an expired one is gone afterwards. |
| `ConfigCache.MemoryConfigCache.Set` | config_cache.go:135-154 | Sweep, then write with the expiry sampled before the lock, then bump the version; a done context changes nothing. |
| `ConfigCache.MemoryConfigCache.Delete` | config_cache.go:156-169 | The entry is gone and the version bumped, even when there was none. |
| `ConfigCache.MemoryConfigCache.SetIfVersion` | config_cache.go:171-191 | Writes and bumps exactly when the token is the current version's, and says so. |
| `ConfigLoader.CachedConfigSource.TakeSlotOrJoin` | config_loader.go:63-75 | The caller leads exactly when its slot was free, and then the slot holds a new open call. |
| `ConfigLoader.CachedConfigSource.LoadAsLeader` | config_loader.go:77-102 | The call ends with the cached configuration on a hit and with the source's answer otherwise, which is cached unless the source or the context failed; the slot is free again. |
| `ConfigLoader.CachedConfigSource.Load` | config_loader.go:47-103 | What an uninterrupted call returns or blocks on in every case, and that it disturbs no slot and no other key's entry. |
| `PublishSafety.Linearizability` | backend/filesystem/filesystem.go:63-212 | Every interleaving of saves, deletes, existence checks and reads has a legal sequential history of an atomic map that explains the keys' bytes; each answered operation has one entry between its call and its return, a failed one has none. |
| `PublishSafety.RealTimeOrder` | backend/filesystem/filesystem.go:63-212 | If one operation had returned before another was invoked, its entry in that history comes first. |
| `ObjectSpec.LegalHistoriesObeyTheRules` | backend/filesystem/filesystem.go:115-212 | What each entry of a legal history answers and changes, operation by operation, in terms of the map before and after it. |
| `PublishSteps.SavesPublishLast` | backend/filesystem/filesystem.go:103-121 | Over every run a save publishes only after its file was copied completely, synced, closed and its context looked at again, in this order. |
| `PublishSteps.PublishedMode` | backend/filesystem/filesystem.go:78-121 | Over every run a published file holds the whole body with the mode of the object its key named when an overwriting save looked, and mode 0644 if there was none or the save does not overwrite. |
| `PublishSafety.ReadersSeeOneBody` | backend/filesystem/filesystem.go:192-212 | An opened reader's file holds, in every later state, the complete body its open answered with. |
| `PublishSafety.NoTemporaryRemains` | backend/filesystem/filesystem.go:93-96 | Once every operation has returned no temporary name is left. |
| `PublishSafety.FailedOperationsTouchNothing` | backend/filesystem/filesystem.go:63-129 | An operation that fails in the end has at none of its steps changed an object's name, inode, bytes or mode. |
| `PublishSafety.OnlyLoggedStepsTouchObjects` | backend/filesystem/filesystem.go:115-121 | Only the steps at which an operation takes effect change any object's name, inode, bytes or mode. |
| `PublishSafety.PublishedFileIsComplete` | backend/filesystem/filesystem.go:97-121 | What a successful save publishes holds its whole body and the mode it set out to give it. |
| `PublishSafety.ExclusiveSavesAreConserved` | backend/filesystem/filesystem.go:115-156 | Over any concurrent run, links and renames onto an absent name minus removals of one key equal its presence at the end minus its presence at the start. |
| `PublishSafety.AtMostOneExclusiveSave` | backend/filesystem/filesystem.go:120-124 | Of any number of exclusive saves of one key at most one succeeds while nothing removes the key. |
| `PublishSafety.RefinesNext` | backend/filesystem/filesystem.go:115-121 | Each step either leaves the atomic map alone or is one legal operation of it. |
| `ObjectSpec.ConservationOfSaves` | backend/filesystem/filesystem.go:115-156 | In a legal history creations minus removals of a key are the change of its presence. |
| `ObjectSpec.OneExclusiveSave` | backend/filesystem/filesystem.go:120-124 | Two successful exclusive saves of one key in a legal history imply a removal. |
| `FileUtil.WriteFile` | backend/internal/fileutil/fileutil.go:18-45 | On success the destination holds the full stream; on any error, which names the faulty call, every object keeps its inode, bytes and mode; `copied` holds exactly when the copy was complete; no temporary is left. |
| `FileUtil.CopyAll` | backend/internal/fileutil/fileutil.go:32-34 | Success means that the private file holds everything that was left of the stream; whatever happens no other inode changes. |
| `FilesystemBackend.SaveObject` | backend/filesystem/filesystem.go:63-129 | Answers as the atomic save or fails with a cause, fails whenever a needed call or the context does, gives the file the body and the replaced object's mode or 0644, touches no other object and leaves no temporary. |
| `FilesystemBackend.DeleteObject` | backend/filesystem/filesystem.go:131-157 | Answers and acts as the atomic delete, and fails exactly when the context, the stat or a needed removal does. |
| `KeyBuilding.Build` | key.go:17-42 | Which file IDs and tenant segments are refused, and the key otherwise: the tenant's code, or its ID when the code is empty, before the trimmed file ID in tenant-scoped mode, and the trimmed file ID alone in all other cases. |
| `KeyBuilding.ScopedKeysIdentifyRequests` | key.go:27-41 | Two accepted tenant-scoped requests have equal keys if and only if they have equal identifiers and equal slash-trimmed file IDs. |
| `KeyBuilding.FirstSlashSplits` | key.go:34-41 | A separator-free segment and a slash in front of any text can be read back. |
| `PathResolution.ResolutionIsExact` | backend/filesystem/filesystem.go:234-262 | A key resolves if and only if the root is non-empty and the key is relative, names something and has no parent segment; the path is the cleaned root's segments and then the key's; the final relative-path check rejects nothing. |
| `PathResolution.ResolvedText` | backend/filesystem/filesystem.go:253-261 | The text of the path: the cleaned root, a slash and the key's names joined by slashes, with the slash or the root left out for the roots `/` and `.`. |
| `PathResolution.PathsStayBelowRoot` | backend/filesystem/filesystem.go:253-261 | Every resolved path lies strictly below the root. |
| `PathResolution.SamePathMeansSameNames` | backend/filesystem/filesystem.go:249-253 | Two accepted keys resolve to one path if and only if their non-empty, non-dot segments agree. |
| `PathResolution.BuiltKeysResolve` | key.go:17-42 | Every key the builder accepts resolves under every non-empty root. |
| `PathResolution.TenantIsolation` | key.go:27-41 | Requests with different non-empty identifiers resolve to paths of which neither is, or contains, the other. |
| `PathResolution.UnscopedCollision` | key.go:28-41 | An unscoped request shares a key with a scoped one exactly when its file ID spells out the identifier and the other file ID, and a path exactly when its names are the identifier and the other's names. |
| `PathResolution.InsideTenantExactly` | key.go:27-41 | A built key, scoped or not, resolves into a tenant's directory if and only if its first name is that tenant's identifier. |
| `Lexical.CleanIdempotent` | backend/filesystem/filesystem.go:249 | Cleaning twice is cleaning once, and keeps rootedness and the kept segments. |
| `Lexical.CleanRules` | backend/filesystem/filesystem.go:249 | Go's own rules for Clean: a repeated slash, a dot, and a name with the parent after it cancel anywhere in a path, and a parent at the root does. |
| `Lexical.CleanPathsHaveProperPieces` | backend/filesystem/filesystem.go:249 | The pieces of a clean path other than `/` and `.` are neither empty nor dots. |
| `Lexical.RelLeadsToTarget` | backend/filesystem/filesystem.go:254 | A relative path joined to its base cleans to the cleaned target. |
| `Lexical.JoinSplit` | key.go:41 | The slash pieces of a text, joined, are the text. |
| `Lexical.SplitAtBoth` | key.go:22 | Splitting at both separators is splitting at slashes once backslashes are slashes. |
| `Lexical.TrimIsExact` | key.go:18-19 | Trimming removes only the character and only at the ends. |
| `Lexical.RenderReadsBack` | backend/filesystem/filesystem.go:249-253 | A clean path read back gives the segments it was rendered from. |
| `Lexical.SlashSegmentIsField` | backend/filesystem/filesystem.go:244-248 | A slash segment free of both separators is also a segment under both, so no parent segment escapes the first check. |
| `Uploads.FixedLengthBody` | backend/s3/s3.go:292-329 | For every kind of reader and pattern of failures a success leaves exactly the caller's unread bytes to read, if and only if no failed question for the position moved the reader elsewhere, with the size its method measures; it is right exactly for honest lengths and positions not past the end; which failures are reported, and that only a copied upload leaves a temporary file. |
| `Uploads.ContextRead` | backend/s3/s3.go:336-341 | A read hands on the next bytes, and ends in an error only when the context or the reader does. |
| `Uploads.CopyToTemporary` | backend/s3/s3.go:320-324 | A successful copy is exactly the bytes that were unread. |
| `Uploads.UploadSize` | backend/minio/minio.go:213-231 | The size by length, by seeking exactly when all three seeks succeed, or -1, or the failure to restore the position; on success the same bytes are unread if and only if no failed question for the position moved the reader elsewhere. |
| `Uploads.PlaceDecidesBytes` | backend/s3/s3.go:298-300 | A reader moved by a failed question for its position offers the same bytes if and only if it is at the same place of its data or at or past the end both times. |
| `Uploads.MeasureBySeeking` | backend/minio/minio.go:217-228 | The reader is put back exactly unless the position was known and the seek back failed; a size comes out exactly when all three seeks succeed. |
| `Uploads.SizeIsRightExactly` | backend/s3/s3.go:298-308 | A reported size is the number of unread bytes exactly for an honest length, a position not past the end, or a copy. |
| `Uploads.ProvidersAgree` | backend/minio/minio.go:213-231 | For such readers both providers report the number of unread bytes, except that one answers -1 exactly where the other copies. |
| `Uploads.PastTheEndIsNegative` | backend/s3/s3.go:303-304 | The size found by seeking is negative if and only if the reader is past its end, where a copy would report 0. |
| `Ks3Codec.ParsedFields` | backend/ks3/config.go:60-98 | ParseConfig succeeds with a configuration if and only if the backend is ks3 and every field is what its own key says, absent or empty numbers being zero and flags false. |
| `Ks3Codec.ParsingNeedsTheBackend` | backend/ks3/config.go:61-63 | The backend's name is looked at first: another name is the reported error exactly when it is not ks3. |
| `Ks3Codec.ReadFields` | backend/ks3/ks3.go:240-288 | The second reader succeeds with a configuration if and only if every field is what its key says, the protocol being https when absent or empty, and the configuration meets every check. |
| `Ks3Codec.ReadErrors` | backend/ks3/ks3.go:249-286 | A missing required key is reported exactly when there is one, and every other error only for the check it names, once the checks before it have passed. |
| `Ks3Codec.PrintThenParse` | backend/ks3/config.go:48-98 | Parsing the printed values of any configuration over 64-bit integers returns it. |
| `Ks3Codec.NormalizingKeepsReading` | backend/ks3/ks3.go:240-288 | For every map that parses, printing the parse changes nothing about what the second reader may answer. |
| `Ks3Codec.ReadersAgree` | backend/ks3/ks3.go:240-288 | The second reader succeeds if and only if the first does and the parsed configuration is servable, and then differs at most in the defaulted protocol. |
| `Ks3Codec.ReadConfig` | backend/ks3/ks3.go:240-288 | Any missing required key is reported if there is one; otherwise the answer is that of the checks in their order. |
| `Strconv.AtoiItoa` | backend/ks3/config.go:54-55 | Every 64-bit integer survives printing and reading. |
| `Strconv.AtoiAccepts` | backend/ks3/config.go:93 | Digits, also after a plus, read as their value up to 2^63 - 1, and after a minus as its negative down to -2^63. |
| `Strconv.AtoiRejects` | backend/ks3/config.go:93 | Nothing but digits after at most one sign reads as a number. |
| `Strconv.ParseBoolExactly` | backend/ks3/config.go:67 | Exactly the six spellings of each value read as a boolean. |
| `Strconv.FormatNatInjective` | config_cache.go:119 | Decimal printing is injective. |
| `Ownership.SharingIsExact` | config_loader.go:77-97 | In every reachable state cached and captured maps are out of outside reach; a call's map is within it, once a successful answer has been cloned, exactly when its source failed and returned a map; a container's exactly when a naming service has received it. |
| `Ownership.OwnedNext` | config_loader.go:80-93 | Every step, a source's uncloned answer and a map shown to a naming service included, keeps the library's own maps out of outside reach and pairwise disjoint, lookups under way excepted. |
| `Ownership.SnapshotsBreakExactlyWhenShared` | README.md:81-91 | Some run that does not concern a holder changes what it denotes if and only if the holder shares its map, that is, if it is a failed call with a map, an answer not yet cloned, or a container a naming service has been shown. |
| `Ownership.SnapshotSemantics` | config.go:58-67 | Over every run, with outside code writing all maps it can reach at any moment, references to the library's own maps behave as values. |
| `Ownership.HoldersKeepTheirSnapshot` | factory.go:101-108 | A configuration of the library's own does not change until it is replaced, dropped or shown. |
| `Ownership.OnlyItsOwnNamingServiceBreaksAContainer` | container.go:99-106 | Over every run a container that is not itself shown to a naming service keeps its snapshot, whatever naming services do with those shown to them. |
| `Ownership.WritingNamingServiceBreaksSnapshots` | container.go:100 | A naming service that writes the map it was shown changes that container's snapshot exactly when it writes something else, and no other map of the library's own. |
| `Ownership.WaitersOfAFailedCallMayDiffer` | config_loader.go:66-71 | A concrete run in which two waiters of one failed call return different configurations. |
| `Ownership.GivenClonesAreEqualAndNew` | config_cache.go:132 | What a Get, a Load, Configuration or a request gives out has the holder's backend, mode and contents of that moment, in a map that is new to everybody. |
| `Ownership.KeptClonesAreEqualAndNew` | config_cache.go:144-147 | What Set, a versioned hit, a successful answer, a fill and Open keep equals what they clone, in a new map out of outside reach. |
| `Ownership.HandedOutCopiesAreDetached` | container.go:23-25 | What goes out equals what is held, and writing it changes neither its holder nor any map of the library's own. |
| `Ownership.StepsAreValueSteps` | config_cache.go:132-146 | Each step changes the values of the library's own maps as the same step on plain values would. |
| `ConfigClone.CopyEntries` | config.go:60-65 | A new map object with the same entries, whatever the iteration order. |
| `ConfigClone.Clone` | config.go:58-67 | The same backend and tenant mode, a nil map for a nil map, and otherwise a new map with the same entries. |
| `ConfigClone.NewContainerConfig` | config.go:41-51 | The provider's name and a new copy of its values, tenant-scoped; the zero configuration when there is no provider. |

## Assumptions of the model

- The clock never goes back between steps, and `source.Load` returns. Beside an error it may
  return any configuration.
- Temporary names are globally fresh and never object names; removing one's own temporary
  succeeds; a failed `rename()` or `link()` has had no effect.
- Only this code writes under the root, and no key is a proper path prefix of another, so that
  object names are never directories.
- Go's `int` has 64 bits. Lengths and the threshold `2 * len(entries)` stay below its range.
- At most one write per key is between commit and publication.

## Left out

- Cloud SDK calls of the aws, azure, aliyun, obs, ks3, minio and s3 backends: their behaviour lives in remote services.
- `AccessURL`, URL signing and `backend/filesystem/filesystem.go:214-232`: no property beyond the individual library calls.
- Client caches in `sync.Map`: one `LoadOrStore` each.
- Endpoint validation through `net/url`: a parameter of `Ks3Codec.ReadConfig`.
- Windows path rules and `checkWindowsKey`: a separate platform, settled branch by branch.
- The other provider codecs: the shape of KS3 without its integers.
- The backend registry, option metadata, naming, scope and the static source: thin maps and accessors.
- Panicking sources: `Load` frees its slot without `defer`, so a panic leaves the slot taken.
- Custom caches: only the memory cache is modelled, though a first read may fail at any time as a remote cache's would; caches without versions are read and never filled.
- Symbolic links, case-insensitive file systems, other writers under the root, and what survives a crash before `Sync`.
- The refusal of a nil body and of an unresolvable key by `Save`, before any system call: they change nothing. Keys are identified with their resolved paths, which `PathResolution.SamePathMeansSameNames` justifies.
- Wrapping of errors and their texts: errors are told apart by what causes them.
- Readers that return no bytes and no error without being at their end.
- ConfigLoader.CachedConfigSource.Load: an uninterrupted call, so a taken slot shows as a call that blocks; interleavings, waiters and cancellation while waiting are in `LoaderProtocol`.
- ConfigCache.MemoryConfigCache.GetWithVersion: an uninterrupted call with its two clock samples; a `Set` between them is covered by `CacheRuns`.
- FilesystemBackend.SaveObject: an uninterrupted call; interleavings are in `PublishProtocol`.
- LoadBound.SourceLoadBound: assumes that no lookup of the run meets an expired entry, no application writes, an answering source and no cancelled leader; each of these can add source loads.
- LoaderProtocol.WaitersReturnTheLeadersOutcome: configurations are values there, so a failing source that goes on writing the map it returned is left to `Ownership`.
- Data races: a map is read and written in whole steps, so a clone never sees half a write.
