# Chunk-scan worker and resource helpers, modelled in Dafny

This project models two parts of the NooBaa storage system.

**The build-chunks background worker** (`src/bg_workers/build_chunks_worker.js`).
Each call of `background_worker` does four things in order:
- it queries the chunk collection for the next batch of chunks to build;
- it moves the worker's scan cursor `last_chunk_id`;
- it hands a non-empty batch to the map builder;
- it returns the delay before the next call: 100 ms, 60 s or 10 s.

The model is module `BuildChunksWorker` (`build_chunks_worker.dfy`):
- the catalog is a `seq<Chunk>`;
- the database query is the pure function `FindBatch`, a filter, an insertion sort by id descending, and MongoDB's `limit`;
- the worker is the class `Worker`, whose one mutable field is the cursor;
- the step is the method `Worker.BackgroundWorker`;
- the clock (`now`) and the outcomes of the database call and of `MapBuilder.run()` are parameters of the step.

**The resource state and usage helpers** (`frontend/src/app/utils/resource-utils.js`).
These are pure functions of the management console:
- the mode-to-state-icon tables of host pools, cloud, internal and namespace resources, and their lookups;
- the `getResourceStateIcon` dispatcher;
- the type-icon and type-display-name lookups;
- resource ids;
- internal-resource display names;
- the buckets connected to a resource;
- the distribution of a resource's usage over buckets.

The model is module `ResourceUtils` (`resource_utils.dfy`):
- modes are a datatype;
- a table entry is either `Fixed(icon)` or `Computed(render)`, where `render` is a function of the resource;
- sizes are `nat` and ratios are `real`;
- JavaScript's `undefined`, `false` and thrown TypeErrors are explicit values (`Option.None`, `IconResult.False`, `IconResult.Undefined`).

`optional.dfy` holds the `Option` datatype that both modules use.

## Behaviour of the code worth knowing

The model follows `src/bg_workers/build_chunks_worker.js` on each of these points.
- **Which id the cursor keeps.** A full batch sets the cursor to `chunks[0]._id` (build_chunks_worker.js:63). After the descending sort, that is the batch's highest id. The next query's `_id < cursor` bound therefore excludes only that one chunk (`NextBoundAdmitsRestOfBatch`). The scan still advances when the builder marks the rest of the batch as built, because those chunks then fail the staleness test.
- **Claims are only filtered on.** The worker reads `building < now - building_timeout` as a query filter (lines 33-39). This worker writes nothing to claim a chunk.
- **A builder failure keeps the new cursor.** The cursor is written before the builder runs (lines 62-72), so a builder failure keeps the new value. Only a failed query leaves the cursor as it was.
- **`batch_size` of 0.** MongoDB treats `limit(0)` as "no limit". With `batch_size` 0, a non-empty result therefore holds every matching chunk, and the cursor is cleared. An empty result has length 0, which equals `batch_size`, so `chunks[0]._id` throws a TypeError. The step then returns the error delay and leaves the cursor unchanged.

## Model

| member | source | states |
|---|---|---|
| `BuildChunksWorker.Filter` | src/bg_workers/build_chunks_worker.js:22-49 | a chunk is kept exactly when it is in the catalog and is not deleted, stale (`last_build` unset or older than `now - time_since_last_build`), unclaimed (`building` unset or older than `now - building_timeout`) and below a held cursor; unique ids stay unique |
| `BuildChunksWorker.InsertDescending` | src/bg_workers/build_chunks_worker.js:51 | inserting one chunk adds exactly that chunk (multiset) |
| `BuildChunksWorker.InsertKeepsDescending` | src/bg_workers/build_chunks_worker.js:51 | inserting a chunk with a new id into a strictly descending sequence keeps it strictly descending |
| `BuildChunksWorker.SortDescending` | src/bg_workers/build_chunks_worker.js:51 | `sort('-_id')` is a permutation of its input, and strictly descending by id when ids are unique |
| `BuildChunksWorker.Limit` | src/bg_workers/build_chunks_worker.js:51 | `limit(n)` keeps a prefix of length `min(n, size)`, and everything when `n` is 0 |
| `BuildChunksWorker.FindBatch` | src/bg_workers/build_chunks_worker.js:51 | the batch has at most `batch_size` chunks when `batch_size` > 0; a batch that is not full (or any batch under `limit(0)`) holds every matching chunk of the collection |
| `BuildChunksWorker.BatchMatches` | src/bg_workers/build_chunks_worker.js:22-51 | every chunk of the batch is a catalog chunk that is not deleted, is stale, is unclaimed and is below a held cursor |
| `BuildChunksWorker.BatchBelowCursor` | src/bg_workers/build_chunks_worker.js:42-48 | with a cursor held, every chunk of the batch has `_id < last_chunk_id` |
| `BuildChunksWorker.BatchShape` | src/bg_workers/build_chunks_worker.js:51 | when ids are unique, the batch has strictly decreasing ids |
| `BuildChunksWorker.BatchIsNewest` | src/bg_workers/build_chunks_worker.js:51 | a matching chunk left out of the batch was cut off by a full batch, and every batch chunk has a higher id than it |
| `BuildChunksWorker.FirstIsHighest` | src/bg_workers/build_chunks_worker.js:51-63 | the batch's first chunk, whose id becomes the cursor, has the highest id of the batch |
| `BuildChunksWorker.CursorMovesDown` | src/bg_workers/build_chunks_worker.js:42-63 | a cursor taken from a batch selected under a held cursor is strictly below the held one |
| `BuildChunksWorker.NextBoundAdmitsRestOfBatch` | src/bg_workers/build_chunks_worker.js:42-63 | the next query's bound excludes the batch's first chunk and admits every other chunk of the batch |
| `BuildChunksWorker.Worker.BackgroundWorker` | src/bg_workers/build_chunks_worker.js:19-88 | the query is built from `now`, the two timeouts and the current cursor. Only `last_chunk_id` changes. A failed query gives delay 10000 and keeps the cursor. Otherwise the cursor becomes the first batch id when the batch length equals `batch_size`, else it is cleared. The builder gets the batch exactly when the batch is non-empty. A builder failure gives delay 10000 and keeps the new cursor. Success gives 100 when a cursor is held, else 60000. An empty result with `batch_size` 0 throws: delay 10000, cursor kept |
| `ResourceUtils.CapacityLimit` | frontend/src/app/utils/resource-utils.js:72 | the low-capacity limit is the larger of 30 GB and a fifth of the free space |
| `ResourceUtils.HostsPoolEntry` | frontend/src/app/utils/resource-utils.js:9-90 | the hosts-pool table has an entry for exactly its fourteen modes; MANY_NODES_OFFLINE and LOW_CAPACITY are the only computed entries |
| `ResourceUtils.CloudResourceEntry` | frontend/src/app/utils/resource-utils.js:92-129 | the cloud table has an entry for exactly OPTIMAL, IO_ERRORS, STORAGE_NOT_EXIST, AUTH_FAILED, INITIALIZING and ALL_NODES_OFFLINE; STORAGE_NOT_EXIST is the only computed entry |
| `ResourceUtils.InternalResourceEntry` | frontend/src/app/utils/resource-utils.js:131-167 | the internal table has an entry for exactly INITIALIZING, LOW_CAPACITY, ALL_NODES_OFFLINE, NO_CAPACITY, IO_ERRORS and OPTIMAL; LOW_CAPACITY is the only computed entry |
| `ResourceUtils.NamespaceResourceEntry` | frontend/src/app/utils/resource-utils.js:169-175 | the namespace table has an entry for OPTIMAL only |
| `ResourceUtils.HostsPoolStateIcon` | frontend/src/app/utils/resource-utils.js:213-217 | a pool gets an icon exactly when its mode is one of the hosts-pool table's modes |
| `ResourceUtils.CloudResourceStateIcon` | frontend/src/app/utils/resource-utils.js:219-223 | a cloud resource gets an icon exactly when its mode is one of the cloud table's modes |
| `ResourceUtils.InternalResourceStateIcon` | frontend/src/app/utils/resource-utils.js:230-234 | an internal resource gets an icon exactly when its mode is one of the internal table's modes |
| `ResourceUtils.NamespaceResourceStateIcon` | frontend/src/app/utils/resource-utils.js:241-244 | a namespace resource gets an icon exactly when its mode is OPTIMAL |
| `ResourceUtils.LookupsFollowTheirTables` | frontend/src/app/utils/resource-utils.js:213-244 | each state lookup returns a fixed entry unchanged and applies a function entry to the resource; a mode missing from its table gives undefined; the namespace lookup returns its entry as is |
| `ResourceUtils.OptimalIsHealthy` | frontend/src/app/utils/resource-utils.js:85-174 | OPTIMAL gives tooltip 'Healthy', css 'success' and name 'healthy' in the hosts, cloud, internal and namespace tables |
| `ResourceUtils.HealthyExactlyWhenOptimal` | frontend/src/app/utils/resource-utils.js:9-175 | in each table the icon is 'success'/'healthy' exactly for OPTIMAL, and css 'error' always comes with the name 'problem' |
| `ResourceUtils.StorageNotExistTooltip` | frontend/src/app/utils/resource-utils.js:103-113 | STORAGE_NOT_EXIST gives css 'error' and name 'problem'; the tooltip names an Azure container exactly when the type is 'AZURE', and an S3 bucket otherwise |
| `ResourceUtils.LowCapacityLimit` | frontend/src/app/utils/resource-utils.js:70-79 | LOW_CAPACITY renders the same icon for host pools and internal resources, and the cloud table lacks it. The limit is at least 30 GB and at least a fifth of the free space |
| `ResourceUtils.ResourceStateIcon` | frontend/src/app/utils/resource-utils.js:251-256 | HOSTS, CLOUD and INTERNAL go to their lookups. Any other type yields `false`. A HOSTS or CLOUD lookup that finds nothing yields `false`, and an INTERNAL lookup that finds nothing yields `undefined` |
| `ResourceUtils.CloudResourceTypeIcon` | frontend/src/app/utils/resource-utils.js:225-228 | a cloud resource has a type icon exactly when its type is one of the six services; AZURE gets 'azure' |
| `ResourceUtils.NamespaceResourceTypeIcon` | frontend/src/app/utils/resource-utils.js:246-249 | a namespace resource's service is looked up in the same table as a cloud resource's type |
| `ResourceUtils.ResourceTypeDisplayName` | frontend/src/app/utils/resource-utils.js:322-324 | HOSTS is 'pool', CLOUD is 'cloud resource', and any other type is undefined |
| `ResourceUtils.ResourceId` | frontend/src/app/utils/resource-utils.js:209-211 | the id is the type, then ':', then the name |
| `ResourceUtils.ResourceIdInjective` | frontend/src/app/utils/resource-utils.js:209-211 | when no type holds a colon, two ids are equal exactly when their types and names are |
| `ResourceUtils.ResourceIdCollides` | frontend/src/app/utils/resource-utils.js:209-211 | a colon in a type lets two different (type, name) pairs share an id |
| `ResourceUtils.InternalResourceDisplayName` | frontend/src/app/utils/resource-utils.js:236-239 | the name changes exactly when it contains '-pool', and then loses at least five characters |
| `ResourceUtils.DisplayNameRemovesFirstMatch` | frontend/src/app/utils/resource-utils.js:236-239 | the first '-pool' and the rest of its line are removed, and the text from the next line break on is kept; a name without '-pool' is unchanged |
| `ResourceUtils.DisplayNameCutsAtMarker` | frontend/src/app/utils/resource-utils.js:236-239 | for a name without line breaks: the result is the prefix before the first '-pool'; a name without '-pool' is unchanged; the result never contains '-pool' |
| `ResourceUtils.DisplayNameIdempotent` | frontend/src/app/utils/resource-utils.js:236-239 | for a name without line breaks, taking the display name twice gives the same result as taking it once |
| `ResourceUtils.PlacementResources` | frontend/src/app/utils/resource-utils.js:262-265 | a resource is in the flattened placement exactly when it is in some mirror set |
| `ResourceUtils.ConnectionTest` | frontend/src/app/utils/resource-utils.js:260-273 | the test throws exactly when the bucket has no spillover and no matching placement resource; otherwise it is true exactly when a placement resource or the spillover has the given type and name |
| `ResourceUtils.ConnectedBuckets` | frontend/src/app/utils/resource-utils.js:258-274 | the result lists, in input order, exactly the buckets where a mirror-set resource or the spillover has the given type and name. The call throws exactly when some bucket has no spillover and no matching placement resource |
| `ResourceUtils.BucketEntry` | frontend/src/app/utils/resource-utils.js:279-311 | a bucket is dropped exactly when the resource id matches no placement resource and not the spillover, and the bucket reports no usage on it; an entry carries the bucket's name and `lastUpdate`, and its size is the reported usage or 0 |
| `ResourceUtils.BucketReason` | frontend/src/app/utils/resource-utils.js:279-311 | PLACEMENT_TARGET wins over SPILLOVER_TARGET, which wins over WAITING_TO_BE_WIPED. WAITING_TO_BE_WIPED applies only when usage is defined, and other buckets are dropped. The size is the usage, or 0 when undefined. All of this holds when no type holds a colon |
| `ResourceUtils.ConnectedIffTarget` | frontend/src/app/utils/resource-utils.js:258-311 | when the connection test does not throw, a bucket is connected exactly when its usage entry names it a placement or spillover target |
| `ResourceUtils.UsageList` | frontend/src/app/utils/resource-utils.js:278-313 | there is at most one entry per bucket |
| `ResourceUtils.UsageListMembers` | frontend/src/app/utils/resource-utils.js:278-313 | the list holds exactly the entries of the buckets that are not dropped |
| `ResourceUtils.UsageListAppend` | frontend/src/app/utils/resource-utils.js:278-313 | the list keeps bucket order: the list of `a + b` is the list of `a` followed by the list of `b` |
| `ResourceUtils.TotalSize` | frontend/src/app/utils/resource-utils.js:315 | every entry's size is at most the total |
| `ResourceUtils.WithRatios` | frontend/src/app/utils/resource-utils.js:316-319 | each record keeps its entry and gets ratio `size/total` when the total is positive, else 0 |
| `ResourceUtils.RatiosAddUp` | frontend/src/app/utils/resource-utils.js:315-319 | the ratios add up to the total size divided by the divisor |
| `ResourceUtils.SharesBounded` | frontend/src/app/utils/resource-utils.js:315-319 | every ratio lies between 0 and 1 |
| `ResourceUtils.SharesAddUpToOne` | frontend/src/app/utils/resource-utils.js:315-319 | the ratios add up to 1 when the total is positive |
| `ResourceUtils.UsageDistribution` | frontend/src/app/utils/resource-utils.js:276-319 | one record per undropped bucket, in order. Each ratio is `size/total` when the total is positive, else 0. Ratios lie in [0, 1] and add up to 1 when the total is positive |

## Left out

- `src/test/framework/runner.js` is not part of this model. It is a test-automation driver: shell commands, service restarts, HTTP polling, coverage collection and `process.exit`.
- MongoDB query execution (`find`, `limit`, `sort`, `lean`, `exec`) becomes the pure `FindBatch` over a sequence. Indexes, snapshots and concurrent writers are not modelled.
- Chunk ids are integers. MongoDB compares ObjectIds in the same total order. ObjectIds are always truthy, so a held cursor is `Some`.
- The ordering and completeness lemmas require unique ids (`DistinctIds`), which the collection's `_id` index guarantees.
- `MapBuilder` is not part of this model. Its `run()` is a success or failure outcome parameter.
- `Date.now()` becomes the parameter `now`. A failed database call becomes the `dbResult` parameter.
- Debug logging (`dbg.log0`, `dbg.error`) is left out.
- Where the worker's configuration fields are set is not part of this model. The constructor takes them as arguments.
- Two tooltips come from formatting libraries. MANY_NODES_OFFLINE uses `numeral(...).format('%')`, and LOW_CAPACITY uses `formatSize`. Their text is not modelled. The tooltip carries the values that would be formatted: offline and total host counts, and the limit in bytes.
- `CapacityLimit`: computes `max(30 GB, 0.2 * free)` exactly in `real`. It does not model floating-point rounding.
- `toBytes` is not part of this model. Sizes are taken as `nat` bytes.
- `deepFreeze` is left out. It only makes the tables immutable, and the model's tables are immutable functions anyway.
- Modes other than the eighteen that the tables name are not represented. Each table still lacks some of these eighteen, so the "mode not in table" path is modelled.
- Resource types, cloud types and services are strings, as the source compares and concatenates them. A key inherited from `Object.prototype` (such as `toString`) would make the JavaScript lookups return a function. This is not modelled.
- The bucket collection is a sequence in the order `Object.values` yields.
- `ConnectedBuckets`: states order as "the result is a subsequence of the input", plus membership in both directions. It does not state how many times a bucket value that occurs twice in the input is kept.
- `WithRatios`, `SharesAddUpToOne`, `UsageDistribution`: ratios are exact `real` quotients. The source divides JavaScript doubles (`record.size / totalUsage`), and the model does not capture their rounding. The doubles need not add up to exactly 1: sizes 1, 4 and 1 give 0.9999999999999999.
- Every modelled bucket has a `placement` and a `usageDistribution`. A bucket that lacks either makes `bucket.placement.mirrorSets` (resource-utils.js:263) or `usageDistribution.resources` (resource-utils.js:281) throw in the source. The model does not capture that case.
