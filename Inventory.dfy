/** The part of the cache runtime the compaction function reads: a snapshot of
    its regions, gateway senders, async event queues and disk stores. */
module Inventory {
  import opened Wrappers

  /** A region, gateway sender or async event queue: its name or id, and the
      name of the disk store it is configured with (null when it has none). */
  datatype Member = Member(id: string, diskStoreName: Option<string>)

  /** What `DiskStore.forceCompaction()` does when called. */
  datatype CompactionOutcome =
    | Compacted                          // returns true
    | Declined                           // returns false
    | Raised(message: Option<string>)    // throws; getMessage() may be null

  /** A disk store as the function sees it: its allow-force-compaction flag and
      how it answers a forced compaction during this request. */
  datatype DiskStore = DiskStore(allowForceCompaction: bool, forceCompaction: CompactionOutcome)

  /** The snapshot. `listedStores` holds the names for which
      `listDiskStores().contains(name)` is true; `diskStores` is what
      `findDiskStore(name)` finds, a name it does not hold returning null. */
  datatype Cache = Cache(
    regions: seq<Member>,
    gatewaySenders: seq<Member>,
    asyncEventQueues: seq<Member>,
    listedStores: set<string>,
    diskStores: map<Option<string>, DiskStore>)

  /** `cache.findDiskStore(name)`. */
  function FindDiskStore(c: Cache, name: Option<string>): (r: Option<DiskStore>)
    ensures r.Some? <==> name in c.diskStores
    ensures r.Some? ==> r.value == c.diskStores[name]
  {
    if name in c.diskStores then Some(c.diskStores[name]) else None
  }
}
