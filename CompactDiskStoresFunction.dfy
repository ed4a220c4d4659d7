/** The orchestration of CompactDiskStoresFunction: resolve the disk store
    groups a request names, force a compaction of each, and report on each in
    one line. The cache runtime is the Inventory.Cache snapshot passed in. */
module CompactDiskStoresFunction {
  import opened Wrappers
  import opened Group
  import opened Exceptions
  import opened Inventory

  /** What a call returns or throws, together with the names of the disk
      stores `forceCompaction()` was invoked on, in call order. */
  datatype Run<+T> = Run(result: Result<T, Error>, compacted: seq<Option<string>>)

  // ---------------------------------------------------------------------
  // Target resolution
  // ---------------------------------------------------------------------

  /** The group a region, sender or queue contributes under scope t. */
  function MemberGroup(m: Member, t: CompactType): DiskStoreGroup
  {
    DiskStoreGroup(Some(m.id), Some(t), m.diskStoreName)
  }

  /** One group per member, in iteration order. */
  function MemberGroups(ms: seq<Member>, t: CompactType): (r: seq<DiskStoreGroup>)
    ensures |r| == |ms|
    ensures forall i :: 0 <= i < |ms| ==> r[i] == MemberGroup(ms[i], t)
  {
    if ms == [] then [] else MemberGroups(ms[..|ms| - 1], t) + [MemberGroup(ms[|ms| - 1], t)]
  }

  /** Regions, then gateway senders, then async event queues. */
  function AllGroups(c: Cache): seq<DiskStoreGroup>
  {
    MemberGroups(c.regions, REGION) + MemberGroups(c.gatewaySenders, GATEWAY)
      + MemberGroups(c.asyncEventQueues, QUEUE)
  }

  /** The for-each loop shared by getRegions, getGatewaySenders and
      getAsyncQueues: a fresh list, one `add` per member. */
  method CollectGroups(ms: seq<Member>, t: CompactType) returns (groups: seq<DiskStoreGroup>)
    ensures groups == MemberGroups(ms, t)
  {
    groups := [];
    for i := 0 to |ms|
      invariant groups == MemberGroups(ms[..i], t)
    {
      assert ms[..i + 1][..i] == ms[..i];
      groups := groups + [MemberGroup(ms[i], t)];
    }
    assert ms[..|ms|] == ms;
  }

  method GetRegions(c: Cache) returns (groups: seq<DiskStoreGroup>)
    ensures groups == MemberGroups(c.regions, REGION)
  {
    groups := CollectGroups(c.regions, REGION);
  }

  method GetGatewaySenders(c: Cache) returns (groups: seq<DiskStoreGroup>)
    ensures groups == MemberGroups(c.gatewaySenders, GATEWAY)
  {
    groups := CollectGroups(c.gatewaySenders, GATEWAY);
  }

  method GetAsyncQueues(c: Cache) returns (groups: seq<DiskStoreGroup>)
    ensures groups == MemberGroups(c.asyncEventQueues, QUEUE)
  {
    groups := CollectGroups(c.asyncEventQueues, QUEUE);
  }

  method GetAll(c: Cache) returns (all: seq<DiskStoreGroup>)
    ensures all == AllGroups(c)
    ensures |all| == |c.regions| + |c.gatewaySenders| + |c.asyncEventQueues|
  {
    all := [];
    var regions := GetRegions(c);
    all := all + regions;
    var senders := GetGatewaySenders(c);
    all := all + senders;
    var queues := GetAsyncQueues(c);
    all := all + queues;
  }

  /** The source of the first group backed by store `name`; null when none is.
      A null store name met before a match throws when `equals` is called on it. */
  function SourceOf(groups: seq<DiskStoreGroup>, name: string): Result<Option<string>, Error>
  {
    if groups == [] then Ok(None)
    else if groups[0].diskStoreName.None? then Err(NullPointer(GroupStoreName))
    else if groups[0].diskStoreName.value == name then Ok(groups[0].sourceName)
    else SourceOf(groups[1..], name)
  }

  /** getSource: a search with an early return. */
  method GetSource(groups: seq<DiskStoreGroup>, diskStoreName: string) returns (r: Result<Option<string>, Error>)
    ensures r == SourceOf(groups, diskStoreName)
  {
    for i := 0 to |groups|
      invariant SourceOf(groups[i..], diskStoreName) == SourceOf(groups, diskStoreName)
    {
      var grp := groups[i];
      assert groups[i..][1..] == groups[i + 1..];
      if grp.diskStoreName.None? {
        return Err(NullPointer(GroupStoreName));
      }
      if grp.diskStoreName.value == diskStoreName {
        return Ok(grp.sourceName);
      }
    }
    return Ok(None);
  }

  /** The message of the NoDiskStoreExistsException getSingleStore throws. */
  function NoSuchStoreMessage(name: Option<string>): string
  {
    "Unable to compact disk store " + Text(name) + " since it does not exist"
  }

  /** getSingleStore: the name must be listed (a null name never is); then one
      STORE group whose source is found by searching all groups. */
  function SingleStore(c: Cache, name: Option<string>): Result<seq<DiskStoreGroup>, Error>
  {
    if name.None? || name.value !in c.listedStores then Err(NoDiskStoreExists(NoSuchStoreMessage(name)))
    else match SourceOf(AllGroups(c), name.value)
      case Err(e) => Err(e)
      case Ok(source) => Ok([DiskStoreGroup(source, Some(STORE), name)])
  }

  method GetSingleStore(c: Cache, diskStoreName: Option<string>) returns (r: Result<seq<DiskStoreGroup>, Error>)
    ensures r == SingleStore(c, diskStoreName)
  {
    if diskStoreName.None? || diskStoreName.value !in c.listedStores {
      return Err(NoDiskStoreExists(NoSuchStoreMessage(diskStoreName)));
    }
    var allDiskStoreGroups := GetAll(c);
    var source := GetSource(allDiskStoreGroups, diskStoreName.value);
    match source
    case Err(e) =>
      r := Err(e);
    case Ok(s) =>
      r := Ok([DiskStoreGroup(s, Some(STORE), diskStoreName)]);
  }

  /** The groups scope t resolves to. */
  function Resolve(c: Cache, t: CompactType, name: Option<string>): Result<seq<DiskStoreGroup>, Error>
  {
    match t
    case STORE => SingleStore(c, name)
    case QUEUE => Ok(MemberGroups(c.asyncEventQueues, QUEUE))
    case GATEWAY => Ok(MemberGroups(c.gatewaySenders, GATEWAY))
    case REGION => Ok(MemberGroups(c.regions, REGION))
    case ALL => Ok(AllGroups(c))
  }

  // ---------------------------------------------------------------------
  // Report building
  // ---------------------------------------------------------------------

  const CompactionSuccessful: string := " compaction successful"
  const CompactionFailed: string := " compaction failed"
  const ExceptionLabel: string := " exception: "
  const ExceptionTrailer: string := " compaction failed exception message: "
  // The text appended at CompactDiskStoresFunction.java:125, split into pieces only to keep proofs about it cheap.
  const ForcedCompactionDisallowed: string := " cannot be compacted - " + "allow-forced-" + "compaction is false"

  /** Processing this group throws out of the loop: findDiskStore returns null
      (the lookup sits outside the try), or the type to print is null. */
  predicate Aborts(c: Cache, g: DiskStoreGroup)
  {
    g.diskStoreName !in c.diskStores || g.compactType.None?
  }

  function AbortError(c: Cache, g: DiskStoreGroup): Error
    requires Aborts(c, g)
  {
    if g.diskStoreName !in c.diskStores then NullPointer(StoreLookup) else NullPointer(GroupType)
  }

  /** forceCompaction() is invoked for this group. */
  predicate Compacts(c: Cache, g: DiskStoreGroup)
  {
    !Aborts(c, g) && c.diskStores[g.diskStoreName].allowForceCompaction
  }

  /** "disk store: <store> type: <type> source: <source>" */
  function LinePrefix(g: DiskStoreGroup): string
    requires g.compactType.Some?
  {
    "disk store: " + Text(g.diskStoreName) + " type: " + Name(g.compactType.value)
      + " source: " + Text(g.sourceName)
  }

  /** How the line for a store ends, before its newline. */
  function Detail(ds: DiskStore): string
  {
    if !ds.allowForceCompaction then ForcedCompactionDisallowed
    else match ds.forceCompaction
      case Compacted => CompactionSuccessful
      case Declined => CompactionFailed
      case Raised(message) => ExceptionLabel + Text(message) + ExceptionTrailer
  }

  /** The line appended for a group that does not abort. */
  function LineText(c: Cache, g: DiskStoreGroup): string
    requires !Aborts(c, g)
  {
    LinePrefix(g) + Detail(c.diskStores[g.diskStoreName]) + "\n"
  }

  /** One turn of processDiskStores' loop: the line for g is appended, and g's
      store is compacted if it allows it; an abort ends the run. */
  function Extend(c: Cache, before: Run<string>, g: DiskStoreGroup): Run<string>
  {
    if before.result.Err? then before
    else if Aborts(c, g) then Run(Err(AbortError(c, g)), before.compacted)
    else Run(Ok(before.result.value + LineText(c, g)),
             before.compacted + (if Compacts(c, g) then [g.diskStoreName] else []))
  }

  /** processDiskStores over `groups`: a report that starts with a newline and
      grows by one line per group, until a group aborts. */
  function Process(c: Cache, groups: seq<DiskStoreGroup>): (r: Run<string>)
    ensures r.result.Ok? ==> |r.result.value| > 0 && r.result.value[0] == '\n'
    decreases |groups|
  {
    if groups == [] then Run(Ok("\n"), [])
    else Extend(c, Process(c, groups[..|groups| - 1]), groups[|groups| - 1])
  }

  /** Once a prefix of the groups has aborted, later groups change nothing. */
  lemma {:induction false} ProcessAbortIsFinal(c: Cache, groups: seq<DiskStoreGroup>, k: nat)
    requires k <= |groups|
    requires Process(c, groups[..k]).result.Err?
    ensures Process(c, groups) == Process(c, groups[..k])
    decreases |groups|
  {
    if k < |groups| {
      var prefix := groups[..|groups| - 1];
      assert prefix[..k] == groups[..k];
      ProcessAbortIsFinal(c, prefix, k);
    } else {
      assert groups[..k] == groups;
    }
  }

  /** processDiskStores: the StringBuilder loop with its try/catch. */
  method ProcessDiskStores(c: Cache, groups: seq<DiskStoreGroup>) returns (run: Run<string>)
    ensures run == Process(c, groups)
  {
    var sb := "\n";
    var compacted: seq<Option<string>> := [];
    for i := 0 to |groups|
      invariant Process(c, groups[..i]) == Run(Ok(sb), compacted)
    {
      var group := groups[i];
      assert groups[..i + 1][..i] == groups[..i];
      var store := FindDiskStore(c, group.diskStoreName);
      if store.None? {
        ProcessAbortIsFinal(c, groups, i + 1);
        return Run(Err(NullPointer(StoreLookup)), compacted);
      }
      if group.compactType.None? {
        ProcessAbortIsFinal(c, groups, i + 1);
        return Run(Err(NullPointer(GroupType)), compacted);
      }
      var prefix := "disk store: " + Text(group.diskStoreName) + " type: " + Name(group.compactType.value)
        + " source: " + Text(group.sourceName);
      var detail;
      if store.value.allowForceCompaction {
        compacted := compacted + [group.diskStoreName];
        match store.value.forceCompaction
        case Compacted =>
          detail := CompactionSuccessful;
        case Declined =>
          detail := CompactionFailed;
        case Raised(message) =>
          detail := ExceptionLabel + Text(message) + ExceptionTrailer;
      } else {
        detail := ForcedCompactionDisallowed;
      }
      assert prefix + detail + "\n" == LineText(c, group);
      sb := sb + (prefix + detail + "\n");
    }
    assert groups[..|groups|] == groups;
    run := Run(Ok(sb), compacted);
  }

  // ---------------------------------------------------------------------
  // Dispatch and argument parsing
  // ---------------------------------------------------------------------

  /** compactDiskStores: resolve, then process. A resolution failure throws
      before anything is compacted. */
  function Compact(c: Cache, t: CompactType, name: Option<string>): Run<string>
  {
    match Resolve(c, t, name)
    case Err(e) => Run(Err(e), [])
    case Ok(groups) => Process(c, groups)
  }

  method CompactDiskStores(c: Cache, t: CompactType, diskStoreName: Option<string>) returns (run: Run<string>)
    ensures run == Compact(c, t, diskStoreName)
  {
    var groups: Result<seq<DiskStoreGroup>, Error>;
    match t {
      case STORE =>
        groups := GetSingleStore(c, diskStoreName);
      case QUEUE =>
        var queues := GetAsyncQueues(c);
        groups := Ok(queues);
      case GATEWAY =>
        var senders := GetGatewaySenders(c);
        groups := Ok(senders);
      case REGION =>
        var regions := GetRegions(c);
        groups := Ok(regions);
      case ALL =>
        var all := GetAll(c);
        groups := Ok(all);
    }
    if groups.Err? {
      return Run(Err(groups.error), []);
    }
    run := ProcessDiskStores(c, groups.value);
  }

  /** `Character.toUpperCase` on the ASCII letters. */
  function UpperChar(ch: char): char
  {
    if IsLowerAscii(ch) then (ch as int - 32) as char else ch
  }

  predicate IsLowerAscii(ch: char)
  {
    'a' <= ch <= 'z'
  }

  /** `String.toUpperCase()`: same length, each lower-case letter becomes its
      upper-case letter, every other character kept. */
  function UpperCase(s: string): (r: string)
    ensures |r| == |s|
    ensures forall i :: 0 <= i < |s| ==> !IsLowerAscii(r[i])
    ensures forall i :: 0 <= i < |s| && IsLowerAscii(s[i]) ==> r[i] as int == s[i] as int - ('a' as int - 'A' as int)
    ensures forall i :: 0 <= i < |s| && !IsLowerAscii(s[i]) ==> r[i] == s[i]
  {
    seq(|s|, i requires 0 <= i < |s| => UpperChar(s[i]))
  }

  /** `compactDiskStores(CompactType.valueOf(token), name)`, with the report
      as the (never sent) response. */
  function Request(c: Cache, token: string, name: Option<string>): Run<Option<string>>
  {
    match ValueOf(token)
    case None => Run(Err(IllegalArgument(token)), [])
    case Some(t) =>
      var run := Compact(c, t, name);
      match run.result
      case Err(e) => Run(Err(e), run.compacted)
      case Ok(report) => Run(Ok(Some(report)), run.compacted)
  }

  /** execute on the function arguments (None for a null array). Ok(None) is a
      response left null. The second argument is tested against "STORE". */
  function ExecuteSpec(c: Cache, functionArgs: Option<seq<string>>): Run<Option<string>>
  {
    if functionArgs.None? || |functionArgs.value| == 0 then
      Run(Err(InvalidArgType("Compaction request type was not specified")), [])
    else
      var args := functionArgs.value[0 := UpperCase(functionArgs.value[0])];
      if |args| == 2 && args[1] != "" then
        if args[1] == Name(STORE) then Request(c, args[0], Some(args[1]))
        else Run(Ok(None), [])
      else Request(c, args[0], None)
  }

  /** execute: upper-cases the first argument in place, then dispatches. */
  method Execute(c: Cache, functionArgs: array?<string>) returns (run: Run<Option<string>>)
    modifies functionArgs
    ensures run == ExecuteSpec(c, if functionArgs == null then None else Some(old(functionArgs[..])))
    ensures functionArgs != null && functionArgs.Length > 0 ==>
      functionArgs[..] == old(functionArgs[..])[0 := UpperCase(old(functionArgs[0]))]
    ensures functionArgs != null && functionArgs.Length == 0 ==> functionArgs[..] == old(functionArgs[..])
  {
    var response: Option<string> := None;
    var compacted: seq<Option<string>> := [];
    if functionArgs != null && functionArgs.Length > 0 {
      functionArgs[0] := UpperCase(functionArgs[0]);
      if functionArgs.Length == 2 && functionArgs[1] != "" {
        if functionArgs[1] == Name(STORE) {
          var t := ValueOf(functionArgs[0]);
          if t.None? {
            return Run(Err(IllegalArgument(functionArgs[0])), []);
          }
          var r := CompactDiskStores(c, t.value, Some(functionArgs[1]));
          if r.result.Err? {
            return Run(Err(r.result.error), r.compacted);
          }
          response, compacted := Some(r.result.value), r.compacted;
        }
      } else {
        var t := ValueOf(functionArgs[0]);
        if t.None? {
          return Run(Err(IllegalArgument(functionArgs[0])), []);
        }
        var r := CompactDiskStores(c, t.value, None);
        if r.result.Err? {
          return Run(Err(r.result.error), r.compacted);
        }
        response, compacted := Some(r.result.value), r.compacted;
      }
    } else {
      return Run(Err(InvalidArgType("Compaction request type was not specified")), []);
    }
    run := Run(Ok(response), compacted);
  }
}
