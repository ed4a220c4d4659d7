# Forced disk-store compaction, modelled in Dafny

This project models the orchestration logic of `CompactDiskStoresFunction`, a
Geode/GemFire server function. The function takes a scope (`ALL`, `REGION`,
`GATEWAY`, `QUEUE` or `STORE`) and works in three stages:

1. It resolves the scope to an ordered list of `DiskStoreGroup(sourceName, type, diskStoreName)` records.
2. It forces a compaction of each group's disk store.
3. It builds a text report with one line per group.

The cache runtime is replaced by an explicit, read-only snapshot, `Inventory.Cache`. It holds:

- the regions, gateway senders and async event queues, in iteration order, each with an id and a nullable disk store name;
- the set of names `listDiskStores().contains` accepts;
- what `findDiskStore` returns for a name: the store's allow-force-compaction flag and how the store answers `forceCompaction()` (true, false or an exception with a message).

Java `null` is `Option.None`. When Java appends a null String to the
StringBuilder, the text `"null"` is written (`Exceptions.Text`). A
NullPointerException that escapes the function is `Error.NullPointer(site)`.

| file | module | models |
|---|---|---|
| Wrappers.dfy | Wrappers | Option (nullable reference) and Result (return or throw) |
| DiskStoreGroup.dfy | Group | `DiskStoreGroup` and the `CompactType` enum |
| Exceptions.dfy | Exceptions | the exceptions that escape `execute` |
| Inventory.dfy | Inventory | the cache snapshot |
| CompactDiskStoresFunction.dfy | CompactDiskStoresFunction | the resolvers, `processDiskStores`, `compactDiskStores`, `execute` |
| Properties.dfy | CompactDiskStoresProperties | lemmas about the functions that specify those methods |

The source's methods are Dafny methods with the source's loops:

- the resolvers build their lists in `for` loops;
- `getSource` is a search with an early return;
- `processDiskStores` appends to a string inside a loop;
- `execute` upper-cases `functionArgs[0]` in place in an `array`.

Each method is proved equal to a specification function, such as `Process` or `ExecuteSpec`. The lemmas are stated about those functions.

Every run returns `Run(result, compacted)`. The `compacted` list holds the
store names `forceCompaction()` was called on, in call order. On an error it
holds the calls made before the error.

Behaviour of the code that may be surprising:

- **Failed lookup.** `findDiskStore(...)` is dereferenced at line 83, outside the `try`. If that lookup fails, the whole request fails with a NullPointerException, and compactions of earlier groups have already run (`ProcessFirstAbort`). No failure line is written for that group.
- **The second argument.** Line 160 compares `functionArgs[1]`, not the scope, to `"STORE"`. So `["STORE", name]` does nothing for any non-empty name other than `"STORE"`; with an empty name it compacts the STORE scope with a null name, which fails with NoDiskStoreExistsException (`ExecuteTwoArgsIgnored`, `ExecuteOtherArgs`, `SingleStoreMissing`, `StoreScopeOnlyForStoreNamedStore`).
- **Unknown scope.** Whenever `CompactType.valueOf` is reached (not in the ignored two-argument case), an unknown scope token fails there with IllegalArgumentException, not with InvalidArgTypeSpecifiedException (`ExecuteUnknownScope`).
- **Null store names.** A region, sender or queue whose disk store name is null makes `getSource` throw if it comes before the first match (`SourceOfNullBeforeMatch`).
- **Exception line.** The line for an exception reads `" exception: <msg> compaction failed exception message: "`.
- **The response.** `execute` computes `response` but never sends it. The model returns it.

## Model

| member | source | states |
|---|---|---|
| Group.ValuesAreTheFiveConstants | src/main/java/com/vmware/function/group/DiskStoreGroup.java:13 | the enum has exactly the five distinct values ALL, QUEUE, REGION, GATEWAY, STORE |
| Group.ValueOf | src/main/java/com/vmware/function/group/DiskStoreGroup.java:13 | valueOf returns only a constant whose name is exactly the token |
| Group.ValueOfName | src/main/java/com/vmware/function/group/DiskStoreGroup.java:13 | valueOf(toString(t)) == t for every constant |
| Group.ValueOfOnlyNames | src/main/java/com/vmware/function/group/DiskStoreGroup.java:13 | valueOf accepts exactly the five names (not PDX) and rejects every other token |
| Group.NameInjective | src/main/java/com/vmware/function/group/DiskStoreGroup.java:13 | distinct constants have distinct names, so the name mapping is a bijection |
| Group.AllArgsGetters | src/main/java/com/vmware/function/group/DiskStoreGroup.java:8-16 | the all-args constructor stores (sourceName, type, diskStoreName) in order and each getter returns its field |
| Group.EmptyGroup | src/main/java/com/vmware/function/group/DiskStoreGroup.java:9 | the no-args constructor leaves all three fields null |
| Group.WithSourceName | src/main/java/com/vmware/function/group/DiskStoreGroup.java:11-14 | setSourceName sets sourceName and leaves the other two fields unchanged |
| Group.WithCompactType | src/main/java/com/vmware/function/group/DiskStoreGroup.java:11-15 | setType sets the type and leaves the other two fields unchanged |
| Group.WithDiskStoreName | src/main/java/com/vmware/function/group/DiskStoreGroup.java:11-16 | setDiskStoreName sets diskStoreName and leaves the other two fields unchanged |
| Exceptions.InvalidArgType | src/main/java/com/vmware/function/exceptions/InvalidArgTypeSpecifiedException.java:3-8 | the exception's message is the given message, a newline, then the list of valid arguments |
| CompactDiskStoresFunction.MemberGroups | src/main/java/com/vmware/function/CompactDiskStoresFunction.java:44-69 | one group per inventory entry, same length and order, source = entry id, store = entry's store, given type |
| CompactDiskStoresFunction.CollectGroups | src/main/java/com/vmware/function/CompactDiskStoresFunction.java:47-49 | the for-each loop that adds one group per member builds exactly MemberGroups |
| CompactDiskStoresFunction.GetRegions | src/main/java/com/vmware/function/CompactDiskStoresFunction.java:62-69 | one REGION group per application region, in iteration order |
| CompactDiskStoresFunction.GetGatewaySenders | src/main/java/com/vmware/function/CompactDiskStoresFunction.java:44-51 | one GATEWAY group per gateway sender, in iteration order |
| CompactDiskStoresFunction.GetAsyncQueues | src/main/java/com/vmware/function/CompactDiskStoresFunction.java:53-60 | one QUEUE group per async event queue, in iteration order |
| CompactDiskStoresFunction.GetAll | src/main/java/com/vmware/function/CompactDiskStoresFunction.java:71-77 | regions ++ senders ++ queues; its length is the sum of the three |
| CompactDiskStoresProperties.AllGroupsOrder | src/main/java/com/vmware/function/CompactDiskStoresFunction.java:71-77 | index by index, region groups come first, then gateway groups, then queue groups, each in inventory order |
| CompactDiskStoresFunction.GetSource | src/main/java/com/vmware/function/CompactDiskStoresFunction.java:25-32 | the early-return search computes SourceOf |
| CompactDiskStoresProperties.SourceOfFirstMatch | src/main/java/com/vmware/function/CompactDiskStoresFunction.java:25-30 | the result is the sourceName of the first group whose store equals the name |
| CompactDiskStoresProperties.SourceOfNoMatch | src/main/java/com/vmware/function/CompactDiskStoresFunction.java:25-32 | when every group has a non-null store name other than the name, the result is null |
| CompactDiskStoresProperties.SourceOfNullBeforeMatch | src/main/java/com/vmware/function/CompactDiskStoresFunction.java:26-27 | a null store name before the first match throws NullPointerException |
| CompactDiskStoresFunction.GetSingleStore | src/main/java/com/vmware/function/CompactDiskStoresFunction.java:34-42 | the method computes SingleStore: listed-name check first, then getAll and getSource |
| CompactDiskStoresProperties.SingleStoreMissing | src/main/java/com/vmware/function/CompactDiskStoresFunction.java:36-38 | an unlisted or null name throws NoDiskStoreExistsException with its message, and nothing is compacted |
| CompactDiskStoresProperties.SingleStoreFound | src/main/java/com/vmware/function/CompactDiskStoresFunction.java:39-41 | a listed name resolves to exactly one STORE group with that store and source getSource(getAll(cache), name) |
| CompactDiskStoresProperties.SingleStoreUnowned | src/main/java/com/vmware/function/CompactDiskStoresFunction.java:39-41 | a listed store that backs nothing resolves with a null source, not an error |
| CompactDiskStoresFunction.Process | src/main/java/com/vmware/function/CompactDiskStoresFunction.java:79-130 | a produced report starts with "\n" |
| CompactDiskStoresFunction.ProcessAbortIsFinal | src/main/java/com/vmware/function/CompactDiskStoresFunction.java:82-128 | once a group throws out of the loop, later groups change neither the outcome nor the calls made |
| CompactDiskStoresFunction.ProcessDiskStores | src/main/java/com/vmware/function/CompactDiskStoresFunction.java:79-130 | the StringBuilder loop with its try/catch computes Process, including the compaction calls made |
| CompactDiskStoresProperties.ProcessReport | src/main/java/com/vmware/function/CompactDiskStoresFunction.java:81-129 | without an abort, report = "\n" + one line per group in input order (no filtering or deduplication), and forceCompaction is called once per group whose store allows it, in order |
| CompactDiskStoresProperties.ProcessOk | src/main/java/com/vmware/function/CompactDiskStoresFunction.java:82-127 | a report is produced if and only if no group's lookup fails and no group's type is null |
| CompactDiskStoresProperties.ProcessFirstAbort | src/main/java/com/vmware/function/CompactDiskStoresFunction.java:83-84 | the first group whose lookup fails or whose type is null ends the request with that NullPointerException, after earlier groups were compacted |
| CompactDiskStoresProperties.ProcessErrorsAreNullPointers | src/main/java/com/vmware/function/CompactDiskStoresFunction.java:83-121 | the only errors escaping processDiskStores are the failed lookup and the null type |
| CompactDiskStoresProperties.ProcessConcat | src/main/java/com/vmware/function/CompactDiskStoresFunction.java:82-128 | processing a ++ b is processing a then b: lines and calls concatenate, an abort in a stops b |
| CompactDiskStoresProperties.LineOutcome | src/main/java/com/vmware/function/CompactDiskStoresFunction.java:83-127 | each line starts with "disk store: <store> type: <type> source: <source>" and ends with "\n"; flag false gives the "cannot be compacted" line with forceCompaction not called; true, false and an exception give " compaction successful", " compaction failed" and the exception text |
| CompactDiskStoresProperties.AppendLine | src/main/java/com/vmware/function/CompactDiskStoresFunction.java:88-125 | appending a line equals appending its pieces in the order of the StringBuilder calls |
| CompactDiskStoresProperties.ProcessLineCount | src/main/java/com/vmware/function/CompactDiskStoresFunction.java:81-129 | when no printed text contains a newline, the report holds exactly |groups| + 1 newlines |
| CompactDiskStoresProperties.ProcessSkipped | src/main/java/com/vmware/function/CompactDiskStoresFunction.java:117-125 | a store with allow-forced-compaction false yields the "cannot be compacted" line and no compaction call |
| CompactDiskStoresProperties.ExceptionIsIsolated | src/main/java/com/vmware/function/CompactDiskStoresFunction.java:105-116 | when no group's lookup fails and no type is null, an exception from forceCompaction becomes its line, and the report still has one line for every group |
| CompactDiskStoresFunction.CompactDiskStores | src/main/java/com/vmware/function/CompactDiskStoresFunction.java:132-150 | each of the five types runs its resolver, then processDiskStores; a resolution error means no compaction |
| CompactDiskStoresProperties.AllIsRegionsThenGatewaysThenQueues | src/main/java/com/vmware/function/CompactDiskStoresFunction.java:136-146 | the ALL result is the REGION result, then the GATEWAY result, then the QUEUE result |
| CompactDiskStoresProperties.StoreScopeSkipped | src/main/java/com/vmware/function/CompactDiskStoresFunction.java:137-138 | STORE on a listed store whose flag is false yields one "cannot be compacted" line and no compaction call |
| CompactDiskStoresFunction.UpperCase | src/main/java/com/vmware/function/CompactDiskStoresFunction.java:158 | toUpperCase keeps the length, turns each lower-case ASCII letter into its upper-case letter, leaves no lower-case ASCII letter and keeps every other character |
| CompactDiskStoresFunction.Execute | src/main/java/com/vmware/function/CompactDiskStoresFunction.java:152-171 | functionArgs[0] is upper-cased in place and nothing else in the array changes; the outcome is ExecuteSpec |
| CompactDiskStoresProperties.ExecuteMissingScope | src/main/java/com/vmware/function/CompactDiskStoresFunction.java:157-169 | null or empty arguments throw InvalidArgTypeSpecifiedException with its full message, and nothing is compacted |
| CompactDiskStoresProperties.ExecuteTwoArgsIgnored | src/main/java/com/vmware/function/CompactDiskStoresFunction.java:159-163 | two arguments with a non-empty second argument other than "STORE": no error, no compaction, response null |
| CompactDiskStoresProperties.ExecuteSecondArgStore | src/main/java/com/vmware/function/CompactDiskStoresFunction.java:159-162 | two arguments with second argument "STORE": compactDiskStores(valueOf(upper(arg0)), "STORE") |
| CompactDiskStoresProperties.ExecuteOtherArgs | src/main/java/com/vmware/function/CompactDiskStoresFunction.java:164-166 | any other argument count, or an empty second argument: compactDiskStores(valueOf(upper(arg0)), null) |
| CompactDiskStoresProperties.ExecuteUnknownScope | src/main/java/com/vmware/function/CompactDiskStoresFunction.java:158-166 | a token that valueOf rejects throws IllegalArgumentException before anything is compacted |
| CompactDiskStoresProperties.StoreScopeOnlyForStoreNamedStore | src/main/java/com/vmware/function/CompactDiskStoresFunction.java:158-166 | a STORE-scope request reports only when the arguments are exactly [store, "STORE"] and a disk store named "STORE" is listed |
| CompactDiskStoresProperties.ErrorsBeforeCompaction | src/main/java/com/vmware/function/CompactDiskStoresFunction.java:132-169 | a request that fails after compacting something failed with a lookup or null-type NullPointerException; every other error comes before any compaction |
| CompactDiskStoresProperties.ScopeLineCount | src/main/java/com/vmware/function/CompactDiskStoresFunction.java:139-146 | when no id, store name or exception message contains a newline, a one-argument ALL/REGION/GATEWAY/QUEUE report has 1 + (number of resolved inventory entries) newlines |
| CompactDiskStoresProperties.ExampleAllReport | src/main/java/com/vmware/function/CompactDiskStoresFunction.java:145-146 | example: region R1 on storeA and sender G1 on storeB, argument "all": the exact two-line report, region line first |

## Left out

- The cache runtime is not modelled. `CacheFactory.getAnyInstance()` and the `InternalCache`, `DiskStore`, `GatewaySender` and `AsyncEventQueue` calls are replaced by the `Cache` snapshot. What `listDiskStores().contains` and `findDiskStore` answer is taken from it, and so is how a null name is treated (a null name is never listed).
- The `Set` iteration order of regions, senders and queues is a given sequence.
- During one request, a store answers every `forceCompaction()` call the same way. Two groups backed by the same store get the same outcome. The storage I/O itself is not modelled.
- Only `Exception`s thrown by `forceCompaction()` are caught, as in the source. Java `Error`s are not modelled.
- slf4j logging (lines 84, 87, 96, 106, 118, 161, 165) is not modelled; it is a side effect only. The model keeps one effect of line 84: its argument `group.getType().toString()` throws when the type is null.
- The `FunctionContext` is not modelled. `execute` never sends `response` through it, so the model returns the computed response, or `None` where it stays null.
- The constant methods `hasResult`, `getId`, `optimizeForWrite` and `isHA` (lines 173-191) are not modelled. They have no behaviour.
- The `default` branch of the switch (lines 147-148) is not modelled; it cannot be reached. An unknown token fails earlier, in `CompactType.valueOf`.
- The unused locals `compactResponses` (line 80) and `diskStoreGroups` (line 133) are not modelled.
- The legacy `com.vmware.gemfire` package (the enum with PDX, and `InvalidArgumentTypeException`) is not modelled. The function never imports it.
- `NoDiskStoreExistsException` is not part of this model beyond its message string.
- Concurrency between worker threads and concurrent compactions is not modelled. The model is one sequential request.
- UpperCase: models `String.toUpperCase()` on ASCII letters only. Locale rules and non-ASCII case mappings (for example `ß` to `SS`, which changes the length) are not modelled.
- Execute: a null element in the argument array is not modelled; the elements are non-null strings.
- Repeated requests have no separate lemma: `ExecuteSpec` is a function of the snapshot, so two `ALL` requests on the same snapshot give the same `Run`.
