/** The record passed between the stages of the compaction function, and the
    enumeration of compaction scopes (package com.vmware.function.group). */
module Group {
  import opened Wrappers

  /** The scope of a compaction request. There is no PDX value in this
      (non-legacy) enumeration. */
  datatype CompactType = ALL | QUEUE | REGION | GATEWAY | STORE

  /** The constants in declaration order, as `CompactType.values()` lists them. */
  const Values: seq<CompactType> := [ALL, QUEUE, REGION, GATEWAY, STORE]

  /** `toString()` / `name()` of an enum constant. */
  function Name(t: CompactType): string
  {
    match t
    case ALL => "ALL"
    case QUEUE => "QUEUE"
    case REGION => "REGION"
    case GATEWAY => "GATEWAY"
    case STORE => "STORE"
  }

  /** `CompactType.valueOf(s)`: the constant whose name is exactly `s`;
      None where Java throws IllegalArgumentException. */
  function ValueOf(s: string): (r: Option<CompactType>)
    ensures r.Some? ==> Name(r.value) == s
  {
    if s == "ALL" then Some(ALL)
    else if s == "QUEUE" then Some(QUEUE)
    else if s == "REGION" then Some(REGION)
    else if s == "GATEWAY" then Some(GATEWAY)
    else if s == "STORE" then Some(STORE)
    else None
  }

  /** `values()` lists each constant exactly once, five in all. */
  lemma ValuesAreTheFiveConstants(t: CompactType)
    ensures t in Values
    ensures |Values| == 5
    ensures forall i, j :: 0 <= i < j < |Values| ==> Values[i] != Values[j]
  {
  }

  /** valueOf inverts toString on every constant ... */
  lemma ValueOfName(t: CompactType)
    ensures ValueOf(Name(t)) == Some(t)
  {
  }

  /** ... and accepts nothing but the five names, so the mapping is a bijection
      between the constants and {"ALL", "QUEUE", "REGION", "GATEWAY", "STORE"}. */
  lemma ValueOfOnlyNames(s: string)
    ensures ValueOf(s).Some? <==> s in {"ALL", "QUEUE", "REGION", "GATEWAY", "STORE"}
    ensures "PDX" !in {"ALL", "QUEUE", "REGION", "GATEWAY", "STORE"}
  {
  }

  /** The names of distinct constants are distinct. */
  lemma NameInjective(t: CompactType, u: CompactType)
    ensures Name(t) == Name(u) <==> t == u
  {
    ValueOfName(t);
    ValueOfName(u);
  }

  /** The Lombok record: the all-args constructor is the datatype constructor,
      the getters are its destructors. A field Java leaves null is None
      (the Java field `type` is `compactType` here). */
  datatype DiskStoreGroup = DiskStoreGroup(
    sourceName: Option<string>,
    compactType: Option<CompactType>,
    diskStoreName: Option<string>)

  /** The all-args constructor keeps its arguments in declaration order and
      each getter returns the field it names. */
  lemma AllArgsGetters(sourceName: Option<string>, t: Option<CompactType>, diskStoreName: Option<string>)
    ensures DiskStoreGroup(sourceName, t, diskStoreName).sourceName == sourceName
    ensures DiskStoreGroup(sourceName, t, diskStoreName).compactType == t
    ensures DiskStoreGroup(sourceName, t, diskStoreName).diskStoreName == diskStoreName
    ensures forall g: DiskStoreGroup :: g == DiskStoreGroup(g.sourceName, g.compactType, g.diskStoreName)
  {
  }

  /** The no-args constructor: every field null. */
  function EmptyGroup(): (g: DiskStoreGroup)
    ensures g.sourceName.None? && g.compactType.None? && g.diskStoreName.None?
  {
    DiskStoreGroup(None, None, None)
  }

  /** `setSourceName`: a new value for `sourceName`, the other fields kept. */
  function WithSourceName(g: DiskStoreGroup, v: Option<string>): (r: DiskStoreGroup)
    ensures r.sourceName == v
    ensures r.compactType == g.compactType && r.diskStoreName == g.diskStoreName
  {
    g.(sourceName := v)
  }

  /** `setType`: a new value for the type, the other fields kept. */
  function WithCompactType(g: DiskStoreGroup, v: Option<CompactType>): (r: DiskStoreGroup)
    ensures r.compactType == v
    ensures r.sourceName == g.sourceName && r.diskStoreName == g.diskStoreName
  {
    g.(compactType := v)
  }

  /** `setDiskStoreName`: a new value for `diskStoreName`, the other fields kept. */
  function WithDiskStoreName(g: DiskStoreGroup, v: Option<string>): (r: DiskStoreGroup)
    ensures r.diskStoreName == v
    ensures r.sourceName == g.sourceName && r.compactType == g.compactType
  {
    g.(diskStoreName := v)
  }
}
