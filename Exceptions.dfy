/** What the compaction function can throw out of `execute`. */
module Exceptions {
  import opened Wrappers

  /** The text InvalidArgTypeSpecifiedException appends to every message. */
  const ValidArguments: string := "Invalid argument 1 must be ALL/REGION/GATEWAY/QUEUE/STORE"

  /** The place where Java dereferences a null and throws NullPointerException. */
  datatype NullSite =
    | StoreLookup      // findDiskStore(name) returned null
    | GroupType        // the group's type is null
    | GroupStoreName   // a group's disk store name is null during the source search

  datatype Error =
    | InvalidArgTypeSpecified(message: string)
    | NoDiskStoreExists(message: string)
    | IllegalArgument(token: string)   // thrown by CompactType.valueOf
    | NullPointer(site: NullSite)

  /** `new InvalidArgTypeSpecifiedException(message)`. */
  function InvalidArgType(message: string): (e: Error)
    ensures e.InvalidArgTypeSpecified?
    ensures e.message == message + "\n" + ValidArguments
  {
    InvalidArgTypeSpecified(message + "\n" + ValidArguments)
  }

  /** The text Java produces when appending a possibly null String. */
  function Text(s: Option<string>): (r: string)
    ensures s.Some? ==> r == s.value
    ensures s.None? ==> r == "null"
  {
    match s
    case None => "null"
    case Some(v) => v
  }
}
