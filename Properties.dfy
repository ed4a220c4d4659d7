/** What the compaction function promises, proved about the specification
    functions its methods are verified against. */
module CompactDiskStoresProperties {
  import opened Wrappers
  import opened Group
  import opened Exceptions
  import opened Inventory
  import opened CompactDiskStoresFunction

  // ---------------------------------------------------------------------
  // Target resolution
  // ---------------------------------------------------------------------

  /** The group is backed by a named store other than `name`. */
  predicate Misses(g: DiskStoreGroup, name: string)
  {
    g.diskStoreName.Some? && g.diskStoreName.value != name
  }

  /** getSource returns the source of the FIRST group backed by `name`. */
  lemma {:induction false} SourceOfFirstMatch(groups: seq<DiskStoreGroup>, name: string, i: nat)
    requires i < |groups| && groups[i].diskStoreName == Some(name)
    requires forall j :: 0 <= j < i ==> Misses(groups[j], name)
    ensures SourceOf(groups, name) == Ok(groups[i].sourceName)
  {
    if i > 0 {
      assert Misses(groups[0], name);
      forall j | 0 <= j < i - 1 ensures Misses(groups[1..][j], name) {
        assert groups[1..][j] == groups[j + 1];
      }
      SourceOfFirstMatch(groups[1..], name, i - 1);
    }
  }

  /** getSource returns null when no group is backed by `name`. */
  lemma {:induction false} SourceOfNoMatch(groups: seq<DiskStoreGroup>, name: string)
    requires forall j :: 0 <= j < |groups| ==> Misses(groups[j], name)
    ensures SourceOf(groups, name) == Ok(None)
  {
    if groups != [] {
      assert Misses(groups[0], name);
      forall j | 0 <= j < |groups| - 1 ensures Misses(groups[1..][j], name) {
        assert groups[1..][j] == groups[j + 1];
      }
      SourceOfNoMatch(groups[1..], name);
    }
  }

  /** getSource throws when a group with a null store name comes before the
      first match. */
  lemma {:induction false} SourceOfNullBeforeMatch(groups: seq<DiskStoreGroup>, name: string, k: nat)
    requires k < |groups| && groups[k].diskStoreName.None?
    requires forall j :: 0 <= j < k ==> Misses(groups[j], name)
    ensures SourceOf(groups, name) == Err(NullPointer(GroupStoreName))
  {
    if k > 0 {
      assert Misses(groups[0], name);
      forall j | 0 <= j < k - 1 ensures Misses(groups[1..][j], name) {
        assert groups[1..][j] == groups[j + 1];
      }
      SourceOfNullBeforeMatch(groups[1..], name, k - 1);
    }
  }

  /** getAll: the regions' groups, then the senders', then the queues', each in
      inventory order. */
  lemma AllGroupsOrder(c: Cache, i: nat)
    requires i < |c.regions| + |c.gatewaySenders| + |c.asyncEventQueues|
    ensures |AllGroups(c)| == |c.regions| + |c.gatewaySenders| + |c.asyncEventQueues|
    ensures i < |c.regions| ==> AllGroups(c)[i] == MemberGroup(c.regions[i], REGION)
    ensures |c.regions| <= i < |c.regions| + |c.gatewaySenders| ==>
      AllGroups(c)[i] == MemberGroup(c.gatewaySenders[i - |c.regions|], GATEWAY)
    ensures |c.regions| + |c.gatewaySenders| <= i ==>
      AllGroups(c)[i] == MemberGroup(c.asyncEventQueues[i - |c.regions| - |c.gatewaySenders|], QUEUE)
  {
  }

  /** getSingleStore with a name the cache does not list throws
      NoDiskStoreExistsException, and nothing is compacted. */
  lemma SingleStoreMissing(c: Cache, name: Option<string>)
    requires name.None? || name.value !in c.listedStores
    ensures Compact(c, STORE, name) == Run(Err(NoDiskStoreExists(NoSuchStoreMessage(name))), [])
  {
  }

  /** getSingleStore with a listed name yields exactly one STORE group for that
      name, whose source is what getSource finds among all groups. */
  lemma SingleStoreFound(c: Cache, name: string, source: Option<string>)
    requires name in c.listedStores
    requires SourceOf(AllGroups(c), name) == Ok(source)
    ensures Resolve(c, STORE, Some(name)) == Ok([DiskStoreGroup(source, Some(STORE), Some(name))])
  {
  }

  /** A listed store that backs no region, sender or queue still resolves: its
      source is null. */
  lemma SingleStoreUnowned(c: Cache, name: string)
    requires name in c.listedStores
    requires forall i :: 0 <= i < |AllGroups(c)| ==> Misses(AllGroups(c)[i], name)
    ensures Resolve(c, STORE, Some(name)) == Ok([DiskStoreGroup(None, Some(STORE), Some(name))])
  {
    SourceOfNoMatch(AllGroups(c), name);
  }

  // ---------------------------------------------------------------------
  // Report building
  // ---------------------------------------------------------------------

  /** How a group's outcome is classified: every line starts with the group's
      store, type and source and ends with a newline; forceCompaction is
      called exactly when the store allows it; its true, false or exception
      picks the ending. */
  lemma LineOutcome(c: Cache, g: DiskStoreGroup)
    requires !Aborts(c, g)
    ensures var ds, line := c.diskStores[g.diskStoreName], LineText(c, g);
      && LinePrefix(g) <= line && line[|line| - 1] == '\n'
      && (Compacts(c, g) <==> ds.allowForceCompaction)
      && (!ds.allowForceCompaction ==> line == LinePrefix(g) + ForcedCompactionDisallowed + "\n")
      && (ds.allowForceCompaction && ds.forceCompaction.Compacted? ==>
            line == LinePrefix(g) + CompactionSuccessful + "\n")
      && (ds.allowForceCompaction && ds.forceCompaction.Declined? ==>
            line == LinePrefix(g) + CompactionFailed + "\n")
      && (ds.allowForceCompaction && ds.forceCompaction.Raised? ==>
            line == LinePrefix(g) + ExceptionLabel + Text(ds.forceCompaction.message) + ExceptionTrailer + "\n")
  {
    var ds, line := c.diskStores[g.diskStoreName], LineText(c, g);
    assert line == LinePrefix(g) + (Detail(ds) + "\n");
    if ds.allowForceCompaction && ds.forceCompaction.Raised? {
      assert Detail(ds) == ExceptionLabel + Text(ds.forceCompaction.message) + ExceptionTrailer;
    }
  }

  /** The concatenation of a list of lines. */
  function Join(lines: seq<string>): string
  {
    if lines == [] then "" else Join(lines[..|lines| - 1]) + lines[|lines| - 1]
  }

  /** The line each group contributes, in order. */
  function Lines(c: Cache, groups: seq<DiskStoreGroup>): (r: seq<string>)
    requires forall i :: 0 <= i < |groups| ==> !Aborts(c, groups[i])
    ensures |r| == |groups|
  {
    seq(|groups|, i requires 0 <= i < |groups| => LineText(c, groups[i]))
  }

  /** The stores forceCompaction() is called on: the group's store, for every
      group whose store allows forced compaction. */
  function AllowedNames(c: Cache, groups: seq<DiskStoreGroup>): seq<Option<string>>
  {
    if groups == [] then []
    else
      var last := groups[|groups| - 1];
      AllowedNames(c, groups[..|groups| - 1]) + (if Compacts(c, last) then [last.diskStoreName] else [])
  }

  /** When no group aborts, the report is a newline followed by exactly one
      line per group, in input order, and compaction is called once per
      group whose store allows it, in order, and for no other. */
  lemma {:induction false} ProcessReport(c: Cache, groups: seq<DiskStoreGroup>)
    requires forall i :: 0 <= i < |groups| ==> !Aborts(c, groups[i])
    ensures Process(c, groups) == Run(Ok("\n" + Join(Lines(c, groups))), AllowedNames(c, groups))
    decreases |groups|
  {
    if groups != [] {
      var prefix, g := groups[..|groups| - 1], groups[|groups| - 1];
      assert forall i :: 0 <= i < |prefix| ==> prefix[i] == groups[i];
      ProcessReport(c, prefix);
      JoinLinesSnoc(c, groups);
      var joined := Join(Lines(c, prefix));
      var step := if Compacts(c, g) then [g.diskStoreName] else [];
      assert !Aborts(c, g);
      assert Process(c, groups) == Run(Ok(("\n" + joined) + LineText(c, g)), AllowedNames(c, prefix) + step);
      assert AllowedNames(c, groups) == AllowedNames(c, prefix) + step;
      ConcatAssociative("\n", joined, LineText(c, g));
    } else {
      assert Lines(c, groups) == [];
      assert "\n" + Join([]) == "\n";
    }
  }

  lemma ConcatAssociative(a: string, b: string, c: string)
    ensures (a + b) + c == a + (b + c)
  {
  }

  lemma JoinLinesSnoc(c: Cache, groups: seq<DiskStoreGroup>)
    requires groups != [] && forall i :: 0 <= i < |groups| ==> !Aborts(c, groups[i])
    ensures Join(Lines(c, groups))
      == Join(Lines(c, groups[..|groups| - 1])) + LineText(c, groups[|groups| - 1])
  {
    var lines := Lines(c, groups);
    assert lines[..|groups| - 1] == Lines(c, groups[..|groups| - 1]);
  }

  /** The report is produced exactly when no group aborts. */
  lemma {:induction false} ProcessOk(c: Cache, groups: seq<DiskStoreGroup>)
    ensures Process(c, groups).result.Ok? <==> forall i :: 0 <= i < |groups| ==> !Aborts(c, groups[i])
    decreases |groups|
  {
    if groups != [] {
      var prefix, last := groups[..|groups| - 1], groups[|groups| - 1];
      ProcessOk(c, prefix);
      var before := Process(c, prefix);
      assert Process(c, groups) == Extend(c, before, last);
      ExtendOk(c, before, last);
      NoneAbortsSnoc(c, groups, prefix);
    }
  }

  lemma NoneAbortsSnoc(c: Cache, groups: seq<DiskStoreGroup>, prefix: seq<DiskStoreGroup>)
    requires groups != [] && prefix == groups[..|groups| - 1]
    ensures (forall i :: 0 <= i < |groups| ==> !Aborts(c, groups[i])) <==>
      ((forall i :: 0 <= i < |prefix| ==> !Aborts(c, prefix[i])) && !Aborts(c, groups[|groups| - 1]))
  {
    assert forall i :: 0 <= i < |prefix| ==> prefix[i] == groups[i];
  }

  /** One loop turn keeps the report exactly when the group does not abort. */
  lemma ExtendOk(c: Cache, before: Run<string>, g: DiskStoreGroup)
    ensures Extend(c, before, g).result.Ok? <==> before.result.Ok? && !Aborts(c, g)
  {
  }

  /** The first group that aborts ends the request with its error; the
      compactions of the groups before it have already happened. */
  lemma ProcessFirstAbort(c: Cache, groups: seq<DiskStoreGroup>, k: nat)
    requires k < |groups| && Aborts(c, groups[k])
    requires forall j :: 0 <= j < k ==> !Aborts(c, groups[j])
    ensures Process(c, groups) == Run(Err(AbortError(c, groups[k])), AllowedNames(c, groups[..k]))
  {
    var prefix, upto := groups[..k], groups[..k + 1];
    ProcessCompacted(c, prefix);
    assert upto[..|upto| - 1] == prefix && upto[|upto| - 1] == groups[k];
    assert Process(c, upto) == Extend(c, Process(c, prefix), groups[k]);
    ProcessAbortIsFinal(c, groups, k + 1);
  }

  /** Without an abort the run succeeds and has compacted AllowedNames. */
  lemma ProcessCompacted(c: Cache, groups: seq<DiskStoreGroup>)
    requires forall i :: 0 <= i < |groups| ==> !Aborts(c, groups[i])
    ensures Process(c, groups).result.Ok? && Process(c, groups).compacted == AllowedNames(c, groups)
  {
    ProcessReport(c, groups);
  }

  /** Every error processDiskStores lets escape is a NullPointerException from
      a failed lookup or a null type. */
  lemma {:induction false} ProcessErrorsAreNullPointers(c: Cache, groups: seq<DiskStoreGroup>)
    ensures Process(c, groups).result.Err? ==>
      Process(c, groups).result.error in {NullPointer(StoreLookup), NullPointer(GroupType)}
    decreases |groups|
  {
    if groups != [] {
      ProcessErrorsAreNullPointers(c, groups[..|groups| - 1]);
    }
  }

  /** Process of a concatenation, from the processes of its parts. */
  function Then(x: Run<string>, y: Run<string>): Run<string>
    requires y.result.Ok? ==> |y.result.value| > 0
  {
    if x.result.Err? then x
    else if y.result.Err? then Run(y.result, x.compacted + y.compacted)
    else Run(Ok(x.result.value + y.result.value[1..]), x.compacted + y.compacted)
  }

  /** Processing a + b is processing a, then b: b's lines follow a's, b's
      compactions follow a's, and an abort in a keeps b from running. */
  lemma {:induction false} ProcessConcat(c: Cache, a: seq<DiskStoreGroup>, b: seq<DiskStoreGroup>)
    ensures Process(c, a + b) == Then(Process(c, a), Process(c, b))
    decreases |b|
  {
    if b == [] {
      assert a + b == a;
      var x := Process(c, a);
      if x.result.Ok? {
        assert x.result.value + "\n"[1..] == x.result.value;
        assert x.compacted + [] == x.compacted;
      }
    } else {
      var b' := b[..|b| - 1];
      assert (a + b)[..|a + b| - 1] == a + b';
      assert (a + b)[|a + b| - 1] == b[|b| - 1];
      ProcessConcat(c, a, b');
      assert b[..|b| - 1] == b';
      ExtendThen(c, Process(c, a), Process(c, b'), b[|b| - 1]);
    }
  }

  lemma ExtendThen(c: Cache, x: Run<string>, y: Run<string>, g: DiskStoreGroup)
    requires y.result.Ok? ==> |y.result.value| > 0
    ensures Extend(c, y, g).result.Ok? ==> |Extend(c, y, g).result.value| > 0
    ensures Extend(c, Then(x, y), g) == Then(x, Extend(c, y, g))
  {
    if x.result.Ok? && y.result.Ok? && !Aborts(c, g) {
      var step := if Compacts(c, g) then [g.diskStoreName] else [];
      assert (y.result.value + LineText(c, g))[1..] == y.result.value[1..] + LineText(c, g);
      assert x.result.value + (y.result.value[1..] + LineText(c, g))
        == (x.result.value + y.result.value[1..]) + LineText(c, g);
      assert x.compacted + (y.compacted + step) == (x.compacted + y.compacted) + step;
    }
  }

  /** Appending a group's line appends its pieces one after another, as the
      StringBuilder calls do. */
  lemma AppendLine(c: Cache, before: string, g: DiskStoreGroup)
    requires !Aborts(c, g)
    ensures before + LineText(c, g) == before + "disk store: " + Text(g.diskStoreName) + " type: "
      + Name(g.compactType.value) + " source: " + Text(g.sourceName)
      + Detail(c.diskStores[g.diskStoreName]) + "\n"
  {
    PrependPieces(before, "disk store: ", Text(g.diskStoreName), " type: ", Name(g.compactType.value),
      " source: ", Text(g.sourceName), Detail(c.diskStores[g.diskStoreName]), "\n");
  }

  lemma PrependPieces(before: string, x1: string, x2: string, x3: string, x4: string,
                      x5: string, x6: string, x7: string, x8: string)
    ensures before + (x1 + x2 + x3 + x4 + x5 + x6 + x7 + x8)
      == before + x1 + x2 + x3 + x4 + x5 + x6 + x7 + x8
  {
  }

  /** The newlines in a string. */
  function Newlines(s: string): nat
  {
    multiset(s)['\n']
  }

  /** No text printed for this group contains a newline. */
  predicate SingleLine(c: Cache, g: DiskStoreGroup)
  {
    && '\n' !in Text(g.diskStoreName)
    && '\n' !in Text(g.sourceName)
    && (g.diskStoreName in c.diskStores && c.diskStores[g.diskStoreName].forceCompaction.Raised? ==>
          '\n' !in Text(c.diskStores[g.diskStoreName].forceCompaction.message))
  }

  lemma NewlinesConcat(a: string, b: string)
    ensures Newlines(a + b) == Newlines(a) + Newlines(b)
  {
    assert multiset(a + b) == multiset(a) + multiset(b);
  }

  lemma NoNewlines(s: string)
    requires '\n' !in s
    ensures Newlines(s) == 0
  {
    assert '\n' !in multiset(s);
  }

  // The fixed texts of a line hold no newline. The lemmas below are hints
  // for the solver: they state facts about literals one short piece at a
  // time, which is far cheaper to check than one long literal at once.

  lemma PrefixTextsHaveNoNewline()
    ensures '\n' !in "disk store: " && '\n' !in " type: " && '\n' !in " source: "
    ensures forall t: CompactType :: '\n' !in Name(t)
  {
  }

  lemma OutcomeTextsHaveNoNewline()
    ensures '\n' !in CompactionSuccessful && '\n' !in CompactionFailed && '\n' !in ExceptionLabel
  {
  }

  lemma ExceptionTrailerHasNoNewline()
    ensures '\n' !in ExceptionTrailer
  {
    assert ExceptionTrailer == " compaction failed " + "exception message: ";
  }

  lemma DisallowedTextHasNoNewline()
    ensures '\n' !in ForcedCompactionDisallowed
  {
    NoNewlineConcat(" cannot be compacted - ", "allow-forced-");
    NoNewlineConcat(" cannot be compacted - " + "allow-forced-", "compaction is false");
  }

  lemma NoNewlineConcat(a: string, b: string)
    requires '\n' !in a && '\n' !in b
    ensures '\n' !in a + b
  {
    assert forall i :: 0 <= i < |a + b| ==> (a + b)[i] == if i < |a| then a[i] else b[i - |a|];
  }

  lemma DetailHasNoNewline(ds: DiskStore)
    requires ds.forceCompaction.Raised? ==> '\n' !in Text(ds.forceCompaction.message)
    ensures Newlines(Detail(ds)) == 0
  {
    OutcomeTextsHaveNoNewline();
    ExceptionTrailerHasNoNewline();
    DisallowedTextHasNoNewline();
    if ds.allowForceCompaction && ds.forceCompaction.Raised? {
      var m := Text(ds.forceCompaction.message);
      NoNewlines(ExceptionLabel); NoNewlines(m); NoNewlines(ExceptionTrailer);
      NewlinesConcat(ExceptionLabel, m);
      NewlinesConcat(ExceptionLabel + m, ExceptionTrailer);
    } else {
      NoNewlines(Detail(ds));
    }
  }

  lemma LineTextHasOneNewline(c: Cache, g: DiskStoreGroup)
    requires !Aborts(c, g) && SingleLine(c, g)
    ensures Newlines(LineText(c, g)) == 1
  {
    var store, kind, source := Text(g.diskStoreName), Name(g.compactType.value), Text(g.sourceName);
    var detail := Detail(c.diskStores[g.diskStoreName]);
    PrefixTextsHaveNoNewline();
    DetailHasNoNewline(c.diskStores[g.diskStoreName]);
    var p1 := "disk store: " + store;
    var p2 := p1 + " type: ";
    var p3 := p2 + kind;
    var p4 := p3 + " source: ";
    var p5 := p4 + source;
    assert LinePrefix(g) == p5;
    NoNewlines("disk store: "); NoNewlines(store); NewlinesConcat("disk store: ", store);
    NoNewlines(" type: "); NewlinesConcat(p1, " type: ");
    NoNewlines(kind); NewlinesConcat(p2, kind);
    NoNewlines(" source: "); NewlinesConcat(p3, " source: ");
    NoNewlines(source); NewlinesConcat(p4, source);
    NewlinesConcat(p5, detail);
    NewlinesConcat(p5 + detail, "\n");
  }

  /** With no newline inside the printed texts, the report has exactly one
      newline per group plus the leading one. */
  lemma {:induction false} ProcessLineCount(c: Cache, groups: seq<DiskStoreGroup>)
    requires forall i :: 0 <= i < |groups| ==> SingleLine(c, groups[i])
    requires Process(c, groups).result.Ok?
    ensures Newlines(Process(c, groups).result.value) == |groups| + 1
    decreases |groups|
  {
    if groups != [] {
      var prefix := groups[..|groups| - 1];
      var g := groups[|groups| - 1];
      assert Process(c, prefix).result.Ok?;
      ProcessLineCount(c, prefix);
      LineTextHasOneNewline(c, g);
    }
  }

  /** A store that disallows forced compaction yields one "cannot be compacted"
      line and is never asked to compact. */
  lemma ProcessSkipped(c: Cache, g: DiskStoreGroup)
    requires g.diskStoreName in c.diskStores && g.compactType.Some?
    requires !c.diskStores[g.diskStoreName].allowForceCompaction
    ensures Process(c, [g]) == Run(Ok("\n" + LinePrefix(g) + ForcedCompactionDisallowed + "\n"), [])
  {
    assert [g][..0] == [];
    assert "\n" + LineText(c, g) == "\n" + LinePrefix(g) + ForcedCompactionDisallowed + "\n";
  }

  /** An exception from forceCompaction becomes a line carrying its message,
      and does not stop the groups after it: the report is still produced,
      with one line per group. */
  lemma ExceptionIsIsolated(c: Cache, groups: seq<DiskStoreGroup>, k: nat)
    requires forall i :: 0 <= i < |groups| ==> !Aborts(c, groups[i])
    requires k < |groups| && Compacts(c, groups[k])
    requires c.diskStores[groups[k].diskStoreName].forceCompaction.Raised?
    ensures Process(c, groups).result == Ok("\n" + Join(Lines(c, groups)))
    ensures |Lines(c, groups)| == |groups|
    ensures Lines(c, groups)[k] == LinePrefix(groups[k]) + ExceptionLabel
      + Text(c.diskStores[groups[k].diskStoreName].forceCompaction.message) + ExceptionTrailer + "\n"
  {
    ProcessReport(c, groups);
    LineOutcome(c, groups[k]);
  }

  // ---------------------------------------------------------------------
  // Dispatch and argument parsing
  // ---------------------------------------------------------------------

  /** No arguments, or a null array: InvalidArgTypeSpecifiedException, and
      nothing is compacted. */
  lemma ExecuteMissingScope(c: Cache, functionArgs: Option<seq<string>>)
    requires functionArgs.None? || functionArgs.value == []
    ensures ExecuteSpec(c, functionArgs) == Run(Err(InvalidArgTypeSpecified(
      "Compaction request type was not specified\n" + ValidArguments)), [])
  {
    assert "Compaction request type was not specified" + "\n" == "Compaction request type was not specified\n";
  }

  /** Two arguments with a non-empty second one that is not literally "STORE":
      the request does nothing and the response stays null, whatever the
      first argument is. */
  lemma ExecuteTwoArgsIgnored(c: Cache, args: seq<string>)
    requires |args| == 2 && args[1] != "" && args[1] != "STORE"
    ensures ExecuteSpec(c, Some(args)) == Run(Ok(None), [])
  {
  }

  /** Two arguments whose second one is "STORE": the scope named by the first
      is compacted with "STORE" as the disk store name. */
  lemma ExecuteSecondArgStore(c: Cache, args: seq<string>)
    requires |args| == 2 && args[1] == "STORE"
    ensures ExecuteSpec(c, Some(args)) == Request(c, UpperCase(args[0]), Some("STORE"))
  {
  }

  /** Any other count, or an empty second argument: the scope named by the
      first argument is compacted with a null disk store name. */
  lemma ExecuteOtherArgs(c: Cache, args: seq<string>)
    requires |args| > 0 && (|args| != 2 || args[1] == "")
    ensures ExecuteSpec(c, Some(args)) == Request(c, UpperCase(args[0]), None)
  {
  }

  /** A first argument that no scope name matches, once upper-cased: valueOf
      throws IllegalArgumentException and nothing is compacted. */
  lemma ExecuteUnknownScope(c: Cache, args: seq<string>)
    requires |args| > 0 && ValueOf(UpperCase(args[0])).None?
    requires !(|args| == 2 && args[1] != "" && args[1] != "STORE")
    ensures ExecuteSpec(c, Some(args)) == Run(Err(IllegalArgument(UpperCase(args[0]))), [])
  {
  }

  /** Because the second argument is compared with "STORE", a STORE-scope
      request produces a report only for a disk store that is itself named
      "STORE"; `["STORE", name]` never compacts `name`. */
  lemma StoreScopeOnlyForStoreNamedStore(c: Cache, args: seq<string>)
    requires |args| > 0 && UpperCase(args[0]) == "STORE"
    requires ExecuteSpec(c, Some(args)).result.Ok? && ExecuteSpec(c, Some(args)).result.value.Some?
    ensures |args| == 2 && args[1] == "STORE" && "STORE" in c.listedStores
  {
  }

  /** A request that fails with InvalidArgTypeSpecified, IllegalArgument,
      NoDiskStoreExists or a null store name in the source search fails
      before any store is compacted; only a failed lookup or a null type, met
      while processing, can leave compactions behind. */
  lemma ErrorsBeforeCompaction(c: Cache, functionArgs: Option<seq<string>>)
    ensures var run := ExecuteSpec(c, functionArgs);
      run.compacted != [] && run.result.Err? ==>
        run.result.error in {NullPointer(StoreLookup), NullPointer(GroupType)}
  {
    if functionArgs.Some? && |functionArgs.value| > 0 {
      var args := functionArgs.value[0 := UpperCase(functionArgs.value[0])];
      var name := if |args| == 2 && args[1] != "" then Some(args[1]) else None;
      var t := ValueOf(args[0]);
      if t.Some? {
        match Resolve(c, t.value, name) {
          case Err(e) =>
          case Ok(groups) => ProcessErrorsAreNullPointers(c, groups);
        }
      }
    }
  }

  /** The ALL report is the REGION report, then the GATEWAY report, then the
      QUEUE report, and its compactions are theirs in that order. */
  lemma AllIsRegionsThenGatewaysThenQueues(c: Cache, name: Option<string>)
    ensures Compact(c, ALL, name)
      == Then(Then(Compact(c, REGION, name), Compact(c, GATEWAY, name)), Compact(c, QUEUE, name))
  {
    var r := MemberGroups(c.regions, REGION);
    var g := MemberGroups(c.gatewaySenders, GATEWAY);
    var q := MemberGroups(c.asyncEventQueues, QUEUE);
    ProcessConcat(c, r + g, q);
    ProcessConcat(c, r, g);
  }

  /** The number of groups a scope other than STORE resolves to. */
  function ScopeSize(c: Cache, t: CompactType): nat
  {
    match t
    case ALL => |c.regions| + |c.gatewaySenders| + |c.asyncEventQueues|
    case REGION => |c.regions|
    case GATEWAY => |c.gatewaySenders|
    case QUEUE => |c.asyncEventQueues|
    case STORE => 1
  }

  /** No id, store name or exception message of the inventory holds a newline. */
  predicate SingleLineInventory(c: Cache)
  {
    && (forall m :: m in c.regions + c.gatewaySenders + c.asyncEventQueues ==>
          '\n' !in m.id && '\n' !in Text(m.diskStoreName))
    && (forall n :: n in c.diskStores && c.diskStores[n].forceCompaction.Raised? ==>
          '\n' !in Text(c.diskStores[n].forceCompaction.message))
  }

  /** A scope other than STORE reports one line per resolved member, after the
      leading newline. */
  lemma ScopeLineCount(c: Cache, s: string, t: CompactType, report: string)
    requires t != STORE && ValueOf(UpperCase(s)) == Some(t)
    requires SingleLineInventory(c)
    requires ExecuteSpec(c, Some([s])).result == Ok(Some(report))
    ensures Newlines(report) == ScopeSize(c, t) + 1
  {
    var groups := Resolve(c, t, None).value;
    assert |groups| == ScopeSize(c, t);
    forall i | 0 <= i < |groups| ensures SingleLine(c, groups[i]) {
      var ms := c.regions + c.gatewaySenders + c.asyncEventQueues;
      if t == ALL {
        AllGroupsOrder(c, i);
        if i < |c.regions| {
          assert c.regions[i] in ms;
        } else if i < |c.regions| + |c.gatewaySenders| {
          assert c.gatewaySenders[i - |c.regions|] in ms;
        } else {
          assert c.asyncEventQueues[i - |c.regions| - |c.gatewaySenders|] in ms;
        }
      } else if t == REGION {
        assert c.regions[i] in ms;
      } else if t == GATEWAY {
        assert c.gatewaySenders[i] in ms;
      } else {
        assert c.asyncEventQueues[i] in ms;
      }
    }
    ProcessLineCount(c, groups);
  }

  /** STORE scope on a listed store that disallows forced compaction: one
      "cannot be compacted" line, no compaction call. */
  lemma StoreScopeSkipped(c: Cache, name: string, source: Option<string>)
    requires name in c.listedStores
    requires SourceOf(AllGroups(c), name) == Ok(source)
    requires Some(name) in c.diskStores && !c.diskStores[Some(name)].allowForceCompaction
    ensures Compact(c, STORE, Some(name)) == Run(Ok("\n" + "disk store: " + name + " type: " + "STORE"
      + " source: " + Text(source) + ForcedCompactionDisallowed + "\n"), [])
  {
    var g := DiskStoreGroup(source, Some(STORE), Some(name));
    ProcessSkipped(c, g);
    AppendLine(c, "\n", g);
  }

  /** A region on store A and a sender on store B, both compacting: a lower-case
      "all" request reports the region, then the sender. */
  lemma ExampleAllReport()
    ensures var c := Cache([Member("R1", Some("storeA"))], [Member("G1", Some("storeB"))], [],
                          {"storeA", "storeB"},
                          map[Some("storeA") := DiskStore(true, Compacted),
                              Some("storeB") := DiskStore(true, Compacted)]);
      ExecuteSpec(c, Some(["all"])) == Run(Ok(Some("\n"
        + "disk store: " + "storeA" + " type: " + "REGION" + " source: " + "R1" + " compaction successful" + "\n"
        + "disk store: " + "storeB" + " type: " + "GATEWAY" + " source: " + "G1" + " compaction successful" + "\n")),
        [Some("storeA"), Some("storeB")])
  {
    var c := Cache([Member("R1", Some("storeA"))], [Member("G1", Some("storeB"))], [],
                   {"storeA", "storeB"},
                   map[Some("storeA") := DiskStore(true, Compacted),
                       Some("storeB") := DiskStore(true, Compacted)]);
    assert UpperCase("all") == "ALL";
    var groups := AllGroups(c);
    assert groups == [DiskStoreGroup(Some("R1"), Some(REGION), Some("storeA")),
                      DiskStoreGroup(Some("G1"), Some(GATEWAY), Some("storeB"))];
    assert groups[..1] == [groups[0]];
    assert [groups[0]][..0] == [];
    AppendLine(c, "\n", groups[0]);
    AppendLine(c, "\n" + LineText(c, groups[0]), groups[1]);
    var l1 := LineText(c, groups[0]);
    var l2 := LineText(c, groups[1]);
    assert Process(c, [groups[0]]) == Run(Ok("\n" + l1), [Some("storeA")]);
    assert Process(c, groups) == Run(Ok("\n" + l1 + l2), [Some("storeA"), Some("storeB")]);
    assert Compact(c, ALL, None) == Process(c, groups);
    assert ExecuteSpec(c, Some(["all"])) == Request(c, "ALL", None);
  }
}
