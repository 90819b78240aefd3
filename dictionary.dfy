/** The dictionary reconciliation engine: a manager bound to one remote
    dictionary and one local reader, whose Sync lists the remote items, reads
    and validates the local rows, diffs the two maps and sends the resulting
    operations in batches. The remote API and the local reader are stubs that
    answer from fixed oracles and record every call made to them. */
module Dictionary {
  import opened Errors
  import opened FastlyExt
  import opened DictionaryRows
  import opened DictionaryDiff
  import opened DictionaryBatch

  const StatusNotFound := 404
  const ListContext: string := "error retrieving dictionary items"
  const ReadContext: string := "error reading local dictionary items"
  const DiffContext: string := "error diffing remote and local dictionary items"

  datatype ListDictionaryItemsInput = ListDictionaryItemsInput(service: string, dictionary: string)

  datatype RemoteCall =
    | ListItems(list: ListDictionaryItemsInput)
    | BatchUpdate(batch: BatchUpdateDictionaryItemsInput)

  function BatchCalls(batches: seq<BatchUpdateDictionaryItemsInput>): seq<RemoteCall>
  {
    seq(|batches|, i requires 0 <= i < |batches| => BatchUpdate(batches[i]))
  }

  /** Stand-in for the remote dictionary API. */
  class RemoteStub {
    const listReply: Result<seq<DictionaryItem>>
    const batchReply: BatchUpdateDictionaryItemsInput -> Option<Error>
    var calls: seq<RemoteCall>

    constructor (listReply: Result<seq<DictionaryItem>>, batchReply: BatchUpdateDictionaryItemsInput -> Option<Error>)
      ensures this.listReply == listReply && this.batchReply == batchReply && calls == []
    {
      this.listReply := listReply;
      this.batchReply := batchReply;
      calls := [];
    }

    method ListDictionaryItems(input: ListDictionaryItemsInput) returns (r: Result<seq<DictionaryItem>>)
      modifies this
      ensures calls == old(calls) + [ListItems(input)] && r == listReply
    {
      calls := calls + [ListItems(input)];
      r := listReply;
    }

    method BatchUpdateDictionaryItems(input: BatchUpdateDictionaryItemsInput) returns (err: Option<Error>)
      modifies this
      ensures calls == old(calls) + [BatchUpdate(input)] && err == batchReply(input)
    {
      calls := calls + [BatchUpdate(input)];
      err := batchReply(input);
    }
  }

  /** Stand-in for the local reader (a CSV reader in the command line tool). */
  class LocalStub {
    const readReply: Result<seq<seq<string>>>
    var readCount: nat

    constructor (readReply: Result<seq<seq<string>>>)
      ensures this.readReply == readReply && readCount == 0
    {
      this.readReply := readReply;
      readCount := 0;
    }

    method ReadAll() returns (r: Result<seq<seq<string>>>)
      modifies this
      ensures readCount == old(readCount) + 1 && r == readReply
    {
      readCount := readCount + 1;
      r := readReply;
    }
  }

  datatype ManagerOption =
    | WithRemoteDictionary(serviceID: string, dictionaryID: string)
    | WithLocalReader(reader: LocalStub)

  datatype Settings = Settings(serviceID: string, dictionaryID: string, local: LocalStub?)

  function ApplyOption(o: ManagerOption, s: Settings): Settings
  {
    match o
    case WithRemoteDictionary(serviceID, dictionaryID) => s.(serviceID := serviceID, dictionaryID := dictionaryID)
    case WithLocalReader(reader) => s.(local := reader)
  }

  /** The settings after applying `options` in order to `s`. */
  function Configure(options: seq<ManagerOption>, s: Settings): Settings
  {
    if options == [] then s else ApplyOption(options[|options| - 1], Configure(options[..|options| - 1], s))
  }

  /** The last WithRemoteDictionary option decides the service and the
      dictionary. */
  lemma {:induction false} LastRemoteDictionaryWins(options: seq<ManagerOption>, s: Settings, i: nat)
    requires i < |options| && options[i].WithRemoteDictionary?
    requires forall j :: i < j < |options| ==> !options[j].WithRemoteDictionary?
    ensures Configure(options, s).serviceID == options[i].serviceID
    ensures Configure(options, s).dictionaryID == options[i].dictionaryID
  {
    if i < |options| - 1 {
      var init := options[..|options| - 1];
      assert init[i] == options[i];
      LastRemoteDictionaryWins(init, s, i);
    }
  }

  /** The last WithLocalReader option decides the reader. */
  lemma {:induction false} LastLocalReaderWins(options: seq<ManagerOption>, s: Settings, i: nat)
    requires i < |options| && options[i].WithLocalReader?
    requires forall j :: i < j < |options| ==> !options[j].WithLocalReader?
    ensures Configure(options, s).local == options[i].reader
  {
    if i < |options| - 1 {
      var init := options[..|options| - 1];
      assert init[i] == options[i];
      LastLocalReaderWins(init, s, i);
    }
  }

  /** Without a WithLocalReader option the manager has no reader. */
  lemma {:induction false} NoLocalReaderOption(options: seq<ManagerOption>, s: Settings)
    requires forall j :: 0 <= j < |options| ==> !options[j].WithLocalReader?
    ensures Configure(options, s).local == s.local
  {
    if options != [] {
      var init := options[..|options| - 1];
      assert forall j :: 0 <= j < |init| ==> init[j] == options[j];
      NoLocalReaderOption(init, s);
    }
  }

  /** The changelog the diff step yields: the local rows' error, or the
      changes that turn the remote map into the local one. */
  function Changelog(items: seq<DictionaryItem>, rows: seq<seq<string>>): Result<seq<Change>>
    requires WellFormed(rows)
  {
    match RowsToMap(rows)
    case Err(e) => Err(e)
    case Ok(local) => Ok(Changes(ItemsToMap(items), local, KeyOrder(items, rows)))
  }

  /** What one Sync does: the error it returns, whether it read the local
      rows, and the batch requests it sent after its single list call. */
  datatype SyncRun = SyncRun(err: Option<Error>, readLocal: bool, batches: seq<BatchUpdateDictionaryItemsInput>)

  function SyncSpec(service: string, dictionary: string, listReply: Result<seq<DictionaryItem>>,
                    readReply: Result<seq<seq<string>>>,
                    batchReply: BatchUpdateDictionaryItemsInput -> Option<Error>): SyncRun
    requires readReply.Ok? ==> WellFormed(readReply.value)
  {
    match listReply
    case Err(e) =>
      if e.HTTPError? && e.statusCode == StatusNotFound then SyncRun(Some(DictionaryNotFound), false, [])
      else SyncRun(Some(Wrapped(ListContext, e)), false, [])
    case Ok(items) =>
      match readReply
      case Err(e) => SyncRun(Some(Wrapped(ReadContext, e)), true, [])
      case Ok(rows) =>
        match Changelog(items, rows)
        case Err(e) => SyncRun(Some(Wrapped(DiffContext, e)), true, [])
        case Ok(changes) =>
          var s := Send(service, dictionary, Operations(changes), batchReply);
          SyncRun(s.err, true, s.calls)
  }

  /** Adding change i to the batch under construction extends it by the
      matching operation. */
  lemma OperationsSlice(changes: seq<Change>, flushed: nat, i: nat)
    requires flushed <= i < |changes|
    ensures Operations(changes)[flushed..i] + [ToBatchItem(changes[i])] == Operations(changes)[flushed..i + 1]
  {
  }

  lemma BatchCallsAppend(start: seq<RemoteCall>, sent: seq<BatchUpdateDictionaryItemsInput>,
                         input: BatchUpdateDictionaryItemsInput)
    ensures start + BatchCalls(sent + [input]) == start + BatchCalls(sent) + [BatchUpdate(input)]
  {
    assert BatchCalls(sent + [input]) == BatchCalls(sent) + [BatchUpdate(input)];
  }

  /** stringSliceSliceToMap. */
  method StringSliceSliceToMap(rows: seq<seq<string>>) returns (r: Result<map<string, string>>)
    requires WellFormed(rows)
    ensures r == RowsToMap(rows)
  {
    if |rows| > MaxItems {
      return Err(TooManyItems);
    }
    var m: map<string, string> := map[];
    var i := 0;
    while i < |rows|
      invariant 0 <= i <= |rows|
      invariant InsertRows(rows, i) == Ok(m)
    {
      var k, v := rows[i][0], rows[i][1];
      if k in m {
        InsertRowsErrorPersists(rows, i + 1, |rows|);
        return Err(DuplicateKey(k));
      }
      var e := ValidateItem(k, v);
      if e.Some? {
        InsertRowsErrorPersists(rows, i + 1, |rows|);
        return Err(e.value);
      }
      m := m[k := v];
      i := i + 1;
    }
    return Ok(m);
  }

  /** fastlyDictionaryItemsToMap. */
  method FastlyDictionaryItemsToMap(items: seq<DictionaryItem>) returns (m: map<string, string>)
    ensures m == ItemsToMap(items)
  {
    m := map[];
    var i := 0;
    while i < |items|
      invariant 0 <= i <= |items|
      invariant m == ItemsToMap(items[..i])
    {
      assert items[..i + 1][..i] == items[..i];
      m := m[items[i].itemKey := items[i].itemValue];
      i := i + 1;
    }
    assert items[..|items|] == items;
  }

  /** diff: validates the local rows into a map, builds the remote map and
      compares the two. */
  method Diff(remote: seq<DictionaryItem>, local: seq<seq<string>>) returns (r: Result<seq<Change>>)
    requires WellFormed(local)
    ensures r == Changelog(remote, local)
  {
    var localMap := StringSliceSliceToMap(local);
    if localMap.Err? {
      return Err(localMap.error);
    }
    var remoteMap := FastlyDictionaryItemsToMap(remote);
    return Ok(Changes(remoteMap, localMap.value, KeyOrder(remote, local)));
  }

  class Manager {
    const remote: RemoteStub
    var serviceID: string
    var dictionaryID: string
    var local: LocalStub?

    /** Manager: starts with no dictionary and no reader, then applies the
        options in order. */
    constructor (client: RemoteStub, options: seq<ManagerOption>)
      ensures remote == client
      ensures Settings(serviceID, dictionaryID, local) == Configure(options, Settings("", "", null))
    {
      remote := client;
      serviceID, dictionaryID, local := "", "", null;
      new;
      var i := 0;
      while i < |options|
        invariant 0 <= i <= |options|
        invariant remote == client
        invariant Settings(serviceID, dictionaryID, local) == Configure(options[..i], Settings("", "", null))
      {
        assert options[..i + 1][..i] == options[..i];
        match options[i] {
          case WithRemoteDictionary(s, d) =>
            serviceID, dictionaryID := s, d;
          case WithLocalReader(reader) =>
            local := reader;
        }
        i := i + 1;
      }
      assert options[..|options|] == options;
    }

    /** Sync: one list call, then (unless it failed) one local read, then the
        diff, then the batches, exactly as SyncSpec describes. */
    method Sync() returns (err: Option<Error>)
      requires local != null
      requires local.readReply.Ok? ==> WellFormed(local.readReply.value)
      modifies remote, local
      ensures var run := SyncSpec(serviceID, dictionaryID, remote.listReply, local.readReply, remote.batchReply);
              && err == run.err
              && remote.calls == old(remote.calls) + [ListItems(ListDictionaryItemsInput(serviceID, dictionaryID))] + BatchCalls(run.batches)
              && local.readCount == old(local.readCount) + (if run.readLocal then 1 else 0)
    {
      var listed := remote.ListDictionaryItems(ListDictionaryItemsInput(serviceID, dictionaryID));
      if listed.Err? {
        assert BatchCalls([]) == [];
        if listed.error.HTTPError? && listed.error.statusCode == StatusNotFound {
          return Some(DictionaryNotFound);
        }
        return Some(Wrapped(ListContext, listed.error));
      }
      var read := local.ReadAll();
      if read.Err? {
        assert BatchCalls([]) == [];
        return Some(Wrapped(ReadContext, read.error));
      }
      var changelog := Diff(listed.value, read.value);
      if changelog.Err? {
        assert BatchCalls([]) == [];
        return Some(Wrapped(DiffContext, changelog.error));
      }
      err := SendChanges(changelog.value);
    }

    /** The second half of Sync: the changes become batch operations that are
        flushed whenever a full batch has built up, and once more at the end
        for the remainder; the first refused batch ends the run. */
    method SendChanges(changes: seq<Change>) returns (err: Option<Error>)
      modifies remote
      ensures var s := Send(serviceID, dictionaryID, Operations(changes), remote.batchReply);
              err == s.err && remote.calls == old(remote.calls) + BatchCalls(s.calls)
    {
      ghost var start := remote.calls;
      var batchUpdates;
      ghost var flushed, sent;
      batchUpdates, err, flushed, sent := FlushFullBatches(changes);
      if err.Some? {
        return;
      }
      SendLastBatch(serviceID, dictionaryID, Operations(changes), remote.batchReply, flushed, sent);
      if |batchUpdates| == 0 {
        return None;
      }
      var input := BatchUpdateDictionaryItemsInput(serviceID, dictionaryID, batchUpdates);
      BatchCallsAppend(start, sent, input);
      err := remote.BatchUpdateDictionaryItems(input);
    }

    /** The loop of SendChanges: each change becomes an operation of the
        batch under construction, and a batch that reaches the maximum size
        is sent at once. Either some batch was refused, and the run is over,
        or every full batch was accepted and the remainder, shorter than a
        batch, is returned unsent. */
    method FlushFullBatches(changes: seq<Change>)
      returns (batchUpdates: seq<BatchUpdateDictionaryItem>, err: Option<Error>,
               ghost flushed: nat, ghost sent: seq<BatchUpdateDictionaryItemsInput>)
      modifies remote
      ensures var s := Send(serviceID, dictionaryID, Operations(changes), remote.batchReply);
              err.Some? ==> err == s.err && remote.calls == old(remote.calls) + BatchCalls(s.calls)
      ensures err.None? ==>
                && flushed <= |changes| && batchUpdates == Operations(changes)[flushed..]
                && |batchUpdates| < BatchUpdateMaximumItems
                && remote.calls == old(remote.calls) + BatchCalls(sent)
                && SendFrom(serviceID, dictionaryID, Operations(changes), remote.batchReply, flushed, sent)
    {
      var service, dictionary := serviceID, dictionaryID;
      ghost var ops := Operations(changes);
      ghost var reply := remote.batchReply;
      ghost var start := remote.calls;
      sent, flushed := [], 0;
      batchUpdates := [];
      var i := 0;
      while i < |changes|
        invariant 0 <= flushed <= i <= |changes| == |ops|
        invariant batchUpdates == ops[flushed..i]
        invariant |batchUpdates| < BatchUpdateMaximumItems
        invariant remote.calls == start + BatchCalls(sent)
        invariant SendFrom(service, dictionary, ops, reply, flushed, sent)
      {
        OperationsSlice(changes, flushed, i);
        batchUpdates := batchUpdates + [ToBatchItem(changes[i])];
        if |batchUpdates| == BatchUpdateMaximumItems {
          var input := BatchUpdateDictionaryItemsInput(service, dictionary, batchUpdates);
          SendFullBatch(service, dictionary, ops, reply, flushed, sent);
          BatchCallsAppend(start, sent, input);
          var e := remote.BatchUpdateDictionaryItems(input);
          if e.Some? {
            return batchUpdates, Some(Wrapped(FlushContext, e.value)), flushed, sent;
          }
          sent := sent + [input];
          flushed := i + 1;
          batchUpdates := [];
        }
        i := i + 1;
      }
      err := None;
    }
  }
}
