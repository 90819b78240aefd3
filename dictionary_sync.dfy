/** What one Sync achieves, stated over SyncSpec: the remote dictionary ends
    up equal to the local rows when no error comes back, a failed run has only
    applied a prefix of the operations, an invalid local file changes nothing,
    a second run sends nothing, and every batch request passes the batch
    endpoint's own checks. */
module DictionarySync {
  import opened Errors
  import opened FastlyExt
  import opened DictionaryRows
  import opened DictionaryDiff
  import opened DictionaryBatch
  import opened Dictionary

  function ItemsOf(batches: seq<BatchUpdateDictionaryItemsInput>): seq<seq<BatchUpdateDictionaryItem>>
  {
    seq(|batches|, i requires 0 <= i < |batches| => batches[i].items)
  }

  /** The operations carried by `batches`, in the order they were sent. */
  function BatchedOps(batches: seq<BatchUpdateDictionaryItemsInput>): seq<BatchUpdateDictionaryItem>
  {
    Flatten(ItemsOf(batches))
  }

  lemma {:induction false} FlattenAppend<T>(a: seq<seq<T>>, b: seq<seq<T>>)
    ensures Flatten(a + b) == Flatten(a) + Flatten(b)
    decreases |a|
  {
    if a == [] {
      assert a + b == b;
    } else {
      assert (a + b)[0] == a[0] && (a + b)[1..] == a[1..] + b;
      FlattenAppend(a[1..], b);
    }
  }

  /** The batches Send issued carry a prefix of `ops`, and all of `ops` when
      no error came back. */
  lemma SendCarriesPrefix(service: string, dictionary: string, ops: seq<BatchUpdateDictionaryItem>,
                          reply: BatchUpdateDictionaryItemsInput -> Option<Error>)
    ensures var s := Send(service, dictionary, ops, reply);
            && |BatchedOps(s.calls)| <= |ops|
            && BatchedOps(s.calls) == ops[..|BatchedOps(s.calls)|]
            && (s.err == None ==> BatchedOps(s.calls) == ops)
  {
    var s := Send(service, dictionary, ops, reply);
    var bs := Batches(ops);
    var n := |s.calls|;
    SendCallCount(service, dictionary, ops, reply);
    assert ItemsOf(s.calls) == bs[..n] by {
      forall i | 0 <= i < n
        ensures ItemsOf(s.calls)[i] == bs[i]
      {
        SendCallAt(service, dictionary, ops, reply, i);
      }
    }
    assert bs == bs[..n] + bs[n..];
    FlattenAppend(bs[..n], bs[n..]);
    SendLast(service, dictionary, ops, reply);
    if s.err == None {
      assert bs[..n] == bs;
    }
  }

  /** A failed listing ends the sync before the local reader or the batch
      endpoint is used: a 404 becomes "dictionary not found", any other
      error comes back wrapped in the listing context. A failed local read
      ends it before the diff, wrapped in the reading context. */
  lemma SyncStopsEarly(service: string, dictionary: string, listReply: Result<seq<DictionaryItem>>,
                       readReply: Result<seq<seq<string>>>, reply: BatchUpdateDictionaryItemsInput -> Option<Error>)
    requires readReply.Ok? ==> WellFormed(readReply.value)
    ensures var run := SyncSpec(service, dictionary, listReply, readReply, reply);
            listReply.Err? ==>
              && !run.readLocal && run.batches == []
              && run.err == Some(if listReply.error.HTTPError? && listReply.error.statusCode == StatusNotFound
                                 then DictionaryNotFound else Wrapped(ListContext, listReply.error))
    ensures var run := SyncSpec(service, dictionary, listReply, readReply, reply);
            listReply.Ok? ==> run.readLocal
    ensures var run := SyncSpec(service, dictionary, listReply, readReply, reply);
            listReply.Ok? && readReply.Err? ==>
              run.batches == [] && run.err == Some(Wrapped(ReadContext, readReply.error))
  {
  }

  /** Convergence: when a sync reports no error, the batches it sent, applied
      in order to the remote dictionary as listed, leave exactly the local
      rows' key/value map. */
  lemma SyncConverges(service: string, dictionary: string, items: seq<DictionaryItem>, rows: seq<seq<string>>,
                      reply: BatchUpdateDictionaryItemsInput -> Option<Error>)
    requires WellFormed(rows)
    requires SyncSpec(service, dictionary, Ok(items), Ok(rows), reply).err == None
    ensures RowsToMap(rows).Ok?
    ensures ApplyOps(ItemsToMap(items), BatchedOps(SyncSpec(service, dictionary, Ok(items), Ok(rows), reply).batches))
            == RowsToMap(rows).value
  {
    var remote, local := ItemsToMap(items), RowsToMap(rows).value;
    var keys := KeyOrder(items, rows);
    var ops := Operations(Changes(remote, local, keys));
    SendCarriesPrefix(service, dictionary, ops, reply);
    ItemsToMapKeys(items);
    assert forall k :: k in remote ==> k in keys;
    assert forall k :: k in local ==> k in keys;
    DiffReachesLocal(remote, local, keys);
  }

  /** A failed sync has sent the operations in order up to the refused
      batch: the batches sent carry a prefix of the diff's operations, every
      one of them but the last was accepted, and the returned error is the
      last one's, wrapped when that batch was full. */
  lemma SyncFailureLeavesPrefix(service: string, dictionary: string, items: seq<DictionaryItem>, rows: seq<seq<string>>,
                                reply: BatchUpdateDictionaryItemsInput -> Option<Error>)
    requires WellFormed(rows)
    requires RowsToMap(rows).Ok?
    ensures var run := SyncSpec(service, dictionary, Ok(items), Ok(rows), reply);
            var ops := Operations(Changelog(items, rows).value);
            && |BatchedOps(run.batches)| <= |ops|
            && BatchedOps(run.batches) == ops[..|BatchedOps(run.batches)|]
            && (forall i :: 0 <= i < |run.batches| - 1 ==> reply(run.batches[i]) == None)
            && (run.err.Some? ==>
                  && run.batches != []
                  && var last := run.batches[|run.batches| - 1];
                  && reply(last).Some?
                  && run.err == Some(if |last.items| == BatchUpdateMaximumItems
                                     then Wrapped(FlushContext, reply(last).value)
                                     else reply(last).value))
  {
    var ops := Operations(Changelog(items, rows).value);
    SendCarriesPrefix(service, dictionary, ops, reply);
    SendFollowsBatches(service, dictionary, ops, reply);
  }

  /** Batch shape: every request names the manager's service and dictionary
      and carries between one and BatchUpdateMaximumItems operations, every
      request but the last a full one; there are no more requests than the
      operations need, and none at all when the diff is empty. */
  lemma SyncBatchesAreBounded(service: string, dictionary: string, items: seq<DictionaryItem>, rows: seq<seq<string>>,
                              reply: BatchUpdateDictionaryItemsInput -> Option<Error>)
    requires WellFormed(rows)
    ensures var run := SyncSpec(service, dictionary, Ok(items), Ok(rows), reply);
            && (forall i :: 0 <= i < |run.batches| ==>
                  && run.batches[i].service == service && run.batches[i].dictionary == dictionary
                  && 1 <= |run.batches[i].items| <= BatchUpdateMaximumItems)
            && (forall i :: 0 <= i < |run.batches| - 1 ==> |run.batches[i].items| == BatchUpdateMaximumItems)
            && (RowsToMap(rows).Ok? ==>
                  var ops := Operations(Changelog(items, rows).value);
                  && |run.batches| <= (|ops| + BatchUpdateMaximumItems - 1) / BatchUpdateMaximumItems
                  && (run.err == None ==>
                        && |run.batches| == (|ops| + BatchUpdateMaximumItems - 1) / BatchUpdateMaximumItems
                        && BatchedOps(run.batches) == ops)
                  && (ops == [] ==> run.batches == [] && run.err == None))
  {
    if RowsToMap(rows).Ok? {
      var ops := Operations(Changelog(items, rows).value);
      SendFollowsBatches(service, dictionary, ops, reply);
      SendCarriesPrefix(service, dictionary, ops, reply);
    }
  }

  /** A second sync right after a successful one changes nothing: when the
      remote items already hold exactly the local rows, no batch is sent and
      no error is returned. */
  lemma SyncIsIdempotent(service: string, dictionary: string, items: seq<DictionaryItem>, rows: seq<seq<string>>,
                         reply: BatchUpdateDictionaryItemsInput -> Option<Error>)
    requires WellFormed(rows)
    requires RowsToMap(rows).Ok? && ItemsToMap(items) == RowsToMap(rows).value
    ensures SyncSpec(service, dictionary, Ok(items), Ok(rows), reply) == SyncRun(None, true, [])
  {
    NoChangesWhenEqual(ItemsToMap(items), KeyOrder(items, rows));
  }

  /** The requests Sync sends never trip the batch endpoint's checks: given a
      service and a dictionary, each one is sent as a PATCH with itself as the
      body, and the endpoint's error is the transport's. */
  lemma SyncBatchesPassEndpointGuards(service: string, dictionary: string, items: seq<DictionaryItem>,
                                      rows: seq<seq<string>>, reply: BatchUpdateDictionaryItemsInput -> Option<Error>,
                                      patchJSON: Patch -> Option<Error>)
    requires WellFormed(rows)
    requires service != "" && dictionary != ""
    ensures var run := SyncSpec(service, dictionary, Ok(items), Ok(rows), reply);
            forall i :: 0 <= i < |run.batches| ==>
              var out := BatchUpdateDictionaryItems(run.batches[i], patchJSON);
              && out.sent.Some?
              && out.sent.value.body == run.batches[i]
              && out.err == patchJSON(out.sent.value)
  {
    SyncBatchesAreBounded(service, dictionary, items, rows, reply);
  }

  /** An invalid local file is refused before any batch is sent, with the
      validation error wrapped in the diff context; a valid one that needs no
      batch ends without an error. */
  lemma SyncRejectsBadRows(service: string, dictionary: string, items: seq<DictionaryItem>, rows: seq<seq<string>>,
                           reply: BatchUpdateDictionaryItemsInput -> Option<Error>)
    requires WellFormed(rows)
    ensures var run := SyncSpec(service, dictionary, Ok(items), Ok(rows), reply);
            && (RowsToMap(rows).Err? ==> run.batches == [] && run.err == Some(Wrapped(DiffContext, RowsToMap(rows).error)))
            && (RowsToMap(rows).Ok? && run.batches == [] ==> run.err == None)
    ensures |rows| > MaxItems ==>
              SyncSpec(service, dictionary, Ok(items), Ok(rows), reply).err == Some(Wrapped(DiffContext, TooManyItems))
  {
    if RowsToMap(rows).Ok? {
      var s := Send(service, dictionary, Operations(Changelog(items, rows).value), reply);
      SendFollowsBatches(service, dictionary, Operations(Changelog(items, rows).value), reply);
      assert s.calls == [] ==> s.err == None;
    }
  }
}
