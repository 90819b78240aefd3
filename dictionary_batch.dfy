/** How the reconciliation engine sends its operations: in consecutive
    batches of at most BatchUpdateMaximumItems, a full batch flushed as soon
    as it fills and any remainder flushed at the end, stopping at the first
    batch the remote store refuses. */
module DictionaryBatch {
  import opened Errors
  import opened FastlyExt

  /** The context a batch error flushed inside the loop is wrapped in. */
  const FlushContext: string := "error updating batch"

  function Flatten<T>(bs: seq<seq<T>>): seq<T>
  {
    if bs == [] then [] else bs[0] + Flatten(bs[1..])
  }

  /** `ops` cut into consecutive batches: every batch but the last is full,
      none is empty, and together they are `ops` in order. */
  function Batches<T>(ops: seq<T>): (bs: seq<seq<T>>)
    ensures |bs| == (|ops| + BatchUpdateMaximumItems - 1) / BatchUpdateMaximumItems
    ensures forall i :: 0 <= i < |bs| ==> 1 <= |bs[i]| <= BatchUpdateMaximumItems
    ensures forall i :: 0 <= i < |bs| - 1 ==> |bs[i]| == BatchUpdateMaximumItems
    ensures Flatten(bs) == ops
    decreases |ops|
  {
    if |ops| == 0 then []
    else if |ops| <= BatchUpdateMaximumItems then
      assert Flatten([ops]) == ops + Flatten<T>([]);
      [ops]
    else
      var rest := Batches(ops[BatchUpdateMaximumItems..]);
      var bs := [ops[..BatchUpdateMaximumItems]] + rest;
      assert bs[1..] == rest;
      assert ops == ops[..BatchUpdateMaximumItems] + ops[BatchUpdateMaximumItems..];
      bs
  }

  /** The batch requests sent and the error returned. */
  datatype Sent = Sent(err: Option<Error>, calls: seq<BatchUpdateDictionaryItemsInput>)

  /** The batch loop of Sync and its final flush, given how the remote store
      answers each request: a full batch is sent as soon as it fills, a
      refused one ends the run with its error wrapped, and what remains at
      the end goes out as one last batch whose error is returned as it came. */
  function Send(service: string, dictionary: string, ops: seq<BatchUpdateDictionaryItem>,
                reply: BatchUpdateDictionaryItemsInput -> Option<Error>): Sent
    decreases |ops|
  {
    if |ops| == 0 then Sent(None, [])
    else if |ops| >= BatchUpdateMaximumItems then
      var input := BatchUpdateDictionaryItemsInput(service, dictionary, ops[..BatchUpdateMaximumItems]);
      match reply(input)
      case Some(e) => Sent(Some(Wrapped(FlushContext, e)), [input])
      case None =>
        var rest := Send(service, dictionary, ops[BatchUpdateMaximumItems..], reply);
        Sent(rest.err, [input] + rest.calls)
    else
      var input := BatchUpdateDictionaryItemsInput(service, dictionary, ops);
      Sent(reply(input), [input])
  }

  /** Batches(ops) starts with the first full batch when there is one. */
  lemma BatchesStep<T>(ops: seq<T>)
    requires |ops| >= BatchUpdateMaximumItems
    ensures Batches(ops) == [ops[..BatchUpdateMaximumItems]] + Batches(ops[BatchUpdateMaximumItems..])
  {
    if |ops| == BatchUpdateMaximumItems {
      assert ops[..BatchUpdateMaximumItems] == ops;
      assert ops[BatchUpdateMaximumItems..] == [];
    }
  }

  /** Request i of Send is batch i of Batches(ops), with the service and the
      dictionary. */
  lemma {:induction false} SendCallAt(service: string, dictionary: string, ops: seq<BatchUpdateDictionaryItem>,
                                      reply: BatchUpdateDictionaryItemsInput -> Option<Error>, i: nat)
    requires i < |Send(service, dictionary, ops, reply).calls|
    ensures i < |Batches(ops)|
    ensures Send(service, dictionary, ops, reply).calls[i] == BatchUpdateDictionaryItemsInput(service, dictionary, Batches(ops)[i])
    decreases |ops|
  {
    if |ops| >= BatchUpdateMaximumItems {
      BatchesStep(ops);
      if i > 0 {
        SendCallAt(service, dictionary, ops[BatchUpdateMaximumItems..], reply, i - 1);
      }
    }
  }

  /** Send makes no more requests than there are batches. */
  lemma {:induction false} SendCallCount(service: string, dictionary: string, ops: seq<BatchUpdateDictionaryItem>,
                                         reply: BatchUpdateDictionaryItemsInput -> Option<Error>)
    ensures |Send(service, dictionary, ops, reply).calls| <= |Batches(ops)|
  {
    var n := |Send(service, dictionary, ops, reply).calls|;
    if n > 0 {
      SendCallAt(service, dictionary, ops, reply, n - 1);
    }
  }

  /** Every request before Send's last one was accepted. */
  lemma {:induction false} SendAcceptedBefore(service: string, dictionary: string, ops: seq<BatchUpdateDictionaryItem>,
                                              reply: BatchUpdateDictionaryItemsInput -> Option<Error>, i: nat)
    requires i < |Send(service, dictionary, ops, reply).calls| - 1
    ensures reply(Send(service, dictionary, ops, reply).calls[i]) == None
    decreases |ops|
  {
    if |ops| >= BatchUpdateMaximumItems && i > 0 {
      SendAcceptedBefore(service, dictionary, ops[BatchUpdateMaximumItems..], reply, i - 1);
    }
  }

  /** How Send ends: without an error only after every batch, the last one
      accepted; with one only when the last request was refused, the error
      wrapped when that batch was a full one (flushed inside the loop) and
      bare when it was the final flush. */
  lemma {:induction false} SendLast(service: string, dictionary: string, ops: seq<BatchUpdateDictionaryItem>,
                                    reply: BatchUpdateDictionaryItemsInput -> Option<Error>)
    ensures var s := Send(service, dictionary, ops, reply);
            s.err == None ==> |s.calls| == |Batches(ops)| && (|s.calls| > 0 ==> reply(s.calls[|s.calls| - 1]) == None)
    ensures var s := Send(service, dictionary, ops, reply);
            s.err.Some? ==>
              && |s.calls| > 0
              && reply(s.calls[|s.calls| - 1]).Some?
              && s.err == Some(if |s.calls[|s.calls| - 1].items| == BatchUpdateMaximumItems
                               then Wrapped(FlushContext, reply(s.calls[|s.calls| - 1]).value)
                               else reply(s.calls[|s.calls| - 1]).value)
    decreases |ops|
  {
    if |ops| >= BatchUpdateMaximumItems {
      var input := BatchUpdateDictionaryItemsInput(service, dictionary, ops[..BatchUpdateMaximumItems]);
      BatchesStep(ops);
      if reply(input).None? {
        var tail := ops[BatchUpdateMaximumItems..];
        SendLast(service, dictionary, tail, reply);
        var rest := Send(service, dictionary, tail, reply);
        if |rest.calls| > 0 {
          assert ([input] + rest.calls)[|rest.calls|] == rest.calls[|rest.calls| - 1];
        }
      }
    }
  }

  /** What Send promises, in one statement. */
  lemma SendFollowsBatches(service: string, dictionary: string, ops: seq<BatchUpdateDictionaryItem>,
                           reply: BatchUpdateDictionaryItemsInput -> Option<Error>)
    ensures var s := Send(service, dictionary, ops, reply);
            && |s.calls| <= |Batches(ops)|
            && (forall i :: 0 <= i < |s.calls| ==>
                  s.calls[i] == BatchUpdateDictionaryItemsInput(service, dictionary, Batches(ops)[i]))
            && (forall i :: 0 <= i < |s.calls| - 1 ==> reply(s.calls[i]) == None)
            && (s.err == None <==>
                  |s.calls| == |Batches(ops)| && forall i :: 0 <= i < |s.calls| ==> reply(s.calls[i]) == None)
            && (s.err.Some? ==>
                  && |s.calls| > 0
                  && reply(s.calls[|s.calls| - 1]).Some?
                  && s.err == Some(if |s.calls[|s.calls| - 1].items| == BatchUpdateMaximumItems
                                   then Wrapped(FlushContext, reply(s.calls[|s.calls| - 1]).value)
                                   else reply(s.calls[|s.calls| - 1]).value))
  {
    var s := Send(service, dictionary, ops, reply);
    SendCallCount(service, dictionary, ops, reply);
    SendLast(service, dictionary, ops, reply);
    forall i | 0 <= i < |s.calls|
      ensures s.calls[i] == BatchUpdateDictionaryItemsInput(service, dictionary, Batches(ops)[i])
    {
      SendCallAt(service, dictionary, ops, reply, i);
    }
    forall i | 0 <= i < |s.calls| - 1
      ensures reply(s.calls[i]) == None
    {
      SendAcceptedBefore(service, dictionary, ops, reply, i);
    }
  }

  /** The batches sent so far, all accepted, followed by what sending the
      operations from `flushed` on does, make up the whole batch run. */
  ghost predicate SendFrom(service: string, dictionary: string, ops: seq<BatchUpdateDictionaryItem>,
                           reply: BatchUpdateDictionaryItemsInput -> Option<Error>, flushed: nat,
                           sent: seq<BatchUpdateDictionaryItemsInput>)
  {
    flushed <= |ops| &&
    var s := Send(service, dictionary, ops[flushed..], reply);
    Send(service, dictionary, ops, reply) == Sent(s.err, sent + s.calls)
  }

  /** One step of the batch loop: the full batch starting at `flushed` is
      sent; when it is accepted the run goes on with the rest, and when it is
      refused the run ends with the wrapped error. */
  lemma SendFullBatch(service: string, dictionary: string, ops: seq<BatchUpdateDictionaryItem>,
                      reply: BatchUpdateDictionaryItemsInput -> Option<Error>, flushed: nat,
                      sent: seq<BatchUpdateDictionaryItemsInput>)
    requires SendFrom(service, dictionary, ops, reply, flushed, sent)
    requires flushed + BatchUpdateMaximumItems <= |ops|
    ensures var input := BatchUpdateDictionaryItemsInput(service, dictionary, ops[flushed..flushed + BatchUpdateMaximumItems]);
            && (reply(input).None? ==>
                  SendFrom(service, dictionary, ops, reply, flushed + BatchUpdateMaximumItems, sent + [input]))
            && (reply(input).Some? ==>
                  Send(service, dictionary, ops, reply) == Sent(Some(Wrapped(FlushContext, reply(input).value)), sent + [input]))
  {
    var input := BatchUpdateDictionaryItemsInput(service, dictionary, ops[flushed..flushed + BatchUpdateMaximumItems]);
    assert ops[flushed..][..BatchUpdateMaximumItems] == ops[flushed..flushed + BatchUpdateMaximumItems];
    assert ops[flushed..][BatchUpdateMaximumItems..] == ops[flushed + BatchUpdateMaximumItems..];
    var rest := Send(service, dictionary, ops[flushed + BatchUpdateMaximumItems..], reply);
    assert sent + ([input] + rest.calls) == (sent + [input]) + rest.calls;
  }

  /** The final flush: nothing is sent when no operation is left, and the
      remainder goes out as one batch whose error is returned unwrapped. */
  lemma SendLastBatch(service: string, dictionary: string, ops: seq<BatchUpdateDictionaryItem>,
                      reply: BatchUpdateDictionaryItemsInput -> Option<Error>, flushed: nat,
                      sent: seq<BatchUpdateDictionaryItemsInput>)
    requires SendFrom(service, dictionary, ops, reply, flushed, sent)
    requires |ops| < flushed + BatchUpdateMaximumItems
    ensures |ops| == flushed ==> Send(service, dictionary, ops, reply) == Sent(None, sent)
    ensures |ops| > flushed ==>
              var input := BatchUpdateDictionaryItemsInput(service, dictionary, ops[flushed..]);
              Send(service, dictionary, ops, reply) == Sent(reply(input), sent + [input])
  {
    if |ops| == flushed {
      assert sent + [] == sent;
    }
  }
}
