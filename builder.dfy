/** The clone, mutate, activate builder: it clones one version of a service,
    hands the new version to a series of mutators and activates it only when
    every mutator succeeded. The remote client is a stub that answers from
    fixed oracles and records every call made to it. */
module Builder {
  import opened Errors

  /** The service and version a mutator works on. */
  datatype ServiceInfo = ServiceInfo(id: string, version: int)

  /** One call the builder makes to the remote API. */
  datatype Call =
    | CloneVersion(service: string, version: int)
    | ActivateVersion(service: string, version: int)

  const CloneContext: string := "error cloning service"
  const ActivateContext: string := "error activating version"

  /** Stand-in for the remote client: CloneVersion answers with the new
      version's number or an error, ActivateVersion with an error or none. */
  class ClonerActivator {
    const cloneReply: (string, int) -> Result<int>
    const activateReply: (string, int) -> Option<Error>
    var calls: seq<Call>

    constructor (cloneReply: (string, int) -> Result<int>, activateReply: (string, int) -> Option<Error>)
      ensures this.cloneReply == cloneReply && this.activateReply == activateReply && calls == []
    {
      this.cloneReply := cloneReply;
      this.activateReply := activateReply;
      calls := [];
    }

    method CloneVersion(service: string, version: int) returns (r: Result<int>)
      modifies this
      ensures calls == old(calls) + [Call.CloneVersion(service, version)] && r == cloneReply(service, version)
    {
      calls := calls + [Call.CloneVersion(service, version)];
      r := cloneReply(service, version);
    }

    method ActivateVersion(service: string, version: int) returns (err: Option<Error>)
      modifies this
      ensures calls == old(calls) + [Call.ActivateVersion(service, version)] && err == activateReply(service, version)
    {
      calls := calls + [Call.ActivateVersion(service, version)];
      err := activateReply(service, version);
    }
  }

  /** A change applied to the cloned version; an error stops the build. */
  type Mutator = ServiceInfo -> Option<Error>

  /** Index of the first mutator that fails on `info`, or |fns| when none
      does. */
  function FirstFailure(fns: seq<Mutator>, info: ServiceInfo): (k: nat)
    ensures k <= |fns|
    ensures forall j :: 0 <= j < k ==> fns[j](info) == None
    ensures k < |fns| ==> fns[k](info).Some?
    decreases |fns|
  {
    if fns == [] then 0
    else if fns[0](info).Some? then 0
    else 1 + FirstFailure(fns[1..], info)
  }

  /** One step of a build, in the order it happened: a call to the remote
      client, or mutator `index` run on `info`. */
  datatype Event =
    | Called(call: Call)
    | Ran(index: nat, info: ServiceInfo)

  /** Mutators 0..n-1, each run on `info`, in order. */
  function Runs(n: nat, info: ServiceInfo): seq<Event>
  {
    seq(n, j requires 0 <= j => Ran(j, info))
  }

  /** What one Apply does: the error it returns, the calls it makes to the
      client, every step in order (calls and mutator runs interleaved), how
      many mutators ran, and the version the clone produced, if it
      succeeded. */
  datatype Outcome = Outcome(err: Option<Error>, calls: seq<Call>, events: seq<Event>, ran: nat, cloned: Option<int>)

  /** Apply as a value: clone first; a failed clone is wrapped and ends the
      run; otherwise every mutator gets the new version in turn until one
      fails, whose error is returned as it came; when none fails the new
      version is activated and a failed activation is wrapped. */
  function Transaction(cloneReply: (string, int) -> Result<int>, activateReply: (string, int) -> Option<Error>,
                       serviceID: string, serviceVersion: int, fns: seq<Mutator>): (o: Outcome)
    ensures 1 <= |o.calls| <= 2 && o.calls[0] == Call.CloneVersion(serviceID, serviceVersion)
    ensures o.cloned.Some? <==> cloneReply(serviceID, serviceVersion).Ok?
    ensures o.cloned.Some? ==> o.cloned.value == cloneReply(serviceID, serviceVersion).value
    ensures o.cloned.None? ==>
              o.err == Some(Wrapped(CloneContext, cloneReply(serviceID, serviceVersion).error)) &&
              o.events == [Called(o.calls[0])] && o.ran == 0
    ensures o.ran <= |fns|
    ensures |o.events| == |o.calls| + o.ran && o.events[0] == Called(o.calls[0])
    ensures forall j :: 0 <= j < o.ran ==> o.events[1 + j] == Ran(j, ServiceInfo(serviceID, o.cloned.value))
    ensures |o.calls| == 2 ==> o.events[|o.events| - 1] == Called(o.calls[1])
  {
    var clone := Call.CloneVersion(serviceID, serviceVersion);
    match cloneReply(serviceID, serviceVersion)
    case Err(e) => Outcome(Some(Wrapped(CloneContext, e)), [clone], [Called(clone)], 0, None)
    case Ok(v) =>
      var info := ServiceInfo(serviceID, v);
      var k := FirstFailure(fns, info);
      if k < |fns| then
        Outcome(fns[k](info), [clone], [Called(clone)] + Runs(k + 1, info), k + 1, Some(v))
      else
        var activate := Call.ActivateVersion(serviceID, v);
        var err := activateReply(serviceID, v);
        Outcome(if err.Some? then Some(Wrapped(ActivateContext, err.value)) else None,
                [clone, activate], [Called(clone)] + Runs(|fns|, info) + [Called(activate)], |fns|, Some(v))
  }

  /** Mutators run in order and stop at the first failure: after a clone,
      mutator j runs exactly when every mutator before it succeeded, and a
      mutator's error is returned unwrapped, its run being the last step:
      nothing is activated. */
  lemma MutatorsStopAtFirstError(cloneReply: (string, int) -> Result<int>, activateReply: (string, int) -> Option<Error>,
                                 serviceID: string, serviceVersion: int, fns: seq<Mutator>, j: nat)
    requires cloneReply(serviceID, serviceVersion).Ok? && j < |fns|
    ensures var o := Transaction(cloneReply, activateReply, serviceID, serviceVersion, fns);
            var info := ServiceInfo(serviceID, cloneReply(serviceID, serviceVersion).value);
            && (j < o.ran <==> forall i :: 0 <= i < j ==> fns[i](info) == None)
            && (fns[j](info).Some? && (forall i :: 0 <= i < j ==> fns[i](info) == None) ==>
                  && o.err == fns[j](info) && o.ran == j + 1
                  && o.calls == [Call.CloneVersion(serviceID, serviceVersion)]
                  && o.events[|o.events| - 1] == Ran(j, info))
  {
    var info := ServiceInfo(serviceID, cloneReply(serviceID, serviceVersion).value);
    var k := FirstFailure(fns, info);
    if k < j {
      assert !(forall i :: 0 <= i < j ==> fns[i](info) == None) by {
        assert fns[k](info).Some?;
      }
    }
  }

  /** The new version is activated exactly when the clone and every mutator
      succeeded; it is the cloned version that is activated, once, as the
      last step, after every mutator has run on it. */
  lemma ActivatesOnlyWhenAllSucceed(cloneReply: (string, int) -> Result<int>, activateReply: (string, int) -> Option<Error>,
                                    serviceID: string, serviceVersion: int, fns: seq<Mutator>)
    ensures var o := Transaction(cloneReply, activateReply, serviceID, serviceVersion, fns);
            |o.calls| == 2 <==>
              && cloneReply(serviceID, serviceVersion).Ok?
              && forall j :: 0 <= j < |fns| ==> fns[j](ServiceInfo(serviceID, o.cloned.value)) == None
    ensures var o := Transaction(cloneReply, activateReply, serviceID, serviceVersion, fns);
            |o.calls| == 2 ==>
              var info := ServiceInfo(serviceID, o.cloned.value);
              && o.calls[1] == Call.ActivateVersion(serviceID, o.cloned.value)
              && |o.events| == |fns| + 2
              && (forall j :: 0 <= j < |fns| ==> o.events[1 + j] == Ran(j, info))
              && o.events[|fns| + 1] == Called(Call.ActivateVersion(serviceID, o.cloned.value))
    ensures var o := Transaction(cloneReply, activateReply, serviceID, serviceVersion, fns);
            forall i :: 0 <= i < |o.events| - 1 ==> !(o.events[i].Called? && o.events[i].call.ActivateVersion?)
  {
    var o := Transaction(cloneReply, activateReply, serviceID, serviceVersion, fns);
    if cloneReply(serviceID, serviceVersion).Ok? {
      var info := ServiceInfo(serviceID, cloneReply(serviceID, serviceVersion).value);
      var k := FirstFailure(fns, info);
      if k < |fns| {
        assert fns[k](info).Some?;
      }
    }
    forall i | 0 <= i < |o.events| - 1
      ensures !(o.events[i].Called? && o.events[i].call.ActivateVersion?)
    {
      if i > 0 {
        assert o.events[i] == Ran(i - 1, ServiceInfo(serviceID, o.cloned.value));
      }
    }
  }

  /** Apply returns no error exactly when the clone, every mutator and the
      activation succeeded; a failed activation comes back wrapped. */
  lemma SucceedsIffEveryStepSucceeds(cloneReply: (string, int) -> Result<int>, activateReply: (string, int) -> Option<Error>,
                                     serviceID: string, serviceVersion: int, fns: seq<Mutator>)
    ensures var o := Transaction(cloneReply, activateReply, serviceID, serviceVersion, fns);
            o.err == None <==>
              && cloneReply(serviceID, serviceVersion).Ok?
              && (forall j :: 0 <= j < |fns| ==> fns[j](ServiceInfo(serviceID, o.cloned.value)) == None)
              && activateReply(serviceID, o.cloned.value) == None
    ensures var o := Transaction(cloneReply, activateReply, serviceID, serviceVersion, fns);
            |o.calls| == 2 && activateReply(serviceID, o.cloned.value).Some? ==>
              o.err == Some(Wrapped(ActivateContext, activateReply(serviceID, o.cloned.value).value))
  {
    ActivatesOnlyWhenAllSucceed(cloneReply, activateReply, serviceID, serviceVersion, fns);
  }

  class Builder {
    const client: ClonerActivator
    const serviceID: string
    const serviceVersion: int
    var latestVersion: int
    /** Every step taken so far, in order: client calls and mutator runs. */
    ghost var events: seq<Event>

    /** New: no version cloned yet. */
    constructor (client: ClonerActivator, serviceID: string, serviceVersion: int)
      ensures this.client == client && this.serviceID == serviceID && this.serviceVersion == serviceVersion
      ensures latestVersion == 0 && events == []
    {
      this.client := client;
      this.serviceID := serviceID;
      this.serviceVersion := serviceVersion;
      latestVersion := 0;
      events := [];
    }

    /** clone: the configured version is cloned; the new number becomes the
        latest version, and a failure is wrapped and leaves it alone. */
    method Clone() returns (err: Option<Error>)
      modifies this, client
      ensures var r := client.cloneReply(serviceID, serviceVersion);
              var call := Call.CloneVersion(serviceID, serviceVersion);
              && client.calls == old(client.calls) + [call]
              && events == old(events) + [Called(call)]
              && (r.Ok? ==> err == None && latestVersion == r.value)
              && (r.Err? ==> err == Some(Wrapped(CloneContext, r.error)) && latestVersion == old(latestVersion))
    {
      var r := client.CloneVersion(serviceID, serviceVersion);
      events := events + [Called(Call.CloneVersion(serviceID, serviceVersion))];
      if r.Err? {
        return Some(Wrapped(CloneContext, r.error));
      }
      latestVersion := r.value;
      return None;
    }

    /** activate: the latest version is activated; a failure is wrapped. */
    method Activate() returns (err: Option<Error>)
      modifies this, client
      ensures var e := client.activateReply(serviceID, latestVersion);
              var call := Call.ActivateVersion(serviceID, latestVersion);
              && client.calls == old(client.calls) + [call]
              && events == old(events) + [Called(call)]
              && latestVersion == old(latestVersion)
              && err == (if e.Some? then Some(Wrapped(ActivateContext, e.value)) else None)
    {
      var e := client.ActivateVersion(serviceID, latestVersion);
      events := events + [Called(Call.ActivateVersion(serviceID, latestVersion))];
      if e.Some? {
        return Some(Wrapped(ActivateContext, e.value));
      }
      return None;
    }

    /** Apply: clone, run the mutators in order until one fails, then
        activate, as Transaction describes. */
    method Apply(fns: seq<Mutator>) returns (err: Option<Error>)
      modifies this, client
      ensures var o := Transaction(client.cloneReply, client.activateReply, serviceID, serviceVersion, fns);
              && err == o.err
              && client.calls == old(client.calls) + o.calls
              && events == old(events) + o.events
              && latestVersion == (if o.cloned.Some? then o.cloned.value else old(latestVersion))
    {
      ghost var start := events;
      err := Clone();
      if err.Some? {
        return;
      }
      var info := ServiceInfo(serviceID, latestVersion);
      ghost var k := FirstFailure(fns, info);
      ghost var cloned := events;
      var i := 0;
      while i < |fns|
        invariant 0 <= i <= |fns| && i <= k
        invariant events == cloned + Runs(i, info)
        invariant latestVersion == info.version
        invariant client.calls == old(client.calls) + [Call.CloneVersion(serviceID, serviceVersion)]
      {
        events := events + [Ran(i, info)];
        assert Runs(i, info) + [Ran(i, info)] == Runs(i + 1, info);
        var e := fns[i](info);
        if e.Some? {
          return e;
        }
        i := i + 1;
      }
      err := Activate();
    }
  }
}
