/** The older copy of the builder used by the eavesdrop command: the same
    clone, mutate, activate transaction, with mutators that are also handed
    the client. Its Action is proved to take exactly the steps the builder's
    Apply takes with every mutator bound to this builder's client, and to
    hand each mutator that client and the cloned version. */
module Eavesdrop {
  import opened Errors
  import opened Builder

  /** A change applied to the cloned version through the client. */
  type ClientMutator = (ClonerActivator, ServiceInfo) -> Option<Error>

  /** The mutators as the builder package sees them, each bound to `client`. */
  function Bind(client: ClonerActivator, fns: seq<ClientMutator>): seq<Mutator>
  {
    seq(|fns|, j requires 0 <= j < |fns| => (info: ServiceInfo) => fns[j](client, info))
  }

  class EavesdropBuilder {
    const client: ClonerActivator
    const serviceID: string
    const serviceVersion: int
    var latestVersion: int
    /** Every step taken so far, in order: client calls and mutator runs. */
    ghost var events: seq<Event>
    /** The arguments each mutator run so far was called with, in order. */
    ghost var handed: seq<(ClonerActivator, ServiceInfo)>

    /** NewBuilder: no version cloned yet. */
    constructor (client: ClonerActivator, serviceID: string, serviceVersion: int)
      ensures this.client == client && this.serviceID == serviceID && this.serviceVersion == serviceVersion
      ensures latestVersion == 0 && events == [] && handed == []
    {
      this.client := client;
      this.serviceID := serviceID;
      this.serviceVersion := serviceVersion;
      latestVersion := 0;
      events := [];
      handed := [];
    }

    method Clone() returns (err: Option<Error>)
      modifies this, client
      ensures var r := client.cloneReply(serviceID, serviceVersion);
              var call := Call.CloneVersion(serviceID, serviceVersion);
              && client.calls == old(client.calls) + [call]
              && events == old(events) + [Called(call)]
              && handed == old(handed)
              && (r.Ok? ==> err == None && latestVersion == r.value)
              && (r.Err? ==> err == Some(Wrapped(CloneContext, r.error)) && latestVersion == old(latestVersion))
    {
      var r := client.CloneVersion(serviceID, serviceVersion);
      events := events + [Called(Call.CloneVersion(serviceID, serviceVersion))];
      if r.Err? {
        return Some(Wrapped(CloneContext, r.error));
      }
      latestVersion := r.value;
      return None;
    }

    method Activate() returns (err: Option<Error>)
      modifies this, client
      ensures var e := client.activateReply(serviceID, latestVersion);
              var call := Call.ActivateVersion(serviceID, latestVersion);
              && client.calls == old(client.calls) + [call]
              && events == old(events) + [Called(call)]
              && handed == old(handed)
              && latestVersion == old(latestVersion)
              && err == (if e.Some? then Some(Wrapped(ActivateContext, e.value)) else None)
    {
      var e := client.ActivateVersion(serviceID, latestVersion);
      events := events + [Called(Call.ActivateVersion(serviceID, latestVersion))];
      if e.Some? {
        return Some(Wrapped(ActivateContext, e.value));
      }
      return None;
    }

    /** Action: the builder package's transaction, with this builder's own
        client passed to every mutator alongside the service ID and the
        cloned version. */
    method Action(fns: seq<ClientMutator>) returns (err: Option<Error>)
      modifies this, client
      ensures var o := Transaction(client.cloneReply, client.activateReply, serviceID, serviceVersion, Bind(client, fns));
              && err == o.err
              && client.calls == old(client.calls) + o.calls
              && events == old(events) + o.events
              && latestVersion == (if o.cloned.Some? then o.cloned.value else old(latestVersion))
              && |handed| == |old(handed)| + o.ran
              && (forall j :: |old(handed)| <= j < |handed| ==>
                    handed[j] == (client, ServiceInfo(serviceID, latestVersion)))
    {
      err := Clone();
      if err.Some? {
        return;
      }
      ghost var info := ServiceInfo(serviceID, latestVersion);
      ghost var bound := Bind(client, fns);
      ghost var k := FirstFailure(bound, info);
      ghost var cloned := events;
      ghost var start := handed;
      var i := 0;
      while i < |fns|
        invariant 0 <= i <= |fns| && i <= k
        invariant events == cloned + Runs(i, info)
        invariant |handed| == |start| + i
        invariant forall j :: |start| <= j < |handed| ==> handed[j] == (client, info)
        invariant latestVersion == info.version
        invariant client.calls == old(client.calls) + [Call.CloneVersion(serviceID, serviceVersion)]
      {
        events := events + [Ran(i, info)];
        assert Runs(i, info) + [Ran(i, info)] == Runs(i + 1, info);
        handed := handed + [(client, ServiceInfo(serviceID, latestVersion))];
        err := fns[i](client, ServiceInfo(serviceID, latestVersion));
        assert err == bound[i](info);
        if err.Some? {
          return;
        }
        i := i + 1;
      }
      err := Activate();
    }
  }
}
