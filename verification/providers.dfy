/**
 The cloud as the controller sees it (controller/internal/providers/provider.go, FakeProvider). A call that
 is told to fail does so before it takes effect, except WaitReady, which marks its instance failed. A cancelled
 call, one whose context has ended, fails whatever the instance.
 */
module Providers {
  import opened Common

  datatype Status =
    | StatusUnknown | StatusProvisioning | StatusReady | StatusBusy
    | StatusTerminating | StatusTerminated | StatusFailed

  type Cloud = map<string, Status>

  datatype ProviderError = Injected | InstanceNotFound | CapacityExhausted

  /** Nothing of this instance can be running any more. */
  predicate Gone(live: Option<Status>) {
    live.None? || live.value == StatusTerminated
  }

  function Ended(live: Option<Status>): Option<Status> {
    if live.None? then None else Some(StatusTerminated)
  }

  function Active(cloud: Cloud): set<string> {
    set id | id in cloud && cloud[id] != StatusTerminated
  }

  class FakeProvider {
    var instances: Cloud

    constructor ()
      ensures instances == map[]
    {
      instances := map[];
    }

    method Status(id: string, fail: bool) returns (r: Result<Status, ProviderError>)
      ensures r == if fail then Err(Injected) else if id in instances then Ok(instances[id]) else Err(InstanceNotFound)
    {
      if fail {
        return Err(Injected);
      }
      if id !in instances {
        return Err(InstanceNotFound);
      }
      r := Ok(instances[id]);
    }

    /** Idempotent: an unknown or already terminated instance is accepted without meeting an injected failure. */
    method Terminate(id: string, fail: bool, cancelled: bool) returns (ok: bool)
      modifies this
      ensures ok == (!cancelled && (!fail || Gone(Get(old(instances), id))))
      ensures instances == if ok && id in old(instances) then old(instances)[id := StatusTerminated] else old(instances)
    {
      if cancelled {
        return false;
      }
      if id !in instances || instances[id] == StatusTerminated {
        assert id in instances ==> instances == instances[id := StatusTerminated];
        return true;
      }
      if fail {
        return false;
      }
      instances := instances[id := StatusTerminated];
      ok := true;
    }

    /** `id` is the name the provider's sequence yields next; a name is never handed out twice. */
    method Provision(id: string, capacity: int, fail: bool) returns (r: Result<string, ProviderError>)
      requires id !in instances
      modifies this
      ensures r.Ok? ==> r.value == id && instances == old(instances)[id := StatusProvisioning]
      ensures r.Err? ==> instances == old(instances)
      ensures r == if fail then Err(Injected)
        else if capacity > 0 && |Active(old(instances))| >= capacity then Err(CapacityExhausted)
        else Ok(id)
    {
      if fail {
        return Err(Injected);
      }
      if capacity > 0 && |Active(instances)| >= capacity {
        return Err(CapacityExhausted);
      }
      instances := instances[id := StatusProvisioning];
      r := Ok(id);
    }

    /** An injected failure marks the instance failed; a wait that is cancelled leaves it as it is. */
    method WaitReady(id: string, fail: bool, cancelled: bool) returns (ok: bool)
      modifies this
      ensures ok == (!fail && !cancelled && id in old(instances))
      ensures instances ==
        if fail then old(instances)[id := StatusFailed]
        else if cancelled || id !in old(instances) ||
          old(instances)[id] in {StatusTerminated, StatusTerminating} then old(instances)
        else old(instances)[id := StatusReady]
    {
      if fail {
        instances := instances[id := StatusFailed];
        return false;
      }
      if id !in instances || cancelled {
        return false;
      }
      if instances[id] == StatusTerminated || instances[id] == StatusTerminating {
        return true;
      }
      instances := instances[id := StatusReady];
      ok := true;
    }
  }
}
