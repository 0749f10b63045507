/** Client authentication of the earlier prototype engine: the opening
    "none" request goes out once, and the answers to it are accepted
    without further requests. */
module DoorCliAuth {
  import opened Common
  import opened SshNames
  import opened Packets

  /** `RespPackets`: the bounded queue of replies to one incoming packet.
      Its capacity is fixed by the connection code, which is not part of
      this model, so it is a constructor argument. */
  class RespPackets {
    var packets: seq<Packet>
    const capacity: nat

    constructor (capacity: nat)
      ensures packets == [] && this.capacity == capacity
    {
      packets := [];
      this.capacity := capacity;
    }

    /** `push(..).trap()`: a packet that does not fit is an internal error
        and leaves the queue as it was. */
    method Push(p: Packet) returns (r: Outcome)
      modifies this
      ensures (r, packets) == PushStep(old(packets), capacity, p)
    {
      if |packets| < capacity {
        packets := packets + [p];
        r := Pass;
      } else {
        r := Fail(Bug);
      }
    }
  }

  /** One push onto a queue of `capacity` places. */
  function PushStep(queued: seq<Packet>, capacity: nat, p: Packet): (r: (Outcome, seq<Packet>))
    ensures r.0.Pass? <==> |queued| < capacity
    ensures r.0.Pass? ==> r.1 == queued + [p] && |r.1| <= capacity
    ensures r.0.Fail? ==> r.0 == Fail(Bug) && r.1 == queued
  {
    if |queued| < capacity then (Pass, queued + [p]) else (Fail(Bug), queued)
  }

  /** The user name the prototype always authenticates as. */
  const DOOR_USERNAME: string := "matt"

  /** The two packets that open authentication: the userauth service
      request, then the "none" request that asks which methods are open. */
  function OpeningPackets(username: string): (r: seq<Packet>)
    ensures |r| == 2 && r[0].ServiceRequest? && r[1].UserauthRequest?
  {
    [ServiceRequest(SSH_SERVICE_USERAUTH), UserauthRequest(username, SSH_SERVICE_CONNECTION, AuthNone)]
  }

  /** What `start` does to the `started` flag and the queue. */
  datatype StartOutcome = StartOutcome(started: bool, queued: seq<Packet>, result: Outcome)

  /** `CliAuth::start`: the flag is set before anything is queued, so a
      queue too small for the opening leaves a partial opening behind and
      the opening is not retried. */
  function StartStep(started: bool, username: string, queued: seq<Packet>, capacity: nat): StartOutcome
  {
    if started then StartOutcome(true, queued, Pass)
    else
      var first := PushStep(queued, capacity, ServiceRequest(SSH_SERVICE_USERAUTH));
      if first.0.Fail? then StartOutcome(true, first.1, first.0)
      else
        var second := PushStep(first.1, capacity, UserauthRequest(username, SSH_SERVICE_CONNECTION, AuthNone));
        StartOutcome(true, second.1, second.0)
  }

  /** A first `start` with room for two packets queues exactly the opening
      packets, in order; with less room it fails as an internal error. */
  lemma StartQueuesOpening(username: string, queued: seq<Packet>, capacity: nat)
    ensures var r := StartStep(false, username, queued, capacity);
      r.started
      && (|queued| + 2 <= capacity ==> r.result == Pass && r.queued == queued + OpeningPackets(username))
      && (|queued| + 2 > capacity ==> r.result == Fail(Bug) && |r.queued| <= |queued| + 1
                                       && r.queued[..|queued|] == queued)
  {
  }

  /** `start` is one-shot: once it has run, whatever its outcome, a later
      `start` queues nothing and succeeds. */
  lemma StartOnce(started: bool, username: string, queued: seq<Packet>, capacity: nat, later: seq<Packet>)
    ensures var first := StartStep(started, username, queued, capacity);
      first.started && StartStep(first.started, username, later, capacity) == StartOutcome(true, later, Pass)
  {
  }

  class CliAuth {
    const username: string
    var started: bool

    /** `CliAuth::new`. */
    constructor ()
      ensures username == DOOR_USERNAME && !started
    {
      username := DOOR_USERNAME;
      started := false;
    }

    /** `CliAuth::start`. */
    method Start(resp: RespPackets) returns (r: Outcome)
      modifies this, resp
      ensures StartOutcome(started, resp.packets, r) == StartStep(old(started), username, old(resp.packets), resp.capacity)
    {
      if !started {
        started := true;
        r := resp.Push(ServiceRequest(SSH_SERVICE_USERAUTH));
        if r.Fail? {
          return;
        }
        r := resp.Push(UserauthRequest(username, SSH_SERVICE_CONNECTION, AuthNone));
        if r.Fail? {
          return;
        }
      }
      r := Pass;
    }

    /** `CliAuth::failure`: accepted without action. */
    method Failure(failure: Packet) returns (r: Outcome)
      ensures r == Pass
    {
      r := Pass;
    }

    /** `CliAuth::success`: accepted without action. */
    method Success(success: Packet) returns (r: Outcome)
      ensures r == Pass
    {
      r := Pass;
    }
  }
}
