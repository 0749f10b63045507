/** The client role of the earlier prototype engine: the per-callback
    session handle, and the reply to a successful authentication. */
module DoorClient {
  import opened Common
  import opened SshNames
  import opened Packets
  import opened DoorCliAuth

  /** The fields of `ClientHandle`. */
  datatype HandleView = HandleView(openSession: bool, pty: bool)

  /** `ClientHandle::open_session`: one session per callback. */
  function OpenSessionStep(h: HandleView, pty: bool): (HandleView, Outcome)
  {
    if h.openSession then (h, Fail(Custom("Only one session can be opened per callback")))
    else (HandleView(true, pty), Pass)
  }

  /** Starting from a fresh handle, the first request is granted with the
      terminal choice it asked for, and every later one is refused without
      changing that choice. */
  lemma OneSessionPerCallback(pty1: bool, pty2: bool)
    ensures var first := OpenSessionStep(HandleView(false, false), pty1);
      var second := OpenSessionStep(first.0, pty2);
      first == (HandleView(true, pty1), Pass)
      && second.1 == Fail(Custom("Only one session can be opened per callback"))
      && second.0 == first.0
  {
  }

  /** A handle that has granted a session refuses all further requests. */
  lemma OpenSessionRefusesAgain(h: HandleView, pty: bool)
    requires h.openSession
    ensures OpenSessionStep(h, pty).1.Fail? && OpenSessionStep(h, pty).0 == h
  {
  }

  /** `ClientHandle`: what the application asked for during a callback. */
  class ClientHandle {
    var openSession: bool
    var pty: bool

    function View(): HandleView
      reads this
    {
      HandleView(openSession, pty)
    }

    /** `ClientHandle::new`. */
    constructor ()
      ensures View() == HandleView(false, false)
    {
      openSession := false;
      pty := false;
    }

    /** `ClientHandle::open_session`. */
    method OpenSession(pty: bool) returns (r: Outcome)
      modifies this
      ensures (View(), r) == OpenSessionStep(old(View()), pty)
    {
      if openSession {
        return Fail(Custom("Only one session can be opened per callback"));
      }
      openSession := true;
      this.pty := pty;
      r := Pass;
    }
  }

  /** `Client`: the authentication state; the application hooks are not
      part of this model. */
  class Client {
    const auth: CliAuth

    /** `Client::new`. */
    constructor ()
      ensures fresh(auth) && !auth.started && auth.username == DOOR_USERNAME
    {
      auth := new CliAuth();
    }

    /** `Client::auth_success`: the request for the connection service is
        queued first; only then is authentication told of the success. */
    method AuthSuccess(resp: RespPackets, success: Packet) returns (r: Outcome)
      modifies resp
      ensures (r, resp.packets) == PushStep(old(resp.packets), resp.capacity, ServiceRequest(SSH_SERVICE_CONNECTION))
    {
      r := resp.Push(ServiceRequest(SSH_SERVICE_CONNECTION));
      if r.Fail? {
        return;
      }
      r := auth.Success(success);
    }
  }
}
