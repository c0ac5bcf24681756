/**
 * A reference lifecycle machine for the tx2 backend contract.
 *
 * The backend contract is a set of traits with no bodies. This module gives one
 * implementation of it that keeps what the doc comments promise: an Endpoint is a shared handle plus an exclusively owned receiver of
 * incoming connections; a Con is a shared handle plus an exclusively owned
 * receiver of incoming channels; closing cascades endpoint -> connections ->
 * channels; receiving is two-phase. What a concrete backend would do on the
 * wire is an input: when an attempt completes and with what result.
 *
 * Where the contract is silent about what a closed object answers, this
 * machine answers `Err(Closed)`, so that nothing is created under a closed
 * endpoint or connection and nothing waits on one.
 */
module TxBackend {
  import opened Wrappers
  import opened Timeout

  /** `TxUrl`: an opaque, backend-defined address. */
  type TxUrl = string

  /** One poll of a receiver's `next()` future: not resolved yet, or resolved. */
  datatype Poll<T> = Pending | Ready(value: T)

  /** `ConFut`: the second phase of an incoming connection; its handshake yields the remote address or fails. */
  datatype PendingCon = PendingCon(handshake: KitsuneResult<TxUrl>)

  /** `InChanFut`: the second phase of an incoming channel; it becomes readable or fails. */
  datatype PendingChan = PendingChan(ready: KitsuneResult<()>)

  datatype Direction = Inbound | Outbound

  /** An `InChan` (readable) or `OutChan` (writable) byte stream; only its lifecycle is modelled. */
  class Chan {
    const dir: Direction
    var open: bool

    constructor (dir: Direction)
      ensures this.dir == dir && open
    {
      this.dir := dir;
      open := true;
    }
  }

  /** `ConAdapt`: the shareable handle of an open connection to one remote. */
  class ConAdapt {
    const remote: TxUrl
    var open: bool
    var chans: set<Chan>

    /** A closed connection has no open channel. */
    ghost predicate Valid()
      reads this, chans
    {
      !open ==> forall ch :: ch in chans ==> !ch.open
    }

    ghost predicate AllClosed()
      reads this, chans
    {
      !open && forall ch :: ch in chans ==> !ch.open
    }

    constructor (remote: TxUrl)
      ensures Valid()
      ensures this.remote == remote && open && chans == {}
    {
      this.remote := remote;
      open := true;
      chans := {};
    }

    /** `remote_addr()`: fallible; this machine fails once the connection is closed. */
    method RemoteAddr() returns (r: KitsuneResult<TxUrl>)
      ensures r.Ok? <==> open
      ensures r.Ok? ==> r.value == remote
      ensures r.Err? ==> r.error == Closed
    {
      if open {
        r := Ok(remote);
      } else {
        r := Err(Closed);
      }
    }

    /** A new channel of this connection, open, with nothing else changed. */
    method Register(dir: Direction) returns (ch: Chan)
      requires Valid() && open
      modifies this
      ensures Valid() && open
      ensures fresh(ch) && ch.open && ch.dir == dir
      ensures chans == old(chans) + {ch}
    {
      ch := new Chan(dir);
      chans := chans + {ch};
    }

    /**
     * `out_chan(timeout)`: the backend's attempt is raced against the timeout and
     * yields a single result; on success the new writable channel belongs to this
     * connection.
     */
    method OutChan(timeout: KitsuneTimeout, now: nat, attempt: Completion<()>) returns (r: KitsuneResult<Chan>)
      requires Valid()
      modifies this
      ensures Valid() && open == old(open)
      ensures !old(open) ==> r == Err(Closed) && chans == old(chans)
      ensures old(open) && Mix(timeout, now, attempt).Err? ==>
                r == Err(Mix(timeout, now, attempt).error) && chans == old(chans)
      ensures old(open) && Mix(timeout, now, attempt).Ok? ==>
                r.Ok? && fresh(r.value) && r.value.open && r.value.dir == Outbound &&
                chans == old(chans) + {r.value}
    {
      if !open {
        return Err(Closed);
      }
      match Mix(timeout, now, attempt)
      case Err(e) =>
        r := Err(e);
      case Ok(_) =>
        var ch := Register(Outbound);
        r := Ok(ch);
    }

    /** `close()`: closes this connection and all its channels; closing twice is closing once. */
    method Close()
      modifies this, chans
      ensures AllClosed() && Valid()
      ensures chans == old(chans)
    {
      open := false;
      forall ch | ch in chans {
        ch.open := false;
      }
    }
  }

  /** `InChanRecvAdapt`: the exclusively owned receiver of a connection's incoming channels. */
  class InChanRecvAdapt {
    const con: ConAdapt
    /** Incoming channels the backend has discovered and not yet handed out, in order. */
    var incoming: seq<KitsuneResult<PendingChan>>
    /** Second-phase futures handed out by `Next` and not yet awaited. */
    ghost var issued: multiset<PendingChan>

    constructor (con: ConAdapt)
      ensures this.con == con && incoming == [] && issued == multiset{}
    {
      this.con := con;
      incoming := [];
      issued := multiset{};
    }

    /** The backend discovers one more incoming channel (or a failed attempt at one). */
    method Deliver(item: KitsuneResult<PendingChan>)
      modifies this
      ensures incoming == old(incoming) + [item] && issued == old(issued)
    {
      incoming := incoming + [item];
    }

    /**
     * Phase one of `next(&mut self)`. There is no end-of-stream answer: with
     * nothing discovered yet the future is still pending. The first phase of a
     * discovered item may itself be an error.
     */
    method Next() returns (r: Poll<KitsuneResult<PendingChan>>)
      modifies this
      ensures !con.open ==> r == Ready(Err(Closed)) && incoming == old(incoming)
      ensures con.open && old(incoming) == [] ==> r == Pending && incoming == []
      ensures con.open && old(incoming) != [] ==>
                r == Ready(old(incoming)[0]) && incoming == old(incoming)[1..]
      ensures r.Ready? && r.value.Ok? ==> issued == old(issued) + multiset{r.value.value}
      ensures !(r.Ready? && r.value.Ok?) ==> issued == old(issued)
    {
      if !con.open {
        r := Ready(Err(Closed));
      } else if incoming == [] {
        r := Pending;
      } else {
        r := Ready(incoming[0]);
        incoming := incoming[1..];
        if r.value.Ok? {
          issued := issued + multiset{r.value.value};
        }
      }
    }

    /**
     * Phase two: awaiting a pending channel that `Next` handed out consumes it;
     * it resolves to a readable channel of this connection, or to an error.
     */
    method Complete(p: PendingChan) returns (r: KitsuneResult<Chan>)
      requires con.Valid() && p in issued
      modifies this, con
      ensures issued == old(issued) - multiset{p} && incoming == old(incoming)
      ensures con.Valid() && con.open == old(con.open)
      ensures !old(con.open) ==> r == Err(Closed) && con.chans == old(con.chans)
      ensures old(con.open) && p.ready.Err? ==> r == Err(p.ready.error) && con.chans == old(con.chans)
      ensures old(con.open) && p.ready.Ok? ==>
                r.Ok? && fresh(r.value) && r.value.open && r.value.dir == Inbound &&
                con.chans == old(con.chans) + {r.value}
    {
      issued := issued - multiset{p};
      if !con.open {
        return Err(Closed);
      }
      match p.ready
      case Err(e) =>
        r := Err(e);
      case Ok(_) =>
        var ch := con.Register(Inbound);
        r := Ok(ch);
    }
  }

  /** `Con`: the shareable handle paired with the receiver of incoming channels of the same connection. */
  datatype Con = Con(adapt: ConAdapt, recv: InChanRecvAdapt) {
    predicate Paired() { recv.con == adapt }
  }

  /** `EndpointAdapt`: the shareable handle of a bound local endpoint. */
  class EndpointAdapt {
    const localAddr: TxUrl
    var open: bool
    var cons: set<ConAdapt>

    /** The channels of all connections of this endpoint. */
    ghost function Chans(): set<Chan>
      reads this, cons
    {
      set c, ch | c in cons && ch in c.chans :: ch
    }

    /** Every connection is valid, and a closed endpoint has no open connection. */
    ghost predicate Valid()
      reads this, cons, Chans()
    {
      && (forall c :: c in cons ==> c.Valid())
      && (!open ==> forall c :: c in cons ==> !c.open)
    }

    /** Endpoint, connections and channels are all closed. */
    ghost predicate AllClosed()
      reads this, cons, Chans()
    {
      !open && forall c :: c in cons ==> c.AllClosed()
    }

    constructor (localAddr: TxUrl)
      ensures Valid()
      ensures this.localAddr == localAddr && open && cons == {}
    {
      this.localAddr := localAddr;
      open := true;
      cons := {};
    }

    /** `local_addr()`: fallible; this machine fails once the endpoint is closed. */
    method LocalAddr() returns (r: KitsuneResult<TxUrl>)
      ensures r.Ok? <==> open
      ensures r.Ok? ==> r.value == localAddr
      ensures r.Err? ==> r.error == Closed
    {
      if open {
        r := Ok(localAddr);
      } else {
        r := Err(Closed);
      }
    }

    /** A new open connection to `remote`, owned by this endpoint, with its own channel receiver. */
    method Register(remote: TxUrl) returns (con: Con)
      requires Valid() && open
      modifies this
      ensures Valid() && open
      ensures fresh(con.adapt) && fresh(con.recv) && con.Paired()
      ensures con.adapt.open && con.adapt.remote == remote && con.adapt.chans == {}
      ensures con.recv.incoming == [] && con.recv.issued == multiset{}
      ensures cons == old(cons) + {con.adapt}
    {
      var adapt := new ConAdapt(remote);
      var recv := new InChanRecvAdapt(adapt);
      cons := cons + {adapt};
      con := Con(adapt, recv);
    }

    /**
     * `connect(url, timeout)`: the backend's attempt is raced against the timeout
     * and yields a single result; on success the new connection to `url` belongs
     * to this endpoint.
     */
    method Connect(url: TxUrl, timeout: KitsuneTimeout, now: nat, attempt: Completion<()>)
      returns (r: KitsuneResult<Con>)
      requires Valid()
      modifies this
      ensures Valid() && open == old(open)
      ensures !old(open) ==> r == Err(Closed) && cons == old(cons)
      ensures old(open) && Mix(timeout, now, attempt).Err? ==>
                r == Err(Mix(timeout, now, attempt).error) && cons == old(cons)
      ensures old(open) && Mix(timeout, now, attempt).Ok? ==>
                && r.Ok? && fresh(r.value.adapt) && fresh(r.value.recv) && r.value.Paired()
                && r.value.adapt.open && r.value.adapt.remote == url && r.value.adapt.chans == {}
                && r.value.recv.incoming == [] && r.value.recv.issued == multiset{}
                && cons == old(cons) + {r.value.adapt}
    {
      if !open {
        return Err(Closed);
      }
      match Mix(timeout, now, attempt)
      case Err(e) =>
        r := Err(e);
      case Ok(_) =>
        var con := Register(url);
        r := Ok(con);
    }

    /** `close()`: shuts down this endpoint, all its connections and all their channels. */
    method Close()
      modifies this, cons, Chans()
      ensures AllClosed() && Valid()
      ensures cons == old(cons)
      ensures forall c :: c in cons ==> c.chans == old(c.chans)
    {
      open := false;
      forall c | c in cons {
        c.open := false;
      }
      forall c, ch | c in cons && ch in c.chans {
        ch.open := false;
      }
    }
  }

  /** `ConRecvAdapt`: the exclusively owned receiver of an endpoint's incoming connections. */
  class ConRecvAdapt {
    const endpoint: EndpointAdapt
    /** Incoming connections the backend has discovered and not yet handed out, in order. */
    var incoming: seq<KitsuneResult<PendingCon>>
    /** Second-phase futures handed out by `Next` and not yet awaited. */
    ghost var issued: multiset<PendingCon>

    constructor (endpoint: EndpointAdapt)
      ensures this.endpoint == endpoint && incoming == [] && issued == multiset{}
    {
      this.endpoint := endpoint;
      incoming := [];
      issued := multiset{};
    }

    /** The backend discovers one more incoming connection (or a failed attempt at one). */
    method Deliver(item: KitsuneResult<PendingCon>)
      modifies this
      ensures incoming == old(incoming) + [item] && issued == old(issued)
    {
      incoming := incoming + [item];
    }

    /** Phase one of `next(&mut self)`: as for channels, no end-of-stream answer, and phase one may fail. */
    method Next() returns (r: Poll<KitsuneResult<PendingCon>>)
      modifies this
      ensures !endpoint.open ==> r == Ready(Err(Closed)) && incoming == old(incoming)
      ensures endpoint.open && old(incoming) == [] ==> r == Pending && incoming == []
      ensures endpoint.open && old(incoming) != [] ==>
                r == Ready(old(incoming)[0]) && incoming == old(incoming)[1..]
      ensures r.Ready? && r.value.Ok? ==> issued == old(issued) + multiset{r.value.value}
      ensures !(r.Ready? && r.value.Ok?) ==> issued == old(issued)
    {
      if !endpoint.open {
        r := Ready(Err(Closed));
      } else if incoming == [] {
        r := Pending;
      } else {
        r := Ready(incoming[0]);
        incoming := incoming[1..];
        if r.value.Ok? {
          issued := issued + multiset{r.value.value};
        }
      }
    }

    /**
     * Phase two: awaiting a pending connection that `Next` handed out consumes
     * it; its handshake resolves to a connection owned by the endpoint, or to an
     * error.
     */
    method Complete(p: PendingCon) returns (r: KitsuneResult<Con>)
      requires endpoint.Valid() && p in issued
      modifies this, endpoint
      ensures issued == old(issued) - multiset{p} && incoming == old(incoming)
      ensures endpoint.Valid() && endpoint.open == old(endpoint.open)
      ensures !old(endpoint.open) ==> r == Err(Closed) && endpoint.cons == old(endpoint.cons)
      ensures old(endpoint.open) && p.handshake.Err? ==>
                r == Err(p.handshake.error) && endpoint.cons == old(endpoint.cons)
      ensures old(endpoint.open) && p.handshake.Ok? ==>
                && r.Ok? && fresh(r.value.adapt) && fresh(r.value.recv) && r.value.Paired()
                && r.value.adapt.open && r.value.adapt.remote == p.handshake.value
                && r.value.adapt.chans == {} && r.value.recv.incoming == [] && r.value.recv.issued == multiset{}
                && endpoint.cons == old(endpoint.cons) + {r.value.adapt}
    {
      issued := issued - multiset{p};
      if !endpoint.open {
        return Err(Closed);
      }
      match p.handshake
      case Err(e) =>
        r := Err(e);
      case Ok(remote) =>
        var con := endpoint.Register(remote);
        r := Ok(con);
    }
  }

  /** `Endpoint`: the shareable handle paired with the receiver of incoming connections of the same endpoint. */
  datatype Endpoint = Endpoint(adapt: EndpointAdapt, recv: ConRecvAdapt) {
    predicate Paired() { recv.endpoint == adapt }
  }

  /**
   * `BackendAdapt::bind(url, timeout)`: the backend's attempt, raced against the
   * timeout, yields the bound local address or an error; on success a fresh open
   * endpoint with no connections, paired with its receiver.
   */
  method Bind(url: TxUrl, timeout: KitsuneTimeout, now: nat, attempt: Completion<TxUrl>)
    returns (r: KitsuneResult<Endpoint>)
    ensures Mix(timeout, now, attempt).Err? ==> r == Err(Mix(timeout, now, attempt).error)
    ensures Mix(timeout, now, attempt).Ok? ==>
              && r.Ok? && fresh(r.value.adapt) && fresh(r.value.recv) && r.value.Paired()
              && r.value.adapt.Valid() && r.value.adapt.open && r.value.adapt.cons == {}
              && r.value.adapt.localAddr == Mix(timeout, now, attempt).value
              && r.value.recv.incoming == [] && r.value.recv.issued == multiset{}
  {
    match Mix(timeout, now, attempt)
    case Err(e) =>
      r := Err(e);
    case Ok(addr) =>
      var adapt := new EndpointAdapt(addr);
      var recv := new ConRecvAdapt(adapt);
      r := Ok(Endpoint(adapt, recv));
  }

  /**
   * A client of the contract: bind, connect, open an outgoing channel and receive
   * an incoming one, then close the endpoint. Everything derived from the
   * endpoint is closed afterwards, and every later call on it or on the
   * connection fails with `Closed` rather than waiting.
   */
  method CloseCascadeScenario(timeout: KitsuneTimeout, now: nat, bindAttempt: Completion<TxUrl>,
                              connectAttempt: Completion<()>, chanAttempt: Completion<()>)
    returns (conOpen: bool, outOpen: bool, inOpen: bool, local: KitsuneResult<TxUrl>, remote: KitsuneResult<TxUrl>,
             reconnect: KitsuneResult<Con>, nextCon: Poll<KitsuneResult<PendingCon>>,
             nextChan: Poll<KitsuneResult<PendingChan>>)
    requires Mix(timeout, now, bindAttempt).Ok?
    requires Mix(timeout, now, connectAttempt).Ok? && Mix(timeout, now, chanAttempt).Ok?
    ensures !conOpen && !outOpen && !inOpen
    ensures local == Err(Closed) && remote == Err(Closed) && reconnect == Err(Closed)
    ensures nextCon == Ready(Err(Closed)) && nextChan == Ready(Err(Closed))
  {
    var bound := Bind("bind-spec", timeout, now, bindAttempt);
    var ep := bound.value;
    var connected := ep.adapt.Connect("remote", timeout, now, connectAttempt);
    var con := connected.value;
    var out := con.adapt.OutChan(timeout, now, chanAttempt);
    con.recv.Deliver(Ok(PendingChan(Ok(()))));
    var first := con.recv.Next();
    var inc := con.recv.Complete(first.value.value);
    ep.adapt.Close();
    conOpen, outOpen, inOpen := con.adapt.open, out.value.open, inc.value.open;
    local := ep.adapt.LocalAddr();
    remote := con.adapt.RemoteAddr();
    reconnect := ep.adapt.Connect("remote", timeout, now, connectAttempt);
    nextCon := ep.recv.Next();
    nextChan := con.recv.Next();
  }

  /**
   * A client of the accepting side: an incoming connection goes through both
   * phases of `next()` and belongs to the endpoint, so closing the endpoint
   * closes it too.
   */
  method AcceptThenCloseScenario(timeout: KitsuneTimeout, now: nat, bindAttempt: Completion<TxUrl>, peer: TxUrl)
    returns (acceptedRemote: TxUrl, acceptedOpen: bool)
    requires Mix(timeout, now, bindAttempt).Ok?
    ensures acceptedRemote == peer && !acceptedOpen
  {
    var bound := Bind("bind-spec", timeout, now, bindAttempt);
    var ep := bound.value;
    ep.recv.Deliver(Ok(PendingCon(Ok(peer))));
    var arrival := ep.recv.Next();
    var accepted := ep.recv.Complete(arrival.value.value);
    var con := accepted.value;
    assert con.adapt in ep.adapt.cons;
    ep.adapt.Close();
    acceptedRemote, acceptedOpen := con.adapt.remote, con.adapt.open;
  }
}
