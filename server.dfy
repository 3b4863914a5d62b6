/**
 * The tunnel broker: the server's two shared maps (pending visitor
 * connections, and listener owners keyed by port and client address), the
 * listener creation loop, the dispatch on a control connection's first
 * message, and the steps of a listener task.  Network effects are inputs:
 * the bind oracle, the random picks, whether the peer still accepts writes,
 * the handshake's verdict and the first message read.
 */
module Broker {
  import opened Types
  import opened Protocol
  import opened Allocator
  import Registry

  /** A spawned listener task: the port it serves and the control peer's address, if known. */
  datatype Task = Task(port: u16, peer: Option<SocketAddr>)

  /** How a control connection handler returns: `Ok(())` or an error. */
  datatype Exit = Closed | Failed

  type OwnerKey = (u16, SocketAddr)

  /** The owner table once the entry under (port, peer address) is evicted; unchanged when the address is unknown. */
  function Evicted(owners: map<OwnerKey, Handle>, port: u16, remote: Option<SocketAddr>): (m: map<OwnerKey, Handle>)
  {
    if remote.Some? then owners - {(port, remote.value)} else owners
  }

  /** The handle evicted under (port, peer address), if there is one. */
  function EvictedHandles(owners: map<OwnerKey, Handle>, port: u16, remote: Option<SocketAddr>): (hs: set<Handle>)
  {
    if remote.Some? && (port, remote.value) in owners then {owners[(port, remote.value)]} else {}
  }

  class Server {
    /** Ports that tunnels may use. */
    const portRange: PortRange
    /** Whether a secret is configured, so that every connection must pass the handshake. */
    const authRequired: bool

    /** Pending visitor connections by id. */
    var conns: map<Uuid, Sock>
    /** The listener task owning each (port, client address). */
    var portOwners: map<OwnerKey, Handle>
    /** Listener tasks that were aborted. */
    var aborted: set<Handle>
    /** Every listener task spawned so far. */
    var tasks: map<Handle, Task>
    /** Listener tasks whose loop ended on its own. */
    var finished: set<Handle>
    /** Ids whose expiry timer has not fired yet. */
    var timers: set<Uuid>
    /** The handle the next spawned task gets. */
    var nextHandle: Handle

    ghost predicate Valid()
      reads this
    {
      && !portRange.IsEmpty()
      && (forall h :: h in tasks ==> h < nextHandle)
      && aborted <= tasks.Keys
      && finished <= tasks.Keys
      && (forall k :: k in portOwners ==> OwnerConsistent(k))
      && conns.Keys <= timers
    }

    /**
     * An owner entry names a spawned, never aborted task that serves that
     * very port for that very address; no entry is ever under port 0.
     */
    ghost predicate OwnerConsistent(k: OwnerKey)
      reads this
      requires k in portOwners
    {
      && k.0 != 0
      && portOwners[k] in tasks
      && tasks[portOwners[k]] == Task(k.0, Some(k.1))
      && portOwners[k] !in aborted
    }

    /** A task is live when it was spawned and has neither been aborted nor ended. */
    predicate Live(h: Handle)
      reads this
    {
      h in tasks && h !in aborted && h !in finished
    }

    /** No two live listener tasks serve the same port. */
    ghost predicate LivePortsDistinct()
      reads this
    {
      forall h1, h2 :: Live(h1) && Live(h2) && tasks[h1].port == tasks[h2].port ==> h1 == h2
    }

    /**
     * The operating system refuses to bind a port a live listener holds, and
     * never hands such a port out as its own choice, except for the listeners
     * in `released`, which are being aborted and whose ports count as free.
     */
    ghost predicate OsAgrees(oracle: BindOracle, released: set<Handle>)
      reads this
    {
      forall h :: Live(h) && h !in released ==> tasks[h].port in oracle.refused && tasks[h].port != oracle.ephemeral
    }

    /** Whether a control connection gets past authentication. */
    predicate Admitted(handshake: Result<(), string>) {
      !authRequired || handshake.Ok?
    }

    /** The effect of `Hello(port)` from `remote`, as HandleHello promises it. */
    twostate predicate HelloDone(port: u16, remote: Option<SocketAddr>, oracle: BindOracle, picks: seq<u16>,
                                 peerOpen: bool, new sent: seq<ServerMessage>, new exit: Exit)
      reads this
      requires |picks| == MaxAttempts
    {
      var a := Allocate(portRange, oracle, picks, port);
      var owners := Evicted(old(portOwners), port, remote);
      && conns == old(conns) && timers == old(timers) && finished == old(finished)
      && aborted == old(aborted) + EvictedHandles(old(portOwners), port, remote)
      && (a.result.Err? ==>
            && sent == (if peerOpen then [Error(a.result.error)] else [])
            && exit == (if peerOpen then Closed else Failed)
            && portOwners == owners && tasks == old(tasks) && nextHandle == old(nextHandle))
      && (a.result.Ok? && !peerOpen ==>
            && sent == [] && exit == Failed
            && portOwners == owners && tasks == old(tasks) && nextHandle == old(nextHandle))
      && (a.result.Ok? && peerOpen ==>
            && sent == [ServerMessage.Hello(a.result.value.port)] && exit == Closed
            && tasks == old(tasks)[old(nextHandle) := Task(a.result.value.port, remote)]
            && nextHandle == old(nextHandle) + 1
            && portOwners == (if remote.Some? then owners[(a.result.value.port, remote.value) := old(nextHandle)] else owners))
    }

    /** The effect of `Accept(id)`, as HandleAccept promises it. */
    twostate predicate AcceptDone(id: Uuid, new claimed: Option<Sock>)
      reads this
    {
      && Registry.Step(old(conns), Registry.Claim(id)) == Registry.Outcome(claimed, conns)
      && portOwners == old(portOwners) && aborted == old(aborted) && tasks == old(tasks)
      && finished == old(finished) && timers == old(timers) && nextHandle == old(nextHandle)
    }

    /**
     * What a `Hello` leaves alone: with an unknown peer address the owner
     * table and the aborted set; for `Hello(0)` the aborted set, since no
     * owner is ever recorded under port 0; and every owner entry under
     * another address, or under a port that is neither requested nor assigned.
     */
    twostate lemma HelloLeavesOthers(port: u16, remote: Option<SocketAddr>, oracle: BindOracle, picks: seq<u16>,
                                     peerOpen: bool, new sent: seq<ServerMessage>, new exit: Exit)
      requires |picks| == MaxAttempts
      requires old(Valid())
      requires HelloDone(port, remote, oracle, picks, peerOpen, sent, exit)
      ensures remote.None? ==> portOwners == old(portOwners) && aborted == old(aborted)
      ensures port == 0 ==> aborted == old(aborted)
      ensures forall k :: k in old(portOwners) && (remote.None? || k.1 != remote.value) ==>
                k in portOwners && portOwners[k] == old(portOwners)[k]
      ensures var a := Allocate(portRange, oracle, picks, port);
              forall k :: k in old(portOwners) && k.0 != port && (a.result.Ok? ==> k.0 != a.result.value.port) ==>
                k in portOwners && portOwners[k] == old(portOwners)[k]
    {
    }

    /** `Server::new`: the range must hold at least one port. */
    constructor (portRange: PortRange, authRequired: bool)
      requires !portRange.IsEmpty()
      ensures Valid()
      ensures this.portRange == portRange && this.authRequired == authRequired
      ensures conns == map[] && portOwners == map[] && aborted == {} && tasks == map[]
      ensures finished == {} && timers == {}
    {
      this.portRange := portRange;
      this.authRequired := authRequired;
      conns := map[];
      portOwners := map[];
      aborted := {};
      tasks := map[];
      finished := {};
      timers := {};
      nextHandle := 0;
    }

    /**
     * Creates the listener for a requested port: a nonzero port must be in
     * range and is bound once; port 0 binds up to 150 random picks and keeps
     * the first success.  `tried` lists the ports a bind was attempted on.
     */
    method CreateListener(port: u16, oracle: BindOracle, picks: seq<u16>)
      returns (r: Result<Listener, string>, tried: seq<u16>)
      requires RandomPicks(portRange, picks)
      ensures Allocation(r, tried) == Allocate(portRange, oracle, picks, port)
      ensures |tried| <= MaxAttempts
      ensures forall i :: 0 <= i < |tried| ==> portRange.Contains(tried[i])
      ensures port > 0 && !portRange.Contains(port) ==> r == Err(OutOfRangeMsg) && tried == []
      ensures port > 0 && portRange.Contains(port) ==> r == TryBind(oracle, port) && tried == [port]
      ensures port == 0 ==> 1 <= |tried| && tried == picks[..|tried|]
      ensures port == 0 && r.Ok? ==> r == TryBind(oracle, tried[|tried| - 1])
      ensures port == 0 ==> forall j :: 0 <= j < |tried| - 1 ==> picks[j] in oracle.refused
      ensures port == 0 && r.Err? ==> r == Err(NoPortMsg) && tried == picks
    {
      if port > 0 {
        if !portRange.Contains(port) {
          return Err(OutOfRangeMsg), [];
        }
        return TryBind(oracle, port), [port];
      }
      tried := [];
      for i := 0 to MaxAttempts
        invariant tried == picks[..i]
        invariant forall j :: 0 <= j < i ==> picks[j] in oracle.refused
      {
        var p := picks[i];
        tried := tried + [p];
        var attempt := TryBind(oracle, p);
        if attempt.Ok? {
          BindFirstStopsAt(oracle, picks, i);
          return attempt, tried;
        }
      }
      assert tried == picks;
      BindFirstExhausted(oracle, picks);
      r := Err(NoPortMsg);
    }

    /**
     * `Hello(port)`: evicts and aborts the owner under (port, peer address),
     * allocates, replies, and when the reply went out spawns the listener
     * task and records it as the owner under (assigned port, peer address).
     */
    method HandleHello(port: u16, remote: Option<SocketAddr>, oracle: BindOracle, picks: seq<u16>, peerOpen: bool)
      returns (sent: seq<ServerMessage>, exit: Exit)
      requires Valid()
      requires RandomPicks(portRange, picks)
      modifies this
      ensures Valid()
      ensures HelloDone(port, remote, oracle, picks, peerOpen, sent, exit)
      ensures old(LivePortsDistinct()) && old(OsAgrees(oracle, EvictedHandles(portOwners, port, remote))) ==>
                LivePortsDistinct()
    {
      ghost var agreed := OsAgrees(oracle, EvictedHandles(portOwners, port, remote));
      EvictOwner(port, remote);
      var r, tried := CreateListener(port, oracle, picks);
      if r.Err? {
        if peerOpen {
          sent, exit := [Error(r.error)], Closed;
        } else {
          sent, exit := [], Failed;
        }
        return;
      }
      var boundPort := r.value.port;
      if !peerOpen {
        return [], Failed;
      }
      sent := [ServerMessage.Hello(boundPort)];
      assert agreed ==> PortUnheld(boundPort) by {
        assert agreed ==> OsAgrees(oracle, {});
        AllocatedPortOrigin(portRange, oracle, picks, port);
      }
      var _ := SpawnListener(boundPort, remote);
      exit := Closed;
    }

    /** No live listener task serves port p. */
    ghost predicate PortUnheld(p: u16)
      reads this
    {
      forall h :: Live(h) ==> tasks[h].port != p
    }

    /** Removes the owner under (port, peer address), if any, and aborts its task. */
    method EvictOwner(port: u16, remote: Option<SocketAddr>)
      requires Valid()
      modifies this`portOwners, this`aborted
      ensures Valid()
      ensures portOwners == Evicted(old(portOwners), port, remote)
      ensures aborted == old(aborted) + EvictedHandles(old(portOwners), port, remote)
      ensures forall h :: Live(h) ==> old(Live(h)) && h !in EvictedHandles(old(portOwners), port, remote)
      ensures old(LivePortsDistinct()) ==> LivePortsDistinct()
    {
      if remote.Some? && (port, remote.value) in portOwners {
        var oldHandle := portOwners[(port, remote.value)];
        portOwners := portOwners - {(port, remote.value)};
        aborted := aborted + {oldHandle};
      }
    }

    /**
     * Spawns the listener task for a bound port and, when the peer address is
     * known, records it as the owner under (port, address).
     */
    method SpawnListener(boundPort: u16, remote: Option<SocketAddr>) returns (handle: Handle)
      requires Valid()
      requires boundPort != 0
      modifies this`tasks, this`nextHandle, this`portOwners
      ensures Valid()
      ensures handle == old(nextHandle) && nextHandle == old(nextHandle) + 1
      ensures tasks == old(tasks)[handle := Task(boundPort, remote)]
      ensures portOwners == if remote.Some? then old(portOwners)[(boundPort, remote.value) := handle] else old(portOwners)
      ensures Live(handle)
      ensures old(LivePortsDistinct()) && old(PortUnheld(boundPort)) ==> LivePortsDistinct()
    {
      handle := nextHandle;
      tasks := tasks[handle := Task(boundPort, remote)];
      nextHandle := nextHandle + 1;
      if remote.Some? {
        portOwners := portOwners[(boundPort, remote.value) := handle];
      }
    }

    /** `Accept(id)`: claims the pending connection, or does nothing when it is gone. */
    method HandleAccept(id: Uuid) returns (claimed: Option<Sock>)
      requires Valid()
      modifies this`conns
      ensures Valid()
      ensures AcceptDone(id, claimed)
      ensures conns == old(conns) - {id}
      ensures claimed == (if id in old(conns) then Some(old(conns)[id]) else None)
    {
      if id in conns {
        claimed := Some(conns[id]);
        conns := conns - {id};
      } else {
        claimed := None;
      }
    }

    /**
     * A control connection: the optional handshake, then one message decides
     * what happens.  `peerOpen` says whether writes to the peer succeed.
     */
    method HandleConnection(remote: Option<SocketAddr>, handshake: Result<(), string>, first: Received,
                            oracle: BindOracle, picks: seq<u16>, peerOpen: bool)
      returns (sent: seq<ServerMessage>, exit: Exit, claimed: Option<Sock>)
      requires Valid()
      requires RandomPicks(portRange, picks)
      modifies this
      ensures Valid()
      ensures !Admitted(handshake) ==>
                && sent == (if peerOpen then [Error(handshake.error)] else [])
                && exit == (if peerOpen then Closed else Failed)
                && claimed == None && unchanged(this)
      ensures Admitted(handshake) && first.RecvFailed? ==> sent == [] && exit == Failed && claimed == None && unchanged(this)
      ensures Admitted(handshake) && first.Ended? ==> sent == [] && exit == Closed && claimed == None && unchanged(this)
      ensures Admitted(handshake) && first.Message? && first.msg.Authenticate? ==>
                sent == [] && exit == Closed && claimed == None && unchanged(this)
      ensures Admitted(handshake) && first.Message? && first.msg.Hello? ==>
                claimed == None && HelloDone(first.msg.requestedPort, remote, oracle, picks, peerOpen, sent, exit)
      ensures Admitted(handshake) && first.Message? && first.msg.Accept? ==>
                sent == [] && exit == Closed && AcceptDone(first.msg.id, claimed)
      ensures old(LivePortsDistinct()) ==>
                (first.Message? && first.msg.Hello? ==>
                   old(OsAgrees(oracle, EvictedHandles(portOwners, first.msg.requestedPort, remote)))) ==>
                LivePortsDistinct()
    {
      claimed := None;
      if authRequired && handshake.Err? {
        if peerOpen {
          sent, exit := [Error(handshake.error)], Closed;
        } else {
          sent, exit := [], Failed;
        }
        return;
      }
      match first {
        case RecvFailed =>
          sent, exit := [], Failed;
        case Ended =>
          sent, exit := [], Closed;
        case Message(Authenticate(_)) =>
          sent, exit := [], Closed;
        case Message(Hello(port)) =>
          sent, exit := HandleHello(port, remote, oracle, picks, peerOpen);
        case Message(Accept(id)) =>
          claimed := HandleAccept(id);
          sent, exit := [], Closed;
      }
    }

    /**
     * A live listener task accepted a visitor: it is registered under a fresh
     * id, its expiry timer is scheduled, and its id is announced to the client.
     */
    method VisitorArrived(h: Handle, id: Uuid, sock: Sock) returns (notice: ServerMessage)
      requires Valid()
      requires Live(h)
      requires id !in timers
      modifies this`conns, this`timers
      ensures Valid()
      ensures Registry.Step(old(conns), Registry.Insert(id, sock)).conns == conns
      ensures conns == old(conns)[id := sock] && id !in old(conns)
      ensures timers == old(timers) + {id}
      ensures notice == Connection(id)
    {
      conns := conns[id := sock];
      timers := timers + {id};
      notice := Connection(id);
    }

    /** The expiry timer of `id` fired: the entry is dropped if it is still pending. */
    method Expire(id: Uuid) returns (dropped: Option<Sock>)
      requires Valid()
      requires id in timers
      modifies this`conns, this`timers
      ensures Valid()
      ensures Registry.Step(old(conns), Registry.Expire(id)) == Registry.Outcome(dropped, conns)
      ensures conns == old(conns) - {id}
      ensures dropped == (if id in old(conns) then Some(old(conns)[id]) else None)
      ensures timers == old(timers) - {id}
    {
      if id in conns {
        dropped := Some(conns[id]);
        conns := conns - {id};
      } else {
        dropped := None;
      }
      timers := timers - {id};
    }

    /**
     * A live listener task sends its heartbeat; when the write fails the
     * task's loop ends, and its owner entry, if any, stays behind.
     */
    method Heartbeat(h: Handle, delivered: bool) returns (sent: seq<ServerMessage>)
      requires Valid()
      requires Live(h)
      modifies this`finished
      ensures Valid()
      ensures sent == (if delivered then [ServerMessage.Heartbeat] else [])
      ensures finished == (if delivered then old(finished) else old(finished) + {h})
      ensures delivered <==> Live(h)
    {
      if delivered {
        sent := [ServerMessage.Heartbeat];
      } else {
        sent := [];
        finished := finished + {h};
      }
    }

    /** A live listener task's accept failed; the task ends (the source unwraps the error). */
    method AcceptFailed(h: Handle)
      requires Valid()
      requires Live(h)
      modifies this`finished
      ensures Valid()
      ensures finished == old(finished) + {h}
      ensures !Live(h)
    {
      finished := finished + {h};
    }
  }
}
