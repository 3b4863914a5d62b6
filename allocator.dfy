/**
 * The port-allocation policy of the tunnel server: the range check, the
 * classification of bind failures, and the bounded random search used when a
 * client asks for any port.  The operating system's bind is an oracle and the
 * random port picks are an input sequence.
 */
module Allocator {
  import opened Types

  /** Number of random ports tried when a client asks for any port. */
  const MaxAttempts: nat := 150

  const OutOfRangeMsg := "client port number not in allowed range"
  const NoPortMsg := "failed to find an available port"
  const AddrInUseMsg := "port already in use"
  const PermissionDeniedMsg := "permission denied"
  const BindFailedMsg := "failed to bind to port"

  /** The inclusive range of ports tunnels may use. */
  datatype PortRange = PortRange(lo: u16, hi: u16) {
    predicate IsEmpty() { hi < lo }
    predicate Contains(p: u16) { lo <= p <= hi }
  }

  /** The kinds of bind failure the server tells apart. */
  datatype BindErrorKind = AddrInUse | PermissionDenied | OtherError

  /** A port the operating system assigns on its own; it is never 0. */
  type AssignedPort = p: u16 | p != 0 witness 1

  /**
   * The operating system's answer to a bind: the ports it refuses, each with
   * the kind of failure, and the port it chooses when asked to bind port 0.
   */
  datatype BindOracle = BindOracle(refused: map<u16, BindErrorKind>, ephemeral: AssignedPort)

  /** A bound listening socket, known by its local port. */
  datatype Listener = Listener(port: u16)

  /** The outcome of an allocation together with every port a bind was tried on, in order. */
  datatype Allocation = Allocation(result: Result<Listener, string>, tried: seq<u16>)

  /** The message a bind failure of the given kind is reported with. */
  function BindErrorMessage(kind: BindErrorKind): (m: string)
    ensures IsBindErrorMessage(m)
  {
    match kind
    case AddrInUse => AddrInUseMsg
    case PermissionDenied => PermissionDeniedMsg
    case OtherError => BindFailedMsg
  }

  predicate IsBindErrorMessage(m: string) {
    m == AddrInUseMsg || m == PermissionDeniedMsg || m == BindFailedMsg
  }

  /** One bind attempt, with its failure mapped to one of three fixed messages. */
  function TryBind(oracle: BindOracle, port: u16): (r: Result<Listener, string>)
    ensures r.Ok? <==> port !in oracle.refused
    ensures r.Ok? ==> r.value.port != 0 && (port != 0 ==> r.value.port == port)
    ensures r.Err? ==> IsBindErrorMessage(r.error)
  {
    if port in oracle.refused then Err(BindErrorMessage(oracle.refused[port]))
    else Ok(Listener(if port == 0 then oracle.ephemeral else port))
  }

  /** Binds the picks in turn and stops at the first success. */
  function BindFirst(oracle: BindOracle, picks: seq<u16>): (a: Allocation)
    ensures |a.tried| <= |picks| && a.tried == picks[..|a.tried|]
    ensures a.result.Ok? ==> a.tried != [] && a.result == TryBind(oracle, a.tried[|a.tried| - 1])
    ensures a.result.Err? ==> a.result == Err(NoPortMsg) && a.tried == picks
    decreases |picks|
  {
    if picks == [] then Allocation(Err(NoPortMsg), [])
    else
      var first := TryBind(oracle, picks[0]);
      if first.Ok? then Allocation(first, [picks[0]])
      else
        var rest := BindFirst(oracle, picks[1..]);
        Allocation(rest.result, [picks[0]] + rest.tried)
  }

  /** The random picks of one any-port allocation: 150 ports, all in the range. */
  predicate RandomPicks(range: PortRange, picks: seq<u16>) {
    |picks| == MaxAttempts && forall i :: 0 <= i < |picks| ==> range.Contains(picks[i])
  }

  /** What the server's listener creation does for a requested port (0 asks for any port). */
  function Allocate(range: PortRange, oracle: BindOracle, picks: seq<u16>, port: u16): (a: Allocation)
    requires |picks| == MaxAttempts
    ensures |a.tried| <= MaxAttempts
    ensures a.result.Ok? ==> a.result.value.port != 0
    ensures a.result.Err? ==>
              a.result.error == OutOfRangeMsg || a.result.error == NoPortMsg || IsBindErrorMessage(a.result.error)
  {
    if port > 0 then
      if !range.Contains(port) then Allocation(Err(OutOfRangeMsg), [])
      else Allocation(TryBind(oracle, port), [port])
    else BindFirst(oracle, picks)
  }

  /** Random picks can only be drawn from a non-empty range. */
  lemma RandomPicksNeedNonEmptyRange(range: PortRange, picks: seq<u16>)
    requires RandomPicks(range, picks)
    ensures !range.IsEmpty()
  {
    assert range.Contains(picks[0]);
  }

  /** A non-empty range can always supply the random picks, for instance 150 times its lowest port. */
  lemma RandomPicksDrawable(range: PortRange)
    requires !range.IsEmpty()
    ensures RandomPicks(range, seq(MaxAttempts, _ => range.lo))
  {
  }

  /** The three bind failures and the two policy failures are told apart by their messages. */
  lemma ErrorMessagesDistinct(k1: BindErrorKind, k2: BindErrorKind)
    ensures BindErrorMessage(k1) == BindErrorMessage(k2) <==> k1 == k2
    ensures BindErrorMessage(k1) != OutOfRangeMsg && BindErrorMessage(k1) != NoPortMsg
    ensures IsBindErrorMessage(BindErrorMessage(k1))
  {
  }

  /**
   * The search succeeds exactly when some pick is bindable; it then tried the
   * picks up to the first bindable one and returns that bind; otherwise it
   * tried them all and reports that no port was found.
   */
  lemma BindFirstSucceedsOnFirstFree(oracle: BindOracle, picks: seq<u16>)
    ensures var a := BindFirst(oracle, picks);
      && (a.result.Ok? <==> exists i :: 0 <= i < |picks| && TryBind(oracle, picks[i]).Ok?)
      && (a.result.Err? ==> a.result.error == NoPortMsg && a.tried == picks)
      && (a.result.Ok? ==>
            && 1 <= |a.tried| <= |picks|
            && a.tried == picks[..|a.tried|]
            && a.result == TryBind(oracle, picks[|a.tried| - 1])
            && forall j :: 0 <= j < |a.tried| - 1 ==> TryBind(oracle, picks[j]).Err?)
  {
    if exists i :: 0 <= i < |picks| && picks[i] !in oracle.refused {
      var i := FirstBindable(oracle, picks);
      BindFirstStopsAt(oracle, picks, i);
    } else {
      BindFirstExhausted(oracle, picks);
    }
  }

  /** The index of the first pick the system does not refuse. */
  lemma FirstBindable(oracle: BindOracle, picks: seq<u16>) returns (i: nat)
    requires exists k :: 0 <= k < |picks| && picks[k] !in oracle.refused
    ensures i < |picks| && picks[i] !in oracle.refused
    ensures forall j :: 0 <= j < i ==> picks[j] in oracle.refused
  {
    i := 0;
    while picks[i] in oracle.refused
      invariant i < |picks|
      invariant forall j :: 0 <= j < i ==> picks[j] in oracle.refused
      invariant exists k :: i <= k < |picks| && picks[k] !in oracle.refused
      decreases |picks| - i
    {
      i := i + 1;
    }
  }

  /** When the picks before index i are refused and pick i is not, the search stops at pick i. */
  lemma {:induction false} BindFirstStopsAt(oracle: BindOracle, picks: seq<u16>, i: nat)
    requires i < |picks|
    requires forall j :: 0 <= j < i ==> picks[j] in oracle.refused
    requires picks[i] !in oracle.refused
    ensures BindFirst(oracle, picks) == Allocation(TryBind(oracle, picks[i]), picks[..i + 1])
    decreases i
  {
    if i > 0 {
      forall j | 0 <= j < i - 1
        ensures picks[1..][j] in oracle.refused
      {
        assert picks[1..][j] == picks[j + 1];
      }
      BindFirstStopsAt(oracle, picks[1..], i - 1);
      assert [picks[0]] + picks[1..][..i] == picks[..i + 1];
    }
  }

  /** When every pick is refused, the search tries them all and finds no port. */
  lemma {:induction false} BindFirstExhausted(oracle: BindOracle, picks: seq<u16>)
    requires forall j :: 0 <= j < |picks| ==> picks[j] in oracle.refused
    ensures BindFirst(oracle, picks) == Allocation(Err(NoPortMsg), picks)
    decreases |picks|
  {
    if picks != [] {
      forall j | 0 <= j < |picks| - 1
        ensures picks[1..][j] in oracle.refused
      {
        assert picks[1..][j] == picks[j + 1];
      }
      BindFirstExhausted(oracle, picks[1..]);
      assert [picks[0]] + picks[1..] == picks;
    }
  }

  /** A nonzero port outside the range is refused without any bind. */
  lemma OutOfRangeRejected(range: PortRange, oracle: BindOracle, picks: seq<u16>, port: u16)
    requires |picks| == MaxAttempts
    requires port > 0 && !range.Contains(port)
    ensures Allocate(range, oracle, picks, port) == Allocation(Err(OutOfRangeMsg), [])
  {
  }

  /**
   * A nonzero port inside the range is bound exactly once, on that port, and
   * the result is that listener or one of the three bind failures.
   */
  lemma SpecificPortBoundOnce(range: PortRange, oracle: BindOracle, picks: seq<u16>, port: u16)
    requires |picks| == MaxAttempts
    requires port > 0 && range.Contains(port)
    ensures var a := Allocate(range, oracle, picks, port);
      && a.tried == [port]
      && (port !in oracle.refused ==> a.result == Ok(Listener(port)))
      && (port in oracle.refused ==>
            a.result == Err(BindErrorMessage(oracle.refused[port])) && IsBindErrorMessage(a.result.error))
  {
  }

  /**
   * Any-port allocation binds at most 150 times, only on ports of the range,
   * and reports failure only after all 150 picks were refused.
   */
  lemma {:induction false} AnyPortAttemptsBounded(range: PortRange, oracle: BindOracle, picks: seq<u16>)
    requires RandomPicks(range, picks)
    ensures var a := Allocate(range, oracle, picks, 0);
      && 1 <= |a.tried| <= MaxAttempts
      && (forall i :: 0 <= i < |a.tried| ==> range.Contains(a.tried[i]))
      && (a.result.Err? <==> forall i :: 0 <= i < MaxAttempts ==> picks[i] in oracle.refused)
      && (a.result.Err? ==> a.result == Err(NoPortMsg) && |a.tried| == MaxAttempts)
  {
    BindFirstSucceedsOnFirstFree(oracle, picks);
    var a := BindFirst(oracle, picks);
    forall i | 0 <= i < |a.tried|
      ensures range.Contains(a.tried[i])
    {
      assert a.tried[i] == picks[i];
    }
    if a.result.Ok? {
      assert picks[|a.tried| - 1] !in oracle.refused;
    }
  }

  /** When every port of the range is refused, asking for any port always fails. */
  lemma {:induction false} FullRangeAlwaysFails(range: PortRange, oracle: BindOracle, picks: seq<u16>)
    requires RandomPicks(range, picks)
    requires forall p: u16 :: range.Contains(p) ==> p in oracle.refused
    ensures Allocate(range, oracle, picks, 0) == Allocation(Err(NoPortMsg), picks)
  {
    forall i | 0 <= i < |picks|
      ensures TryBind(oracle, picks[i]).Err?
    {
      assert range.Contains(picks[i]);
    }
    BindFirstSucceedsOnFirstFree(oracle, picks);
  }

  /**
   * A successful allocation comes from the last bind tried; its port is the
   * requested one, a pick of the range, or the system's choice when a pick was 0.
   */
  lemma {:induction false} AllocatedPortOrigin(range: PortRange, oracle: BindOracle, picks: seq<u16>, port: u16)
    requires RandomPicks(range, picks)
    requires Allocate(range, oracle, picks, port).result.Ok?
    ensures var a := Allocate(range, oracle, picks, port);
      && |a.tried| > 0
      && a.result == TryBind(oracle, a.tried[|a.tried| - 1])
      && a.tried[|a.tried| - 1] !in oracle.refused
      && a.result.value.port != 0
      && (range.Contains(a.result.value.port) || (port == 0 && range.Contains(0) && a.result.value.port == oracle.ephemeral))
      && (port > 0 ==> a.result.value.port == port)
  {
    if port == 0 {
      BindFirstSucceedsOnFirstFree(oracle, picks);
    }
  }

  /** With a range that excludes port 0, every allocated port lies in the range. */
  lemma AllocatedPortInRange(range: PortRange, oracle: BindOracle, picks: seq<u16>, port: u16)
    requires RandomPicks(range, picks)
    requires range.lo > 0
    requires Allocate(range, oracle, picks, port).result.Ok?
    ensures range.Contains(Allocate(range, oracle, picks, port).result.value.port)
  {
    AllocatedPortOrigin(range, oracle, picks, port);
  }

  /**
   * With a range that includes 0, a pick of 0 is bound as "any port" and the
   * system's choice, possibly outside the range, is assigned.
   */
  lemma ZeroPickEscapesRange()
    ensures var range := PortRange(0, 0);
      var oracle := BindOracle(map[], 40000);
      var a := Allocate(range, oracle, seq(MaxAttempts, _ => 0), 0);
      && RandomPicks(range, seq(MaxAttempts, _ => 0))
      && a.result == Ok(Listener(40000))
      && !range.Contains(a.result.value.port)
  {
  }
}
