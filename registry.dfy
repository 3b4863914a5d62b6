/**
 * The pending-connection registry as a value: a map from connection id to an
 * accepted visitor stream.  A visitor accept inserts, a client claim and an
 * expiry timer both remove, and removal is exclusive.
 */
module Registry {
  import opened Types

  type Conns = map<Uuid, Sock>

  /** The three things that happen to the registry. */
  datatype Event =
    | Insert(id: Uuid, sock: Sock)  // a visitor was accepted under a new id
    | Claim(id: Uuid)               // a client sent Accept(id)
    | Expire(id: Uuid)              // the id's timer fired

  /** The registry after an event, and the stream the event removed, if any. */
  datatype Outcome = Outcome(taken: Option<Sock>, conns: Conns)

  /** One event: an insert adds or replaces the entry, a claim or an expiry removes it if present. */
  function Step(m: Conns, e: Event): (o: Outcome)
    ensures e.Insert? ==> o.taken == None && o.conns.Keys == m.Keys + {e.id} && o.conns[e.id] == e.sock
    ensures !e.Insert? ==> o.conns.Keys == m.Keys - {e.id}
    ensures !e.Insert? ==> (o.taken.Some? <==> e.id in m) && (e.id in m ==> o.taken == Some(m[e.id]))
    ensures forall k :: k in m && k != e.id ==> k in o.conns && o.conns[k] == m[k]
  {
    match e
    case Insert(id, sock) => Outcome(None, m[id := sock])
    case Claim(id) => Outcome(if id in m then Some(m[id]) else None, m - {id})
    case Expire(id) => Outcome(if id in m then Some(m[id]) else None, m - {id})
  }

  /** The registry after a sequence of events, and the ids of the entries they removed, in order. */
  function Run(m: Conns, es: seq<Event>): (r: (Conns, seq<Uuid>))
    ensures |r.1| <= |es|
    ensures forall i :: 0 <= i < |r.1| ==> r.1[i] in m || Inserts(es, r.1[i]) > 0
    decreases |es|
  {
    if es == [] then (m, [])
    else
      var o := Step(m, es[0]);
      var rest := Run(o.conns, es[1..]);
      (rest.0, (if o.taken.Some? then [es[0].id] else []) + rest.1)
  }

  function Occurrences(ids: seq<Uuid>, id: Uuid): (n: nat)
    decreases |ids|
  {
    if ids == [] then 0 else (if ids[0] == id then 1 else 0) + Occurrences(ids[1..], id)
  }

  function Inserts(es: seq<Event>, id: Uuid): (n: nat)
    decreases |es|
  {
    if es == [] then 0 else (if es[0].Insert? && es[0].id == id then 1 else 0) + Inserts(es[1..], id)
  }

  /**
   * An entry is handed out at most once per time it was put in: the removals
   * of an id plus its presence at the end never exceed its inserts plus its
   * presence at the start, whatever the interleaving of claims and expiries.
   */
  lemma {:induction false} RemovalsBoundedByInserts(m: Conns, es: seq<Event>, id: Uuid)
    ensures var r := Run(m, es);
      Occurrences(r.1, id) + (if id in r.0 then 1 else 0) <= Inserts(es, id) + (if id in m then 1 else 0)
    decreases |es|
  {
    if es != [] {
      var o := Step(m, es[0]);
      RemovalsBoundedByInserts(o.conns, es[1..], id);
      var rest := Run(o.conns, es[1..]);
      var removed := (if o.taken.Some? then [es[0].id] else []) + rest.1;
      if o.taken.Some? {
        assert removed[0] == es[0].id && removed[1..] == rest.1;
      } else {
        assert removed == rest.1;
      }
    }
  }

  /** An id inserted once into a registry that did not hold it is removed at most once. */
  lemma FreshIdRemovedAtMostOnce(m: Conns, es: seq<Event>, id: Uuid)
    requires id !in m
    requires Inserts(es, id) <= 1
    ensures Occurrences(Run(m, es).1, id) <= 1
  {
    RemovalsBoundedByInserts(m, es, id);
  }

  /**
   * A claim and an expiry of the same id, in either order: exactly one of the
   * two gets the stream when it was pending, neither when it was not, and the
   * entry is gone afterwards.
   */
  lemma ClaimAndExpiryExclusive(m: Conns, id: Uuid)
    ensures var c1 := Step(m, Claim(id)); var e2 := Step(c1.conns, Expire(id));
      && (id in m ==> c1.taken == Some(m[id]) && e2.taken == None)
      && (id !in m ==> c1.taken == None && e2.taken == None)
      && id !in e2.conns && e2.conns == c1.conns
    ensures var e1 := Step(m, Expire(id)); var c2 := Step(e1.conns, Claim(id));
      && (id in m ==> e1.taken == Some(m[id]) && c2.taken == None)
      && (id !in m ==> e1.taken == None && c2.taken == None)
      && id !in c2.conns && c2.conns == e1.conns
  {
  }
}
