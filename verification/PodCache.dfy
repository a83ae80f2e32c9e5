/**
 The MCP server's session cache. The cache drops entries lazily; the reference is a
 plain log of what was set, deleted and invalidated, from which nothing is ever dropped.
 */
module PodCache {
  import opened Prelude

  datatype Pod = Pod(ip: string, name: string)

  datatype Entry = Entry(pod: Pod, expiresAt: int)

  /** One call, with the clock reading it took. */
  datatype Op =
    | Set(id: string, pod: Pod, now: int)
    | Delete(id: string)
    | Invalidate(id: string, ip: string)
    | Get(id: string, now: int)
    | EvictExpired(now: int)

  const DEFAULT_TTL := 30 * SECOND

  // ----- The reference: a log, read backwards -----

  /** The entry the log last bound `id` to; only writes count. */
  function Bound(log: seq<Op>, ttl: int, id: string): Option<Entry> {
    if log == [] then None else
    var last, rest := log[|log| - 1], log[..|log| - 1];
    match last
    case Set(i, pod, now) => if i == id then Some(Entry(pod, now + ttl)) else Bound(rest, ttl, id)
    case Delete(i) => if i == id then None else Bound(rest, ttl, id)
    case Invalidate(i, ip) =>
      var b := Bound(rest, ttl, id);
      if i == id && b.Some? && b.value.pod.ip == ip then None else b
    case Get(_, _) => Bound(rest, ttl, id)
    case EvictExpired(_) => Bound(rest, ttl, id)
  }

  /** What a lookup at `now` should answer: the bound pod, unless its time is over. */
  function Answer(log: seq<Op>, ttl: int, id: string, now: int): Option<Pod> {
    var b := Bound(log, ttl, id);
    if b.Some? && now <= b.value.expiresAt then Some(b.value.pod) else None
  }

  /** Clock readings never go back, and none is after `now`. */
  ghost predicate Timely(log: seq<Op>, now: int) {
    log != [] ==>
      var last, rest := log[|log| - 1], log[..|log| - 1];
      match last
      case Set(_, _, t) => t <= now && Timely(rest, t)
      case Get(_, t) => t <= now && Timely(rest, t)
      case EvictExpired(t) => t <= now && Timely(rest, t)
      case Delete(_) => Timely(rest, now)
      case Invalidate(_, _) => Timely(rest, now)
  }

  lemma {:induction false} TimelyLater(log: seq<Op>, now: int, later: int)
    requires Timely(log, now) && now <= later
    ensures Timely(log, later)
  {
    if log != [] && (log[|log| - 1].Delete? || log[|log| - 1].Invalidate?) {
      TimelyLater(log[..|log| - 1], now, later);
    }
  }

  /**
   The cache map agrees with the log from `now` on: what it holds is what the log binds,
   and a binding it no longer holds has already expired.
   */
  ghost predicate Agrees(entries: map<string, Entry>, log: seq<Op>, ttl: int, now: int) {
    forall id :: match Bound(log, ttl, id)
                 case Some(e) => (id in entries && entries[id] == e) || (id !in entries && e.expiresAt < now)
                 case None => id !in entries
  }

  // ----- The cache -----

  class Cache {
    var entries: map<string, Entry>
    var ttl: int
    ghost var log: seq<Op>
    ghost var clock: int

    ghost predicate Valid()
      reads this
    {
      0 < ttl && Timely(log, clock) && Agrees(entries, log, ttl, clock)
    }

    constructor (ttl: int, ghost now: int)
      ensures Valid() && log == [] && clock == now && entries == map[]
      ensures this.ttl == if ttl <= 0 then DEFAULT_TTL else ttl
    {
      this.entries := map[];
      this.ttl := if ttl <= 0 then DEFAULT_TTL else ttl;
      this.log := [];
      this.clock := now;
    }

    /** Book-keeping of the ghost log: a call read the clock at `now`. */
    ghost method Record(op: Op, now: int)
      requires clock <= now && Timely(log + [op], now)
      modifies this`log, this`clock
      ensures log == old(log) + [op] && clock == now
    {
      log := log + [op];
      clock := now;
    }

    /** A lookup answers exactly as the log does; an expired entry is dropped on the way. */
    method Get(id: string, now: int) returns (pod: Option<Pod>)
      requires Valid() && clock <= now
      modifies this
      ensures Valid() && ttl == old(ttl) && log == old(log) + [Op.Get(id, now)] && clock == now
      ensures pod == Answer(old(log), ttl, id, now)
    {
      TimelyLater(log, clock, now);
      assert (log + [Op.Get(id, now)])[..|log|] == log;
      if id !in entries {
        pod := None;
      } else if now > entries[id].expiresAt {
        entries := entries - {id};
        pod := None;
      } else {
        pod := Some(entries[id].pod);
      }
      Record(Op.Get(id, now), now);
    }

    method Set(id: string, pod: Pod, now: int)
      requires Valid() && clock <= now
      modifies this
      ensures Valid() && ttl == old(ttl) && log == old(log) + [Op.Set(id, pod, now)] && clock == now
    {
      TimelyLater(log, clock, now);
      assert (log + [Op.Set(id, pod, now)])[..|log|] == log;
      entries := entries[id := Entry(pod, now + ttl)];
      Record(Op.Set(id, pod, now), now);
    }

    method Delete(id: string)
      requires Valid()
      modifies this
      ensures Valid() && ttl == old(ttl) && log == old(log) + [Op.Delete(id)] && clock == old(clock)
    {
      assert (log + [Op.Delete(id)])[..|log|] == log;
      entries := entries - {id};
      Record(Op.Delete(id), clock);
    }

    method Invalidate(id: string, ip: string)
      requires Valid()
      modifies this
      ensures Valid() && ttl == old(ttl) && log == old(log) + [Op.Invalidate(id, ip)] && clock == old(clock)
    {
      assert (log + [Op.Invalidate(id, ip)])[..|log|] == log;
      if id in entries && entries[id].pod.ip == ip {
        entries := entries - {id};
      }
      Record(Op.Invalidate(id, ip), clock);
    }

    /** Drops exactly the expired entries and counts them. */
    method EvictExpired(now: int) returns (evicted: nat)
      requires Valid() && clock <= now
      modifies this
      ensures Valid() && ttl == old(ttl) && log == old(log) + [Op.EvictExpired(now)] && clock == now
      ensures entries == map id | id in old(entries) && now <= old(entries)[id].expiresAt :: old(entries)[id]
      ensures evicted + |entries| == |old(entries)|
    {
      TimelyLater(log, clock, now);
      assert (log + [Op.EvictExpired(now)])[..|log|] == log;
      var todo := entries.Keys;
      evicted := 0;
      while todo != {}
        invariant todo <= entries.Keys <= old(entries).Keys
        invariant forall id :: id in entries ==> entries[id] == old(entries)[id]
        invariant forall id :: id in old(entries) && id !in todo ==>
                    (id in entries <==> now <= old(entries)[id].expiresAt)
        invariant evicted + |entries.Keys| == |old(entries).Keys|
        invariant log == old(log) && clock == old(clock) && ttl == old(ttl)
        decreases todo
      {
        var id :| id in todo;
        todo := todo - {id};
        if now > entries[id].expiresAt {
          ghost var before := entries.Keys;
          entries := entries - {id};
          assert entries.Keys == before - {id};
          evicted := evicted + 1;
        }
      }
      Record(Op.EvictExpired(now), now);
    }
  }

  // ----- Lookups and evictions cannot be observed -----

  predicate IsWrite(op: Op) { op.Set? || op.Delete? || op.Invalidate? }

  function Writes(log: seq<Op>): seq<Op> {
    if log == [] then [] else
    Writes(log[..|log| - 1]) + if IsWrite(log[|log| - 1]) then [log[|log| - 1]] else []
  }

  lemma SameBoundThen(a: seq<Op>, b: seq<Op>, op: Op, ttl: int, id: string)
    requires Bound(a, ttl, id) == Bound(b, ttl, id)
    ensures Bound(a + [op], ttl, id) == Bound(b + [op], ttl, id)
  {
    assert (a + [op])[..|a|] == a && (b + [op])[..|b|] == b;
  }

  /** Taking every lookup and every eviction out of the history changes no later answer. */
  lemma {:induction false} LookupsAreUnobservable(log: seq<Op>, ttl: int, id: string, now: int)
    ensures Answer(Writes(log), ttl, id, now) == Answer(log, ttl, id, now)
    ensures Bound(Writes(log), ttl, id) == Bound(log, ttl, id)
  {
    if log != [] {
      var rest, last := log[..|log| - 1], log[|log| - 1];
      LookupsAreUnobservable(rest, ttl, id, now);
      if IsWrite(last) {
        SameBoundThen(Writes(rest), rest, last, ttl, id);
        assert log == rest + [last];
      } else {
        assert Writes(log) == Writes(rest);
      }
    }
  }

  /** Entry `i` of the log is a `Set` of `id` that nothing after it undoes. */
  ghost predicate Stands(log: seq<Op>, id: string, i: nat) {
    && i < |log| && log[i].Set? && log[i].id == id
    && forall j :: i < j < |log| ==>
         && !(log[j].Set? && log[j].id == id)
         && !(log[j].Delete? && log[j].id == id)
         && !(log[j].Invalidate? && log[j].id == id && log[j].ip == log[i].pod.ip)
  }

  lemma {:induction false} StandingSetIsBound(log: seq<Op>, ttl: int, id: string, i: nat)
    requires Stands(log, id, i)
    ensures Bound(log, ttl, id) == Some(Entry(log[i].pod, log[i].now + ttl))
  {
    if i < |log| - 1 {
      StandingSetIsBound(log[..|log| - 1], ttl, id, i);
    }
  }

  lemma {:induction false} BoundComesFromASet(log: seq<Op>, ttl: int, id: string) returns (i: nat)
    requires Bound(log, ttl, id).Some?
    ensures Stands(log, id, i) && Bound(log, ttl, id) == Some(Entry(log[i].pod, log[i].now + ttl))
  {
    var last := log[|log| - 1];
    if last.Set? && last.id == id {
      i := |log| - 1;
    } else {
      i := BoundComesFromASet(log[..|log| - 1], ttl, id);
    }
  }

  /** A lookup finds `pod` exactly when some `Set` of it still stands and its time to live is not over. */
  lemma AnswerIffSetStands(log: seq<Op>, ttl: int, id: string, now: int, pod: Pod)
    ensures Answer(log, ttl, id, now) == Some(pod)
            <==> exists i: nat :: Stands(log, id, i) && log[i].pod == pod && now <= log[i].now + ttl
  {
    if Bound(log, ttl, id).Some? {
      var i := BoundComesFromASet(log, ttl, id);
    }
    forall i: nat | Stands(log, id, i) ensures Bound(log, ttl, id) == Some(Entry(log[i].pod, log[i].now + ttl)) {
      StandingSetIsBound(log, ttl, id, i);
    }
  }
}
