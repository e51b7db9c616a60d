/**
 The retry engine of XClient.Call: the Failfast, Failtry and Failover modes over
 any behaviour of servers, connections and selector, with the client cache.
 */
module Retry {
  import opened Wrappers

  type ClientId = nat

  /** Errors as far as the engine tells them apart: the two context errors, a service's own error,
      anything else. */
  datatype Err = Canceled | DeadlineExceeded | Service(code: nat) | Other(code: nat)

  datatype FailMode = Failfast | Failtry | Failover

  /**
   What the world answers, by the number of the question: which server the
   selector names ("" for none), whether a cached client is still good, whether
   a connection can be made, how a call on a client ends.
   */
  datatype World = World(
    selected: nat -> string, good: nat -> bool, dialled: nat -> Option<Err>, ended: nat -> Option<Err>)

  /** How many questions of each kind have been asked. */
  datatype Clock = Clock(asked: nat, checks: nat, dials: nat, calls: nat)

  const SHUTDOWN: Err := Other(0)
  const NO_SERVER: Err := Other(1)

  predicate ContextCanceled(e: Option<Err>) {
    e.Some? && (e.value.Canceled? || e.value.DeadlineExceeded?)
  }

  /** uncoverError: true for nil, too. */
  predicate Uncover(e: Option<Err>) {
    e.None? || e.value.Other?
  }

  /** An outcome after which the engine tries again. */
  predicate Retryable(e: Option<Err>) {
    e.Some? && e.value.Other?
  }

  // ---------------------------------------------------------------- what a selection comes to

  /** The error of getting a client for server k. */
  function ConnectErr(w: World, now: Clock, shut: bool, cached: map<string, ClientId>, k: string): Option<Err> {
    if shut then Some(SHUTDOWN)
    else if k in cached && w.good(now.checks) then None
    else w.dialled(now.dials)
  }

  /** The error of a selection. */
  function SelectErr(w: World, now: Clock, shut: bool, cached: map<string, ClientId>): Option<Err> {
    var k := w.selected(now.asked);
    if k == "" then Some(NO_SERVER) else ConnectErr(w, now, shut, cached, k)
  }

  /** The error a Call has before its first attempt. */
  function FirstErr(w: World, now: Clock, shut: bool, cached: map<string, ClientId>): Option<Err> {
    if shut then Some(SHUTDOWN) else SelectErr(w, now, shut, cached)
  }

  // ---------------------------------------------------------------- the rounds of a Call

  /** One call on a client: the server it was for, its number and how it ended. */
  datatype Attempt = Attempt(k: string, client: ClientId, at: nat, end: Option<Err>)

  /** A round makes an attempt, or has no server, or its dialling, with this number, fails. */
  datatype Round = Tried(a: Attempt) | Unserved | Undialled(dial: nat)

  function Tries(rounds: seq<Round>): nat {
    if rounds == [] then 0
    else Tries(rounds[..|rounds| - 1]) + if rounds[|rounds| - 1].Tried? then 1 else 0
  }

  /** The end of the last attempt, or e if there is none. */
  function LastErr(rounds: seq<Round>, e: Option<Err>): Option<Err> {
    if rounds == [] then e
    else
      var r := rounds[|rounds| - 1];
      if r.Tried? then r.a.end else LastErr(rounds[..|rounds| - 1], e)
  }

  /** The server of round i: the first one selected, or the one selected for that round. */
  function ServerOf(w: World, again: bool, from: Clock, i: nat): string {
    w.selected(if again then from.asked else from.asked + i)
  }

  /** Round i got no client: there was no server, or dialling, of the number limit or later, failed. */
  ghost predicate Misses(w: World, again: bool, from: Clock, i: nat, r: Round, limit: nat) {
    var k := ServerOf(w, again, from, i);
    match r
    case Tried(_) => false
    case Unserved => k == "" && (again ==> i == 0)
    case Undialled(d) => limit <= d && w.dialled(d).Some? && (!again || i == 0 ==> k != "")
  }

  /** Round i made an attempt, the one of this number: on its server, on a client made for it. */
  ghost predicate IsAttempt(w: World, again: bool, from: Clock, i: nat, a: Attempt, at: nat, owner: seq<string>) {
    && a.k == ServerOf(w, again, from, i) && (!again || i == 0 ==> a.k != "")
    && a.at == at && a.end == w.ended(at) && a.client < |owner| && owner[a.client] == a.k
  }

  /** What holds of round i, and of rounds i and j: attempts that may be retried leave a closed client
      and only they are followed by another round, every attempt is on a client of its own, and every
      failed dialling counts for one round only.  In an open story the last attempt may be retried, too. */
  ghost predicate StoryAt(w: World, again: bool, rounds: seq<Round>, owner: seq<string>, closed: set<ClientId>,
                          from: Clock, limit: nat, open: bool, i: nat, j: nat) {
    && (i < |rounds| ==>
          match rounds[i]
          case Tried(a) =>
            && IsAttempt(w, again, from, i, a, from.calls + Tries(rounds[..i]), owner)
            && (Retryable(a.end) ==> a.client in closed) && (open || i < |rounds| - 1 ==> Retryable(a.end))
          case Unserved => Misses(w, again, from, i, rounds[i], from.dials)
          case Undialled(d) => Misses(w, again, from, i, rounds[i], from.dials) && d < limit)
    && (i < j < |rounds| && rounds[i].Tried? && rounds[j].Tried? ==> rounds[i].a.client != rounds[j].a.client)
    && (i < j < |rounds| && rounds[i].Undialled? && rounds[j].Undialled? ==> rounds[i].dial < rounds[j].dial)
  }

  /** The rounds of a Call that began at from, of whose diallings those below limit have been counted. */
  ghost predicate Story(w: World, again: bool, rounds: seq<Round>, owner: seq<string>, closed: set<ClientId>,
                        from: Clock, limit: nat, open: bool) {
    forall i: nat, j: nat :: StoryAt(w, again, rounds, owner, closed, from, limit, open, i, j)
  }

  lemma StoryBegins(w: World, again: bool, owner: seq<string>, closed: set<ClientId>, from: Clock, limit: nat)
    ensures Story(w, again, [], owner, closed, from, limit, true)
  {
  }

  /** More clients, more of them closed, more diallings. */
  lemma StoryLater(w: World, again: bool, rounds: seq<Round>, owner: seq<string>, owner': seq<string>,
                   closed: set<ClientId>, closed': set<ClientId>, from: Clock, limit: nat, limit': nat, open: bool)
    requires Story(w, again, rounds, owner, closed, from, limit, open)
    requires owner <= owner' && closed <= closed' && limit <= limit'
    ensures Story(w, again, rounds, owner', closed', from, limit', open)
  {
    forall i: nat, j: nat ensures StoryAt(w, again, rounds, owner', closed', from, limit', open, i, j) {
      assert StoryAt(w, again, rounds, owner, closed, from, limit, open, i, j);
    }
  }

  lemma StoryEnds(w: World, again: bool, rounds: seq<Round>, owner: seq<string>, closed: set<ClientId>,
                  from: Clock, limit: nat)
    requires Story(w, again, rounds, owner, closed, from, limit, true)
    ensures Story(w, again, rounds, owner, closed, from, limit, false)
  {
    forall i: nat, j: nat ensures StoryAt(w, again, rounds, owner, closed, from, limit, false, i, j) {
      assert StoryAt(w, again, rounds, owner, closed, from, limit, true, i, j);
    }
  }

  /** A further attempt, on an open client. */
  lemma StoryTried(w: World, again: bool, rounds: seq<Round>, owner: seq<string>, before: set<ClientId>,
                   closed: set<ClientId>, from: Clock, limit: nat, a: Attempt)
    requires Story(w, again, rounds, owner, before, from, limit, true) && before <= closed
    requires IsAttempt(w, again, from, |rounds|, a, from.calls + Tries(rounds), owner)
    requires a.client !in before && (Retryable(a.end) ==> a.client in closed)
    ensures Story(w, again, rounds + [Tried(a)], owner, closed, from, limit, Retryable(a.end))
  {
    var more := rounds + [Tried(a)];
    forall i: nat, j: nat ensures StoryAt(w, again, more, owner, closed, from, limit, Retryable(a.end), i, j) {
      assert StoryAt(w, again, rounds, owner, before, from, limit, true, i, j);
      if i < |rounds| { assert more[..i] == rounds[..i]; } else if i == |rounds| { assert more[..i] == rounds; }
    }
  }

  /** A further round without a client. */
  lemma StoryMissed(w: World, again: bool, rounds: seq<Round>, owner: seq<string>, closed: set<ClientId>,
                    from: Clock, limit: nat, limit': nat, r: Round)
    requires Story(w, again, rounds, owner, closed, from, limit, true) && from.dials <= limit <= limit'
    requires Misses(w, again, from, |rounds|, r, limit) && (r.Undialled? ==> r.dial < limit')
    ensures Story(w, again, rounds + [r], owner, closed, from, limit', true)
  {
    var more := rounds + [r];
    forall i: nat, j: nat ensures StoryAt(w, again, more, owner, closed, from, limit', true, i, j) {
      assert StoryAt(w, again, rounds, owner, closed, from, limit, true, i, j);
      if i < |rounds| { assert more[..i] == rounds[..i]; }
    }
  }

  lemma RoundAdded(rounds: seq<Round>, r: Round, e: Option<Err>)
    ensures Tries(rounds + [r]) == Tries(rounds) + if r.Tried? then 1 else 0
    ensures LastErr(rounds + [r], e) == if r.Tried? then r.a.end else LastErr(rounds, e)
  {
    assert (rounds + [r])[..|rounds|] == rounds;
  }

  /** When no dialling fails and the selector names a server whenever it is asked, every round makes an
      attempt. */
  lemma NoMisses(w: World, again: bool, rounds: seq<Round>, owner: seq<string>, closed: set<ClientId>,
                 from: Clock, limit: nat, open: bool, i: nat)
    requires Story(w, again, rounds, owner, closed, from, limit, open) && i < |rounds|
    requires forall d: nat :: w.dialled(d).None?
    requires forall n: nat :: n == from.asked || (!again && n > from.asked) ==> w.selected(n) != ""
    ensures rounds[i].Tried?
  {
    assert StoryAt(w, again, rounds, owner, closed, from, limit, open, i, i);
  }

  class XClient {
    var isShutdown: bool
    var cachedClient: map<string, ClientId>
    var owner: seq<string>
    var closed: set<ClientId>
    var clock: Clock

    constructor ()
      ensures Valid() && !isShutdown && cachedClient == map[] && owner == [] && closed == {}
      ensures clock == Clock(0, 0, 0, 0)
    {
      isShutdown, cachedClient, owner, closed, clock := false, map[], [], {}, Clock(0, 0, 0, 0);
    }

    /** Clients are cached under the server they were made for, and no closed one is. */
    ghost predicate Valid()
      reads this
    {
      && (forall k :: k in cachedClient ==>
            cachedClient[k] < |owner| && owner[cachedClient[k]] == k && cachedClient[k] !in closed)
      && (forall c :: c in closed ==> c < |owner|)
    }

    /** Clients are only added, closed ones stay closed. */
    twostate predicate Grows()
      reads this
    {
      old(closed) <= closed && old(owner) <= owner && isShutdown == old(isShutdown)
    }

    /** A new connection, cached if it works. */
    method GenerateClient(w: World, k: string) returns (client: Option<ClientId>, e: Option<Err>)
      requires Valid() && k !in cachedClient
      modifies this
      ensures Valid() && Grows() && closed == old(closed)
      ensures clock == old(clock).(dials := old(clock.dials) + 1)
      ensures e == w.dialled(old(clock.dials)) && (client.Some? <==> e.None?)
      ensures client.Some? ==> client.value == |old(owner)| && owner == old(owner) + [k]
      ensures cachedClient == if client.Some? then old(cachedClient)[k := client.value] else old(cachedClient)
    {
      e := w.dialled(clock.dials);
      clock := clock.(dials := clock.dials + 1);
      if e.Some? { return None, e; }
      owner := owner + [k];
      cachedClient := cachedClient[k := |owner| - 1];
      client := Some(|owner| - 1);
    }

    /** A cached client that is still good, or a new connection. */
    method GetCachedClient(w: World, k: string) returns (client: Option<ClientId>, e: Option<Err>)
      requires Valid()
      modifies this
      ensures Valid() && Grows()
      ensures client.Some? <==> e.None?
      ensures Made(k, client)
      ensures client.Some? ==> cachedClient == old(cachedClient)[k := client.value]
      ensures client.None? ==> cachedClient == old(cachedClient) - (if old(isShutdown) then {} else {k})
      ensures e == ConnectErr(w, old(clock), old(isShutdown), old(cachedClient), k)
      ensures !isShutdown && k in old(cachedClient) && w.good(old(clock.checks)) ==>
                client == Some(old(cachedClient)[k]) && owner == old(owner) && closed == old(closed)
      ensures client.Some? && !(k in old(cachedClient) && w.good(old(clock.checks))) ==> client.value == |old(owner)|
      ensures !isShutdown && k in old(cachedClient) && !w.good(old(clock.checks)) ==> old(cachedClient)[k] in closed
      ensures clock.asked == old(clock.asked) && clock.calls == old(clock.calls)
      ensures old(clock.dials) <= clock.dials
      ensures client.None? && !isShutdown ==> clock.dials == old(clock.dials) + 1
    {
      if isShutdown { return None, Some(SHUTDOWN); }
      if k in cachedClient {
        var good := w.good(clock.checks);
        clock := clock.(checks := clock.checks + 1);
        if good { return Some(cachedClient[k]), None; }
        closed := closed + {cachedClient[k]};
        cachedClient := cachedClient - {k};
      }
      client, e := GenerateClient(w, k);
    }

    method SelectClient(w: World) returns (k: string, client: Option<ClientId>, e: Option<Err>)
      requires Valid()
      modifies this
      ensures Valid() && Grows()
      ensures client.Some? <==> e.None?
      ensures Made(k, client) && k == w.selected(old(clock.asked)) && (client.Some? ==> k != "")
      ensures e == SelectErr(w, old(clock), old(isShutdown), old(cachedClient))
      ensures clock.asked == old(clock.asked) + 1 && clock.calls == old(clock.calls)
      ensures old(clock.dials) <= clock.dials
      ensures client.None? && k != "" && !isShutdown ==>
                clock.dials == old(clock.dials) + 1 && w.dialled(old(clock.dials)).Some?
    {
      k := w.selected(clock.asked);
      clock := clock.(asked := clock.asked + 1);
      if k == "" { return "", None, Some(NO_SERVER); }
      client, e := GetCachedClient(w, k);
    }

    /** Takes the client out of the cache, if it is the one there, and closes it. */
    method RemoveClient(k: string, client: Option<ClientId>)
      requires Valid() && (client.Some? ==> client.value < |owner| && owner[client.value] == k)
      modifies this
      ensures Valid() && Grows() && owner == old(owner)
      ensures closed == if client.Some? then old(closed) + {client.value} else old(closed)
      ensures cachedClient == if client.Some? && k in old(cachedClient) && old(cachedClient)[k] == client.value
                              then old(cachedClient) - {k} else old(cachedClient)
      ensures clock == old(clock)
    {
      if client.None? { return; }
      if k in cachedClient && cachedClient[k] == client.value { cachedClient := cachedClient - {k}; }
      closed := closed + {client.value};
    }

    /** The client is an open one made for server k. */
    ghost predicate Made(k: string, client: Option<ClientId>)
      reads this
    {
      client.Some? ==> client.value < |owner| && owner[client.value] == k && client.value !in closed
    }

    /** One attempt; a client whose call failed for good is removed. */
    method TryOnce(w: World, k: string, client: ClientId) returns (a: Attempt)
      requires Valid() && Made(k, Some(client))
      modifies this
      ensures Valid() && Grows() && owner == old(owner) && clock == old(clock).(calls := old(clock.calls) + 1)
      ensures a == Attempt(k, client, old(clock.calls), w.ended(old(clock.calls)))
      ensures closed == if Retryable(a.end) then old(closed) + {client} else old(closed)
    {
      a := Attempt(k, client, clock.calls, w.ended(clock.calls));
      clock := clock.(calls := clock.calls + 1);
      if a.end.Some? && Uncover(a.end) { RemoveClient(k, Some(client)); }
    }

    /** The client for the next round, i: of the same server again, or of one selected anew; or why
        there is none. */
    method Another(w: World, again: bool, k: string, ghost from: Clock, ghost i: nat)
      returns (k': string, client: Option<ClientId>, miss: Round)
      requires Valid() && !isShutdown && i > 0 && k == ServerOf(w, again, from, i - 1)
      requires clock.asked == if again then from.asked + 1 else from.asked + i
      modifies this
      ensures Valid() && Grows() && Made(k', client) && k' == ServerOf(w, again, from, i)
      ensures clock.asked == if again then from.asked + 1 else from.asked + i + 1
      ensures clock.calls == old(clock.calls) && old(clock.dials) <= clock.dials
      ensures client.Some? && !again ==> k' != ""
      ensures client.None? ==> Misses(w, again, from, i, miss, old(clock.dials))
      ensures client.None? && miss.Undialled? ==> miss.dial < clock.dials
    {
      var e;
      miss := Undialled(clock.dials);
      if again {
        k' := k;
        client, e := GetCachedClient(w, k);
      } else {
        k', client, e := SelectClient(w);
        if k' == "" { miss := Unserved; }
      }
    }

    /**
     The Failtry and Failover loops, after a first selection, which began at from,
     of client0 for k0 with error first, or with miss0 if there is no client.
     */
    method Loop(w: World, again: bool, retries: int, k0: string, client0: Option<ClientId>, first: Option<Err>,
                miss0: Round, ghost from: Clock)
      returns (err: Option<Err>, rounds: seq<Round>)
      requires Valid() && !isShutdown && Made(k0, client0) && (client0.Some? <==> first.None?)
      requires k0 == w.selected(from.asked) && (client0.Some? ==> k0 != "")
      requires clock.asked == from.asked + 1 && clock.calls == from.calls && from.dials <= clock.dials
      requires client0.None? ==> Misses(w, again, from, 0, miss0, from.dials)
      requires client0.None? && miss0.Undialled? ==> miss0.dial < clock.dials
      modifies this
      ensures Valid() && Grows()
      ensures Story(w, again, rounds, owner, closed, from, clock.dials, false)
      ensures clock.calls == from.calls + Tries(rounds) && err == LastErr(rounds, first)
      ensures clock.asked >= from.asked + if again then 1 else |rounds|
      ensures retries < 0 ==> rounds == []
      ensures retries >= 0 ==> 1 <= |rounds| <= retries + 1 && (rounds[0].Tried? <==> client0.Some?)
      ensures retries >= 0 && |rounds| <= retries ==> rounds[|rounds| - 1].Tried? && !Retryable(err)
    {
      var k, client, miss, left := k0, client0, miss0, retries;
      err, rounds := first, [];
      ghost var limit := from.dials;
      StoryBegins(w, again, owner, closed, from, limit);
      while left >= 0
        invariant Valid() && Grows() && Made(k, client) && from.dials <= limit <= clock.dials
        invariant Story(w, again, rounds, owner, closed, from, limit, true)
        invariant clock.calls == from.calls + Tries(rounds) && err == LastErr(rounds, first)
        invariant k == ServerOf(w, again, from, |rounds|) && (client.Some? && (!again || rounds == []) ==> k != "")
        invariant clock.asked == if again then from.asked + 1 else from.asked + |rounds| + 1
        invariant client.None? ==> Misses(w, again, from, |rounds|, miss, limit)
        invariant client.None? && miss.Undialled? ==> miss.dial < clock.dials
        invariant retries >= 0 ==> |rounds| + left == retries && left >= -1
        invariant retries < 0 ==> left == retries && rounds == []
        invariant if rounds == [] then client == client0 else rounds[0].Tried? <==> client0.Some?
        decreases left
      {
        left := left - 1;
        if client.Some? {
          err, rounds := TryNext(w, again, k, client.value, rounds, first, from, limit);
          if err.None? || ContextCanceled(err) || err.value.Service? {
            StoryLater(w, again, rounds, owner, owner, closed, closed, from, limit, clock.dials, false);
            return;
          }
        } else {
          StoryMissed(w, again, rounds, owner, closed, from, limit, clock.dials, miss);
          RoundAdded(rounds, miss, first);
          rounds, limit := rounds + [miss], clock.dials;
          if Uncover(err) { RemoveClient(k, None); }
        }
        ghost var owners, before := owner, closed;
        k, client, miss := Another(w, again, k, from, |rounds|);
        StoryLater(w, again, rounds, owners, owner, before, closed, from, limit, limit, true);
      }
      StoryLater(w, again, rounds, owner, owner, closed, closed, from, limit, clock.dials, true);
      StoryEnds(w, again, rounds, owner, closed, from, clock.dials);
    }

    /** One more attempt. */
    method TryNext(w: World, again: bool, k: string, client: ClientId, rounds: seq<Round>, ghost first: Option<Err>,
                   ghost from: Clock, ghost limit: nat)
      returns (err: Option<Err>, more: seq<Round>)
      requires Valid() && Made(k, Some(client)) && Story(w, again, rounds, owner, closed, from, limit, true)
      requires k == ServerOf(w, again, from, |rounds|) && (!again || rounds == [] ==> k != "")
      requires clock.calls == from.calls + Tries(rounds)
      modifies this
      ensures Valid() && Grows() && clock == old(clock).(calls := old(clock.calls) + 1)
      ensures |more| == |rounds| + 1 && more[..|rounds|] == rounds && more[|rounds|].Tried?
      ensures Story(w, again, more, owner, closed, from, limit, Retryable(err))
      ensures clock.calls == from.calls + Tries(more) && err == LastErr(more, first)
    {
      var a := TryOnce(w, k, client);
      err := a.end;
      StoryTried(w, again, rounds, owner, old(closed), closed, from, limit, a);
      RoundAdded(rounds, Tried(a), first);
      more := rounds + [Tried(a)];
    }

    /** Call.  Its error is that of the last attempt or, without one, of the selection; it returns nil
        exactly if the last attempt succeeded or, with negative retries, the selection does.  With
        retries left it goes on after every round but one whose attempt must not be retried. */
    method Call(w: World, mode: FailMode, retries: int) returns (err: Option<Err>, rounds: seq<Round>)
      requires Valid()
      modifies this
      ensures Valid() && Grows()
      ensures Story(w, mode.Failtry?, rounds, owner, closed, old(clock), clock.dials, false)
      ensures clock.calls == old(clock.calls) + Tries(rounds)
      ensures rounds != [] ==> clock.asked >= old(clock.asked) + if mode.Failtry? then 1 else |rounds|
      ensures var first := FirstErr(w, old(clock), old(isShutdown), old(cachedClient));
        && err == LastErr(rounds, first)
        && (err.None? <==>
              || (rounds != [] && rounds[|rounds| - 1].Tried? && rounds[|rounds| - 1].a.end.None?)
              || (!mode.Failfast? && retries < 0 && first.None?))
        && (mode.Failfast? ==> |rounds| == if first.None? then 1 else 0)
        && (!mode.Failfast? && retries < 0 ==> rounds == [])
        && (old(isShutdown) || ContextCanceled(first) ==> rounds == [])
        && (!mode.Failfast? && retries >= 0 && !old(isShutdown) && !ContextCanceled(first) ==>
              && 1 <= |rounds| <= retries + 1 && (rounds[0].Tried? <==> first.None?)
              && (|rounds| <= retries ==> rounds[|rounds| - 1].Tried? && !Retryable(err)))
    {
      ghost var from := clock;
      rounds := [];
      StoryBegins(w, mode.Failtry?, owner, closed, from, clock.dials);
      StoryEnds(w, mode.Failtry?, [], owner, closed, from, clock.dials);
      if isShutdown { return Some(SHUTDOWN), []; }
      var miss := Undialled(clock.dials);
      var k, client, first := SelectClient(w);
      if k == "" { miss := Unserved; }
      StoryBegins(w, mode.Failtry?, owner, closed, from, clock.dials);
      StoryEnds(w, mode.Failtry?, [], owner, closed, from, clock.dials);
      if first.Some? && (mode.Failfast? || ContextCanceled(first)) { return first, []; }
      if mode.Failfast? {
        err, rounds := TryNext(w, false, k, client.value, [], first, from, clock.dials);
        if Retryable(err) { StoryEnds(w, false, rounds, owner, closed, from, clock.dials); }
      } else {
        err, rounds := Loop(w, mode.Failtry?, retries, k, client, first, miss, from);
        NilIsLast(w, mode.Failtry?, rounds, owner, closed, from, clock.dials, first);
      }
    }

    /** When clients can always be had, a Call whose error may be retried has used all its attempts. */
    method CallTriesAll(w: World, mode: FailMode, retries: nat) returns (err: Option<Err>, rounds: seq<Round>)
      requires Valid() && !isShutdown && !mode.Failfast?
      requires forall d: nat :: w.dialled(d).None?
      requires forall n: nat :: n == clock.asked || (mode.Failover? && n > clock.asked) ==> w.selected(n) != ""
      modifies this
      ensures forall r <- rounds :: r.Tried?
      ensures Retryable(err) ==> |rounds| == retries + 1
      ensures !Retryable(err) ==> 1 <= |rounds| <= retries + 1
    {
      ghost var from := clock;
      err, rounds := Call(w, mode, retries);
      forall i | 0 <= i < |rounds| ensures rounds[i].Tried? {
        NoMisses(w, mode.Failtry?, rounds, owner, closed, from, clock.dials, false, i);
      }
    }
  }

  /** A nil error is that of the last round. */
  lemma NilIsLast(w: World, again: bool, rounds: seq<Round>, owner: seq<string>, closed: set<ClientId>,
                  from: Clock, limit: nat, first: Option<Err>)
    requires Story(w, again, rounds, owner, closed, from, limit, false)
    requires rounds != [] ==> (rounds[0].Tried? <==> first.None?)
    ensures rounds != [] && LastErr(rounds, first).None? ==>
              rounds[|rounds| - 1].Tried? && rounds[|rounds| - 1].a.end.None?
  {
    var n := |rounds| - 1;
    if rounds != [] && !rounds[n].Tried? {
      forall i: nat | i < n ensures rounds[i].Tried? ==> Retryable(rounds[i].a.end) {
        assert StoryAt(w, again, rounds, owner, closed, from, limit, false, i, i);
      }
      SomeErr(rounds, first);
    }
  }

  lemma {:induction false} SomeErr(rounds: seq<Round>, first: Option<Err>)
    requires rounds != [] && (rounds[0].Tried? <==> first.None?)
    requires forall i: nat :: i < |rounds| && rounds[i].Tried? ==> Retryable(rounds[i].a.end)
    ensures LastErr(rounds, first).Some?
  {
    var n := |rounds| - 1;
    if n > 0 && !rounds[n].Tried? { SomeErr(rounds[..n], first); }
  }

  /** With negative retries a Call that could have been made returns nil without having been made. */
  method NegativeRetriesDoNothing(retries: int) returns (err: Option<Err>, rounds: seq<Round>)
    requires retries < 0
    ensures err.None? && rounds == []
  {
    var w := World(_ => "s", _ => true, _ => None, _ => Some(Other(7)));
    var c := new XClient();
    err, rounds := c.Call(w, Failover, retries);
  }
}
