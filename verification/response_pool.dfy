/** `ResponsePool`: the correlation store that pairs an outgoing request's `echo` id
    with the response that later arrives carrying the same id. A `CompletableFuture` is
    a ticket into `waiters`, which records what became of every future ever created;
    the blocking `future.get` is split into registration (`Register`) and the end of
    the wait (`FinishWait`). */
module ResponsePool {
  import opened KotlinText
  import opened JsonUtil

  /** The state of one `CompletableFuture`. */
  datatype WaiterState = Pending | Completed(response: Envelope) | Cancelled

  /** `future.cancel(true)`: a pending future becomes cancelled; a finished one stays. */
  function Cancel(w: WaiterState): (r: WaiterState)
    ensures w.Pending? ==> r == Cancelled
    ensures !w.Pending? ==> r == w
  {
    if w.Pending? then Cancelled else w
  }

  /** The futures that `ids` are registered with. */
  function TicketsOf(responseMap: map<string, nat>, ids: set<string>): set<nat> {
    set id | id in ids && id in responseMap :: responseMap[id]
  }

  /** Every future in `tickets` cancelled, every other future as it was. */
  function CancelAll(waiters: map<nat, WaiterState>, tickets: set<nat>): (r: map<nat, WaiterState>)
    ensures r.Keys == waiters.Keys
    ensures forall t | t in r :: r[t] == if t in tickets then Cancel(waiters[t]) else waiters[t]
  {
    map t | t in waiters :: if t in tickets then Cancel(waiters[t]) else waiters[t]
  }

  /** The ids registered more than `timeoutSeconds` seconds before `now`. */
  function Expired(responseTimeMap: map<string, int>, timeoutSeconds: int, now: int): set<string> {
    set id | id in responseTimeMap && now - responseTimeMap[id] > timeoutSeconds * 1000
  }

  /** The two maps share one key set; a registered future is still pending and
      belongs to one id only; every future was numbered before `nextTicket`. */
  ghost predicate Consistent(responseMap: map<string, nat>, responseTimeMap: map<string, int>,
                             waiters: map<nat, WaiterState>, nextTicket: nat)
  {
    && responseMap.Keys == responseTimeMap.Keys
    && (forall id | id in responseMap :: responseMap[id] in waiters && waiters[responseMap[id]].Pending?)
    && (forall a, b | a in responseMap && b in responseMap && a != b :: responseMap[a] != responseMap[b])
    && (forall t | t in waiters :: t < nextTicket)
  }

  /** Settling the future of one id (completing or cancelling it) while the id leaves
      both maps keeps the pool consistent. */
  lemma SettleKeepsConsistent(responseMap: map<string, nat>, responseTimeMap: map<string, int>,
                              waiters: map<nat, WaiterState>, nextTicket: nat, id: string, outcome: WaiterState)
    requires Consistent(responseMap, responseTimeMap, waiters, nextTicket)
    requires !outcome.Pending?
    ensures Consistent(responseMap - {id}, responseTimeMap - {id},
                       if id in responseMap then waiters[responseMap[id] := outcome] else waiters, nextTicket)
  {
  }

  class Pool {
    /** `responseMap`: request id to the future waiting for its response. */
    var responseMap: map<string, nat>
    /** `responseTimeMap`: request id to its registration time in milliseconds. */
    var responseTimeMap: map<string, int>
    /** Every future created so far, and what became of it. */
    var waiters: map<nat, WaiterState>
    var nextTicket: nat

    /** The two maps share one key set; a registered future is still pending and
        belongs to one id only. */
    ghost predicate Valid()
      reads this
    {
      Consistent(responseMap, responseTimeMap, waiters, nextTicket)
    }

    constructor()
      ensures Valid()
      ensures responseMap == map[] && responseTimeMap == map[] && waiters == map[]
    {
      responseMap := map[];
      responseTimeMap := map[];
      waiters := map[];
      nextTicket := 0;
    }

    /** The registration step of `getResponse`: a fresh pending future under `requestId`,
        stamped with `now`, replacing any earlier registration of that id. */
    method Register(requestId: string, now: int) returns (ticket: nat)
      requires Valid()
      modifies this
      ensures Valid()
      ensures ticket !in old(waiters)
      ensures responseMap == old(responseMap)[requestId := ticket]
      ensures responseTimeMap == old(responseTimeMap)[requestId := now]
      ensures waiters == old(waiters)[ticket := Pending]
    {
      ticket := nextTicket;
      nextTicket := nextTicket + 1;
      responseMap := responseMap[requestId := ticket];
      responseTimeMap := responseTimeMap[requestId := now];
      waiters := waiters[ticket := Pending];
    }

    /** The cleanup of `getResponse` after a timeout or a failed wait: `requestId`
        leaves both maps, and no future changes. */
    method Abandon(requestId: string)
      requires Valid()
      modifies this
      ensures Valid()
      ensures responseMap == old(responseMap) - {requestId}
      ensures responseTimeMap == old(responseTimeMap) - {requestId}
      ensures waiters == old(waiters) && nextTicket == old(nextTicket)
    {
      responseMap := responseMap - {requestId};
      responseTimeMap := responseTimeMap - {requestId};
    }

    /** The end of `getResponse`'s wait on `ticket`: a completed future yields its
        response and leaves the maps alone; a cancelled future, or one still pending
        when the wait runs out, throws, and `requestId` is dropped from both maps. */
    method FinishWait(requestId: string, ticket: nat) returns (r: Option<Envelope>)
      requires Valid() && ticket in waiters
      modifies this
      ensures Valid()
      ensures old(waiters[ticket]).Completed? ==> r == Some(old(waiters[ticket]).response) && unchanged(this)
      ensures !old(waiters[ticket]).Completed? ==>
        && r == None
        && responseMap == old(responseMap) - {requestId}
        && responseTimeMap == old(responseTimeMap) - {requestId}
        && waiters == old(waiters)
    {
      match waiters[ticket]
      case Completed(response) =>
        r := Some(response);
      case _ =>
        Abandon(requestId);
        r := None;
    }

    /** `putResponse`: `requestId` leaves both maps, and the future it was registered
        with, if any, completes with `response`. */
    method PutResponse(requestId: string, response: Envelope)
      requires Valid()
      modifies this
      ensures Valid()
      ensures responseMap == old(responseMap) - {requestId}
      ensures responseTimeMap == old(responseTimeMap) - {requestId}
      ensures requestId in old(responseMap) ==> waiters == old(waiters)[old(responseMap)[requestId] := Completed(response)]
      ensures requestId !in old(responseMap) ==> waiters == old(waiters)
      ensures requestId in old(responseMap) ==> |responseMap| == old(|responseMap|) - 1
      ensures requestId !in old(responseMap) ==> |responseMap| == old(|responseMap|)
      ensures nextTicket == old(nextTicket)
    {
      var future := if requestId in responseMap then Some(responseMap[requestId]) else None;
      SettleKeepsConsistent(responseMap, responseTimeMap, waiters, nextTicket, requestId, Completed(response));
      RemoveOneCard(responseMap, requestId);
      responseMap := responseMap - {requestId};
      responseTimeMap := responseTimeMap - {requestId};
      if future.Some? {
        waiters := waiters[future.value := Completed(response)];
      }
    }

    /** `cleanTimeoutResponses`: every id registered more than `timeoutSeconds` seconds
        ago leaves both maps and its future is cancelled; younger ids stay as they are. */
    method CleanTimeoutResponses(timeoutSeconds: int, now: int)
      requires Valid()
      modifies this
      ensures Valid()
      ensures responseMap == old(responseMap) - Expired(old(responseTimeMap), timeoutSeconds, now)
      ensures responseTimeMap == old(responseTimeMap) - Expired(old(responseTimeMap), timeoutSeconds, now)
      ensures waiters == CancelAll(old(waiters), TicketsOf(old(responseMap), Expired(old(responseTimeMap), timeoutSeconds, now)))
      ensures forall id | id in responseTimeMap :: now - responseTimeMap[id] <= timeoutSeconds * 1000
    {
      var toRemove := Expired(responseTimeMap, timeoutSeconds, now);
      OnlyYoungRemain(responseTimeMap, timeoutSeconds, now);
      EvictAll(toRemove);
    }

    /** The `forEach` of `cleanTimeoutResponses`: each id of `toRemove` in turn leaves
        both maps and has its future cancelled. */
    method EvictAll(toRemove: set<string>)
      requires Valid()
      modifies this
      ensures Valid()
      ensures responseMap == old(responseMap) - toRemove
      ensures responseTimeMap == old(responseTimeMap) - toRemove
      ensures waiters == CancelAll(old(waiters), TicketsOf(old(responseMap), toRemove))
    {
      ghost var m0, t0, w0 := responseMap, responseTimeMap, waiters;
      assert forall id | id in m0 :: m0[id] in w0 && w0[m0[id]].Pending?;
      var rest := toRemove;
      while rest != {}
        invariant rest <= toRemove
        invariant Valid()
        invariant responseMap == m0 - (toRemove - rest)
        invariant responseTimeMap == t0 - (toRemove - rest)
        invariant waiters == CancelAll(w0, TicketsOf(m0, toRemove - rest))
        decreases rest
      {
        var requestId :| requestId in rest;
        ghost var done := toRemove - rest;
        ghost var before := waiters;
        assert requestId in responseMap <==> requestId in m0;
        Evict(requestId);
        CancelStep(w0, m0, done, requestId, before, waiters);
        DoneGrows(toRemove, rest, requestId);
        RemoveOneMore(m0, done, requestId);
        RemoveOneMore(t0, done, requestId);
        rest := rest - {requestId};
      }
      assert toRemove - rest == toRemove;
    }

    /** One round of the cleanup loop: `requestId` leaves both maps and its future,
        if it has one, is cancelled. */
    method Evict(requestId: string)
      requires Valid()
      modifies this
      ensures Valid()
      ensures nextTicket == old(nextTicket)
      ensures responseMap == old(responseMap) - {requestId}
      ensures responseTimeMap == old(responseTimeMap) - {requestId}
      ensures requestId in old(responseMap) ==>
        waiters == old(waiters)[old(responseMap)[requestId] := Cancel(old(waiters)[old(responseMap)[requestId]])]
      ensures requestId !in old(responseMap) ==> waiters == old(waiters)
    {
      var future := if requestId in responseMap then Some(responseMap[requestId]) else None;
      responseMap := responseMap - {requestId};
      responseTimeMap := responseTimeMap - {requestId};
      if future.Some? {
        waiters := waiters[future.value := Cancel(waiters[future.value])];
      }
    }

    /** `getPendingCount`: the number of registered ids. */
    method GetPendingCount() returns (n: nat)
      requires Valid()
      ensures n == |responseMap| && n == |responseTimeMap|
    {
      n := |responseMap|;
      assert responseMap.Keys == responseTimeMap.Keys;
    }

    /** `clear`: every registered future is cancelled and both maps are emptied. */
    method Clear()
      requires Valid()
      modifies this
      ensures Valid()
      ensures responseMap == map[] && responseTimeMap == map[]
      ensures waiters == CancelAll(old(waiters), TicketsOf(old(responseMap), old(responseMap).Keys))
    {
      waiters := CancelAll(waiters, TicketsOf(responseMap, responseMap.Keys));
      responseMap := map[];
      responseTimeMap := map[];
    }
  }

  /** Removing a key shrinks a map by one exactly when the key was there. */
  lemma RemoveOneCard<V>(m: map<string, V>, id: string)
    ensures id in m ==> |m - {id}| == |m| - 1
    ensures id !in m ==> m - {id} == m
  {
    if id in m {
      assert (m - {id}).Keys == m.Keys - {id};
    }
  }

  /** Taking one more id out of the ids still to remove adds it to those removed. */
  lemma DoneGrows(toRemove: set<string>, rest: set<string>, id: string)
    requires id in rest && rest <= toRemove
    ensures toRemove - (rest - {id}) == (toRemove - rest) + {id}
  {
  }

  /** Removing a set and then one more key is removing the larger set. */
  lemma RemoveOneMore<V>(m: map<string, V>, done: set<string>, id: string)
    ensures m - (done + {id}) == (m - done) - {id}
  {
  }

  /** What the sweep keeps is no older than the timeout. */
  lemma OnlyYoungRemain(times: map<string, int>, timeoutSeconds: int, now: int)
    ensures forall id | id in times - Expired(times, timeoutSeconds, now) :: now - times[id] <= timeoutSeconds * 1000
  {
  }

  /** One round of the cleanup loop: cancelling the future of one more removed id is
      the same as cancelling the futures of the larger set of removed ids. */
  lemma CancelStep(w0: map<nat, WaiterState>, m0: map<string, nat>, done: set<string>, id: string,
                   before: map<nat, WaiterState>, after: map<nat, WaiterState>)
    requires before == CancelAll(w0, TicketsOf(m0, done))
    requires id in m0 ==> m0[id] in w0 && w0[m0[id]].Pending?
    requires id in m0 ==> after == before[m0[id] := Cancel(before[m0[id]])]
    requires id !in m0 ==> after == before
    ensures after == CancelAll(w0, TicketsOf(m0, done + {id}))
  {
    var goal := CancelAll(w0, TicketsOf(m0, done + {id}));
    assert TicketsOf(m0, done + {id}) == TicketsOf(m0, done) + (if id in m0 then {m0[id]} else {});
    assert after.Keys == goal.Keys;
    forall t | t in after ensures after[t] == goal[t] {
      if id in m0 && t == m0[id] {
        assert after[t] == Cancelled;
      }
    }
  }
}
