/** The client session cache: a map of sessions and a recency list, kept in step. */
module Sessions {

  import opened RaftTypes

  /** Result of a session's last command; its contents do not matter here. */
  datatype Session = Session(lastSeq: nat, lastResult: string, lastActive: nat)

  predicate NoRepeats(list: seq<nat>) {
    forall i, j :: 0 <= i < j < |list| ==> list[i] != list[j]
  }

  /** Most recently active first. */
  predicate ByRecency(list: seq<nat>, sessions: map<nat, Session>) {
    forall i, j :: 0 <= i < j < |list| && list[i] in sessions && list[j] in sessions ==>
      sessions[list[i]].lastActive >= sessions[list[j]].lastActive
  }

  ghost predicate Listed(list: seq<nat>, sessions: map<nat, Session>) {
    NoRepeats(list) && forall id :: id in list <==> id in sessions
  }

  predicate Expired(s: Session, now: nat, ttl: nat) {
    now >= s.lastActive && now - s.lastActive >= ttl
  }

  /** The sessions still fresh at `now`. */
  function Fresh(sessions: map<nat, Session>, now: nat, ttl: nat): map<nat, Session> {
    map id | id in sessions && !Expired(sessions[id], now, ttl) :: sessions[id]
  }

  lemma {:induction false} WithoutKeepsOrder(list: seq<nat>, x: nat, sessions: map<nat, Session>)
    requires NoRepeats(list) && ByRecency(list, sessions)
    ensures NoRepeats(Without(list, x)) && ByRecency(Without(list, x), sessions)
    decreases |list|
  {
    if list != [] {
      var tail := Without(list[1..], x);
      assert NoRepeats(list[1..]) && ByRecency(list[1..], sessions);
      WithoutKeepsOrder(list[1..], x, sessions);
      if list[0] != x {
        forall j | 0 <= j < |tail| ensures list[0] != tail[j] && (list[0] in sessions && tail[j] in sessions ==>
                                             sessions[list[0]].lastActive >= sessions[tail[j]].lastActive) {
          assert tail[j] in tail;
          var k :| 0 <= k < |list[1..]| && list[1..][k] == tail[j];
          assert list[k + 1] == tail[j];
        }
      }
    }
  }

  /** Moving the session that is active now to the front keeps both orders. */
  lemma TouchKeepsOrder(list: seq<nat>, sessions: map<nat, Session>, id: nat, s: Session)
    requires NoRepeats(list) && ByRecency(list, sessions)
    requires forall i :: i in sessions ==> sessions[i].lastActive <= s.lastActive
    ensures var list', sessions' := [id] + Without(list, id), sessions[id := s];
            NoRepeats(list') && ByRecency(list', sessions')
  {
    WithoutKeepsOrder(list, id, sessions);
    var rest := Without(list, id);
    assert forall j :: 0 <= j < |rest| ==> rest[j] in rest;
  }

  lemma DropLast(list: seq<nat>, sessions: map<nat, Session>)
    requires Listed(list, sessions) && ByRecency(list, sessions) && list != []
    ensures var n := |list| - 1;
            Listed(list[..n], sessions - {list[n]}) && ByRecency(list[..n], sessions - {list[n]})
  {
    var n := |list| - 1;
    assert list == list[..n] + [list[n]] && list[n] !in list[..n];
  }

  class ClientSessionManager {
    const maxSessions: nat            // 0: no limit
    const ttl: nat                    // 0: no expiry
    var lru: seq<nat>
    var sessions: map<nat, Session>
    ghost var clock: nat              // the last time read

    ghost predicate Valid()
      reads this
    {
      && Listed(lru, sessions) && ByRecency(lru, sessions)
      && (forall id :: id in sessions ==> sessions[id].lastActive <= clock)
      && (maxSessions > 0 ==> |lru| <= maxSessions)
    }

    constructor (maxSessions: nat, ttl: nat)
      ensures Valid() && sessions == map[] && clock == 0
    {
      this.maxSessions, this.ttl, lru, sessions, clock := maxSessions, ttl, [], map[], 0;
    }

    method Touch(id: nat, now: nat)
      requires Valid() && id in sessions && clock <= now
      modifies this
      ensures Valid() && clock == now && sessions == old(sessions)[id := old(sessions)[id].(lastActive := now)]
      ensures lru == [id] + Without(old(lru), id)
    {
      ToFront(id, sessions[id].(lastActive := now), now);
    }

    /** A duplicate exactly when the session is retained and the number is not new. */
    method IsDuplicate(id: nat, seqNum: nat, now: nat) returns (cached: Option<string>)
      requires Valid() && clock <= now
      modifies this
      ensures Valid() && clock == now
      ensures cached == if id in old(sessions) && seqNum <= old(sessions)[id].lastSeq
                        then Some(old(sessions)[id].lastResult) else None
      ensures sessions == if id in old(sessions) then old(sessions)[id := old(sessions)[id].(lastActive := now)]
                          else old(sessions)
    {
      cached := None;
      if id !in sessions {
        clock := now;
        return;
      }
      var entry := sessions[id];
      Touch(id, now);
      if seqNum <= entry.lastSeq {
        cached := Some(entry.lastResult);
      }
    }

    /** Records a result; at capacity a new session pushes out the least recent one. */
    method RecordResult(id: nat, seqNum: nat, result: string, now: nat)
      requires Valid() && clock <= now
      modifies this
      ensures Valid() && clock == now
      ensures id in sessions && sessions[id] == Session(seqNum, result, now)
      ensures var full := id !in old(sessions) && maxSessions > 0 && |old(lru)| >= maxSessions;
              sessions - {id} == (if full then old(sessions) - {old(lru)[|old(lru)| - 1]} else old(sessions)) - {id}
    {
      if id !in sessions && maxSessions > 0 && |lru| >= maxSessions {
        EvictLRU();
      }
      ToFront(id, Session(seqNum, result, now), now);
    }

    /** The session, known or new, goes to the front of the list. */
    method ToFront(id: nat, s: Session, now: nat)
      requires Valid() && clock <= now == s.lastActive && (id in sessions || maxSessions == 0 || |lru| < maxSessions)
      modifies this
      ensures Valid() && clock == now && sessions == old(sessions)[id := s] && lru == [id] + Without(old(lru), id)
    {
      TouchKeepsOrder(lru, sessions, id, s);
      lru, sessions, clock := [id] + Without(lru, id), sessions[id := s], now;
    }

    method EvictLRU()
      requires Valid() && lru != []
      modifies this
      ensures Valid() && clock == old(clock) && lru == old(lru)[..|old(lru)| - 1]
      ensures sessions == old(sessions) - {old(lru)[|old(lru)| - 1]}
    {
      DropLast(lru, sessions);
      var last := lru[|lru| - 1];
      sessions, lru := sessions - {last}, lru[..|lru| - 1];
    }

    /** Walks from the least recent end and removes exactly the expired sessions: a tail of the list. */
    method EvictExpired(now: nat) returns (removed: nat)
      requires Valid() && clock <= now
      modifies this
      ensures Valid() && sessions == if ttl == 0 then old(sessions) else Fresh(old(sessions), now, ttl)
      ensures lru <= old(lru) && removed == |old(lru)| - |lru|
    {
      removed := 0;
      if ttl == 0 {
        return;
      }
      removed := TrimExpired(now);
      clock := now;
      TrimmedIsFresh(old(lru), old(sessions), lru, sessions, now, ttl);
    }

    method TrimExpired(now: nat) returns (removed: nat)
      requires Valid() && clock <= now
      modifies this`lru, this`sessions
      ensures removed == |old(lru)| - |lru| && Trimmed(old(lru), old(sessions), lru, sessions, 0, now, ttl)
    {
      removed := 0;
      var i := |lru|;
      while i > 0
        invariant 0 <= i <= |lru| && removed == |old(lru)| - |lru|
        invariant Trimmed(old(lru), old(sessions), lru, sessions, i, now, ttl)
      {
        i := i - 1;
        var id := lru[i];
        if Expired(sessions[id], now, ttl) {
          TrimOne(old(lru), old(sessions), lru, sessions, i, now, ttl);
          sessions, lru := sessions - {id}, lru[..i] + lru[i + 1..];
          removed := removed + 1;
        }
      }
    }
  }

  /** Expired sessions so far removed from the end; what is listed from `i` on is fresh. */
  ghost predicate Trimmed(lru0: seq<nat>, sessions0: map<nat, Session>, lru: seq<nat>, sessions: map<nat, Session>,
                          i: nat, now: nat, ttl: nat) {
    && lru <= lru0 && Listed(lru, sessions) && ByRecency(lru, sessions)
    && (forall j :: i <= j < |lru| ==> !Expired(sessions[lru[j]], now, ttl))
    && (forall id :: id in sessions ==> id in sessions0 && sessions[id] == sessions0[id])
    && (forall id :: id in sessions0 && id !in sessions ==> Expired(sessions0[id], now, ttl))
  }

  /** The next expired session is the last of the list. */
  lemma TrimOne(lru0: seq<nat>, sessions0: map<nat, Session>, lru: seq<nat>, sessions: map<nat, Session>, i: nat,
                now: nat, ttl: nat)
    requires Trimmed(lru0, sessions0, lru, sessions, i + 1, now, ttl)
    requires i < |lru| && Expired(sessions[lru[i]], now, ttl)
    ensures Trimmed(lru0, sessions0, lru[..i] + lru[i + 1..], sessions - {lru[i]}, i, now, ttl)
    ensures i + 1 == |lru|
  {
    OlderAreExpired(lru, sessions, i, now, ttl);
    assert Expired(sessions[lru[|lru| - 1]], now, ttl);
    DropLast(lru, sessions);
    assert lru[..i] + lru[i + 1..] == lru[..|lru| - 1];
  }

  lemma TrimmedIsFresh(lru0: seq<nat>, sessions0: map<nat, Session>, lru: seq<nat>, sessions: map<nat, Session>,
                       now: nat, ttl: nat)
    requires Trimmed(lru0, sessions0, lru, sessions, 0, now, ttl)
    ensures sessions == Fresh(sessions0, now, ttl)
  {
    forall id | id in sessions ensures !Expired(sessions[id], now, ttl) {
      var j :| 0 <= j < |lru| && lru[j] == id;
    }
  }

  /** Whoever is listed behind an expired session is expired too. */
  lemma OlderAreExpired(lru: seq<nat>, sessions: map<nat, Session>, i: nat, now: nat, ttl: nat)
    requires Listed(lru, sessions) && ByRecency(lru, sessions) && i < |lru| && Expired(sessions[lru[i]], now, ttl)
    ensures forall j :: i <= j < |lru| ==> Expired(sessions[lru[j]], now, ttl)
  {
  }
}
