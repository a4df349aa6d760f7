/** `ConnectionManager` of the REST/WebSocket wrapper
    (mcp_http_wrapper_fixed.py): a list of live WebSockets that `connect`
    appends to, `disconnect` removes from, and `broadcast` prunes of the
    sockets whose send fails, while iterating over that same list. */
module HttpConnections {

  /** A WebSocket, by identity. */
  datatype Socket = Socket(id: nat)

  /** `if x in s: s.remove(x)`: the first occurrence of `x` is dropped. */
  function RemoveFirst(s: seq<Socket>, x: Socket): (r: seq<Socket>)
    ensures x in s ==> |r| == |s| - 1
    ensures x !in s ==> r == s
  {
    if s == [] then []
    else if s[0] == x then s[1..]
    else [s[0]] + RemoveFirst(s[1..], x)
  }

  /** Removing a listed socket takes exactly one of its entries away. */
  lemma {:induction false} RemoveFirstTakesOne(s: seq<Socket>, x: Socket)
    requires x in s
    ensures multiset(RemoveFirst(s, x)) + multiset{x} == multiset(s)
  {
    assert s == [s[0]] + s[1..];
    if s[0] != x {
      RemoveFirstTakesOne(s[1..], x);
    }
  }

  /** The sockets of `visited` whose send failed, in order. */
  function Failed(visited: seq<Socket>, fails: Socket -> bool): seq<Socket>
  {
    if visited == [] then []
    else (if fails(visited[0]) then [visited[0]] else []) + Failed(visited[1..], fails)
  }

  /** The sockets of `s` whose send succeeds, in order. */
  function Surviving(s: seq<Socket>, fails: Socket -> bool): seq<Socket>
  {
    if s == [] then []
    else
      var last := s[|s| - 1];
      Surviving(s[..|s| - 1], fails) + (if fails(last) then [] else [last])
  }

  lemma SurvivingSnoc(p: seq<Socket>, c: Socket, fails: Socket -> bool)
    ensures Surviving(p + [c], fails) == Surviving(p, fails) + (if fails(c) then [] else [c])
  {
    assert (p + [c])[..|p|] == p;
  }

  /** The sends that succeed when `message` goes to the sockets of `visited`
      in order. */
  function Deliveries(visited: seq<Socket>, fails: Socket -> bool, message: string): seq<(Socket, string)>
  {
    if visited == [] then []
    else
      var last := visited[|visited| - 1];
      Deliveries(visited[..|visited| - 1], fails, message) + (if fails(last) then [] else [(last, message)])
  }

  /** The `for` loop of broadcast, run from position i of the list `s`: the
      loop keeps an index, reads `s[i]`, advances, and stops once the index
      reaches the list's current length, while a failed send removes the
      socket from the list it is walking. Returns the list at the end and the
      sockets visited, in order. What is removed is exactly the failed visits. */
  function Sweep(s: seq<Socket>, i: nat, fails: Socket -> bool): (r: (seq<Socket>, seq<Socket>))
    decreases |s| - i
  {
    if i >= |s| then (s, [])
    else
      var c := s[i];
      var t := Sweep(if fails(c) then RemoveFirst(s, c) else s, i + 1, fails);
      (t.0, [c] + t.1)
  }

  /** The walk removes exactly the sockets whose send failed, one entry
      each, and nothing else. */
  lemma {:induction false} SweepRemovesFailed(s: seq<Socket>, i: nat, fails: Socket -> bool)
    ensures var r := Sweep(s, i, fails);
            multiset(r.0) + multiset(Failed(r.1, fails)) == multiset(s)
    decreases |s| - i
  {
    if i < |s| {
      var c := s[i];
      var next := if fails(c) then RemoveFirst(s, c) else s;
      var t := Sweep(next, i + 1, fails);
      SweepStep(s, i, fails);
      SweepRemovesFailed(next, i + 1, fails);
      FailedCons(c, t.1, fails);
      if fails(c) {
        RemoveFirstTakesOne(s, c);
      }
      CountStep(t.0, Failed(t.1, fails), next, s, c, fails(c));
    }
  }

  /** The multiset bookkeeping of one step of the walk. */
  lemma CountStep(kept: seq<Socket>, failedLater: seq<Socket>, next: seq<Socket>, s: seq<Socket>,
                  c: Socket, removed: bool)
    requires multiset(kept) + multiset(failedLater) == multiset(next)
    requires removed ==> multiset(next) + multiset{c} == multiset(s)
    requires !removed ==> next == s
    ensures multiset(kept) + multiset((if removed then [c] else []) + failedLater) == multiset(s)
  {
    assert multiset((if removed then [c] else []) + failedLater)
        == multiset(if removed then [c] else []) + multiset(failedLater);
  }

  lemma FailedCons(c: Socket, visited: seq<Socket>, fails: Socket -> bool)
    ensures Failed([c] + visited, fails) == (if fails(c) then [c] else []) + Failed(visited, fails)
  {
    assert ([c] + visited)[1..] == visited;
  }

  /** `broadcast` never adds an entry to the list. */
  lemma SweepNeverAdds(s: seq<Socket>, fails: Socket -> bool)
    ensures multiset(Sweep(s, 0, fails).0) <= multiset(s)
  {
    SweepRemovesFailed(s, 0, fails);
  }

  /** `broadcast` never removes an entry of a socket whose send succeeds: it
      keeps every one of them. */
  lemma SweepKeepsHealthy(s: seq<Socket>, fails: Socket -> bool, c: Socket)
    requires !fails(c)
    ensures multiset(Sweep(s, 0, fails).0)[c] == multiset(s)[c]
  {
    var r := Sweep(s, 0, fails);
    SweepRemovesFailed(s, 0, fails);
    FailedOnlyFailing(r.1, fails, c);
  }

  lemma {:induction false} FailedOnlyFailing(visited: seq<Socket>, fails: Socket -> bool, c: Socket)
    requires !fails(c)
    ensures c !in Failed(visited, fails)
  {
    if visited != [] {
      FailedOnlyFailing(visited[1..], fails, c);
    }
  }

  /** The survivors of the snapshot loop are exactly the listed sockets whose
      send succeeds. */
  lemma {:induction false} SurvivingExactly(s: seq<Socket>, fails: Socket -> bool, c: Socket)
    ensures c in Surviving(s, fails) <==> c in s && !fails(c)
  {
    if s != [] {
      var init := s[..|s| - 1];
      SurvivingExactly(init, fails, c);
      assert s == init + [s[|s| - 1]];
    }
  }

  /** Iterating the list while removing from it skips the socket after each
      removed one: with [a, b] and the send to a failing, a is removed and b
      is never tried, so it is not sent the message and, when its own
      transport is dead as well, stays listed. */
  lemma SkipsSocketAfterRemoved(a: Socket, b: Socket, fails: Socket -> bool)
    requires a != b && fails(a)
    ensures Sweep([a, b], 0, fails) == ([b], [a])
  {
    assert [a, b][0] == a && [a, b][1..] == [b];
    assert RemoveFirst([a, b], a) == [b];
    assert Sweep([b], 1, fails) == ([b], []);
    assert [a] + [] == [a];
  }

  /** One step of the walk: the socket at the index is visited, and removed
      when its send fails. */
  lemma SweepStep(s: seq<Socket>, i: nat, fails: Socket -> bool)
    requires i < |s|
    ensures var next := if fails(s[i]) then RemoveFirst(s, s[i]) else s;
            Sweep(s, i, fails) == (Sweep(next, i + 1, fails).0, [s[i]] + Sweep(next, i + 1, fails).1)
  {
  }

  /** Visiting one more socket adds its delivery, if its send succeeds. */
  lemma DeliveriesSnoc(visited: seq<Socket>, c: Socket, fails: Socket -> bool, message: string)
    ensures Deliveries(visited + [c], fails, message)
            == Deliveries(visited, fails, message) + (if fails(c) then [] else [(c, message)])
  {
    assert (visited + [c])[..|visited|] == visited;
  }

  lemma {:induction false} RemoveFirstAfter(p: seq<Socket>, x: Socket, q: seq<Socket>)
    requires x !in p
    ensures RemoveFirst(p + ([x] + q), x) == p + q
  {
    var s := p + ([x] + q);
    if p == [] {
      assert s == [x] + q;
    } else {
      assert s[0] == p[0] && p[0] != x;
      assert s[1..] == p[1..] + ([x] + q);
      RemoveFirstAfter(p[1..], x, q);
      assert p + q == [p[0]] + (p[1..] + q);
    }
  }

  class ConnectionManager {
    var active: seq<Socket>
    /** Every send the transports accepted, oldest first. */
    var delivered: seq<(Socket, string)>

    constructor()
      ensures active == [] && delivered == []
    {
      active, delivered := [], [];
    }

    /** `connect`: one entry appended, whether or not the socket is already listed. */
    method Connect(ws: Socket)
      modifies this
      ensures active == old(active) + [ws] && delivered == old(delivered)
    {
      active := active + [ws];
    }

    /** `disconnect`: the first entry for the socket removed, or nothing
      when it is not listed. */
    method Disconnect(ws: Socket)
      modifies this
      ensures active == RemoveFirst(old(active), ws) && delivered == old(delivered)
    {
      if ws in active {
        active := RemoveFirst(active, ws);
      }
    }

    /** `broadcast` as written: the list ends as the index-based walk over
      the shrinking list leaves it, and exactly the visited sockets whose
      send succeeded received the message. */
    method Broadcast(message: string, fails: Socket -> bool)
      modifies this
      ensures active == Sweep(old(active), 0, fails).0
      ensures delivered == old(delivered) + Deliveries(Sweep(old(active), 0, fails).1, fails, message)
    {
      var i := 0;
      ghost var visited: seq<Socket> := [];
      ghost var kept, tried := Sweep(active, 0, fails).0, Sweep(active, 0, fails).1;
      assert visited + tried == tried;
      while i < |active|
        invariant kept == Sweep(active, i, fails).0
        invariant tried == visited + Sweep(active, i, fails).1
        invariant delivered == old(delivered) + Deliveries(visited, fails, message)
        decreases |active| + 1 - i
      {
        var connection := active[i];
        BroadcastStep(active, i, fails, if fails(connection) then RemoveFirst(active, connection) else active,
                      kept, tried, visited);
        DeliveriesSnoc(visited, connection, fails, message);
        i := i + 1;
        if fails(connection) {
          Disconnect(connection);
        } else {
          delivered := delivered + [(connection, message)];
        }
        visited := visited + [connection];
      }
      assert Sweep(active, i, fails) == (active, []);
      assert visited + [] == visited;
    }

    /** `broadcast` over a copy of the list (`for c in list(...)`): every
      socket is tried once, every failing one is removed and every other one
      receives the message. */
    method BroadcastSnapshot(message: string, fails: Socket -> bool)
      modifies this
      ensures active == Surviving(old(active), fails)
      ensures delivered == old(delivered) + Deliveries(old(active), fails, message)
    {
      var snapshot := active;
      for i := 0 to |snapshot|
        invariant active == Surviving(snapshot[..i], fails) + snapshot[i..]
        invariant delivered == old(delivered) + Deliveries(snapshot[..i], fails, message)
      {
        var connection := snapshot[i];
        PrefixSnoc(snapshot, i);
        SnapshotStep(snapshot[..i], connection, snapshot[i + 1..], fails, active);
        DeliveriesSnoc(snapshot[..i], connection, fails, message);
        if fails(connection) {
          Disconnect(connection);
        } else {
          delivered := delivered + [(connection, message)];
        }
      }
      assert snapshot[..|snapshot|] == snapshot;
    }
  }

  /** One iteration of the loop of `broadcast` as written, on the values it
      works with: `kept` and `tried` are the list and the visits the whole
      walk ends with, and `next` is the list after the visit of `active[i]`. */
  lemma BroadcastStep(active: seq<Socket>, i: nat, fails: Socket -> bool, next: seq<Socket>,
                      kept: seq<Socket>, tried: seq<Socket>, visited: seq<Socket>)
    requires i < |active|
    requires next == if fails(active[i]) then RemoveFirst(active, active[i]) else active
    requires kept == Sweep(active, i, fails).0 && tried == visited + Sweep(active, i, fails).1
    ensures kept == Sweep(next, i + 1, fails).0
    ensures tried == (visited + [active[i]]) + Sweep(next, i + 1, fails).1
  {
    var t := Sweep(next, i + 1, fails);
    SweepStep(active, i, fails);
    assert visited + ([active[i]] + t.1) == (visited + [active[i]]) + t.1;
  }

  lemma PrefixSnoc(s: seq<Socket>, i: nat)
    requires i < |s|
    ensures s[..i + 1] == s[..i] + [s[i]]
    ensures s[i..] == [s[i]] + s[i + 1..]
  {
  }

  /** One iteration of the snapshot loop on the list it works on: the
      survivors of the sockets tried so far, then `c`, then the rest. */
  lemma SnapshotStep(tried: seq<Socket>, c: Socket, rest: seq<Socket>, fails: Socket -> bool,
                     active: seq<Socket>)
    requires active == Surviving(tried, fails) + ([c] + rest)
    ensures fails(c) ==> RemoveFirst(active, c) == Surviving(tried + [c], fails) + rest
    ensures !fails(c) ==> active == Surviving(tried + [c], fails) + rest
  {
    SurvivingSnoc(tried, c, fails);
    var p := Surviving(tried, fails);
    if fails(c) {
      SurvivingExactly(tried, fails, c);
      RemoveFirstAfter(p, c, rest);
      assert Surviving(tried + [c], fails) == p + [];
      assert p + [] == p;
    } else {
      assert active == (p + [c]) + rest;
    }
  }
}
