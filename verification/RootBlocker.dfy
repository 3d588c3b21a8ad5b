/** The walk from a waiting session to the session at the root of its blocking chain. */
module RootBlocker {
  import opened Sorting

  datatype Session = Session(pid: int, blockedBy: seq<int>)

  /** Who blocks each sampled session. */
  type Graph = map<int, seq<int>>

  function Blockers(g: Graph, pid: int): seq<int> {
    if pid in g then g[pid] else []
  }

  /** Nothing is known to block the session: it is not blocked, or not in the sample. */
  predicate Root(g: Graph, pid: int) {
    Blockers(g, pid) == []
  }

  /** The last entry of a session counts. */
  function ByPid(nodes: seq<Session>): Graph {
    if nodes == [] then map[] else ByPid(nodes[..|nodes| - 1])[nodes[|nodes| - 1].pid := nodes[|nodes| - 1].blockedBy]
  }

  // ---- blocking chains ----

  type Chain = seq<int>

  /** A chain from the waiter on: each session is blocked by the next one. */
  predicate IsChain(g: Graph, waiter: int, c: Chain) {
    c != [] && c[0] == waiter && forall i :: 0 <= i < |c| - 1 ==> c[i + 1] in Blockers(g, c[i])
  }

  function End(c: Chain): int
    requires c != []
  {
    c[|c| - 1]
  }

  predicate DiffersAt(a: Chain, b: Chain, k: nat) {
    k < |a| && k < |b| && a[..k] == b[..k] && a[k] < b[k]
  }

  /** The chain is shorter, or as long and lower at the first session in which they differ. */
  ghost predicate Nearer(a: Chain, b: Chain) {
    |a| < |b| || (|a| == |b| && exists k: nat :: DiffersAt(a, b, k))
  }

  ghost predicate NotFarther(a: Chain, b: Chain) {
    a == b || Nearer(a, b)
  }

  lemma NearerTransitive(a: Chain, b: Chain, c: Chain)
    requires Nearer(a, b) && Nearer(b, c)
    ensures Nearer(a, c)
  {
    if |a| == |c| {
      var j: nat :| DiffersAt(a, b, j);
      var k: nat :| DiffersAt(b, c, k);
      var m := if j < k then j else k;
      assert a[..m] == a[..j][..m] && b[..m] == b[..j][..m] && b[..m] == b[..k][..m] && c[..m] == c[..k][..m];
      assert a[m] <= b[m] <= c[m] by {
        assert m < j ==> a[..j][m] == b[..j][m];
        assert m < k ==> b[..k][m] == c[..k][m];
      }
      assert DiffersAt(a, c, m);
    }
  }

  /** One more link on both sides keeps the order. */
  lemma NearerExtended(a: Chain, b: Chain, x: int, y: int)
    requires Nearer(a, b)
    ensures Nearer(a + [x], b + [y])
  {
    if |a| == |b| {
      var k: nat :| DiffersAt(a, b, k);
      assert (a + [x])[..k] == a[..k] && (b + [y])[..k] == b[..k];
      assert DiffersAt(a + [x], b + [y], k);
    }
  }

  lemma NearerLast(a: Chain, x: int, y: int)
    requires x < y
    ensures Nearer(a + [x], a + [y])
  {
    assert (a + [x])[..|a|] == a && (a + [y])[..|a|] == a;
    assert DiffersAt(a + [x], a + [y], |a|);
  }

  lemma NotNearerBack(a: Chain, b: Chain)
    requires Nearer(a, b)
    ensures a != b && !Nearer(b, a)
  {
    if Nearer(b, a) { NearerTransitive(a, b, a); }
  }

  lemma ChainGrows(g: Graph, waiter: int, c: Chain, b: int)
    requires IsChain(g, waiter, c) && b in Blockers(g, End(c))
    ensures IsChain(g, waiter, c + [b]) && End(c + [b]) == b
  {}

  // ---- breadth first ----

  /** The chain by which each session was met. */
  type Chains = map<int, Chain>

  ghost predicate Measured(g: Graph, waiter: int, met: Chains) {
    && waiter in met && met[waiter] == [waiter]
    && forall p :: p in met ==> IsChain(g, waiter, met[p]) && End(met[p]) == p
  }

  /** The sessions to look at: the nearer ones first, and each met from a session nearer than the first. */
  ghost predicate Queued(queue: seq<int>, met: Chains) {
    && (forall i :: 0 <= i < |queue| ==> queue[i] in met && met[queue[i]] != [])
    && (forall i, j :: 0 <= i < j < |queue| ==> Nearer(met[queue[i]], met[queue[j]]))
    && (forall i :: 0 <= i < |queue| ==> Upstream(met[queue[i]], met[queue[0]]))
  }

  /** All of a chain but its end is nearer than the other chain. */
  ghost predicate Upstream(c: Chain, head: Chain)
    requires c != []
  {
    |c| == 1 || Nearer(c[..|c| - 1], head)
  }

  /** A session that was looked at: it is no root, and all its blockers were met by chains no farther than its own. */
  ghost predicate Done(g: Graph, waiter: int, met: Chains, p: int)
    requires p in met
  {
    && (p == waiter || !Root(g, p))
    && forall b :: b in Blockers(g, p) ==> b in met && NotFarther(met[b], met[p] + [b])
  }

  ghost predicate Settled(g: Graph, waiter: int, queue: seq<int>, met: Chains) {
    && (forall p :: p in met && p !in queue ==> Done(g, waiter, met, p))
    && (forall p :: p in met && p !in queue && queue != [] && queue[0] in met ==> Nearer(met[p], met[queue[0]]))
  }

  ghost predicate Walk(g: Graph, waiter: int, queue: seq<int>, met: Chains) {
    Measured(g, waiter, met) && Queued(queue, met) && Settled(g, waiter, queue, met)
  }

  lemma HeadIsNearest(queue: seq<int>, met: Chains, q: int)
    requires Queued(queue, met) && q in queue
    ensures queue[0] in met && q in met && NotFarther(met[queue[0]], met[q]) && met[q] != []
    ensures Upstream(met[q], met[queue[0]])
  {
    var i :| 0 <= i < |queue| && queue[i] == q;
  }

  lemma NotFartherThen(a: Chain, b: Chain, c: Chain)
    requires NotFarther(a, b) && Nearer(b, c)
    ensures Nearer(a, c)
  {
    if a != b { NearerTransitive(a, b, c); }
  }

  lemma NotFartherBoth(a: Chain, b: Chain, c: Chain)
    requires NotFarther(a, b) && NotFarther(b, c)
    ensures NotFarther(a, c)
  {
    if a != b && b != c { NearerTransitive(a, b, c); }
  }

  /** Every chain ends at a session met by a chain no farther, or is farther than the head of the queue. */
  lemma {:induction false} ChainIsCovered(g: Graph, waiter: int, queue: seq<int>, met: Chains, c: Chain)
    requires Walk(g, waiter, queue, met) && IsChain(g, waiter, c)
    ensures (End(c) in met && NotFarther(met[End(c)], c)) || (queue != [] && Nearer(met[queue[0]], c))
    decreases |c|
  {
    if |c| == 1 {
      assert c == [waiter];
    } else {
      var front, b := c[..|c| - 1], End(c);
      assert c == front + [b] && IsChain(g, waiter, front);
      ChainIsCovered(g, waiter, queue, met, front);
      if queue != [] && Nearer(met[queue[0]], front) {
        NearerTransitive(met[queue[0]], front, c);
      } else {
        CoveredOn(g, waiter, queue, met, front, b);
      }
    }
  }

  lemma CoveredOn(g: Graph, waiter: int, queue: seq<int>, met: Chains, front: Chain, b: int)
    requires Walk(g, waiter, queue, met) && IsChain(g, waiter, front) && b in Blockers(g, End(front))
    requires End(front) in met && NotFarther(met[End(front)], front)
    ensures (b in met && NotFarther(met[b], front + [b])) || (queue != [] && Nearer(met[queue[0]], front + [b]))
  {
    var p := End(front);
    if p in queue {
      HeadIsNearest(queue, met, p);
      NotFartherBoth(met[queue[0]], met[p], front);
      NotFartherThen(met[queue[0]], front, front + [b]);
    } else {
      assert Done(g, waiter, met, p);
      if met[p] != front { NearerExtended(met[p], front, b, b); }
      NotFartherBoth(met[b], met[p] + [b], front + [b]);
    }
  }

  /** The chain leads from the waiter to another session that is a root. */
  predicate ReachesRoot(g: Graph, waiter: int, c: Chain) {
    IsChain(g, waiter, c) && End(c) != waiter && Root(g, End(c))
  }

  /** Of all chains that lead to a root, this one is the nearest. */
  ghost predicate NearestRoot(g: Graph, waiter: int, c: Chain) {
    ReachesRoot(g, waiter, c) && forall d :: ReachesRoot(g, waiter, d) ==> NotFarther(c, d)
  }

  /** There is one nearest chain, so the root is determined. */
  lemma NearestRootUnique(g: Graph, waiter: int, c: Chain, d: Chain)
    requires NearestRoot(g, waiter, c) && NearestRoot(g, waiter, d)
    ensures c == d
  {
    if c != d {
      NotNearerBack(c, d);
    }
  }

  lemma HeadIsNearestRoot(g: Graph, waiter: int, queue: seq<int>, met: Chains)
    requires Walk(g, waiter, queue, met) && queue != [] && queue[0] != waiter && Root(g, queue[0])
    ensures NearestRoot(g, waiter, met[queue[0]])
  {
    var head := met[queue[0]];
    forall d | ReachesRoot(g, waiter, d) ensures NotFarther(head, d) {
      ChainIsCovered(g, waiter, queue, met, d);
      if !Nearer(head, d) {
        RootIsQueued(g, waiter, queue, met, End(d));
        HeadIsNearest(queue, met, End(d));
        NotFartherBoth(head, met[End(d)], d);
      }
    }
  }

  lemma RootIsQueued(g: Graph, waiter: int, queue: seq<int>, met: Chains, p: int)
    requires Walk(g, waiter, queue, met) && p in met && p != waiter && Root(g, p)
    ensures p in queue
  {}

  lemma NothingLeft(g: Graph, waiter: int, met: Chains, d: Chain)
    requires Walk(g, waiter, [], met)
    ensures !ReachesRoot(g, waiter, d)
  {
    if ReachesRoot(g, waiter, d) {
      ChainIsCovered(g, waiter, [], met, d);
    }
  }

  // ---- one step of the walk ----

  function Met(met: Chains, more: seq<int>, head: Chain): Chains {
    met + map b | b in more :: head + [b]
  }

  predicate Increasing(pids: seq<int>) {
    forall i, j :: 0 <= i < j < |pids| ==> pids[i] < pids[j]
  }

  /** The new blockers of the head of the queue, in order. */
  ghost predicate NewOnes(g: Graph, p: int, met: Chains, more: seq<int>) {
    Increasing(more) && forall b :: b in more <==> b in Blockers(g, p) && b !in met
  }

  lemma MeasuredOn(g: Graph, waiter: int, p: int, met: Chains, more: seq<int>)
    requires Measured(g, waiter, met) && p in met && NewOnes(g, p, met, more)
    ensures Measured(g, waiter, Met(met, more, met[p]))
  {
    forall b | b in more ensures IsChain(g, waiter, met[p] + [b]) && End(met[p] + [b]) == b {
      ChainGrows(g, waiter, met[p], b);
    }
  }

  /** What was queued behind the head comes before what the head brings. */
  lemma BehindHead(queue: seq<int>, met: Chains, i: nat, b: int)
    requires Queued(queue, met) && 0 < i < |queue|
    ensures Nearer(met[queue[i]], met[queue[0]] + [b])
  {
    var c, head := met[queue[i]], met[queue[0]];
    assert Upstream(c, head);
    if |c| > 1 {
      NearerExtended(c[..|c| - 1], head, End(c), b);
      assert c == c[..|c| - 1] + [End(c)];
    }
  }

  /** The chains of the queue once the head is replaced by what it brings. */
  ghost predicate Replaced(queue: seq<int>, met: Chains, more: seq<int>, next: seq<int>, after: Chains)
    requires queue != [] && queue[0] in met
  {
    && |next| == |queue| - 1 + |more|
    && (forall i :: 0 <= i < |next| ==> next[i] in after)
    && (forall i :: 0 <= i < |queue| - 1 ==> queue[i + 1] in met && after[next[i]] == met[queue[i + 1]])
    && (forall i :: |queue| - 1 <= i < |next| ==> after[next[i]] == met[queue[0]] + [more[i - |queue| + 1]])
  }

  lemma ReplacedBy(g: Graph, queue: seq<int>, met: Chains, more: seq<int>)
    requires queue != [] && Queued(queue, met) && NewOnes(g, queue[0], met, more)
    ensures Replaced(queue, met, more, queue[1..] + more, Met(met, more, met[queue[0]]))
  {
    var next := queue[1..] + more;
    forall i | 0 <= i < |queue| - 1 ensures next[i] == queue[i + 1] && next[i] in met && next[i] !in more {}
    forall i | |queue| - 1 <= i < |next| ensures next[i] == more[i - |queue| + 1] && next[i] in more {}
  }

  lemma Ordered(queue: seq<int>, met: Chains, more: seq<int>, next: seq<int>, after: Chains, i: nat, j: nat)
    requires queue != [] && Queued(queue, met) && Increasing(more) && Replaced(queue, met, more, next, after)
    requires i < j < |next|
    ensures next[i] in after && next[j] in after && Nearer(after[next[i]], after[next[j]])
  {
    var n := |queue| - 1;
    assert next[i] in after && next[j] in after;
    if n <= i {
      NearerLast(met[queue[0]], more[i - n], more[j - n]);
    } else if n <= j {
      BehindHead(queue, met, i + 1, more[j - n]);
    }
  }

  /** What the new queue holds is farther than the head was, but met from no farther. */
  lemma PastHead(queue: seq<int>, met: Chains, more: seq<int>, next: seq<int>, after: Chains, i: nat)
    requires queue != [] && Queued(queue, met) && Replaced(queue, met, more, next, after) && i < |next|
    ensures next[i] in after && after[next[i]] != [] && Nearer(met[queue[0]], after[next[i]])
    ensures |after[next[i]]| == 1 || NotFarther(after[next[i]][..|after[next[i]]| - 1], met[queue[0]])
  {
    if i < |queue| - 1 {
      assert Upstream(met[queue[i + 1]], met[queue[0]]);
    } else {
      assert after[next[i]][..|after[next[i]]| - 1] == met[queue[0]];
    }
  }

  /** The order of the queue once the head is replaced by what it brings. */
  lemma QueuedOn(queue: seq<int>, met: Chains, more: seq<int>, next: seq<int>, after: Chains)
    requires queue != [] && Queued(queue, met) && Increasing(more) && Replaced(queue, met, more, next, after)
    ensures Queued(next, after) && forall i :: 0 <= i < |next| ==> Nearer(met[queue[0]], after[next[i]])
  {
    forall i | 0 <= i < |next|
      ensures next[i] in after && after[next[i]] != [] && Nearer(met[queue[0]], after[next[i]])
    {
      PastHead(queue, met, more, next, after, i);
    }
    forall i, j | 0 <= i < j < |next| ensures Nearer(after[next[i]], after[next[j]]) {
      Ordered(queue, met, more, next, after, i, j);
    }
    forall i | 0 <= i < |next| ensures Upstream(after[next[i]], after[next[0]]) {
      PastHead(queue, met, more, next, after, i);
      var c := after[next[i]];
      if |c| > 1 { NotFartherThen(c[..|c| - 1], met[queue[0]], after[next[0]]); }
    }
  }

  /** The head has met all its blockers by chains no farther than its own. */
  lemma HeadDone(g: Graph, waiter: int, queue: seq<int>, met: Chains, more: seq<int>)
    requires queue != [] && Walk(g, waiter, queue, met) && NewOnes(g, queue[0], met, more)
    requires (queue[0] == waiter || !Root(g, queue[0]))
    ensures Done(g, waiter, Met(met, more, met[queue[0]]), queue[0])
  {
    var head, after := met[queue[0]], Met(met, more, met[queue[0]]);
    forall b | b in Blockers(g, queue[0]) ensures b in after && NotFarther(after[b], head + [b]) {
      if b in met {
        if b in queue {
          var i :| 0 <= i < |queue| && queue[i] == b;
          if i > 0 { BehindHead(queue, met, i, b); }
        } else {
          NearerTransitive(met[b], head, head + [b]);
        }
      }
    }
  }

  lemma NotNext(queue: seq<int>, more: seq<int>, p: int)
    requires queue != [] && p !in queue[1..] + more
    ensures p !in more && (p == queue[0] || p !in queue)
  {
    assert queue == [queue[0]] + queue[1..];
  }

  /** One session of the queue is done with: its blockers that are new go to the end. */
  lemma WalkOn(g: Graph, waiter: int, queue: seq<int>, met: Chains, more: seq<int>)
    requires Walk(g, waiter, queue, met) && queue != [] && (queue[0] == waiter || !Root(g, queue[0]))
    requires NewOnes(g, queue[0], met, more)
    ensures Walk(g, waiter, queue[1..] + more, Met(met, more, met[queue[0]]))
  {
    var head, next, after := met[queue[0]], queue[1..] + more, Met(met, more, met[queue[0]]);
    MeasuredOn(g, waiter, queue[0], met, more);
    ReplacedBy(g, queue, met, more);
    QueuedOn(queue, met, more, next, after);
    HeadDone(g, waiter, queue, met, more);
    forall p | p in after && p !in next ensures Done(g, waiter, after, p) && NotFarther(after[p], head) {
      NotNext(queue, more, p);
      assert p != queue[0] ==> Done(g, waiter, met, p);
    }
    forall p | p in after && p !in next && next != [] ensures Nearer(after[p], after[next[0]]) {
      NotFartherThen(after[p], head, after[next[0]]);
    }
  }

  // ---- the walk ----

  predicate Less(a: int, b: int) {
    a < b
  }

  method SortedPids(pids: seq<int>) returns (out: seq<int>)
    ensures SortedBy(Less, out) && multiset(out) == multiset(pids) && forall p :: p in out <==> p in pids
  {
    out := Sort(pids, Less);
    SortSorted(pids, Less);
  }

  method IndexByPid(nodes: seq<Session>) returns (g: Graph)
    ensures g == ByPid(nodes)
  {
    g := map[];
    for i := 0 to |nodes|
      invariant g == ByPid(nodes[..i])
    {
      assert nodes[..i + 1][..i] == nodes[..i];
      g := g[nodes[i].pid := nodes[i].blockedBy];
    }
    assert nodes[..|nodes|] == nodes;
  }

  /** Adds the blockers that are new to what has been seen, and lists them in order. */
  method NewBlockers(blockers: seq<int>, seen: set<int>) returns (more: seq<int>, now: set<int>)
    ensures Increasing(more) && (forall b :: b in more <==> b in blockers && b !in seen)
    ensures now == seen + set b | b in more
  {
    var sorted := SortedPids(blockers);
    more, now := [], seen;
    for i := 0 to |sorted|
      invariant Increasing(more) && (forall b :: b in more <==> b in sorted[..i] && b !in seen)
      invariant now == seen + set b | b in more
    {
      assert sorted[..i + 1] == sorted[..i] + [sorted[i]];
      if sorted[i] !in now {
        forall j | 0 <= j < |more| ensures more[j] < sorted[i] {
          assert more[j] in more;
          var k :| 0 <= k < i && sorted[k] == more[j];
          assert sorted[k] == sorted[i] || Less(sorted[k], sorted[i]);
        }
        now := now + {sorted[i]};
        more := more + [sorted[i]];
      }
    }
    assert sorted[..|sorted|] == sorted;
  }

  /** All sessions that any chain can meet. */
  function Everyone(g: Graph, waiter: int): set<int> {
    {waiter} + set p, b | p in g && b in g[p] :: b
  }

  method Least(pids: seq<int>) returns (least: int)
    requires pids != []
    ensures least in pids && forall p :: p in pids ==> least <= p
  {
    least := pids[0];
    for i := 1 to |pids|
      invariant least in pids[..i] && forall p :: p in pids[..i] ==> least <= p
    {
      assert pids[..i + 1] == pids[..i] + [pids[i]];
      if pids[i] < least {
        least := pids[i];
      }
    }
    assert pids[..|pids|] == pids;
  }

  lemma Progress(g: Graph, waiter: int, pid: int, seen: set<int>, more: seq<int>, now: set<int>)
    requires seen <= Everyone(g, waiter) && now == seen + (set b | b in more) && forall b :: b in more ==>
      b in Blockers(g, pid) && b !in seen
    ensures now <= Everyone(g, waiter)
    ensures if more == [] then now == seen else |Everyone(g, waiter) - now| < |Everyone(g, waiter) - seen|
  {
    forall b | b in more ensures b in Everyone(g, waiter) {
      assert pid in g && b in g[pid];
    }
    if more != [] {
      var before, after := Everyone(g, waiter) - seen, Everyone(g, waiter) - now;
      assert more[0] in before && more[0] !in after;
      assert before == after + (before - after);
    }
  }

  lemma WalkStart(g: Graph, waiter: int)
    ensures Walk(g, waiter, [waiter], map[waiter := [waiter]])
  {}

  /** Looks at the head of the queue, which is not a root. */
  method Visit(g: Graph, waiter: int, queue: seq<int>, seen: set<int>, ghost met: Chains)
    returns (next: seq<int>, now: set<int>, ghost after: Chains)
    requires queue != [] && Walk(g, waiter, queue, met) && seen == met.Keys && seen <= Everyone(g, waiter)
    requires queue[0] == waiter || !Root(g, queue[0])
    ensures Walk(g, waiter, next, after) && now == after.Keys && now <= Everyone(g, waiter)
    ensures |Everyone(g, waiter) - now| < |Everyone(g, waiter) - seen| || (now == seen && |next| < |queue|)
  {
    var more;
    more, now := NewBlockers(Blockers(g, queue[0]), seen);
    WalkOn(g, waiter, queue, met, more);
    Progress(g, waiter, queue[0], seen, more, now);
    after := Met(met, more, met[queue[0]]);
    next := queue[1..] + more;
  }

  /** Walks breadth first until it meets a root. */
  method Search(g: Graph, waiter: int) returns (found: bool, root: int)
    ensures found ==> exists c :: NearestRoot(g, waiter, c) && End(c) == root
    ensures !found ==> forall c :: !ReachesRoot(g, waiter, c)
  {
    var seen, queue := {waiter}, [waiter];
    ghost var met: Chains := map[waiter := [waiter]];
    WalkStart(g, waiter);
    while |queue| > 0
      invariant Walk(g, waiter, queue, met) && seen == met.Keys && seen <= Everyone(g, waiter)
      decreases |Everyone(g, waiter) - seen|, |queue|
    {
      var pid := queue[0];
      if pid != waiter && Root(g, pid) {
        HeadIsNearestRoot(g, waiter, queue, met);
        return true, pid;
      }
      queue, seen, met := Visit(g, waiter, queue, seen, met);
    }
    forall c ensures !ReachesRoot(g, waiter, c) { NothingLeft(g, waiter, met, c); }
    return false, 0;
  }

  /**
    The session that is not itself blocked at the end of the nearest of the waiter's blocking chains:
    the shortest, and of those as short the one whose sessions have the lowest numbers from the waiter
    on. When no chain leads to one, the waiter's lowest blocker stands for it.
  */
  method LockRootBlocker(nodes: seq<Session>, waiter: int) returns (root: int)
    ensures var g := ByPid(nodes);
            if exists c :: ReachesRoot(g, waiter, c) then exists c :: NearestRoot(g, waiter, c) && End(c) == root
            else if Root(g, waiter) then root == waiter
            else root in Blockers(g, waiter) && forall b :: b in Blockers(g, waiter) ==> root <= b
  {
    var g := IndexByPid(nodes);
    var found, nearest := Search(g, waiter);
    if found {
      return nearest;
    }
    if !Root(g, waiter) {
      root := Least(Blockers(g, waiter));
    } else {
      root := waiter;
    }
  }
}
