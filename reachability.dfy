/** Ancestors and descendants in a dependency graph over the queue slots
    `0 .. n-1` whose edges all point forward in the queue.  Both queries are
    computed by one sweep over the slots and proved equal to reachability
    along paths of edges. */
module Reachability {
  import opened Dependency

  /** A path of at least one edge. */
  ghost predicate IsPath(E: set<Edge>, p: seq<nat>) {
    |p| >= 2 && forall t :: 0 <= t < |p| - 1 ==> (p[t], p[t + 1]) in E
  }

  /** There is a directed path of one or more edges from `a` to `b`. */
  ghost predicate Reaches(E: set<Edge>, a: nat, b: nat) {
    exists p :: IsPath(E, p) && p[0] == a && p[|p| - 1] == b
  }

  /** Slots `k` with `j <= k < n` that are in `S` or reach a slot of `S`;
      swept from the last slot down, which suffices because edges point forward. */
  function Upstream(E: set<Edge>, n: nat, S: set<nat>, j: nat): set<nat>
    decreases n - j
  {
    if j >= n then {}
    else
      var up := Upstream(E, n, S, j + 1);
      if j in S || exists i :: i in up && (j, i) in E then up + {j} else up
  }

  /** Slots `k < j` that are in `S` or are reached from a slot of `S`;
      swept from the first slot up. */
  function Downstream(E: set<Edge>, S: set<nat>, j: nat): set<nat>
  {
    if j == 0 then {}
    else
      var down := Downstream(E, S, j - 1);
      if j - 1 in S || exists i :: i in down && (i, j - 1) in E then down + {j - 1} else down
  }

  /** The ancestors of the slots `S`: every slot with a path to one of them,
      the slots of `S` themselves excluded. */
  function Ancestors(E: set<Edge>, n: nat, S: set<nat>): (r: set<nat>)
    ensures r !! S
    ensures forall k :: k in r ==> k < n
  {
    UpstreamBounds(E, n, S, 0);
    Upstream(E, n, S, 0) - S
  }

  /** The descendants of the slots `S`: every slot reached by a path from one of
      them, the slots of `S` themselves excluded. */
  function Descendants(E: set<Edge>, n: nat, S: set<nat>): (r: set<nat>)
    ensures r !! S
    ensures forall k :: k in r ==> k < n
  {
    DownstreamBounds(E, S, n);
    Downstream(E, S, n) - S
  }

  lemma {:induction false} UpstreamBounds(E: set<Edge>, n: nat, S: set<nat>, j: nat)
    ensures forall k :: k in Upstream(E, n, S, j) ==> j <= k < n
    decreases n - j
  {
    if j < n {
      UpstreamBounds(E, n, S, j + 1);
    }
  }

  lemma {:induction false} DownstreamBounds(E: set<Edge>, S: set<nat>, j: nat)
    ensures forall k :: k in Downstream(E, S, j) ==> k < j
  {
    if j > 0 {
      DownstreamBounds(E, S, j - 1);
    }
  }

  // ---- paths ----

  lemma PathOfEdge(E: set<Edge>, a: nat, b: nat)
    requires (a, b) in E
    ensures Reaches(E, a, b)
  {
    assert IsPath(E, [a, b]);
  }

  lemma {:induction false} ReachesTrans(E: set<Edge>, a: nat, b: nat, c: nat)
    requires Reaches(E, a, b) && Reaches(E, b, c)
    ensures Reaches(E, a, c)
  {
    var p :| IsPath(E, p) && p[0] == a && p[|p| - 1] == b;
    var q :| IsPath(E, q) && q[0] == b && q[|q| - 1] == c;
    var pq := p + q[1..];
    forall t | 0 <= t < |pq| - 1 ensures (pq[t], pq[t + 1]) in E {
      if t < |p| - 1 {
        assert pq[t] == p[t] && pq[t + 1] == p[t + 1];
      } else {
        assert pq[t] == q[t - |p| + 1] && pq[t + 1] == q[t - |p| + 2];
      }
    }
    assert IsPath(E, pq);
  }

  /** Along forward edges a path only climbs: `a` reaches `b` only if `a < b < n`. */
  lemma {:induction false} ReachesForward(E: set<Edge>, n: nat, a: nat, b: nat)
    requires Forward(E, n) && Reaches(E, a, b)
    ensures a < b < n
  {
    var p :| IsPath(E, p) && p[0] == a && p[|p| - 1] == b;
    PathClimbs(E, n, p);
  }

  lemma {:induction false} PathClimbs(E: set<Edge>, n: nat, p: seq<nat>)
    requires Forward(E, n) && IsPath(E, p)
    ensures p[0] < p[|p| - 1] < n
    decreases |p|
  {
    assert (p[0], p[1]) in E;
    if |p| > 2 {
      var q := p[1..];
      assert IsPath(E, q) by {
        forall t | 0 <= t < |q| - 1 ensures (q[t], q[t + 1]) in E {
          assert q[t] == p[t + 1] && q[t + 1] == p[t + 2];
        }
      }
      PathClimbs(E, n, q);
    }
  }

  // ---- the upward sweep is reachability ----

  lemma {:induction false} UpstreamMono(E: set<Edge>, n: nat, S: set<nat>, j: nat, j': nat, k: nat)
    requires j <= j' && k in Upstream(E, n, S, j')
    ensures k in Upstream(E, n, S, j)
    decreases j' - j
  {
    if j < j' {
      UpstreamMono(E, n, S, j + 1, j', k);
      UpstreamBounds(E, n, S, j + 1);
    }
  }

  lemma {:induction false} UpstreamSound(E: set<Edge>, n: nat, S: set<nat>, j: nat, k: nat)
    requires k in Upstream(E, n, S, j)
    ensures k in S || exists s :: s in S && Reaches(E, k, s)
    decreases n - j
  {
    UpstreamBounds(E, n, S, j);
    var up := Upstream(E, n, S, j + 1);
    if k in up {
      UpstreamSound(E, n, S, j + 1, k);
    } else if k !in S {
      assert k == j;
      var i :| i in up && (j, i) in E;
      PathOfEdge(E, j, i);
      UpstreamSound(E, n, S, j + 1, i);
      if i in S {
      } else {
        var s :| s in S && Reaches(E, i, s);
        ReachesTrans(E, j, i, s);
      }
    }
  }

  lemma {:induction false} InSetIsUpstream(E: set<Edge>, n: nat, S: set<nat>, j: nat, k: nat)
    requires j <= k < n && k in S
    ensures k in Upstream(E, n, S, j)
  {
    assert k in Upstream(E, n, S, k);
    UpstreamMono(E, n, S, j, k, k);
  }

  lemma {:induction false} PathIsUpstream(E: set<Edge>, n: nat, S: set<nat>, j: nat, p: seq<nat>)
    requires Forward(E, n) && IsPath(E, p) && p[|p| - 1] in S && j <= p[0]
    ensures p[0] in Upstream(E, n, S, j)
    decreases |p|
  {
    var a, b := p[0], p[1];
    assert (a, b) in E;
    if |p| == 2 {
      InSetIsUpstream(E, n, S, a + 1, b);
    } else {
      var q := p[1..];
      assert IsPath(E, q) by {
        forall t | 0 <= t < |q| - 1 ensures (q[t], q[t + 1]) in E {
          assert q[t] == p[t + 1] && q[t + 1] == p[t + 2];
        }
      }
      PathIsUpstream(E, n, S, a + 1, q);
    }
    assert a in Upstream(E, n, S, a);
    UpstreamMono(E, n, S, j, a, a);
  }

  /** `Ancestors` is exactly the set of slots outside `S` with a path into `S`. */
  lemma {:induction false} AncestorsAreReachability(E: set<Edge>, n: nat, S: set<nat>, k: nat)
    requires Forward(E, n)
    ensures k in Ancestors(E, n, S) <==> k !in S && exists s :: s in S && Reaches(E, k, s)
  {
    if k in Ancestors(E, n, S) {
      UpstreamSound(E, n, S, 0, k);
    }
    if k !in S && exists s :: s in S && Reaches(E, k, s) {
      var s :| s in S && Reaches(E, k, s);
      var p :| IsPath(E, p) && p[0] == k && p[|p| - 1] == s;
      PathIsUpstream(E, n, S, 0, p);
    }
  }

  // ---- the downward sweep is reachability ----

  lemma {:induction false} DownstreamMono(E: set<Edge>, S: set<nat>, j: nat, j': nat, k: nat)
    requires j <= j' && k in Downstream(E, S, j)
    ensures k in Downstream(E, S, j')
    decreases j' - j
  {
    if j < j' {
      DownstreamMono(E, S, j, j' - 1, k);
    }
  }

  lemma {:induction false} DownstreamSound(E: set<Edge>, S: set<nat>, j: nat, k: nat)
    requires k in Downstream(E, S, j)
    ensures k in S || exists s :: s in S && Reaches(E, s, k)
  {
    var down := Downstream(E, S, j - 1);
    if k in down {
      DownstreamSound(E, S, j - 1, k);
    } else if k !in S {
      assert k == j - 1;
      var i :| i in down && (i, k) in E;
      PathOfEdge(E, i, k);
      DownstreamSound(E, S, j - 1, i);
      if i in S {
      } else {
        var s :| s in S && Reaches(E, s, i);
        ReachesTrans(E, s, i, k);
      }
    }
  }

  lemma {:induction false} PathIsDownstream(E: set<Edge>, n: nat, S: set<nat>, p: seq<nat>)
    requires Forward(E, n) && IsPath(E, p) && p[0] in S
    ensures p[|p| - 1] in Downstream(E, S, p[|p| - 1] + 1)
    decreases |p|
  {
    var m := |p| - 1;
    var a, b := p[m - 1], p[m];
    assert (a, b) in E;
    if |p| == 2 {
      assert a in Downstream(E, S, a + 1);
    } else {
      var q := p[..m];
      assert IsPath(E, q) by {
        forall t | 0 <= t < |q| - 1 ensures (q[t], q[t + 1]) in E {
          assert q[t] == p[t] && q[t + 1] == p[t + 1];
        }
      }
      PathIsDownstream(E, n, S, q);
    }
    DownstreamMono(E, S, a + 1, b, a);
  }

  /** `Descendants` is exactly the set of slots outside `S` with a path from `S`. */
  lemma {:induction false} DescendantsAreReachability(E: set<Edge>, n: nat, S: set<nat>, k: nat)
    requires Forward(E, n)
    ensures k in Descendants(E, n, S) <==> k !in S && exists s :: s in S && Reaches(E, s, k)
  {
    if k in Descendants(E, n, S) {
      DownstreamSound(E, S, n, k);
    }
    if k !in S && exists s :: s in S && Reaches(E, s, k) {
      var s :| s in S && Reaches(E, s, k);
      var p :| IsPath(E, p) && p[0] == s && p[|p| - 1] == k;
      PathClimbs(E, n, p);
      PathIsDownstream(E, n, S, p);
      DownstreamMono(E, S, k + 1, n, k);
    }
  }

  lemma AncestorsExact(E: set<Edge>, n: nat, S: set<nat>)
    requires Forward(E, n)
    ensures forall k :: k in Ancestors(E, n, S) <==> k !in S && exists s :: s in S && Reaches(E, k, s)
  {
    forall k ensures k in Ancestors(E, n, S) <==> k !in S && exists s :: s in S && Reaches(E, k, s) {
      AncestorsAreReachability(E, n, S, k);
    }
  }

  lemma DescendantsExact(E: set<Edge>, n: nat, S: set<nat>)
    requires Forward(E, n)
    ensures forall k :: k in Descendants(E, n, S) <==> k !in S && exists s :: s in S && Reaches(E, s, k)
  {
    forall k ensures k in Descendants(E, n, S) <==> k !in S && exists s :: s in S && Reaches(E, s, k) {
      DescendantsAreReachability(E, n, S, k);
    }
  }
}
