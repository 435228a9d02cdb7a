/** The validator's bounded-hop breadth-first searches: `_get_downstream_nodes`
    follows edges forward from a node, `_get_upstream_nodes` follows them
    backward. A FIFO queue holds (node id, distance) pairs; entries at or past
    the hop bound are dropped; each node reached for the first time is
    recorded in `found`. The start node is not marked visited up front. */
module Traversal {
  import opened Text
  import opened Canonical

  /** The edges followed out of a node: leaving it (forward) or entering it (backward). */
  function Incident(edges: seq<Edge>, id: string, forward: bool): (r: seq<Edge>)
    ensures forall e :: e in r <==> e in edges && Near(e, forward) == id
  {
    if forward then EdgesFrom(edges, id) else EdgesTo(edges, id)
  }

  /** The end of an edge the search comes from. */
  function Near(e: Edge, forward: bool): string {
    if forward then e.fromNode else e.toNode
  }

  /** The end of an edge the search goes to. */
  function Far(e: Edge, forward: bool): string {
    if forward then e.toNode else e.fromNode
  }

  /** A walk of exactly `d` edges from `a` to `b`, every edge taken in the search
      direction and every node stepped to present in the diagram (`node_by_id`
      finds it). */
  ghost predicate Walk(nodes: seq<Node>, edges: seq<Edge>, forward: bool, a: string, b: string, d: nat)
    decreases d
  {
    if d == 0 then a == b
    else exists e :: e in edges && Far(e, forward) == b && HasNode(nodes, b)
                     && Walk(nodes, edges, forward, a, Near(e, forward), d - 1)
  }

  /** `b` is between 1 and `maxd` hops from `a`. */
  ghost predicate WithinHops(nodes: seq<Node>, edges: seq<Edge>, forward: bool, a: string, b: string, maxd: int) {
    exists d: nat :: 1 <= d <= maxd && Walk(nodes, edges, forward, a, b, d)
  }

  function NodeIdSet(nodes: seq<Node>): set<string> {
    set n | n in nodes :: n.id
  }

  /** The search state: the visited id set, the queue and the nodes found so far. */
  datatype Search = Search(visited: set<string>, queue: seq<(string, int)>, found: seq<Node>)

  /** One pass of the inner loop over the edges of the node just taken from the queue. */
  function Expand(nodes: seq<Node>, forward: bool, es: seq<Edge>, dist: int, st: Search): (r: Search)
    ensures st.visited <= r.visited <= st.visited + NodeIdSet(nodes)
    ensures r.visited == st.visited ==> r.queue == st.queue
    decreases |es|
  {
    if es == [] then st
    else
      var m := NodeById(nodes, Far(es[0], forward));
      var next :=
        if m.Some? && m.value.id !in st.visited then
          Search(st.visited + {m.value.id}, st.queue + [(m.value.id, dist + 1)], st.found + [m.value])
        else st;
      Expand(nodes, forward, es[1..], dist, next)
  }

  lemma ShrinkingRemainder(u: set<string>, a: set<string>, b: set<string>)
    requires a <= b <= u && a != b
    ensures |u - b| < |u - a|
  {
    var x :| x in b && x !in a;
    assert u - a == (u - b) + (b - a);
    assert (u - b) * (b - a) == {};
    assert x in b - a;
  }

  /** The outer `while queue` loop. */
  function Loop(nodes: seq<Node>, edges: seq<Edge>, forward: bool, maxd: int, st: Search): seq<Node>
    requires st.visited <= NodeIdSet(nodes)
    decreases |NodeIdSet(nodes) - st.visited|, |st.queue|
  {
    if st.queue == [] then st.found
    else
      var curr := st.queue[0].0;
      var dist := st.queue[0].1;
      var rest := st.(queue := st.queue[1..]);
      if dist >= maxd then Loop(nodes, edges, forward, maxd, rest)
      else
        var next := Expand(nodes, forward, Incident(edges, curr, forward), dist, rest);
        if next.visited == rest.visited then
          Loop(nodes, edges, forward, maxd, next)
        else
          ShrinkingRemainder(NodeIdSet(nodes), rest.visited, next.visited);
          Loop(nodes, edges, forward, maxd, next)
  }

  /** What holds of the search state throughout. */
  ghost predicate Inv(nodes: seq<Node>, edges: seq<Edge>, forward: bool, start: string, maxd: int, st: Search) {
    && st.visited <= NodeIdSet(nodes)
    && (forall i :: 0 <= i < |st.found| ==>
          st.found[i] in nodes && st.found[i].id in st.visited && WithinHops(nodes, edges, forward, start, st.found[i].id, maxd))
    && (forall i, j :: 0 <= i < j < |st.found| ==> st.found[i].id != st.found[j].id)
    && (forall i :: 0 <= i < |st.queue| ==>
          0 <= st.queue[i].1 && Walk(nodes, edges, forward, start, st.queue[i].0, st.queue[i].1))
  }

  lemma {:induction false} ExpandKeepsInv(nodes: seq<Node>, edges: seq<Edge>, forward: bool, start: string, maxd: int,
                                          curr: string, es: seq<Edge>, dist: int, st: Search)
    requires Inv(nodes, edges, forward, start, maxd, st)
    requires forall e :: e in es ==> e in edges && Near(e, forward) == curr
    requires 0 <= dist < maxd && Walk(nodes, edges, forward, start, curr, dist)
    ensures Inv(nodes, edges, forward, start, maxd, Expand(nodes, forward, es, dist, st))
    decreases |es|
  {
    if es != [] {
      var e := es[0];
      var m := NodeById(nodes, Far(e, forward));
      if m.Some? && m.value.id !in st.visited {
        var n := m.value;
        var next := Search(st.visited + {n.id}, st.queue + [(n.id, dist + 1)], st.found + [n]);
        assert Walk(nodes, edges, forward, start, n.id, dist + 1) by {
          assert e in edges && Far(e, forward) == n.id && Near(e, forward) == curr && HasNode(nodes, n.id);
        }
        assert WithinHops(nodes, edges, forward, start, n.id, maxd) by {
          var d: nat := dist + 1;
          assert 1 <= d <= maxd && Walk(nodes, edges, forward, start, n.id, d);
        }
        assert n in nodes;
        assert Inv(nodes, edges, forward, start, maxd, next) by {
          forall i | 0 <= i < |next.queue|
            ensures 0 <= next.queue[i].1 && Walk(nodes, edges, forward, start, next.queue[i].0, next.queue[i].1)
          {
            if i < |st.queue| { assert next.queue[i] == st.queue[i]; }
          }
          forall i | 0 <= i < |next.found|
            ensures next.found[i] in nodes && next.found[i].id in next.visited
                    && WithinHops(nodes, edges, forward, start, next.found[i].id, maxd)
          {
            if i < |st.found| { assert next.found[i] == st.found[i]; }
          }
          forall i, j | 0 <= i < j < |next.found| ensures next.found[i].id != next.found[j].id {
            if j < |st.found| {
              assert next.found[i] == st.found[i] && next.found[j] == st.found[j];
            } else {
              assert next.found[i] == st.found[i];
            }
          }
        }
        ExpandKeepsInv(nodes, edges, forward, start, maxd, curr, es[1..], dist, next);
      } else {
        ExpandKeepsInv(nodes, edges, forward, start, maxd, curr, es[1..], dist, st);
      }
    }
  }

  /** Every node the loop returns exists, is returned once, and lies within the hop bound. */
  lemma {:induction false} LoopFinds(nodes: seq<Node>, edges: seq<Edge>, forward: bool, start: string, maxd: int, st: Search)
    requires Inv(nodes, edges, forward, start, maxd, st)
    ensures forall i :: 0 <= i < |Loop(nodes, edges, forward, maxd, st)| ==>
              Loop(nodes, edges, forward, maxd, st)[i] in nodes
              && WithinHops(nodes, edges, forward, start, Loop(nodes, edges, forward, maxd, st)[i].id, maxd)
    ensures forall i, j :: 0 <= i < j < |Loop(nodes, edges, forward, maxd, st)| ==>
              Loop(nodes, edges, forward, maxd, st)[i].id != Loop(nodes, edges, forward, maxd, st)[j].id
    decreases |NodeIdSet(nodes) - st.visited|, |st.queue|
  {
    if st.queue != [] {
      var curr := st.queue[0].0;
      var dist := st.queue[0].1;
      var rest := st.(queue := st.queue[1..]);
      assert Inv(nodes, edges, forward, start, maxd, rest) by {
        forall i | 0 <= i < |rest.queue|
          ensures 0 <= rest.queue[i].1 && Walk(nodes, edges, forward, start, rest.queue[i].0, rest.queue[i].1)
        {
          assert rest.queue[i] == st.queue[i + 1];
        }
      }
      if dist >= maxd {
        assert Loop(nodes, edges, forward, maxd, st) == Loop(nodes, edges, forward, maxd, rest);
        LoopFinds(nodes, edges, forward, start, maxd, rest);
      } else {
        var es := Incident(edges, curr, forward);
        ExpandKeepsInv(nodes, edges, forward, start, maxd, curr, es, dist, rest);
        var next := Expand(nodes, forward, es, dist, rest);
        if next.visited != rest.visited {
          ShrinkingRemainder(NodeIdSet(nodes), rest.visited, next.visited);
        }
        assert Loop(nodes, edges, forward, maxd, st) == Loop(nodes, edges, forward, maxd, next);
        LoopFinds(nodes, edges, forward, start, maxd, next);
      }
    }
  }

  lemma NoHopsFindNothing(nodes: seq<Node>, edges: seq<Edge>, start: string, maxd: int, forward: bool)
    requires maxd <= 0
    ensures Loop(nodes, edges, forward, maxd, Initial(start)) == []
  {
    var st := Initial(start);
    var rest := st.(queue := st.queue[1..]);
    assert rest.queue == [] && rest.found == [];
    assert Loop(nodes, edges, forward, maxd, st) == Loop(nodes, edges, forward, maxd, rest);
  }

  function Initial(start: string): Search {
    Search({}, [(start, 0)], [])
  }

  /** `_get_downstream_nodes` (forward) and `_get_upstream_nodes` (backward):
      every node returned exists in the diagram, none is returned twice, each
      lies between 1 and `maxd` hops away, and a bound of 0 or less returns nothing. */
  function ReachableNodes(nodes: seq<Node>, edges: seq<Edge>, start: string, maxd: int, forward: bool): (r: seq<Node>)
    ensures forall i :: 0 <= i < |r| ==> r[i] in nodes
    ensures forall i, j :: 0 <= i < j < |r| ==> r[i].id != r[j].id
    ensures forall i :: 0 <= i < |r| ==> WithinHops(nodes, edges, forward, start, r[i].id, maxd)
    ensures maxd <= 0 ==> r == []
  {
    LoopFinds(nodes, edges, forward, start, maxd, Initial(start));
    if maxd <= 0 then
      NoHopsFindNothing(nodes, edges, start, maxd, forward);
      Loop(nodes, edges, forward, maxd, Initial(start))
    else
      Loop(nodes, edges, forward, maxd, Initial(start))
  }

  // ---------------------------------------------------------------------------
  // Completeness: every node within the hop bound is found
  // ---------------------------------------------------------------------------

  /** What one pass of the inner loop does to the state `st`, giving `r`: the
      visited set and the queue only grow, each newly visited id is queued one
      hop further, the far end of every followed edge that exists ends up
      visited, and visited ids stay recorded among the found nodes. */
  ghost predicate Grown(nodes: seq<Node>, forward: bool, es: seq<Edge>, dist: int, st: Search, r: Search) {
    && st.visited <= r.visited
    && |st.queue| <= |r.queue|
    && (forall i :: 0 <= i < |st.queue| ==> r.queue[i] == st.queue[i])
    && (forall i :: |st.queue| <= i < |r.queue| ==>
          r.queue[i].1 == dist + 1 && r.queue[i].0 in r.visited && r.queue[i].0 !in st.visited)
    && (forall v :: v in r.visited && v !in st.visited ==> (v, dist + 1) in r.queue)
    && (forall e :: e in es && HasNode(nodes, Far(e, forward)) ==> Far(e, forward) in r.visited)
    && ((forall v :: v in st.visited ==> exists i :: 0 <= i < |st.found| && st.found[i].id == v) ==>
        (forall v :: v in r.visited ==> exists i :: 0 <= i < |r.found| && r.found[i].id == v))
  }

  lemma {:induction false} ExpandGrows(nodes: seq<Node>, forward: bool, es: seq<Edge>, dist: int, st: Search)
    ensures Grown(nodes, forward, es, dist, st, Expand(nodes, forward, es, dist, st))
    decreases |es|
  {
    if es != [] {
      var m := NodeById(nodes, Far(es[0], forward));
      var next :=
        if m.Some? && m.value.id !in st.visited then
          Search(st.visited + {m.value.id}, st.queue + [(m.value.id, dist + 1)], st.found + [m.value])
        else st;
      ExpandGrows(nodes, forward, es[1..], dist, next);
      var r := Expand(nodes, forward, es[1..], dist, next);
      assert r == Expand(nodes, forward, es, dist, st);
      assert forall i :: 0 <= i < |st.queue| ==> r.queue[i] == next.queue[i] == st.queue[i];
      forall i | |st.queue| <= i < |r.queue|
        ensures r.queue[i].1 == dist + 1 && r.queue[i].0 in r.visited && r.queue[i].0 !in st.visited
      {
        if i < |next.queue| {
          assert r.queue[i] == next.queue[i];
        }
      }
      forall v | v in r.visited && v !in st.visited ensures (v, dist + 1) in r.queue {
        if v in next.visited {
          assert next.queue[|st.queue|] == (v, dist + 1);
          assert r.queue[|st.queue|] == next.queue[|st.queue|];
        }
      }
      forall e | e in es && HasNode(nodes, Far(e, forward)) ensures Far(e, forward) in r.visited {
        if e != es[0] {
          assert e in es[1..];
        }
      }
      if forall v :: v in st.visited ==> exists i :: 0 <= i < |st.found| && st.found[i].id == v {
        forall v | v in next.visited ensures exists i :: 0 <= i < |next.found| && next.found[i].id == v {
          if v in st.visited {
            var i :| 0 <= i < |st.found| && st.found[i].id == v;
            assert next.found[i] == st.found[i];
          } else {
            assert next.found[|st.found|].id == v;
          }
        }
      }
    }
  }

  /** Every edge out of `u` whose far end exists leads to a labelled id at most
      one hop further than `du`. */
  ghost predicate Closed(nodes: seq<Node>, edges: seq<Edge>, forward: bool, labels: map<string, int>, u: string, du: int) {
    forall e :: e in edges && Near(e, forward) == u && HasNode(nodes, Far(e, forward)) ==>
      Far(e, forward) in labels && labels[Far(e, forward)] <= du + 1
  }

  /** The breadth-first invariant. `labels` holds the distance each visited id
      was queued with; `done` the ids whose edges have been followed, with the
      distance they were taken at. The queue is sorted by distance, no label is
      more than one past the front of the queue, every label below the bound
      belongs to an id that is done or still queued, and the edges of every
      done id lead to labelled ids. */
  ghost predicate Layered(nodes: seq<Node>, edges: seq<Edge>, forward: bool, start: string, maxd: int,
                          st: Search, labels: map<string, int>, done: map<string, int>) {
    && labels.Keys == st.visited
    && (forall v :: v in labels ==> labels[v] >= 1)
    && (forall i, j :: 0 <= i < j < |st.queue| ==> st.queue[i].1 <= st.queue[j].1)
    && (st.queue != [] ==> forall v :: v in labels ==> labels[v] <= st.queue[0].1 + 1)
    && (forall i :: 0 <= i < |st.queue| ==>
          (st.queue[i].0 in labels && labels[st.queue[i].0] == st.queue[i].1) ||
          (i == 0 && done == map[] && st.queue[i] == (start, 0)))
    && (forall v :: v in labels && labels[v] < maxd ==> v in done || (v, labels[v]) in st.queue)
    && (forall u :: u in done ==> Closed(nodes, edges, forward, labels, u, done[u]))
    && (forall u :: u in done ==> (u in labels && done[u] <= labels[u]) || (u == start && done[u] == 0))
    && ((start in done && done[start] == 0) || (done == map[] && st.queue != [] && st.queue[0] == (start, 0)))
    && (forall v :: v in st.visited ==> exists i :: 0 <= i < |st.found| && st.found[i].id == v)
  }

  /** The labels after a pass: old ids keep theirs, new ids get one hop more than `du`. */
  ghost function Relabel(labels: map<string, int>, visited: set<string>, du: int): map<string, int> {
    map v | v in visited :: if v in labels then labels[v] else du + 1
  }

  lemma ClosedGrows(nodes: seq<Node>, edges: seq<Edge>, forward: bool, a: map<string, int>, b: map<string, int>,
                    u: string, du: int)
    requires Closed(nodes, edges, forward, a, u, du)
    requires forall v :: v in a ==> v in b && b[v] == a[v]
    ensures Closed(nodes, edges, forward, b, u, du)
  {
  }

  /** Taking an entry at or past the bound off the queue keeps the invariant. */
  lemma LayeredSkip(nodes: seq<Node>, edges: seq<Edge>, forward: bool, start: string, maxd: int,
                    st: Search, labels: map<string, int>, done: map<string, int>)
    requires maxd >= 1 && st.queue != [] && st.queue[0].1 >= maxd
    requires Layered(nodes, edges, forward, start, maxd, st, labels, done)
    ensures Layered(nodes, edges, forward, start, maxd, st.(queue := st.queue[1..]), labels, done)
  {
    var rest := st.(queue := st.queue[1..]);
    assert forall i :: 0 <= i < |rest.queue| ==> rest.queue[i] == st.queue[i + 1];
    assert forall i :: 0 <= i < |st.queue| ==> st.queue[i].1 >= maxd by {
      forall i | 0 < i < |st.queue| ensures st.queue[i].1 >= maxd {
        assert st.queue[0].1 <= st.queue[i].1;
      }
    }
  }

  /** The labels after a pass keep the old labels, give every new id one hop
      more than the front entry, and stay between 1 and that distance. */
  lemma RelabelFacts(labels: map<string, int>, visited: set<string>, visited': set<string>, du: int)
    requires labels.Keys == visited && visited <= visited' && du >= 0
    requires forall v :: v in labels ==> 1 <= labels[v] <= du + 1
    ensures Relabel(labels, visited', du).Keys == visited'
    ensures forall v :: v in labels ==> v in Relabel(labels, visited', du) && Relabel(labels, visited', du)[v] == labels[v]
    ensures forall v :: v in visited' && v !in visited ==> Relabel(labels, visited', du)[v] == du + 1
    ensures forall v :: v in visited' ==> 1 <= Relabel(labels, visited', du)[v] <= du + 1
  {
  }

  /** After a pass the queue is still sorted, starts no lower than the entry
      just taken, and every entry carries its id's label. */
  lemma StepQueue(q: seq<(string, int)>, q': seq<(string, int)>, labels: map<string, int>, labels': map<string, int>,
                  visited: set<string>, visited': set<string>)
    requires q != [] && labels.Keys == visited
    requires forall i, j :: 0 <= i < j < |q| ==> q[i].1 <= q[j].1
    requires forall i :: 1 <= i < |q| ==> q[i].0 in labels && labels[q[i].0] == q[i].1
    requires forall v :: v in labels ==> labels[v] <= q[0].1 + 1
    requires |q| - 1 <= |q'| && forall i :: 0 <= i < |q| - 1 ==> q'[i] == q[i + 1]
    requires forall i :: |q| - 1 <= i < |q'| ==> q'[i].1 == q[0].1 + 1 && q'[i].0 in visited' && q'[i].0 !in visited
    requires forall v :: v in labels ==> v in labels' && labels'[v] == labels[v]
    requires forall v :: v in visited' && v !in visited ==> v in labels' && labels'[v] == q[0].1 + 1
    ensures forall i, j :: 0 <= i < j < |q'| ==> q'[i].1 <= q'[j].1
    ensures q' != [] ==> q[0].1 <= q'[0].1
    ensures forall i :: 0 <= i < |q'| ==> q'[i].0 in labels' && labels'[q'[i].0] == q'[i].1
  {
    forall i, j | 0 <= i < j < |q'| ensures q'[i].1 <= q'[j].1 {
      if j < |q| - 1 {
        assert q[i + 1].1 <= q[j + 1].1;
      } else if i < |q| - 1 {
        assert labels[q[i + 1].0] == q[i + 1].1;
      }
    }
    if |q| > 1 {
      assert q[0].1 <= q[1].1;
    }
    forall i | 0 <= i < |q'| ensures q'[i].0 in labels' && labels'[q'[i].0] == q'[i].1 {
      if i < |q| - 1 {
        assert q'[i] == q[i + 1];
      }
    }
  }

  /** After a pass every label below the bound still belongs to an id that is
      done or queued. */
  lemma StepPending(q: seq<(string, int)>, q': seq<(string, int)>, labels: map<string, int>, labels': map<string, int>,
                    done: map<string, int>, done': map<string, int>, visited: set<string>, visited': set<string>, maxd: int)
    requires q != [] && labels.Keys == visited && labels'.Keys == visited'
    requires forall v :: v in labels && labels[v] < maxd ==> v in done || (v, labels[v]) in q
    requires |q| - 1 <= |q'| && forall i :: 0 <= i < |q| - 1 ==> q'[i] == q[i + 1]
    requires forall v :: v in visited' && v !in visited ==> (v, q[0].1 + 1) in q'
    requires forall v :: v in labels ==> v in labels' && labels'[v] == labels[v]
    requires forall v :: v in visited' && v !in visited ==> labels'[v] == q[0].1 + 1
    requires done' == if q[0].0 in done then done else done[q[0].0 := q[0].1]
    ensures forall v :: v in labels' && labels'[v] < maxd ==> v in done' || (v, labels'[v]) in q'
  {
    forall v | v in labels' && labels'[v] < maxd ensures v in done' || (v, labels'[v]) in q' {
      if v in labels && v !in done {
        var i :| 0 <= i < |q| && q[i] == (v, labels[v]);
        if i > 0 {
          assert q'[i - 1] == (v, labels[v]);
        }
      }
    }
  }

  /** After a pass the edges of every done id, the front id included, lead to
      labelled ids, done distances stay below labels, and the start is done at 0. */
  lemma StepDone(nodes: seq<Node>, edges: seq<Edge>, forward: bool, start: string, curr: string, du: int,
                 es: seq<Edge>, labels: map<string, int>, labels': map<string, int>,
                 done: map<string, int>, done': map<string, int>, visited': set<string>)
    requires forall u :: u in done ==> Closed(nodes, edges, forward, labels, u, done[u])
    requires forall u :: u in done ==> (u in labels && done[u] <= labels[u]) || (u == start && done[u] == 0)
    requires (start in done && done[start] == 0) || (done == map[] && curr == start && du == 0)
    requires (curr in labels && labels[curr] == du) || (done == map[] && curr == start && du == 0)
    requires forall e :: e in edges && Near(e, forward) == curr ==> e in es
    requires forall e :: e in es && HasNode(nodes, Far(e, forward)) ==> Far(e, forward) in visited'
    requires labels'.Keys == visited' && forall v :: v in visited' ==> labels'[v] <= du + 1
    requires forall v :: v in labels ==> v in labels' && labels'[v] == labels[v]
    requires done' == if curr in done then done else done[curr := du]
    ensures forall u :: u in done' ==> Closed(nodes, edges, forward, labels', u, done'[u])
    ensures forall u :: u in done' ==> (u in labels' && done'[u] <= labels'[u]) || (u == start && done'[u] == 0)
    ensures start in done' && done'[start] == 0
  {
    forall u | u in done' ensures Closed(nodes, edges, forward, labels', u, done'[u]) {
      if u in done {
        ClosedGrows(nodes, edges, forward, labels, labels', u, done[u]);
      } else {
        forall e | e in edges && Near(e, forward) == curr && HasNode(nodes, Far(e, forward))
          ensures Far(e, forward) in labels' && labels'[Far(e, forward)] <= du + 1
        {
          assert e in es;
        }
      }
    }
  }

  /** The invariant from its parts, in the form a pass re-establishes them:
      every queued id labelled and the start already done. */
  lemma LayeredIntro(nodes: seq<Node>, edges: seq<Edge>, forward: bool, start: string, maxd: int,
                     st: Search, labels: map<string, int>, done: map<string, int>)
    requires labels.Keys == st.visited
    requires forall v :: v in labels ==> labels[v] >= 1
    requires forall i, j :: 0 <= i < j < |st.queue| ==> st.queue[i].1 <= st.queue[j].1
    requires st.queue != [] ==> forall v :: v in labels ==> labels[v] <= st.queue[0].1 + 1
    requires forall i :: 0 <= i < |st.queue| ==> st.queue[i].0 in labels && labels[st.queue[i].0] == st.queue[i].1
    requires forall v :: v in labels && labels[v] < maxd ==> v in done || (v, labels[v]) in st.queue
    requires forall u :: u in done ==> Closed(nodes, edges, forward, labels, u, done[u])
    requires forall u :: u in done ==> (u in labels && done[u] <= labels[u]) || (u == start && done[u] == 0)
    requires start in done && done[start] == 0
    requires forall v :: v in st.visited ==> exists i :: 0 <= i < |st.found| && st.found[i].id == v
    ensures Layered(nodes, edges, forward, start, maxd, st, labels, done)
  {
  }

  /** The order half of `LayeredAfter`: the new queue is sorted, starts no
      lower than the old front, and every queued id carries its label. */
  lemma LayeredAfterQueue(nodes: seq<Node>, edges: seq<Edge>, forward: bool, start: string, maxd: int,
                          st: Search, labels: map<string, int>, done: map<string, int>, next: Search, labels': map<string, int>)
    requires st.queue != [] && 0 <= st.queue[0].1 < maxd
    requires Layered(nodes, edges, forward, start, maxd, st, labels, done)
    requires Grown(nodes, forward, Incident(edges, st.queue[0].0, forward), st.queue[0].1, st.(queue := st.queue[1..]), next)
    requires labels'.Keys == next.visited
    requires forall v :: v in labels ==> v in labels' && labels'[v] == labels[v]
    requires forall v :: v in next.visited && v !in st.visited ==> labels'[v] == st.queue[0].1 + 1
    ensures forall i, j :: 0 <= i < j < |next.queue| ==> next.queue[i].1 <= next.queue[j].1
    ensures next.queue != [] ==> st.queue[0].1 <= next.queue[0].1
    ensures forall i :: 0 <= i < |next.queue| ==> next.queue[i].0 in labels' && labels'[next.queue[i].0] == next.queue[i].1
  {
    var q := st.queue;
    assert forall i :: 0 <= i < |q| - 1 ==> next.queue[i] == q[1..][i] == q[i + 1];
    StepQueue(q, next.queue, labels, labels', st.visited, next.visited);
  }

  /** The pending half of `LayeredAfter`: every label below the bound belongs
      to an id that is done or still queued. */
  lemma LayeredAfterPending(nodes: seq<Node>, edges: seq<Edge>, forward: bool, start: string, maxd: int,
                          st: Search, labels: map<string, int>, done: map<string, int>, next: Search, labels': map<string, int>)
    requires st.queue != [] && 0 <= st.queue[0].1 < maxd
    requires Layered(nodes, edges, forward, start, maxd, st, labels, done)
    requires Grown(nodes, forward, Incident(edges, st.queue[0].0, forward), st.queue[0].1, st.(queue := st.queue[1..]), next)
    requires labels'.Keys == next.visited
    requires forall v :: v in labels ==> v in labels' && labels'[v] == labels[v]
    requires forall v :: v in next.visited && v !in st.visited ==> labels'[v] == st.queue[0].1 + 1
    ensures forall v :: v in labels' && labels'[v] < maxd ==>
              v in (if st.queue[0].0 in done then done else done[st.queue[0].0 := st.queue[0].1]) || (v, labels'[v]) in next.queue
  {
    var q := st.queue;
    var du := q[0].1;
    var done' := if q[0].0 in done then done else done[q[0].0 := du];
    assert forall i :: 0 <= i < |q| - 1 ==> next.queue[i] == q[i + 1] by {
      forall i | 0 <= i < |q| - 1 ensures next.queue[i] == q[i + 1] {
        assert next.queue[i] == q[1..][i];
      }
    }
    assert forall v :: v in next.visited && v !in st.visited ==> (v, du + 1) in next.queue;
    StepPending(q, next.queue, labels, labels', done, done', st.visited, next.visited, maxd);
  }

  /** A pass that grew the state as `Grown` says keeps the invariant, with the
      new ids labelled one hop further and the front id marked done. */
  lemma LayeredAfter(nodes: seq<Node>, edges: seq<Edge>, forward: bool, start: string, maxd: int,
                     st: Search, labels: map<string, int>, done: map<string, int>, next: Search, labels': map<string, int>)
    requires st.queue != [] && 0 <= st.queue[0].1 < maxd
    requires Layered(nodes, edges, forward, start, maxd, st, labels, done)
    requires Grown(nodes, forward, Incident(edges, st.queue[0].0, forward), st.queue[0].1, st.(queue := st.queue[1..]), next)
    requires labels'.Keys == next.visited
    requires forall v :: v in labels ==> v in labels' && labels'[v] == labels[v]
    requires forall v :: v in next.visited && v !in st.visited ==> labels'[v] == st.queue[0].1 + 1
    requires forall v :: v in next.visited ==> 1 <= labels'[v] <= st.queue[0].1 + 1
    ensures Layered(nodes, edges, forward, start, maxd, next, labels',
                    if st.queue[0].0 in done then done else done[st.queue[0].0 := st.queue[0].1])
  {
    var curr := st.queue[0].0;
    var du := st.queue[0].1;
    var done' := if curr in done then done else done[curr := du];
    LayeredAfterQueue(nodes, edges, forward, start, maxd, st, labels, done, next, labels');
    LayeredAfterPending(nodes, edges, forward, start, maxd, st, labels, done, next, labels');
    StepDone(nodes, edges, forward, start, curr, du, Incident(edges, curr, forward), labels, labels', done, done', next.visited);
    LayeredIntro(nodes, edges, forward, start, maxd, next, labels', done');
  }

  /** Following the edges of the front entry keeps the invariant. */
  lemma LayeredStep(nodes: seq<Node>, edges: seq<Edge>, forward: bool, start: string, maxd: int,
                    st: Search, labels: map<string, int>, done: map<string, int>)
    requires st.queue != [] && 0 <= st.queue[0].1 < maxd
    requires Layered(nodes, edges, forward, start, maxd, st, labels, done)
    ensures var curr := st.queue[0].0;
      var du := st.queue[0].1;
      var next := Expand(nodes, forward, Incident(edges, curr, forward), du, st.(queue := st.queue[1..]));
      Layered(nodes, edges, forward, start, maxd, next, Relabel(labels, next.visited, du),
              if curr in done then done else done[curr := du])
  {
    var rest := st.(queue := st.queue[1..]);
    var es := Incident(edges, st.queue[0].0, forward);
    var next := Expand(nodes, forward, es, st.queue[0].1, rest);
    ExpandGrows(nodes, forward, es, st.queue[0].1, rest);
    RelabelFacts(labels, st.visited, next.visited, st.queue[0].1);
    LayeredAfter(nodes, edges, forward, start, maxd, st, labels, done, next, Relabel(labels, next.visited, st.queue[0].1));
  }

  /** Once the queue is empty, every id a walk of `d` edges reaches, for
      `1 <= d <= maxd`, carries a label of at most `d`. */
  lemma {:induction false} WalkLabelled(nodes: seq<Node>, edges: seq<Edge>, forward: bool, start: string, maxd: int,
                                        st: Search, labels: map<string, int>, done: map<string, int>, b: string, d: nat)
    requires st.queue == [] && Layered(nodes, edges, forward, start, maxd, st, labels, done)
    requires 1 <= d <= maxd && Walk(nodes, edges, forward, start, b, d)
    ensures b in labels && labels[b] <= d
    decreases d
  {
    var e :| e in edges && Far(e, forward) == b && HasNode(nodes, b)
             && Walk(nodes, edges, forward, start, Near(e, forward), d - 1);
    var u := Near(e, forward);
    if d == 1 {
      assert u == start && Closed(nodes, edges, forward, labels, start, done[start]);
    } else {
      WalkLabelled(nodes, edges, forward, start, maxd, st, labels, done, u, d - 1);
      assert u in done;
      assert Closed(nodes, edges, forward, labels, u, done[u]);
    }
  }

  /** Once the queue is empty, every id within the hop bound has been found. */
  lemma DrainedComplete(nodes: seq<Node>, edges: seq<Edge>, forward: bool, start: string, maxd: int,
                        st: Search, labels: map<string, int>, done: map<string, int>, b: string)
    requires st.queue == [] && Layered(nodes, edges, forward, start, maxd, st, labels, done)
    requires WithinHops(nodes, edges, forward, start, b, maxd)
    ensures exists i :: 0 <= i < |st.found| && st.found[i].id == b
  {
    var d: nat :| 1 <= d <= maxd && Walk(nodes, edges, forward, start, b, d);
    WalkLabelled(nodes, edges, forward, start, maxd, st, labels, done, b, d);
    assert b in st.visited;
  }

  /** An entry at or past the bound is dropped without following its edges. */
  lemma LoopSkips(nodes: seq<Node>, edges: seq<Edge>, forward: bool, maxd: int, st: Search)
    requires st.visited <= NodeIdSet(nodes) && st.queue != [] && st.queue[0].1 >= maxd
    ensures Loop(nodes, edges, forward, maxd, st) == Loop(nodes, edges, forward, maxd, st.(queue := st.queue[1..]))
  {
  }

  /** An entry below the bound has its edges followed; the search then goes on
      from a state with more visited ids or a shorter queue. */
  lemma LoopSteps(nodes: seq<Node>, edges: seq<Edge>, forward: bool, maxd: int, st: Search)
    requires st.visited <= NodeIdSet(nodes) && st.queue != [] && st.queue[0].1 < maxd
    ensures var next := Expand(nodes, forward, Incident(edges, st.queue[0].0, forward), st.queue[0].1, st.(queue := st.queue[1..]));
      && next.visited <= NodeIdSet(nodes)
      && Loop(nodes, edges, forward, maxd, st) == Loop(nodes, edges, forward, maxd, next)
      && (|NodeIdSet(nodes) - next.visited| < |NodeIdSet(nodes) - st.visited|
          || (next.visited == st.visited && |next.queue| < |st.queue|))
  {
    var rest := st.(queue := st.queue[1..]);
    var next := Expand(nodes, forward, Incident(edges, st.queue[0].0, forward), st.queue[0].1, rest);
    if next.visited != rest.visited {
      ShrinkingRemainder(NodeIdSet(nodes), rest.visited, next.visited);
    }
  }

  /** Every id within the hop bound is among the nodes the loop returns. */
  lemma {:induction false} LoopComplete(nodes: seq<Node>, edges: seq<Edge>, forward: bool, start: string, maxd: int,
                                        st: Search, labels: map<string, int>, done: map<string, int>, b: string)
    requires maxd >= 1 && st.visited <= NodeIdSet(nodes)
    requires Layered(nodes, edges, forward, start, maxd, st, labels, done)
    requires WithinHops(nodes, edges, forward, start, b, maxd)
    ensures exists i :: 0 <= i < |Loop(nodes, edges, forward, maxd, st)| && Loop(nodes, edges, forward, maxd, st)[i].id == b
    decreases |NodeIdSet(nodes) - st.visited|, |st.queue|
  {
    if st.queue == [] {
      DrainedComplete(nodes, edges, forward, start, maxd, st, labels, done, b);
      assert Loop(nodes, edges, forward, maxd, st) == st.found;
    } else {
      var curr := st.queue[0].0;
      var du := st.queue[0].1;
      var rest := st.(queue := st.queue[1..]);
      if du >= maxd {
        LayeredSkip(nodes, edges, forward, start, maxd, st, labels, done);
        LoopSkips(nodes, edges, forward, maxd, st);
        LoopComplete(nodes, edges, forward, start, maxd, rest, labels, done, b);
      } else {
        assert 0 <= du;
        LayeredStep(nodes, edges, forward, start, maxd, st, labels, done);
        LoopSteps(nodes, edges, forward, maxd, st);
        var next := Expand(nodes, forward, Incident(edges, curr, forward), du, rest);
        LoopComplete(nodes, edges, forward, start, maxd, next, Relabel(labels, next.visited, du),
                     if curr in done then done else done[curr := du], b);
      }
    }
  }

  /** `_get_downstream_nodes` / `_get_upstream_nodes` return exactly the nodes
      reachable from `start` in 1 to `maxd` hops: found implies within range,
      and within range implies found. */
  lemma ReachableComplete(nodes: seq<Node>, edges: seq<Edge>, start: string, maxd: int, forward: bool, b: string)
    ensures (exists i :: 0 <= i < |ReachableNodes(nodes, edges, start, maxd, forward)|
                         && ReachableNodes(nodes, edges, start, maxd, forward)[i].id == b)
            <==> WithinHops(nodes, edges, forward, start, b, maxd)
  {
    var r := ReachableNodes(nodes, edges, start, maxd, forward);
    if exists i :: 0 <= i < |r| && r[i].id == b {
      var i :| 0 <= i < |r| && r[i].id == b;
      assert WithinHops(nodes, edges, forward, start, r[i].id, maxd);
    }
    if WithinHops(nodes, edges, forward, start, b, maxd) {
      var st := Initial(start);
      assert Layered(nodes, edges, forward, start, maxd, st, map[], map[]);
      LoopComplete(nodes, edges, forward, start, maxd, st, map[], map[], b);
    }
  }

  /** The inner `for edge in ...` loop: each edge's far end, when it exists
      and is not yet visited, is marked visited, recorded and queued one hop further. */
  method ExpandInPlace(nodes: seq<Node>, forward: bool, es: seq<Edge>, dist: int,
                       visited0: set<string>, queue0: seq<(string, int)>, found0: seq<Node>)
    returns (visited: set<string>, queue: seq<(string, int)>, found: seq<Node>)
    ensures Search(visited, queue, found) == Expand(nodes, forward, es, dist, Search(visited0, queue0, found0))
  {
    visited, queue, found := visited0, queue0, found0;
    var k := 0;
    while k < |es|
      invariant 0 <= k <= |es|
      invariant Expand(nodes, forward, es[k..], dist, Search(visited, queue, found))
                == Expand(nodes, forward, es, dist, Search(visited0, queue0, found0))
    {
      var m := NodeById(nodes, Far(es[k], forward));
      assert es[k..][1..] == es[k + 1..];
      if m.Some? && m.value.id !in visited {
        visited := visited + {m.value.id};
        found := found + [m.value];
        queue := queue + [(m.value.id, dist + 1)];
      }
      k := k + 1;
    }
  }

  /** The search as the source writes it: a queue popped from the front and a
      visited set, with an inner loop over the followed edges. */
  method CollectReachable(nodes: seq<Node>, edges: seq<Edge>, start: string, maxd: int, forward: bool)
    returns (found: seq<Node>)
    ensures found == ReachableNodes(nodes, edges, start, maxd, forward)
  {
    var visited: set<string> := {};
    var queue: seq<(string, int)> := [(start, 0)];
    found := [];
    while queue != []
      invariant visited <= NodeIdSet(nodes)
      invariant Loop(nodes, edges, forward, maxd, Search(visited, queue, found))
                == Loop(nodes, edges, forward, maxd, Initial(start))
      decreases |NodeIdSet(nodes) - visited|, |queue|
    {
      ghost var st := Search(visited, queue, found);
      var curr := queue[0].0;
      var dist := queue[0].1;
      queue := queue[1..];
      ghost var rest := Search(visited, queue, found);
      assert rest == st.(queue := st.queue[1..]);
      if dist >= maxd {
        assert Loop(nodes, edges, forward, maxd, st) == Loop(nodes, edges, forward, maxd, rest);
        continue;
      }
      var es := Incident(edges, curr, forward);
      visited, queue, found := ExpandInPlace(nodes, forward, es, dist, visited, queue, found);
      ghost var next := Search(visited, queue, found);
      assert next == Expand(nodes, forward, es, dist, rest);
      assert Loop(nodes, edges, forward, maxd, st) == Loop(nodes, edges, forward, maxd, next);
      if visited != rest.visited {
        ShrinkingRemainder(NodeIdSet(nodes), rest.visited, visited);
      }
    }
  }
}
