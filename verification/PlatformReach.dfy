/** Which modules reach a platform module, found breadth first over the import graph. */
module PlatformReach {

  /** Imports of each module, in sorted order. */
  type Graph = map<string, seq<string>>

  /** Every imported module is one of the files of the graph. */
  ghost predicate Closed(g: Graph) {
    forall n, c | n in g && c in g[n] :: c in g
  }

  /** A path along imports. */
  ghost predicate IsPath(g: Graph, p: seq<string>) {
    p != [] && (forall i | 0 <= i < |p| :: p[i] in g) && (forall i | 0 < i < |p| :: Imports(g, p, i))
  }

  ghost predicate Imports(g: Graph, p: seq<string>, i: nat)
    requires 0 < i < |p|
  {
    p[i - 1] in g && p[i] in g[p[i - 1]]
  }

  /** No platform module before the last: the first one met ends the path. */
  ghost predicate IsClean(g: Graph, platform: set<string>, p: seq<string>) {
    IsPath(g, p) && forall i | 0 <= i < |p| - 1 :: p[i] !in platform
  }

  ghost predicate Leads(g: Graph, platform: set<string>, source: string, target: string, p: seq<string>) {
    IsClean(g, platform, p) && p[0] == source && p[|p| - 1] == target
  }

  ghost predicate Shortest(g: Graph, platform: set<string>, source: string, target: string, p: seq<string>) {
    Leads(g, platform, source, target, p) && forall q | Leads(g, platform, source, target, q) :: |p| <= |q|
  }

  datatype Visit = Visit(node: string, path: seq<string>)

  lemma LeadsOn(g: Graph, platform: set<string>, source: string, p: seq<string>, child: string)
    requires Closed(g) && p != [] && Leads(g, platform, source, p[|p| - 1], p) && p[|p| - 1] !in platform
             && child in g[p[|p| - 1]]
    ensures Leads(g, platform, source, child, p + [child])
  {
    var q := p + [child];
    forall i | 0 < i < |q| ensures Imports(g, q, i) {
      if i < |p| { assert Imports(g, p, i); }
    }
  }

  lemma LeadsFront(g: Graph, platform: set<string>, source: string, target: string, p: seq<string>)
    requires Leads(g, platform, source, target, p) && |p| > 1
    ensures Leads(g, platform, source, p[|p| - 2], p[..|p| - 1]) && p[|p| - 2] !in platform && p[|p| - 2] in g
            && target in g[p[|p| - 2]]
  {
    var q := p[..|p| - 1];
    assert Imports(g, p, |p| - 1);
    forall i | 0 < i < |q| ensures Imports(g, q, i) { assert Imports(g, p, i); }
  }

  // ------------------------------------------------------------- invariants

  ghost predicate QueueSound(g: Graph, platform: set<string>, source: string, queue: seq<Visit>) {
    && (forall i | 0 <= i < |queue| :: Leads(g, platform, source, queue[i].node, queue[i].path))
    && (forall i, k | 0 <= i < k < |queue| :: |queue[i].path| <= |queue[k].path|)
    && (forall i | 0 <= i < |queue| :: |queue[i].path| <= |queue[0].path| + 1)
  }

  /** `length` gives the path length at which each node was first met. */
  ghost predicate SeenSound(g: Graph, seen: set<string>, queue: seq<Visit>, length: map<string, nat>) {
    && length.Keys == seen && seen <= g.Keys
    && forall n, i | n in seen && 0 <= i < |queue| :: length[n] <= |queue[i].path|
  }

  /** The node was met within `bound`, or waits in the queue within `bound`. */
  ghost predicate Met(queue: seq<Visit>, length: map<string, nat>, n: string, bound: nat) {
    (n in length && length[n] <= bound)
    || exists i :: 0 <= i < |queue| && queue[i].node == n && |queue[i].path| <= bound
  }

  ghost predicate Expanded(g: Graph, platform: set<string>, queue: seq<Visit>, length: map<string, nat>) {
    forall n, c | n in length && n in g && n !in platform && c in g[n] :: Met(queue, length, c, length[n] + 1)
  }

  /** Every clean path ends at a node met within its length, unless the queue starts that early. */
  lemma {:induction false} Frontier(g: Graph, platform: set<string>, source: string, target: string, p: seq<string>,
                                    seen: set<string>, queue: seq<Visit>, length: map<string, nat>)
    requires SeenSound(g, seen, queue, length) && QueueSound(g, platform, source, queue)
             && Expanded(g, platform, queue, length)
    requires Met(queue, length, source, 1)
    requires Leads(g, platform, source, target, p)
    ensures (target in seen && length[target] <= |p|) || (queue != [] && |queue[0].path| <= |p|)
    decreases |p|
  {
    hide QueueSound, Expanded, Leads;
    if |p| == 1 {
      assert target == source by {
        assert Leads(g, platform, source, target, p);
        SingleNode(g, platform, source, target, p);
      }
      Early(g, platform, source, seen, queue, length, target, 1);
    } else {
      assert |p| > 1 by { NonEmpty(g, platform, source, target, p); }
      LeadsFront(g, platform, source, target, p);
      var before := p[|p| - 2];
      Frontier(g, platform, source, before, p[..|p| - 1], seen, queue, length);
      if before in seen && length[before] <= |p| - 1 {
        ExpandedAt(g, platform, seen, queue, length, before, target);
        Early(g, platform, source, seen, queue, length, target, |p|);
      }
    }
  }

  lemma NonEmpty(g: Graph, platform: set<string>, source: string, target: string, p: seq<string>)
    requires Leads(g, platform, source, target, p)
    ensures |p| >= 1
  {
  }

  lemma SingleNode(g: Graph, platform: set<string>, source: string, target: string, p: seq<string>)
    requires Leads(g, platform, source, target, p) && |p| == 1
    ensures target == source
  {
  }

  lemma Early(g: Graph, platform: set<string>, source: string, seen: set<string>, queue: seq<Visit>,
              length: map<string, nat>, n: string, bound: nat)
    requires SeenSound(g, seen, queue, length) && QueueSound(g, platform, source, queue) && Met(queue, length, n, bound)
    ensures (n in seen && n in length && length[n] <= bound) || (queue != [] && |queue[0].path| <= bound)
  {
    if !(n in length && length[n] <= bound) {
      var i :| 0 <= i < |queue| && queue[i].node == n && |queue[i].path| <= bound;
      assert i == 0 || |queue[0].path| <= |queue[i].path|;
    }
  }

  lemma ExpandedAt(g: Graph, platform: set<string>, seen: set<string>, queue: seq<Visit>, length: map<string, nat>,
                   n: string, c: string)
    requires SeenSound(g, seen, queue, length) && Expanded(g, platform, queue, length) && n in seen && n in g
             && n !in platform && c in g[n]
    ensures n in length && forall bound: nat | bound >= length[n] + 1 :: Met(queue, length, c, bound)
  {
    assert Met(queue, length, c, length[n] + 1);
  }

  // ----------------------------------------------------------------- search

  /** The visits that expanding `v` appends: its unseen imports, one step further. */
  function Steps(v: Visit, children: seq<string>, seen: set<string>): seq<Visit> {
    if children == [] then []
    else
      var front, c := Steps(v, children[..|children| - 1], seen), children[|children| - 1];
      if c in seen then front else front + [Visit(c, v.path + [c])]
  }

  lemma {:induction false} StepsAre(v: Visit, children: seq<string>, seen: set<string>)
    ensures var s := Steps(v, children, seen);
            && (forall i | 0 <= i < |s| :: s[i].node in children && s[i] == Visit(s[i].node, v.path + [s[i].node]))
            && (forall c | c in children && c !in seen :: Visit(c, v.path + [c]) in s)
  {
    if children != [] {
      var front, c := children[..|children| - 1], children[|children| - 1];
      StepsAre(v, front, seen);
      assert children == front + [c];
      var s := Steps(v, children, seen);
      assert c !in seen ==> s[|s| - 1] == Visit(c, v.path + [c]);
    }
  }

  lemma Skipped(g: Graph, platform: set<string>, source: string, seen: set<string>, queue: seq<Visit>,
                length: map<string, nat>)
    requires queue != [] && queue[0].node in seen
    requires SeenSound(g, seen, queue, length) && QueueSound(g, platform, source, queue)
             && Expanded(g, platform, queue, length)
    ensures SeenSound(g, seen, queue[1..], length) && QueueSound(g, platform, source, queue[1..])
            && Expanded(g, platform, queue[1..], length)
    ensures Met(queue, length, source, 1) ==> Met(queue[1..], length, source, 1)
  {
    var rest := queue[1..];
    assert forall i | 0 <= i < |rest| :: rest[i] == queue[i + 1];
    forall n: string, bound: nat | Met(queue, length, n, bound) ensures Met(rest, length, n, bound) {
      StillMet(queue, length, n, bound);
    }
    hide Met, Leads;
  }

  lemma StillMet(queue: seq<Visit>, length: map<string, nat>, n: string, bound: nat)
    requires queue != [] && Met(queue, length, n, bound)
    requires queue[0].node in length && length[queue[0].node] <= |queue[0].path|
    ensures Met(queue[1..], length, n, bound)
  {
    if !(n in length && length[n] <= bound) {
      var i :| 0 <= i < |queue| && queue[i].node == n && |queue[i].path| <= bound;
      assert i > 0;
      assert queue[1..][i - 1] == queue[i];
    }
  }

  /** What taking a new node from the queue keeps. */
  lemma Taken(g: Graph, platform: set<string>, source: string, seen: set<string>, queue: seq<Visit>,
              length: map<string, nat>, added: seq<Visit>)
    requires Closed(g) && queue != [] && queue[0].node !in seen
    requires SeenSound(g, seen, queue, length) && QueueSound(g, platform, source, queue)
             && Expanded(g, platform, queue, length)
    requires queue[0].node in g
    requires if queue[0].node in platform then added == []
             else added == Steps(queue[0], g[queue[0].node], seen + {queue[0].node})
    ensures var v := queue[0];
            var length', queue' := length[v.node := |v.path|], queue[1..] + added;
            && SeenSound(g, seen + {v.node}, queue', length') && QueueSound(g, platform, source, queue')
            && Expanded(g, platform, queue', length')
            && (Met(queue, length, source, 1) ==> Met(queue', length', source, 1))
  {
    var v := queue[0];
    var length', queue' := length[v.node := |v.path|], queue[1..] + added;
    if v.node !in platform { StepsAre(v, g[v.node], seen + {v.node}); }
    AddedSound(g, platform, source, queue, added);
    assert SeenSound(g, seen + {v.node}, queue', length');
    hide QueueSound, Leads, Steps, Met;
    forall n: string, bound: nat | Met(queue, length, n, bound) ensures Met(queue', length', n, bound) {
      MetOn(queue, length, added, n, bound);
    }
    forall n, c | n in length' && n in g && n !in platform && c in g[n]
      ensures Met(queue', length', c, length'[n] + 1) {
      if n == v.node {
        if c in seen {
          assert length[c] <= |v.path|;
          MetNow(queue', length', c, |v.path| + 1);
        } else if c == v.node {
          MetNow(queue', length', c, |v.path| + 1);
        } else {
          MetLater(queue[1..], added, length', Visit(c, v.path + [c]));
        }
      } else {
        assert Met(queue, length, c, length[n] + 1);
      }
    }
  }

  lemma MetNow(queue: seq<Visit>, length: map<string, nat>, n: string, bound: nat)
    requires n in length && length[n] <= bound
    ensures Met(queue, length, n, bound)
  {
  }

  lemma MetLater(rest: seq<Visit>, added: seq<Visit>, length: map<string, nat>, v: Visit)
    requires v in added
    ensures Met(rest + added, length, v.node, |v.path|)
  {
    var i :| 0 <= i < |added| && added[i] == v;
    assert (rest + added)[|rest| + i] == v;
  }

  lemma AddedSound(g: Graph, platform: set<string>, source: string, queue: seq<Visit>, added: seq<Visit>)
    requires Closed(g) && queue != [] && QueueSound(g, platform, source, queue) && queue[0].node in g
    requires added != [] ==> queue[0].node !in platform
    requires forall i | 0 <= i < |added| ::
               added[i].node in g[queue[0].node] && added[i] == Visit(added[i].node, queue[0].path + [added[i].node])
    ensures QueueSound(g, platform, source, queue[1..] + added)
    ensures forall i | 0 <= i < |queue[1..] + added| :: |queue[0].path| <= |(queue[1..] + added)[i].path|
  {
    var v, made := queue[0], queue[1..] + added;
    assert Leads(g, platform, source, v.node, v.path);
    forall i | 0 <= i < |made|
      ensures Leads(g, platform, source, made[i].node, made[i].path) && |v.path| <= |made[i].path| <= |v.path| + 1 {
      if i < |queue| - 1 {
        assert made[i] == queue[i + 1];
      } else {
        assert made[i] == added[i - (|queue| - 1)];
        LeadsOn(g, platform, source, v.path, made[i].node);
      }
    }
    forall i, k | 0 <= i < k < |made| ensures |made[i].path| <= |made[k].path| {
      if k < |queue| - 1 { assert made[i] == queue[i + 1] && made[k] == queue[k + 1]; }
    }
  }

  lemma MetOn(queue: seq<Visit>, length: map<string, nat>, added: seq<Visit>, n: string, bound: nat)
    requires queue != [] && queue[0].node !in length && Met(queue, length, n, bound)
    ensures Met(queue[1..] + added, length[queue[0].node := |queue[0].path|], n, bound)
  {
    if !(n in length && length[n] <= bound) {
      var i :| 0 <= i < |queue| && queue[i].node == n && |queue[i].path| <= bound;
      if i > 0 { assert (queue[1..] + added)[i - 1] == queue[i]; }
    }
  }

  /** The platform modules a source meets first, each once, by a shortest path. */
  method Search(g: Graph, platform: set<string>, source: string) returns (found: seq<Visit>)
    requires Closed(g) && source in g
    ensures forall i | 0 <= i < |found| ::
              found[i].node in platform && Shortest(g, platform, source, found[i].node, found[i].path)
    ensures forall i, k | 0 <= i < k < |found| :: found[i].node != found[k].node
    ensures forall t, p | t in platform && Leads(g, platform, source, t, p) ::
              exists i :: 0 <= i < |found| && found[i].node == t
  {
    hide Searching, FoundSound, Shortest, Steps;
    var queue, seen := [Visit(source, [source])], {};
    ghost var length: map<string, nat> := map[];
    found := [];
    Started(g, platform, source);
    while queue != []
      invariant Searching(g, platform, source, seen, queue, length) && seen <= g.Keys
      invariant FoundSound(g, platform, source, seen, found)
      decreases g.Keys - seen, |queue|
    {
      var v := queue[0];
      if v.node in seen {
        Skip(g, platform, source, seen, queue, length);
        queue := queue[1..];
        continue;
      }
      HeadIsShortest(g, platform, source, seen, queue, length);
      var added := if v.node in platform then [] else Steps(v, g[v.node], seen + {v.node});
      Take(g, platform, source, seen, queue, length, added);
      if v.node in platform {
        FoundGrows(g, platform, source, seen, found, v);
        found := found + [v];
      } else {
        FoundStays(g, platform, source, seen, found, v.node);
      }
      seen, length := seen + {v.node}, length[v.node := |v.path|];
      queue := queue[1..] + added;
    }
    AllFound(g, platform, source, seen, length, found);
  }

  ghost predicate Searching(g: Graph, platform: set<string>, source: string, seen: set<string>, queue: seq<Visit>,
                            length: map<string, nat>) {
    && SeenSound(g, seen, queue, length) && QueueSound(g, platform, source, queue)
    && Expanded(g, platform, queue, length)
    && Met(queue, length, source, 1)
  }

  /** What has been found: the platform modules seen, each once, by a shortest path. */
  ghost predicate FoundSound(g: Graph, platform: set<string>, source: string, seen: set<string>, found: seq<Visit>) {
    && (forall i | 0 <= i < |found| ::
          found[i].node in platform && found[i].node in seen
          && Shortest(g, platform, source, found[i].node, found[i].path))
    && (forall i, k | 0 <= i < k < |found| :: found[i].node != found[k].node)
    && (forall t | t in seen && t in platform :: exists i :: 0 <= i < |found| && found[i].node == t)
  }

  lemma Skip(g: Graph, platform: set<string>, source: string, seen: set<string>, queue: seq<Visit>,
             length: map<string, nat>)
    requires queue != [] && queue[0].node in seen && Searching(g, platform, source, seen, queue, length)
    ensures Searching(g, platform, source, seen, queue[1..], length)
  {
    hide SeenSound, QueueSound, Expanded, Met;
    Skipped(g, platform, source, seen, queue, length);
  }

  lemma Take(g: Graph, platform: set<string>, source: string, seen: set<string>, queue: seq<Visit>,
             length: map<string, nat>, added: seq<Visit>)
    requires Closed(g) && queue != [] && queue[0].node !in seen && queue[0].node in g
             && Searching(g, platform, source, seen, queue, length)
    requires added == if queue[0].node in platform then []
             else Steps(queue[0], g[queue[0].node], seen + {queue[0].node})
    ensures Searching(g, platform, source, seen + {queue[0].node}, queue[1..] + added,
              length[queue[0].node := |queue[0].path|])
  {
    hide SeenSound, QueueSound, Expanded, Met, Steps;
    Taken(g, platform, source, seen, queue, length, added);
  }

  lemma FoundGrows(g: Graph, platform: set<string>, source: string, seen: set<string>, found: seq<Visit>, v: Visit)
    requires FoundSound(g, platform, source, seen, found) && v.node !in seen && v.node in platform
    requires Shortest(g, platform, source, v.node, v.path)
    ensures FoundSound(g, platform, source, seen + {v.node}, found + [v])
  {
    hide Shortest;
    var more := found + [v];
    forall t | t in seen + {v.node} && t in platform ensures exists i :: 0 <= i < |more| && more[i].node == t {
      if t == v.node {
        assert more[|found|].node == t;
      } else {
        var i :| 0 <= i < |found| && found[i].node == t;
        assert more[i].node == t;
      }
    }
  }

  lemma FoundStays(g: Graph, platform: set<string>, source: string, seen: set<string>, found: seq<Visit>, n: string)
    requires FoundSound(g, platform, source, seen, found) && n !in platform
    ensures FoundSound(g, platform, source, seen + {n}, found)
  {
    hide Shortest;
  }

  lemma AllFound(g: Graph, platform: set<string>, source: string, seen: set<string>, length: map<string, nat>,
                 found: seq<Visit>)
    requires Searching(g, platform, source, seen, [], length) && FoundSound(g, platform, source, seen, found)
    ensures forall i | 0 <= i < |found| ::
              found[i].node in platform && Shortest(g, platform, source, found[i].node, found[i].path)
    ensures forall i, k | 0 <= i < k < |found| :: found[i].node != found[k].node
    ensures forall t, p | t in platform && Leads(g, platform, source, t, p) ::
              exists i :: 0 <= i < |found| && found[i].node == t
  {
    hide Leads, SeenSound, QueueSound, Expanded, Met, Shortest;
    forall t, p | t in platform && Leads(g, platform, source, t, p)
      ensures exists i :: 0 <= i < |found| && found[i].node == t {
      Frontier(g, platform, source, t, p, seen, [], length);
    }
  }

  lemma Started(g: Graph, platform: set<string>, source: string)
    requires source in g
    ensures Searching(g, platform, source, {}, [Visit(source, [source])], map[])
    ensures FoundSound(g, platform, source, {}, [])
  {
    var queue := [Visit(source, [source])];
    assert queue[0].node == source;
  }

  lemma HeadIsShortest(g: Graph, platform: set<string>, source: string, seen: set<string>, queue: seq<Visit>,
                       length: map<string, nat>)
    requires queue != [] && queue[0].node !in seen && Searching(g, platform, source, seen, queue, length)
    ensures queue[0].node in g && Shortest(g, platform, source, queue[0].node, queue[0].path)
  {
    var v := queue[0];
    assert Leads(g, platform, source, v.node, v.path);
    hide Expanded, Met;
    forall q | Leads(g, platform, source, v.node, q) ensures |v.path| <= |q| {
      Frontier(g, platform, source, v.node, q, seen, queue, length);
    }
  }

  // -------------------------------------------------------------- inventory

  /** Any path to a platform module starts with a clean path to the first one on it. */
  lemma {:induction false} FirstPlatform(g: Graph, platform: set<string>, p: seq<string>) returns (k: nat)
    requires IsPath(g, p) && p[|p| - 1] in platform
    ensures k < |p| && p[k] in platform && Leads(g, platform, p[0], p[k], p[..k + 1])
    decreases |p|
  {
    if exists i :: 0 <= i < |p| - 1 && p[i] in platform {
      var i :| 0 <= i < |p| - 1 && p[i] in platform;
      var q := p[..i + 1];
      forall m | 0 < m < |q| ensures Imports(g, q, m) { assert Imports(g, p, m); }
      k := FirstPlatform(g, platform, q);
      assert q[..k + 1] == p[..k + 1];
    } else {
      k := |p| - 1;
      assert p[..k + 1] == p;
    }
  }

  /** For every module that is not a platform module, the platform modules it meets; and the
      paths of the application modules among them. */
  method Inventory(g: Graph, files: seq<string>, platform: set<string>, application: set<string>)
    returns (indirect: seq<(string, string)>, paths: seq<seq<string>>)
    requires Closed(g) && (forall f :: f in files <==> f in g)
    ensures forall s, t :: (s, t) in indirect <==>
              s in g && s !in platform && t in platform && exists p :: Leads(g, platform, s, t, p)
    ensures forall p | p in paths ::
              p != [] && p[0] in application && p[0] !in platform && p[|p| - 1] in platform
              && Shortest(g, platform, p[0], p[|p| - 1], p)
    ensures paths == [] <==>
              forall p | IsPath(g, p) && p[0] in application && p[0] !in platform :: p[|p| - 1] !in platform
  {
    hide Leads;
    indirect, paths := [], [];
    var i := 0;
    while i < |files|
      invariant 0 <= i <= |files|
      invariant forall s, t :: (s, t) in indirect <==>
                  s in files[..i] && s !in platform && t in platform && exists p :: Leads(g, platform, s, t, p)
      invariant forall p | p in paths ::
                  p != [] && p[0] in application && p[0] !in platform && p[|p| - 1] in platform
                  && Shortest(g, platform, p[0], p[|p| - 1], p)
      invariant paths == [] <==> forall s, t :: (s, t) in indirect ==> s !in application
    {
      var source := files[i];
      assert files[..i + 1] == files[..i] + [source];
      if source !in platform {
        var found := Search(g, platform, source);
        var pairs, routes := Report(g, platform, source, found, source in application);
        indirect, paths := indirect + pairs, paths + routes;
      }
      i := i + 1;
    }
    assert files[..i] == files;
    NoneReached(g, platform, application, indirect);
  }

  method Report(g: Graph, platform: set<string>, source: string, found: seq<Visit>, application: bool)
    returns (pairs: seq<(string, string)>, routes: seq<seq<string>>)
    requires forall i | 0 <= i < |found| ::
               found[i].node in platform && Shortest(g, platform, source, found[i].node, found[i].path)
    requires forall t, p | t in platform && Leads(g, platform, source, t, p) ::
               exists i :: 0 <= i < |found| && found[i].node == t
    ensures forall s, t :: (s, t) in pairs <==> s == source && t in platform && exists p :: Leads(g, platform, s, t, p)
    ensures forall p | p in routes ::
              p != [] && p[0] == source && p[|p| - 1] in platform && Shortest(g, platform, p[0], p[|p| - 1], p)
    ensures routes == [] <==> (pairs == [] || !application)
    ensures pairs == [] <==> forall t :: (source, t) !in pairs
    ensures !application ==> routes == []
  {
    hide Shortest;
    pairs, routes := [], [];
    var i := 0;
    while i < |found|
      invariant 0 <= i <= |found| && |pairs| == i && |routes| == (if application then i else 0)
      invariant forall k | 0 <= k < i :: pairs[k] == (source, found[k].node)
      invariant forall k | 0 <= k < |routes| :: routes[k] == found[k].path
    {
      pairs := pairs + [(source, found[i].node)];
      if application { routes := routes + [found[i].path]; }
      i := i + 1;
    }
    Reported(g, platform, source, found, pairs, routes);
  }

  lemma Reported(g: Graph, platform: set<string>, source: string, found: seq<Visit>, pairs: seq<(string, string)>,
                 routes: seq<seq<string>>)
    requires forall i | 0 <= i < |found| ::
               found[i].node in platform && Shortest(g, platform, source, found[i].node, found[i].path)
    requires forall t, p | t in platform && Leads(g, platform, source, t, p) ::
               exists i :: 0 <= i < |found| && found[i].node == t
    requires |pairs| == |found| && forall k | 0 <= k < |pairs| :: pairs[k] == (source, found[k].node)
    requires |routes| <= |found| && forall k | 0 <= k < |routes| :: routes[k] == found[k].path
    ensures forall s, t :: (s, t) in pairs <==> s == source && t in platform && exists p :: Leads(g, platform, s, t, p)
    ensures forall p | p in routes ::
              p != [] && p[0] == source && p[|p| - 1] in platform && Shortest(g, platform, p[0], p[|p| - 1], p)
    ensures pairs == [] <==> forall t :: (source, t) !in pairs
  {
    forall s, t | (s, t) in pairs ensures s == source && t in platform && exists p :: Leads(g, platform, s, t, p) {
      var k :| 0 <= k < |pairs| && pairs[k] == (s, t);
      assert Leads(g, platform, source, t, found[k].path);
    }
    forall t | t in platform && exists p :: Leads(g, platform, source, t, p) ensures (source, t) in pairs {
      var p :| Leads(g, platform, source, t, p);
      var i :| 0 <= i < |found| && found[i].node == t;
      assert pairs[i] == (source, t);
    }
    if pairs != [] { assert pairs[0] == (source, found[0].node); assert pairs[0] in pairs; }
  }

  lemma NoneReached(g: Graph, platform: set<string>, application: set<string>, indirect: seq<(string, string)>)
    requires forall s, t :: (s, t) in indirect <==>
               s in g && s !in platform && t in platform && exists p :: Leads(g, platform, s, t, p)
    ensures (forall s, t :: (s, t) in indirect ==> s !in application) <==>
              forall p | IsPath(g, p) && p[0] in application && p[0] !in platform :: p[|p| - 1] !in platform
  {
    if exists p :: IsPath(g, p) && p[0] in application && p[0] !in platform && p[|p| - 1] in platform {
      var p :| IsPath(g, p) && p[0] in application && p[0] !in platform && p[|p| - 1] in platform;
      var k := FirstPlatform(g, platform, p);
      assert (p[0], p[k]) in indirect;
    }
    if forall p | IsPath(g, p) && p[0] in application && p[0] !in platform :: p[|p| - 1] !in platform {
      forall s, t | (s, t) in indirect ensures s !in application {
        var p :| Leads(g, platform, s, t, p);
        assert IsPath(g, p);
      }
    }
  }
}
