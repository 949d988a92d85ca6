/** The search for binary data in a packet. */
module BinaryDetection {
  // Values form a finite graph that may be cyclic; an object's `toJSON`, if it has one, stands
  // for a fixed value of that graph and is followed one hop only.

  import opened Common

  datatype Value = Primitive | Object(node: nat)

  /** `binary` holds of buffers, views and blobs. */
  datatype Node = Node(binary: bool, toJSON: Option<Value>, children: seq<Value>)

  type Graph = seq<Node>

  predicate Within(g: Graph, v: Value) {
    v.Object? ==> v.node < |g|
  }

  predicate Closed(g: Graph) {
    forall n :: 0 <= n < |g| ==>
      && (g[n].toJSON.Some? ==> Within(g, g[n].toJSON.value))
      && (forall i :: 0 <= i < |g[n].children| ==> Within(g, g[n].children[i]))
  }

  // What the search looks for.

  /** A value and whether its own `toJSON` still counts. */
  datatype Look = Look(value: Value, inspect: bool)

  predicate IsBinary(g: Graph, l: Look) {
    l.value.Object? && l.value.node < |g| && g[l.value.node].binary
  }

  /** From an object the serializer goes to its `toJSON` value, or to its own properties. */
  predicate Next(g: Graph, l: Look, m: Look) {
    && l.value.Object? && l.value.node < |g|
    && var node := g[l.value.node];
       if l.inspect && node.toJSON.Some?
       then m == Look(node.toJSON.value, false)
       else m.inspect && m.value in node.children
  }

  ghost predicate ReachesIn(g: Graph, l: Look, steps: nat)
    decreases steps
  {
    if steps == 0 then IsBinary(g, l)
    else exists m :: Next(g, l, m) && ReachesIn(g, m, steps - 1)
  }

  ghost predicate Reaches(g: Graph, l: Look) {
    exists steps: nat :: ReachesIn(g, l, steps)
  }

  lemma ReachesAfter(g: Graph, l: Look, m: Look)
    requires Next(g, l, m) && Reaches(g, m)
    ensures Reaches(g, l)
  {
    var steps: nat :| ReachesIn(g, m, steps);
    assert ReachesIn(g, l, steps + 1);
  }

  // Why an exhausted search is complete.

  /** The look leads to no binary node, as far as `seen` has been explored. */
  predicate Covered(g: Graph, seen: set<nat>, l: Look) {
    match l.value
    case Primitive => true
    case Object(n) =>
      && n < |g| && !g[n].binary
      && if l.inspect && g[n].toJSON.Some? then CoveredValue(g, seen, g[n].toJSON.value) else n in seen
  }

  predicate CoveredValue(g: Graph, seen: set<nat>, v: Value) {
    match v
    case Primitive => true
    case Object(n) => n < |g| && !g[n].binary && n in seen
  }

  /** Every explored node, but for those still being explored, has all its children covered. */
  ghost predicate Explored(g: Graph, seen: set<nat>, open: set<nat>) {
    forall n :: n in seen && n !in open ==>
      n < |g| && forall v :: v in g[n].children ==> Covered(g, seen, Look(v, true))
  }

  lemma CoveredGrows(g: Graph, seen: set<nat>, more: set<nat>, l: Look)
    requires Covered(g, seen, l) && seen <= more
    ensures Covered(g, more, l)
  {}

  lemma {:induction false} CoveredReachesNothing(g: Graph, seen: set<nat>, l: Look, steps: nat)
    requires Explored(g, seen, {}) && Covered(g, seen, l)
    ensures !ReachesIn(g, l, steps)
    decreases steps
  {
    if steps > 0 {
      forall m | Next(g, l, m) ensures !ReachesIn(g, m, steps - 1) {
        assert Covered(g, seen, m);
        CoveredReachesNothing(g, seen, m, steps - 1);
      }
    }
  }

  function Unseen(g: Graph, seen: set<nat>): set<nat> {
    set n: nat | n < |g| && n !in seen
  }

  lemma UnseenShrinks(g: Graph, seen: set<nat>, more: set<nat>)
    requires seen <= more
    ensures |Unseen(g, more)| <= |Unseen(g, seen)|
    ensures forall n :: n in more && n !in seen && n < |g| ==> |Unseen(g, more)| < |Unseen(g, seen)|
  {
    assert Unseen(g, more) <= Unseen(g, seen);
    SubsetSize(Unseen(g, more), Unseen(g, seen));
    forall n | n in more && n !in seen && n < |g| ensures |Unseen(g, more)| < |Unseen(g, seen)| {
      SubsetSize(Unseen(g, more), Unseen(g, seen) - {n});
    }
  }

  /**
    `containsBinary`. `seen` is the set shared by all calls of one search; `open` names
    the nodes whose properties callers are still going through.
   */
  method ContainsBinary(g: Graph, value: Value, seen: set<nat>, inspect: bool, ghost open: set<nat>)
    returns (found: bool, visited: set<nat>)
    requires Closed(g) && Within(g, value) && Explored(g, seen, open)
    ensures seen <= visited
    ensures found ==> Reaches(g, Look(value, inspect))
    ensures !found ==> Explored(g, visited, open) && Covered(g, visited, Look(value, inspect))
    decreases |Unseen(g, seen)|, inspect
  {
    ghost var look := Look(value, inspect);
    visited := seen;
    if value.Primitive? { return false, visited; }
    var n := value.node;
    if g[n].binary {
      assert ReachesIn(g, look, 0);
      return true, visited;
    }
    if inspect && g[n].toJSON.Some? {
      found, visited := ContainsBinary(g, g[n].toJSON.value, seen, false, open);
      if found { ReachesAfter(g, look, Look(g[n].toJSON.value, false)); }
      return;
    }
    if n in seen { return false, visited; }
    visited := seen + {n};
    var children := g[n].children;
    ghost var inside := open + {n};
    OpenNode(g, seen, open, n);
    var i := 0;
    while i < |children|
      invariant i <= |children| && seen + {n} <= visited
      invariant Explored(g, visited, inside)
      invariant forall j :: 0 <= j < i ==> Covered(g, visited, Look(children[j], true))
    {
      ghost var before := visited;
      UnseenShrinks(g, seen, visited);
      assert n in visited && n !in seen && n < |g|;
      found, visited := ContainsBinary(g, children[i], visited, true, inside);
      if found {
        ReachesAfter(g, look, Look(children[i], true));
        return;
      }
      forall j | 0 <= j < i ensures Covered(g, visited, Look(children[j], true)) {
        CoveredGrows(g, before, visited, Look(children[j], true));
      }
      i := i + 1;
    }
    found := false;
    CloseNode(g, visited, open, n);
  }

  lemma OpenNode(g: Graph, seen: set<nat>, open: set<nat>, n: nat)
    requires Explored(g, seen, open)
    ensures Explored(g, seen + {n}, open + {n})
  {
    forall m | m in seen + {n} && m !in open + {n}
      ensures m < |g| && forall v :: v in g[m].children ==> Covered(g, seen + {n}, Look(v, true))
    {
      assert m in seen && m !in open;
      forall v | v in g[m].children ensures Covered(g, seen + {n}, Look(v, true)) {
        CoveredGrows(g, seen, seen + {n}, Look(v, true));
      }
    }
  }

  lemma CloseNode(g: Graph, seen: set<nat>, open: set<nat>, n: nat)
    requires n < |g| && Explored(g, seen, open + {n})
    requires forall j :: 0 <= j < |g[n].children| ==> Covered(g, seen, Look(g[n].children[j], true))
    ensures Explored(g, seen, open)
  {
    forall m | m in seen && m !in open
      ensures m < |g| && forall v :: v in g[m].children ==> Covered(g, seen, Look(v, true))
    {
      assert m != n ==> m !in open + {n};
    }
  }

  /** The search ends and answers true exactly when a binary node can be reached. */
  method Detect(g: Graph, value: Value) returns (found: bool)
    requires Closed(g) && Within(g, value)
    ensures found <==> Reaches(g, Look(value, true))
  {
    var visited;
    found, visited := ContainsBinary(g, value, {}, true, {});
    if !found {
      forall steps: nat ensures !ReachesIn(g, Look(value, true), steps) {
        CoveredReachesNothing(g, visited, Look(value, true), steps);
      }
    }
  }

  /**
    In every graph, an object with a `toJSON` is worth exactly what its `toJSON` value is
    worth, whatever its own properties hold; and a value come by that way is worth what its
    own properties are, whatever `toJSON` it has itself.
   */
  lemma OneHopOnly(g: Graph, n: nat)
    requires n < |g| && !g[n].binary
    ensures g[n].toJSON.Some? ==>
              (Reaches(g, Look(Object(n), true)) <==> Reaches(g, Look(g[n].toJSON.value, false)))
    ensures Reaches(g, Look(Object(n), false)) <==>
              exists v :: v in g[n].children && Reaches(g, Look(v, true))
  {
    forall inspect ensures Reaches(g, Look(Object(n), inspect)) <==>
                           exists m :: Next(g, Look(Object(n), inspect), m) && Reaches(g, m)
    {
      ReachesNext(g, Look(Object(n), inspect));
    }
    if g[n].toJSON.Some? { assert Next(g, Look(Object(n), true), Look(g[n].toJSON.value, false)); }
    forall v | v in g[n].children ensures Next(g, Look(Object(n), false), Look(v, true)) {}
  }

  lemma ReachesNext(g: Graph, l: Look)
    requires !IsBinary(g, l)
    ensures Reaches(g, l) <==> exists m :: Next(g, l, m) && Reaches(g, m)
  {
    if Reaches(g, l) {
      var steps: nat :| ReachesIn(g, l, steps);
      var m :| Next(g, l, m) && ReachesIn(g, m, steps - 1);
      assert Reaches(g, m);
    }
    forall m | Next(g, l, m) && Reaches(g, m) ensures Reaches(g, l) { ReachesAfter(g, l, m); }
  }
}
