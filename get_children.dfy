/** `getChildren`: the open descendants of a node in the flat registry of a
    floating tree, found one level at a time. */
module TreeQuery {
  import opened Types

  /** What a filter pass keeps children of: the queried id (first pass) or
      any node of the previous level (later passes). */
  datatype Parent = Root(id: Option<string>) | AnyOf(level: seq<FloatingNode>)

  /** `node.parentId === id` on the first pass (an undefined id equals no
      `parentId`, which is a string or null) and
      `currentChildren.some(n => node.parentId === n.id)` on later passes. */
  predicate ChildOf(n: FloatingNode, p: Parent) {
    match p
    case Root(id) => id.Some? && n.parentId == id
    case AnyOf(level) => SomeParent(level, n)
  }

  /** `level.some(m => n.parentId === m.id)` */
  predicate SomeParent(level: seq<FloatingNode>, n: FloatingNode) {
    level != [] && (n.parentId == Some(level[0].id) || SomeParent(level[1..], n))
  }

  /** `some` holds exactly when a node of the level is the parent. */
  lemma {:induction false} SomeParentWitness(level: seq<FloatingNode>, n: FloatingNode) returns (m: FloatingNode)
    requires SomeParent(level, n)
    ensures m in level && n.parentId == Some(m.id)
  {
    if n.parentId == Some(level[0].id) {
      m := level[0];
    } else {
      m := SomeParentWitness(level[1..], n);
    }
  }

  lemma {:induction false} SomeParentIntro(level: seq<FloatingNode>, n: FloatingNode, m: FloatingNode)
    requires m in level && n.parentId == Some(m.id)
    ensures SomeParent(level, n)
  {
    if level[0] != m {
      assert m in level[1..];
      SomeParentIntro(level[1..], n, m);
    }
  }

  /** One `filter` pass over the registry: the open children of `p`. */
  function Select(nodes: seq<FloatingNode>, p: Parent): (r: seq<FloatingNode>)
    ensures |r| <= |nodes|
    ensures forall n {:trigger n in r} :: n in r <==> n in nodes && IsOpen(n) && ChildOf(n, p)
  {
    if nodes == [] then []
    else
      var rest := Select(nodes[1..], p);
      if IsOpen(nodes[0]) && ChildOf(nodes[0], p) then [nodes[0]] + rest else rest
  }

  /** A pass keeps registry order: filtering a concatenation filters each part. */
  lemma {:induction false} SelectAppend(a: seq<FloatingNode>, b: seq<FloatingNode>, p: Parent)
    ensures Select(a + b, p) == Select(a, p) + Select(b, p)
  {
    if a != [] {
      assert (a + b)[1..] == a[1..] + b;
      SelectAppend(a[1..], b, p);
    } else {
      assert a + b == b;
    }
  }

  /** Level `k` of the expansion: level 0 is the open children of `id`, level
      `k + 1` the open children of level `k`. */
  ghost function Level(nodes: seq<FloatingNode>, id: Option<string>, k: nat): seq<FloatingNode> {
    if k == 0 then Select(nodes, Root(id)) else Select(nodes, AnyOf(Level(nodes, id, k - 1)))
  }

  /** Levels `0..k`, concatenated in order. */
  ghost function Upto(nodes: seq<FloatingNode>, id: Option<string>, k: nat): seq<FloatingNode> {
    if k == 0 then Level(nodes, id, 0) else Upto(nodes, id, k - 1) + Level(nodes, id, k)
  }

  /** Every level the registry can hold: no chain of open parent links in a
      registry of `n` nodes is longer than `n`. */
  ghost function Descendants(nodes: seq<FloatingNode>, id: Option<string>): seq<FloatingNode> {
    Upto(nodes, id, |nodes|)
  }

  /** The open parent links are acyclic: `rank` numbers the ids of open nodes
      below the registry size so that an open parent ranks below its open child. */
  ghost predicate Ranked(nodes: seq<FloatingNode>, rank: map<string, nat>) {
    (forall n :: n in nodes && IsOpen(n) ==> n.id in rank && rank[n.id] < |nodes|) &&
    (forall n, m :: n in nodes && m in nodes && IsOpen(n) && IsOpen(m) && n.parentId == Some(m.id) ==>
       m.id in rank && n.id in rank && rank[m.id] < rank[n.id])
  }

  /** No two registry entries share an id. */
  ghost predicate UniqueIds(nodes: seq<FloatingNode>) {
    forall i, j :: 0 <= i < j < |nodes| ==> nodes[i].id != nodes[j].id
  }

  /** The registry query. `tree` is absent outside a `FloatingTree`; `rank`
      only witnesses that the loop ends. */
  method GetChildren(tree: Option<seq<FloatingNode>>, id: Option<string>, ghost rank: map<string, nat>)
    returns (all: seq<FloatingNode>)
    requires Ranked(tree.GetOr([]), rank)
    ensures all == Descendants(tree.GetOr([]), id)
  {
    var nodes := tree.GetOr([]);
    all := Select(nodes, Root(id));
    var current := all;
    ghost var k: nat := 0;
    while |current| > 0
      invariant k <= |nodes|
      invariant current == Level(nodes, id, k)
      invariant all == Upto(nodes, id, k)
      decreases |nodes| - k
    {
      LevelBound(nodes, id, rank, k);
      current := Select(nodes, AnyOf(current));
      all := all + current;
      k := k + 1;
    }
    UptoSettles(nodes, id, k, |nodes|);
  }

  /** A node of level `k + 1` has its parent in level `k`. */
  lemma ParentInLevel(nodes: seq<FloatingNode>, id: Option<string>, k: nat, x: FloatingNode)
    returns (p: FloatingNode)
    requires x in Level(nodes, id, k + 1)
    ensures p in Level(nodes, id, k) && x.parentId == Some(p.id)
    ensures p in nodes && IsOpen(p)
  {
    assert ChildOf(x, AnyOf(Level(nodes, id, k)));
    p := SomeParentWitness(Level(nodes, id, k), x);
  }

  /** Each later level is exactly the open registry nodes whose parent is in
      the previous level. */
  lemma LevelStep(nodes: seq<FloatingNode>, id: Option<string>, k: nat, n: FloatingNode)
    ensures n in Level(nodes, id, k + 1) <==>
              n in nodes && IsOpen(n) && exists m :: m in Level(nodes, id, k) && n.parentId == Some(m.id)
  {
    if n in Level(nodes, id, k + 1) {
      var p := ParentInLevel(nodes, id, k, n);
    }
    if n in nodes && IsOpen(n) && exists m :: m in Level(nodes, id, k) && n.parentId == Some(m.id) {
      var m :| m in Level(nodes, id, k) && n.parentId == Some(m.id);
      SomeParentIntro(Level(nodes, id, k), n, m);
    }
  }

  /** Following parents from level `i` back to level 0 climbs `i` ranks. */
  lemma {:induction false} AncestorRank(nodes: seq<FloatingNode>, id: Option<string>, rank: map<string, nat>, i: nat, x: FloatingNode)
    returns (r: FloatingNode)
    requires Ranked(nodes, rank)
    requires x in Level(nodes, id, i)
    ensures r in Level(nodes, id, 0)
    ensures x.id in rank && r.id in rank && rank[x.id] >= rank[r.id] + i
  {
    if i == 0 {
      r := x;
    } else {
      var p := ParentInLevel(nodes, id, i - 1, x);
      r := AncestorRank(nodes, id, rank, i - 1, p);
    }
  }

  /** With acyclic links, level `k` is empty once `k` reaches the registry size. */
  lemma LevelBound(nodes: seq<FloatingNode>, id: Option<string>, rank: map<string, nat>, k: nat)
    requires Ranked(nodes, rank)
    ensures Level(nodes, id, k) != [] ==> k < |nodes|
  {
    if Level(nodes, id, k) != [] {
      var x := Level(nodes, id, k)[0];
      var r := AncestorRank(nodes, id, rank, k, x);
    }
  }

  /** A pass with no parent to match keeps nothing. */
  lemma {:induction false} SelectNothing(nodes: seq<FloatingNode>)
    ensures Select(nodes, AnyOf([])) == [] && Select(nodes, Root(None)) == []
  {
    if nodes != [] {
      SelectNothing(nodes[1..]);
    }
  }

  /** After an empty level every later level is empty, so nothing more is added. */
  lemma {:induction false} UptoSettles(nodes: seq<FloatingNode>, id: Option<string>, k: nat, m: nat)
    requires Level(nodes, id, k) == []
    requires k <= m
    ensures Level(nodes, id, m) == [] && Upto(nodes, id, m) == Upto(nodes, id, k)
  {
    if k < m {
      UptoSettles(nodes, id, k, m - 1);
      SelectNothing(nodes);
      var u := Upto(nodes, id, m - 1);
      assert Upto(nodes, id, m) == u + [];
      assert u + [] == u;
    }
  }

  /** A node of one of the levels `0..k` is in their concatenation. */
  lemma {:induction false} UptoIntro(nodes: seq<FloatingNode>, id: Option<string>, k: nat, j: nat, n: FloatingNode)
    requires j <= k && n in Level(nodes, id, j)
    ensures n in Upto(nodes, id, k)
  {
    if k > 0 {
      var u := Upto(nodes, id, k - 1);
      var l := Level(nodes, id, k);
      assert Upto(nodes, id, k) == u + l;
      if j < k {
        UptoIntro(nodes, id, k - 1, j, n);
        assert n in u;
      } else {
        assert n in l;
      }
    }
  }

  /** A node of the concatenation of levels `0..k` comes from one of them. */
  lemma {:induction false} UptoLevel(nodes: seq<FloatingNode>, id: Option<string>, k: nat, n: FloatingNode)
    returns (j: nat)
    requires n in Upto(nodes, id, k)
    ensures j <= k && n in Level(nodes, id, j)
  {
    if k == 0 {
      j := 0;
    } else {
      var u := Upto(nodes, id, k - 1);
      var l := Level(nodes, id, k);
      assert Upto(nodes, id, k) == u + l;
      if n in u {
        j := UptoLevel(nodes, id, k - 1, n);
      } else {
        j := k;
      }
    }
  }

  /** The result begins with the first pass, exactly as `filter` produced it. */
  lemma {:induction false} FirstLevelLeads(nodes: seq<FloatingNode>, id: Option<string>, k: nat)
    ensures |Select(nodes, Root(id))| <= |Upto(nodes, id, k)|
    ensures Upto(nodes, id, k)[..|Select(nodes, Root(id))|] == Select(nodes, Root(id))
  {
    var f := Select(nodes, Root(id));
    if k == 0 {
      assert Upto(nodes, id, 0) == f;
      assert f[..|f|] == f;
    } else {
      FirstLevelLeads(nodes, id, k - 1);
      var u := Upto(nodes, id, k - 1);
      var l := Level(nodes, id, k);
      assert Upto(nodes, id, k) == u + l;
      assert (u + l)[..|f|] == u[..|f|];
    }
  }

  /** Every returned node is a registry entry with an open context. */
  lemma DescendantsOpen(nodes: seq<FloatingNode>, id: Option<string>, n: FloatingNode)
    requires n in Descendants(nodes, id)
    ensures n in nodes && IsOpen(n)
  {
    var j := UptoLevel(nodes, id, |nodes|, n);
  }

  /** Every returned node is a child of `id` or of another returned node. */
  lemma DescendantsSound(nodes: seq<FloatingNode>, id: Option<string>, n: FloatingNode)
    requires n in Descendants(nodes, id)
    ensures (id.Some? && n.parentId == id) || exists m :: m in Descendants(nodes, id) && n.parentId == Some(m.id)
  {
    var j := UptoLevel(nodes, id, |nodes|, n);
    if j > 0 {
      var p := ParentInLevel(nodes, id, j - 1, n);
      UptoIntro(nodes, id, |nodes|, j - 1, p);
    }
  }

  /** With acyclic links the result is closed: every open child of `id` or of
      a returned node is returned. */
  lemma DescendantsComplete(nodes: seq<FloatingNode>, id: Option<string>, rank: map<string, nat>, n: FloatingNode)
    requires Ranked(nodes, rank)
    requires n in nodes && IsOpen(n)
    requires (id.Some? && n.parentId == id) || exists m :: m in Descendants(nodes, id) && n.parentId == Some(m.id)
    ensures n in Descendants(nodes, id)
  {
    if id.Some? && n.parentId == id {
      assert n in Level(nodes, id, 0);
      UptoIntro(nodes, id, |nodes|, 0, n);
    } else {
      var m :| m in Descendants(nodes, id) && n.parentId == Some(m.id);
      var j := UptoLevel(nodes, id, |nodes|, m);
      SomeParentIntro(Level(nodes, id, j), n, m);
      assert n in Level(nodes, id, j + 1);
      LevelBound(nodes, id, rank, j + 1);
      UptoIntro(nodes, id, |nodes|, j + 1, n);
    }
  }

  /** An undefined id has no children, so nothing is returned. */
  lemma UndefinedIdHasNoChildren(nodes: seq<FloatingNode>)
    ensures Descendants(nodes, None) == []
  {
    SelectNothing(nodes);
    UptoSettles(nodes, None, 0, |nodes|);
  }

  lemma SameIdSameNode(nodes: seq<FloatingNode>, a: FloatingNode, b: FloatingNode)
    requires UniqueIds(nodes) && a in nodes && b in nodes && a.id == b.id
    ensures a == b
  {
  }

  /** A closed node (other than the queried one) cuts off its subtree: it is
      not returned, none of its children is, and the registry parent of a
      returned node is itself returned, so no deeper descendant is either. */
  lemma ClosedNodeCutsOff(nodes: seq<FloatingNode>, id: Option<string>, c: FloatingNode)
    requires UniqueIds(nodes)
    requires c in nodes && !IsOpen(c) && id != Some(c.id)
    ensures forall n :: n in Descendants(nodes, id) ==> n.id != c.id && n.parentId != Some(c.id)
  {
    forall n | n in Descendants(nodes, id)
      ensures n.id != c.id && n.parentId != Some(c.id)
    {
      DescendantsOpen(nodes, id, n);
      if n.id == c.id {
        SameIdSameNode(nodes, n, c);
      }
      if n.parentId == Some(c.id) {
        DescendantsSound(nodes, id, n);
        var m :| m in Descendants(nodes, id) && n.parentId == Some(m.id);
        DescendantsOpen(nodes, id, m);
        SameIdSameNode(nodes, m, c);
      }
    }
  }

  /** The registry parent of a returned node, unless it is the queried node, is returned. */
  lemma ParentReturned(nodes: seq<FloatingNode>, id: Option<string>, n: FloatingNode, p: FloatingNode)
    requires UniqueIds(nodes)
    requires n in Descendants(nodes, id) && p in nodes && n.parentId == Some(p.id) && id != Some(p.id)
    ensures p in Descendants(nodes, id) && IsOpen(p)
  {
    DescendantsSound(nodes, id, n);
    var m :| m in Descendants(nodes, id) && n.parentId == Some(m.id);
    DescendantsOpen(nodes, id, m);
    SameIdSameNode(nodes, m, p);
  }

  /** A pass over a registry without repeated ids repeats no node. */
  lemma {:induction false} SelectDistinct(nodes: seq<FloatingNode>, p: Parent)
    requires UniqueIds(nodes)
    ensures forall i, j :: 0 <= i < j < |Select(nodes, p)| ==> Select(nodes, p)[i] != Select(nodes, p)[j]
  {
    if nodes != [] {
      assert UniqueIds(nodes[1..]) by {
        forall i, j | 0 <= i < j < |nodes[1..]|
          ensures nodes[1..][i].id != nodes[1..][j].id
        {
          assert nodes[1..][i] == nodes[i + 1] && nodes[1..][j] == nodes[j + 1];
        }
      }
      SelectDistinct(nodes[1..], p);
      var rest := Select(nodes[1..], p);
      if IsOpen(nodes[0]) && ChildOf(nodes[0], p) {
        assert nodes[0] !in nodes[1..] by {
          forall j | 0 <= j < |nodes[1..]|
            ensures nodes[1..][j] != nodes[0]
          {
            assert nodes[1..][j] == nodes[j + 1];
          }
        }
        assert nodes[0] !in rest;
        var r := [nodes[0]] + rest;
        forall i, j | 0 <= i < j < |r|
          ensures r[i] != r[j]
        {
          assert r[j] == rest[j - 1];
          if i > 0 {
            assert r[i] == rest[i - 1];
          }
        }
      }
    }
  }

  lemma LevelZero(nodes: seq<FloatingNode>, id: Option<string>, x: FloatingNode)
    requires x in Level(nodes, id, 0)
    ensures x in nodes && IsOpen(x) && id.Some? && x.parentId == id
  {
  }

  /** The queried node is not found below itself. */
  lemma QueriedNodeNotBelow(nodes: seq<FloatingNode>, id: Option<string>, rank: map<string, nat>, i: nat, q: FloatingNode)
    requires Ranked(nodes, rank)
    requires q in Level(nodes, id, i)
    ensures id != Some(q.id)
  {
    var r := AncestorRank(nodes, id, rank, i, q);
    assert r in nodes && IsOpen(r) && r.parentId == id;
  }

  /** No node sits on two levels: its parent chain is unique and ends at `id`. */
  lemma {:induction false} LevelsDisjoint(nodes: seq<FloatingNode>, id: Option<string>, rank: map<string, nat>, j: nat, k: nat, x: FloatingNode)
    requires Ranked(nodes, rank) && UniqueIds(nodes)
    requires j < k
    requires x in Level(nodes, id, j)
    ensures x !in Level(nodes, id, k)
  {
    if x in Level(nodes, id, k) {
      var q := ParentInLevel(nodes, id, k - 1, x);
      if j == 0 {
        LevelZero(nodes, id, x);
        QueriedNodeNotBelow(nodes, id, rank, k - 1, q);
      } else {
        var p := ParentInLevel(nodes, id, j - 1, x);
        SameIdSameNode(nodes, p, q);
        LevelsDisjoint(nodes, id, rank, j - 1, k - 1, p);
      }
    }
  }

  /** Levels `0..k` list no node twice. */
  lemma {:induction false} UptoDistinct(nodes: seq<FloatingNode>, id: Option<string>, rank: map<string, nat>, k: nat)
    requires Ranked(nodes, rank) && UniqueIds(nodes)
    ensures forall i, j :: 0 <= i < j < |Upto(nodes, id, k)| ==> Upto(nodes, id, k)[i] != Upto(nodes, id, k)[j]
  {
    if k == 0 {
      SelectDistinct(nodes, Root(id));
    } else {
      UptoDistinct(nodes, id, rank, k - 1);
      var u := Upto(nodes, id, k - 1);
      var l := Level(nodes, id, k);
      SelectDistinct(nodes, AnyOf(Level(nodes, id, k - 1)));
      forall i, j | 0 <= i < j < |u + l|
        ensures (u + l)[i] != (u + l)[j]
      {
        if i < |u| && j >= |u| {
          var x := u[i];
          var h := UptoLevel(nodes, id, k - 1, x);
          LevelsDisjoint(nodes, id, rank, h, k, x);
          assert (u + l)[j] == l[j - |u|];
        } else if i >= |u| {
          assert (u + l)[i] == l[i - |u|] && (u + l)[j] == l[j - |u|];
        }
      }
    }
  }

  /** With acyclic links and unique ids, the result lists no node twice. */
  lemma DescendantsDistinct(nodes: seq<FloatingNode>, id: Option<string>, rank: map<string, nat>)
    requires Ranked(nodes, rank) && UniqueIds(nodes)
    ensures forall i, j :: 0 <= i < j < |Descendants(nodes, id)| ==> Descendants(nodes, id)[i] != Descendants(nodes, id)[j]
  {
    UptoDistinct(nodes, id, rank, |nodes|);
  }
}
