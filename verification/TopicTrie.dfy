/** The wildcard subscription index: a tree of mutable nodes, one level per token. */
module TopicTries {
  import opened Topics

  type SubId = nat

  class TrieNode {
    var subscriptions: set<SubId>
    var children: map<string, TrieNode>
    var anyChild: TrieNode?
    var trailingChild: TrieNode?

    // The pattern that leads here from the root, and the node it was hung under.
    ghost const path: seq<string>
    ghost const parent: TrieNode?

    constructor (ghost path: seq<string>, ghost parent: TrieNode?)
      ensures this.path == path && this.parent == parent
      ensures subscriptions == {} && children == map[] && anyChild == null && trailingChild == null
    {
      subscriptions, children, anyChild, trailingChild := {}, map[], null, null;
      this.path, this.parent := path, parent;
    }

    /** The child that a pattern token leads to. */
    function Child(token: string): (c: TrieNode?)
      reads this`children, this`anyChild, this`trailingChild
    {
      if token == TRAILING then trailingChild
      else if token == ANY then anyChild
      else if token in children then children[token] else null
    }
  }

  /** What the index stands for: subscriptions filed under token patterns. */
  type Pairs = set<(seq<string>, SubId)>

  datatype TrieOp =
    | InsertOp(pattern: string, id: SubId)
    | RemoveTopicOp(pattern: string, id: SubId)
    | RemoveOp(id: SubId)

  /** The effect of one update on the filed pairs. */
  ghost function Apply(pairs: Pairs, op: TrieOp): Pairs {
    match op
    case InsertOp(pattern, id) => pairs + {(Truncate(Split(pattern)), id)}
    case RemoveTopicOp(pattern, id) => pairs - {(Split(pattern), id)}
    case RemoveOp(id) => set x | x in pairs && x.1 != id
  }

  class TopicTrie {
    var root: TrieNode
    ghost var nodes: set<TrieNode>

    ghost predicate Valid()
      reads this, nodes`children, nodes`anyChild, nodes`trailingChild
    {
      && root in nodes && root.path == [] && root.parent == null
      && (forall m, n :: m in nodes && n in nodes && m.path == n.path ==> m == n)
      && (forall n, t :: n in nodes && n.Child(t) != null ==>
            n.Child(t) in nodes && n.Child(t).parent == n && n.Child(t).path == n.path + [t])
      && (forall n {:trigger Hangs(n)} :: n in nodes && n != root ==> Hangs(n))
      && (forall n :: n in nodes ==> WellFormed(n.path) && ANY !in n.children && TRAILING !in n.children)
    }

    /** `n` is the child of its parent for the last token of its path. */
    ghost predicate Hangs(n: TrieNode)
      reads this, nodes`children, nodes`anyChild, nodes`trailingChild
    {
      HangsIn(nodes, n)
    }

    static ghost predicate HangsIn(nodes: set<TrieNode>, n: TrieNode)
      reads nodes`children, nodes`anyChild, nodes`trailingChild
    {
      n.parent != null && n.parent in nodes && n.path != [] && n.parent.path == n.path[..|n.path| - 1]
      && n.parent.Child(n.path[|n.path| - 1]) == n
    }

    ghost function Filed(): (f: Pairs)
      reads this`nodes, nodes`subscriptions
      ensures forall n, id :: n in nodes && id in n.subscriptions ==> (n.path, id) in f
      ensures forall p, id :: (p, id) in f ==> exists n :: n in nodes && n.path == p && id in n.subscriptions
    {
      FiledIn(nodes)
    }

    static ghost function FiledIn(nodes: set<TrieNode>): Pairs
      reads nodes`subscriptions
    {
      set n, id | n in nodes && id in n.subscriptions :: (n.path, id)
    }

    constructor ()
      ensures Valid() && Filed() == {} && fresh(nodes)
    {
      root := new TrieNode([], null);
      nodes := {root};
    }

    /** Walks to the node of a pattern, creating what is missing, and stops at the first `>`. */
    method Insert(pattern: string, id: SubId)
      requires Valid()
      modifies this`nodes, nodes
      ensures Valid() && fresh(nodes - old(nodes))
      ensures Filed() == Apply(old(Filed()), InsertOp(pattern, id))
    {
      var tokens := Split(pattern);
      var current := root;
      var i := 0;
      var ended := false;
      assert [] + Truncate(tokens[0..]) == Truncate(tokens);
      while i < |tokens| && !ended
        invariant i <= |tokens|
        invariant Valid() && fresh(nodes - old(nodes)) && old(nodes) <= nodes
        invariant Filed() == old(Filed())
        invariant current in nodes
        invariant current.path + (if ended then [] else Truncate(tokens[i..])) == Truncate(tokens)
        invariant !ended ==> TRAILING !in current.path
      {
        TruncateStep(current.path, tokens[i..]);
        current := Descend(current, tokens[i]);
        ended := tokens[i] == TRAILING;
        i := i + 1;
      }
      assert tokens[|tokens|..] == [] && current.path + [] == current.path;
      FileAt(current, id);
    }

    lemma TruncateStep(prefix: seq<string>, rest: seq<string>)
      requires rest != []
      ensures prefix + Truncate(rest) ==
        prefix + [rest[0]] + (if rest[0] == TRAILING then [] else Truncate(rest[1..]))
    {
      if rest[0] == TRAILING {
        Regroup(prefix, rest[0], []);
      } else {
        Regroup(prefix, rest[0], Truncate(rest[1..]));
      }
    }

    static lemma Regroup(prefix: seq<string>, token: string, tail: seq<string>)
      ensures prefix + ([token] + tail) == prefix + [token] + tail
    {
    }

    method FileAt(node: TrieNode, id: SubId)
      requires Valid() && node in nodes
      modifies node`subscriptions
      ensures Valid() && Filed() == old(Filed()) + {(node.path, id)}
    {
      node.subscriptions := node.subscriptions + {id};
    }

    /** The child for one more token, hung empty below the node when it is missing. */
    method Descend(node: TrieNode, token: string) returns (child: TrieNode)
      requires Valid() && node in nodes && TRAILING !in node.path
      modifies this`nodes, node`children, node`anyChild, node`trailingChild
      ensures Valid() && fresh(nodes - old(nodes)) && old(nodes) <= nodes
      ensures Filed() == old(Filed())
      ensures child in nodes && child.path == node.path + [token]
    {
      if node.Child(token) != null {
        return node.Child(token);
      }
      NotYetFiled(node, token);
      child := new TrieNode(node.path + [token], node);
      Hang(node, token, child);
    }

    /** Hangs an empty node below another and counts it among the filed ones. */
    method Hang(node: TrieNode, token: string, child: TrieNode)
      requires Valid() && node in nodes && TRAILING !in node.path && node.Child(token) == null
      requires child !in nodes && child.path == node.path + [token] && child.parent == node
      requires child.children == map[] && child.anyChild == null && child.trailingChild == null
      requires child.subscriptions == {}
      requires forall n :: n in nodes ==> n.path != child.path
      modifies this`nodes, node`children, node`anyChild, node`trailingChild
      ensures Valid() && nodes == old(nodes) + {child}
      ensures Filed() == old(Filed())
    {
      hide Distinct, LinkedExcept, AllHang, Formed, FiledIn, Valid;
      PartsOfValid();
      Link(node, token, child);
      Adopt(node, token, child);
    }

    lemma PartsOfValid()
      requires Valid()
      ensures root in nodes && root.path == [] && root.parent == null
      ensures Distinct(nodes) && LinkedExcept(nodes, null, "") && AllHang(root, nodes) && Formed(nodes)
    {
      forall n | n in nodes && n != root ensures HangsIn(nodes, n) {
        assert Hangs(n);
      }
    }

    /** Counts a node that already hangs below a filed one among the filed nodes. */
    ghost method Adopt(node: TrieNode, token: string, child: TrieNode)
      requires root in nodes && root.path == [] && root.parent == null
      requires Distinct(nodes) && LinkedExcept(nodes, node, token) && AllHang(root, nodes) && Formed(nodes)
      requires node in nodes && TRAILING !in node.path && node.Child(token) == child
      requires child !in nodes && child.path == node.path + [token] && child.parent == node
      requires child.children == map[] && child.anyChild == null && child.trailingChild == null
      requires child.subscriptions == {}
      requires forall n :: n in nodes ==> n.path != child.path
      modifies this`nodes
      ensures Valid() && nodes == old(nodes) + {child} && Filed() == old(Filed())
    {
      hide Distinct, LinkedExcept, AllHang, Formed, Valid, FiledIn;
      DistinctPlus(nodes, child);
      LinkedPlus(nodes, node, token, child);
      HangPlus(root, nodes, node, token, child);
      FormedPlus(nodes, node, token, child);
      FiledPlus(nodes, child);
      nodes := nodes + {child};
      ValidParts();
    }

    static ghost predicate Distinct(nodes: set<TrieNode>) {
      forall m, n :: m in nodes && n in nodes && m.path == n.path ==> m == n
    }

    /** Every child but this one is where it should be. */
    static ghost predicate LinkedExcept(nodes: set<TrieNode>, node: TrieNode?, token: string)
      reads nodes`children, nodes`anyChild, nodes`trailingChild
    {
      forall n, t :: n in nodes && n.Child(t) != null && (n != node || t != token) ==>
        n.Child(t) in nodes && n.Child(t).parent == n && n.Child(t).path == n.path + [t]
    }

    static ghost predicate AllHang(root: TrieNode, nodes: set<TrieNode>)
      reads nodes`children, nodes`anyChild, nodes`trailingChild
    {
      forall n {:trigger HangsIn(nodes, n)} :: n in nodes && n != root ==> HangsIn(nodes, n)
    }

    static ghost predicate Formed(nodes: set<TrieNode>)
      reads nodes`children
    {
      forall n :: n in nodes ==> WellFormed(n.path) && ANY !in n.children && TRAILING !in n.children
    }

    lemma ValidParts()
      requires root in nodes && root.path == [] && root.parent == null
      requires Distinct(nodes) && LinkedExcept(nodes, null, "") && AllHang(root, nodes) && Formed(nodes)
      ensures Valid()
    {
      forall n | n in nodes && n != root ensures Hangs(n) {
        assert HangsIn(nodes, n);
      }
    }

    static lemma DistinctPlus(nodes: set<TrieNode>, child: TrieNode)
      requires Distinct(nodes) && forall n :: n in nodes ==> n.path != child.path
      ensures Distinct(nodes + {child})
    {
    }

    static lemma LinkedPlus(nodes: set<TrieNode>, node: TrieNode, token: string, child: TrieNode)
      requires LinkedExcept(nodes, node, token) && node.Child(token) == child
      requires child.path == node.path + [token] && child.parent == node
      requires child.children == map[] && child.anyChild == null && child.trailingChild == null
      ensures LinkedExcept(nodes + {child}, null, "")
    {
      forall n, t | n in nodes + {child} && n.Child(t) != null
        ensures n.Child(t) in nodes + {child} && n.Child(t).parent == n && n.Child(t).path == n.path + [t]
      {
        assert n != child;
      }
    }

    static lemma HangPlus(root: TrieNode, nodes: set<TrieNode>, node: TrieNode, token: string, child: TrieNode)
      requires AllHang(root, nodes) && node in nodes && node.Child(token) == child
      requires child.path == node.path + [token] && child.parent == node
      ensures AllHang(root, nodes + {child})
    {
      forall n | n in nodes + {child} && n != root ensures HangsIn(nodes + {child}, n) {
        if n == child {
          assert child.path[..|child.path| - 1] == node.path;
        } else {
          assert HangsIn(nodes, n);
        }
      }
    }

    static lemma FormedPlus(nodes: set<TrieNode>, node: TrieNode, token: string, child: TrieNode)
      requires Formed(nodes) && node in nodes && child.children == map[]
      requires TRAILING !in node.path && child.path == node.path + [token]
      ensures Formed(nodes + {child})
    {
      forall i | 0 <= i < |child.path| - 1 ensures child.path[i] != TRAILING {
        assert child.path[i] == node.path[i];
      }
    }

    static lemma FiledPlus(nodes: set<TrieNode>, child: TrieNode)
      requires child.subscriptions == {}
      ensures FiledIn(nodes + {child}) == FiledIn(nodes)
    {
    }

    /** Sets one missing child; nothing changes for the filed nodes but this one link. */
    method Link(node: TrieNode, token: string, child: TrieNode)
      requires node in nodes && node.Child(token) == null
      requires LinkedExcept(nodes, null, "") && AllHang(root, nodes) && Formed(nodes)
      modifies node`children, node`anyChild, node`trailingChild
      ensures node.Child(token) == child
      ensures LinkedExcept(nodes, node, token) && AllHang(root, nodes) && Formed(nodes)
    {
      SetChild(node, token, child);
      forall n, t | n in nodes && (n != node || t != token) ensures n.Child(t) == old(n.Child(t)) {
      }
      forall n | n in nodes && n != root ensures HangsIn(nodes, n) {
        assert old(HangsIn(nodes, n));
      }
    }

    static method SetChild(node: TrieNode, token: string, child: TrieNode)
      requires node.Child(token) == null
      requires ANY !in node.children && TRAILING !in node.children
      modifies node`children, node`anyChild, node`trailingChild
      ensures node.Child(token) == child
      ensures forall t :: t != token ==> node.Child(t) == old(node.Child(t))
      ensures ANY !in node.children && TRAILING !in node.children
    {
      if token == TRAILING {
        node.trailingChild := child;
      } else if token == ANY {
        node.anyChild := child;
      } else {
        node.children := node.children[token := child];
      }
    }

    lemma NotYetFiled(node: TrieNode, token: string)
      requires Valid() && node in nodes && node.Child(token) == null
      ensures forall n :: n in nodes ==> n.path != node.path + [token]
    {
      ghost var below := node.path + [token];
      assert below[..|below| - 1] == node.path;
      forall n | n in nodes ensures n.path != below {
        assert n == root || Hangs(n);
      }
    }

    /** Following a filed node's own path from any node above it leads towards it. */
    lemma {:induction false} PathFiled(n: TrieNode, k: nat)
      requires Valid() && n in nodes && k <= |n.path|
      ensures exists m :: m in nodes && m.path == n.path[..k] && (k < |n.path| ==> m.Child(n.path[k]) != null)
      decreases |n.path|
    {
      if k == |n.path| {
        assert n.path == n.path[..k];
      } else {
        assert Hangs(n);
        if k < |n.path| - 1 {
          PathFiled(n.parent, k);
          assert n.parent.path[..k] == n.path[..k];
        }
      }
    }

    /** Deletes one pair, given the pattern it was filed under. The walk does not stop at `>`,
        so a pattern with an interior `>` is never found. */
    method RemoveTopic(pattern: string, id: SubId) returns (found: bool)
      requires Valid()
      modifies nodes`subscriptions
      ensures Valid()
      ensures Filed() == Apply(old(Filed()), RemoveTopicOp(pattern, id))
      ensures found == ((Split(pattern), id) in old(Filed()))
    {
      found := RemoveTopicBelow(root, Split(pattern), 0, id);
    }

    method RemoveTopicBelow(node: TrieNode, tokens: seq<string>, depth: nat, id: SubId) returns (found: bool)
      requires Valid() && node in nodes && depth <= |tokens| && node.path == tokens[..depth]
      modifies nodes`subscriptions
      ensures Valid()
      ensures Filed() == old(Filed()) - {(tokens, id)}
      ensures found == ((tokens, id) in old(Filed()))
      decreases |tokens| - depth
    {
      if depth >= |tokens| {
        assert tokens[..depth] == tokens;
        found := id in node.subscriptions;
        node.subscriptions := node.subscriptions - {id};
        return;
      }
      var token := tokens[depth];
      var next := node.Child(token);
      if next != null {
        assert tokens[..depth + 1] == tokens[..depth] + [token];
        found := RemoveTopicBelow(next, tokens, depth + 1, id);
      } else {
        found := false;
        forall n | n in nodes ensures n.path != tokens {
          if n.path == tokens {
            PathFiled(n, depth);
          }
        }
      }
    }

    /** Deletes every pair of one id by a full scan. */
    method Remove(id: SubId) returns (found: bool)
      requires Valid()
      modifies nodes`subscriptions
      ensures Valid()
      ensures Filed() == Apply(old(Filed()), RemoveOp(id))
      ensures found <==> exists p :: (p, id) in old(Filed())
    {
      found := RemoveBelow(root, id);
    }

    ghost function Subtree(node: TrieNode): set<TrieNode>
      reads this
    {
      set n | n in nodes && node.path <= n.path
    }

    lemma ChildSubtree(node: TrieNode, token: string)
      requires Valid() && node in nodes && node.Child(token) != null
      ensures Subtree(node.Child(token)) < Subtree(node)
    {
      assert node in Subtree(node) && node !in Subtree(node.Child(token));
    }

    /** The nodes below `node` that lead through one of the given tokens. */
    ghost predicate Through(node: TrieNode, tokens: set<string>, n: TrieNode) {
      |node.path| < |n.path| && node.path <= n.path && n.path[|node.path|] in tokens
    }

    method RemoveBelow(node: TrieNode, id: SubId) returns (found: bool)
      requires Valid() && node in nodes
      modifies nodes`subscriptions
      ensures Valid()
      ensures forall n :: n in nodes ==>
        n.subscriptions == old(n.subscriptions) - (if node.path <= n.path then {id} else {})
      ensures found <==> exists n :: n in nodes && node.path <= n.path && id in old(n.subscriptions)
      decreases Subtree(node), 2
    {
      found := id in node.subscriptions;
      node.subscriptions := node.subscriptions - {id};
      var below := RemoveChildren(node, id);
      found := found || below;
      ChildrenLead(node);
    }

    method RemoveChildren(node: TrieNode, id: SubId) returns (found: bool)
      requires Valid() && node in nodes
      modifies nodes`subscriptions
      ensures Valid()
      ensures forall n :: n in nodes ==>
        n.subscriptions == old(n.subscriptions) - (if Through(node, AllTokens(node), n) then {id} else {})
      ensures found <==> exists n :: n in nodes && Through(node, AllTokens(node), n) && id in old(n.subscriptions)
      decreases Subtree(node), 1
    {
      found := RemoveLiterals(node, id);
      var any := RemoveChild(node, ANY, id);
      var trailing := RemoveChild(node, TRAILING, id);
      found := found || any || trailing;
    }

    function AllTokens(node: TrieNode): set<string>
      reads node`children
    {
      node.children.Keys + {ANY, TRAILING}
    }

    method RemoveLiterals(node: TrieNode, id: SubId) returns (found: bool)
      requires Valid() && node in nodes
      modifies nodes`subscriptions
      ensures Valid()
      ensures forall n :: n in nodes ==>
        n.subscriptions == old(n.subscriptions) - (if Through(node, node.children.Keys, n) then {id} else {})
      ensures found <==> exists n :: n in nodes && Through(node, node.children.Keys, n) && id in old(n.subscriptions)
      decreases Subtree(node), 1, 0
    {
      found := false;
      var todo := node.children.Keys;
      ghost var done := {};
      while todo != {}
        invariant Valid() && done + todo == node.children.Keys && done !! todo
        invariant forall n :: n in nodes ==>
          n.subscriptions == old(n.subscriptions) - (if Through(node, done, n) then {id} else {})
        invariant found <==> exists n :: n in nodes && Through(node, done, n) && id in old(n.subscriptions)
        decreases todo
      {
        var token :| token in todo;
        var more := RemoveChild(node, token, id);
        found := found || more;
        todo, done := todo - {token}, done + {token};
      }
      assert done == node.children.Keys;
    }

    /** Clears the subtree behind one token, if there is one. */
    method RemoveChild(node: TrieNode, token: string, id: SubId) returns (found: bool)
      requires Valid() && node in nodes
      modifies nodes`subscriptions
      ensures Valid()
      ensures forall n :: n in nodes ==>
        n.subscriptions == old(n.subscriptions) - (if Through(node, {token}, n) then {id} else {})
      ensures found <==> exists n :: n in nodes && Through(node, {token}, n) && id in old(n.subscriptions)
      decreases Subtree(node), 0
    {
      assert forall n: TrieNode :: Through(node, {token}, n) <==> node.path + [token] <= n.path;
      if node.Child(token) != null {
        ChildSubtree(node, token);
        found := RemoveBelow(node.Child(token), id);
      } else {
        ChildrenLead(node);
        found := false;
      }
    }

    /** Whatever is below a node is below one of its children. */
    lemma ChildrenLead(node: TrieNode)
      requires Valid() && node in nodes
      ensures forall n :: n in nodes && node.path <= n.path && n != node ==>
        |node.path| < |n.path| && node.Child(n.path[|node.path|]) != null
    {
      forall n | n in nodes && node.path <= n.path && n != node
        ensures |node.path| < |n.path| && node.Child(n.path[|node.path|]) != null
      {
        PathFiled(n, |node.path|);
        assert n.path[..|node.path|] == node.path;
      }
    }

    /** All subscriptions whose pattern matches a literal topic. */
    method MatchTopic(topic: string) returns (results: set<SubId>)
      requires Valid()
      ensures forall id :: id in results <==> exists p :: (p, id) in Filed() && Matches(p, Split(topic))
    {
      var tokens := Split(topic);
      results := MatchBelow(root, tokens, 0, {});
      assert tokens[0..] == tokens;
      forall n | n in nodes ensures Reaches(root, n, tokens) <==> Matches(n.path, tokens) {
        assert n.path[0..] == n.path;
      }
      forall id ensures id in results <==> exists p :: (p, id) in Filed() && Matches(p, tokens) {
        if id in results {
          var n :| n in nodes && id in n.subscriptions && Reaches(root, n, tokens);
          assert (n.path, id) in Filed();
        }
        if p :| (p, id) in Filed() && Matches(p, tokens) {
          var n :| n in nodes && n.path == p && id in n.subscriptions;
        }
      }
    }

    /** `n` is at or below `node`, and the rest of its pattern matches the rest of the topic. */
    ghost predicate Reaches(node: TrieNode, n: TrieNode, rest: seq<string>) {
      node.path <= n.path && Matches(n.path[|node.path|..], rest)
    }

    method MatchBelow(node: TrieNode, tokens: seq<string>, depth: nat, found: set<SubId>)
      returns (results: set<SubId>)
      requires Valid() && node in nodes && depth <= |tokens|
      ensures forall id :: id in results <==>
        id in found || exists n :: n in nodes && id in n.subscriptions && Reaches(node, n, tokens[depth..])
      decreases |tokens| - depth
    {
      ghost var rest := tokens[depth..];
      forall n | n in nodes ensures
        Reaches(node, n, rest) <==>
          if rest == [] then n == node
          else ReachesVia(node, rest[0], n, rest[1..]) || ReachesVia(node, ANY, n, rest[1..])
               || (node.trailingChild != null && n == node.trailingChild)
      {
        ReachesStep(node, n, rest);
      }
      results := found;
      if depth == |tokens| {
        results := results + node.subscriptions;
        return;
      }
      var token := tokens[depth];
      assert rest[0] == token && rest[1..] == tokens[depth + 1..];
      if token in node.children {
        assert node.Child(token) == node.children[token];
        results := MatchBelow(node.children[token], tokens, depth + 1, results);
      }
      if node.anyChild != null {
        assert node.Child(ANY) == node.anyChild;
        results := MatchBelow(node.anyChild, tokens, depth + 1, results);
      }
      if node.trailingChild != null {
        assert node.Child(TRAILING) == node.trailingChild;
        results := results + node.trailingChild.subscriptions;
      }
    }

    /** Reaching through the child for one token, if there is one. */
    ghost predicate ReachesVia(node: TrieNode, token: string, n: TrieNode, rest: seq<string>)
      reads node`children, node`anyChild, node`trailingChild
    {
      token != TRAILING
      && (token == ANY ==> node.anyChild != null && Reaches(node.anyChild, n, rest))
      && (token != ANY ==> token in node.children && Reaches(node.children[token], n, rest))
    }

    lemma ReachesStep(node: TrieNode, n: TrieNode, rest: seq<string>)
      requires Valid() && node in nodes && n in nodes
      ensures Reaches(node, n, rest) <==>
        if rest == [] then n == node
        else ReachesVia(node, rest[0], n, rest[1..]) || ReachesVia(node, ANY, n, rest[1..])
             || (node.trailingChild != null && n == node.trailingChild)
    {
      assert forall t: string :: node.path + [t] <= n.path ==> node.path <= n.path && n.path != node.path;
      if n == node {
        assert n.path[|node.path|..] == [];
      } else if node.path <= n.path {
        var q := n.path[|node.path|..];
        MatchesStep(q, rest);
        ChildrenLead(node);
        var child := node.Child(q[0]);
        assert child.path <= n.path && n.path[|child.path|..] == q[1..];
        assert forall t: string :: node.path + [t] <= n.path ==> t == q[0];
        forall t: string, r ensures ReachesVia(node, t, n, r) <==> t == q[0] && t != TRAILING && Matches(q[1..], r) {
          if node.Child(t) != null && t == q[0] {
            assert Reaches(child, n, r) <==> Matches(q[1..], r);
          }
        }
        assert q[0] == TRAILING ==> n.path == node.path + [TRAILING];
      }
      assert forall t {:trigger node.Child(t)} ::
        node.Child(t) != null && node.Child(t).path <= n.path ==> node.path <= n.path;
      assert node.Child(TRAILING) == node.trailingChild && node.Child(ANY) == node.anyChild;
      assert rest != [] && rest[0] in node.children ==> node.Child(rest[0]) == node.children[rest[0]];
    }
  }
}
