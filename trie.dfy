/** Prefix search over command and context names (cli/src/utils/trie.ts).
    Every node of the trie keeps the items whose lower-cased key passes
    through it, pushed in insertion order; the root keeps none. Nodes live in
    an arena (`nodes`), and a child map sends a character to a node index. */
module Trie {
  import opened Common

  datatype TrieNode<T> = TrieNode(children: map<char, nat>, items: seq<T>)

  /** The items whose lower-cased key starts with p, in the order given. */
  function Matching<T>(xs: seq<T>, getKey: T -> string, p: string): seq<T>
    decreases |xs|
  {
    if xs == [] then []
    else Matching(xs[..|xs| - 1], getKey, p) + (if StartsWith(Lower(getKey(xs[|xs| - 1])), p) then [xs[|xs| - 1]] else [])
  }

  /** What `searchTrie` returns: nothing for the empty prefix (the root keeps
      no items), otherwise the items matching the lower-cased prefix. */
  function SearchSpec<T>(xs: seq<T>, getKey: T -> string, prefix: string): seq<T>
  {
    if Lower(prefix) == "" then [] else Matching(xs, getKey, Lower(prefix))
  }

  lemma MatchingSnoc<T>(xs: seq<T>, x: T, getKey: T -> string, p: string)
    ensures Matching(xs + [x], getKey, p) == Matching(xs, getKey, p) + (if StartsWith(Lower(getKey(x)), p) then [x] else [])
  {
    assert (xs + [x])[..|xs|] == xs;
  }

  lemma StartsWithTrans(s: string, q: string, p: string)
    requires StartsWith(s, q) && StartsWith(q, p)
    ensures StartsWith(s, p)
  {
    assert s[..|p|] == s[..|q|][..|p|];
  }

  /** If nothing matches p, nothing matches a longer prefix. */
  lemma {:induction false} MatchingEmptyExtends<T>(xs: seq<T>, getKey: T -> string, p: string, q: string)
    requires Matching(xs, getKey, p) == [] && StartsWith(q, p)
    ensures Matching(xs, getKey, q) == []
    decreases |xs|
  {
    if xs != [] {
      var x := xs[|xs| - 1];
      MatchingEmptyExtends(xs[..|xs| - 1], getKey, p, q);
      if StartsWith(Lower(getKey(x)), q) {
        StartsWithTrans(Lower(getKey(x)), q, p);
      }
    }
  }

  /** Narrowing the prefix filters the earlier results further. */
  lemma {:induction false} MatchingRefine<T>(xs: seq<T>, getKey: T -> string, p: string, q: string)
    requires StartsWith(q, p)
    ensures Matching(xs, getKey, q) == Matching(Matching(xs, getKey, p), getKey, q)
    decreases |xs|
  {
    if xs != [] {
      var init, x := xs[..|xs| - 1], xs[|xs| - 1];
      MatchingRefine(init, getKey, p, q);
      if StartsWith(Lower(getKey(x)), q) {
        StartsWithTrans(Lower(getKey(x)), q, p);
      }
      if StartsWith(Lower(getKey(x)), p) {
        assert Matching(xs, getKey, p) == Matching(init, getKey, p) + [x];
        MatchingSnoc(Matching(init, getKey, p), x, getKey, q);
        assert Matching(xs, getKey, q) == Matching(init, getKey, q) + (if StartsWith(Lower(getKey(x)), q) then [x] else []);
      } else {
        assert Matching(xs, getKey, p) == Matching(init, getKey, p);
        assert Matching(xs, getKey, q) == Matching(init, getKey, q);
      }
    }
  }

  /** An item is found exactly when it was inserted and its key matches. */
  lemma {:induction false} MatchingMembers<T>(xs: seq<T>, getKey: T -> string, p: string, x: T)
    ensures x in Matching(xs, getKey, p) <==> x in xs && StartsWith(Lower(getKey(x)), p)
    decreases |xs|
  {
    if xs != [] {
      var init := xs[..|xs| - 1];
      MatchingMembers(init, getKey, p, x);
      assert xs == init + [xs[|xs| - 1]];
    }
  }

  predicate Distinct<T(==)>(xs: seq<T>)
  {
    forall i, j :: 0 <= i < j < |xs| ==> xs[i] != xs[j]
  }

  /** Distinct items give distinct results. */
  lemma {:induction false} MatchingDistinct<T>(xs: seq<T>, getKey: T -> string, p: string)
    requires Distinct(xs)
    ensures Distinct(Matching(xs, getKey, p))
    decreases |xs|
  {
    if xs != [] {
      var init, x := xs[..|xs| - 1], xs[|xs| - 1];
      MatchingDistinct(init, getKey, p);
      MatchingMembers(init, getKey, p, x);
      assert x !in init by {
        forall i | 0 <= i < |init| ensures init[i] != x { assert init[i] == xs[i]; }
      }
    }
  }

  /** The path of every node is its parent's path plus the child's character. */
  predicate ChildrenWellFormed<T>(nodes: seq<TrieNode<T>>, paths: seq<string>)
    requires |nodes| == |paths|
  {
    forall n, c :: 0 <= n < |nodes| && c in nodes[n].children ==>
      0 < nodes[n].children[c] < |nodes| && paths[nodes[n].children[c]] == paths[n] + [c]
  }

  predicate DistinctPaths(paths: seq<string>)
  {
    forall n, m :: 0 <= n < |paths| && 0 <= m < |paths| && paths[n] == paths[m] ==> n == m
  }

  /** The arena's shape: a root with the empty path and no items, children
      wired to their paths, no path twice. */
  predicate Shape<T>(nodes: seq<TrieNode<T>>, paths: seq<string>)
  {
    && |nodes| == |paths| >= 1 && paths[0] == [] && nodes[0].items == []
    && ChildrenWellFormed(nodes, paths) && DistinctPaths(paths)
  }

  /** Every non-root node holds exactly the items matching its path, and at least one. */
  ghost predicate ItemsMatch<T>(nodes: seq<TrieNode<T>>, paths: seq<string>, getKey: T -> string, xs: seq<T>)
    requires |nodes| == |paths|
  {
    forall n :: 1 <= n < |nodes| ==> nodes[n].items == Matching(xs, getKey, paths[n]) && nodes[n].items != []
  }

  /** A missing child means no item continues that way. */
  ghost predicate GapsEmpty<T>(nodes: seq<TrieNode<T>>, paths: seq<string>, getKey: T -> string, xs: seq<T>)
    requires |nodes| == |paths|
  {
    forall n, c :: 0 <= n < |nodes| && c !in nodes[n].children ==> Matching(xs, getKey, paths[n] + [c]) == []
  }

  /** A node on the key's path taken so far: the insertion has reached it. */
  predicate OnPath(p: string, key: string, i: nat)
  {
    |p| <= i && StartsWith(key, p)
  }

  /** Halfway through inserting `item` (key `key`, i characters walked, now
      at `node`): nodes already reached hold the item, the others do not yet,
      and no missing child lies on the key's path below the walked part. */
  ghost predicate Walk<T>(nodes: seq<TrieNode<T>>, paths: seq<string>, getKey: T -> string, key: string, i: nat, node: nat, before: seq<T>, item: T)
  {
    && Shape(nodes, paths) && i <= |key| && node < |nodes| && paths[node] == key[..i]
    && WalkItems(nodes, paths, getKey, key, i, before, item)
    && WalkGaps(nodes, paths, getKey, key, i, before)
  }

  ghost predicate WalkItems<T>(nodes: seq<TrieNode<T>>, paths: seq<string>, getKey: T -> string, key: string, i: nat, before: seq<T>, item: T)
    requires |nodes| == |paths|
  {
    forall n :: 1 <= n < |nodes| ==>
      nodes[n].items != [] && nodes[n].items == Matching(before, getKey, paths[n]) + (if OnPath(paths[n], key, i) then [item] else [])
  }

  ghost predicate WalkGaps<T>(nodes: seq<TrieNode<T>>, paths: seq<string>, getKey: T -> string, key: string, i: nat, before: seq<T>)
    requires |nodes| == |paths|
  {
    forall n, c :: 0 <= n < |nodes| && c !in nodes[n].children ==>
      Matching(before, getKey, paths[n] + [c]) == [] && (StartsWith(key, paths[n] + [c]) ==> |paths[n]| >= i)
  }

  /** The new child for c under `node`, at the end of the arena, with no items. */
  function Link<T>(nodes: seq<TrieNode<T>>, node: nat, c: char): seq<TrieNode<T>>
    requires node < |nodes|
  {
    nodes[node := nodes[node].(children := nodes[node].children[c := |nodes|])] + [TrieNode(map[], [])]
  }

  /** `node.items.push(item)`. */
  function Push<T>(nodes: seq<TrieNode<T>>, node: nat, item: T): seq<TrieNode<T>>
    requires node < |nodes|
  {
    nodes[node := nodes[node].(items := nodes[node].items + [item])]
  }

  lemma StartWalk<T>(nodes: seq<TrieNode<T>>, paths: seq<string>, getKey: T -> string, key: string, before: seq<T>, item: T)
    requires Shape(nodes, paths) && ItemsMatch(nodes, paths, getKey, before) && GapsEmpty(nodes, paths, getKey, before)
    ensures Walk(nodes, paths, getKey, key, 0, 0, before, item)
  {
    forall n | 1 <= n < |nodes| ensures !OnPath(paths[n], key, 0) {
      assert paths[n] != paths[0];
    }
  }

  /** At the end of the key, every node matching it holds the item. */
  lemma EndWalk<T>(nodes: seq<TrieNode<T>>, paths: seq<string>, getKey: T -> string, key: string, node: nat, before: seq<T>, item: T)
    requires key == Lower(getKey(item)) && Walk(nodes, paths, getKey, key, |key|, node, before, item)
    ensures Shape(nodes, paths)
    ensures ItemsMatch(nodes, paths, getKey, before + [item]) && GapsEmpty(nodes, paths, getKey, before + [item])
  {
    forall p ensures Matching(before + [item], getKey, p) == Matching(before, getKey, p) + (if StartsWith(key, p) then [item] else []) {
      MatchingSnoc(before, item, getKey, p);
    }
    forall n | 1 <= n < |nodes| ensures OnPath(paths[n], key, |key|) <==> StartsWith(key, paths[n]) {
    }
  }

  /** Two facts about a node with path key[..i] (i < |key|): it is `node`,
      and its child for key[i] is the only one on the key's path. */
  lemma NodeAtDepth<T>(nodes: seq<TrieNode<T>>, paths: seq<string>, key: string, i: nat, node: nat, n: nat, c: char)
    requires Shape(nodes, paths) && i < |key| && node < |nodes| && paths[node] == key[..i]
    requires n < |nodes| && |paths[n]| == i && StartsWith(key, paths[n] + [c])
    ensures n == node && c == key[i]
  {
    assert (paths[n] + [c])[..i] == paths[n];
    assert (paths[n] + [c])[i] == c;
  }

  /** The child for key[i] is missing: no node has its path yet, and no
      item matches it. */
  lemma NewPathFresh<T>(nodes: seq<TrieNode<T>>, paths: seq<string>, getKey: T -> string, key: string, i: nat, node: nat, before: seq<T>, item: T)
    requires Walk(nodes, paths, getKey, key, i, node, before, item)
    requires i < |key| && key[i] !in nodes[node].children
    ensures key[..i + 1] == paths[node] + [key[i]]
    ensures Matching(before, getKey, key[..i + 1]) == []
    ensures forall m :: 0 <= m < |paths| ==> paths[m] != key[..i + 1]
  {
    var p := key[..i + 1];
    assert p == paths[node] + [key[i]];
    forall m | 0 <= m < |paths| ensures paths[m] != p {
    }
  }

  lemma ShapeAfterLink<T>(nodes: seq<TrieNode<T>>, paths: seq<string>, node: nat, c: char, p: string, item: T)
    requires Shape(nodes, paths) && node < |nodes| && c !in nodes[node].children
    requires p == paths[node] + [c] && forall m :: 0 <= m < |paths| ==> paths[m] != p
    ensures Shape(Push(Link(nodes, node, c), |nodes|, item), paths + [p])
  {
    var ns := Push(Link(nodes, node, c), |nodes|, item);
    var ps := paths + [p];
    forall n, c' | 0 <= n < |ns| && c' in ns[n].children
      ensures 0 < ns[n].children[c'] < |ns| && ps[ns[n].children[c']] == ps[n] + [c']
    {
      if n == node && c' == c {
      } else {
        assert c' in nodes[n].children;
      }
    }
  }

  /** Walking into a missing child: create it, then push the item there. */
  lemma AdvanceNew<T>(nodes: seq<TrieNode<T>>, paths: seq<string>, getKey: T -> string, key: string, i: nat, node: nat, before: seq<T>, item: T)
    requires Walk(nodes, paths, getKey, key, i, node, before, item)
    requires i < |key| && key[i] !in nodes[node].children
    ensures Walk(Push(Link(nodes, node, key[i]), |nodes|, item), paths + [key[..i + 1]], getKey, key, i + 1, |nodes|, before, item)
  {
    var c := key[i];
    var p := key[..i + 1];
    NewPathFresh(nodes, paths, getKey, key, i, node, before, item);
    ShapeAfterLink(nodes, paths, node, c, p, item);
    var ns := Push(Link(nodes, node, c), |nodes|, item);
    var ps := paths + [p];
    NewItems(nodes, paths, getKey, key, i, node, before, item);
    NewGaps(nodes, paths, getKey, key, i, node, before, item);
  }

  lemma NewItems<T>(nodes: seq<TrieNode<T>>, paths: seq<string>, getKey: T -> string, key: string, i: nat, node: nat, before: seq<T>, item: T)
    requires Walk(nodes, paths, getKey, key, i, node, before, item)
    requires i < |key| && key[i] !in nodes[node].children
    ensures WalkItems(Push(Link(nodes, node, key[i]), |nodes|, item), paths + [key[..i + 1]], getKey, key, i + 1, before, item)
  {
    var p := key[..i + 1];
    NewPathFresh(nodes, paths, getKey, key, i, node, before, item);
    var ns, ps := Push(Link(nodes, node, key[i]), |nodes|, item), paths + [p];
    forall n | 1 <= n < |ns|
      ensures ns[n].items != [] && ns[n].items == Matching(before, getKey, ps[n]) + (if OnPath(ps[n], key, i + 1) then [item] else [])
    {
      if n == |nodes| {
        assert OnPath(ps[n], key, i + 1);
      } else {
        assert ns[n].items == nodes[n].items && ps[n] == paths[n];
        assert paths[n] != p;
        assert OnPath(paths[n], key, i + 1) == OnPath(paths[n], key, i);
      }
    }
  }

  lemma NewGaps<T>(nodes: seq<TrieNode<T>>, paths: seq<string>, getKey: T -> string, key: string, i: nat, node: nat, before: seq<T>, item: T)
    requires Walk(nodes, paths, getKey, key, i, node, before, item)
    requires i < |key| && key[i] !in nodes[node].children
    ensures WalkGaps(Push(Link(nodes, node, key[i]), |nodes|, item), paths + [key[..i + 1]], getKey, key, i + 1, before)
  {
    var p := key[..i + 1];
    NewPathFresh(nodes, paths, getKey, key, i, node, before, item);
    var ns, ps := Push(Link(nodes, node, key[i]), |nodes|, item), paths + [p];
    forall n, c' | 0 <= n < |ns| && c' !in ns[n].children
      ensures Matching(before, getKey, ps[n] + [c']) == [] && (StartsWith(key, ps[n] + [c']) ==> |ps[n]| >= i + 1)
    {
      if n == |nodes| {
        MatchingEmptyExtends(before, getKey, p, p + [c']);
      } else {
        assert c' !in nodes[n].children;
        if StartsWith(key, ps[n] + [c']) && |ps[n]| == i {
          NodeAtDepth(nodes, paths, key, i, node, n, c');
        }
      }
    }
  }

  /** Walking into an existing child: push the item there. */
  lemma AdvanceExisting<T>(nodes: seq<TrieNode<T>>, paths: seq<string>, getKey: T -> string, key: string, i: nat, node: nat, before: seq<T>, item: T)
    requires Walk(nodes, paths, getKey, key, i, node, before, item)
    requires i < |key| && key[i] in nodes[node].children
    ensures Walk(Push(nodes, nodes[node].children[key[i]], item), paths, getKey, key, i + 1, nodes[node].children[key[i]], before, item)
  {
    var child := nodes[node].children[key[i]];
    assert key[..i + 1] == key[..i] + [key[i]];
    assert paths[child] == key[..i + 1];
    ShapeAfterPush(nodes, paths, child, item);
    ExistingItems(nodes, paths, getKey, key, i, node, before, item);
    ExistingGaps(nodes, paths, getKey, key, i, node, before, item);
  }

  lemma ShapeAfterPush<T>(nodes: seq<TrieNode<T>>, paths: seq<string>, child: nat, item: T)
    requires Shape(nodes, paths) && 0 < child < |nodes|
    ensures Shape(Push(nodes, child, item), paths)
  {
    var ns := Push(nodes, child, item);
    assert forall n :: 0 <= n < |nodes| ==> ns[n].children == nodes[n].children;
  }

  lemma ExistingItems<T>(nodes: seq<TrieNode<T>>, paths: seq<string>, getKey: T -> string, key: string, i: nat, node: nat, before: seq<T>, item: T)
    requires Walk(nodes, paths, getKey, key, i, node, before, item)
    requires i < |key| && key[i] in nodes[node].children
    ensures WalkItems(Push(nodes, nodes[node].children[key[i]], item), paths, getKey, key, i + 1, before, item)
  {
    var p := key[..i + 1];
    assert p == paths[node] + [key[i]];
    var child := nodes[node].children[key[i]];
    assert paths[child] == p;
    var ns := Push(nodes, child, item);
    forall n | 1 <= n < |ns|
      ensures ns[n].items != [] && ns[n].items == Matching(before, getKey, paths[n]) + (if OnPath(paths[n], key, i + 1) then [item] else [])
    {
      if n == child {
        assert !OnPath(p, key, i) && OnPath(p, key, i + 1);
        assert nodes[child].items == Matching(before, getKey, p);
      } else {
        assert ns[n].items == nodes[n].items;
        assert nodes[n].items == Matching(before, getKey, paths[n]) + (if OnPath(paths[n], key, i) then [item] else []);
        assert paths[n] != p;
        assert OnPath(paths[n], key, i + 1) == OnPath(paths[n], key, i);
      }
    }
  }

  lemma ExistingGaps<T>(nodes: seq<TrieNode<T>>, paths: seq<string>, getKey: T -> string, key: string, i: nat, node: nat, before: seq<T>, item: T)
    requires Walk(nodes, paths, getKey, key, i, node, before, item)
    requires i < |key| && key[i] in nodes[node].children
    ensures WalkGaps(Push(nodes, nodes[node].children[key[i]], item), paths, getKey, key, i + 1, before)
  {
    forall n, c' | 0 <= n < |nodes| && c' !in nodes[n].children && StartsWith(key, paths[n] + [c'])
      ensures |paths[n]| >= i + 1
    {
      if |paths[n]| == i {
        NodeAtDepth(nodes, paths, key, i, node, n, c');
      }
    }
  }

  /** The walk of one insertion over the arena: from the root along the
      key, creating each missing child and pushing the item at every node on
      the way. */
  method InsertPath<T>(nodes: seq<TrieNode<T>>, ghost paths: seq<string>, getKey: T -> string, key: string, ghost before: seq<T>, item: T)
    returns (ns: seq<TrieNode<T>>, ghost ps: seq<string>)
    requires key == Lower(getKey(item))
    requires Shape(nodes, paths) && ItemsMatch(nodes, paths, getKey, before) && GapsEmpty(nodes, paths, getKey, before)
    ensures Shape(ns, ps) && ItemsMatch(ns, ps, getKey, before + [item]) && GapsEmpty(ns, ps, getKey, before + [item])
  {
    StartWalk(nodes, paths, getKey, key, before, item);
    ns, ps := nodes, paths;
    var node: nat := 0;
    var i: nat := 0;
    while i < |key|
      invariant Walk(ns, ps, getKey, key, i, node, before, item)
    {
      var c := key[i];
      ghost var size := |ns|;
      if c !in ns[node].children {
        AdvanceNew(ns, ps, getKey, key, i, node, before, item);
        ps := ps + [key[..i + 1]];
        ns := Link(ns, node, c);
        assert ns[node].children[c] == size;
      } else {
        AdvanceExisting(ns, ps, getKey, key, i, node, before, item);
      }
      node := ns[node].children[c];
      ns := Push(ns, node, item);
      i := i + 1;
    }
    EndWalk(ns, ps, getKey, key, node, before, item);
  }

  class Trie<T> {
    const getKey: T -> string
    var nodes: seq<TrieNode<T>>
    ghost var paths: seq<string>
    ghost var inserted: seq<T>

    /** Each non-root node holds exactly the inserted items matching its path,
        and is there only because some item did; a missing child means no
        inserted item continues that way. */
    ghost predicate Valid()
      reads this
    {
      Shape(nodes, paths) && ItemsMatch(nodes, paths, getKey, inserted) && GapsEmpty(nodes, paths, getKey, inserted)
    }

    constructor (getKey: T -> string)
      ensures Valid() && inserted == [] && this.getKey == getKey
    {
      this.getKey := getKey;
      nodes := [TrieNode(map[], [])];
      paths := [[]];
      inserted := [];
    }

    /** One item of `buildTrie`'s outer loop: walk its lower-cased key from
        the root, creating missing children, and push the item at every node
        on the way. */
    method Insert(item: T)
      requires Valid()
      modifies this
      ensures Valid() && inserted == old(inserted) + [item]
    {
      var key := Lower(getKey(item));
      var ns, ps := InsertPath(nodes, paths, getKey, key, inserted, item);
      nodes, paths := ns, ps;
      inserted := inserted + [item];
    }

    /** `searchTrie`: follow the lower-cased prefix from the root; a missing
        child means no match. */
    method Search(prefix: string) returns (r: seq<T>)
      requires Valid()
      ensures r == SearchSpec(inserted, getKey, prefix)
    {
      var lowerPrefix := Lower(prefix);
      var found := Descend(nodes, paths, getKey, inserted, lowerPrefix);
      if found.None? {
        return [];
      }
      return nodes[found.value].items;
    }
  }

  /** The loop of `searchTrie`: follow p from the root; a missing child
      means nothing matches p. */
  method Descend<T>(nodes: seq<TrieNode<T>>, ghost paths: seq<string>, ghost getKey: T -> string, ghost xs: seq<T>, p: string)
    returns (r: Option<nat>)
    requires Shape(nodes, paths) && GapsEmpty(nodes, paths, getKey, xs)
    ensures r.Some? ==> r.value < |nodes| && paths[r.value] == p
    ensures r.None? ==> Matching(xs, getKey, p) == []
  {
    var node := 0;
    var i := 0;
    while i < |p|
      invariant 0 <= i <= |p| && 0 <= node < |nodes| && paths[node] == p[..i]
    {
      var c := p[i];
      assert p[..i + 1] == p[..i] + [c];
      if c !in nodes[node].children {
        MatchingEmptyExtends(xs, getKey, paths[node] + [c], p);
        return None;
      }
      node := nodes[node].children[c];
      i := i + 1;
    }
    assert p[..i] == p;
    return Some(node);
  }

  /** `buildTrie`: insert the items one after another. */
  method BuildTrie<T>(items: seq<T>, getKey: T -> string) returns (t: Trie<T>)
    ensures fresh(t) && t.Valid() && t.inserted == items && t.getKey == getKey
  {
    t := new Trie(getKey);
    var j := 0;
    while j < |items|
      invariant 0 <= j <= |items|
      invariant fresh(t) && t.Valid() && t.inserted == items[..j] && t.getKey == getKey
    {
      t.Insert(items[j]);
      assert items[..j + 1] == items[..j] + [items[j]];
      j := j + 1;
    }
    assert items[..j] == items;
  }

  // ---------------------------------------------------------------------------
  // What a search returns
  // ---------------------------------------------------------------------------

  /** The empty prefix finds nothing; any other prefix finds exactly the items
      whose lower-cased key starts with the lower-cased prefix. */
  lemma SearchMembers<T>(xs: seq<T>, getKey: T -> string, prefix: string, x: T)
    ensures Lower(prefix) == "" ==> SearchSpec(xs, getKey, prefix) == []
    ensures Lower(prefix) != "" ==>
      (x in SearchSpec(xs, getKey, prefix) <==> x in xs && StartsWith(Lower(getKey(x)), Lower(prefix)))
  {
    MatchingMembers(xs, getKey, Lower(prefix), x);
  }

  /** Case does not matter in the prefix. */
  lemma SearchCaseInsensitive<T>(xs: seq<T>, getKey: T -> string, prefix: string)
    ensures SearchSpec(xs, getKey, prefix) == SearchSpec(xs, getKey, Lower(prefix))
  {
    LowerIdempotent(prefix);
  }

  /** Each distinct item is found at most once. */
  lemma SearchDistinct<T>(xs: seq<T>, getKey: T -> string, prefix: string)
    requires Distinct(xs)
    ensures Distinct(SearchSpec(xs, getKey, prefix))
  {
    if Lower(prefix) != "" {
      MatchingDistinct(xs, getKey, Lower(prefix));
    }
  }

  /** Typing one more character filters the previous results further. */
  lemma SearchNarrows<T>(xs: seq<T>, getKey: T -> string, prefix: string, c: char)
    requires Lower(prefix) != ""
    ensures SearchSpec(xs, getKey, prefix + [c]) == Matching(SearchSpec(xs, getKey, prefix), getKey, Lower(prefix + [c]))
  {
    var lp := Lower(prefix + [c]);
    assert lp[..|Lower(prefix)|] == Lower(prefix);
    MatchingRefine(xs, getKey, Lower(prefix), lp);
  }
}
