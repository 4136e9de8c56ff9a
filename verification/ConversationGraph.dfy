/**
 Collecting the images of a conversation: a depth-first walk over the message mapping, which may hold
 cycles, shared children and children that are not in it.
 */
module ConversationGraph {
  import opened Basics

  type Mapping = map<string, Node>

  /** `images` is what downloading the node's message yields, if it carries a message at all. */
  datatype Node = Node(images: Option<seq<string>>, children: seq<string>)

  /** The nodes the walk can process. */
  predicate Present(m: Mapping, id: string) { id != "" && id in m }

  lemma DistinctConcat(a: seq<string>, b: seq<string>)
    requires Distinct(a) && Distinct(b) && ToSet(a) !! ToSet(b)
    ensures Distinct(a + b)
  {
    forall i, j | 0 <= i < j < |a + b| ensures (a + b)[i] != (a + b)[j] {
      if i < |a| <= j { assert a[i] in ToSet(a) && b[j - |a|] in ToSet(b); }
    }
  }

  // --------------------------------------------------------------------------------------------
  // Reachability

  predicate Path(m: Mapping, p: seq<string>) {
    && p != []
    && (forall i :: 0 <= i < |p| ==> Present(m, p[i]))
    && (forall i :: 0 <= i < |p| - 1 ==> p[i + 1] in m[p[i]].children)
  }

  /** `id` can be reached from `root` through nodes that are all present. */
  ghost predicate Reachable(m: Mapping, root: string, id: string) {
    exists p :: Path(m, p) && p[0] == root && p[|p| - 1] == id
  }

  lemma ReachStep(m: Mapping, root: string, id: string, next: string)
    requires Reachable(m, root, id) && next in m[id].children && Present(m, next)
    ensures Reachable(m, root, next)
  {
    var p :| Path(m, p) && p[0] == root && p[|p| - 1] == id;
    assert Path(m, p + [next]);
    assert (p + [next])[|p|] == next;
  }

  lemma ClosedHoldsPath(m: Mapping, s: set<string>, p: seq<string>)
    requires Path(m, p) && p[0] in s
    requires forall x, c :: x in s && Present(m, x) && c in m[x].children && Present(m, c) ==> c in s
    ensures p[|p| - 1] in s
  {
    if |p| > 1 { ClosedHoldsPath(m, s, p[1..]); }
  }

  // --------------------------------------------------------------------------------------------
  // The walk with an explicit list of nodes still to visit

  function Preorder(m: Mapping, todo: seq<string>, seen: set<string>): (r: seq<string>)
    ensures forall x :: x in r ==> Present(m, x) && x !in seen
    ensures Distinct(r)
    decreases m.Keys - seen, |todo|
  {
    if todo == [] then []
    else if !Present(m, todo[0]) || todo[0] in seen then Preorder(m, todo[1..], seen)
    else
      assert todo[0] in m.Keys - seen;
      [todo[0]] + Preorder(m, m[todo[0]].children + todo[1..], seen + {todo[0]})
  }

  /** Visiting one list after another is visiting the first, then the second with what the first has seen. */
  lemma {:induction false} PreorderSplit(m: Mapping, a: seq<string>, b: seq<string>, seen: set<string>)
    ensures Preorder(m, a + b, seen) == Preorder(m, a, seen) + Preorder(m, b, seen + ToSet(Preorder(m, a, seen)))
    decreases m.Keys - seen, |a|
  {
    if a == [] {
      assert a + b == b;
      assert seen + ToSet(Preorder(m, a, seen)) == seen;
    } else if !Present(m, a[0]) || a[0] in seen {
      assert (a + b)[1..] == a[1..] + b;
      PreorderSplit(m, a[1..], b, seen);
    } else {
      var now := seen + {a[0]};
      var inner := m[a[0]].children + a[1..];
      assert a[0] in m.Keys - seen;
      assert m[a[0]].children + (a + b)[1..] == inner + b;
      PreorderSplit(m, inner, b, now);
      assert seen + ToSet(Preorder(m, a, seen)) == now + ToSet(Preorder(m, inner, now));
    }
  }

  lemma {:induction false} PreorderCloses(m: Mapping, todo: seq<string>, seen: set<string>)
    ensures var all := seen + ToSet(Preorder(m, todo, seen));
            && (forall t :: t in todo && Present(m, t) ==> t in all)
            && (forall x, c :: x in Preorder(m, todo, seen) && c in m[x].children && Present(m, c) ==> c in all)
    decreases m.Keys - seen, |todo|
  {
    if todo != [] {
      assert todo == [todo[0]] + todo[1..];
      if !Present(m, todo[0]) || todo[0] in seen {
        PreorderCloses(m, todo[1..], seen);
      } else {
        assert todo[0] in m.Keys - seen;
        PreorderCloses(m, m[todo[0]].children + todo[1..], seen + {todo[0]});
      }
    }
  }

  lemma {:induction false} PreorderReaches(m: Mapping, root: string, todo: seq<string>, seen: set<string>)
    requires forall t :: t in todo && Present(m, t) ==> Reachable(m, root, t)
    ensures forall x :: x in Preorder(m, todo, seen) ==> Reachable(m, root, x)
    decreases m.Keys - seen, |todo|
  {
    if todo != [] {
      assert forall t :: t in todo[1..] ==> t in todo;
      if !Present(m, todo[0]) || todo[0] in seen {
        PreorderReaches(m, root, todo[1..], seen);
      } else {
        assert todo[0] in m.Keys - seen && todo[0] in todo;
        var next := m[todo[0]].children + todo[1..];
        forall t | t in next && Present(m, t) ensures Reachable(m, root, t) {
          if t in m[todo[0]].children { ReachStep(m, root, todo[0], t); }
        }
        PreorderReaches(m, root, next, seen + {todo[0]});
      }
    }
  }

  /** From any root the walk processes exactly the reachable nodes, whatever cycles and gaps the mapping has. */
  lemma {:induction false} WalkIsReachability(m: Mapping, root: string, id: string)
    ensures id in Preorder(m, [root], {}) <==> Reachable(m, root, id)
  {
    var r := Preorder(m, [root], {});
    if Present(m, root) {
      assert Path(m, [root]);
      PreorderReaches(m, root, [root], {});
    }
    if Reachable(m, root, id) {
      var p :| Path(m, p) && p[0] == root && p[|p| - 1] == id;
      PreorderCloses(m, [root], {});
      assert root in ToSet(r);
      ClosedHoldsPath(m, ToSet(r), p);
    }
  }

  lemma {:induction false} WalkFindsReachable(m: Mapping, root: string)
    ensures forall id :: id in ToSet(Preorder(m, [root], {})) <==> Reachable(m, root, id)
  {
    forall id ensures id in ToSet(Preorder(m, [root], {})) <==> Reachable(m, root, id) {
      WalkIsReachability(m, root, id);
    }
  }

  // --------------------------------------------------------------------------------------------
  // The recursive walk of the program

  /** What the processed nodes contribute, in order. */
  function Collected(m: Mapping, order: seq<string>): seq<string> {
    if order == [] then []
    else
      var last := order[|order| - 1];
      Collected(m, order[..|order| - 1]) + ImagesOf(m, last)
  }

  function ImagesOf(m: Mapping, id: string): seq<string> {
    if id in m && m[id].images.Some? then m[id].images.value else []
  }

  lemma {:induction false} CollectedAppend(m: Mapping, order: seq<string>, id: string)
    ensures Collected(m, order + [id]) == Collected(m, order) + ImagesOf(m, id)
  {
    assert (order + [id])[..|order|] == order;
  }

  lemma {:induction false} CollectedMember(m: Mapping, order: seq<string>, image: string)
    ensures image in Collected(m, order)
            <==> exists id :: id in order && id in m && m[id].images.Some? && image in m[id].images.value
  {
    if order != [] {
      var n := |order| - 1;
      CollectedMember(m, order[..n], image);
      assert order == order[..n] + [order[n]];
    }
  }

  /** A node's images are collected, from the reachable nodes and from no others. */
  lemma {:induction false} ReachableImages(m: Mapping, root: string, image: string)
    ensures image in Collected(m, Preorder(m, [root], {}))
            <==> exists id :: Reachable(m, root, id) && m[id].images.Some? && image in m[id].images.value
  {
    CollectedMember(m, Preorder(m, [root], {}), image);
    WalkFindsReachable(m, root);
    assert forall id :: id in Preorder(m, [root], {}) <==> id in ToSet(Preorder(m, [root], {}));
  }

  /** The images come in the order in which their nodes are processed. */
  lemma {:induction false} CollectedConcat(m: Mapping, a: seq<string>, b: seq<string>)
    ensures Collected(m, a + b) == Collected(m, a) + Collected(m, b)
  {
    if b == [] {
      assert a + b == a;
    } else {
      var n := |b| - 1;
      assert (a + b)[..|a + b| - 1] == a + b[..n];
      CollectedConcat(m, a, b[..n]);
    }
  }

  /** Visiting a single node, unless it is blank, missing or seen, is processing it and then its children. */
  lemma {:induction false} PreorderOne(m: Mapping, id: string, seen: set<string>)
    ensures Preorder(m, [id], seen)
         == if Present(m, id) && id !in seen then [id] + Preorder(m, m[id].children, seen + {id}) else []
  {
    assert [id][1..] == [];
    if Present(m, id) { assert m[id].children + [] == m[id].children; }
  }

  /** One more child at the end of the list. */
  lemma {:induction false} PreorderNext(m: Mapping, children: seq<string>, i: nat, seen: set<string>)
    requires i < |children|
    ensures var done := Preorder(m, children[..i], seen);
            Preorder(m, children[..i + 1], seen) == done + Preorder(m, [children[i]], seen + ToSet(done))
  {
    PreorderSplit(m, children[..i], [children[i]], seen);
    assert children[..i + 1] == children[..i] + [children[i]];
  }

  lemma SetAppend(order: seq<string>, more: seq<string>)
    ensures ToSet(order + more) == ToSet(order) + ToSet(more)
  {
  }

  class Walk {
    const mapping: Mapping
    var seen: set<string>
    var images: seq<string>
    ghost var order: seq<string>

    constructor (mapping: Mapping)
      ensures this.mapping == mapping && seen == {} && order == [] && Valid()
    {
      this.mapping := mapping;
      seen, images, order := {}, [], [];
    }

    ghost predicate Valid()
      reads this
    {
      seen == ToSet(order) && images == Collected(mapping, order)
    }

    /** One node: marked, and its images collected. */
    method Process(id: string)
      requires Valid() && Present(mapping, id) && id !in seen
      modifies this
      ensures Valid() && seen == old(seen) + {id} && order == old(order) + [id]
    {
      var node := mapping[id];
      seen := seen + {id};
      CollectedAppend(mapping, order, id);
      SetAppend(order, [id]);
      order := order + [id];
      if node.images.Some? { images := images + node.images.value; }
    }

    /** The recursive closure `visit`: it processes what the list form does, in the same order. */
    method Visit(id: string)
      requires Valid()
      modifies this
      ensures Valid() && order == old(order) + Preorder(mapping, [id], old(seen))
      ensures seen == old(seen) + ToSet(Preorder(mapping, [id], old(seen)))
      decreases mapping.Keys - seen, 0
    {
      PreorderOne(mapping, id, seen);
      if id == "" { return; }
      if id in seen { return; }
      if id !in mapping { return; }
      ghost var below := Preorder(mapping, mapping[id].children, seen + {id});
      assert id in mapping.Keys - seen;
      Process(id);
      VisitAll(mapping[id].children);
      Reassociate(old(order), [id], below);
      SetAppend([id], below);
    }

    /** The loop over the children. */
    method VisitAll(children: seq<string>)
      requires Valid()
      modifies this
      ensures Valid() && order == old(order) + Preorder(mapping, children, old(seen))
      ensures seen == old(seen) + ToSet(Preorder(mapping, children, old(seen)))
      decreases mapping.Keys - seen, 1
    {
      for i := 0 to |children|
        invariant Valid() && seen == old(seen) + ToSet(Preorder(mapping, children[..i], old(seen)))
        invariant order == old(order) + Preorder(mapping, children[..i], old(seen))
      {
        ghost var done := Preorder(mapping, children[..i], old(seen));
        ghost var next := Preorder(mapping, [children[i]], seen);
        PreorderNext(mapping, children, i, old(seen));
        Reassociate(old(order), done, next);
        SetAppend(done, next);
        Visit(children[i]);
      }
      assert children[..|children|] == children;
    }

    /** With a root: the nodes reachable from it, each once. */
    method CollectFrom(root: string)
      requires root != "" && Valid() && order == []
      modifies this
      ensures Valid() && order == Preorder(mapping, [root], {})
      ensures forall id :: id in seen <==> Reachable(mapping, root, id)
      ensures forall image :: image in images
                <==> exists id :: Reachable(mapping, root, id) && mapping[id].images.Some?
                                  && image in mapping[id].images.value
    {
      assert seen == {};
      Visit(root);
      assert [] + Preorder(mapping, [root], {}) == Preorder(mapping, [root], {});
      WalkFindsReachable(mapping, root);
      forall image ensures image in images
                     <==> exists id :: Reachable(mapping, root, id) && mapping[id].images.Some?
                                       && image in mapping[id].images.value
      {
        ReachableImages(mapping, root, image);
      }
    }

    /** Without one: every node with a non-empty key, each once, in whatever order the map is ranged over. */
    method CollectAll()
      requires Valid() && order == []
      modifies this
      ensures Valid() && seen == set id | id in mapping && id != ""
      ensures Distinct(order)
    {
      var todo := mapping.Keys;
      while todo != {}
        invariant Valid() && todo <= mapping.Keys
        invariant Distinct(order)
        invariant forall id :: id in seen ==> Present(mapping, id)
        invariant forall id :: id in mapping && id !in todo && id != "" ==> id in seen
        decreases todo
      {
        var id :| id in todo;
        todo := todo - {id};
        PreorderCloses(mapping, [id], seen);
        ghost var before, more := order, Preorder(mapping, [id], seen);
        DistinctConcat(before, more);
        Visit(id);
      }
    }
  }
}
