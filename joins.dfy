/** One-to-many relationships and the exports that walk them: `parent.children` as a list, the
    (parent, child) pairs a nested `for p in parents: for c in p.children` loop visits, and a
    row built per pair by a step that may raise (a dangling foreign key). */
module Joins {
  import opened Common

  /** `parent.children`: the children that belong to the parent, in table order. */
  function ChildrenOf<P, C>(parent: P, children: seq<C>, belongs: (P, C) -> bool): seq<C>
  {
    if children == [] then []
    else ChildrenOf(parent, children[..|children| - 1], belongs)
         + (if belongs(parent, children[|children| - 1]) then [children[|children| - 1]] else [])
  }

  /** The relationship holds exactly the children that belong to the parent. */
  lemma {:induction false} ChildrenOfMembers<P, C>(parent: P, children: seq<C>, belongs: (P, C) -> bool)
    ensures forall c :: c in ChildrenOf(parent, children, belongs) <==> c in children && belongs(parent, c)
  {
    if children != [] {
      ChildrenOfMembers(parent, children[..|children| - 1], belongs);
      assert children == children[..|children| - 1] + [children[|children| - 1]];
    }
  }

  /** The pairs of one parent with each of its children. */
  function WithParent<P, C>(parent: P, cs: seq<C>): (r: seq<(P, C)>)
    ensures |r| == |cs| && forall k :: 0 <= k < |cs| ==> r[k] == (parent, cs[k])
  {
    seq(|cs|, k requires 0 <= k < |cs| => (parent, cs[k]))
  }

  /** The (parent, child) pairs the nested loop visits, parents in order and each parent's
      children in table order. */
  function Flatten<P, C>(parents: seq<P>, children: seq<C>, belongs: (P, C) -> bool): seq<(P, C)>
  {
    if parents == [] then []
    else
      var p := parents[|parents| - 1];
      Flatten(parents[..|parents| - 1], children, belongs) + WithParent(p, ChildrenOf(p, children, belongs))
  }

  /** Every pair joins a listed parent with one of its own children. */
  lemma {:induction false} FlattenLinked<P, C>(parents: seq<P>, children: seq<C>, belongs: (P, C) -> bool)
    ensures forall pc :: pc in Flatten(parents, children, belongs) ==>
      pc.0 in parents && pc.1 in children && belongs(pc.0, pc.1)
  {
    if parents != [] {
      var p := parents[|parents| - 1];
      FlattenLinked(parents[..|parents| - 1], children, belongs);
      ChildrenOfMembers(p, children, belongs);
      var own := WithParent(p, ChildrenOf(p, children, belongs));
      forall pc | pc in own
        ensures pc.0 == p && pc.1 in ChildrenOf(p, children, belongs)
      {
        var k :| 0 <= k < |own| && own[k] == pc;
      }
      assert forall q :: q in parents[..|parents| - 1] ==> q in parents;
    }
  }

  /** The pairs of the first `n` parents open the list of all pairs. */
  lemma {:induction false} FlattenPrefix<P, C>(parents: seq<P>, children: seq<C>, belongs: (P, C) -> bool, n: nat)
    requires n <= |parents|
    ensures Flatten(parents[..n], children, belongs) <= Flatten(parents, children, belongs)
    decreases |parents| - n
  {
    if n < |parents| {
      var init := parents[..|parents| - 1];
      FlattenPrefix(init, children, belongs, n);
      assert init[..n] == parents[..n];
    } else {
      assert parents[..n] == parents;
    }
  }

  /** The number of pairs is the sum of the parents' child counts. */
  function ChildCount<P, C>(parents: seq<P>, children: seq<C>, belongs: (P, C) -> bool): nat
  {
    if parents == [] then 0
    else ChildCount(parents[..|parents| - 1], children, belongs)
         + |ChildrenOf(parents[|parents| - 1], children, belongs)|
  }

  lemma {:induction false} FlattenLength<P, C>(parents: seq<P>, children: seq<C>, belongs: (P, C) -> bool)
    ensures |Flatten(parents, children, belongs)| == ChildCount(parents, children, belongs)
  {
    if parents != [] {
      FlattenLength(parents[..|parents| - 1], children, belongs);
    }
  }

  /** `f` applied to each element in turn, or `None` as soon as one application raises. */
  function Collect<T, R>(ts: seq<T>, f: T -> Option<R>): Option<seq<R>>
  {
    if ts == [] then Some([])
    else
      match Collect(ts[..|ts| - 1], f)
      case None => None
      case Some(init) =>
        match f(ts[|ts| - 1])
        case None => None
        case Some(x) => Some(init + [x])
  }

  /** Collecting succeeds exactly when every application does, and then holds one result per
      element, in order. */
  lemma {:induction false} CollectPerElement<T, R>(ts: seq<T>, f: T -> Option<R>)
    ensures Collect(ts, f).Some? <==> forall k :: 0 <= k < |ts| ==> f(ts[k]).Some?
    ensures Collect(ts, f).Some? ==>
      |Collect(ts, f).value| == |ts| && forall k :: 0 <= k < |ts| ==> Some(Collect(ts, f).value[k]) == f(ts[k])
  {
    if ts != [] {
      var init := ts[..|ts| - 1];
      CollectPerElement(init, f);
      assert forall k :: 0 <= k < |init| ==> init[k] == ts[k];
    }
  }

  /** Once a run raises, every longer run raises too. */
  lemma CollectPrefixFails<T, R>(all: seq<T>, pre: seq<T>, f: T -> Option<R>)
    requires pre <= all && Collect(pre, f).None?
    ensures Collect(all, f).None?
  {
    CollectPerElement(pre, f);
    CollectPerElement(all, f);
    var k :| 0 <= k < |pre| && f(pre[k]).None?;
    assert all[k] == pre[k];
  }

  /** The inner loop: the rows already built for `done`, extended by one row per element of
      `ts`, until one raises. */
  method CollectFrom<T, R>(ghost done: seq<T>, data: seq<R>, ts: seq<T>, f: T -> Option<R>)
    returns (r: Option<seq<R>>)
    requires Collect(done, f) == Some(data)
    ensures r == Collect(done + ts, f)
  {
    var acc := data;
    assert done + ts[..0] == done;
    for j := 0 to |ts|
      invariant Collect(done + ts[..j], f) == Some(acc)
    {
      var x := f(ts[j]);
      assert (done + ts[..j + 1])[..|done| + j] == done + ts[..j];
      if x.None? {
        assert done + ts[..j + 1] <= done + ts;
        CollectPrefixFails(done + ts, done + ts[..j + 1], f);
        return None;
      }
      acc := acc + [x.value];
    }
    assert ts[..|ts|] == ts;
    r := Some(acc);
  }

  /** `for p in parents: for c in p.children: data.append(row(p, c))`, where building a row may
      raise. */
  method FlattenRows<P, C, R>(parents: seq<P>, children: seq<C>, belongs: (P, C) -> bool, row: ((P, C)) -> Option<R>)
    returns (r: Option<seq<R>>)
    ensures r == Collect(Flatten(parents, children, belongs), row)
  {
    var data: seq<R> := [];
    for i := 0 to |parents|
      invariant Collect(Flatten(parents[..i], children, belongs), row) == Some(data)
    {
      var p := parents[i];
      var these := WithParent(p, ChildrenOf(p, children, belongs));
      ghost var done := Flatten(parents[..i], children, belongs);
      assert parents[..i + 1][..i] == parents[..i];
      assert Flatten(parents[..i + 1], children, belongs) == done + these;
      var next := CollectFrom(done, data, these, row);
      if next.None? {
        FlattenPrefix(parents, children, belongs, i + 1);
        CollectPrefixFails(Flatten(parents, children, belongs), done + these, row);
        return None;
      }
      data := next.value;
    }
    assert parents[..|parents|] == parents;
    r := Some(data);
  }
}
