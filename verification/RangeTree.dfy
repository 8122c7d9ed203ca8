/** The linked tree that turns overlapping Telegram entities into properly nested ones. */
module RangeTree {
  import opened Basics
  import opened BodyRanges

  /** The value of a tree: a node's range is relative to where the previous sibling ended, its
      child's ranges are relative to its own start. */
  datatype Tree = Leaf | Node(range: BodyRange, sibling: Tree, child: Tree)

  /** The part of `r` up to the end of `n`, relative to the start of `n`. */
  function Inside(r: BodyRange, n: BodyRange): BodyRange {
    r.TruncateEnd(n.End()).Offset(-n.start)
  }

  /** The part of `r` after the end of `n`, relative to that end. */
  function Past(r: BodyRange, n: BodyRange): BodyRange {
    r.TruncateStart(n.End()).Offset(-n.End())
  }

  function Insert(t: Tree, r: BodyRange): Tree {
    match t
    case Leaf => Node(r, Leaf, Leaf)
    case Node(n, sibling, child) =>
      if r.start >= n.End() then
        Node(n, Insert(sibling, r.Offset(-n.End())), child)
      else
        Node(n,
             if r.End() > n.End() then Insert(sibling, Past(r, n)) else sibling,
             Insert(child, Inside(r, n)))
  }

  /** Every node lies inside its parent, or inside what its predecessor left of the text. */
  predicate InBounds(t: Tree, length: int) {
    match t
    case Leaf => true
    case Node(n, sibling, child) =>
      0 <= n.start && 0 <= n.length && n.End() <= length &&
      InBounds(sibling, length - n.End()) && InBounds(child, n.length)
  }

  /** The values of the nodes around position `p`, outermost first. */
  function OpenAt(t: Tree, p: int): seq<Value> {
    match t
    case Leaf => []
    case Node(n, sibling, child) =>
      if p < n.start then []
      else if p < n.End() then [n.value] + OpenAt(child, p - n.start)
      else OpenAt(sibling, p - n.End())
  }

  /** Whether inserting `r` never compares it with a node that starts after it. */
  predicate Fits(t: Tree, r: BodyRange) {
    match t
    case Leaf => true
    case Node(n, sibling, child) =>
      n.start <= r.start &&
      if r.start >= n.End() then
        Fits(sibling, r.Offset(-n.End()))
      else
        && (r.End() > n.End() ==> Fits(sibling, Past(r, n)))
        && Fits(child, Inside(r, n))
  }

  lemma {:induction false} InsertBeforeStart(t: Tree, r: BodyRange, length: int)
    requires InBounds(t, length) && r.start < 0
    ensures !InBounds(Insert(t, r), length)
  {
    match t
    case Leaf =>
    case Node(n, sibling, child) =>
      InsertBeforeStart(child, Inside(r, n), n.length);
  }

  /** One insertion is safe exactly when the range fits. */
  lemma {:induction false} InsertInBounds(t: Tree, r: BodyRange, length: int)
    requires InBounds(t, length)
    requires 0 <= r.start && 0 <= r.length && r.End() <= length
    ensures InBounds(Insert(t, r), length) <==> Fits(t, r)
  {
    match t
    case Leaf =>
    case Node(n, sibling, child) =>
      var t' := Insert(t, r);
      if r.start >= n.End() {
        assert t' == Node(n, Insert(sibling, r.Offset(-n.End())), child);
        InsertInBounds(sibling, r.Offset(-n.End()), length - n.End());
      } else if r.start < n.start {
        assert t'.child == Insert(child, Inside(r, n));
        InsertBeforeStart(child, Inside(r, n), n.length);
        assert !InBounds(t'.child, n.length);
      } else {
        assert t'.child == Insert(child, Inside(r, n));
        InsertInBounds(child, Inside(r, n), n.length);
        if r.End() > n.End() {
          assert t'.sibling == Insert(sibling, Past(r, n));
          InsertInBounds(sibling, Past(r, n), length - n.End());
        } else {
          assert t'.sibling == sibling;
        }
      }
  }

  /** Insertion never repairs a tree that has left the text. */
  lemma {:induction false} InsertKeepsOutOfBounds(t: Tree, r: BodyRange, length: int)
    requires !InBounds(t, length)
    ensures !InBounds(Insert(t, r), length)
  {
    match t
    case Node(n, sibling, child) =>
      if !InBounds(sibling, length - n.End()) {
        InsertKeepsOutOfBounds(sibling, r.Offset(-n.End()), length - n.End());
        InsertKeepsOutOfBounds(sibling, Past(r, n), length - n.End());
      }
      if !InBounds(child, n.length) {
        InsertKeepsOutOfBounds(child, Inside(r, n), n.length);
      }
  }

  function CoveringValue(r: BodyRange, p: int): seq<Value> {
    if r.Covers(p) then [r.value] else []
  }

  lemma PartsCover(r: BodyRange, n: BodyRange, p: int)
    requires 0 <= n.length
    ensures n.start <= p < n.End() ==> CoveringValue(Inside(r, n), p - n.start) == CoveringValue(r, p)
    ensures n.End() <= p ==> CoveringValue(Past(r, n), p - n.End()) == CoveringValue(r, p)
  {
  }

  /** What insertion does around a position inside the root, from what it does in the child. */
  lemma OpensInside(t: Tree, r: BodyRange, p: int)
    requires t.Node? && 0 <= t.range.length && t.range.start <= p < t.range.End()
    requires var n := t.range; var inner, q := Inside(r, n), p - n.start;
             r.start < n.End() ==>
               OpenAt(Insert(t.child, inner), q) == OpenAt(t.child, q) + CoveringValue(inner, q)
    ensures OpenAt(Insert(t, r), p) == OpenAt(t, p) + CoveringValue(r, p)
  {
    var n := t.range;
    var around := OpenAt(t.child, p - n.start);
    PartsCover(r, n, p);
    assert [n.value] + (around + CoveringValue(r, p)) == [n.value] + around + CoveringValue(r, p);
    assert Insert(t, r).range == n;
    assert Insert(t, r).child == if r.start < n.End() then Insert(t.child, Inside(r, n)) else t.child;
  }

  /** The same for a position after the root, from the sibling. */
  lemma OpensAfter(t: Tree, r: BodyRange, p: int)
    requires t.Node? && 0 <= t.range.length && t.range.End() <= p
    requires var n := t.range;
             var rest := if r.start >= n.End() then r.Offset(-n.End()) else Past(r, n);
             r.End() > n.End() || r.start >= n.End() ==>
               OpenAt(Insert(t.sibling, rest), p - n.End()) == OpenAt(t.sibling, p - n.End()) + CoveringValue(rest, p - n.End())
    ensures OpenAt(Insert(t, r), p) == OpenAt(t, p) + CoveringValue(r, p)
  {
    var n := t.range;
    PartsCover(r, n, p);
    assert Insert(t, r).range == n;
    if r.start < n.End() && r.End() <= n.End() {
      assert Insert(t, r).sibling == t.sibling && CoveringValue(r, p) == [];
    }
  }

  /** Inserting a range that fits adds its value, innermost, exactly at the positions it covers. */
  lemma {:induction false} InsertOpens(t: Tree, r: BodyRange, length: int, p: int)
    requires InBounds(t, length) && Fits(t, r)
    requires 0 <= r.start && 0 <= r.length && r.End() <= length && 0 <= p < length
    ensures OpenAt(Insert(t, r), p) == OpenAt(t, p) + CoveringValue(r, p)
  {
    match t
    case Leaf =>
    case Node(n, sibling, child) =>
      if p < n.start {
      } else if p < n.End() {
        if r.start < n.End() {
          InsertOpens(child, Inside(r, n), n.length, p - n.start);
        }
        OpensInside(t, r, p);
      } else {
        if r.start >= n.End() {
          InsertOpens(sibling, r.Offset(-n.End()), length - n.End(), p - n.End());
        } else if r.End() > n.End() {
          InsertOpens(sibling, Past(r, n), length - n.End(), p - n.End());
        }
        OpensAfter(t, r, p);
      }
  }

  /** Whether every range that starts at `s` or later fits. */
  predicate Accepts(t: Tree, s: int) {
    match t
    case Leaf => true
    case Node(n, sibling, child) =>
      n.start <= s &&
      if s >= n.End() then Accepts(sibling, s - n.End())
      else Accepts(sibling, 0) && Accepts(child, s - n.start)
  }

  lemma {:induction false} AcceptsLater(t: Tree, s: int, s': int)
    requires Accepts(t, s) && s <= s'
    ensures Accepts(t, s')
  {
    match t
    case Leaf =>
    case Node(n, sibling, child) =>
      if s >= n.End() {
        AcceptsLater(sibling, s - n.End(), s' - n.End());
      } else if s' >= n.End() {
        AcceptsLater(sibling, 0, s' - n.End());
      } else {
        AcceptsLater(child, s - n.start, s' - n.start);
      }
  }

  lemma {:induction false} AcceptedFits(t: Tree, r: BodyRange)
    requires Accepts(t, r.start)
    ensures Fits(t, r)
  {
    match t
    case Leaf =>
    case Node(n, sibling, child) =>
      if r.start >= n.End() {
        AcceptedFits(sibling, r.Offset(-n.End()));
      } else {
        AcceptedFits(sibling, Past(r, n));
        AcceptedFits(child, Inside(r, n));
      }
  }

  /** Sorted insertion stays sorted in the sibling and in the child alike. */
  lemma {:induction false} InsertAccepts(t: Tree, r: BodyRange)
    requires Accepts(t, r.start) && 0 <= r.length
    ensures Accepts(Insert(t, r), r.start)
  {
    match t
    case Leaf =>
    case Node(n, sibling, child) =>
      if r.start >= n.End() {
        InsertAccepts(sibling, r.Offset(-n.End()));
      } else {
        if r.End() > n.End() {
          InsertAccepts(sibling, Past(r, n));
        }
        InsertAccepts(child, Inside(r, n));
      }
  }

  function Build(rs: seq<BodyRange>): Tree {
    if rs == [] then Leaf else Insert(Build(rs[..|rs| - 1]), rs[|rs| - 1])
  }

  predicate AllWithin(rs: seq<BodyRange>, lo: int, hi: int) {
    forall i :: 0 <= i < |rs| ==> lo <= rs[i].start && 0 <= rs[i].length && rs[i].End() <= hi
  }

  predicate AllInside(rs: seq<BodyRange>, length: int) {
    AllWithin(rs, 0, length)
  }

  predicate Sorted(rs: seq<BodyRange>) {
    forall i, j :: 0 <= i < j < |rs| ==> rs[i].start <= rs[j].start
  }

  /** Each range, at the time it is added, starts no earlier than the nodes it is compared with. */
  predicate EachFits(rs: seq<BodyRange>) {
    rs == [] || (EachFits(rs[..|rs| - 1]) && Fits(Build(rs[..|rs| - 1]), rs[|rs| - 1]))
  }

  /** The tree stays inside the text exactly when every range fitted; a tree that does not makes
      `Format` slice the text out of range. */
  lemma {:induction false} BuildInBounds(rs: seq<BodyRange>, length: nat)
    requires AllInside(rs, length)
    ensures InBounds(Build(rs), length) <==> EachFits(rs)
  {
    if rs != [] {
      var front, r := rs[..|rs| - 1], rs[|rs| - 1];
      BuildInBounds(front, length);
      if EachFits(front) {
        InsertInBounds(Build(front), r, length);
      } else {
        InsertKeepsOutOfBounds(Build(front), r, length);
      }
    }
  }

  lemma {:induction false} SortedFits(rs: seq<BodyRange>, length: nat)
    requires AllInside(rs, length) && Sorted(rs)
    ensures EachFits(rs)
    ensures rs != [] ==> Accepts(Build(rs), rs[|rs| - 1].start)
  {
    if rs != [] {
      var front, r := rs[..|rs| - 1], rs[|rs| - 1];
      SortedFits(front, length);
      if front != [] {
        AcceptsLater(Build(front), front[|front| - 1].start, r.start);
      }
      AcceptedFits(Build(front), r);
      InsertAccepts(Build(front), r);
    }
  }

  /** The meaning is preserved: the nodes around a position are the ranges covering it, in order. */
  lemma {:induction false} BuildOpens(rs: seq<BodyRange>, length: nat, p: nat)
    requires AllInside(rs, length) && EachFits(rs) && p < length
    ensures OpenAt(Build(rs), p) == StylesAt(rs, p)
  {
    if rs != [] {
      var front, r := rs[..|rs| - 1], rs[|rs| - 1];
      BuildOpens(front, length, p);
      BuildInBounds(front, length);
      InsertOpens(Build(front), r, length, p);
      StylesAtConcat(front, [r], p);
      assert rs == front + [r];
    }
  }

  /** Entities out of order can make the tree leave the text: the second of these is filed with
      a negative start. */
  lemma UnsortedLeavesText(v: Value)
    ensures var rs := [BodyRange(3, 2, v), BodyRange(1, 1, v)];
            AllInside(rs, 5) && !Sorted(rs) && !InBounds(Build(rs), 5)
  {
    var rs := [BodyRange(3, 2, v), BodyRange(1, 1, v)];
    assert rs[..1] == [rs[0]] && rs[..1][..0] == [] && Build([]) == Leaf;
    assert Build(rs[..1]) == Node(rs[0], Leaf, Leaf);
    BuildInBounds(rs, 5);
  }

  /** The nodes of a tree as ranges of the whole text. */
  function Flatten(t: Tree, base: int): seq<BodyRange> {
    match t
    case Leaf => []
    case Node(n, sibling, child) =>
      [n.Offset(base)] + (Flatten(child, base + n.start) + Flatten(sibling, base + n.End()))
  }

  predicate NestedOrDisjoint(a: BodyRange, b: BodyRange) {
    || a.End() <= b.start || b.End() <= a.start
    || (a.start <= b.start && b.End() <= a.End())
    || (b.start <= a.start && a.End() <= b.End())
  }

  predicate AllNested(rs: seq<BodyRange>) {
    forall i, j :: 0 <= i < j < |rs| ==> NestedOrDisjoint(rs[i], rs[j])
  }

  lemma WithinConcat(a: seq<BodyRange>, b: seq<BodyRange>, lo: int, mid: int, hi: int)
    requires AllWithin(a, lo, mid) && AllWithin(b, mid, hi) && lo <= mid <= hi
    ensures AllWithin(a + b, lo, hi)
    ensures AllNested(a) && AllNested(b) ==> AllNested(a + b)
  {
  }

  lemma NodeNests(node: BodyRange, inner: seq<BodyRange>, rest: seq<BodyRange>, lo: int, hi: int)
    requires lo <= node.start && 0 <= node.length && AllWithin(inner, node.start, node.End()) && AllWithin(rest, node.End(), hi)
    requires node.End() <= hi && AllNested(inner) && AllNested(rest)
    ensures AllWithin([node] + (inner + rest), lo, hi) && AllNested([node] + (inner + rest))
  {
    WithinConcat(inner, rest, node.start, node.End(), hi);
    var below := inner + rest;
    forall j | 0 <= j < |below|
      ensures NestedOrDisjoint(node, below[j])
    {
      assert below[j] == if j < |inner| then inner[j] else rest[j - |inner|];
    }
    assert forall j :: 0 < j < |[node] + below| ==> ([node] + below)[j] == below[j - 1];
  }

  lemma {:induction false} FlattenNests(t: Tree, base: int, length: int)
    requires InBounds(t, length)
    ensures AllWithin(Flatten(t, base), base, base + length) && AllNested(Flatten(t, base))
  {
    match t
    case Leaf =>
    case Node(n, sibling, child) =>
      FlattenNests(child, base + n.start, n.length);
      FlattenNests(sibling, base + n.End(), length - n.End());
      var node, inner, rest := n.Offset(base), Flatten(child, base + n.start), Flatten(sibling, base + n.End());
      assert Flatten(t, base) == [node] + (inner + rest);
      NodeNests(node, inner, rest, base, base + length);
  }

  lemma FlattenSplit(node: BodyRange, inner: seq<BodyRange>, rest: seq<BodyRange>, p: int)
    ensures StylesAt([node] + (inner + rest), p)
         == (if node.Covers(p) then [node.value] else []) + StylesAt(inner, p) + StylesAt(rest, p)
  {
    StylesAtConcat([node], inner + rest, p);
    StylesAtConcat(inner, rest, p);
    assert StylesAt([node], p) == (if node.Covers(p) then [node.value] else []);
    var head := StylesAt([node], p);
    assert head + (StylesAt(inner, p) + StylesAt(rest, p)) == head + StylesAt(inner, p) + StylesAt(rest, p);
  }

  lemma {:induction false} FlattenStyles(t: Tree, base: int, length: int, p: int)
    requires InBounds(t, length)
    ensures StylesAt(Flatten(t, base), base + p) == if 0 <= p < length then OpenAt(t, p) else []
  {
    match t
    case Leaf =>
    case Node(n, sibling, child) =>
      var node, inner, rest := n.Offset(base), Flatten(child, base + n.start), Flatten(sibling, base + n.End());
      assert Flatten(t, base) == [node] + (inner + rest);
      FlattenSplit(node, inner, rest, base + p);
      assert node.Covers(base + p) == n.Covers(p);
      assert StylesAt(inner, base + p) == (if n.Covers(p) then OpenAt(child, p - n.start) else []) by {
        FlattenStyles(child, base + n.start, n.length, p - n.start);
      }
      assert StylesAt(rest, base + p) == (if n.End() <= p < length then OpenAt(sibling, p - n.End()) else []) by {
        FlattenStyles(sibling, base + n.End(), length - n.End(), p - n.End());
      }
  }

  lemma FlattenKeepsStyles(rs: seq<BodyRange>, length: nat, p: nat)
    requires AllInside(rs, length) && EachFits(rs) && InBounds(Build(rs), length) && p < length
    ensures StylesAt(Flatten(Build(rs), 0), p) == StylesAt(rs, p)
  {
    BuildOpens(rs, length, p);
    FlattenStyles(Build(rs), 0, length, p);
    assert 0 + p == p;
  }

  /** The main result: entities in non-decreasing offset order become a family of ranges inside the
      text, any two nested or disjoint, that style every position as the entities did. */
  lemma SortedEntitiesNest(rs: seq<BodyRange>, length: nat)
    requires AllInside(rs, length) && Sorted(rs)
    ensures AllInside(Flatten(Build(rs), 0), length) && AllNested(Flatten(Build(rs), 0))
    ensures forall p :: 0 <= p < length ==> StylesAt(Flatten(Build(rs), 0), p) == StylesAt(rs, p)
  {
    SortedFits(rs, length);
    BuildInBounds(rs, length);
    var t := Build(rs);
    FlattenNests(t, 0, length);
    forall p | 0 <= p < length
      ensures StylesAt(Flatten(Build(rs), 0), p) == StylesAt(rs, p)
    {
      FlattenKeepsStyles(rs, length, p);
    }
  }

  /** The tree as the converter builds it, one entity at a time, in place. */
  class LinkedRangeTree {
    var node: Option<BodyRange>
    var sibling: LinkedRangeTree?
    var child: LinkedRangeTree?
    ghost var Repr: set<LinkedRangeTree>

    ghost predicate Valid()
      reads this, Repr
      ensures Valid() ==> this in Repr
    {
      && this in Repr
      && (node.None? ==> sibling == null && child == null)
      && (sibling != null ==> sibling in Repr && sibling.Repr <= Repr && this !in sibling.Repr && sibling.Valid())
      && (child != null ==> child in Repr && child.Repr <= Repr && this !in child.Repr && child.Valid())
      && (sibling != null && child != null ==> sibling.Repr !! child.Repr)
    }

    ghost function Model(): Tree
      requires Valid()
      reads this, Repr
    {
      if node.None? then Leaf
      else Node(node.value,
                if sibling == null then Leaf else sibling.Model(),
                if child == null then Leaf else child.Model())
    }

    static ghost function ModelOf(t: LinkedRangeTree?): Tree
      requires t != null ==> t.Valid()
      reads t, if t == null then {} else t.Repr
    {
      if t == null then Leaf else t.Model()
    }

    constructor ()
      ensures Valid() && fresh(Repr) && Model() == Leaf
    {
      node, sibling, child := None, null, null;
      Repr := {this};
    }

    static method PtrAdd(to: LinkedRangeTree?, r: BodyRange) returns (t: LinkedRangeTree)
      requires to != null ==> to.Valid()
      modifies if to == null then {} else to.Repr
      ensures t.Valid() && t.Model() == Insert(old(ModelOf(to)), r)
      ensures fresh(t.Repr - if to == null then {} else old(to.Repr))
      ensures to != null ==> t == to
      decreases ModelOf(to), 1
    {
      if to == null {
        t := new LinkedRangeTree();
      } else {
        t := to;
      }
      t.Add(r);
    }

    method Add(r: BodyRange)
      requires Valid()
      modifies Repr
      ensures Valid() && fresh(Repr - old(Repr)) && Model() == Insert(old(Model()), r)
      decreases Model(), 0
    {
      if node.None? {
        node := Some(r);
        return;
      }
      var nodeEnd := node.value.End();
      if r.start >= nodeEnd {
        AddSibling(r.Offset(-nodeEnd));
        return;
      }
      if r.End() > nodeEnd {
        AddSibling(r.TruncateStart(nodeEnd).Offset(-nodeEnd));
      }
      AddChild(r.TruncateEnd(nodeEnd).Offset(-node.value.start));
    }

    method AddSibling(r: BodyRange)
      requires Valid() && node.Some?
      modifies Repr
      ensures Valid() && fresh(Repr - old(Repr)) && node == old(node)
      ensures Model() == Node(node.value, Insert(old(Model()).sibling, r), old(Model()).child)
      decreases Model().sibling, 2
    {
      sibling := PtrAdd(sibling, r);
      Repr := Repr + sibling.Repr;
    }

    method AddChild(r: BodyRange)
      requires Valid() && node.Some?
      modifies Repr
      ensures Valid() && fresh(Repr - old(Repr)) && node == old(node)
      ensures Model() == Node(node.value, old(Model()).sibling, Insert(old(Model()).child, r))
      decreases Model().child, 2
    {
      child := PtrAdd(child, r);
      Repr := Repr + child.Repr;
    }
  }
}
