/** Which neighbours of a Matrix album go into one Telegram album: a greedy plan, and why no plan is shorter. */
module AlbumPlan {
  import opened Basics

  datatype Kind = NoAlbum | Visual | Document | Audio

  type Group = seq<nat>

  function Flatten(groups: seq<Group>): seq<nat> {
    if groups == [] then [] else Flatten(groups[..|groups| - 1]) + groups[|groups| - 1]
  }

  function UpTo(n: nat): seq<nat> {
    seq(n, i => i)
  }

  /** An album Telegram accepts: items of one kind, at most ten, and alone if they can't be in albums. */
  predicate Sendable(kinds: seq<Kind>, g: Group) {
    && 0 < |g| <= MAX_ALBUM_SIZE
    && (forall k :: 0 <= k < |g| ==> g[k] < |kinds|)
    && (forall k :: 0 <= k < |g| ==> kinds[g[k]] == kinds[g[0]])
    && (kinds[g[0]] == NoAlbum ==> |g| == 1)
  }

  /** An order-preserving split of the first `n` items into sendable albums. */
  predicate IsPlan(kinds: seq<Kind>, groups: seq<Group>, n: nat) {
    && Flatten(groups) == UpTo(n)
    && forall g :: 0 <= g < |groups| ==> Sendable(kinds, groups[g])
  }

  /** The plan is at least as good as any other: fewer groups, or as many with no fuller a last one. */
  predicate Ahead(groups: seq<Group>, other: seq<Group>) {
    |groups| < |other| ||
    (|groups| == |other| && (groups != [] ==> |groups[|groups| - 1]| <= |other[|other| - 1]|))
  }

  function AddItem(kinds: seq<Kind>, groups: seq<Group>, i: nat): seq<Group>
    requires i < |kinds|
    requires groups != [] ==> groups[|groups| - 1] != [] && groups[|groups| - 1][0] < |kinds|
  {
    var last := |groups| - 1;
    if kinds[i] != NoAlbum && last >= 0 && |groups[last]| < MAX_ALBUM_SIZE && kinds[groups[last][0]] == kinds[i] then
      groups[last := groups[last] + [i]]
    else
      groups + [[i]]
  }

  lemma FlattenLast(groups: seq<Group>, g: Group)
    ensures Flatten(groups + [g]) == Flatten(groups) + g
  {
    assert (groups + [g])[..|groups|] == groups;
  }

  lemma AddItemFlattens(kinds: seq<Kind>, groups: seq<Group>, i: nat)
    requires i < |kinds| && (groups != [] ==> groups[|groups| - 1] != [] && groups[|groups| - 1][0] < |kinds|)
    ensures Flatten(AddItem(kinds, groups, i)) == Flatten(groups) + [i]
  {
    var last := |groups| - 1;
    var groups' := AddItem(kinds, groups, i);
    if |groups'| > |groups| {
      FlattenLast(groups, [i]);
    } else {
      var front, g := groups[..last], groups[last];
      assert groups'[..last] == front;
      Associative(Flatten(front), g, [i]);
    }
  }

  lemma Associative(a: seq<nat>, b: seq<nat>, c: seq<nat>)
    ensures a + b + c == a + (b + c)
  {
  }

  /** An item of its own, or one more in an album of its kind that is not full. */
  lemma AddedSendable(kinds: seq<Kind>, g: Group, i: nat)
    requires i < |kinds|
    ensures Sendable(kinds, [i])
    ensures Sendable(kinds, g) && |g| < MAX_ALBUM_SIZE && kinds[g[0]] == kinds[i] != NoAlbum ==> Sendable(kinds, g + [i])
  {
  }

  lemma AddItemKeepsPlan(kinds: seq<Kind>, groups: seq<Group>, i: nat)
    requires i < |kinds| && IsPlan(kinds, groups, i)
    ensures IsPlan(kinds, AddItem(kinds, groups, i), i + 1)
  {
    assert UpTo(i + 1) == UpTo(i) + [i];
    var last := |groups| - 1;
    assert groups != [] ==> Sendable(kinds, groups[last]);
    AddItemFlattens(kinds, groups, i);
    AddedSendable(kinds, if groups == [] then [] else groups[last], i);
  }

  /** The last group of a plan ends with the last item; without that item it is a plan of one fewer. */
  function DropItem(groups: seq<Group>): seq<Group>
    requires groups != [] && groups[|groups| - 1] != []
  {
    var last := |groups| - 1;
    if |groups[last]| == 1 then groups[..last] else groups[last := groups[last][..|groups[last]| - 1]]
  }

  lemma DropItemKeepsPlan(kinds: seq<Kind>, groups: seq<Group>, i: nat)
    requires i < |kinds| && IsPlan(kinds, groups, i + 1)
    ensures groups != [] && groups[|groups| - 1] != []
    ensures IsPlan(kinds, DropItem(groups), i)
    ensures var g := groups[|groups| - 1]; g[|g| - 1] == i && (|g| > 1 ==> g[|g| - 2] == i - 1)
  {
    assert UpTo(i + 1) == UpTo(i) + [i];
    assert |Flatten(groups)| == i + 1;
    var last := |groups| - 1;
    var front, g := groups[..last], groups[last];
    assert Sendable(kinds, g);
    var short := g[..|g| - 1];
    DropLast(Flatten(front), g, i);
    if |g| == 1 {
      assert DropItem(groups) == front && Flatten(front) + [] == Flatten(front);
    } else {
      assert DropItem(groups)[..last] == front && DropItem(groups)[last] == short;
    }
  }

  /** The numbers up to i without the last one, which is i. */
  lemma DropLast(front: seq<nat>, g: Group, i: nat)
    requires front + g == UpTo(i + 1) && g != []
    ensures front + g[..|g| - 1] == UpTo(i) && g[|g| - 1] == i && (|g| > 1 ==> g[|g| - 2] == i - 1)
  {
    var all := front + g;
    assert g[|g| - 1] == all[i] && (|g| > 1 ==> g[|g| - 2] == all[i - 1]);
    assert front + g[..|g| - 1] == all[..i];
  }

  /** One more item keeps the greedy plan ahead of every other plan. */
  lemma AddItemStaysAhead(kinds: seq<Kind>, groups: seq<Group>, other: seq<Group>, i: nat)
    requires i < |kinds| && IsPlan(kinds, groups, i) && IsPlan(kinds, other, i + 1)
    requires other != [] && other[|other| - 1] != [] && Ahead(groups, DropItem(other))
    ensures Ahead(AddItem(kinds, groups, i), other)
  {
    DropItemKeepsPlan(kinds, other, i);
    var g := other[|other| - 1];
    assert Sendable(kinds, g);
    if |g| > 1 && |groups| == |other| {
      // The other plan extends its last group, so item i has the kind of item i - 1.
      assert kinds[i] == kinds[g[|g| - 2]] == kinds[i - 1] != NoAlbum;
      LastOfPlan(kinds, groups, i);
    }
  }

  lemma LastOfPlan(kinds: seq<Kind>, groups: seq<Group>, i: nat)
    requires 0 < i <= |kinds| && IsPlan(kinds, groups, i) && groups != []
    ensures var g := groups[|groups| - 1]; g != [] && g[0] < |kinds| && kinds[g[0]] == kinds[i - 1]
  {
    DropItemKeepsPlan(kinds, groups, i - 1);
    var g := groups[|groups| - 1];
    assert Sendable(kinds, g);
  }

  lemma AheadOfAll(kinds: seq<Kind>, groups: seq<Group>, i: nat)
    requires i < |kinds| && IsPlan(kinds, groups, i)
    requires forall other :: IsPlan(kinds, other, i) ==> Ahead(groups, other)
    ensures forall other :: IsPlan(kinds, other, i + 1) ==> Ahead(AddItem(kinds, groups, i), other)
  {
    forall other | IsPlan(kinds, other, i + 1)
      ensures Ahead(AddItem(kinds, groups, i), other)
    {
      DropItemKeepsPlan(kinds, other, i);
      AddItemStaysAhead(kinds, groups, other, i);
    }
  }

  /** What the greedy loop knows after `n` items. */
  ghost predicate Best(kinds: seq<Kind>, groups: seq<Group>, n: nat) {
    IsPlan(kinds, groups, n) && forall other :: IsPlan(kinds, other, n) ==> Ahead(groups, other)
  }

  lemma AddItemKeepsBest(kinds: seq<Kind>, groups: seq<Group>, i: nat)
    requires i < |kinds| && Best(kinds, groups, i)
    ensures groups != [] ==> groups[|groups| - 1] != [] && groups[|groups| - 1][0] < |kinds|
    ensures Best(kinds, AddItem(kinds, groups, i), i + 1)
  {
    if groups != [] {
      assert Sendable(kinds, groups[|groups| - 1]);
    }
    AddItemKeepsPlan(kinds, groups, i);
    AheadOfAll(kinds, groups, i);
  }

  /** Every item is in one group, in order, and no plan has fewer groups. */
  method PlanAlbums(kinds: seq<Kind>) returns (groups: seq<Group>)
    ensures IsPlan(kinds, groups, |kinds|)
    ensures forall other :: IsPlan(kinds, other, |kinds|) ==> |groups| <= |other|
  {
    groups := [];
    var i := 0;
    assert Best(kinds, [], 0);
    while i < |kinds|
      invariant 0 <= i <= |kinds|
      invariant Best(kinds, groups, i)
    {
      AddItemKeepsBest(kinds, groups, i);
      groups := Place(kinds, groups, i);
      i := i + 1;
    }
  }

  /** Puts one more item into the last group if it may go there, and otherwise into a new one. */
  method Place(kinds: seq<Kind>, groups: seq<Group>, i: nat) returns (groups': seq<Group>)
    requires i < |kinds| && (groups != [] ==> groups[|groups| - 1] != [] && groups[|groups| - 1][0] < |kinds|)
    ensures groups' == AddItem(kinds, groups, i)
  {
    var kind, last := kinds[i], |groups| - 1;
    if kind != NoAlbum && last >= 0 && |groups[last]| < MAX_ALBUM_SIZE && kinds[groups[last][0]] == kind {
      groups' := groups[last := groups[last] + [i]];
    } else {
      groups' := groups + [[i]];
    }
  }
}
