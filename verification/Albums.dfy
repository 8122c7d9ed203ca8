/** Telegram albums in message history: their items' indexes and trimming a cut-off one from a batch. */
module Albums {
  import opened Basics

  /** A message of the history; ordinary ones carry the album they are grouped into, or 0. */
  datatype Message = Ordinary(id: int, grouped: int) | Service(id: int)

  function GroupOf(m: Message): int {
    if m.Ordinary? then m.grouped else 0
  }

  // ----- Indexes -----

  /** What `base` must be: the smallest known ID of the group within the nine preceding ones. */
  ghost predicate IsBase(msgID: int, grouped: int, lookup: int -> Option<int>, from: int, base: int) {
    && from <= base <= msgID
    && (base == msgID || (base > 0 && lookup(base) == Some(grouped)))
    && forall other :: from <= other < base && other > 0 ==> lookup(other) != Some(grouped)
  }

  method TelegramAlbumIndex(msgID: int, grouped: int, lookup: int -> Option<int>) returns (index: int)
    ensures 0 <= index < MAX_ALBUM_SIZE
    ensures IsBase(msgID, grouped, lookup, msgID - MAX_ALBUM_SIZE + 1, msgID - index)
  {
    var base := msgID;
    var delta := 1;
    while delta < MAX_ALBUM_SIZE
      invariant 1 <= delta <= MAX_ALBUM_SIZE
      invariant IsBase(msgID, grouped, lookup, msgID - delta + 1, base)
    {
      var otherID := msgID - delta;
      if otherID <= 0 {
        break;
      }
      if lookup(otherID) == Some(grouped) {
        base := otherID;
      }
      delta := delta + 1;
    }
    return msgID - base;
  }

  function BatchOf(messages: seq<Message>): map<int, int> {
    if messages == [] then map[]
    else
      var front, m := BatchOf(messages[..|messages| - 1]), messages[|messages| - 1];
      if GroupOf(m) != 0 then front[m.id := GroupOf(m)] else front
  }

  method WithAlbumBatch(messages: seq<Message>) returns (batch: map<int, int>)
    ensures batch == BatchOf(messages)
  {
    batch := map[];
    var i := 0;
    while i < |messages|
      invariant 0 <= i <= |messages| && batch == BatchOf(messages[..i])
    {
      assert messages[..i + 1][..i] == messages[..i];
      var m := messages[i];
      if m.Ordinary? && m.grouped != 0 {
        batch := batch[m.id := m.grouped];
      }
      i := i + 1;
    }
    assert messages[..i] == messages;
  }

  /** The group of a message: as the batch knows it, or else as the database does. */
  function LookupIn(batch: map<int, int>, db: int -> Option<int>): int -> Option<int> {
    id => if id in batch then Some(batch[id]) else db(id)
  }

  predicate Descending(h: seq<Message>) {
    (forall i :: 0 <= i < |h| ==> h[i].id > 0) && (forall i, j :: 0 <= i < j < |h| ==> Before(h, i, j))
  }

  predicate Before(h: seq<Message>, i: int, j: int) {
    0 <= i < j < |h| ==> h[i].id > h[j].id
  }

  lemma DescendingSlice(h: seq<Message>, lo: nat, hi: nat)
    requires Descending(h) && lo <= hi <= |h|
    ensures Descending(h[lo..hi])
  {
    var part := h[lo..hi];
    forall i, j | 0 <= i < j < |part|
      ensures Before(part, i, j)
    {
      assert Before(h, lo + i, lo + j);
    }
  }

  lemma {:induction false} BatchOfIs(messages: seq<Message>, id: int)
    requires Descending(messages)
    ensures id in BatchOf(messages) <==> exists i :: 0 <= i < |messages| && messages[i].id == id && GroupOf(messages[i]) != 0
    ensures forall i :: 0 <= i < |messages| && messages[i].id == id && GroupOf(messages[i]) != 0 ==>
              id in BatchOf(messages) && BatchOf(messages)[id] == GroupOf(messages[i])
  {
    if messages != [] {
      var n := |messages| - 1;
      DescendingSlice(messages, 0, n);
      BatchOfIs(messages[..n], id);
      assert forall i :: 0 <= i < n ==> messages[..n][i] == messages[i] && Before(messages, i, n);
    }
  }

  /** Messages of one album span at most ten IDs. */
  predicate SpansTen(h: seq<Message>) {
    forall i, j :: 0 <= i < |h| && 0 <= j < |h| ==> SpanAt(h, i, j)
  }

  predicate SpanAt(h: seq<Message>, i: int, j: int) {
    0 <= i < |h| && 0 <= j < |h| && GroupOf(h[i]) != 0 && GroupOf(h[i]) == GroupOf(h[j]) ==>
      h[i].id - h[j].id < MAX_ALBUM_SIZE
  }

  lemma SpansSlice(h: seq<Message>, lo: nat, hi: nat)
    requires SpansTen(h) && lo <= hi <= |h|
    ensures SpansTen(h[lo..hi])
  {
    var part := h[lo..hi];
    forall i, j | 0 <= i < |part| && 0 <= j < |part|
      ensures SpanAt(part, i, j)
    {
      assert SpanAt(h, lo + i, lo + j);
    }
  }

  /** The database only knows a message to be in an album it is in, one whose items are all in the batch. */
  predicate KnowsOnly(db: int -> Option<int>, page: seq<Message>, grouped: int, other: int) {
    db(other) == Some(grouped) ==> exists i :: 0 <= i < |page| && page[i].id == other && GroupOf(page[i]) == grouped
  }

  /** The base of an item is itself an item of the album, and no item comes before it. */
  lemma BaseIsFirst(page: seq<Message>, db: int -> Option<int>, m: nat, base: int)
    requires Descending(page) && SpansTen(page) && m < |page| && GroupOf(page[m]) != 0
    requires forall other :: KnowsOnly(db, page, GroupOf(page[m]), other)
    requires IsBase(page[m].id, GroupOf(page[m]), LookupIn(BatchOf(page), db), page[m].id - MAX_ALBUM_SIZE + 1, base)
    ensures exists i :: 0 <= i < |page| && page[i].id == base && GroupOf(page[i]) == GroupOf(page[m])
    ensures forall i :: 0 <= i < |page| && GroupOf(page[i]) == GroupOf(page[m]) ==> base <= page[i].id
  {
    var g := GroupOf(page[m]);
    BatchOfIs(page, base);
    assert KnowsOnly(db, page, g, base);
    forall i | 0 <= i < |page| && GroupOf(page[i]) == g
      ensures base <= page[i].id
    {
      BatchOfIs(page, page[i].id);
      assert LookupIn(BatchOf(page), db)(page[i].id) == Some(g);
      assert SpanAt(page, m, i);
    }
  }

  /** Within a page that holds whole albums spanning at most ten IDs, two items of one album get indexes
      that differ as their IDs do: distinct, and increasing with the message ID. */
  lemma IndexesFollowIDs(page: seq<Message>, db: int -> Option<int>, m: nat, n: nat, index: int, index': int)
    requires Descending(page) && SpansTen(page) && m < |page| && n < |page|
    requires GroupOf(page[m]) == GroupOf(page[n]) != 0
    requires forall other :: KnowsOnly(db, page, GroupOf(page[m]), other)
    requires IsBase(page[m].id, GroupOf(page[m]), LookupIn(BatchOf(page), db), page[m].id - MAX_ALBUM_SIZE + 1, page[m].id - index)
    requires IsBase(page[n].id, GroupOf(page[n]), LookupIn(BatchOf(page), db), page[n].id - MAX_ALBUM_SIZE + 1, page[n].id - index')
    ensures index - index' == page[m].id - page[n].id && 0 <= index < MAX_ALBUM_SIZE && 0 <= index' < MAX_ALBUM_SIZE
  {
    BaseIsFirst(page, db, m, page[m].id - index);
    BaseIsFirst(page, db, n, page[n].id - index');
  }

  // ----- Trimming -----

  /** Where the run of messages of group `g` that ends at `cut` starts. */
  function RunStart(messages: seq<Message>, g: int, cut: nat): (start: nat)
    requires cut <= |messages|
    ensures start <= cut
  {
    if cut > 0 && messages[cut - 1].Ordinary? && messages[cut - 1].grouped == g then RunStart(messages, g, cut - 1)
    else cut
  }

  lemma {:induction false} RunStartIs(messages: seq<Message>, g: int, cut: nat)
    requires cut <= |messages|
    ensures var start := RunStart(messages, g, cut);
            && (forall i :: start <= i < cut ==> messages[i].Ordinary? && messages[i].grouped == g)
            && (start > 0 ==> !(messages[start - 1].Ordinary? && messages[start - 1].grouped == g))
  {
    if cut > 0 && messages[cut - 1].Ordinary? && messages[cut - 1].grouped == g {
      RunStartIs(messages, g, cut - 1);
    }
  }

  function Trimmed(messages: seq<Message>): seq<Message> {
    if messages == [] || GroupOf(messages[|messages| - 1]) == 0 then messages
    else
      var cut := RunStart(messages, GroupOf(messages[|messages| - 1]), |messages|);
      if cut == 0 then messages else messages[..cut]
  }

  method TrimTrailingAlbum(messages: seq<Message>) returns (trimmed: seq<Message>)
    ensures trimmed == Trimmed(messages)
  {
    if |messages| == 0 {
      return messages;
    }
    var last := messages[|messages| - 1];
    if !last.Ordinary? || last.grouped == 0 {
      return messages;
    }
    var cut := |messages| - 1;
    while cut > 0
      invariant 0 <= cut < |messages|
      invariant RunStart(messages, last.grouped, cut) == RunStart(messages, last.grouped, |messages|)
    {
      var m := messages[cut - 1];
      if !m.Ordinary? || m.grouped != last.grouped {
        break;
      }
      cut := cut - 1;
    }
    return if cut == 0 then messages else messages[..cut];
  }
}
