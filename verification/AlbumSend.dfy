/** Album items on their way to Telegram, up to what came back for each of them. */
module AlbumSend {
  import opened Basics
  import opened AlbumPlan

  /** Media as it is sent: freshly uploaded, or known to Telegram already. */
  datatype Media = Uploaded(kind: Kind, file: int, spoiler: bool) | Saved(id: int, spoiler: bool)

  function KindOf(media: Media): Kind {
    if media.Uploaded? then media.kind else NoAlbum
  }

  function HasSpoiler(media: Media): bool {
    media.Uploaded? && media.spoiler
  }

  datatype Update = MessageID(randomID: int, id: int) | NewMessage(id: int, payload: int) | OtherUpdate

  datatype Response = Updates(list: seq<Update>, date: int) | UnknownResponse

  datatype UploadReply = Stored(id: int) | UnexpectedType | UploadError(code: int)

  datatype SendReply = Accepted(response: Response) | SendError(code: int)

  datatype ItemError = PrepareFailed | SendFailed(code: int) | UnknownUpdates | NoMessageID

  datatype SingleMedia = SingleMedia(media: Media, randomID: int, message: string)

  datatype Call = UploadMedia(media: Media) | SendMedia(item: SingleMedia) | SendMultiMedia(items: seq<SingleMedia>)

  // ----- Taking the answer apart -----

  /** The message ID the response gives for a random ID. */
  function IDFor(updates: seq<Update>, randomID: int): Option<int> {
    if updates == [] then None
    else
      var last := updates[|updates| - 1];
      if last.MessageID? && last.randomID == randomID then Some(last.id)
      else IDFor(updates[..|updates| - 1], randomID)
  }

  /** The message with an ID. */
  function MessageFor(updates: seq<Update>, id: int): Option<int> {
    if updates == [] then None
    else
      var last := updates[|updates| - 1];
      if last.NewMessage? && last.id == id then Some(last.payload) else MessageFor(updates[..|updates| - 1], id)
  }

  function Split(updates: seq<Update>, date: int, randomID: int): Option<Response> {
    match IDFor(updates, randomID)
    case None => None
    case Some(id) =>
      var message := MessageFor(updates, id);
      Some(Updates([MessageID(randomID, id)] + if message.Some? then [NewMessage(id, message.value)] else [], date))
  }

  method SplitAlbumUpdates(response: Response, randomIDs: seq<int>) returns (split: Option<seq<Option<Response>>>)
    ensures response.UnknownResponse? ==> split.None?
    ensures response.Updates? ==>
              && split.Some? && |split.value| == |randomIDs|
              && forall i :: 0 <= i < |randomIDs| ==> split.value[i] == Split(response.list, response.date, randomIDs[i])
  {
    if response.UnknownResponse? {
      return None;
    }
    var messageIDs: map<int, int> := map[];
    var messages: map<int, int> := map[];
    var i := 0;
    while i < |response.list|
      invariant 0 <= i <= |response.list|
      invariant forall r :: (if r in messageIDs then Some(messageIDs[r]) else None) == IDFor(response.list[..i], r)
      invariant forall m :: (if m in messages then Some(messages[m]) else None) == MessageFor(response.list[..i], m)
    {
      var update := response.list[i];
      assert response.list[..i + 1][..i] == response.list[..i] && response.list[..i + 1][i] == update;
      if update.MessageID? {
        messageIDs := messageIDs[update.randomID := update.id];
      } else if update.NewMessage? {
        messages := messages[update.id := update.payload];
      }
      i := i + 1;
    }
    assert response.list[..i] == response.list;
    var parts: seq<Option<Response>> := [];
    var k := 0;
    while k < |randomIDs|
      invariant 0 <= k <= |randomIDs| && |parts| == k
      invariant forall j :: 0 <= j < k ==> parts[j] == Split(response.list, response.date, randomIDs[j])
    {
      var r := randomIDs[k];
      assert (if r in messageIDs then Some(messageIDs[r]) else None) == IDFor(response.list, r);
      if r in messageIDs {
        var id := messageIDs[r];
        assert (if id in messages then Some(messages[id]) else None) == MessageFor(response.list, id);
        var list := [MessageID(r, id)];
        if id in messages {
          list := list + [NewMessage(id, messages[id])];
        } else {
          assert list + [] == list;
        }
        parts := parts + [Some(Updates(list, response.date))];
      } else {
        parts := parts + [None];
      }
      k := k + 1;
    }
    return Some(parts);
  }

  /** Random IDs and message IDs are used once. */
  predicate Unambiguous(updates: seq<Update>) {
    && (forall u <- updates, v <- updates :: u.MessageID? && v.MessageID? && (u.randomID == v.randomID || u.id == v.id) ==> u == v)
    && (forall u <- updates, v <- updates :: u.NewMessage? && v.NewMessage? && u.id == v.id ==> u == v)
  }

  lemma {:induction false} IDForIs(updates: seq<Update>, randomID: int)
    ensures match IDFor(updates, randomID)
            case Some(id) => MessageID(randomID, id) in updates
            case None => forall id :: MessageID(randomID, id) !in updates
  {
    if updates != [] {
      IDForIs(updates[..|updates| - 1], randomID);
      assert updates == updates[..|updates| - 1] + [updates[|updates| - 1]];
    }
  }

  lemma {:induction false} MessageForIs(updates: seq<Update>, id: int)
    ensures match MessageFor(updates, id)
            case Some(payload) => NewMessage(id, payload) in updates
            case None => forall payload :: NewMessage(id, payload) !in updates
  {
    if updates != [] {
      MessageForIs(updates[..|updates| - 1], id);
      assert updates == updates[..|updates| - 1] + [updates[|updates| - 1]];
    }
  }

  /** However the response is ordered, each item gets its own message ID and its own message, and
      different items get different messages. */
  lemma SplitGivesOwn(updates: seq<Update>, date: int, randomID: int, id: int, payload: int, other: int)
    requires Unambiguous(updates) && MessageID(randomID, id) in updates && NewMessage(id, payload) in updates
    ensures Split(updates, date, randomID) == Some(Updates([MessageID(randomID, id), NewMessage(id, payload)], date))
    ensures other != randomID ==> IDFor(updates, other) != Some(id)
  {
    IDForIs(updates, randomID);
    IDForIs(updates, other);
    MessageForIs(updates, id);
    var found := IDFor(updates, randomID).value;
    assert MessageID(randomID, found) == MessageID(randomID, id);
    var message := MessageFor(updates, id).value;
    assert NewMessage(id, message) == NewMessage(id, payload);
    assert [MessageID(randomID, id)] + [NewMessage(id, payload)] == [MessageID(randomID, id), NewMessage(id, payload)];
    if IDFor(updates, other) == Some(id) {
      assert MessageID(other, id) == MessageID(randomID, id);
    }
  }

  // ----- Sending -----

  /** A Matrix message that is to become one message of a Telegram album. */
  datatype Item = Item(media: Media, randomID: int, message: string,
                       updates: Option<Response>, err: Option<ItemError>) {

    predicate Untouched() { updates.None? && err.None? }

    /** Exactly one of the updates and the error is set. */
    predicate Settled() { updates.Some? <==> err.None? }

    predicate CouldNotPrepare() { err == Some(PrepareFailed) }

    function AsMedia(): SingleMedia { SingleMedia(media, randomID, message) }
  }

  /** How Telegram answers a call, by the number of calls before it and by what was asked. */
  datatype Telegram = Telegram(onUpload: (nat, Media) -> UploadReply, onSend: (nat, seq<SingleMedia>) -> SendReply)

  /** The three requests that sending makes, with a record of them. */
  class AlbumApi {
    const telegram: Telegram
    var calls: seq<Call>

    constructor (telegram: Telegram)
      ensures this.telegram == telegram && calls == []
    {
      this.telegram, calls := telegram, [];
    }

    method Upload(media: Media) returns (reply: UploadReply)
      modifies this
      ensures calls == old(calls) + [UploadMedia(media)] && reply == telegram.onUpload(|old(calls)|, media)
    {
      reply := telegram.onUpload(|calls|, media);
      calls := calls + [UploadMedia(media)];
    }

    method SendOne(item: SingleMedia) returns (reply: SendReply)
      modifies this
      ensures calls == old(calls) + [SendMedia(item)] && reply == telegram.onSend(|old(calls)|, [item])
    {
      reply := telegram.onSend(|calls|, [item]);
      calls := calls + [SendMedia(item)];
    }

    method SendMulti(items: seq<SingleMedia>) returns (reply: SendReply)
      modifies this
      ensures calls == old(calls) + [SendMultiMedia(items)] && reply == telegram.onSend(|old(calls)|, items)
    {
      reply := telegram.onSend(|calls|, items);
      calls := calls + [SendMultiMedia(items)];
    }
  }

  // ----- What sending does, as functions -----

  function UploadItem(item: Item, reply: UploadReply): Item {
    if reply.Stored? then item.(media := Saved(reply.id, HasSpoiler(item.media)))
    else item.(err := Some(PrepareFailed))
  }

  /** The items after those from `lo` up to `hi` were uploaded, the first of them in call number `first`. */
  function UploadedItems(items: seq<Item>, lo: nat, hi: nat, first: nat, t: Telegram): seq<Item> {
    seq(|items|, j requires 0 <= j < |items| =>
      if lo <= j < hi then UploadItem(items[j], t.onUpload(first + (j - lo), items[j].media)) else items[j])
  }

  function UploadCalls(items: seq<Item>, lo: nat, hi: nat): seq<Call>
    requires lo <= hi <= |items|
  {
    seq(hi - lo, k requires 0 <= k < hi - lo => UploadMedia(items[lo + k].media))
  }

  predicate Within(album: seq<nat>, lo: nat, hi: nat) {
    forall k :: 0 <= k < |album| ==> lo <= album[k] < hi
  }

  /** The indexes from `lo` up to `hi` of the items whose upload Telegram kept, the first of them uploaded
      in call number `first`. */
  function StoredAt(items: seq<Item>, lo: nat, hi: nat, first: nat, t: Telegram): (at: seq<nat>)
    requires lo <= hi <= |items|
    ensures Within(at, lo, hi)
  {
    if lo == hi then []
    else
      StoredAt(items, lo, hi - 1, first, t)
      + if t.onUpload(first + (hi - 1 - lo), items[hi - 1].media).Stored? then [hi - 1] else []
  }

  /** The items at the given indexes, as they are sent. */
  function MediaAt(items: seq<Item>, album: seq<nat>): seq<SingleMedia>
    requires Within(album, 0, |items|)
  {
    seq(|album|, k requires 0 <= k < |album| && album[k] < |items| => items[album[k]].AsMedia())
  }

  function SendCall(media: seq<SingleMedia>): seq<Call> {
    if |media| == 0 then [] else if |media| == 1 then [SendMedia(media[0])] else [SendMultiMedia(media)]
  }

  /** What the reply leaves on an item: a message of its own gets the whole response, an item of an album
      what the response says about its random ID. */
  function Settle(item: Item, single: bool, reply: SendReply): Item {
    match reply
    case SendError(code) => item.(err := Some(SendFailed(code)))
    case Accepted(response) =>
      if single then item.(updates := Some(response))
      else if response.UnknownResponse? then item.(err := Some(UnknownUpdates))
      else
        var own := Split(response.list, response.date, item.randomID);
        if own.None? then item.(err := Some(NoMessageID)) else item.(updates := own)
  }

  function SettledItems(items: seq<Item>, album: seq<nat>, single: bool, reply: SendReply): seq<Item> {
    seq(|items|, j requires 0 <= j < |items| => if j in album then Settle(items[j], single, reply) else items[j])
  }

  /** The items, and what was asked of Telegram so far. */
  datatype World = World(items: seq<Item>, calls: seq<Call>)

  /** Only the items of an album are uploaded first. */
  function AfterUploads(w: World, lo: nat, hi: nat, t: Telegram): (w': World)
    requires lo < hi <= |w.items|
    ensures |w'.items| == |w.items|
  {
    if hi - lo == 1 then w
    else World(UploadedItems(w.items, lo, hi, |w.calls|, t), w.calls + UploadCalls(w.items, lo, hi))
  }

  function LeftToSend(w: World, lo: nat, hi: nat, t: Telegram): (at: seq<nat>)
    requires lo < hi <= |w.items|
    ensures Within(at, lo, hi)
  {
    if hi - lo == 1 then [lo] else StoredAt(w.items, lo, hi, |w.calls|, t)
  }

  function AfterSend(w: World, album: seq<nat>, t: Telegram): (w': World)
    requires Within(album, 0, |w.items|)
    ensures |w'.items| == |w.items|
  {
    if album == [] then w
    else
      var media := MediaAt(w.items, album);
      World(SettledItems(w.items, album, |album| == 1, t.onSend(|w.calls|, media)), w.calls + SendCall(media))
  }

  function AfterGroup(w: World, lo: nat, hi: nat, t: Telegram): (w': World)
    requires lo < hi <= |w.items|
    ensures |w'.items| == |w.items|
  {
    AfterSend(AfterUploads(w, lo, hi, t), LeftToSend(w, lo, hi, t), t)
  }

  /** The groups are consecutive slices of the items. */
  predicate AreSlices(groups: seq<Group>, n: nat) {
    AllNonEmpty(groups) && forall g :: 0 <= g < |groups| ==> IsSlice(groups, g, n)
  }

  predicate IsSlice(groups: seq<Group>, g: nat, n: nat)
    requires g < |groups|
  {
    SliceStart(groups, g) + |groups[g]| <= n &&
    forall k :: 0 <= k < |groups[g]| ==> groups[g][k] == SliceStart(groups, g) + k
  }

  function SliceStart(groups: seq<Group>, g: nat): nat
    requires g <= |groups|
  {
    if g == 0 then 0 else SliceStart(groups, g - 1) + |groups[g - 1]|
  }

  function AfterGroups(w: World, groups: seq<Group>, g: nat, t: Telegram): (w': World)
    requires g <= |groups| && SliceStart(groups, g) <= |w.items| && AllNonEmpty(groups)
    ensures |w'.items| == |w.items|
  {
    if g == 0 then w
    else AfterGroup(AfterGroups(w, groups, g - 1, t), SliceStart(groups, g - 1), SliceStart(groups, g), t)
  }

  predicate AllNonEmpty(groups: seq<Group>) {
    forall g :: 0 <= g < |groups| ==> |groups[g]| > 0
  }

  // ----- Sending itself -----

  lemma UploadStep(items: seq<Item>, lo: nat, i: nat, first: nat, t: Telegram)
    requires lo <= i < |items|
    ensures var reply := t.onUpload(first + (i - lo), items[i].media);
            var now := UploadedItems(items, lo, i, first, t);
            var next := UploadedItems(items, lo, i + 1, first, t);
            && now[i] == items[i] && next == now[i := UploadItem(items[i], reply)]
            && UploadCalls(items, lo, i + 1) == UploadCalls(items, lo, i) + [UploadMedia(items[i].media)]
            && StoredAt(items, lo, i + 1, first, t) == StoredAt(items, lo, i, first, t) + (if reply.Stored? then [i] else [])
  {
  }

  /** No index twice. */
  predicate Distinct(album: seq<nat>) {
    forall k, l :: 0 <= k < l < |album| ==> album[k] != album[l]
  }

  lemma {:induction false} StoredDistinct(items: seq<Item>, lo: nat, hi: nat, first: nat, t: Telegram)
    requires lo <= hi <= |items|
    ensures Distinct(StoredAt(items, lo, hi, first, t))
    decreases hi
  {
    if lo < hi {
      StoredDistinct(items, lo, hi - 1, first, t);
    }
  }

  /** The body of the loop: one item. */
  method SaveMedia(api: AlbumApi, items: array<Item>, i: nat) returns (kept: bool)
    requires i < items.Length
    modifies api, items
    ensures var item := old(items[i]);
            var reply := api.telegram.onUpload(|old(api.calls)|, item.media);
            && items[..] == old(items[..])[i := UploadItem(item, reply)] && kept == reply.Stored?
            && api.calls == old(api.calls) + [UploadMedia(item.media)]
  {
    var item := items[i];
    var reply := api.Upload(item.media);
    kept := reply.Stored?;
    if kept {
      item := item.(media := Saved(reply.id, HasSpoiler(item.media)));
    } else {
      item := item.(err := Some(PrepareFailed));
    }
    items[i] := item;
  }

  /** Uploads the items from `lo` up to `hi` one by one, and returns the indexes of those that can be sent. */
  method SaveAlbumMedia(api: AlbumApi, items: array<Item>, lo: nat, hi: nat) returns (saved: seq<nat>)
    requires lo <= hi <= items.Length
    modifies api, items
    ensures items[..] == UploadedItems(old(items[..]), lo, hi, |old(api.calls)|, api.telegram)
    ensures api.calls == old(api.calls) + UploadCalls(old(items[..]), lo, hi)
    ensures saved == StoredAt(old(items[..]), lo, hi, |old(api.calls)|, api.telegram)
  {
    ghost var before, first, t := items[..], |api.calls|, api.telegram;
    saved := [];
    var i := lo;
    while i < hi
      invariant lo <= i <= hi && saved == StoredAt(before, lo, i, first, t)
      invariant items[..] == UploadedItems(before, lo, i, first, t)
      invariant api.calls == old(api.calls) + UploadCalls(before, lo, i)
    {
      UploadStep(before, lo, i, first, t);
      assert items[i] == items[..][i] == before[i] && |api.calls| == first + (i - lo);
      var kept := SaveMedia(api, items, i);
      assert items[..] == UploadedItems(before, lo, i + 1, first, t);
      if kept {
        saved := saved + [i];
      }
      i := i + 1;
    }
  }

  method MakeMultiMedia(items: array<Item>, album: seq<nat>) returns (multiMedia: seq<SingleMedia>)
    requires Within(album, 0, items.Length)
    ensures multiMedia == MediaAt(items[..], album)
  {
    multiMedia := [];
    var i := 0;
    while i < |album|
      invariant 0 <= i <= |album| && |multiMedia| == i
      invariant forall k :: 0 <= k < i ==> multiMedia[k] == items[album[k]].AsMedia()
    {
      multiMedia := multiMedia + [items[album[i]].AsMedia()];
      i := i + 1;
    }
  }

  lemma SettleStep(items: seq<Item>, album: seq<nat>, k: nat, reply: SendReply)
    requires Within(album, 0, |items|) && Distinct(album) && k < |album|
    ensures var now := SettledItems(items, album[..k], false, reply);
            var at := album[k];
            && now[at] == items[at]
            && SettledItems(items, album[..k + 1], false, reply) == now[at := Settle(items[at], false, reply)]
  {
    assert album[..k + 1] == album[..k] + [album[k]];
    assert album[k] !in album[..k];
  }

  /** Sends the items at the given indexes as one album, and gives each what came back for it. */
  method SendOneAlbum(api: AlbumApi, items: array<Item>, album: seq<nat>)
    requires Within(album, 0, items.Length) && Distinct(album) && |album| >= 2
    modifies api, items
    ensures World(items[..], api.calls) == AfterSend(World(old(items[..]), old(api.calls)), album, api.telegram)
  {
    ghost var before := items[..];
    var multiMedia := MakeMultiMedia(items, album);
    var reply := api.SendMulti(multiMedia);
    var split: Option<seq<Option<Response>>> := None;
    if reply.Accepted? {
      var randomIDs := seq(|multiMedia|, k requires 0 <= k < |multiMedia| => multiMedia[k].randomID);
      split := SplitAlbumUpdates(reply.response, randomIDs);
    }
    ghost var calls := api.calls;
    var k := 0;
    assert SettledItems(before, album[..0], false, reply) == before;
    while k < |album|
      invariant 0 <= k <= |album| && api.calls == calls
      invariant items[..] == SettledItems(before, album[..k], false, reply)
    {
      SettleStep(before, album, k, reply);
      assert items[album[k]] == items[..][album[k]] == before[album[k]];
      var item := items[album[k]];
      if reply.SendError? {
        item := item.(err := Some(SendFailed(reply.code)));
      } else if split.None? {
        item := item.(err := Some(UnknownUpdates));
      } else if split.value[k].None? {
        item := item.(err := Some(NoMessageID));
      } else {
        item := item.(updates := split.value[k]);
      }
      assert item == Settle(before[album[k]], false, reply);
      ghost var now := items[..];
      items[album[k]] := item;
      assert items[..] == now[album[k] := item];
      k := k + 1;
    }
    assert album[..k] == album;
  }

  /** What is left of a group: nothing, one message, or one album. */
  method SendPrepared(api: AlbumApi, items: array<Item>, album: seq<nat>)
    requires Within(album, 0, items.Length) && Distinct(album)
    modifies api, items
    ensures World(items[..], api.calls) == AfterSend(World(old(items[..]), old(api.calls)), album, api.telegram)
  {
    if |album| == 1 {
      ghost var before := items[..];
      var at := album[0];
      var item := items[at];
      assert MediaAt(before, album) == [item.AsMedia()];
      var reply := api.SendOne(item.AsMedia());
      if reply.Accepted? {
        item := item.(updates := Some(reply.response));
      } else {
        item := item.(err := Some(SendFailed(reply.code)));
      }
      items[at] := item;
      assert items[..] == SettledItems(before, album, true, reply);
    } else if |album| > 1 {
      SendOneAlbum(api, items, album);
    }
  }

  /** One planned group, the items from `lo` up to `hi`. */
  method SendGroup(api: AlbumApi, items: array<Item>, lo: nat, hi: nat)
    requires lo < hi <= items.Length
    modifies api, items
    ensures World(items[..], api.calls) == AfterGroup(World(old(items[..]), old(api.calls)), lo, hi, api.telegram)
  {
    ghost var w, t := World(items[..], api.calls), api.telegram;
    var album: seq<nat> := [lo];
    if hi - lo > 1 {
      album := SaveAlbumMedia(api, items, lo, hi);
      StoredDistinct(w.items, lo, hi, |w.calls|, t);
    }
    assert World(items[..], api.calls) == AfterUploads(w, lo, hi, t) && album == LeftToSend(w, lo, hi, t);
    SendPrepared(api, items, album);
  }

  /** The groups of a plan are consecutive slices. */
  lemma PlanIsSlices(kinds: seq<Kind>, groups: seq<Group>)
    requires IsPlan(kinds, groups, |kinds|)
    ensures AreSlices(groups, |kinds|) && SliceStart(groups, |groups|) == |kinds|
  {
    forall g | 0 <= g < |groups|
      ensures |groups[g]| > 0 && IsSlice(groups, g, |kinds|)
    {
      assert Sendable(kinds, groups[g]);
      GroupIsSlice(groups, |kinds|, g);
    }
    StartIsFlattened(groups, |groups|);
    assert groups[..|groups|] == groups;
  }

  lemma {:induction false} StartIsFlattened(groups: seq<Group>, g: nat)
    requires g <= |groups|
    ensures SliceStart(groups, g) == |Flatten(groups[..g])|
  {
    if g > 0 {
      StartIsFlattened(groups, g - 1);
      assert groups[..g][..g - 1] == groups[..g - 1];
    } else {
      assert groups[..0] == [];
    }
  }

  lemma GroupIsSlice(groups: seq<Group>, n: nat, g: nat)
    requires Flatten(groups) == UpTo(n) && g < |groups|
    ensures IsSlice(groups, g, n)
  {
    StartIsFlattened(groups, g);
    FlattenPrefix(groups, g + 1);
    var upTo := Flatten(groups[..g + 1]);
    assert groups[..g + 1][..g] == groups[..g];
    assert upTo == Flatten(groups[..g]) + groups[g];
    forall k | 0 <= k < |groups[g]|
      ensures groups[g][k] == SliceStart(groups, g) + k
    {
      assert groups[g][k] == upTo[|Flatten(groups[..g])| + k];
    }
  }

  lemma {:induction false} FlattenPrefix(groups: seq<Group>, g: nat)
    requires g <= |groups|
    ensures Flatten(groups[..g]) <= Flatten(groups)
    decreases |groups|
  {
    if g == |groups| {
      assert groups[..g] == groups;
    } else {
      var front := groups[..|groups| - 1];
      FlattenPrefix(front, g);
      assert front[..g] == groups[..g];
    }
  }

  function ItemKinds(items: seq<Item>): seq<Kind> {
    seq(|items|, i requires 0 <= i < |items| => KindOf(items[i].media))
  }

  /** In a plan only files that were just uploaded share an album, and only those of one kind. */
  lemma AlbumsShareKind(items: seq<Item>, groups: seq<Group>, g: nat, k: nat)
    requires IsPlan(ItemKinds(items), groups, |items|) && g < |groups| && k < |groups[g]| && |groups[g]| > 1
    ensures var first, other := groups[g][0], groups[g][k];
            && first < |items| && other < |items|
            && items[first].media.Uploaded? && items[other].media.Uploaded?
            && items[first].media.kind == items[other].media.kind != NoAlbum
  {
    assert Sendable(ItemKinds(items), groups[g]);
  }

  method KindsOf(items: array<Item>) returns (kinds: seq<Kind>)
    ensures kinds == ItemKinds(items[..])
  {
    kinds := [];
    var i := 0;
    while i < items.Length
      invariant 0 <= i <= items.Length && |kinds| == i
      invariant forall j :: 0 <= j < i ==> kinds[j] == KindOf(items[j].media)
    {
      kinds := kinds + [KindOf(items[i].media)];
      i := i + 1;
    }
  }

  /** Sends the items in as few albums as Telegram allows, one after the other. */
  method SendAlbumItems(api: AlbumApi, items: array<Item>) returns (ghost groups: seq<Group>)
    modifies api, items
    ensures IsPlan(ItemKinds(old(items[..])), groups, items.Length)
    ensures forall other :: IsPlan(ItemKinds(old(items[..])), other, items.Length) ==> |groups| <= |other|
    ensures AreSlices(groups, items.Length) && SliceStart(groups, |groups|) == items.Length
    ensures World(items[..], api.calls) == AfterGroups(World(old(items[..]), old(api.calls)), groups, |groups|, api.telegram)
  {
    var kinds := KindsOf(items);
    var plan := PlanAlbums(kinds);
    PlanIsSlices(kinds, plan);
    SendGroups(api, items, plan);
    groups := plan;
  }

  lemma NextGroup(groups: seq<Group>, g: nat, n: nat)
    requires AreSlices(groups, n) && g < |groups|
    ensures groups[g] != [] && groups[g][0] == SliceStart(groups, g)
    ensures SliceStart(groups, g) < SliceStart(groups, g) + |groups[g]| == SliceStart(groups, g + 1) <= n
  {
    assert IsSlice(groups, g, n);
  }

  method SendGroups(api: AlbumApi, items: array<Item>, groups: seq<Group>)
    requires AreSlices(groups, items.Length) && SliceStart(groups, |groups|) == items.Length
    modifies api, items
    ensures World(items[..], api.calls) == AfterGroups(World(old(items[..]), old(api.calls)), groups, |groups|, api.telegram)
  {
    ghost var w0, t := World(items[..], api.calls), api.telegram;
    var g := 0;
    while g < |groups|
      invariant 0 <= g <= |groups| && SliceStart(groups, g) <= items.Length
      invariant World(items[..], api.calls) == AfterGroups(w0, groups, g, t)
    {
      NextGroup(groups, g, items.Length);
      var lo, hi := groups[g][0], groups[g][0] + |groups[g]|;
      AfterNext(w0, groups, g, lo, hi, t);
      SendGroup(api, items, lo, hi);
      g := g + 1;
    }
  }

  lemma AfterNext(w: World, groups: seq<Group>, g: nat, lo: nat, hi: nat, t: Telegram)
    requires g < |groups| && SliceStart(groups, g + 1) <= |w.items| && AllNonEmpty(groups)
    requires lo == SliceStart(groups, g) && hi == SliceStart(groups, g + 1)
    ensures AfterGroups(w, groups, g + 1, t) == AfterGroup(AfterGroups(w, groups, g, t), lo, hi, t)
  {
  }

  lemma GroupKeepsOthers(w: World, lo: nat, hi: nat, t: Telegram)
    requires lo < hi <= |w.items|
    ensures forall i :: 0 <= i < |w.items| && !(lo <= i < hi) ==> AfterGroup(w, lo, hi, t).items[i] == w.items[i]
  {
  }

  // ----- What that means -----

  function SentBy(call: Call): seq<SingleMedia> {
    match call
    case UploadMedia(_) => []
    case SendMedia(item) => [item]
    case SendMultiMedia(items) => items
  }

  /** Everything sent, in order. */
  function SentMedia(calls: seq<Call>): seq<SingleMedia> {
    if calls == [] then [] else SentMedia(calls[..|calls| - 1]) + SentBy(calls[|calls| - 1])
  }

  /** The items before `hi` from `lo` on that could be prepared, as they are sent, in order. */
  function PreparedMedia(items: seq<Item>, lo: nat, hi: nat): seq<SingleMedia>
    requires lo <= hi <= |items|
  {
    if lo == hi then []
    else PreparedMedia(items, lo, hi - 1) + if items[hi - 1].CouldNotPrepare() then [] else [items[hi - 1].AsMedia()]
  }

  lemma {:induction false} SentMediaConcat(calls: seq<Call>, more: seq<Call>)
    ensures SentMedia(calls + more) == SentMedia(calls) + SentMedia(more)
  {
    if more == [] {
      assert calls + more == calls;
    } else {
      var front, last := more[..|more| - 1], more[|more| - 1];
      SentMediaConcat(calls, front);
      assert SentMedia(calls + more) == SentMedia(calls + front) + SentBy(last) by {
        assert calls + more == calls + front + [last];
        SentMediaPush(calls + front, last);
      }
      assert SentMedia(more) == SentMedia(front) + SentBy(last);
      MediaAssociative(SentMedia(calls), SentMedia(front), SentBy(last));
    }
  }

  lemma SentMediaPush(calls: seq<Call>, call: Call)
    ensures SentMedia(calls + [call]) == SentMedia(calls) + SentBy(call)
  {
    assert (calls + [call])[..|calls|] == calls;
  }

  lemma {:induction false} UploadsSendNothing(calls: seq<Call>)
    requires forall k :: 0 <= k < |calls| ==> calls[k].UploadMedia?
    ensures SentMedia(calls) == []
  {
    if calls != [] {
      UploadsSendNothing(calls[..|calls| - 1]);
    }
  }

  lemma SendCallSends(media: seq<SingleMedia>)
    ensures SentMedia(SendCall(media)) == media
  {
    if media != [] {
      var call := SendCall(media)[0];
      assert SendCall(media)[..0] == [] && SentMedia([]) == [];
      assert [] + SentBy(call) == media;
    }
  }

  lemma {:induction false} PreparedMediaSame(a: seq<Item>, b: seq<Item>, lo: nat, hi: nat)
    requires lo <= hi <= |a| == |b| && forall i :: lo <= i < hi ==>
               a[i].AsMedia() == b[i].AsMedia() && (a[i].CouldNotPrepare() <==> b[i].CouldNotPrepare())
    ensures PreparedMedia(a, lo, hi) == PreparedMedia(b, lo, hi)
    decreases hi
  {
    if lo < hi {
      PreparedMediaSame(a, b, lo, hi - 1);
    }
  }

  lemma {:induction false} PreparedMediaJoin(items: seq<Item>, lo: nat, mid: nat, hi: nat)
    requires lo <= mid <= hi <= |items|
    ensures PreparedMedia(items, lo, hi) == PreparedMedia(items, lo, mid) + PreparedMedia(items, mid, hi)
    decreases hi
  {
    if mid < hi {
      PreparedMediaJoin(items, lo, mid, hi - 1);
      var x, y := PreparedMedia(items, lo, mid), PreparedMedia(items, mid, hi - 1);
      var last := if items[hi - 1].CouldNotPrepare() then [] else [items[hi - 1].AsMedia()];
      assert x + y + last == x + (y + last);
    } else {
      var x := PreparedMedia(items, lo, mid);
      assert x + [] == x;
    }
  }

  predicate UntouchedFrom(items: seq<Item>, n: nat) {
    forall i :: n <= i < |items| ==> items[i].Untouched()
  }

  /** The uploads that were kept are those of the items that could be prepared. */
  lemma {:induction false} StoredMedia(items: seq<Item>, lo: nat, n: nat, hi: nat, first: nat, t: Telegram)
    requires lo <= n <= hi <= |items| && UntouchedFrom(items, lo)
    ensures var now := UploadedItems(items, lo, hi, first, t);
            MediaAt(now, StoredAt(items, lo, n, first, t)) == PreparedMedia(now, lo, n)
    decreases n
  {
    var now := UploadedItems(items, lo, hi, first, t);
    if lo < n {
      StoredMedia(items, lo, n - 1, hi, first, t);
      var front := StoredAt(items, lo, n - 1, first, t);
      assert items[n - 1].Untouched();
      if now[n - 1].CouldNotPrepare() {
        assert StoredAt(items, lo, n, first, t) == front;
        assert PreparedMedia(now, lo, n) == PreparedMedia(now, lo, n - 1);
      } else {
        assert StoredAt(items, lo, n, first, t) == front + [n - 1];
        MediaAtPush(now, front, n - 1);
      }
    }
  }

  lemma MediaAtPush(items: seq<Item>, album: seq<nat>, x: nat)
    requires x < |items| && Within(album, 0, |items|)
    ensures MediaAt(items, album + [x]) == MediaAt(items, album) + [items[x].AsMedia()]
  {
  }

  lemma {:induction false} StoredMembers(items: seq<Item>, lo: nat, hi: nat, first: nat, t: Telegram, i: nat)
    requires lo <= i < hi <= |items|
    ensures i in StoredAt(items, lo, hi, first, t) <==> t.onUpload(first + (i - lo), items[i].media).Stored?
    decreases hi
  {
    if i < hi - 1 {
      StoredMembers(items, lo, hi - 1, first, t, i);
    }
  }

  /** The last entry of the answer that gives a random ID its message ID. */
  predicate LastID(updates: seq<Update>, i: int, randomID: int) {
    && 0 <= i < |updates| && updates[i].MessageID? && updates[i].randomID == randomID
    && forall j :: i < j < |updates| && updates[j].MessageID? ==> updates[j].randomID != randomID
  }

  /** The last message in the answer with an ID. */
  predicate LastMessage(updates: seq<Update>, i: int, id: int) {
    && 0 <= i < |updates| && updates[i].NewMessage? && updates[i].id == id
    && forall j :: i < j < |updates| && updates[j].NewMessage? ==> updates[j].id != id
  }

  /** `own` is the ID that the answer gives for the random ID, with the message of that ID, if there is one. */
  ghost predicate Carries(updates: seq<Update>, date: int, randomID: int, id: int, own: Response) {
    if exists m :: LastMessage(updates, m, id)
    then exists m :: LastMessage(updates, m, id)
                     && own == Updates([MessageID(randomID, id), NewMessage(id, updates[m].payload)], date)
    else own == Updates([MessageID(randomID, id)], date)
  }

  /** The item's own part of an album's answer. */
  ghost predicate IsOwnPart(updates: seq<Update>, date: int, randomID: int, own: Response) {
    exists i :: LastID(updates, i, randomID) && Carries(updates, date, randomID, updates[i].id, own)
  }

  predicate IsRefused(item: Item, err: ItemError) {
    item.updates.None? && item.err == Some(err)
  }

  predicate IsSent(item: Item, response: Response) {
    item.updates == Some(response) && item.err.None?
  }

  /** What an item is left with: the code of a refused request, the whole answer about a message of its own,
      its own part of the answer about an album, or that there is none. */
  ghost predicate LeftBy(item: Item, single: bool, reply: SendReply) {
    match reply
    case SendError(code) => IsRefused(item, SendFailed(code))
    case Accepted(response) =>
      if single then IsSent(item, response)
      else if response.UnknownResponse? then IsRefused(item, UnknownUpdates)
      else if exists i :: LastID(response.list, i, item.randomID)
      then item.updates.Some? && item.err.None? && IsOwnPart(response.list, response.date, item.randomID, item.updates.value)
      else IsRefused(item, NoMessageID)
  }

  lemma {:induction false} IDForIsLast(updates: seq<Update>, randomID: int)
    ensures IDFor(updates, randomID).Some? ==>
              exists i :: LastID(updates, i, randomID) && updates[i].id == IDFor(updates, randomID).value
    ensures (exists i :: LastID(updates, i, randomID)) ==> IDFor(updates, randomID).Some?
  {
    if updates != [] {
      var n := |updates| - 1;
      var front := updates[..n];
      IDForIsLast(front, randomID);
      if updates[n].MessageID? && updates[n].randomID == randomID {
        assert LastID(updates, n, randomID);
      } else {
        forall i | LastID(updates, i, randomID)
          ensures LastID(front, i, randomID)
        {
        }
        if IDFor(front, randomID).Some? {
          var i :| LastID(front, i, randomID) && front[i].id == IDFor(front, randomID).value;
          assert LastID(updates, i, randomID);
        }
      }
    }
  }

  lemma {:induction false} MessageForIsLast(updates: seq<Update>, id: int)
    ensures MessageFor(updates, id).Some? ==>
              exists i :: LastMessage(updates, i, id) && updates[i].payload == MessageFor(updates, id).value
    ensures (exists i :: LastMessage(updates, i, id)) ==> MessageFor(updates, id).Some?
  {
    if updates != [] {
      var n := |updates| - 1;
      var front := updates[..n];
      MessageForIsLast(front, id);
      if updates[n].NewMessage? && updates[n].id == id {
        assert LastMessage(updates, n, id);
      } else {
        forall i | LastMessage(updates, i, id)
          ensures LastMessage(front, i, id)
        {
        }
        if MessageFor(front, id).Some? {
          var i :| LastMessage(front, i, id) && front[i].payload == MessageFor(front, id).value;
          assert LastMessage(updates, i, id);
        }
      }
    }
  }

  lemma SplitIsOwnPart(updates: seq<Update>, date: int, randomID: int)
    ensures Split(updates, date, randomID).Some? <==> exists i :: LastID(updates, i, randomID)
    ensures Split(updates, date, randomID).Some? ==> IsOwnPart(updates, date, randomID, Split(updates, date, randomID).value)
  {
    IDForIsLast(updates, randomID);
    if IDFor(updates, randomID).Some? {
      var id := IDFor(updates, randomID).value;
      var i :| LastID(updates, i, randomID) && updates[i].id == id;
      SplitCarries(updates, date, randomID, id);
    }
  }

  lemma SplitCarries(updates: seq<Update>, date: int, randomID: int, id: int)
    requires IDFor(updates, randomID) == Some(id)
    ensures Carries(updates, date, randomID, id, Split(updates, date, randomID).value)
  {
    MessageForIsLast(updates, id);
    if MessageFor(updates, id).Some? {
      var m :| LastMessage(updates, m, id) && updates[m].payload == MessageFor(updates, id).value;
      assert [MessageID(randomID, id)] + [NewMessage(id, updates[m].payload)]
          == [MessageID(randomID, id), NewMessage(id, updates[m].payload)];
    } else {
      assert [MessageID(randomID, id)] + [] == [MessageID(randomID, id)];
    }
  }

  lemma SettleLeaves(item: Item, single: bool, reply: SendReply)
    requires item.Untouched()
    ensures LeftBy(Settle(item, single, reply), single, reply)
  {
    if reply.Accepted? && !single && reply.response.Updates? {
      SplitIsOwnPart(reply.response.list, reply.response.date, item.randomID);
    }
  }

  /** Call `k` sent the item, on its own or in an album, and the item has what came back for it. */
  ghost predicate AnsweredBy(item: Item, calls: seq<Call>, k: nat, t: Telegram)
    requires k < |calls|
  {
    match calls[k]
    case UploadMedia(_) => false
    case SendMedia(media) => media == item.AsMedia() && LeftBy(item, true, t.onSend(k, [media]))
    case SendMultiMedia(media) => item.AsMedia() in media && LeftBy(item, false, t.onSend(k, media))
  }

  ghost predicate Answered(item: Item, calls: seq<Call>, t: Telegram) {
    exists k :: 0 <= k < |calls| && AnsweredBy(item, calls, k, t)
  }

  /** Call `u` uploaded the media, and what Telegram kept of it is `kept`, with the spoiler it had. */
  predicate UploadedBy(media: Media, kept: Media, calls: seq<Call>, u: nat, t: Telegram)
    requires u < |calls|
  {
    var reply := t.onUpload(u, media);
    calls[u] == UploadMedia(media) && reply.Stored? && kept == Saved(reply.id, media.Uploaded? && media.spoiler)
  }

  /** The media are the item's own, or what an upload of them made of them. */
  ghost predicate OwnMedia(before: Item, now: Item, calls: seq<Call>, t: Telegram) {
    now.media == before.media || exists u :: 0 <= u < |calls| && UploadedBy(before.media, now.media, calls, u, t)
  }

  /** What an item should be left with. */
  ghost predicate WellSent(before: Item, now: Item, calls: seq<Call>, t: Telegram) {
    && now.Settled() && now.randomID == before.randomID && now.message == before.message
    && if now.CouldNotPrepare() then UploadRefused(before.media, calls, t)
       else Answered(now, calls, t) && OwnMedia(before, now, calls, t)
  }

  /** An upload of the media that Telegram did not keep. */
  ghost predicate UploadRefused(media: Media, calls: seq<Call>, t: Telegram) {
    exists u :: 0 <= u < |calls| && RefusedAt(media, calls, u, t)
  }

  predicate RefusedAt(media: Media, calls: seq<Call>, u: nat, t: Telegram)
    requires u < |calls|
  {
    calls[u] == UploadMedia(media) && !t.onUpload(u, media).Stored?
  }

  /** The first `n` items have been dealt with and the others are as before. */
  ghost predicate Done(w0: World, w: World, n: nat, t: Telegram) {
    && n <= |w.items| == |w0.items| && w0.calls <= w.calls
    && (forall i :: n <= i < |w.items| ==> w.items[i] == w0.items[i])
    && (forall i :: 0 <= i < n ==> WellSent(w0.items[i], w.items[i], w.calls, t))
    && SentMedia(w.calls) == SentMedia(w0.calls) + PreparedMedia(w.items, 0, n)
  }

  lemma SettleItem(item: Item, single: bool, reply: SendReply)
    requires item.Untouched()
    ensures var s := Settle(item, single, reply);
            && s.Settled() && !s.CouldNotPrepare() && s.AsMedia() == item.AsMedia() && LeftBy(s, single, reply)
  {
    SettleLeaves(item, single, reply);
  }

  /** An item left to send is untouched, and any other could not be prepared. */
  lemma ItemPrepared(w: World, lo: nat, hi: nat, t: Telegram, i: nat)
    requires lo <= i < hi <= |w.items| && w.items[i].Untouched()
    ensures var now := AfterUploads(w, lo, hi, t).items[i];
            && (if i in LeftToSend(w, lo, hi, t) then now.Untouched() else now.updates.None? && now.CouldNotPrepare())
            && now.randomID == w.items[i].randomID && now.message == w.items[i].message
  {
    if hi - lo > 1 {
      StoredMembers(w.items, lo, hi, |w.calls|, t, i);
    }
  }

  lemma StillRefused(media: Media, calls: seq<Call>, calls': seq<Call>, t: Telegram)
    requires UploadRefused(media, calls, t) && calls <= calls'
    ensures UploadRefused(media, calls', t)
  {
    var u :| 0 <= u < |calls| && RefusedAt(media, calls, u, t);
    assert RefusedAt(media, calls', u, t);
  }

  lemma StillOwn(before: Item, now: Item, calls: seq<Call>, calls': seq<Call>, t: Telegram)
    requires OwnMedia(before, now, calls, t) && calls <= calls'
    ensures OwnMedia(before, now, calls', t)
  {
    if now.media != before.media {
      var u :| 0 <= u < |calls| && UploadedBy(before.media, now.media, calls, u, t);
      assert UploadedBy(before.media, now.media, calls', u, t);
    }
  }

  lemma CallAt(calls: seq<Call>, more: seq<Call>, k: nat)
    requires k < |more|
    ensures |calls| + k < |calls + more| && (calls + more)[|calls| + k] == more[k]
  {
  }

  /** What the uploads leave of an item's media is its own; an item that is not left to send was refused. */
  lemma PreparedIsOwn(w: World, lo: nat, hi: nat, t: Telegram, i: nat)
    requires lo <= i < hi <= |w.items|
    ensures var p := AfterUploads(w, lo, hi, t);
            if i in LeftToSend(w, lo, hi, t) then OwnMedia(w.items[i], p.items[i], p.calls, t)
            else UploadRefused(w.items[i].media, p.calls, t)
  {
    if hi - lo > 1 {
      var calls, u := AfterUploads(w, lo, hi, t).calls, |w.calls| + (i - lo);
      var media := w.items[i].media;
      var reply := t.onUpload(u, media);
      assert u < |calls| && calls[u] == UploadMedia(media) by {
        CallAt(w.calls, UploadCalls(w.items, lo, hi), i - lo);
      }
      assert i in LeftToSend(w, lo, hi, t) <==> reply.Stored? by {
        StoredMembers(w.items, lo, hi, |w.calls|, t, i);
      }
      assert AfterUploads(w, lo, hi, t).items[i] == UploadItem(w.items[i], reply);
      assert if reply.Stored? then UploadedBy(media, UploadItem(w.items[i], reply).media, calls, u, t)
             else RefusedAt(media, calls, u, t);
    }
  }

  lemma ItemAnswered(p: World, at: seq<nat>, t: Telegram, i: nat)
    requires Within(at, 0, |p.items|) && i in at && i < |p.items| && p.items[i].Untouched()
    ensures var w' := AfterSend(p, at, t);
            && |p.calls| < |w'.calls| && AnsweredBy(w'.items[i], w'.calls, |p.calls|, t)
            && w'.items[i].Settled() && !w'.items[i].CouldNotPrepare() && w'.items[i].AsMedia() == p.items[i].AsMedia()
  {
    var media := MediaAt(p.items, at);
    var reply := t.onSend(|p.calls|, media);
    SettleItem(p.items[i], |at| == 1, reply);
    var l :| 0 <= l < |at| && at[l] == i;
    assert media[l] == p.items[i].AsMedia();
    assert |at| == 1 ==> media == [media[0]];
    assert AfterSend(p, at, t).calls[|p.calls|] == SendCall(media)[0];
  }

  lemma SendSends(p: World, at: seq<nat>, t: Telegram)
    requires Within(at, 0, |p.items|)
    ensures var w' := AfterSend(p, at, t);
            p.calls <= w'.calls && SentMedia(w'.calls) == SentMedia(p.calls) + MediaAt(p.items, at)
  {
    var media := MediaAt(p.items, at);
    SentMediaConcat(p.calls, SendCall(media));
    SendCallSends(media);
  }

  /** One item of a group. */
  lemma GroupItem(w: World, lo: nat, hi: nat, t: Telegram, i: nat)
    requires lo <= i < hi <= |w.items| && w.items[i].Untouched()
    ensures var p := AfterUploads(w, lo, hi, t);
            var w' := AfterGroup(w, lo, hi, t);
            && WellSent(w.items[i], w'.items[i], w'.calls, t)
            && w'.items[i].AsMedia() == p.items[i].AsMedia()
            && (w'.items[i].CouldNotPrepare() <==> p.items[i].CouldNotPrepare())
  {
    var p := AfterUploads(w, lo, hi, t);
    var at := LeftToSend(w, lo, hi, t);
    ItemPrepared(w, lo, hi, t, i);
    var w' := AfterGroup(w, lo, hi, t);
    PreparedIsOwn(w, lo, hi, t, i);
    SendSends(p, at, t);
    if i in at {
      ItemAnswered(p, at, t, i);
      StillOwn(w.items[i], p.items[i], p.calls, w'.calls, t);
    } else {
      assert w'.items[i] == p.items[i];
      StillRefused(w.items[i].media, p.calls, w'.calls, t);
    }
  }

  lemma LeftMedia(w: World, lo: nat, hi: nat, t: Telegram)
    requires lo < hi <= |w.items| && UntouchedFrom(w.items, lo)
    ensures var p := AfterUploads(w, lo, hi, t);
            MediaAt(p.items, LeftToSend(w, lo, hi, t)) == PreparedMedia(p.items, lo, hi)
  {
    if hi - lo > 1 {
      StoredMedia(w.items, lo, hi, hi, |w.calls|, t);
    } else {
      assert w.items[lo].Untouched() && PreparedMedia(w.items, lo, lo) == [];
    }
  }

  lemma UploadsSend(w: World, lo: nat, hi: nat, t: Telegram)
    requires lo < hi <= |w.items|
    ensures var p := AfterUploads(w, lo, hi, t);
            w.calls <= p.calls && SentMedia(p.calls) == SentMedia(w.calls)
  {
    SentMediaConcat(w.calls, UploadCalls(w.items, lo, hi));
    UploadsSendNothing(UploadCalls(w.items, lo, hi));
  }

  lemma GroupCalls(w: World, lo: nat, hi: nat, t: Telegram)
    requires lo < hi <= |w.items| && UntouchedFrom(w.items, lo)
    ensures var w' := AfterGroup(w, lo, hi, t);
            w.calls <= w'.calls && SentMedia(w'.calls) == SentMedia(w.calls) + PreparedMedia(w'.items, lo, hi)
  {
    var p := AfterUploads(w, lo, hi, t);
    var w' := AfterGroup(w, lo, hi, t);
    forall i | lo <= i < hi
      ensures w'.items[i].AsMedia() == p.items[i].AsMedia() && (w'.items[i].CouldNotPrepare() <==> p.items[i].CouldNotPrepare())
    {
      GroupItem(w, lo, hi, t, i);
    }
    PreparedMediaSame(w'.items, p.items, lo, hi);
    LeftMedia(w, lo, hi, t);
    UploadsSend(w, lo, hi, t);
    SendSends(p, LeftToSend(w, lo, hi, t), t);
  }

  lemma GroupSends(w0: World, w: World, lo: nat, hi: nat, t: Telegram)
    requires Done(w0, w, lo, t) && lo < hi <= |w.items| && UntouchedFrom(w.items, lo)
    ensures var w' := AfterGroup(w, lo, hi, t);
            w.calls <= w'.calls && SentMedia(w'.calls) == SentMedia(w0.calls) + PreparedMedia(w'.items, 0, hi)
  {
    var w' := AfterGroup(w, lo, hi, t);
    GroupCalls(w, lo, hi, t);
    GroupKeepsOthers(w, lo, hi, t);
    PreparedMediaSame(w.items, w'.items, 0, lo);
    PreparedMediaJoin(w'.items, 0, lo, hi);
    MediaAssociative(SentMedia(w0.calls), PreparedMedia(w.items, 0, lo), PreparedMedia(w'.items, lo, hi));
  }

  lemma MediaAssociative(x: seq<SingleMedia>, y: seq<SingleMedia>, z: seq<SingleMedia>)
    ensures x + y + z == x + (y + z)
  {
  }

  lemma StillSent(before: Item, now: Item, calls: seq<Call>, calls': seq<Call>, t: Telegram)
    requires WellSent(before, now, calls, t) && calls <= calls'
    ensures WellSent(before, now, calls', t)
  {
    if now.CouldNotPrepare() {
      StillRefused(before.media, calls, calls', t);
    } else {
      var k :| 0 <= k < |calls| && AnsweredBy(now, calls, k, t);
      assert AnsweredBy(now, calls', k, t);
      StillOwn(before, now, calls, calls', t);
    }
  }

  lemma GroupDone(w0: World, w: World, lo: nat, hi: nat, t: Telegram)
    requires Done(w0, w, lo, t) && lo < hi <= |w.items| && UntouchedFrom(w0.items, 0)
    ensures Done(w0, AfterGroup(w, lo, hi, t), hi, t)
  {
    var w' := AfterGroup(w, lo, hi, t);
    assert UntouchedFrom(w.items, lo);
    GroupKeepsOthers(w, lo, hi, t);
    GroupSends(w0, w, lo, hi, t);
    forall i | 0 <= i < hi
      ensures WellSent(w0.items[i], w'.items[i], w'.calls, t)
    {
      if i >= lo {
        GroupItem(w, lo, hi, t, i);
      } else {
        StillSent(w0.items[i], w.items[i], w.calls, w'.calls, t);
      }
    }
  }

  lemma {:induction false} GroupsDone(w: World, groups: seq<Group>, g: nat, t: Telegram)
    requires g <= |groups| && SliceStart(groups, g) <= |w.items| && AllNonEmpty(groups)
    requires UntouchedFrom(w.items, 0)
    ensures Done(w, AfterGroups(w, groups, g, t), SliceStart(groups, g), t)
  {
    if g == 0 {
      assert SentMedia(w.calls) + [] == SentMedia(w.calls);
    } else {
      GroupsDone(w, groups, g - 1, t);
      GroupDone(w, AfterGroups(w, groups, g - 1, t), SliceStart(groups, g - 1), SliceStart(groups, g), t);
    }
  }

  /** For any pattern of upload and send failures: every item has exactly one of updates and error, and
      unless it could not be prepared what came back for it in a call that sent it, with its own media or what
      an upload of them made of them. What was sent, in order, is the items that could be prepared, each once. */
  lemma AlbumIsSent(w: World, groups: seq<Group>, t: Telegram)
    requires SliceStart(groups, |groups|) == |w.items| && AllNonEmpty(groups)
    requires UntouchedFrom(w.items, 0)
    ensures var w' := AfterGroups(w, groups, |groups|, t);
            && (forall i :: 0 <= i < |w.items| ==> WellSent(w.items[i], w'.items[i], w'.calls, t))
            && SentMedia(w'.calls) == SentMedia(w.calls) + PreparedMedia(w'.items, 0, |w.items|)
  {
    GroupsDone(w, groups, |groups|, t);
  }

  /** How many of the calls send something. */
  function Sends(calls: seq<Call>): nat {
    if calls == [] then 0
    else Sends(calls[..|calls| - 1]) + if calls[|calls| - 1].UploadMedia? then 0 else 1
  }

  /** An album request carries at least two items and at most as many as Telegram takes. */
  predicate AlbumsFit(calls: seq<Call>, from: nat) {
    forall k :: from <= k < |calls| && calls[k].SendMultiMedia? ==> 2 <= |calls[k].items| <= 10
  }

  lemma {:induction false} SendsConcat(a: seq<Call>, b: seq<Call>)
    ensures Sends(a + b) == Sends(a) + Sends(b)
  {
    if b == [] {
      assert a + b == a;
    } else {
      assert (a + b)[..|a + b| - 1] == a + b[..|b| - 1];
      SendsConcat(a, b[..|b| - 1]);
    }
  }

  lemma {:induction false} UploadsAreNoSends(calls: seq<Call>)
    requires forall k :: 0 <= k < |calls| ==> calls[k].UploadMedia?
    ensures Sends(calls) == 0
  {
    if calls != [] {
      UploadsAreNoSends(calls[..|calls| - 1]);
    }
  }

  lemma {:induction false} StoredNoMore(items: seq<Item>, lo: nat, hi: nat, first: nat, t: Telegram)
    requires lo <= hi <= |items|
    ensures |StoredAt(items, lo, hi, first, t)| <= hi - lo
    decreases hi
  {
    if lo < hi {
      StoredNoMore(items, lo, hi - 1, first, t);
    }
  }

  lemma SendCallFits(media: seq<SingleMedia>)
    requires |media| <= MAX_ALBUM_SIZE
    ensures Sends(SendCall(media)) <= 1 && AlbumsFit(SendCall(media), 0)
  {
    if media != [] {
      assert SendCall(media)[..0] == [];
    }
  }

  /** More calls were made, at most `g` of them sending something, and no album that Telegram would not take. */
  predicate SendsAtMost(before: seq<Call>, after: seq<Call>, g: nat) {
    before <= after && Sends(after) <= Sends(before) + g && AlbumsFit(after, |before|)
  }

  lemma SendsAdd(a: seq<Call>, b: seq<Call>, c: seq<Call>, g: nat, h: nat)
    requires SendsAtMost(a, b, g) && SendsAtMost(b, c, h)
    ensures SendsAtMost(a, c, g + h)
  {
  }

  lemma CallsAdd(a: seq<Call>, b: seq<Call>, g: nat)
    requires Sends(b) <= g && AlbumsFit(b, 0)
    ensures SendsAtMost(a, a + b, g)
  {
    SendsConcat(a, b);
  }

  lemma UploadsFit(w: World, lo: nat, hi: nat, t: Telegram)
    requires lo < hi <= |w.items|
    ensures SendsAtMost(w.calls, AfterUploads(w, lo, hi, t).calls, 0)
  {
    if hi - lo > 1 {
      UploadsAreNoSends(UploadCalls(w.items, lo, hi));
      CallsAdd(w.calls, UploadCalls(w.items, lo, hi), 0);
    }
  }

  lemma SendFits(p: World, at: seq<nat>, t: Telegram)
    requires Within(at, 0, |p.items|) && |at| <= MAX_ALBUM_SIZE
    ensures SendsAtMost(p.calls, AfterSend(p, at, t).calls, 1)
  {
    SendCallFits(MediaAt(p.items, at));
    CallsAdd(p.calls, SendCall(MediaAt(p.items, at)), 1);
  }

  lemma GroupSendsOnce(w: World, lo: nat, hi: nat, t: Telegram)
    requires lo < hi <= |w.items| && hi - lo <= MAX_ALBUM_SIZE
    ensures SendsAtMost(w.calls, AfterGroup(w, lo, hi, t).calls, 1)
  {
    var p, at := AfterUploads(w, lo, hi, t), LeftToSend(w, lo, hi, t);
    UploadsFit(w, lo, hi, t);
    StoredNoMore(w.items, lo, hi, |w.calls|, t);
    SendFits(p, at, t);
    SendsAdd(w.calls, p.calls, AfterSend(p, at, t).calls, 0, 1);
  }

  /** One request for each group at most, and no album request that Telegram would not take. */
  lemma {:induction false} OneRequestAGroup(w: World, groups: seq<Group>, g: nat, t: Telegram)
    requires g <= |groups| && SliceStart(groups, g) <= |w.items| && AllNonEmpty(groups)
    requires forall k :: 0 <= k < |groups| ==> |groups[k]| <= MAX_ALBUM_SIZE
    ensures SendsAtMost(w.calls, AfterGroups(w, groups, g, t).calls, g)
  {
    if g > 0 {
      var before, lo, hi := AfterGroups(w, groups, g - 1, t), SliceStart(groups, g - 1), SliceStart(groups, g);
      OneRequestAGroup(w, groups, g - 1, t);
      GroupSendsOnce(before, lo, hi, t);
      SendsAdd(w.calls, before.calls, AfterGroup(before, lo, hi, t).calls, g - 1, 1);
    }
  }

  /** An accepted answer in which an item's random ID and message appear, and no ID is ambiguous. */
  predicate TellsOf(reply: SendReply, randomID: int, id: int, payload: int) {
    && reply.Accepted? && reply.response.Updates? && Unambiguous(reply.response.list)
    && MessageID(randomID, id) in reply.response.list && NewMessage(id, payload) in reply.response.list
  }

  lemma OwnPartIsOwn(updates: seq<Update>, date: int, randomID: int, id: int, payload: int, own: Response)
    requires Unambiguous(updates) && MessageID(randomID, id) in updates && NewMessage(id, payload) in updates
    requires IsOwnPart(updates, date, randomID, own)
    ensures own == Updates([MessageID(randomID, id), NewMessage(id, payload)], date)
  {
    var i :| LastID(updates, i, randomID) && Carries(updates, date, randomID, updates[i].id, own);
    assert updates[i] == MessageID(randomID, id) by {
      assert updates[i] in updates;
    }
    MessageForIsLast(updates, id);
    MessageForIs(updates, id);
    var m :| LastMessage(updates, m, id) && own == Updates([MessageID(randomID, id), NewMessage(id, updates[m].payload)], date);
    assert updates[m] in updates;
  }

  lemma HasLastID(updates: seq<Update>, randomID: int, id: int)
    requires MessageID(randomID, id) in updates
    ensures exists i :: LastID(updates, i, randomID)
  {
    IDForIs(updates, randomID);
    IDForIsLast(updates, randomID);
  }

  /** An item that an album request sent has its own message, if the answer tells of it. */
  lemma AnsweredOwn(item: Item, calls: seq<Call>, k: nat, t: Telegram, id: int, payload: int)
    requires k < |calls| && AnsweredBy(item, calls, k, t) && calls[k].SendMultiMedia?
    requires TellsOf(t.onSend(k, calls[k].items), item.randomID, id, payload)
    ensures var date := t.onSend(k, calls[k].items).response.date;
            item.updates == Some(Updates([MessageID(item.randomID, id), NewMessage(id, payload)], date)) && item.err.None?
  {
    var response := t.onSend(k, calls[k].items).response;
    HasLastID(response.list, item.randomID, id);
    OwnPartIsOwn(response.list, response.date, item.randomID, id, payload, item.updates.value);
  }

  /** So after everything was sent each item that could be prepared was answered in some call, and if that
      was an album's whose answer tells of it, it is left with exactly its own message ID and message. */
  lemma AlbumGivesOwn(w: World, groups: seq<Group>, t: Telegram, i: nat, id: int, payload: int)
    requires SliceStart(groups, |groups|) == |w.items| && AllNonEmpty(groups)
    requires UntouchedFrom(w.items, 0) && i < |w.items|
    ensures var w' := AfterGroups(w, groups, |groups|, t);
            var item := w'.items[i];
            item.CouldNotPrepare() ||
            exists k :: 0 <= k < |w'.calls| && AnsweredBy(item, w'.calls, k, t) &&
              (w'.calls[k].SendMultiMedia? && TellsOf(t.onSend(k, w'.calls[k].items), item.randomID, id, payload) ==>
                 item.updates == Some(Updates([MessageID(item.randomID, id), NewMessage(id, payload)],
                                              t.onSend(k, w'.calls[k].items).response.date)))
  {
    AlbumIsSent(w, groups, t);
    var w' := AfterGroups(w, groups, |groups|, t);
    var item := w'.items[i];
    if !item.CouldNotPrepare() {
      assert WellSent(w.items[i], item, w'.calls, t);
      var k :| 0 <= k < |w'.calls| && AnsweredBy(item, w'.calls, k, t);
      if w'.calls[k].SendMultiMedia? && TellsOf(t.onSend(k, w'.calls[k].items), item.randomID, id, payload) {
        AnsweredOwn(item, w'.calls, k, t, id, payload);
      }
    }
  }
}
