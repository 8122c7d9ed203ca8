/** Fetching message history in batches, newest first: offsets, cursors, trimming and filtering. */
module Backfill {
  import opened Basics
  import opened Albums

  const CHUNK_LIMIT: int := 100

  /** The history request: messages older than `offsetID` (0 for no bound) and newer than `minID`, at
      most `limit` of them, newest first; None when the request fails. */
  type Server = (int, int, nat) -> Option<seq<Message>>

  /** `anchor` is the ID of the anchor message and `cursor` the parsed cursor; 0 and None without one. An
      anchor whose ID cannot be parsed counts as none, but leaves duplicates to be looked for. */
  datatype Params = Params(forward: bool, anchor: int, unparsed: bool, cursor: Option<int>, count: int, readUpTo: int)

  datatype Converted = Converted(message: Message, albumIndex: Option<int>)

  datatype Response = Response(messages: seq<Converted>, cursor: Option<int>, hasMore: bool, markRead: bool,
                               aggressiveDedup: bool)

  /** Where a batch starts: the cursor moves an import on when the anchor stays behind. */
  function StartOffset(p: Params): int {
    if p.forward then 0
    else if p.cursor.Some? && (p.anchor == 0 || p.cursor.value < p.anchor) then p.cursor.value
    else p.anchor
  }

  function MinID(p: Params): int {
    if p.forward then p.anchor else 0
  }

  function Fetch(server: Server, forward: bool, minID: int, offsetID: int, limit: int, messages: seq<Message>)
    : Option<seq<Message>>
    decreases limit
  {
    if limit <= 0 then Some(messages)
    else
      match server(offsetID, minID, Min(limit, CHUNK_LIMIT))
      case None => None
      case Some(got) =>
        if |got| < CHUNK_LIMIT || !forward then Some(messages + got)
        else Fetch(server, forward, minID, got[|got| - 1].id, limit - |got|, messages + got)
  }

  /** The messages a batch looks at. */
  function Looked(server: Server, p: Params): Option<seq<Message>> {
    match Fetch(server, p.forward, MinID(p), StartOffset(p), p.count, [])
    case None => None
    case Some(messages) => Some(if !p.forward && |messages| >= p.count then Trimmed(messages) else messages)
  }

  /** Which of the messages looked at are bridged, newest first. */
  function Bridged(messages: seq<Message>, p: Params, convertible: Message -> bool): seq<Message> {
    if messages == [] then []
    else
      var m := messages[0];
      if p.forward && m.id <= MinID(p) then []
      else if !p.forward && StartOffset(p) > 0 && m.id >= StartOffset(p) then Bridged(messages[1..], p, convertible)
      else (if m.Ordinary? && convertible(m) then [m] else []) + Bridged(messages[1..], p, convertible)
  }

  function Reverse<T>(s: seq<T>): seq<T> {
    if s == [] then [] else Reverse(s[1..]) + [s[0]]
  }

  ghost predicate ConvertedFrom(c: Converted, m: Message, lookup: int -> Option<int>) {
    && c.message == m
    && (GroupOf(m) == 0 ==> c.albumIndex.None?)
    && (GroupOf(m) != 0 ==>
          c.albumIndex.Some? && IsBase(m.id, GroupOf(m), lookup, m.id - MAX_ALBUM_SIZE + 1, m.id - c.albumIndex.value))
  }

  /** Message by message, in the same order. */
  ghost predicate AllConverted(cs: seq<Converted>, ms: seq<Message>, lookup: int -> Option<int>) {
    |cs| == |ms| && forall i :: 0 <= i < |ms| ==> ConvertedFrom(cs[i], ms[i], lookup)
  }

  /** Converting a message or its reactions may fail, which aborts the fetch. */
  predicate AnyFails(messages: seq<Message>, fails: Message -> bool) {
    exists i :: 0 <= i < |messages| && fails(messages[i])
  }

  method ConvertAll(looked: seq<Message>, p: Params, convertible: Message -> bool, fails: Message -> bool,
                    lookup: int -> Option<int>)
    returns (result: Option<seq<Converted>>)
    ensures var bridged := Bridged(looked, p, convertible);
            && (result.None? <==> AnyFails(bridged, fails))
            && (result.Some? ==> AllConverted(result.value, bridged, lookup))
  {
    var converted: seq<Converted> := [];
    ghost var done: seq<Message> := [];
    var i := 0;
    assert looked[0..] == looked;
    while i < |looked|
      invariant 0 <= i <= |looked|
      invariant done + Bridged(looked[i..], p, convertible) == Bridged(looked, p, convertible)
      invariant AllConverted(converted, done, lookup)
      invariant !AnyFails(done, fails)
    {
      assert looked[i..][1..] == looked[i + 1..];
      ghost var rest := Bridged(looked[i + 1..], p, convertible);
      var m := looked[i];
      i := i + 1;
      if p.forward && m.id <= MinID(p) {
        assert done + [] == done;
        return Some(converted);
      } else if !p.forward && StartOffset(p) > 0 && m.id >= StartOffset(p) {
        continue;
      }
      if !m.Ordinary? || !convertible(m) {
        assert [] + rest == rest;
        continue;
      }
      if fails(m) {
        assert Bridged(looked, p, convertible) == done + ([m] + rest) && (done + ([m] + rest))[|done|] == m;
        return None;
      }
      var index := None;
      if m.grouped != 0 {
        var k := TelegramAlbumIndex(m.id, m.grouped, lookup);
        index := Some(k);
      }
      assert done + ([m] + rest) == done + [m] + rest;
      done := done + [m];
      converted := converted + [Converted(m, index)];
    }
    assert done + [] == done;
    return Some(converted);
  }

  method FetchMessages(server: Server, p: Params, convertible: Message -> bool, fails: Message -> bool,
                       db: int -> Option<int>)
    returns (response: Option<Response>)
    ensures response.None? <==>
              Looked(server, p).None? || AnyFails(Bridged(Looked(server, p).value, p, convertible), fails)
    ensures response.Some? ==>
              var looked := Looked(server, p).value;
              && AllConverted(response.value.messages, Reverse(Bridged(looked, p, convertible)),
                              LookupIn(BatchOf(looked), db))
              && response.value.cursor == (if looked != [] && !p.forward then Some(looked[|looked| - 1].id) else None)
              && response.value.hasMore == (looked != [])
              && response.value.markRead == (p.forward && looked != [] && p.readUpTo == looked[0].id)
              && response.value.aggressiveDedup == p.unparsed
  {
    var fetched := FetchAll(server, p);
    if fetched.None? {
      return None;
    }
    var messages := fetched.value;
    if !p.forward && |messages| >= p.count {
      messages := TrimTrailingAlbum(messages);
    }
    var batch := WithAlbumBatch(messages);
    var markRead := p.forward && |messages| > 0 && p.readUpTo == messages[0].id;
    var cursor := if |messages| > 0 && !p.forward then Some(messages[|messages| - 1].id) else None;
    var converted := ConvertAll(messages, p, convertible, fails, LookupIn(batch, db));
    if converted.None? {
      return None;
    }
    var reversed := ReverseAll(converted.value);
    ReverseConverted(converted.value, reversed, Bridged(messages, p, convertible), LookupIn(batch, db));
    return Some(Response(reversed, cursor, |messages| > 0, markRead, p.unparsed));
  }

  /** The request loop of `FetchMessages`. */
  method FetchAll(server: Server, p: Params) returns (fetched: Option<seq<Message>>)
    ensures fetched == Fetch(server, p.forward, MinID(p), StartOffset(p), p.count, [])
  {
    var minID, offsetID := 0, 0;
    if p.forward {
      minID := p.anchor;
    } else {
      offsetID := p.anchor;
    }
    if !p.forward && p.cursor.Some? && (offsetID == 0 || p.cursor.value < offsetID) {
      offsetID := p.cursor.value;
    }
    var limit := p.count;
    var messages: seq<Message> := [];
    ghost var whole := Fetch(server, p.forward, MinID(p), StartOffset(p), p.count, []);
    while limit > 0
      invariant Fetch(server, p.forward, minID, offsetID, limit, messages) == whole
      decreases limit
    {
      var reply := server(offsetID, minID, Min(limit, CHUNK_LIMIT));
      if reply.None? {
        return None;
      }
      var newMessages := reply.value;
      messages := messages + newMessages;
      if |newMessages| < CHUNK_LIMIT || !p.forward {
        assert whole == Some(messages);
        return Some(messages);
      }
      limit := limit - |newMessages|;
      offsetID := newMessages[|newMessages| - 1].id;
    }
    return Some(messages);
  }

  lemma {:induction false} ReverseAt<T>(s: seq<T>)
    ensures |Reverse(s)| == |s| && forall i :: 0 <= i < |s| ==> Reverse(s)[i] == s[|s| - 1 - i]
  {
    if s != [] {
      ReverseAt(s[1..]);
    }
  }

  lemma ReverseConverted(cs: seq<Converted>, reversed: seq<Converted>, ms: seq<Message>, lookup: int -> Option<int>)
    requires AllConverted(cs, ms, lookup)
    requires |reversed| == |cs| && forall i :: 0 <= i < |cs| ==> reversed[i] == cs[|cs| - 1 - i]
    ensures AllConverted(reversed, Reverse(ms), lookup)
  {
    ReverseAt(ms);
    forall i | 0 <= i < |ms|
      ensures ConvertedFrom(reversed[i], Reverse(ms)[i], lookup)
    {
      assert ConvertedFrom(cs[|ms| - 1 - i], ms[|ms| - 1 - i], lookup);
    }
  }

  method ReverseAll<T>(s: seq<T>) returns (r: seq<T>)
    ensures |r| == |s| && forall i :: 0 <= i < |s| ==> r[i] == s[|s| - 1 - i]
  {
    r := [];
    var i := 0;
    while i < |s|
      invariant 0 <= i <= |s| && |r| == i
      invariant forall k :: 0 <= k < i ==> r[k] == s[|s| - 1 - k]
    {
      r := r + [s[|s| - 1 - i]];
      i := i + 1;
    }
  }

  // ----- A truthful server -----

  predicate SplitsAt(h: seq<Message>, x: int, n: nat) {
    n <= |h| && (forall i :: 0 <= i < n ==> h[i].id >= x) && (n < |h| ==> h[n].id < x)
  }

  lemma {:induction false} SomeSplit(h: seq<Message>, x: int)
    ensures exists n: nat :: SplitsAt(h, x, n)
  {
    if h == [] || h[0].id < x {
      assert SplitsAt(h, x, 0);
    } else {
      SomeSplit(h[1..], x);
      var n: nat :| SplitsAt(h[1..], x, n);
      assert SplitsAt(h, x, n + 1);
    }
  }

  lemma SplitUnique(h: seq<Message>, x: int, m: nat, n: nat)
    requires SplitsAt(h, x, m) && SplitsAt(h, x, n)
    ensures m == n
  {
  }

  /** How many messages at the front have an ID of at least `x`. */
  ghost function Newer(h: seq<Message>, x: int): (n: nat)
    ensures SplitsAt(h, x, n)
  {
    SomeSplit(h, x);
    var n: nat :| SplitsAt(h, x, n);
    n
  }

  /** Where the messages older than `offsetID` start; 0 is no bound. */
  ghost function StartAt(h: seq<Message>, offsetID: int): (n: nat)
    ensures n <= |h|
  {
    if offsetID <= 0 then 0 else Newer(h, offsetID)
  }

  /** The messages older than `offsetID` and newer than `minID`. */
  ghost function Window(h: seq<Message>, offsetID: int, minID: int): seq<Message> {
    h[StartAt(h, offsetID)..Max(StartAt(h, offsetID), Newer(h, minID + 1))]
  }

  function Take(s: seq<Message>, n: int): seq<Message> {
    if n <= 0 then [] else s[..Min(n, |s|)]
  }

  ghost function Serving(h: seq<Message>): Server {
    (offsetID, minID, limit) => Some(Take(Window(h, offsetID, minID), limit))
  }

  lemma StartsAfter(h: seq<Message>, i: nat)
    requires Descending(h) && i < |h|
    ensures StartAt(h, h[i].id) == i + 1
  {
    forall j | 0 <= j < i
      ensures h[j].id > h[i].id
    {
      assert Before(h, j, i);
    }
    if i + 1 < |h| {
      assert Before(h, i, i + 1);
    }
    assert SplitsAt(h, h[i].id, i + 1);
    SplitUnique(h, h[i].id, i + 1, Newer(h, h[i].id));
  }

  lemma SliceJoin(first: seq<Message>, h: seq<Message>, a: nat, b: nat, c: nat)
    requires a <= b <= c <= |h|
    ensures first + h[a..b] + h[b..c] == first + h[a..c]
  {
    assert h[a..b] + h[b..c] == h[a..c];
    assert first + h[a..b] + h[b..c] == first + (h[a..b] + h[b..c]);
  }

  /** Where a reply for at most `limit` messages ends. */
  ghost function EndAt(h: seq<Message>, offsetID: int, minID: int, limit: int): (n: nat)
    requires limit >= 0
    ensures StartAt(h, offsetID) <= n <= |h|
  {
    var start := StartAt(h, offsetID);
    Min(start + limit, Max(start, Newer(h, minID + 1)))
  }

  lemma ServedSlice(h: seq<Message>, offsetID: int, minID: int, limit: nat)
    ensures Serving(h)(offsetID, minID, limit) == Some(h[StartAt(h, offsetID)..EndAt(h, offsetID, minID, limit)])
  {
    var start, window := StartAt(h, offsetID), Window(h, offsetID, minID);
    assert Take(window, limit) == h[start..EndAt(h, offsetID, minID, limit)];
  }

  /** The newest of what is in the window, after `messages`. */
  ghost predicate HasFetched(result: Option<seq<Message>>, messages: seq<Message>, h: seq<Message>, minID: int, offsetID: int, limit: nat) {
    result == Some(messages + h[StartAt(h, offsetID)..EndAt(h, offsetID, minID, limit)])
  }

  /** After a full reply the rest follows right behind it. */
  lemma ForwardJoins(h: seq<Message>, minID: int, offsetID: int, limit: nat, messages: seq<Message>, got: seq<Message>,
                     result: Option<seq<Message>>)
    requires Descending(h) && limit >= CHUNK_LIMIT && |got| == CHUNK_LIMIT
    requires got == h[StartAt(h, offsetID)..EndAt(h, offsetID, minID, CHUNK_LIMIT)]
    requires HasFetched(result, messages + got, h, minID, got[|got| - 1].id, limit - CHUNK_LIMIT)
    ensures HasFetched(result, messages, h, minID, offsetID, limit)
  {
    var start, end := StartAt(h, offsetID), EndAt(h, offsetID, minID, CHUNK_LIMIT);
    assert got[|got| - 1] == h[end - 1];
    StartsAfter(h, end - 1);
    SliceJoin(messages, h, start, end, EndAt(h, offsetID, minID, limit));
  }

  /** And a reply that is not full, or nothing wanted, is the end. */
  lemma ForwardEnds(h: seq<Message>, minID: int, offsetID: int, limit: nat, messages: seq<Message>, got: seq<Message>)
    requires got == h[StartAt(h, offsetID)..EndAt(h, offsetID, minID, Min(limit, CHUNK_LIMIT))] && |got| < CHUNK_LIMIT
    ensures HasFetched(Some(messages + got), messages, h, minID, offsetID, limit)
  {
    assert EndAt(h, offsetID, minID, limit) == EndAt(h, offsetID, minID, Min(limit, CHUNK_LIMIT));
  }

  /** Forward: any number of chunks add up to the newest `limit` messages since the anchor. */
  lemma {:induction false} FetchForward(h: seq<Message>, minID: int, offsetID: int, limit: nat, messages: seq<Message>)
    requires Descending(h)
    ensures HasFetched(Fetch(Serving(h), true, minID, offsetID, limit, messages), messages, h, minID, offsetID, limit)
    decreases limit
  {
    var server, chunk := Serving(h), Min(limit, CHUNK_LIMIT);
    var got := h[StartAt(h, offsetID)..EndAt(h, offsetID, minID, chunk)];
    if limit == 0 {
      assert messages + got == messages;
      ForwardEnds(h, minID, offsetID, limit, messages, got);
    } else {
      assert server(offsetID, minID, chunk) == Some(got) by {
        ServedSlice(h, offsetID, minID, chunk);
      }
      FetchStep(server, true, minID, offsetID, limit, messages);
      if |got| == CHUNK_LIMIT {
        var last := got[|got| - 1].id;
        FetchForward(h, minID, last, limit - CHUNK_LIMIT, messages + got);
        ForwardJoins(h, minID, offsetID, limit, messages, got,
                     Fetch(server, true, minID, last, limit - CHUNK_LIMIT, messages + got));
      } else {
        ForwardEnds(h, minID, offsetID, limit, messages, got);
      }
    }
  }

  /** One request and its reply. */
  datatype Exchange = Exchange(offsetID: int, limit: int, reply: Option<seq<Message>>)

  /** What a fetch exchanges with the server: each request starts behind the reply before, for a hundred at most
      and no more than is still wanted. The last one fails, or gets less than a hundred, or is the only one. */
  function Exchanges(server: Server, forward: bool, minID: int, offsetID: int, limit: int): seq<Exchange>
    decreases limit
  {
    if limit <= 0 then []
    else
      var reply := server(offsetID, minID, Min(limit, CHUNK_LIMIT));
      [Exchange(offsetID, Min(limit, CHUNK_LIMIT), reply)] +
      if forward && reply.Some? && |reply.value| >= CHUNK_LIMIT
      then Exchanges(server, forward, minID, reply.value[|reply.value| - 1].id, limit - |reply.value|) else []
  }

  function Received(exchanges: seq<Exchange>): seq<Message> {
    if exchanges == [] then []
    else (if exchanges[0].reply.Some? then exchanges[0].reply.value else []) + Received(exchanges[1..])
  }

  predicate AnyFailed(exchanges: seq<Exchange>) {
    exchanges != [] && (exchanges[0].reply.None? || AnyFailed(exchanges[1..]))
  }

  lemma FirstExchange(first: Exchange, rest: seq<Exchange>)
    ensures Received([first] + rest) == (if first.reply.Some? then first.reply.value else []) + Received(rest)
    ensures AnyFailed([first] + rest) <==> first.reply.None? || AnyFailed(rest)
  {
    assert ([first] + rest)[1..] == rest;
  }

  lemma MessagesAssociative(a: seq<Message>, b: seq<Message>, c: seq<Message>)
    ensures a + b + c == a + (b + c)
  {
  }

  /** What one request makes of a fetch. */
  lemma FetchStep(server: Server, forward: bool, minID: int, offsetID: int, limit: int, messages: seq<Message>)
    requires limit > 0
    ensures var reply := server(offsetID, minID, Min(limit, CHUNK_LIMIT));
            var first := Exchange(offsetID, Min(limit, CHUNK_LIMIT), reply);
            if reply.Some? && forward && |reply.value| >= CHUNK_LIMIT then
              var last, left := reply.value[|reply.value| - 1].id, limit - |reply.value|;
              && Fetch(server, forward, minID, offsetID, limit, messages)
                 == Fetch(server, forward, minID, last, left, messages + reply.value)
              && Exchanges(server, forward, minID, offsetID, limit) == [first] + Exchanges(server, forward, minID, last, left)
            else
              && Fetch(server, forward, minID, offsetID, limit, messages)
                 == (if reply.None? then None else Some(messages + reply.value))
              && Exchanges(server, forward, minID, offsetID, limit) == [first]
  {
  }

  lemma ReceivedJoins(messages: seq<Message>, first: Exchange, rest: seq<Exchange>, result: Option<seq<Message>>)
    requires first.reply.Some?
    requires IsReceived(result, messages + first.reply.value, rest)
    ensures IsReceived(result, messages, [first] + rest)
  {
    FirstExchange(first, rest);
    MessagesAssociative(messages, first.reply.value, Received(rest));
  }

  /** A fetch is all that was received, in order, or nothing if a request failed. */
  predicate IsReceived(result: Option<seq<Message>>, messages: seq<Message>, exchanges: seq<Exchange>) {
    result == if AnyFailed(exchanges) then None else Some(messages + Received(exchanges))
  }

  lemma ReceivedSteps(messages: seq<Message>, first: Exchange, more: bool, rest: seq<Exchange>, after: Option<seq<Message>>,
                      result: Option<seq<Message>>, exchanges: seq<Exchange>)
    requires if more then first.reply.Some? && result == after && exchanges == [first] + rest
                          && IsReceived(after, messages + first.reply.value, rest)
             else result == (if first.reply.None? then None else Some(messages + first.reply.value)) && exchanges == [first]
    ensures IsReceived(result, messages, exchanges)
  {
    if more {
      ReceivedJoins(messages, first, rest, after);
    } else {
      OnlyReceived(first);
    }
  }

  /** For any server. */
  lemma {:induction false} FetchReceives(server: Server, forward: bool, minID: int, offsetID: int, limit: int, messages: seq<Message>)
    ensures IsReceived(Fetch(server, forward, minID, offsetID, limit, messages), messages,
                       Exchanges(server, forward, minID, offsetID, limit))
    decreases limit
  {
    if limit <= 0 {
      assert messages + [] == messages;
    } else {
      var reply := server(offsetID, minID, Min(limit, CHUNK_LIMIT));
      var first := Exchange(offsetID, Min(limit, CHUNK_LIMIT), reply);
      var more := reply.Some? && forward && |reply.value| >= CHUNK_LIMIT;
      var rest, after: Option<seq<Message>> := [], None;
      if more {
        var last, left := reply.value[|reply.value| - 1].id, limit - |reply.value|;
        FetchReceives(server, forward, minID, last, left, messages + reply.value);
        rest, after := Exchanges(server, forward, minID, last, left),
                       Fetch(server, forward, minID, last, left, messages + reply.value);
      }
      FetchStep(server, forward, minID, offsetID, limit, messages);
      ReceivedSteps(messages, first, more, rest, after, Fetch(server, forward, minID, offsetID, limit, messages),
                    Exchanges(server, forward, minID, offsetID, limit));
    }
  }

  lemma OnlyReceived(first: Exchange)
    ensures Received([first]) == if first.reply.Some? then first.reply.value else []
    ensures AnyFailed([first]) <==> first.reply.None?
  {
    assert [first][1..] == [];
    assert first.reply.Some? ==> first.reply.value + [] == first.reply.value;
  }

  /** Backwards a batch starts at the older of the anchor and the cursor, as far as there are any. */
  lemma StartsAtOlder(p: Params)
    requires !p.forward && p.anchor >= 0
    ensures p.cursor.None? ==> StartOffset(p) == p.anchor
    ensures p.cursor.Some? ==> StartOffset(p) == if p.anchor == 0 then p.cursor.value else Min(p.anchor, p.cursor.value)
  {
  }

  /** A forward fetch from a truthful server: the newest messages since the anchor, each once. */
  lemma ForwardFetchesNewest(h: seq<Message>, p: Params)
    requires Descending(h) && p.forward && p.count >= 0
    ensures Looked(Serving(h), p) == Some(h[..Min(p.count, Newer(h, p.anchor + 1))])
  {
    FetchForward(h, MinID(p), 0, p.count, []);
    var got := h[0..EndAt(h, 0, MinID(p), p.count)];
    assert [] + got == got;
  }

  // ----- A backwards batch -----

  function Page(older: seq<Message>, count: int): seq<Message> {
    var raw := Take(older, Min(count, CHUNK_LIMIT));
    if |raw| >= count then Trimmed(raw) else raw
  }

  lemma LookedIsPage(h: seq<Message>, p: Params)
    requires Descending(h) && !p.forward
    ensures Looked(Serving(h), p) == Some(Page(h[StartAt(h, StartOffset(p))..], p.count))
  {
    assert Newer(h, 1) == |h|;
    assert Window(h, StartOffset(p), 0) == h[StartAt(h, StartOffset(p))..];
    var got := Take(h[StartAt(h, StartOffset(p))..], Min(p.count, CHUNK_LIMIT));
    assert [] + got == got;
  }

  /** Album items are neighbours, at most ten to an album. */
  ghost predicate AlbumsTogether(h: seq<Message>) {
    forall i, j, k :: TogetherAt(h, i, j, k)
  }

  /** If messages i and k are in one album, so is j between them, and there are fewer than ten from i to k. */
  predicate TogetherAt(h: seq<Message>, i: int, j: int, k: int) {
    0 <= i <= j <= k < |h| && GroupOf(h[i]) != 0 && GroupOf(h[i]) == GroupOf(h[k]) ==>
      GroupOf(h[j]) == GroupOf(h[i]) && k - i < MAX_ALBUM_SIZE
  }

  /** No album has items both in h[from..at] and in h[at..]. */
  predicate WholeAt(h: seq<Message>, from: nat, at: nat) {
    forall i, j :: from <= i < at <= j < |h| ==> Apart(h, i, j)
  }

  predicate Apart(h: seq<Message>, i: int, j: int) {
    0 <= i < |h| && 0 <= j < |h| && GroupOf(h[i]) != 0 ==> GroupOf(h[i]) != GroupOf(h[j])
  }

  lemma WholeAtBoundary(h: seq<Message>, from: nat, at: nat)
    requires AlbumsTogether(h) && from < at < |h|
    requires GroupOf(h[at - 1]) == 0 || GroupOf(h[at - 1]) != GroupOf(h[at])
    ensures WholeAt(h, from, at)
  {
    forall i, j | from <= i < at <= j < |h|
      ensures Apart(h, i, j)
    {
      assert TogetherAt(h, i, at - 1, j) && TogetherAt(h, i, at, j);
    }
  }

  /** A trimmed batch ends where the last message's album starts, unless that is the whole batch. */
  lemma TrimEnds(raw: seq<Message>)
    requires raw != []
    ensures var t, g := |Trimmed(raw)|, GroupOf(raw[|raw| - 1]);
            && 0 < t <= |raw| && Trimmed(raw) == raw[..t]
            && (t < |raw| ==> g != 0 && GroupOf(raw[t]) == g && GroupOf(raw[t - 1]) != g)
            && (t == |raw| && g != 0 ==> GroupOf(raw[0]) == g)
  {
    var last := raw[|raw| - 1];
    assert raw[..|raw|] == raw;
    RunStartIs(raw, GroupOf(last), |raw|);
    assert GroupOf(last) != 0 ==> RunStart(raw, GroupOf(last), |raw|) < |raw|;
  }

  /** A page is the next stretch of the history, and empty only at its end. */
  lemma PageIsNext(h: seq<Message>, start: nat, count: int)
    requires start <= |h| && count >= 1
    ensures var k := |Page(h[start..], count)|;
            start + k <= |h| && Page(h[start..], count) == h[start..start + k] && (k == 0 ==> start == |h|)
  {
  }

  /** For a count of 10 to 100 no album is split between a page and what is older. */
  lemma PageKeepsAlbums(h: seq<Message>, start: nat, count: int)
    requires AlbumsTogether(h) && start <= |h| && MAX_ALBUM_SIZE <= count <= CHUNK_LIMIT
    ensures WholeAt(h, start, start + |Page(h[start..], count)|)
  {
    var raw, end := Take(h[start..], count), start + count;
    if end <= |h| {
      assert raw == h[start..end] && raw[0] == h[start] && raw[count - 1] == h[end - 1];
      TrimEnds(raw);
      var t := |Trimmed(raw)|;
      assert |Page(h[start..], count)| == t;
      assert TogetherAt(h, start, start, end);
      assert raw[t - 1] == h[start + t - 1] && (t < count ==> raw[t] == h[start + t]);
      if start + t < |h| {
        WholeAtBoundary(h, start, start + t);
      }
    }
  }

  /** How many messages the page from position `start` on has. */
  function PageLength(h: seq<Message>, start: nat, count: int): nat
    requires start <= |h|
  {
    |Page(h[start..], count)|
  }

  /** Whether the page from position `start` on keeps albums whole. */
  predicate PageWhole(h: seq<Message>, start: nat, count: int)
    requires start <= |h|
  {
    WholeAt(h, start, start + PageLength(h, start, count))
  }

  /** The histories and counts for which batches do not split albums. */
  ghost predicate AlbumSafe(h: seq<Message>, count: int) {
    forall start: nat :: start <= |h| ==> PageWhole(h, start, count)
  }

  lemma TogetherIsSafe(h: seq<Message>, count: int)
    requires AlbumsTogether(h) && MAX_ALBUM_SIZE <= count <= CHUNK_LIMIT
    ensures AlbumSafe(h, count)
  {
    forall start: nat | start <= |h|
      ensures PageWhole(h, start, count)
    {
      PageKeepsAlbums(h, start, count);
    }
  }

  /** Whatever the history, a page of this count keeps albums whole. */
  ghost predicate KeepsAlbums(count: int) {
    forall h :: Descending(h) && AlbumsTogether(h) ==> AlbumSafe(h, count)
  }

  function Singles(n: nat, lowest: int): seq<Message> {
    seq(n, i => Ordinary(lowest + n - 1 - i, 0))
  }

  function Album(n: nat, lowest: int): seq<Message> {
    seq(n, i => Ordinary(lowest + n - 1 - i, 1))
  }

  lemma {:induction false} RunStartOfAll(messages: seq<Message>, g: int, cut: nat)
    requires cut <= |messages| && forall i :: 0 <= i < cut ==> messages[i].Ordinary? && messages[i].grouped == g
    ensures RunStart(messages, g, cut) == 0
  {
    if cut > 0 {
      RunStartOfAll(messages, g, cut - 1);
    }
  }

  lemma SplitsFullPage(count: int)
    requires 1 <= count < MAX_ALBUM_SIZE
    ensures !KeepsAlbums(count)
  {
    var h := Album(10, 1);
    assert h[0..] == h;
    RunStartOfAll(Take(h, count), 1, count);
    assert |Page(h[0..], count)| == count;
    assert Descending(h) && AlbumsTogether(h) && GroupOf(h[0]) == GroupOf(h[count]) == 1;
    assert !Apart(h, 0, count);
    assert !PageWhole(h, 0, count);
  }

  lemma SplitsAtChunk(count: int)
    requires count > CHUNK_LIMIT
    ensures !KeepsAlbums(count)
  {
    var h := Singles(95, 11) + Album(10, 1);
    assert h[0..] == h && |Page(h[0..], count)| == 100;
    assert forall i :: 0 <= i < |h| ==> h[i] == Ordinary(105 - i, if i < 95 then 0 else 1);
    assert Descending(h) && AlbumsTogether(h) && GroupOf(h[99]) == GroupOf(h[100]) == 1;
    assert !Apart(h, 99, 100);
    assert !PageWhole(h, 0, count);
  }

  /** Exactly the counts from 10 to 100 keep albums whole: below ten an album can fill the whole page,
      and above a hundred the page is cut at a chunk of a hundred that nothing trims. */
  lemma KeepsAlbumsExactly(count: int)
    requires count >= 1
    ensures KeepsAlbums(count) <==> 10 <= count <= 100
  {
    if count < MAX_ALBUM_SIZE {
      SplitsFullPage(count);
    } else if count > CHUNK_LIMIT {
      SplitsAtChunk(count);
    } else {
      forall h | Descending(h) && AlbumsTogether(h)
        ensures AlbumSafe(h, count)
      {
        TogetherIsSafe(h, count);
      }
    }
  }

  // ----- A whole import -----

  function Importable(messages: seq<Message>, convertible: Message -> bool): seq<Message> {
    if messages == [] then []
    else (if messages[0].Ordinary? && convertible(messages[0]) then [messages[0]] else []) + Importable(messages[1..], convertible)
  }

  lemma {:induction false} BridgedIsImportable(messages: seq<Message>, p: Params, convertible: Message -> bool)
    requires !p.forward && (StartOffset(p) > 0 ==> forall i :: 0 <= i < |messages| ==> messages[i].id < StartOffset(p))
    ensures Bridged(messages, p, convertible) == Importable(messages, convertible)
  {
    if messages != [] {
      assert forall i :: 0 <= i < |messages[1..]| ==> messages[1..][i] == messages[i + 1];
      BridgedIsImportable(messages[1..], p, convertible);
    }
  }

  /** Whatever was fetched: forwards, exactly the importable messages before the first that is not newer than
      the anchor are bridged. */
  lemma {:induction false} ForwardBridges(messages: seq<Message>, p: Params, convertible: Message -> bool) returns (n: nat)
    requires p.forward
    ensures n <= |messages| && (forall i :: 0 <= i < n ==> messages[i].id > p.anchor)
    ensures n < |messages| ==> messages[n].id <= p.anchor
    ensures Bridged(messages, p, convertible) == Importable(messages[..n], convertible)
  {
    if messages == [] || messages[0].id <= p.anchor {
      n := 0;
    } else {
      var rest := messages[1..];
      n := ForwardBridges(rest, p, convertible);
      assert messages[..n + 1][0] == messages[0] && messages[..n + 1][1..] == rest[..n];
      n := n + 1;
      forall i | 0 <= i < n
        ensures messages[i].id > p.anchor
      {
        assert i > 0 ==> messages[i] == rest[i - 1];
      }
    }
  }

  function OlderThan(messages: seq<Message>, offset: int): seq<Message> {
    if messages == [] then []
    else (if messages[0].id < offset then [messages[0]] else []) + OlderThan(messages[1..], offset)
  }

  /** Backwards, exactly the importable messages older than where the batch starts, if it starts anywhere. */
  lemma {:induction false} BackwardBridges(messages: seq<Message>, p: Params, convertible: Message -> bool)
    requires !p.forward
    ensures Bridged(messages, p, convertible)
         == Importable(if StartOffset(p) > 0 then OlderThan(messages, StartOffset(p)) else messages, convertible)
  {
    if messages != [] {
      BackwardBridges(messages[1..], p, convertible);
      var older := OlderThan(messages[1..], StartOffset(p));
      if StartOffset(p) > 0 && messages[0].id < StartOffset(p) {
        assert ([messages[0]] + older)[0] == messages[0] && ([messages[0]] + older)[1..] == older;
      } else if StartOffset(p) > 0 {
        assert [] + older == older;
      }
    }
  }

  /** A forward fetch from a truthful server bridges exactly the importable ones of the newest messages since
      the anchor. */
  lemma ForwardBridgesNewest(h: seq<Message>, p: Params, convertible: Message -> bool)
    requires Descending(h) && p.forward && p.count >= 0
    ensures Looked(Serving(h), p).Some?
    ensures Bridged(Looked(Serving(h), p).value, p, convertible)
         == Importable(h[..Min(p.count, Newer(h, p.anchor + 1))], convertible)
  {
    ForwardFetchesNewest(h, p);
    var fetched := h[..Min(p.count, Newer(h, p.anchor + 1))];
    var n := ForwardBridges(fetched, p, convertible);
    assert forall i :: 0 <= i < |fetched| ==> fetched[i].id > p.anchor;
    assert fetched[..n] == fetched;
  }

  lemma {:induction false} ImportableConcat(a: seq<Message>, b: seq<Message>, convertible: Message -> bool)
    ensures Importable(a + b, convertible) == Importable(a, convertible) + Importable(b, convertible)
  {
    if a == [] {
      assert a + b == b;
    } else {
      assert (a + b)[0] == a[0] && (a + b)[1..] == a[1..] + b;
      ImportableConcat(a[1..], b, convertible);
      var first := if a[0].Ordinary? && convertible(a[0]) then [a[0]] else [];
      assert first + (Importable(a[1..], convertible) + Importable(b, convertible))
          == first + Importable(a[1..], convertible) + Importable(b, convertible);
    }
  }

  lemma {:induction false} ImportableLast(messages: seq<Message>, convertible: Message -> bool)
    ensures var kept := Importable(messages, convertible);
            kept != [] ==> exists i :: 0 <= i < |messages| && messages[i] == kept[|kept| - 1]
  {
    if messages != [] {
      ImportableLast(messages[1..], convertible);
      var rest := Importable(messages[1..], convertible);
      if rest != [] {
        var i :| 0 <= i < |messages[1..]| && messages[1..][i] == rest[|rest| - 1];
        assert messages[i + 1] == rest[|rest| - 1];
      } else {
        assert messages[0] == messages[0];
      }
    }
  }

  /** Backwards, with real message IDs in the anchor and the cursor. */
  predicate Resumable(p: Params) {
    !p.forward && p.count >= 1 && p.anchor >= 0 && (p.cursor.Some? ==> p.cursor.value > 0)
  }

  /** The next fetch: the anchor is the oldest message bridged so far, the cursor the last looked at. */
  function NextParams(p: Params, looked: seq<Message>, bridged: seq<Message>): Params
    requires looked != []
  {
    p.(anchor := if bridged == [] then p.anchor else bridged[|bridged| - 1].id,
       unparsed := bridged == [] && p.unparsed,
       cursor := Some(looked[|looked| - 1].id))
  }

  /** What is bridged of a page from position `start` are its importable messages. */
  lemma PageBridged(h: seq<Message>, p: Params, convertible: Message -> bool, start: nat, page: seq<Message>)
    requires Descending(h) && !p.forward && start == StartAt(h, StartOffset(p)) && start + |page| <= |h|
    requires page == h[start..start + |page|]
    ensures Bridged(page, p, convertible) == Importable(page, convertible)
  {
    forall i | 0 <= i < |page| && StartOffset(p) > 0
      ensures page[i].id < StartOffset(p)
    {
      assert page[i] == h[start + i] && Before(h, start, start + i);
    }
    BridgedIsImportable(page, p, convertible);
  }

  /** The cursor decides where the next fetch starts, as the anchor is no older. */
  lemma NextOffset(p: Params, looked: seq<Message>, bridged: seq<Message>, last: int)
    requires Resumable(p) && looked != [] && last == looked[|looked| - 1].id > 0
    requires StartOffset(p) == 0 || StartOffset(p) > last
    requires bridged != [] ==> bridged[|bridged| - 1].id >= last
    ensures Resumable(NextParams(p, looked, bridged)) && StartOffset(NextParams(p, looked, bridged)) == last
  {
  }

  lemma NextStartAfter(h: seq<Message>, p: Params, start: nat, page: seq<Message>, kept: seq<Message>)
    requires Descending(h) && Resumable(p) && start == StartAt(h, StartOffset(p)) && start + |page| <= |h|
    requires page != [] && page == h[start..start + |page|]
    requires kept != [] ==> kept[|kept| - 1].id >= h[start + |page| - 1].id
    ensures var next := NextParams(p, page, kept);
            Resumable(next) && next.count == p.count && StartAt(h, StartOffset(next)) == start + |page|
  {
    var at := start + |page| - 1;
    assert page[|page| - 1] == h[at];
    assert StartOffset(p) == 0 || StartOffset(p) > h[at].id by {
      assert Before(h, start, at);
    }
    NextOffset(p, page, kept, h[at].id);
    StartsAfter(h, at);
  }

  /** The next fetch starts right after the last message a batch looked at. */
  lemma NextStart(h: seq<Message>, p: Params, convertible: Message -> bool, start: nat, page: seq<Message>)
    requires Descending(h) && Resumable(p) && start == StartAt(h, StartOffset(p)) && start + |page| <= |h|
    requires page != [] && page == h[start..start + |page|]
    ensures var next := NextParams(p, page, Importable(page, convertible));
            Resumable(next) && next.count == p.count && StartAt(h, StartOffset(next)) == start + |page|
  {
    KeptNoOlder(h, start, page, convertible);
    NextStartAfter(h, p, start, page, Importable(page, convertible));
  }

  /** The last importable message of a page is no older than the page's last. */
  lemma KeptNoOlder(h: seq<Message>, start: nat, page: seq<Message>, convertible: Message -> bool)
    requires Descending(h) && start + |page| <= |h| && page != [] && page == h[start..start + |page|]
    ensures var kept := Importable(page, convertible);
            kept != [] ==> kept[|kept| - 1].id >= h[start + |page| - 1].id
  {
    var kept := Importable(page, convertible);
    ImportableLast(page, convertible);
    if kept != [] {
      var i :| 0 <= i < |page| && page[i] == kept[|kept| - 1];
      assert page[i] == h[start + i] && Before(h, start + i, start + |page| - 1);
    }
  }

  /** What one batch looked at and bridged, newest first. */
  datatype Batch = Batch(looked: seq<Message>, bridged: seq<Message>)

  /** What one fetch from a truthful server looks at and bridges. */
  ghost function FirstBatch(h: seq<Message>, p: Params, convertible: Message -> bool): Batch {
    var page := Page(h[StartAt(h, StartOffset(p))..], p.count);
    Batch(page, Bridged(page, p, convertible))
  }

  lemma FirstBatchIsFetched(h: seq<Message>, p: Params, convertible: Message -> bool)
    requires Descending(h) && !p.forward
    ensures Looked(Serving(h), p) == Some(FirstBatch(h, p, convertible).looked)
    ensures FirstBatch(h, p, convertible).bridged == Bridged(Looked(Serving(h), p).value, p, convertible)
  {
    LookedIsPage(h, p);
  }

  /** A batch that looked at the page from `start` on, the next stretch of the history, and bridged its
      importable messages. */
  predicate IsStretch(h: seq<Message>, start: nat, batch: Batch, convertible: Message -> bool) {
    var end := start + |batch.looked|;
    && end <= |h| && batch.looked == h[start..end]
    && batch.bridged == Importable(batch.looked, convertible)
  }

  /** The first batch is the next stretch of the history, and the next fetch starts right after it. */
  lemma FirstBatchIs(h: seq<Message>, p: Params, convertible: Message -> bool)
    requires Descending(h) && Resumable(p)
    ensures var batch, start := FirstBatch(h, p, convertible), StartAt(h, StartOffset(p));
            && IsStretch(h, start, batch, convertible)
            && batch.looked == Page(h[start..], p.count)
            && (batch.looked == [] ==> start == |h|)
            && (batch.looked != [] ==>
                  var next := NextParams(p, batch.looked, batch.bridged);
                  Resumable(next) && next.count == p.count && StartAt(h, StartOffset(next)) == start + |batch.looked|)
  {
    var start := StartAt(h, StartOffset(p));
    var page := Page(h[start..], p.count);
    PageIsNext(h, start, p.count);
    PageBridged(h, p, convertible, start, page);
    if page != [] {
      NextStart(h, p, convertible, start, page);
    }
  }

  datatype Batches = Done | Then(batch: Batch, rest: Batches)

  /** Batches until one looks at nothing, each asked for with the anchor and cursor the last one left. */
  ghost function Import(h: seq<Message>, p: Params, convertible: Message -> bool): Batches
    requires Descending(h) && Resumable(p)
    decreases |h| - StartAt(h, StartOffset(p))
  {
    FirstBatchIs(h, p, convertible);
    var batch := FirstBatch(h, p, convertible);
    if batch.looked == [] then Done
    else Then(batch, Import(h, NextParams(p, batch.looked, batch.bridged), convertible))
  }

  /** The batches cut the history from `start` on into consecutive stretches to its end. */
  predicate CutsUp(h: seq<Message>, start: nat, batches: Batches)
    decreases batches
  {
    match batches
    case Done => start == |h|
    case Then(batch, rest) =>
      && batch.looked != [] && start + |batch.looked| <= |h| && batch.looked == h[start..start + |batch.looked|]
      && CutsUp(h, start + |batch.looked|, rest)
  }

  /** Every batch bridges its importable messages. */
  predicate BridgesImportable(batches: Batches, convertible: Message -> bool)
    decreases batches
  {
    match batches
    case Done => true
    case Then(batch, rest) =>
      batch.bridged == Importable(batch.looked, convertible) && BridgesImportable(rest, convertible)
  }

  /** Every batch is as long as the page where it starts. */
  predicate ArePages(length: nat -> nat, start: nat, batches: Batches)
    decreases batches
  {
    match batches
    case Done => true
    case Then(batch, rest) => |batch.looked| == length(start) && ArePages(length, start + |batch.looked|, rest)
  }

  /** The batches that `first` gives, each asked for with what the one before it left. */
  ghost predicate Chain(first: Params -> Batch, p: Params, batches: Batches)
    decreases batches
  {
    match batches
    case Done => first(p).looked == []
    case Then(batch, rest) =>
      batch == first(p) && batch.looked != [] && Chain(first, NextParams(p, batch.looked, batch.bridged), rest)
  }

  /** The batch for `p` is the page at `at(p)`, bridges what is importable, and the next one follows it. */
  ghost predicate Follows(h: seq<Message>, first: Params -> Batch, at: Params -> nat, length: nat -> nat,
                          convertible: Message -> bool, count: int, p: Params) {
    Resumable(p) && p.count == count ==>
      var looked, end := first(p).looked, at(p) + |first(p).looked|;
      && end <= |h| && looked == h[at(p)..end] && |looked| == length(at(p))
      && first(p).bridged == Importable(looked, convertible)
      && (looked == [] ==> end == |h|)
      && (looked != [] ==>
            var next := NextParams(p, looked, first(p).bridged);
            Resumable(next) && next.count == count && at(next) == end)
  }

  ghost function FirstOf(h: seq<Message>, convertible: Message -> bool): Params -> Batch {
    p => FirstBatch(h, p, convertible)
  }

  ghost function StartOf(h: seq<Message>): Params -> nat {
    p => StartAt(h, StartOffset(p))
  }

  lemma {:induction false} ImportIsChain(h: seq<Message>, p: Params, convertible: Message -> bool)
    requires Descending(h) && Resumable(p)
    ensures Chain(FirstOf(h, convertible), p, Import(h, p, convertible))
    decreases |h| - StartAt(h, StartOffset(p))
  {
    FirstBatchIs(h, p, convertible);
    var batch := FirstBatch(h, p, convertible);
    if batch.looked != [] {
      ImportIsChain(h, NextParams(p, batch.looked, batch.bridged), convertible);
    }
  }

  ghost function LengthOf(h: seq<Message>, count: int): nat -> nat {
    (start: nat) => if start <= |h| then PageLength(h, start, count) else 0
  }

  lemma ImportFollows(h: seq<Message>, p: Params, convertible: Message -> bool, count: int)
    requires Descending(h)
    ensures Follows(h, FirstOf(h, convertible), StartOf(h), LengthOf(h, count), convertible, count, p)
  {
    if Resumable(p) && p.count == count {
      FirstBatchIs(h, p, convertible);
    }
  }

  lemma {:induction false} ChainIs(h: seq<Message>, first: Params -> Batch, at: Params -> nat, length: nat -> nat,
                                   convertible: Message -> bool, p: Params, batches: Batches)
    requires Chain(first, p, batches) && Resumable(p)
    requires forall q :: Follows(h, first, at, length, convertible, p.count, q)
    ensures CutsUp(h, at(p), batches) && BridgesImportable(batches, convertible) && ArePages(length, at(p), batches)
    decreases batches
  {
    assert Follows(h, first, at, length, convertible, p.count, p);
    if batches.Then? {
      var batch := batches.batch;
      ChainIs(h, first, at, length, convertible, NextParams(p, batch.looked, batch.bridged), batches.rest);
    }
  }

  /** An import terminates having looked at every message older than its start exactly once, in order, a
      page at a time, and bridged what is importable. */
  lemma ImportCutsUp(h: seq<Message>, p: Params, convertible: Message -> bool, start: nat, batches: Batches)
    requires Descending(h) && Resumable(p)
    requires start == StartAt(h, StartOffset(p)) && batches == Import(h, p, convertible)
    ensures CutsUp(h, start, batches) && BridgesImportable(batches, convertible)
    ensures ArePages(LengthOf(h, p.count), start, batches)
  {
    ImportIsChain(h, p, convertible);
    forall q
      ensures Follows(h, FirstOf(h, convertible), StartOf(h), LengthOf(h, p.count), convertible, p.count, q)
    {
      ImportFollows(h, q, convertible, p.count);
    }
    ChainIs(h, FirstOf(h, convertible), StartOf(h), LengthOf(h, p.count), convertible, p, batches);
  }

  /** No album is split where one batch ends. */
  predicate AlbumsWhole(h: seq<Message>, start: nat, batches: Batches)
    decreases batches
  {
    match batches
    case Done => true
    case Then(batch, rest) =>
      WholeAt(h, start, start + |batch.looked|) && AlbumsWhole(h, start + |batch.looked|, rest)
  }

  /** A stretch of the length given for its start cuts no album at its ends. */
  predicate CutsNone(h: seq<Message>, length: nat -> nat, lo: nat) {
    WholeAt(h, lo, lo + length(lo))
  }

  lemma {:induction false} PagesKeepAlbums(h: seq<Message>, length: nat -> nat, start: nat, batches: Batches)
    requires CutsUp(h, start, batches) && ArePages(length, start, batches)
    requires forall lo: nat :: lo <= |h| ==> CutsNone(h, length, lo)
    ensures AlbumsWhole(h, start, batches)
    decreases batches
  {
    if batches.Then? {
      assert CutsNone(h, length, start);
      PagesKeepAlbums(h, length, start + |batches.batch.looked|, batches.rest);
    }
  }

  /** An import in batches of a safe size splits no album. */
  lemma ImportKeepsAlbums(h: seq<Message>, p: Params, convertible: Message -> bool, start: nat, batches: Batches)
    requires Descending(h) && Resumable(p) && AlbumSafe(h, p.count)
    requires start == StartAt(h, StartOffset(p)) && batches == Import(h, p, convertible)
    ensures AlbumsWhole(h, start, batches)
  {
    ImportCutsUp(h, p, convertible, start, batches);
    forall lo: nat | lo <= |h|
      ensures CutsNone(h, LengthOf(h, p.count), lo)
    {
      assert PageWhole(h, lo, p.count);
    }
    PagesKeepAlbums(h, LengthOf(h, p.count), start, batches);
  }

  function AllLooked(batches: Batches): seq<Message> {
    if batches.Done? then [] else batches.batch.looked + AllLooked(batches.rest)
  }

  function AllBridged(batches: Batches): seq<Message> {
    if batches.Done? then [] else batches.batch.bridged + AllBridged(batches.rest)
  }

  /** Put together, the batches are the older messages, and what they bridged the importable ones. */
  lemma {:induction false} CutsAddUp(h: seq<Message>, start: nat, batches: Batches)
    requires start <= |h| && CutsUp(h, start, batches)
    ensures AllLooked(batches) == h[start..]
    decreases batches
  {
    if batches.Then? {
      var looked, end := batches.batch.looked, start + |batches.batch.looked|;
      CutsAddUp(h, end, batches.rest);
      assert h[start..] == looked + h[end..];
    }
  }

  lemma {:induction false} BridgesAddUp(batches: Batches, convertible: Message -> bool)
    requires BridgesImportable(batches, convertible)
    ensures AllBridged(batches) == Importable(AllLooked(batches), convertible)
    decreases batches
  {
    if batches.Then? {
      BridgesAddUp(batches.rest, convertible);
      ImportableConcat(batches.batch.looked, AllLooked(batches.rest), convertible);
    }
  }

  /** An import backwards from a truthful server visits every message older than its start exactly once,
      in order, bridges exactly the importable ones, and for a count of 10 to 100 splits no album. */
  lemma ImportComplete(h: seq<Message>, p: Params, convertible: Message -> bool, start: nat, batches: Batches)
    requires Descending(h) && Resumable(p)
    requires start == StartAt(h, StartOffset(p)) && batches == Import(h, p, convertible)
    ensures AllLooked(batches) == h[start..]
    ensures AllBridged(batches) == Importable(h[start..], convertible)
    ensures AlbumsTogether(h) && MAX_ALBUM_SIZE <= p.count <= CHUNK_LIMIT ==> AlbumsWhole(h, start, batches)
  {
    ImportCutsUp(h, p, convertible, start, batches);
    CutsAddUp(h, start, batches);
    BridgesAddUp(batches, convertible);
    if AlbumsTogether(h) && MAX_ALBUM_SIZE <= p.count <= CHUNK_LIMIT {
      TogetherIsSafe(h, p.count);
      ImportKeepsAlbums(h, p, convertible, start, batches);
    }
  }

  // ----- Album indexes over a whole import -----

  /** Message `i` has this ID and is in this album. */
  predicate InAlbum(h: seq<Message>, i: int, id: int, grouped: int) {
    0 <= i < |h| && h[i].id == id && GroupOf(h[i]) == grouped
  }

  /** The database only says of a message that it is in an album it is in. */
  ghost predicate TruthfulDb(db: int -> Option<int>, h: seq<Message>) {
    forall id: int, grouped: int :: db(id) == Some(grouped) ==> exists i :: InAlbum(h, i, id, grouped)
  }

  /** Albums that are whole before a stretch are whole before its end, if they are in the stretch. */
  lemma WholeJoins(h: seq<Message>, start: nat, end: nat)
    requires start <= end && WholeAt(h, 0, start) && WholeAt(h, start, end)
    ensures WholeAt(h, 0, end)
  {
  }

  /** A stretch that cuts no album holds all that a truthful database knows of its albums. */
  lemma StretchKnowsOnly(h: seq<Message>, start: nat, end: nat, db: int -> Option<int>, m: nat, other: int)
    requires start <= end <= |h| && WholeAt(h, 0, start) && WholeAt(h, start, end) && TruthfulDb(db, h)
    requires m < end - start && GroupOf(h[start + m]) != 0
    ensures KnowsOnly(db, h[start..end], GroupOf(h[start + m]), other)
  {
    var page, grouped := h[start..end], GroupOf(h[start + m]);
    if db(other) == Some(grouped) {
      var i :| InAlbum(h, i, other, grouped);
      assert i < start ==> Apart(h, i, start + m);
      assert i >= end ==> Apart(h, start + m, i);
      assert page[i - start] == h[i];
    }
  }

  /** What the index of one item should be: the distance to an item of its album that no other precedes. */
  ghost predicate Indexed(looked: seq<Message>, db: int -> Option<int>, m: nat, c: Converted)
    requires m < |looked|
  {
    ConvertedFrom(c, looked[m], LookupIn(BatchOf(looked), db)) && GroupOf(looked[m]) != 0 ==>
      && c.albumIndex.Some? && 0 <= c.albumIndex.value < MAX_ALBUM_SIZE
      && exists first :: IsFirst(looked, GroupOf(looked[m]), first) && c.albumIndex.value == looked[m].id - looked[first].id
  }

  /** The oldest item of an album. */
  predicate IsFirst(looked: seq<Message>, grouped: int, first: int) {
    && 0 <= first < |looked| && GroupOf(looked[first]) == grouped
    && forall i :: 0 <= i < |looked| && GroupOf(looked[i]) == grouped ==> looked[first].id <= looked[i].id
  }

  lemma StretchIndexed(h: seq<Message>, start: nat, end: nat, db: int -> Option<int>, m: nat, c: Converted)
    requires Descending(h) && SpansTen(h) && TruthfulDb(db, h)
    requires start <= end <= |h| && WholeAt(h, 0, start) && WholeAt(h, start, end) && m < end - start
    ensures Indexed(h[start..end], db, m, c)
  {
    var page := h[start..end];
    DescendingSlice(h, start, end);
    SpansSlice(h, start, end);
    assert page[m] == h[start + m];
    var grouped := GroupOf(page[m]);
    if ConvertedFrom(c, page[m], LookupIn(BatchOf(page), db)) && grouped != 0 {
      forall other
        ensures KnowsOnly(db, page, grouped, other)
      {
        StretchKnowsOnly(h, start, end, db, m, other);
      }
      var base := page[m].id - c.albumIndex.value;
      BaseIsFirst(page, db, m, base);
      var first :| 0 <= first < |page| && page[first].id == base && GroupOf(page[first]) == grouped;
      assert IsFirst(page, grouped, first);
    }
  }

  /** In every batch, each item of an album is converted with the index it should have, whatever a truthful
      database knows by then. */
  ghost predicate AllIndexed(h: seq<Message>, batches: Batches)
    decreases batches
  {
    match batches
    case Done => true
    case Then(batch, rest) => BatchIndexed(h, batch.looked) && AllIndexed(h, rest)
  }

  ghost predicate BatchIndexed(h: seq<Message>, looked: seq<Message>) {
    forall db: int -> Option<int>, m: nat, c: Converted :: TruthfulDb(db, h) && m < |looked| ==> Indexed(looked, db, m, c)
  }

  /** A stretch that cuts no album has its items indexed as they should be. */
  ghost predicate StretchIndexes(h: seq<Message>, start: nat, end: nat) {
    start <= end <= |h| && WholeAt(h, 0, start) && WholeAt(h, start, end) ==> BatchIndexed(h, h[start..end])
  }

  lemma StretchesIndex(h: seq<Message>, start: nat, end: nat)
    requires Descending(h) && SpansTen(h)
    ensures StretchIndexes(h, start, end)
  {
    if start <= end <= |h| && WholeAt(h, 0, start) && WholeAt(h, start, end) {
      var looked := h[start..end];
      forall db: int -> Option<int>, m: nat, c: Converted | TruthfulDb(db, h) && m < |looked|
        ensures Indexed(looked, db, m, c)
      {
        StretchIndexed(h, start, end, db, m, c);
      }
    }
  }

  lemma {:induction false} WholeIndexes(h: seq<Message>, start: nat, batches: Batches)
    requires forall lo: nat, hi: nat :: StretchIndexes(h, lo, hi)
    requires start <= |h| && WholeAt(h, 0, start)
    requires CutsUp(h, start, batches) && AlbumsWhole(h, start, batches)
    ensures AllIndexed(h, batches)
    decreases batches
  {
    if batches.Then? {
      var end := start + |batches.batch.looked|;
      assert StretchIndexes(h, start, end);
      WholeJoins(h, start, end);
      WholeIndexes(h, end, batches.rest);
    }
  }

  /** Over a whole import from a truthful server, in batches of 10 to 100 and from a start that cuts no
      album, every item of an album gets the index from 0 to 9 that is its distance to the album's oldest
      item. */
  lemma ImportIndexes(h: seq<Message>, p: Params, convertible: Message -> bool)
    requires Descending(h) && Resumable(p) && AlbumsTogether(h) && SpansTen(h)
    requires MAX_ALBUM_SIZE <= p.count <= CHUNK_LIMIT && WholeAt(h, 0, StartAt(h, StartOffset(p)))
    ensures AllIndexed(h, Import(h, p, convertible))
  {
    var start, batches := StartAt(h, StartOffset(p)), Import(h, p, convertible);
    ImportCutsUp(h, p, convertible, start, batches);
    TogetherIsSafe(h, p.count);
    ImportKeepsAlbums(h, p, convertible, start, batches);
    forall lo: nat, hi: nat
      ensures StretchIndexes(h, lo, hi)
    {
      StretchesIndex(h, lo, hi);
    }
    WholeIndexes(h, start, batches);
  }

  /** So two items of one album in a batch get indexes that differ as their message IDs do. */
  lemma IndexesDiffer(looked: seq<Message>, db: int -> Option<int>, m: nat, n: nat, c: Converted, c': Converted)
    requires m < |looked| && n < |looked| && GroupOf(looked[m]) == GroupOf(looked[n]) != 0
    requires Indexed(looked, db, m, c) && Indexed(looked, db, n, c')
    requires ConvertedFrom(c, looked[m], LookupIn(BatchOf(looked), db)) && ConvertedFrom(c', looked[n], LookupIn(BatchOf(looked), db))
    ensures c.albumIndex.Some? && c'.albumIndex.Some?
    ensures c.albumIndex.value - c'.albumIndex.value == looked[m].id - looked[n].id
  {
    var first :| IsFirst(looked, GroupOf(looked[m]), first) && c.albumIndex.value == looked[m].id - looked[first].id;
    var first' :| IsFirst(looked, GroupOf(looked[n]), first') && c'.albumIndex.value == looked[n].id - looked[first'].id;
    assert looked[first].id <= looked[first'].id <= looked[first].id;
  }
}
