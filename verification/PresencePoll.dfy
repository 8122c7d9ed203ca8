/** Status polls over batches of users: the skip list of rejected users, the shared allowance for
    splitting, and how repeated polls converge. */
module PresencePoll {
  import opened Basics
  import opened PresenceBisect

  type Skips = map<int, int>

  predicate Skipped(until: Skips, id: int, now: int) {
    id in until && now < until[id]
  }

  function AfterAsking(until: Skips, id: int, now: int): Skips {
    if id in until && now >= until[id] then until - {id} else until
  }

  function Unexpired(until: Skips, now: int): Skips {
    map id | id in until && now < until[id] :: until[id]
  }

  function AfterAdding(until: Skips, id: int, now: int): Skips {
    Unexpired(until, now)[id := now + BAD_USER_SKIP]
  }

  /** One user Telegram rejected on their own. */
  datatype Rejection = Rejection(id: int, at: int)

  /** Telegram rejected the user within the last hour. */
  ghost predicate RejectedWithin(history: seq<Rejection>, id: int, now: int) {
    exists i :: 0 <= i < |history| && history[i].id == id && history[i].at <= now < history[i].at + 3_600_000_000_000
  }

  /** From `clock` on, the skip list answers as the plain history of rejections does. */
  ghost predicate Mirrors(until: Skips, history: seq<Rejection>, clock: int) {
    && (forall i :: 0 <= i < |history| ==> history[i].at <= clock)
    && forall id, now :: clock <= now ==> (Skipped(until, id, now) <==> RejectedWithin(history, id, now))
  }

  lemma AskingMirrors(until: Skips, history: seq<Rejection>, clock: int, id: int, now: int)
    requires Mirrors(until, history, clock) && clock <= now
    ensures Mirrors(AfterAsking(until, id, now), history, now)
  {
    forall other, t | now <= t
      ensures Skipped(AfterAsking(until, id, now), other, t) <==> RejectedWithin(history, other, t)
    {
      assert Skipped(until, other, t) <==> RejectedWithin(history, other, t);
    }
  }

  lemma AddingMirrors(until: Skips, history: seq<Rejection>, clock: int, id: int, now: int)
    requires Mirrors(until, history, clock) && clock <= now
    ensures Mirrors(AfterAdding(until, id, now), history + [Rejection(id, now)], now)
  {
    var until', history' := AfterAdding(until, id, now), history + [Rejection(id, now)];
    forall other, t | now <= t
      ensures Skipped(until', other, t) <==> RejectedWithin(history', other, t)
    {
      assert Skipped(until, other, t) <==> RejectedWithin(history, other, t);
      assert history'[|history|] == Rejection(id, now);
      assert forall i :: 0 <= i < |history| ==> history'[i] == history[i];
      if Skipped(until', other, t) && other != id {
        var i :| 0 <= i < |history| && history[i].id == other && history[i].at <= t < history[i].at + 3_600_000_000_000;
        assert history'[i].id == other;
      }
    }
  }

  class BadUserSkips {
    var until: Skips
    ghost var history: seq<Rejection>
    ghost var clock: int

    ghost predicate Valid()
      reads this
    {
      Mirrors(until, history, clock)
    }

    constructor (ghost now: int)
      ensures Valid() && until == map[] && history == [] && clock == now
    {
      until, history, clock := map[], [], now;
    }

    method IsSkipped(id: int, now: int) returns (skipped: bool)
      requires Valid() && clock <= now
      modifies this
      ensures Valid() && clock == now && history == old(history)
      ensures skipped <==> RejectedWithin(history, id, now)
      ensures skipped <==> Skipped(old(until), id, now)
      ensures until == AfterAsking(old(until), id, now)
    {
      AskingMirrors(until, history, clock, id, now);
      assert Skipped(until, id, now) <==> RejectedWithin(history, id, now);
      clock := now;
      if id in until && now >= until[id] {
        until := until - {id};
        return false;
      }
      return id in until;
    }

    method Add(id: int, now: int)
      requires Valid() && clock <= now
      modifies this
      ensures Valid() && clock == now && history == old(history) + [Rejection(id, now)]
      ensures until == AfterAdding(old(until), id, now)
    {
      AddingMirrors(until, history, clock, id, now);
      var others := until.Keys;
      ghost var before := until;
      while others != {}
        invariant others <= before.Keys
        invariant until == map other | other in before && (other in others || now < before[other]) :: before[other]
        invariant unchanged(`history) && unchanged(`clock)
      {
        ghost var someone := HasMember(others);
        var other :| other in others;
        others := others - {other};
        if now >= until[other] {
          until := until - {other};
        }
      }
      assert until == Unexpired(before, now);
      until := until[id := now + BAD_USER_SKIP];
      history, clock := history + [Rejection(id, now)], now;
    }
  }

  // ----- One poll -----

  function Live(ids: seq<int>, until: Skips, now: int): seq<int> {
    if ids == [] then []
    else
      (if Skipped(until, ids[0], now) then [] else [ids[0]])
      + Live(ids[1..], AfterAsking(until, ids[0], now), now)
  }

  function AfterAskingAll(ids: seq<int>, until: Skips, now: int): Skips {
    if ids == [] then until else AfterAskingAll(ids[1..], AfterAsking(until, ids[0], now), now)
  }

  function AfterAddingAll(ids: seq<int>, until: Skips, now: int): Skips {
    if ids == [] then until else AfterAddingAll(ids[1..], AfterAdding(until, ids[0], now), now)
  }

  datatype Poll<R> = Poll(results: seq<R>, rejected: seq<int>, wait: int, err: Option<int>,
                          requests: nat, extra: int, batches: nat, until: Skips)

  function FirstBatch(live: seq<int>, batchSize: nat): seq<int>
    requires batchSize >= 1
    ensures live != [] ==> FirstBatch(live, batchSize) != []
  {
    live[..if batchSize < |live| then batchSize else |live|]
  }

  function AfterBatch<R>(batch: seq<int>, now: int, base: nat, fetch: Server<int, R>, p: Poll<R>): Poll<R> {
    var s := Isolate(batch, 1 + p.extra, base + p.requests, fetch);
    Poll(p.results + s.results, p.rejected + s.bad, s.wait, s.err, p.requests + s.requests,
         p.extra - (s.requests - 1), p.batches + 1, AfterAddingAll(s.bad, p.until, now))
  }

  function Batches<R>(live: seq<int>, batchSize: nat, now: int, base: nat, fetch: Server<int, R>, p: Poll<R>): Poll<R>
    requires batchSize >= 1
    decreases |live|
  {
    if live == [] || p.wait != 0 || p.err.Some? then p
    else
      var batch := FirstBatch(live, batchSize);
      Batches(live[|batch|..], batchSize, now, base, fetch, AfterBatch(batch, now, base, fetch, p))
  }

  function PollOnce<R>(ids: seq<int>, batchSize: nat, extra: int, until: Skips, now: int, base: nat,
                       fetch: Server<int, R>): Poll<R>
    requires batchSize >= 1
  {
    Batches(Live(ids, until, now), batchSize, now, base, fetch,
            Poll([], [], 0, None, 0, extra, 0, AfterAskingAll(ids, until, now)))
  }

  function RejectionsAt(ids: seq<int>, now: int): seq<Rejection> {
    seq(|ids|, i requires 0 <= i < |ids| => Rejection(ids[i], now))
  }

  lemma RejectionsConcat(a: seq<int>, b: seq<int>, now: int)
    ensures RejectionsAt(a + b, now) == RejectionsAt(a, now) + RejectionsAt(b, now)
  {
  }

  lemma LiveStep(live: seq<int>, left: seq<int>, until: Skips, now: int)
    requires left != []
    ensures var more := if Skipped(until, left[0], now) then live else live + [left[0]];
            live + Live(left, until, now) == more + Live(left[1..], AfterAsking(until, left[0], now), now)
  {
    var rest := Live(left[1..], AfterAsking(until, left[0], now), now);
    if Skipped(until, left[0], now) {
      assert [] + rest == rest;
    } else {
      SeqAssociative(live, [left[0]], rest);
    }
  }

  method LiveUsers(ids: seq<int>, skips: BadUserSkips, now: int) returns (live: seq<int>)
    requires skips.Valid() && skips.clock <= now
    modifies skips
    ensures live == Live(ids, old(skips.until), now) && skips.until == AfterAskingAll(ids, old(skips.until), now)
    ensures skips.Valid() && skips.history == old(skips.history) && old(skips.clock) <= skips.clock <= now
  {
    live := [];
    var i := 0;
    ghost var left := ids;
    while i < |ids|
      invariant 0 <= i <= |ids| && left == ids[i..]
      invariant skips.Valid() && old(skips.clock) <= skips.clock <= now && skips.history == old(skips.history)
      invariant live + Live(left, skips.until, now) == Live(ids, old(skips.until), now)
      invariant AfterAskingAll(left, skips.until, now) == AfterAskingAll(ids, old(skips.until), now)
    {
      LiveStep(live, left, skips.until, now);
      var skipped := skips.IsSkipped(ids[i], now);
      if !skipped {
        live := live + [ids[i]];
      }
      i, left := i + 1, left[1..];
    }
  }

  method SkipAll(bad: seq<int>, skips: BadUserSkips, now: int)
    requires skips.Valid() && skips.clock <= now
    modifies skips
    ensures skips.until == AfterAddingAll(bad, old(skips.until), now)
    ensures skips.Valid() && skips.history == old(skips.history) + RejectionsAt(bad, now)
    ensures old(skips.clock) <= skips.clock <= now
  {
    var i := 0;
    assert bad[0..] == bad;
    while i < |bad|
      invariant 0 <= i <= |bad|
      invariant skips.Valid() && old(skips.clock) <= skips.clock <= now
      invariant skips.history == old(skips.history) + RejectionsAt(bad[..i], now)
      invariant AfterAddingAll(bad[i..], skips.until, now) == AfterAddingAll(bad, old(skips.until), now)
    {
      assert bad[i..][1..] == bad[i + 1..];
      skips.Add(bad[i], now);
      assert RejectionsAt(bad[..i + 1], now) == RejectionsAt(bad[..i], now) + [Rejection(bad[i], now)];
      i := i + 1;
    }
    assert bad[..i] == bad;
  }

  lemma HistoryGrows(history: seq<Rejection>, a: seq<int>, b: seq<int>, now: int)
    ensures history + RejectionsAt(a, now) + RejectionsAt(b, now) == history + RejectionsAt(a + b, now)
  {
    RejectionsConcat(a, b, now);
    SeqAssociative(history, RejectionsAt(a, now), RejectionsAt(b, now));
  }

  lemma BatchSplits(live: seq<int>, start: nat, rest: seq<int>, batchSize: nat)
    requires batchSize >= 1 && start < |live| && rest == live[start..]
    ensures var batch := FirstBatch(rest, batchSize);
            start + |batch| <= |live| && rest[|batch|..] == live[start + |batch|..]
  {
  }

  /** The body of the loop: one batch, within what is left of the allowance; whoever it rejects is skipped
      from now on. */
  method FetchBatch<R>(batch: seq<int>, results: seq<R>, rejected: seq<int>, requests: nat, extra: int,
                       skips: BadUserSkips, now: int, base: nat, fetch: Server<int, R>,
                       ghost p: Poll<R>, ghost history: seq<Rejection>)
    returns (results': seq<R>, rejected': seq<int>, wait: int, err: Option<int>, requests': nat, extra': int)
    requires skips.Valid() && skips.clock <= now && skips.history == history + RejectionsAt(rejected, now)
    requires p == Poll(results, rejected, 0, None, requests, extra, p.batches, skips.until)
    modifies skips
    ensures Poll(results', rejected', wait, err, requests', extra', p.batches + 1, skips.until)
         == AfterBatch(batch, now, base, fetch, p)
    ensures skips.Valid() && skips.history == history + RejectionsAt(rejected', now)
    ensures old(skips.clock) <= skips.clock <= now
  {
    var got, bad;
    var made: nat;
    got, bad, wait, err, made := FetchIsolatingBad(batch, 1 + extra, base + requests, fetch);
    extra', requests' := extra - (made - 1), requests + made;
    results', rejected' := results + got, rejected + bad;
    SkipAll(bad, skips, now);
    HistoryGrows(history, rejected, bad, now);
  }

  method FetchUnskipped<R>(ids: seq<int>, batchSize: nat, extra: nat, skips: BadUserSkips, now: int,
                           base: nat, fetch: Server<int, R>)
    returns (results: seq<R>, rejected: seq<int>, wait: int, err: Option<int>, requests: nat, extraLeft: int)
    requires batchSize >= 1 && skips.Valid() && skips.clock <= now
    modifies skips
    ensures var p := PollOnce(ids, batchSize, extra, old(skips.until), now, base, fetch);
            && results == p.results && rejected == p.rejected && wait == p.wait && err == p.err
            && requests == p.requests && extraLeft == p.extra && skips.until == p.until
    ensures skips.Valid() && skips.history == old(skips.history) + RejectionsAt(rejected, now)
    ensures old(skips.clock) <= skips.clock <= now
  {
    var live := LiveUsers(ids, skips, now);
    ghost var p, rest := Poll([], [], 0, None, 0, extra, 0, skips.until), live;
    results, rejected, wait, err, requests, extraLeft := [], [], 0, None, 0, extra;
    var start := 0;
    while start < |live| && wait == 0 && err.None?
      invariant 0 <= start <= |live| && rest == live[start..]
      invariant p == Poll(results, rejected, wait, err, requests, extraLeft, p.batches, skips.until)
      invariant Batches(rest, batchSize, now, base, fetch, p)
             == PollOnce(ids, batchSize, extra, old(skips.until), now, base, fetch)
      invariant skips.Valid() && old(skips.clock) <= skips.clock <= now
      invariant skips.history == old(skips.history) + RejectionsAt(rejected, now)
      decreases |live| - start
    {
      var batch := FirstBatch(live[start..], batchSize);
      BatchSplits(live, start, rest, batchSize);
      ghost var before := p;
      p, rest := AfterBatch(batch, now, base, fetch, before), rest[|batch|..];
      results, rejected, wait, err, requests, extraLeft :=
        FetchBatch(batch, results, rejected, requests, extraLeft, skips, now, base, fetch, before, old(skips.history));
      start := start + |batch|;
    }
  }

  // ----- The cost of a poll -----

  function BatchCount(n: nat, batchSize: nat): nat
    requires batchSize >= 1
  {
    if n == 0 then 0 else 1 + BatchCount(if n <= batchSize then 0 else n - batchSize, batchSize)
  }

  lemma {:induction false} BatchCountIsCeil(n: nat, batchSize: nat)
    requires batchSize >= 1
    ensures n <= BatchCount(n, batchSize) * batchSize
    ensures n > 0 ==> (BatchCount(n, batchSize) - 1) * batchSize < n
  {
    if n > batchSize {
      BatchCountIsCeil(n - batchSize, batchSize);
    }
  }

  /** At most one request a batch plus the allowance, which is never overdrawn; every batch that is
      reached gets at least one request. Whatever the server answers. */
  lemma {:induction false} BatchesCost<R>(live: seq<int>, batchSize: nat, now: int, base: nat, fetch: Server<int, R>,
                                          p: Poll<R>)
    requires batchSize >= 1 && p.extra >= 0
    ensures var q := Batches(live, batchSize, now, base, fetch, p);
            && 0 <= q.extra <= p.extra
            && p.batches <= q.batches <= p.batches + BatchCount(|live|, batchSize)
            && q.requests - p.requests == (q.batches - p.batches) + (p.extra - q.extra)
    decreases |live|
  {
    if live != [] && p.wait == 0 && p.err.None? {
      var batch := FirstBatch(live, batchSize);
      RunStops(batch, 1 + p.extra, base + p.requests, fetch, Start());
      BatchesCost(live[|batch|..], batchSize, now, base, fetch, AfterBatch(batch, now, base, fetch, p));
    }
  }

  lemma PollCost<R>(ids: seq<int>, batchSize: nat, extra: nat, until: Skips, now: int, base: nat, fetch: Server<int, R>)
    requires batchSize >= 1
    ensures var p := PollOnce(ids, batchSize, extra, until, now, base, fetch);
            && 0 <= p.extra <= extra && p.requests == p.batches + (extra - p.extra)
            && p.requests <= BatchCount(|ids|, batchSize) + extra
  {
    BatchesCost(Live(ids, until, now), batchSize, now, base, fetch,
                Poll([], [], 0, None, 0, extra, 0, AfterAskingAll(ids, until, now)));
    LiveShorter(ids, until, now);
    BatchCountMonotone(|Live(ids, until, now)|, |ids|, batchSize);
  }

  lemma {:induction false} LiveShorter(ids: seq<int>, until: Skips, now: int)
    ensures |Live(ids, until, now)| <= |ids|
  {
    if ids != [] {
      LiveShorter(ids[1..], AfterAsking(until, ids[0], now), now);
    }
  }

  lemma {:induction false} BatchCountMonotone(m: nat, n: nat, batchSize: nat)
    requires batchSize >= 1 && m <= n
    ensures BatchCount(m, batchSize) <= BatchCount(n, batchSize)
  {
    if m > 0 {
      BatchCountMonotone(if m <= batchSize then 0 else m - batchSize, if n <= batchSize then 0 else n - batchSize, batchSize);
    }
  }

  // ----- What was answered, whatever the server -----

  /** The requests of the batches, in order. */
  function AskedInBatches<R>(live: seq<int>, batchSize: nat, now: int, base: nat, fetch: Server<int, R>, p: Poll<R>)
    : seq<Exchange<int, R>>
    requires batchSize >= 1
    decreases |live|
  {
    if live == [] || p.wait != 0 || p.err.Some? then []
    else
      var batch := FirstBatch(live, batchSize);
      Asked(batch, 1 + p.extra, base + p.requests, fetch, Start())
      + AskedInBatches(live[|batch|..], batchSize, now, base, fetch, AfterBatch(batch, now, base, fetch, p))
  }

  function AsProgress<R>(p: Poll<R>): Progress<int, R> {
    Progress(p.requests, p.results, p.rejected, p.wait, p.err)
  }

  /** What one batch is answered, as part of the poll. */
  lemma BatchTells<R>(batch: seq<int>, now: int, base: nat, fetch: Server<int, R>, p: Poll<R>)
    requires p.wait == 0 && p.err.None?
    ensures Told(Asked(batch, 1 + p.extra, base + p.requests, fetch, Start()), base, fetch, AsProgress(p),
                 AsProgress(AfterBatch(batch, now, base, fetch, p)))
  {
    RunTells(batch, 1 + p.extra, base + p.requests, fetch, Start());
    ToldElsewhere(Asked(batch, 1 + p.extra, base + p.requests, fetch, Start()), base, fetch,
                  Isolate(batch, 1 + p.extra, base + p.requests, fetch), AsProgress(p),
                  AsProgress(AfterBatch(batch, now, base, fetch, p)));
  }

  /** Batches that were reached, unless the last answer ended the poll. */
  ghost predicate PollTold<R>(x: seq<Exchange<int, R>>, base: nat, fetch: Server<int, R>, p: Poll<R>, q: Poll<R>, reached: nat) {
    Told(x, base, fetch, AsProgress(p), AsProgress(q)) && (!Halted(x) ==> q.batches == p.batches + reached)
  }

  lemma PollToldJoin<R>(x: seq<Exchange<int, R>>, y: seq<Exchange<int, R>>, base: nat, fetch: Server<int, R>,
                        p: Poll<R>, p': Poll<R>, q: Poll<R>, reached: nat)
    requires Told(x, base, fetch, AsProgress(p), AsProgress(p')) && p'.batches == p.batches + 1
    requires if Halted(x) then y == [] && q == p' else PollTold(y, base, fetch, p', q, reached)
    ensures PollTold(x + y, base, fetch, p, q, 1 + reached)
  {
    if Halted(x) {
      assert x + [] == x;
    } else {
      ToldJoin(x, y, base, fetch, AsProgress(p), AsProgress(p'), AsProgress(q));
    }
  }

  lemma HaltedEnds<R>(x: seq<Exchange<int, R>>, base: nat, fetch: Server<int, R>, p: Poll<R>, p': Poll<R>)
    requires Told(x, base, fetch, AsProgress(p), AsProgress(p'))
    ensures Halted(x) <==> p'.wait != 0 || p'.err.Some?
  {
  }

  lemma BatchesUnfold<R>(live: seq<int>, batchSize: nat, now: int, base: nat, fetch: Server<int, R>, p: Poll<R>)
    requires batchSize >= 1 && p.wait == 0 && p.err.None? && live != []
    ensures var batch := FirstBatch(live, batchSize);
            var rest, p' := live[|batch|..], AfterBatch(batch, now, base, fetch, p);
            && Batches(live, batchSize, now, base, fetch, p) == Batches(rest, batchSize, now, base, fetch, p')
            && AskedInBatches(live, batchSize, now, base, fetch, p)
               == Asked(batch, 1 + p.extra, base + p.requests, fetch, Start()) + AskedInBatches(rest, batchSize, now, base, fetch, p')
            && p'.batches == p.batches + 1
            && (p'.wait != 0 || p'.err.Some? ==>
                  Batches(rest, batchSize, now, base, fetch, p') == p' && AskedInBatches(rest, batchSize, now, base, fetch, p') == [])
            && BatchCount(|live|, batchSize) == 1 + BatchCount(|rest|, batchSize)
  {
  }

  /** The batches, whatever the server: the poll is what was answered, and unless the last answer was a flood
      wait or an error every batch was reached. */
  lemma {:induction false} BatchesTell<R>(live: seq<int>, batchSize: nat, now: int, base: nat, fetch: Server<int, R>, p: Poll<R>)
    requires batchSize >= 1 && p.wait == 0 && p.err.None?
    ensures PollTold(AskedInBatches(live, batchSize, now, base, fetch, p), base, fetch, p,
                     Batches(live, batchSize, now, base, fetch, p), BatchCount(|live|, batchSize))
    decreases |live|
  {
    if live == [] {
      ToldNothing(base, fetch, AsProgress(p));
    } else {
      var batch := FirstBatch(live, batchSize);
      var rest, p' := live[|batch|..], AfterBatch(batch, now, base, fetch, p);
      var x := Asked(batch, 1 + p.extra, base + p.requests, fetch, Start());
      BatchTells(batch, now, base, fetch, p);
      HaltedEnds(x, base, fetch, p, p');
      BatchesUnfold(live, batchSize, now, base, fetch, p);
      if !Halted(x) {
        BatchesTell(rest, batchSize, now, base, fetch, p');
      }
      PollToldJoin(x, AskedInBatches(rest, batchSize, now, base, fetch, p'), base, fetch, p, p',
                   Batches(rest, batchSize, now, base, fetch, p'), BatchCount(|rest|, batchSize));
    }
  }

  /** The requests of a poll, in order. */
  function AskedInPoll<R>(ids: seq<int>, batchSize: nat, extra: int, until: Skips, now: int, base: nat,
                          fetch: Server<int, R>): seq<Exchange<int, R>>
    requires batchSize >= 1
  {
    AskedInBatches(Live(ids, until, now), batchSize, now, base, fetch,
                   Poll([], [], 0, None, 0, extra, 0, AfterAskingAll(ids, until, now)))
  }

  /** A poll, whatever the server answers: its results are what was got and its rejected users those rejected on
      their own; a flood wait is the last answer and is reported, for a second at least, and an error is the
      last answer and is reported. If there is neither, none is reported and every batch was reached. */
  lemma PollTells<R>(ids: seq<int>, batchSize: nat, extra: nat, until: Skips, now: int, base: nat, fetch: Server<int, R>)
    requires batchSize >= 1
    ensures var p := PollOnce(ids, batchSize, extra, until, now, base, fetch);
            var x := AskedInPoll(ids, batchSize, extra, until, now, base, fetch);
            && p.requests == |x| && Replies(x, base, fetch) && p.results == GotOf(x) && p.rejected == RejectedOf(x)
            && (forall k :: 0 <= k < |x| ==>
                  match x[k].reply
                  case FloodWait(d) => k == |x| - 1 && p.wait == Max(d, SECOND) && p.err.None?
                  case Failed(code) => code != 400 ==> k == |x| - 1 && p.err == Some(code) && p.wait == 0
                  case Got(_) => true)
            && ((forall k :: 0 <= k < |x| ==> !Halts(x[k].reply)) ==>
                  p.wait == 0 && p.err.None? && p.batches == BatchCount(|Live(ids, until, now)|, batchSize))
  {
    var start: Poll<R> := Poll([], [], 0, None, 0, extra, 0, AfterAskingAll(ids, until, now));
    BatchesTell(Live(ids, until, now), batchSize, now, base, fetch, start);
    var x := AskedInPoll(ids, batchSize, extra, until, now, base, fetch);
    assert [] + GotOf(x) == GotOf(x) && [] + RejectedOf(x) == RejectedOf(x);
  }

  // ----- Convergence over repeated polls -----

  function Filter(ids: seq<int>, keep: int -> bool): seq<int> {
    if ids == [] then [] else (if keep(ids[0]) then [ids[0]] else []) + Filter(ids[1..], keep)
  }

  /** Forgetting expired users while filtering does not change who is skipped. */
  lemma {:induction false} LiveIsFilter(ids: seq<int>, until: Skips, until': Skips, now: int)
    requires forall id :: Skipped(until, id, now) <==> Skipped(until', id, now)
    ensures Live(ids, until, now) == Filter(ids, id => !Skipped(until', id, now))
    ensures forall id, t :: now <= t ==> (Skipped(until, id, t) <==> Skipped(AfterAskingAll(ids, until, now), id, t))
  {
    if ids != [] {
      LiveIsFilter(ids[1..], AfterAsking(until, ids[0], now), until', now);
    }
  }

  lemma {:induction false} AddingAllSkips(ids: seq<int>, until: Skips, now: int, id: int, t: int)
    requires now <= t < now + BAD_USER_SKIP
    ensures Skipped(AfterAddingAll(ids, until, now), id, t) <==> id in ids || Skipped(until, id, t)
  {
    if ids != [] {
      AddingAllSkips(ids[1..], AfterAdding(until, ids[0], now), now, id, t);
    }
  }

  lemma {:induction false} BadOfMembers(ids: seq<int>, isBad: int -> bool, id: int)
    ensures id in BadOf(ids, isBad) <==> id in ids && isBad(id)
  {
    if ids != [] {
      BadOfMembers(ids[1..], isBad, id);
    }
  }

  lemma {:induction false} FilterMembers(ids: seq<int>, keep: int -> bool, id: int)
    ensures id in Filter(ids, keep) <==> id in ids && keep(id)
  {
    if ids != [] {
      FilterMembers(ids[1..], keep, id);
    }
  }

  predicate AllBad(found: seq<int>, asked: seq<int>, isBad: int -> bool) {
    forall id <- found :: id in asked && isBad(id)
  }

  lemma AllBadConcat(found: seq<int>, more: seq<int>, batch: seq<int>, rest: seq<int>, live: seq<int>, isBad: int -> bool)
    requires AllBad(found, batch, isBad) && AllBad(more, rest, isBad) && live == batch + rest
    ensures AllBad(found + more, live, isBad)
  {
  }

  lemma BatchHonest<R(!new)>(batch: seq<int>, budget: nat, base: nat, fetch: Server<int, R>, isBad: int -> bool,
                             per: int -> seq<R>)
    requires Honest(fetch, isBad, per) && batch != [] && budget >= 1
    ensures var s := Isolate(batch, budget, base, fetch);
            && s.wait == 0 && s.err.None? && 1 <= s.requests <= budget
            && AllBad(s.bad, batch, isBad)
            && (BadOf(batch, isBad) == [] ==> s.requests == 1 && s.bad == [] && s.results == Answers(batch, isBad, per))
  {
    var s := Isolate(batch, budget, base, fetch);
    assert s.wait == 0 && s.err.None? by {
      RunQuiet(batch, budget, base, fetch, isBad, per, Start());
    }
    assert 1 <= s.requests <= budget by {
      RunStops(batch, budget, base, fetch, Start());
    }
    var decided := RunDecidesPrefix(batch, budget, base, fetch, isBad, per, Start());
    var first := batch[..decided];
    assert s.bad == BadOf(first, isBad) && s.results == Answers(first, isBad, per) by {
      assert [] + BadOf(first, isBad) == BadOf(first, isBad);
      assert [] + Answers(first, isBad, per) == Answers(first, isBad, per);
    }
    forall id | id in s.bad
      ensures id in batch && isBad(id)
    {
      BadOfMembers(first, isBad, id);
    }
    if BadOf(batch, isBad) == [] {
      RunAffordable(batch, budget, base, fetch, isBad, per, Start());
      assert first == batch;
    }
  }

  /** A poll went from `p` to `q` without a flood or an error, and rejected and skips `found` in addition. */
  predicate Rejects<R>(p: Poll<R>, q: Poll<R>, found: seq<int>, now: int) {
    q.wait == 0 && q.err.None? && q.rejected == p.rejected + found && q.until == AfterAddingAll(found, p.until, now)
  }

  lemma RejectsJoin<R>(p: Poll<R>, p': Poll<R>, q: Poll<R>, bad: seq<int>, more: seq<int>, now: int)
    requires Rejects(p, p', bad, now) && Rejects(p', q, more, now)
    ensures Rejects(p, q, bad + more, now)
  {
    SeqAssociative(p.rejected, bad, more);
    AfterAddingAllConcat(bad, more, p.until, now);
  }

  /** One batch against an honest server. */
  lemma BatchRejects<R(!new)>(
      batch: seq<int>, now: int, base: nat, fetch: Server<int, R>, isBad: int -> bool, per: int -> seq<R>, p: Poll<R>)
    returns (bad: seq<int>)
    requires Honest(fetch, isBad, per) && batch != [] && p.extra >= 0
    ensures var p' := AfterBatch(batch, now, base, fetch, p);
            Rejects(p, p', bad, now) && p'.extra >= 0
    ensures AllBad(bad, batch, isBad)
  {
    BatchHonest(batch, 1 + p.extra, base + p.requests, fetch, isBad, per);
    bad := Isolate(batch, 1 + p.extra, base + p.requests, fetch).bad;
  }

  /** Against an honest server no poll floods or fails, and who it rejects is bad and was asked about. */
  lemma {:induction false} BatchesReject<R(!new)>(
      live: seq<int>, batchSize: nat, now: int, base: nat, fetch: Server<int, R>, isBad: int -> bool,
      per: int -> seq<R>, p: Poll<R>)
    returns (found: seq<int>)
    requires batchSize >= 1 && Honest(fetch, isBad, per) && p.wait == 0 && p.err.None? && p.extra >= 0
    ensures Rejects(p, Batches(live, batchSize, now, base, fetch, p), found, now)
    ensures AllBad(found, live, isBad)
    decreases |live|
  {
    if live == [] {
      found := [];
      assert p.rejected + [] == p.rejected;
    } else {
      var batch := FirstBatch(live, batchSize);
      var rest := live[|batch|..];
      var bad := BatchRejects(batch, now, base, fetch, isBad, per, p);
      var p' := AfterBatch(batch, now, base, fetch, p);
      var more := BatchesReject(rest, batchSize, now, base, fetch, isBad, per, p');
      found := bad + more;
      RejectsJoin(p, p', Batches(rest, batchSize, now, base, fetch, p'), bad, more, now);
      assert live == batch + rest;
      AllBadConcat(bad, more, batch, rest, live, isBad);
    }
  }

  /** A batch without bad users costs nothing extra. */
  lemma BatchPasses<R(!new)>(
      batch: seq<int>, now: int, base: nat, fetch: Server<int, R>, isBad: int -> bool, per: int -> seq<R>, p: Poll<R>)
    requires Honest(fetch, isBad, per) && batch != [] && BadOf(batch, isBad) == [] && p.extra >= 0
    ensures var p' := AfterBatch(batch, now, base, fetch, p);
            && p'.wait == 0 && p'.err.None? && p'.extra == p.extra && p'.rejected == p.rejected
            && p'.results == p.results + Answers(batch, isBad, per)
  {
    BatchHonest(batch, 1 + p.extra, base + p.requests, fetch, isBad, per);
    assert p.rejected + [] == p.rejected;
  }

  /** With no bad users among them everyone is answered, in order. */
  lemma {:induction false} BatchesClean<R(!new)>(
      live: seq<int>, batchSize: nat, now: int, base: nat, fetch: Server<int, R>, isBad: int -> bool,
      per: int -> seq<R>, p: Poll<R>)
    requires batchSize >= 1 && Honest(fetch, isBad, per) && p.wait == 0 && p.err.None? && p.extra >= 0
    requires BadOf(live, isBad) == []
    ensures Batches(live, batchSize, now, base, fetch, p).results == p.results + Answers(live, isBad, per)
    decreases |live|
  {
    assert p.results + [] == p.results;
    if live != [] {
      var batch := FirstBatch(live, batchSize);
      var rest := live[|batch|..];
      assert live == batch + rest;
      BadOfConcat(batch, rest, isBad);
      BatchPasses(batch, now, base, fetch, isBad, per, p);
      var p' := AfterBatch(batch, now, base, fetch, p);
      BatchesClean(rest, batchSize, now, base, fetch, isBad, per, p');
      AnswersConcat(batch, rest, isBad, per);
      SeqAssociative(p.results, Answers(batch, isBad, per), Answers(rest, isBad, per));
    }
  }

  lemma BatchFinds<R(!new)>(
      batch: seq<int>, batchSize: nat, now: int, base: nat, fetch: Server<int, R>, isBad: int -> bool,
      per: int -> seq<R>, p: Poll<R>)
    requires Honest(fetch, isBad, per) && |batch| <= batchSize && BadOf(batch, isBad) != []
    requires p.extra >= 2 * CeilLog2(batchSize)
    ensures |AfterBatch(batch, now, base, fetch, p).rejected| > |p.rejected|
  {
    CeilLog2Monotone(|batch|, batchSize);
    RunFindsOne(batch, 1 + p.extra, base + p.requests, fetch, isBad, per, Start());
  }

  /** With room to find one bad user, a bad user among them is found. */
  lemma {:induction false} BatchesFind<R(!new)>(
      live: seq<int>, batchSize: nat, now: int, base: nat, fetch: Server<int, R>, isBad: int -> bool,
      per: int -> seq<R>, p: Poll<R>)
    requires batchSize >= 1 && Honest(fetch, isBad, per) && p.wait == 0 && p.err.None?
    requires BadOf(live, isBad) != [] && p.extra >= 2 * CeilLog2(batchSize)
    ensures |Batches(live, batchSize, now, base, fetch, p).rejected| > |p.rejected|
    decreases |live|
  {
    var batch := FirstBatch(live, batchSize);
    var rest := live[|batch|..];
    var p' := AfterBatch(batch, now, base, fetch, p);
    if BadOf(batch, isBad) != [] {
      BatchFinds(batch, batchSize, now, base, fetch, isBad, per, p);
      var _ := BatchRejects(batch, now, base, fetch, isBad, per, p);
      var _ := BatchesReject(rest, batchSize, now, base, fetch, isBad, per, p');
    } else {
      assert BadOf(rest, isBad) != [] by {
        assert live == batch + rest;
        BadOfConcat(batch, rest, isBad);
      }
      BatchPasses(batch, now, base, fetch, isBad, per, p);
      BatchesFind(rest, batchSize, now, base, fetch, isBad, per, p');
    }
  }

  lemma {:induction false} AfterAddingAllConcat(a: seq<int>, b: seq<int>, until: Skips, now: int)
    ensures AfterAddingAll(a + b, until, now) == AfterAddingAll(b, AfterAddingAll(a, until, now), now)
  {
    if a == [] {
      assert a + b == b;
    } else {
      assert (a + b)[0] == a[0] && (a + b)[1..] == a[1..] + b;
      AfterAddingAllConcat(a[1..], b, AfterAdding(until, a[0], now), now);
    }
  }

  /** A poll against an honest server with room to find one bad user: either every good user is
      answered and no one is rejected, or someone who was not skipped is, and is skipped from then on. */
  lemma PollProgress<R(!new)>(
      ids: seq<int>, batchSize: nat, extra: nat, until: Skips, now: int, base: nat, fetch: Server<int, R>,
      isBad: int -> bool, per: int -> seq<R>)
    requires batchSize >= 1 && Honest(fetch, isBad, per) && extra >= 2 * CeilLog2(batchSize)
    requires OnlyBadSkipped(until, isBad, now, now)
    ensures var p := PollOnce(ids, batchSize, extra, until, now, base, fetch);
            && p.wait == 0 && p.err.None?
            && (forall id <- p.rejected :: id in ids && isBad(id) && !Skipped(until, id, now))
            && (forall id, t :: now <= t < now + BAD_USER_SKIP ==>
                  (Skipped(p.until, id, t) <==> id in p.rejected || Skipped(until, id, t)))
            && (p.rejected == [] ==> p.results == Answers(ids, isBad, per)
                                     && forall id <- ids :: isBad(id) ==> Skipped(until, id, now))
  {
    var live := Live(ids, until, now);
    var keep := id => !Skipped(until, id, now);
    LiveIsFilter(ids, until, until, now);
    var start: Poll<R> := Poll([], [], 0, None, 0, extra, 0, AfterAskingAll(ids, until, now));
    var p := PollOnce(ids, batchSize, extra, until, now, base, fetch);
    var found := BatchesReject(live, batchSize, now, base, fetch, isBad, per, start);
    assert p.rejected == found;
    forall id | id in p.rejected
      ensures id in ids && isBad(id) && !Skipped(until, id, now)
    {
      FilterMembers(ids, keep, id);
    }
    forall id, t | now <= t < now + BAD_USER_SKIP
      ensures Skipped(p.until, id, t) <==> id in p.rejected || Skipped(until, id, t)
    {
      AddingAllSkips(p.rejected, start.until, now, id, t);
    }
    if p.rejected == [] {
      if BadOf(live, isBad) != [] {
        BatchesFind(live, batchSize, now, base, fetch, isBad, per, start);
      }
      BatchesClean(live, batchSize, now, base, fetch, isBad, per, start);
      assert [] + Answers(live, isBad, per) == Answers(live, isBad, per);
      AnswersOfKept(ids, keep, isBad, per);
      forall id | id in ids && isBad(id)
        ensures Skipped(until, id, now)
      {
        FilterMembers(ids, keep, id);
        BadOfMembers(live, isBad, id);
      }
    }
  }

  lemma {:induction false} AnswersOfKept<R>(ids: seq<int>, keep: int -> bool, isBad: int -> bool, per: int -> seq<R>)
    requires forall id :: !keep(id) ==> isBad(id)
    ensures Answers(Filter(ids, keep), isBad, per) == Answers(ids, isBad, per)
  {
    if ids != [] {
      AnswersOfKept(ids[1..], keep, isBad, per);
      var rest := Filter(ids[1..], keep);
      if keep(ids[0]) {
        assert ([ids[0]] + rest)[1..] == rest;
      } else {
        assert [] + rest == rest;
      }
    }
  }

  /** The outcome of a poll at each of the given times, each on the skip list the one before left. */
  function Polls<R>(times: seq<int>, ids: seq<int>, batchSize: nat, extra: int, until: Skips, fetch: Server<int, R>)
    : seq<Poll<R>>
    requires batchSize >= 1
  {
    if times == [] then []
    else
      var p := PollOnce(ids, batchSize, extra, until, times[0], 0, fetch);
      [p] + Polls(times[1..], ids, batchSize, extra, p.until, fetch)
  }

  /** Poll times in order and none after `last`. */
  predicate Ascending(times: seq<int>, last: int) {
    && (forall i :: 0 <= i < |times| ==> times[i] <= last)
    && (forall i, j :: 0 <= i < j < |times| ==> times[i] <= times[j])
  }

  /** Only bad users are skipped from `now` to `last`. */
  ghost predicate OnlyBadSkipped(until: Skips, isBad: int -> bool, now: int, last: int) {
    forall id, t :: now <= t <= last && Skipped(until, id, t) ==> isBad(id)
  }

  /** Every bad user asked about, other than the `unfound` ones, is skipped from `now` to `last`. */
  ghost predicate OthersSkipped(until: Skips, ids: seq<int>, isBad: int -> bool, unfound: set<int>, now: int, last: int) {
    forall id, t :: now <= t <= last && id in ids && isBad(id) && id !in unfound ==> Skipped(until, id, t)
  }

  /** No bad user asked about stops being skipped before `last`. */
  ghost predicate SkipsLast(until: Skips, ids: seq<int>, isBad: int -> bool, now: int, last: int) {
    forall id, t :: now <= t <= last && id in ids && isBad(id) && Skipped(until, id, now) ==> Skipped(until, id, t)
  }

  /** The poll rejected no one and returned every good user. */
  predicate IsClean<R(==)>(p: Poll<R>, ids: seq<int>, isBad: int -> bool, per: int -> seq<R>) {
    p.rejected == [] && p.results == Answers(ids, isBad, per)
  }

  function StillUnfound(unfound: set<int>, rejected: seq<int>): set<int> {
    set id | id in unfound && id !in rejected
  }

  /** After a poll the skip list is what the next one may start from. */
  lemma PollKeepsSkips<R(!new)>(
      now: int, next: int, ids: seq<int>, batchSize: nat, extra: nat, until: Skips, fetch: Server<int, R>,
      isBad: int -> bool, per: int -> seq<R>, unfound: set<int>, last: int)
    requires batchSize >= 1 && Honest(fetch, isBad, per) && extra >= 2 * CeilLog2(batchSize)
    requires now <= next <= last < now + BAD_USER_SKIP
    requires OnlyBadSkipped(until, isBad, now, last) && OthersSkipped(until, ids, isBad, unfound, now, last)
    ensures var p := PollOnce(ids, batchSize, extra, until, now, 0, fetch);
            && OnlyBadSkipped(p.until, isBad, next, last)
            && OthersSkipped(p.until, ids, isBad, StillUnfound(unfound, p.rejected), next, last)
            && (SkipsLast(until, ids, isBad, now, last) ==> SkipsLast(p.until, ids, isBad, next, last))
            && (SkipsLast(until, ids, isBad, now, last) && p.rejected == [] ==>
                  OthersSkipped(p.until, ids, isBad, {}, next, last))
  {
    PollProgress(ids, batchSize, extra, until, now, 0, fetch, isBad, per);
  }

  /** A poll is clean or leaves fewer to find. */
  lemma PollFinds<R(!new)>(
      now: int, ids: seq<int>, batchSize: nat, extra: nat, until: Skips, fetch: Server<int, R>,
      isBad: int -> bool, per: int -> seq<R>, unfound: set<int>, last: int)
    requires batchSize >= 1 && Honest(fetch, isBad, per) && extra >= 2 * CeilLog2(batchSize) && now <= last
    requires OnlyBadSkipped(until, isBad, now, last) && OthersSkipped(until, ids, isBad, unfound, now, last)
    ensures var p := PollOnce(ids, batchSize, extra, until, now, 0, fetch);
            if p.rejected == [] then IsClean(p, ids, isBad, per)
            else |StillUnfound(unfound, p.rejected)| < |unfound|
  {
    PollProgress(ids, batchSize, extra, until, now, 0, fetch, isBad, per);
    var rejected := PollOnce(ids, batchSize, extra, until, now, 0, fetch).rejected;
    if rejected != [] {
      var found := rejected[0];
      var left := StillUnfound(unfound, rejected);
      assert found in rejected && found in unfound && found !in left;
      SubsetSmaller(left, unfound);
    }
  }

  lemma PollIsClean<R(!new)>(
      now: int, ids: seq<int>, batchSize: nat, extra: nat, until: Skips, fetch: Server<int, R>,
      isBad: int -> bool, per: int -> seq<R>, last: int)
    requires batchSize >= 1 && Honest(fetch, isBad, per) && extra >= 2 * CeilLog2(batchSize) && now <= last
    requires OnlyBadSkipped(until, isBad, now, last) && OthersSkipped(until, ids, isBad, {}, now, last)
    ensures IsClean(PollOnce(ids, batchSize, extra, until, now, 0, fetch), ids, isBad, per)
  {
    PollFinds(now, ids, batchSize, extra, until, fetch, isBad, per, {}, last);
  }

  /** Once every bad user asked about is skipped until `last`, all polls up to then are clean. */
  lemma {:induction false} PollsStayClean<R(!new)>(
      times: seq<int>, ids: seq<int>, batchSize: nat, extra: nat, until: Skips, fetch: Server<int, R>,
      isBad: int -> bool, per: int -> seq<R>, last: int)
    requires batchSize >= 1 && Honest(fetch, isBad, per) && extra >= 2 * CeilLog2(batchSize)
    requires Ascending(times, last) && (times != [] ==> last < times[0] + BAD_USER_SKIP)
    requires times != [] ==> OnlyBadSkipped(until, isBad, times[0], last)
    requires times != [] ==> OthersSkipped(until, ids, isBad, {}, times[0], last)
    ensures var polls := Polls(times, ids, batchSize, extra, until, fetch);
            |polls| == |times| && forall i :: 0 <= i < |polls| ==> IsClean(polls[i], ids, isBad, per)
  {
    if times != [] {
      PollIsClean(times[0], ids, batchSize, extra, until, fetch, isBad, per, last);
      var p := PollOnce(ids, batchSize, extra, until, times[0], 0, fetch);
      if |times| > 1 {
        PollKeepsSkips(times[0], times[1], ids, batchSize, extra, until, fetch, isBad, per, {}, last);
      }
      PollsStayClean(times[1..], ids, batchSize, extra, p.until, fetch, isBad, per, last);
    }
  }

  /** Over polls inside one skip period every poll that meets an unskipped bad user finds a new one, so
      with K of them left some poll among the next K + 1 rejects no one and returns every good user. If those
      skipped already stay skipped, so do all later polls in the period. */
  lemma {:induction false} PollsConverge<R(!new)>(
      times: seq<int>, ids: seq<int>, batchSize: nat, extra: nat, until: Skips, fetch: Server<int, R>,
      isBad: int -> bool, per: int -> seq<R>, unfound: set<int>, last: int)
    returns (clean: nat)
    requires batchSize >= 1 && Honest(fetch, isBad, per) && extra >= 2 * CeilLog2(batchSize)
    requires |times| > |unfound| && Ascending(times, last) && last < times[0] + BAD_USER_SKIP
    requires OnlyBadSkipped(until, isBad, times[0], last)
    requires OthersSkipped(until, ids, isBad, unfound, times[0], last)
    ensures clean <= |unfound|
    ensures var polls := Polls(times, ids, batchSize, extra, until, fetch);
            && |polls| == |times| && IsClean(polls[clean], ids, isBad, per)
            && (SkipsLast(until, ids, isBad, times[0], last) ==>
                  forall i :: clean <= i < |polls| ==> IsClean(polls[i], ids, isBad, per))
    decreases times
  {
    var now, rest := times[0], times[1..];
    var p := PollOnce(ids, batchSize, extra, until, now, 0, fetch);
    PollFinds(now, ids, batchSize, extra, until, fetch, isBad, per, unfound, last);
    PollsLength(times, ids, batchSize, extra, until, fetch);
    if rest != [] {
      PollKeepsSkips(now, rest[0], ids, batchSize, extra, until, fetch, isBad, per, unfound, last);
    }
    if p.rejected == [] {
      clean := 0;
      if SkipsLast(until, ids, isBad, now, last) {
        PollsStayClean(rest, ids, batchSize, extra, p.until, fetch, isBad, per, last);
      }
      return;
    }
    var left := StillUnfound(unfound, p.rejected);
    clean := PollsConverge(rest, ids, batchSize, extra, p.until, fetch, isBad, per, left, last);
    clean := 1 + clean;
  }

  /** From an empty skip list: with K bad users among the ids, one of the first K + 1 polls is clean and so
      are all after it inside the skip period. */
  lemma FreshPollsConverge<R(!new)>(
      times: seq<int>, ids: seq<int>, batchSize: nat, extra: nat, fetch: Server<int, R>,
      isBad: int -> bool, per: int -> seq<R>)
    returns (clean: nat)
    requires batchSize >= 1 && Honest(fetch, isBad, per) && extra >= 2 * CeilLog2(batchSize)
    requires |times| > |set id | id in ids && isBad(id)|
    requires Ascending(times, times[|times| - 1]) && times[|times| - 1] < times[0] + BAD_USER_SKIP
    ensures clean <= |set id | id in ids && isBad(id)|
    ensures var polls := Polls(times, ids, batchSize, extra, map[], fetch);
            |polls| == |times| && forall i :: clean <= i < |polls| ==> IsClean(polls[i], ids, isBad, per)
  {
    var bad := set id | id in ids && isBad(id);
    clean := PollsConverge(times, ids, batchSize, extra, map[], fetch, isBad, per, bad, times[|times| - 1]);
  }

  lemma {:induction false} PollsLength<R>(times: seq<int>, ids: seq<int>, batchSize: nat, extra: int, until: Skips, fetch: Server<int, R>)
    requires batchSize >= 1
    ensures |Polls(times, ids, batchSize, extra, until, fetch)| == |times|
  {
    if times != [] {
      PollsLength(times[1..], ids, batchSize, extra, PollOnce(ids, batchSize, extra, until, times[0], 0, fetch).until, fetch);
    }
  }
}
