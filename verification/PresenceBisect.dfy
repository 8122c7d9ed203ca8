/** Asking Telegram about many users when one bad input fails the whole request: batches are split
    down to the bad inputs, within a request budget, and the bad users are skipped for a while. */
module PresenceBisect {
  import opened Basics

  const SECOND: int := 1_000_000_000
  const BAD_USER_SKIP: int := 3600 * SECOND

  /** How Telegram answers one request. Error code 400 means it rejected the inputs. */
  datatype Reply<R> = Got(results: seq<R>) | FloodWait(duration: int) | Failed(code: int)

  predicate RejectsInput<R>(reply: Reply<R>) {
    reply.Failed? && reply.code == 400
  }

  /** The server: its answer may depend on how many requests came before. */
  type Server<!T, !R> = (nat, seq<T>) -> Reply<R>

  datatype Progress<T, R> = Progress(requests: nat, results: seq<R>, bad: seq<T>, wait: int, err: Option<int>)

  /** One run over a chunk: whether it got through, and the progress after it. `base` counts the
      requests made before this run of the algorithm. */
  function Run<T, R>(chunk: seq<T>, budget: int, base: nat, fetch: Server<T, R>, s: Progress<T, R>)
    : (bool, Progress<T, R>)
    decreases |chunk|
  {
    if chunk == [] then (true, s)
    else if s.requests >= budget then (false, s)
    else
      var reply := fetch(base + s.requests, chunk);
      var s1 := s.(requests := s.requests + 1);
      if reply.Got? then (true, s1.(results := s1.results + reply.results))
      else if reply.FloodWait? then (false, s1.(wait := Max(reply.duration, SECOND)))
      else if !RejectsInput(reply) then (false, s1.(err := Some(reply.code)))
      else if |chunk| == 1 then (true, s1.(bad := s1.bad + [chunk[0]]))
      else
        var mid := |chunk| / 2;
        var (ok, s2) := Run(chunk[..mid], budget, base, fetch, s1);
        if ok then Run(chunk[mid..], budget, base, fetch, s2) else (false, s2)
  }

  function Start<T, R>(): Progress<T, R> {
    Progress(0, [], [], 0, None)
  }

  function Isolate<T, R>(items: seq<T>, budget: int, base: nat, fetch: Server<T, R>): Progress<T, R> {
    Run(items, budget, base, fetch, Start()).1
  }

  /** The variables the recursive closure of `fetchIsolatingBad` updates. */
  class Isolation<T, R> {
    const budget: int
    const base: nat
    const fetch: Server<T, R>
    var requests: nat
    var results: seq<R>
    var bad: seq<T>
    var wait: int
    var err: Option<int>

    function State(): Progress<T, R>
      reads this
    {
      Progress(requests, results, bad, wait, err)
    }

    constructor (budget: int, base: nat, fetch: Server<T, R>)
      ensures State() == Start() && this.budget == budget && this.base == base && this.fetch == fetch
    {
      this.budget, this.base, this.fetch := budget, base, fetch;
      requests, results, bad, wait, err := 0, [], [], 0, None;
    }

    method RunChunk(chunk: seq<T>) returns (ok: bool)
      modifies this
      ensures (ok, State()) == Run(chunk, budget, base, fetch, old(State()))
      decreases |chunk|
    {
      if |chunk| == 0 {
        return true;
      }
      if requests >= budget {
        return false;
      }
      var reply := fetch(base + requests, chunk);
      requests := requests + 1;
      if reply.Got? {
        results := results + reply.results;
        return true;
      }
      if reply.FloodWait? {
        wait := Max(reply.duration, SECOND);
        return false;
      }
      if !RejectsInput(reply) {
        err := Some(reply.code);
        return false;
      }
      if |chunk| == 1 {
        bad := bad + [chunk[0]];
        return true;
      }
      var mid := |chunk| / 2;
      ok := RunChunk(chunk[..mid]);
      if ok {
        ok := RunChunk(chunk[mid..]);
      }
    }
  }

  method FetchIsolatingBad<T, R>(items: seq<T>, budget: int, base: nat, fetch: Server<T, R>)
    returns (results: seq<R>, bad: seq<T>, wait: int, err: Option<int>, requests: nat)
    ensures Progress(requests, results, bad, wait, err) == Isolate(items, budget, base, fetch)
  {
    var isolation := new Isolation(budget, base, fetch);
    var _ := isolation.RunChunk(items);
    return isolation.results, isolation.bad, isolation.wait, isolation.err, isolation.requests;
  }

  // ----- What the items deserve -----

  function BadOf<T>(items: seq<T>, isBad: T -> bool): seq<T> {
    if items == [] then []
    else (if isBad(items[0]) then [items[0]] else []) + BadOf(items[1..], isBad)
  }

  /** The answers about the good items, in input order; `per` gives the answers about one item. */
  function Answers<T, R>(items: seq<T>, isBad: T -> bool, per: T -> seq<R>): seq<R> {
    if items == [] then []
    else (if isBad(items[0]) then [] else per(items[0])) + Answers(items[1..], isBad, per)
  }

  lemma {:induction false} BadOfConcat<T>(a: seq<T>, b: seq<T>, isBad: T -> bool)
    ensures BadOf(a + b, isBad) == BadOf(a, isBad) + BadOf(b, isBad)
  {
    if a == [] {
      assert a + b == b;
    } else {
      assert (a + b)[0] == a[0] && (a + b)[1..] == a[1..] + b;
      BadOfConcat(a[1..], b, isBad);
      var head := if isBad(a[0]) then [a[0]] else [];
      assert head + (BadOf(a[1..], isBad) + BadOf(b, isBad)) == head + BadOf(a[1..], isBad) + BadOf(b, isBad);
    }
  }

  lemma {:induction false} AnswersConcat<T, R>(a: seq<T>, b: seq<T>, isBad: T -> bool, per: T -> seq<R>)
    ensures Answers(a + b, isBad, per) == Answers(a, isBad, per) + Answers(b, isBad, per)
  {
    if a == [] {
      assert a + b == b;
    } else {
      assert (a + b)[0] == a[0] && (a + b)[1..] == a[1..] + b;
      AnswersConcat(a[1..], b, isBad, per);
      var head := if isBad(a[0]) then [] else per(a[0]);
      assert head + (Answers(a[1..], isBad, per) + Answers(b, isBad, per))
          == head + Answers(a[1..], isBad, per) + Answers(b, isBad, per);
    }
  }

  lemma SeqAssociative<T>(a: seq<T>, b: seq<T>, c: seq<T>)
    ensures a + b + c == a + (b + c)
  {
  }

  lemma DecidedConcat<T, R>(a: seq<T>, b: seq<T>, all: seq<T>, isBad: T -> bool, per: T -> seq<R>,
                            results: seq<R>, bad: seq<T>)
    requires all == a + b
    ensures results + Answers(a, isBad, per) + Answers(b, isBad, per) == results + Answers(all, isBad, per)
    ensures bad + BadOf(a, isBad) + BadOf(b, isBad) == bad + BadOf(all, isBad)
  {
    assert results + Answers(a, isBad, per) + Answers(b, isBad, per) == results + Answers(all, isBad, per) by {
      AnswersConcat(a, b, isBad, per);
      SeqAssociative(results, Answers(a, isBad, per), Answers(b, isBad, per));
    }
    assert bad + BadOf(a, isBad) + BadOf(b, isBad) == bad + BadOf(all, isBad) by {
      BadOfConcat(a, b, isBad);
      SeqAssociative(bad, BadOf(a, isBad), BadOf(b, isBad));
    }
  }

  /** The server never lies about a fixed set of bad items, though it may flood or fail at any time. */
  ghost predicate Truthful<T(!new), R(!new)>(fetch: Server<T, R>, isBad: T -> bool, per: T -> seq<R>) {
    forall n: nat, chunk: seq<T> :: TruthfulAt(fetch, isBad, per, n, chunk)
  }

  predicate TruthfulAt<T, R(==)>(fetch: Server<T, R>, isBad: T -> bool, per: T -> seq<R>, n: nat, chunk: seq<T>) {
    chunk != [] ==> TruthfulReply(fetch(n, chunk), chunk, isBad, per)
  }

  predicate TruthfulReply<T, R(==)>(reply: Reply<R>, chunk: seq<T>, isBad: T -> bool, per: T -> seq<R>) {
    && (reply.Got? ==> BadOf(chunk, isBad) == [] && reply.results == Answers(chunk, isBad, per))
    && (RejectsInput(reply) ==> BadOf(chunk, isBad) != [])
  }

  /** A truthful server that answers every request. */
  ghost predicate Honest<T(!new), R(!new)>(fetch: Server<T, R>, isBad: T -> bool, per: T -> seq<R>) {
    && Truthful(fetch, isBad, per)
    && forall n: nat, chunk: seq<T> :: AnsweredAt(fetch, n, chunk)
  }

  predicate AnsweredAt<T, R>(fetch: Server<T, R>, n: nat, chunk: seq<T>) {
    chunk != [] ==> fetch(n, chunk).Got? || RejectsInput(fetch(n, chunk))
  }

  /** `s'` adds to `s` the results of the good items of `items` and its bad items, in order. */
  predicate Decided<T(==), R(==)>(items: seq<T>, isBad: T -> bool, per: T -> seq<R>, s: Progress<T, R>, s': Progress<T, R>) {
    s'.results == s.results + Answers(items, isBad, per) && s'.bad == s.bad + BadOf(items, isBad)
  }

  /** A run keeps to the budget, and it stops before the end only out of budget, on a flood wait or on
      an error, of which at most one is reported. */
  predicate Stopped<T, R>(ok: bool, budget: int, s: Progress<T, R>, s': Progress<T, R>) {
    && s.requests <= s'.requests <= Max(budget, s.requests)
    && (ok ==> s'.wait == 0 && s'.err.None?)
    && (!ok ==> || (s'.wait == 0 && s'.err.None? && s'.requests >= budget)
                || (s'.wait >= SECOND && s'.err.None?)
                || (s'.wait == 0 && s'.err.Some?))
  }

  /** Whatever the server answers. */
  lemma {:induction false} RunStops<T, R>(chunk: seq<T>, budget: int, base: nat, fetch: Server<T, R>, s: Progress<T, R>)
    requires s.wait == 0 && s.err.None?
    ensures var (ok, s') := Run(chunk, budget, base, fetch, s); Stopped(ok, budget, s, s')
    ensures chunk != [] && s.requests < budget ==> Run(chunk, budget, base, fetch, s).1.requests > s.requests
    decreases |chunk|
  {
    if |chunk| >= 2 && s.requests < budget && RejectsInput(fetch(base + s.requests, chunk)) {
      var left, right := chunk[..|chunk| / 2], chunk[|chunk| / 2..];
      var s1 := s.(requests := s.requests + 1);
      RunStops(left, budget, base, fetch, s1);
      var (ok, s2) := Run(left, budget, base, fetch, s1);
      if ok {
        RunStops(right, budget, base, fetch, s2);
      }
    }
  }

  /** A rejected batch: one run over each half, the second only if the first got through. */
  lemma RunSplits<T, R>(chunk: seq<T>, budget: int, base: nat, fetch: Server<T, R>, s: Progress<T, R>)
    requires |chunk| >= 2 && s.requests < budget && RejectsInput(fetch(base + s.requests, chunk))
    ensures var (ok, s2) := Run(chunk[..|chunk| / 2], budget, base, fetch, s.(requests := s.requests + 1));
            Run(chunk, budget, base, fetch, s)
            == if ok then Run(chunk[|chunk| / 2..], budget, base, fetch, s2) else (false, s2)
  {
  }

  /** The cases of a run that do not split. */
  lemma RunUnsplit<T(!new), R(!new)>(
      chunk: seq<T>, budget: int, base: nat, fetch: Server<T, R>, isBad: T -> bool, per: T -> seq<R>,
      s: Progress<T, R>)
    requires Truthful(fetch, isBad, per)
    requires chunk == [] || s.requests >= budget || |chunk| == 1 || !RejectsInput(fetch(base + s.requests, chunk))
    ensures var (ok, s') := Run(chunk, budget, base, fetch, s);
            Decided(if ok then chunk else [], isBad, per, s, s')
  {
    assert s.results + [] == s.results && s.bad + [] == s.bad;
    if chunk != [] && s.requests < budget {
      var reply := fetch(base + s.requests, chunk);
      assert TruthfulAt(fetch, isBad, per, base + s.requests, chunk);
      if |chunk| == 1 {
        assert BadOf(chunk[1..], isBad) == [];
        assert isBad(chunk[0]) ==> Answers(chunk, isBad, per) == [] + Answers(chunk[1..], isBad, per) == [];
      }
    }
  }

  /** Cut short or not, what a run decided is exactly a prefix of its chunk. */
  lemma {:induction false} RunDecidesPrefix<T(!new), R(!new)>(
      chunk: seq<T>, budget: int, base: nat, fetch: Server<T, R>, isBad: T -> bool, per: T -> seq<R>,
      s: Progress<T, R>)
    returns (decided: nat)
    requires Truthful(fetch, isBad, per)
    ensures var (ok, s') := Run(chunk, budget, base, fetch, s);
            && decided <= |chunk| && (ok <==> decided == |chunk|)
            && Decided(chunk[..decided], isBad, per, s, s')
    decreases |chunk|
  {
    if chunk == [] || s.requests >= budget || |chunk| == 1 || !RejectsInput(fetch(base + s.requests, chunk)) {
      RunUnsplit(chunk, budget, base, fetch, isBad, per, s);
      decided := if Run(chunk, budget, base, fetch, s).0 then |chunk| else 0;
      assert chunk[..0] == [] && chunk[..|chunk|] == chunk;
      return;
    }
    var s1 := s.(requests := s.requests + 1);
    var mid := |chunk| / 2;
    var left, right := chunk[..mid], chunk[mid..];
    RunSplits(chunk, budget, base, fetch, s);
    decided := RunDecidesPrefix(left, budget, base, fetch, isBad, per, s1);
    var (ok, s2) := Run(left, budget, base, fetch, s1);
    if ok {
      var more := RunDecidesPrefix(right, budget, base, fetch, isBad, per, s2);
      var (_, s3) := Run(right, budget, base, fetch, s2);
      assert Decided(chunk[..mid + more], isBad, per, s1, s3) by {
        assert left[..decided] == left && chunk[..mid + more] == left + right[..more];
        DecidedJoin(left, right[..more], chunk[..mid + more], isBad, per, s1, s2, s3);
      }
      decided := mid + more;
    } else {
      assert left[..decided] == chunk[..decided];
    }
  }

  lemma DecidedJoin<T, R>(a: seq<T>, b: seq<T>, all: seq<T>, isBad: T -> bool, per: T -> seq<R>,
                          s: Progress<T, R>, s1: Progress<T, R>, s2: Progress<T, R>)
    requires Decided(a, isBad, per, s, s1) && Decided(b, isBad, per, s1, s2) && all == a + b
    ensures Decided(all, isBad, per, s, s2)
  {
    DecidedConcat(a, b, all, isBad, per, s.results, s.bad);
  }

  /** The promise when cut short: a prefix is decided, the budget is kept, and the reason is told. */
  lemma IsolateCutShort<T(!new), R(!new)>(
      items: seq<T>, budget: nat, base: nat, fetch: Server<T, R>, isBad: T -> bool, per: T -> seq<R>)
    returns (decided: nat)
    requires Truthful(fetch, isBad, per)
    ensures var s := Isolate(items, budget, base, fetch);
            && decided <= |items|
            && s.results == Answers(items[..decided], isBad, per) && s.bad == BadOf(items[..decided], isBad)
            && s.requests <= budget && (s.wait == 0 || (s.wait >= SECOND && s.err.None?))
            && (decided == |items| ==> s.wait == 0 && s.err.None?)
            && (decided < |items| ==> s.wait > 0 || s.err.Some? || s.requests == budget)
  {
    decided := RunDecidesPrefix(items, budget, base, fetch, isBad, per, Start());
    RunStops(items, budget, base, fetch, Start());
    assert [] + Answers(items[..decided], isBad, per) == Answers(items[..decided], isBad, per);
    assert [] + BadOf(items[..decided], isBad) == BadOf(items[..decided], isBad);
  }

  // ----- What was answered, whatever the server -----

  /** One request and its reply. */
  datatype Exchange<T, R> = Exchange(chunk: seq<T>, reply: Reply<R>)

  /** The requests of a run, in order. */
  function Asked<T, R>(chunk: seq<T>, budget: int, base: nat, fetch: Server<T, R>, s: Progress<T, R>): seq<Exchange<T, R>>
    decreases |chunk|
  {
    if chunk == [] || s.requests >= budget then []
    else
      var reply := fetch(base + s.requests, chunk);
      if !RejectsInput(reply) || |chunk| == 1 then [Exchange(chunk, reply)]
      else
        var s1, mid := s.(requests := s.requests + 1), |chunk| / 2;
        var (ok, s2) := Run(chunk[..mid], budget, base, fetch, s1);
        [Exchange(chunk, reply)] + Asked(chunk[..mid], budget, base, fetch, s1)
        + if ok then Asked(chunk[mid..], budget, base, fetch, s2) else []
  }

  function GotIn<T, R>(e: Exchange<T, R>): seq<R> {
    if e.reply.Got? then e.reply.results else []
  }

  /** An input that was rejected on its own. */
  function RejectedIn<T, R(==)>(e: Exchange<T, R>): seq<T> {
    if e.reply == Failed(400) && |e.chunk| == 1 then e.chunk else []
  }

  function GotOf<T, R>(exchanges: seq<Exchange<T, R>>): seq<R> {
    if exchanges == [] then [] else GotIn(exchanges[0]) + GotOf(exchanges[1..])
  }

  function RejectedOf<T, R(==)>(exchanges: seq<Exchange<T, R>>): seq<T> {
    if exchanges == [] then [] else RejectedIn(exchanges[0]) + RejectedOf(exchanges[1..])
  }

  /** A flood wait or an error other than rejected inputs. */
  predicate Halts<R>(reply: Reply<R>) {
    reply.FloodWait? || (reply.Failed? && reply.code != 400)
  }

  predicate Halted<T, R>(exchanges: seq<Exchange<T, R>>) {
    exchanges != [] && Halts(exchanges[|exchanges| - 1].reply)
  }

  /** The replies are the server's to its next requests, from number `first` on. */
  predicate Replies<T, R(==)>(exchanges: seq<Exchange<T, R>>, first: nat, fetch: Server<T, R>) {
    forall k :: 0 <= k < |exchanges| ==> exchanges[k].reply == fetch(first + k, exchanges[k].chunk)
  }

  /** None but the last halts. */
  predicate QuietBefore<T, R>(exchanges: seq<Exchange<T, R>>) {
    forall k :: 0 <= k < |exchanges| - 1 ==> !Halts(exchanges[k].reply)
  }

  /** A flood wait is reported, for a second at least, or an error, whichever came last, and otherwise neither. */
  predicate EndTold<T, R>(exchanges: seq<Exchange<T, R>>, wait: int, err: Option<int>) {
    if !Halted(exchanges) then wait == 0 && err.None?
    else
      match exchanges[|exchanges| - 1].reply
      case FloodWait(duration) => wait == (if duration < 1_000_000_000 then 1_000_000_000 else duration) && err.None?
      case Failed(code) => wait == 0 && err == Some(code)
      case Got(_) => true
  }

  /** What the exchanges make of the progress. */
  ghost predicate Told<T, R>(exchanges: seq<Exchange<T, R>>, base: nat, fetch: Server<T, R>, s: Progress<T, R>, s': Progress<T, R>) {
    && s'.requests == s.requests + |exchanges| && Replies(exchanges, base + s.requests, fetch)
    && s'.results == s.results + GotOf(exchanges) && s'.bad == s.bad + RejectedOf(exchanges)
    && QuietBefore(exchanges) && EndTold(exchanges, s'.wait, s'.err)
  }

  lemma FirstExchange<T, R>(e: Exchange<T, R>, rest: seq<Exchange<T, R>>)
    ensures GotOf([e] + rest) == GotIn(e) + GotOf(rest) && RejectedOf([e] + rest) == RejectedIn(e) + RejectedOf(rest)
  {
    assert ([e] + rest)[1..] == rest;
  }

  lemma {:induction false} GotConcat<T, R>(a: seq<Exchange<T, R>>, b: seq<Exchange<T, R>>)
    ensures GotOf(a + b) == GotOf(a) + GotOf(b) && RejectedOf(a + b) == RejectedOf(a) + RejectedOf(b)
  {
    if a == [] {
      assert a + b == b && [] + GotOf(b) == GotOf(b) && [] + RejectedOf(b) == RejectedOf(b);
    } else {
      var e, rest := a[0], a[1..];
      GotConcat(rest, b);
      FirstExchange(e, rest);
      FirstExchange(e, rest + b);
      SeqAssociative([e], rest, b);
      assert [e] + rest == a;
      SeqAssociative(GotIn(e), GotOf(rest), GotOf(b));
      SeqAssociative(RejectedIn(e), RejectedOf(rest), RejectedOf(b));
    }
  }

  lemma ToldNothing<T, R>(base: nat, fetch: Server<T, R>, s: Progress<T, R>)
    requires s.wait == 0 && s.err.None?
    ensures Told([], base, fetch, s, s)
  {
    assert s.results + [] == s.results && s.bad + [] == s.bad;
  }

  lemma RepliesJoin<T, R>(a: seq<Exchange<T, R>>, b: seq<Exchange<T, R>>, first: nat, fetch: Server<T, R>)
    requires Replies(a, first, fetch) && Replies(b, first + |a|, fetch)
    ensures Replies(a + b, first, fetch)
  {
    forall k | 0 <= k < |a + b|
      ensures (a + b)[k].reply == fetch(first + k, (a + b)[k].chunk)
    {
      if k >= |a| {
        assert (a + b)[k] == b[k - |a|] && first + |a| + (k - |a|) == first + k;
      }
    }
  }

  lemma EndsJoin<T, R>(a: seq<Exchange<T, R>>, b: seq<Exchange<T, R>>)
    requires QuietBefore(a) && !Halted(a) && QuietBefore(b)
    ensures QuietBefore(a + b) && (Halted(a + b) <==> Halted(b))
    ensures b != [] ==> (a + b)[|a + b| - 1] == b[|b| - 1]
  {
    forall k | 0 <= k < |a + b| - 1
      ensures !Halts((a + b)[k].reply)
    {
      assert (a + b)[k] == if k < |a| then a[k] else b[k - |a|];
    }
    assert b == [] ==> a + b == a;
  }

  /** The same exchanges, counted and added up from elsewhere. */
  lemma ToldElsewhere<T, R>(x: seq<Exchange<T, R>>, base: nat, fetch: Server<T, R>, s: Progress<T, R>, p: Progress<T, R>, p': Progress<T, R>)
    requires Told(x, base + p.requests, fetch, Start(), s)
    requires p'.requests == p.requests + s.requests && p'.results == p.results + s.results && p'.bad == p.bad + s.bad
    requires p'.wait == s.wait && p'.err == s.err
    ensures Told(x, base, fetch, p, p')
  {
    assert s.results == [] + GotOf(x) == GotOf(x);
    assert s.bad == [] + RejectedOf(x) == RejectedOf(x);
  }

  /** What is told first and what is told then, if the first did not end it. */
  lemma ToldJoin<T, R>(a: seq<Exchange<T, R>>, b: seq<Exchange<T, R>>, base: nat, fetch: Server<T, R>,
                       s: Progress<T, R>, s1: Progress<T, R>, s2: Progress<T, R>)
    requires Told(a, base, fetch, s, s1) && !Halted(a) && Told(b, base, fetch, s1, s2)
    ensures Told(a + b, base, fetch, s, s2) && (Halted(a + b) <==> Halted(b))
  {
    RepliesJoin(a, b, base + s.requests, fetch);
    EndsJoin(a, b);
    assert s2.results == s.results + GotOf(a + b) by {
      GotConcat(a, b);
      SeqAssociative(s.results, GotOf(a), GotOf(b));
    }
    assert s2.bad == s.bad + RejectedOf(a + b) by {
      GotConcat(a, b);
      SeqAssociative(s.bad, RejectedOf(a), RejectedOf(b));
    }
  }

  lemma OneExchange<T, R>(e: Exchange<T, R>)
    ensures GotOf([e]) == GotIn(e) && RejectedOf([e]) == RejectedIn(e)
    ensures QuietBefore([e]) && (Halted([e]) <==> Halts(e.reply))
  {
    FirstExchange(e, []);
    assert [e] + [] == [e] && GotIn(e) + [] == GotIn(e) && RejectedIn(e) + [] == RejectedIn(e);
  }

  function AfterReply<T, R>(chunk: seq<T>, reply: Reply<R>, s: Progress<T, R>): Progress<T, R> {
    var s1 := s.(requests := s.requests + 1);
    match reply
    case Got(results) => s1.(results := s.results + results)
    case FloodWait(duration) => s1.(wait := Max(duration, SECOND))
    case Failed(code) =>
      if code != 400 then s1.(err := Some(code))
      else if |chunk| == 1 then s1.(bad := s.bad + [chunk[0]]) else s1
  }

  /** One request that is not split. */
  lemma ToldOne<T, R>(chunk: seq<T>, base: nat, fetch: Server<T, R>, s: Progress<T, R>, s': Progress<T, R>)
    requires s.wait == 0 && s.err.None? && chunk != []
    requires s' == AfterReply(chunk, fetch(base + s.requests, chunk), s)
    ensures Told([Exchange(chunk, fetch(base + s.requests, chunk))], base, fetch, s, s')
  {
    var one := Exchange(chunk, fetch(base + s.requests, chunk));
    OneExchange(one);
    assert s.results + [] == s.results && s.bad + [] == s.bad;
    assert |chunk| == 1 ==> chunk == [chunk[0]];
    assert one.reply.Failed? && one.reply.code == 400 ==> one.reply == Failed(400);
  }

  /** What the exchanges say of the end of a run. */
  ghost predicate RunTold<T, R>(x: seq<Exchange<T, R>>, ok: bool, budget: int, base: nat, fetch: Server<T, R>,
                                s: Progress<T, R>, s': Progress<T, R>) {
    && Told(x, base, fetch, s, s')
    && (ok ==> !Halted(x)) && (!ok && !Halted(x) ==> s'.requests >= budget)
  }

  lemma RunToldJoin<T, R>(a: seq<Exchange<T, R>>, b: seq<Exchange<T, R>>, ok: bool, budget: int, base: nat,
                          fetch: Server<T, R>, s: Progress<T, R>, s1: Progress<T, R>, s2: Progress<T, R>)
    requires RunTold(a, true, budget, base, fetch, s, s1) && RunTold(b, ok, budget, base, fetch, s1, s2)
    ensures RunTold(a + b, ok, budget, base, fetch, s, s2)
  {
    ToldJoin(a, b, base, fetch, s, s1, s2);
  }

  lemma RunTellsOne<T, R>(chunk: seq<T>, budget: int, base: nat, fetch: Server<T, R>, s: Progress<T, R>)
    requires s.wait == 0 && s.err.None?
    requires chunk == [] || s.requests >= budget || |chunk| == 1 || !RejectsInput(fetch(base + s.requests, chunk))
    ensures var (ok, s') := Run(chunk, budget, base, fetch, s);
            RunTold(Asked(chunk, budget, base, fetch, s), ok, budget, base, fetch, s, s')
  {
    if chunk == [] || s.requests >= budget {
      ToldNothing(base, fetch, s);
    } else {
      ToldOne(chunk, base, fetch, s, Run(chunk, budget, base, fetch, s).1);
    }
  }

  /** The requests of a run that splits. */
  lemma AskedSplits<T, R>(chunk: seq<T>, budget: int, base: nat, fetch: Server<T, R>, s: Progress<T, R>)
    requires |chunk| >= 2 && s.requests < budget && RejectsInput(fetch(base + s.requests, chunk))
    ensures var first, s1 := [Exchange(chunk, fetch(base + s.requests, chunk))], s.(requests := s.requests + 1);
            var left, right := chunk[..|chunk| / 2], chunk[|chunk| / 2..];
            var (ok, s2) := Run(left, budget, base, fetch, s1);
            Asked(chunk, budget, base, fetch, s)
            == first + Asked(left, budget, base, fetch, s1) + if ok then Asked(right, budget, base, fetch, s2) else []
  {
  }

  /** A run, whatever the server: the progress is what was answered, and a run that does not get through was
      ended by the last answer or is out of budget. */
  lemma {:induction false} RunTells<T, R>(chunk: seq<T>, budget: int, base: nat, fetch: Server<T, R>, s: Progress<T, R>)
    requires s.wait == 0 && s.err.None?
    ensures var (ok, s') := Run(chunk, budget, base, fetch, s);
            RunTold(Asked(chunk, budget, base, fetch, s), ok, budget, base, fetch, s, s')
    decreases |chunk|
  {
    if chunk == [] || s.requests >= budget || |chunk| == 1 || !RejectsInput(fetch(base + s.requests, chunk)) {
      RunTellsOne(chunk, budget, base, fetch, s);
    } else {
      var first, s1 := [Exchange(chunk, fetch(base + s.requests, chunk))], s.(requests := s.requests + 1);
      var left, right := chunk[..|chunk| / 2], chunk[|chunk| / 2..];
      ToldOne(chunk, base, fetch, s, s1);
      RunSplits(chunk, budget, base, fetch, s);
      RunTells(left, budget, base, fetch, s1);
      var (ok, s2) := Run(left, budget, base, fetch, s1);
      var x := Asked(left, budget, base, fetch, s1);
      RunToldJoin(first, x, ok, budget, base, fetch, s, s1, s2);
      AskedSplits(chunk, budget, base, fetch, s);
      if ok {
        var y := Asked(right, budget, base, fetch, s2);
        RunTells(right, budget, base, fetch, s2);
        var (ok', s3) := Run(right, budget, base, fetch, s2);
        RunToldJoin(first + x, y, ok', budget, base, fetch, s, s2, s3);
      } else {
        assert first + x + [] == first + x;
      }
    }
  }

  // ----- Cost -----

  /** How often n items can be halved, rounding up, until one is left. */
  function CeilLog2(n: nat): nat {
    if n <= 1 then 0 else 1 + CeilLog2((n + 1) / 2)
  }

  function Pow2(k: nat): nat {
    if k == 0 then 1 else 2 * Pow2(k - 1)
  }

  lemma {:induction false} CeilLog2IsLog(n: nat)
    ensures n <= Pow2(CeilLog2(n))
    ensures n >= 2 ==> Pow2(CeilLog2(n) - 1) < n
  {
    if n >= 2 {
      CeilLog2IsLog((n + 1) / 2);
    }
  }

  lemma {:induction false} CeilLog2Monotone(m: nat, n: nat)
    requires m <= n
    ensures CeilLog2(m) <= CeilLog2(n)
  {
    if m >= 2 {
      CeilLog2Monotone((m + 1) / 2, (n + 1) / 2);
    }
  }

  function Cost<T>(chunk: seq<T>, isBad: T -> bool): nat
    decreases |chunk|
  {
    if chunk == [] then 0
    else if |chunk| == 1 || BadOf(chunk, isBad) == [] then 1
    else 1 + Cost(chunk[..|chunk| / 2], isBad) + Cost(chunk[|chunk| / 2..], isBad)
  }

  lemma Halves<T>(chunk: seq<T>, isBad: T -> bool)
    ensures var mid := |chunk| / 2;
            && chunk == chunk[..mid] + chunk[mid..]
            && BadOf(chunk, isBad) == BadOf(chunk[..mid], isBad) + BadOf(chunk[mid..], isBad)
  {
    var mid := |chunk| / 2;
    assert chunk == chunk[..mid] + chunk[mid..];
    BadOfConcat(chunk[..mid], chunk[mid..], isBad);
  }

  lemma CostArithmetic(k: nat, h: nat, k1: nat, k2: nat, h1: nat, h2: nat, c1: nat, c2: nat)
    requires k == k1 + k2 >= 1 && h == h2 + 1 && h1 <= h2
    requires c1 <= 1 + 2 * k1 * h1 && c2 <= 1 + 2 * k2 * h2
    ensures 1 + c1 + c2 <= 1 + 2 * k * h
  {
    assert k1 * h1 <= k1 * h2;
    assert k * h == k1 * h2 + k2 * h2 + k1 + k2;
  }

  /** n items with k bad ones cost at most 1 + 2 * k * ceil(log2 n). */
  lemma {:induction false} CostBound<T>(chunk: seq<T>, isBad: T -> bool)
    ensures Cost(chunk, isBad) <= 1 + 2 * |BadOf(chunk, isBad)| * CeilLog2(|chunk|)
    decreases |chunk|
  {
    if |chunk| >= 2 && BadOf(chunk, isBad) != [] {
      var mid := |chunk| / 2;
      var left, right := chunk[..mid], chunk[mid..];
      var k, k1, k2 := |BadOf(chunk, isBad)|, |BadOf(left, isBad)|, |BadOf(right, isBad)|;
      var h, h1, h2 := CeilLog2(|chunk|), CeilLog2(mid), CeilLog2((|chunk| + 1) / 2);
      assert k == k1 + k2 by {
        Halves(chunk, isBad);
      }
      assert h1 <= h2 by {
        CeilLog2Monotone(mid, (|chunk| + 1) / 2);
      }
      CostBound(left, isBad);
      CostBound(right, isBad);
      assert |right| == (|chunk| + 1) / 2;
      CostArithmetic(k, h, k1, k2, h1, h2, Cost(left, isBad), Cost(right, isBad));
    }
  }

  lemma AffordableUnsplit<T(!new), R(!new)>(
      chunk: seq<T>, budget: int, base: nat, fetch: Server<T, R>, isBad: T -> bool, per: T -> seq<R>,
      s: Progress<T, R>)
    requires Honest(fetch, isBad, per) && s.requests <= budget
    requires |chunk| <= 1 || s.requests == budget || BadOf(chunk, isBad) == []
    ensures var (ok, s') := Run(chunk, budget, base, fetch, s);
            && (ok <==> s.requests + Cost(chunk, isBad) <= budget)
            && s'.requests == if ok then s.requests + Cost(chunk, isBad) else budget
  {
    assert TruthfulAt(fetch, isBad, per, base + s.requests, chunk) && AnsweredAt(fetch, base + s.requests, chunk);
  }

  /** Against an honest server a run gets through exactly when the budget covers its cost. */
  lemma {:induction false} RunAffordable<T(!new), R(!new)>(
      chunk: seq<T>, budget: int, base: nat, fetch: Server<T, R>, isBad: T -> bool, per: T -> seq<R>,
      s: Progress<T, R>)
    requires Honest(fetch, isBad, per) && s.requests <= budget
    ensures var (ok, s') := Run(chunk, budget, base, fetch, s);
            && (ok <==> s.requests + Cost(chunk, isBad) <= budget)
            && s'.requests == if ok then s.requests + Cost(chunk, isBad) else budget
    decreases |chunk|
  {
    if |chunk| <= 1 || s.requests == budget || BadOf(chunk, isBad) == [] {
      AffordableUnsplit(chunk, budget, base, fetch, isBad, per, s);
    } else {
      assert RejectsInput(fetch(base + s.requests, chunk)) by {
        assert TruthfulAt(fetch, isBad, per, base + s.requests, chunk) && AnsweredAt(fetch, base + s.requests, chunk);
      }
      RunSplits(chunk, budget, base, fetch, s);
      var s1, left, right := s.(requests := s.requests + 1), chunk[..|chunk| / 2], chunk[|chunk| / 2..];
      var (ok, s2) := Run(left, budget, base, fetch, s1);
      assert Cost(chunk, isBad) == 1 + Cost(left, isBad) + Cost(right, isBad);
      RunAffordable(left, budget, base, fetch, isBad, per, s1);
      if ok {
        RunAffordable(right, budget, base, fetch, isBad, per, s2);
      }
    }
  }

  /** An honest server never floods or fails. */
  lemma {:induction false} RunQuiet<T(!new), R(!new)>(
      chunk: seq<T>, budget: int, base: nat, fetch: Server<T, R>, isBad: T -> bool, per: T -> seq<R>,
      s: Progress<T, R>)
    requires Honest(fetch, isBad, per)
    ensures var s' := Run(chunk, budget, base, fetch, s).1;
            s'.wait == s.wait && s'.err == s.err
    decreases |chunk|
  {
    if chunk != [] && s.requests < budget {
      var reply := fetch(base + s.requests, chunk);
      assert AnsweredAt(fetch, base + s.requests, chunk);
      if RejectsInput(reply) && |chunk| >= 2 {
        var s1 := s.(requests := s.requests + 1);
        var mid := |chunk| / 2;
        RunQuiet(chunk[..mid], budget, base, fetch, isBad, per, s1);
        RunQuiet(chunk[mid..], budget, base, fetch, isBad, per, Run(chunk[..mid], budget, base, fetch, s1).1);
      }
    }
  }

  /** The promise of `fetchIsolatingBad`: with budget for 1 + 2 * k * ceil(log2 n) requests, it returns
      exactly the bad items and the results of exactly the good ones, within that many requests. */
  lemma IsolateExact<T(!new), R(!new)>(
      items: seq<T>, budget: int, base: nat, fetch: Server<T, R>, isBad: T -> bool, per: T -> seq<R>)
    requires Honest(fetch, isBad, per)
    requires budget >= 1 + 2 * |BadOf(items, isBad)| * CeilLog2(|items|)
    ensures var s := Isolate(items, budget, base, fetch);
            && s.results == Answers(items, isBad, per) && s.bad == BadOf(items, isBad)
            && s.wait == 0 && s.err.None?
            && s.requests <= 1 + 2 * |BadOf(items, isBad)| * CeilLog2(|items|)
  {
    CostBound(items, isBad);
    RunAffordable(items, budget, base, fetch, isBad, per, Start());
    RunQuiet(items, budget, base, fetch, isBad, per, Start());
    var decided := RunDecidesPrefix(items, budget, base, fetch, isBad, per, Start());
    assert items[..decided] == items;
    assert [] + Answers(items, isBad, per) == Answers(items, isBad, per);
    assert [] + BadOf(items, isBad) == BadOf(items, isBad);
  }

  /** Budget for one bad item finds at least one, however many there are. */
  lemma {:induction false} RunFindsOne<T(!new), R(!new)>(
      chunk: seq<T>, budget: int, base: nat, fetch: Server<T, R>, isBad: T -> bool, per: T -> seq<R>,
      s: Progress<T, R>)
    requires Honest(fetch, isBad, per)
    requires BadOf(chunk, isBad) != [] && budget - s.requests >= 1 + 2 * CeilLog2(|chunk|)
    ensures |Run(chunk, budget, base, fetch, s).1.bad| > |s.bad|
    decreases |chunk|
  {
    var reply := fetch(base + s.requests, chunk);
    assert TruthfulAt(fetch, isBad, per, base + s.requests, chunk) && AnsweredAt(fetch, base + s.requests, chunk);
    if |chunk| > 1 {
      var s1 := s.(requests := s.requests + 1);
      var mid := |chunk| / 2;
      var left, right := chunk[..mid], chunk[mid..];
      Halves(chunk, isBad);
      CeilLog2Monotone(mid, (|chunk| + 1) / 2);
      assert |right| == (|chunk| + 1) / 2;
      if BadOf(left, isBad) != [] {
        RunFindsOne(left, budget, base, fetch, isBad, per, s1);
        var (ok, s2) := Run(left, budget, base, fetch, s1);
        if ok {
          var _ := RunDecidesPrefix(right, budget, base, fetch, isBad, per, s2);
        }
      } else {
        RunAffordable(left, budget, base, fetch, isBad, per, s1);
        var (_, s2) := Run(left, budget, base, fetch, s1);
        var _ := RunDecidesPrefix(left, budget, base, fetch, isBad, per, s1);
        RunFindsOne(right, budget, base, fetch, isBad, per, s2);
      }
    }
  }
}
