/** Paging through the user's dialogs in batches, with limits and a cursor that survives interruptions. */
module DialogSync {
  import opened Basics

  datatype Kind = Normal | Community | Folder

  /** One dialog; `key` is the ID of its portal. */
  datatype Dialog = Dialog(kind: Kind, key: int)

  /** What is kept between syncs: the portal of the last dialog of the last full batch and how many
      dialogs there were up to it. */
  datatype Metadata = Metadata(cursor: Option<int>, count: nat, complete: bool)

  const FRESH := Metadata(None, 0, false)

  /** Negative limits mean no limit; `takeout` is the config's choice to leave the rest to a takeout. */
  datatype Config = Config(updateLimit: int, createLimit: int, loginLimit: int, takeout: bool)

  datatype Request = Request(after: Option<int>, limit: nat)

  /** What Telegram answers to a request, or None when it fails. */
  type Server = Request -> Option<seq<Dialog>>

  /** How one round of the loop goes: what the server would answer, and whether the pinned list could be saved,
      which dialog would fail, whether the cursor could be saved and whether its peer was found. */
  datatype Round = Round(server: Server, pinned: bool, failAt: nat, saved: bool, found: bool)

  /** One dialog looked at: its running number and whether a portal may be created for it. */
  datatype Entry = Entry(dialog: Dialog, number: nat, mayCreate: bool)

  function SubtractLimit(limit: int, count: nat): (r: int)
    ensures limit < 0 ==> r == limit
    ensures limit >= 0 ==> 0 <= r <= limit && (r > 0 ==> r == limit - count) && (count < limit ==> r > 0)
  {
    if limit < 0 then limit else if limit - count < 0 then 0 else limit - count
  }

  lemma SubtractTwice(limit: int, a: nat, b: nat)
    ensures SubtractLimit(SubtractLimit(limit, a), b) == SubtractLimit(limit, a + b)
  {
  }

  // ----- One batch -----

  /** Community dialogs are synced without asking the create limit. */
  predicate MayCreate(dialog: Dialog, i: nat, createLimit: int) {
    dialog.kind.Community? || (dialog.kind.Normal? && (createLimit < 0 || i < createLimit))
  }

  /** Normal chats are created as the limit says, folders never. */
  lemma ChatsKeepLimit(key: int, i: nat, createLimit: int)
    ensures MayCreate(Dialog(Normal, key), i, createLimit) <==> createLimit < 0 || i < createLimit
    ensures !MayCreate(Dialog(Folder, key), i, createLimit)
  {
  }

  /** The create limit does not bind communities: theirs may be created at any number. */
  lemma CommunityIgnoresLimit(key: int, i: nat, createLimit: int)
    requires 0 <= createLimit <= i
    ensures MayCreate(Dialog(Community, key), i, createLimit) && !MayCreate(Dialog(Normal, key), i, createLimit)
  {
  }

  predicate Fails(list: seq<Dialog>, failAt: nat) {
    failAt < |list| && !list[failAt].kind.Folder?
  }

  function Entries(list: seq<Dialog>, first: nat, createLimit: int, failAt: nat): seq<Entry> {
    seq(if Fails(list, failAt) then failAt + 1 else |list|,
        i requires 0 <= i < |list| => Entry(list[i], first + i, MayCreate(list[i], i, createLimit)))
  }

  // ----- The loop as a function -----

  /** The loop's variables, with the dialogs it has looked at and the requests it has made. */
  datatype Loop = Loop(meta: Metadata, update: int, create: int, isFirst: bool, log: seq<Entry>, requests: seq<Request>)

  datatype Next = Again | Stop | Fail

  function Cut(list: seq<Dialog>, update: int): seq<Dialog> {
    if 0 < update < |list| then list[..update] else list
  }

  /** The next request: after the cursor, for as many as are left and at most a hundred. */
  function NextRequest(l: Loop): Request
    requires l.update != 0
  {
    Request(l.meta.cursor, if l.update < 0 then 100 else Min(100, l.update))
  }

  function Asked(l: Loop): Loop
    requires l.update != 0
  {
    l.(requests := l.requests + [NextRequest(l)])
  }

  function Step(l: Loop, r: Round): (Loop, Next)
    requires l.update != 0
  {
    var l1, reply := Asked(l), r.server(NextRequest(l));
    if reply.None? then (l1, Fail)
    else if reply.value == [] then (l1, Stop)
    else if l.isFirst && !r.pinned then (l1, Fail)
    else
      var list := Cut(reply.value, l.update);
      var l2 := l1.(isFirst := false, log := l.log + Entries(list, l.meta.count, l.create, r.failAt));
      if Fails(list, r.failAt) then (l2, Fail)
      else
        var l3 := l2.(update := SubtractLimit(l.update, |list|), create := SubtractLimit(l.create, |list|));
        var cursor := Some(list[|list| - 1].key);
        if l.meta.cursor == cursor then (l3, Stop)
        else
          (l3.(meta := l.meta.(cursor := cursor, count := l.meta.count + |list|)), if r.saved && r.found then Again else Fail)
  }

  /** What makes the loop give up, and that the cursor stays before a batch that was not looked at whole. */
  lemma StepFails(l: Loop, r: Round)
    requires l.update != 0
    ensures var (l', next), reply := Step(l, r), r.server(NextRequest(l));
            && (reply.None? ==> next == Fail && l'.meta == l.meta && l'.log == l.log)
            && (reply == Some([]) ==> next == Stop && l'.meta == l.meta && l'.log == l.log)
            && (reply.Some? && reply.value != [] ==>
                  var list := if 0 < l.update < |reply.value| then reply.value[..l.update] else reply.value;
                  var unpinned := l.isFirst && !r.pinned;
                  var fails := r.failAt < |list| && list[r.failAt].kind != Folder;
                  var moves := l.meta.cursor != Some(list[|list| - 1].key);
                  && (next == Fail <==> unpinned || fails || (moves && !(r.saved && r.found)))
                  && (next == Stop <==> !unpinned && !fails && !moves)
                  && (unpinned || fails || !moves ==> l'.meta == l.meta)
                  && (fails && !unpinned ==> l'.log != [] && l'.log[|l'.log| - 1].dialog == list[r.failAt]))
  {
  }

  /** After the last of the rounds nothing is answered any more. */
  function RunLoop(l: Loop, rounds: seq<Round>): (r: (Loop, Next))
    ensures r.1 != Again
    decreases |rounds|
  {
    if l.update == 0 then (l, Stop)
    else if rounds == [] then (Asked(l), Fail)
    else
      var (l', next) := Step(l, rounds[0]);
      if next == Again then RunLoop(l', rounds[1..]) else (l', next)
  }

  // ----- One sync as a function -----

  /** What is kept, with everything that was looked at and requested so far. */
  datatype Progress = Progress(meta: Metadata, log: seq<Entry>, requests: seq<Request>)

  /** One call; `peerFound` is for the saved cursor and `saved` for the state saved at the end. */
  datatype Call = Call(takeout: bool, onLogin: bool, restart: bool, peerFound: bool, rounds: seq<Round>, saved: bool)

  datatype Outcome = Skipped | Finished | Failed

  predicate LoginSync(config: Config, call: Call) {
    call.onLogin && config.takeout
  }

  predicate Skips(m: Metadata, config: Config, call: Call) {
    (call.takeout && !config.takeout) || (!call.restart && m.complete)
  }

  function Begin(s: Progress, config: Config, call: Call): Loop {
    var start := if call.restart then FRESH else s.meta;
    Loop(start,
         if LoginSync(config, call) then config.loginLimit else SubtractLimit(config.updateLimit, start.count),
         SubtractLimit(config.createLimit, start.count), start.cursor.None?, s.log, s.requests)
  }

  function Sync(s: Progress, config: Config, call: Call): (Progress, Outcome) {
    var l := Begin(s, config, call);
    if Skips(s.meta, config, call) then (s, Skipped)
    else if l.meta.cursor.Some? && !call.peerFound then (s.(meta := l.meta), Failed)
    else
      var (l', next) := RunLoop(l, call.rounds);
      var s' := Progress(l'.meta, l'.log, l'.requests);
      if next == Fail then (s', Failed)
      else if LoginSync(config, call) then (s', Finished)
      else (s'.(meta := Metadata(None, 0, true)), if call.saved then Finished else Failed)
  }

  // ----- The sync itself -----

  class DialogSyncer {
    const config: Config
    var meta: Metadata
    ghost var log: seq<Entry>
    ghost var requests: seq<Request>

    ghost function State(): Progress
      reads this
    {
      Progress(meta, log, requests)
    }

    constructor (config: Config)
      ensures this.config == config && meta == FRESH && log == [] && requests == []
    {
      this.config, meta, log, requests := config, FRESH, [], [];
    }

    method HandleDialogs(list: seq<Dialog>, createLimit: int, failAt: nat) returns (err: bool)
      modifies this`log
      ensures err == Fails(list, failAt)
      ensures log == old(log) + Entries(list, meta.count, createLimit, failAt)
    {
      ghost var all := Entries(list, meta.count, createLimit, |list|);
      var i := 0;
      while i < |list|
        invariant 0 <= i <= |list| && log == old(log) + all[..i]
        invariant Fails(list, failAt) ==> i <= failAt
      {
        var dialog := list[i];
        log := log + [Entry(dialog, meta.count + i, MayCreate(dialog, i, createLimit))];
        assert all[..i + 1] == all[..i] + [all[i]];
        if i == failAt && !dialog.kind.Folder? {
          assert Entries(list, meta.count, createLimit, failAt) == all[..i + 1];
          return true;
        }
        i := i + 1;
      }
      assert Entries(list, meta.count, createLimit, failAt) == all[..i];
      return false;
    }

    /** The body of the loop: `next` says whether to go on, to leave the loop or to give up. */
    method SyncBatch(updateLimit: int, createLimit: int, isFirst: bool, round: Round)
      returns (next: Next, updateLimit': int, createLimit': int, isFirst': bool)
      requires updateLimit != 0
      modifies this
      ensures Step(Loop(old(meta), updateLimit, createLimit, isFirst, old(log), old(requests)), round)
           == (Loop(meta, updateLimit', createLimit', isFirst', log, requests), next)
    {
      updateLimit', createLimit', isFirst' := updateLimit, createLimit, isFirst;
      var limit := if updateLimit < 0 then 100 else Min(100, updateLimit);
      var request := Request(meta.cursor, limit);
      requests := requests + [request];
      var reply := round.server(request);
      if reply.None? {
        next := Fail;
        return;
      }
      var list := reply.value;
      if |list| == 0 {
        next := Stop;
        return;
      }
      if isFirst && !round.pinned {
        next := Fail;
        return;
      }
      isFirst' := false;
      if updateLimit > 0 && |list| > updateLimit {
        list := list[..updateLimit];
      }
      var err := HandleDialogs(list, createLimit, round.failAt);
      if err {
        next := Fail;
        return;
      }
      updateLimit' := SubtractLimit(updateLimit, |list|);
      createLimit' := SubtractLimit(createLimit, |list|);
      var cursor := Some(list[|list| - 1].key);
      if meta.cursor == cursor {
        next := Stop;
        return;
      }
      meta := meta.(cursor := cursor, count := meta.count + |list|);
      next := if round.saved && round.found then Again else Fail;
    }

    method SyncChats(call: Call) returns (outcome: Outcome)
      modifies this
      ensures (State(), outcome) == Sync(old(State()), config, call)
    {
      if call.takeout && !config.takeout {
        return Skipped;
      }
      if call.restart {
        meta := FRESH;
      } else if meta.complete {
        return Skipped;
      }
      var isFullSync := true;
      var updateLimit := SubtractLimit(config.updateLimit, meta.count);
      if call.onLogin && config.takeout {
        updateLimit := config.loginLimit;
        isFullSync := false;
      }
      var createLimit := SubtractLimit(config.createLimit, meta.count);
      var isFirst := true;
      if meta.cursor.Some? {
        isFirst := false;
        if !call.peerFound {
          return Failed;
        }
      }
      ghost var result := RunLoop(Begin(old(State()), config, call), call.rounds);
      var k := 0;
      ghost var left := call.rounds;
      while updateLimit != 0
        invariant k <= |call.rounds| && left == call.rounds[k..]
        invariant RunLoop(Loop(meta, updateLimit, createLimit, isFirst, log, requests), left) == result
        decreases |call.rounds| - k
      {
        if k == |call.rounds| {
          requests := requests + [Request(meta.cursor, if updateLimit < 0 then 100 else Min(100, updateLimit))];
          return Failed;
        }
        var next;
        next, updateLimit, createLimit, isFirst := SyncBatch(updateLimit, createLimit, isFirst, call.rounds[k]);
        if next.Fail? {
          return Failed;
        } else if next.Stop? {
          assert result == (Loop(meta, updateLimit, createLimit, isFirst, log, requests), Stop);
          break;
        }
        k, left := k + 1, left[1..];
      }
      if isFullSync {
        meta := Metadata(None, 0, true);
        if !call.saved {
          return Failed;
        }
      }
      return Finished;
    }
  }

  // ----- Limits, whatever the server answers -----

  /** The entries from position `from` on are numbered from `first` without gaps, and each may create a
      portal as its number allows. */
  predicate Numbered(log: seq<Entry>, from: nat, first: nat, createLimit: int) {
    forall i :: from <= i < |log| ==>
      log[i].number == first + (i - from) && (log[i].mayCreate <==> MayCreate(log[i].dialog, log[i].number, createLimit))
  }

  /** Before each round: everything so far is numbered up to the saved count, and the limits are what is left. */
  predicate Within(l: Loop, from: nat, first: nat, asked: nat, config: Config, limit: int) {
    && from <= |l.log| && asked <= |l.requests| && first <= l.meta.count && |l.log| - from == l.meta.count - first
    && Numbered(l.log, from, first, config.createLimit)
    && l.create == SubtractLimit(config.createLimit, l.meta.count)
    && (limit < 0 ==> l.update < 0)
    && (limit >= 0 ==> l.update == limit - (l.meta.count - first) >= 0 && |l.requests| - asked <= limit - l.update)
    && Polite(l.requests, asked)
  }

  /** The requests from position `asked` on are for 1 to 100 dialogs each. */
  predicate Polite(requests: seq<Request>, asked: nat) {
    forall i :: asked <= i < |requests| ==> 0 < requests[i].limit <= 100
  }

  lemma EntriesNumbered(l: Loop, list: seq<Dialog>, failAt: nat, from: nat, first: nat, asked: nat, config: Config, limit: int)
    requires Within(l, from, first, asked, config, limit)
    ensures Numbered(l.log + Entries(list, l.meta.count, l.create, failAt), from, first, config.createLimit)
  {
    var more := Entries(list, l.meta.count, l.create, failAt);
    forall i | from <= i < |l.log + more|
      ensures (l.log + more)[i].number == first + (i - from)
      ensures var e := (l.log + more)[i]; e.mayCreate <==> MayCreate(e.dialog, e.number, config.createLimit)
    {
      if i >= |l.log| {
        assert (l.log + more)[i] == more[i - |l.log|];
      }
    }
  }

  /** The same whenever the loop ends: the last batch may be looked at without being counted. */
  predicate Kept(l: Loop, from: nat, first: nat, asked: nat, config: Config, limit: int) {
    && from <= |l.log| && asked <= |l.requests| && first <= l.meta.count
    && Numbered(l.log, from, first, config.createLimit)
    && l.meta.count - first <= |l.log| - from
    && (limit >= 0 ==> |l.log| - from <= limit && |l.requests| - asked <= limit)
    && Polite(l.requests, asked)
  }

  lemma AskedKept(l: Loop, from: nat, first: nat, asked: nat, config: Config, limit: int)
    requires Within(l, from, first, asked, config, limit) && l.update != 0
    ensures Kept(Asked(l), from, first, asked, config, limit)
  {
  }

  lemma BatchKept(l: Loop, list: seq<Dialog>, failAt: nat, from: nat, first: nat, asked: nat, config: Config, limit: int)
    requires Within(l, from, first, asked, config, limit) && l.update != 0
    requires list != [] && (l.update > 0 ==> |list| <= l.update)
    ensures Kept(Asked(l).(log := l.log + Entries(list, l.meta.count, l.create, failAt)), from, first, asked, config, limit)
  {
    AskedKept(l, from, first, asked, config, limit);
    EntriesNumbered(l, list, failAt, from, first, asked, config, limit);
  }

  lemma BatchWithin(l: Loop, l': Loop, list: seq<Dialog>, failAt: nat, from: nat, first: nat, asked: nat, config: Config, limit: int)
    requires Within(l, from, first, asked, config, limit) && l.update != 0
    requires list != [] && (l.update > 0 ==> |list| <= l.update) && !Fails(list, failAt)
    requires l'.log == l.log + Entries(list, l.meta.count, l.create, failAt) && l'.requests == Asked(l).requests
    requires l'.update == SubtractLimit(l.update, |list|) && l'.create == SubtractLimit(l.create, |list|)
    requires l'.meta.count == l.meta.count + |list|
    ensures Within(l', from, first, asked, config, limit)
  {
    AskedKept(l, from, first, asked, config, limit);
    EntriesNumbered(l, list, failAt, from, first, asked, config, limit);
    SubtractTwice(config.createLimit, l.meta.count, |list|);
  }

  lemma StepWithin(l: Loop, r: Round, from: nat, first: nat, asked: nat, config: Config, limit: int)
    requires Within(l, from, first, asked, config, limit) && l.update != 0
    ensures var (l', next) := Step(l, r);
            if next == Again then Within(l', from, first, asked, config, limit) else Kept(l', from, first, asked, config, limit)
  {
    AskedKept(l, from, first, asked, config, limit);
    var reply := r.server(NextRequest(l));
    if reply.Some? && reply.value != [] && !(l.isFirst && !r.pinned) {
      var list := Cut(reply.value, l.update);
      var (l', next) := Step(l, r);
      BatchKept(l, list, r.failAt, from, first, asked, config, limit);
      if !Fails(list, r.failAt) && l.meta.cursor != Some(list[|list| - 1].key) {
        BatchWithin(l, l', list, r.failAt, from, first, asked, config, limit);
      }
    }
  }

  /** One loop, for any server: what it looks at is numbered from the saved count on, no more of it than the
      limit, in no more requests than the limit, none for more than a hundred dialogs. */
  lemma {:induction false} LoopWithin(l: Loop, rounds: seq<Round>, from: nat, first: nat, asked: nat, config: Config, limit: int)
    requires Within(l, from, first, asked, config, limit)
    ensures Kept(RunLoop(l, rounds).0, from, first, asked, config, limit)
    decreases |rounds|
  {
    if l.update != 0 && rounds != [] {
      StepWithin(l, rounds[0], from, first, asked, config, limit);
      var (l', next) := Step(l, rounds[0]);
      if next == Again {
        LoopWithin(l', rounds[1..], from, first, asked, config, limit);
      }
    }
  }

  function Start(s: Progress, call: Call): nat {
    if call.restart then 0 else s.meta.count
  }

  function LimitOf(s: Progress, config: Config, call: Call): int {
    if LoginSync(config, call) then config.loginLimit else SubtractLimit(config.updateLimit, Start(s, call))
  }

  /** One sync, for any server and any interruption: dialogs get the numbers from the saved count on, so the
      update limit counts those handled before a resume, and a dialog may create a portal exactly when the
      create limit is negative or its number is below it, or it is a community. With a limit the sync ends
      after at most that many requests. */
  lemma SyncKeepsLimits(s: Progress, config: Config, call: Call)
    ensures var s' := Sync(s, config, call).0;
            var limit := LimitOf(s, config, call);
            && |s.log| <= |s'.log| && |s.requests| <= |s'.requests|
            && Numbered(s'.log, |s.log|, Start(s, call), config.createLimit)
            && (limit >= 0 ==> |s'.log| - |s.log| <= limit && |s'.requests| - |s.requests| <= limit)
            && Polite(s'.requests, |s.requests|)
            && (!LoginSync(config, call) && config.updateLimit >= 0 ==>
                  forall i :: |s.log| <= i < |s'.log| ==> s'.log[i].number < config.updateLimit)
  {
    LoopWithin(Begin(s, config, call), call.rounds, |s.log|, Start(s, call), |s.requests|, config, LimitOf(s, config, call));
  }

  // ----- One pass, with an honest server -----

  /** The cursor stands after the first `k` dialogs. */
  predicate StandsAfter(dialogs: seq<Dialog>, cursor: Option<int>, k: nat) {
    k <= |dialogs| && cursor == if k == 0 then None else Some(dialogs[k - 1].key)
  }

  predicate Distinct(dialogs: seq<Dialog>) {
    forall i, j :: 0 <= i < j < |dialogs| ==> dialogs[i].key != dialogs[j].key
  }

  /** The reply is some of the dialogs after the first `k`, no more than asked for, and none only at the end. */
  predicate IsNext(dialogs: seq<Dialog>, request: Request, reply: seq<Dialog>, k: nat)
    requires k <= |dialogs|
  {
    && |reply| <= request.limit && k + |reply| <= |dialogs| && reply == dialogs[k..k + |reply|]
    && (reply == [] ==> k == |dialogs| || request.limit == 0)
  }

  /** Whatever comes after the place the request names. */
  ghost predicate HonestReply(dialogs: seq<Dialog>, request: Request, reply: seq<Dialog>) {
    forall k: nat :: StandsAfter(dialogs, request.after, k) ==> IsNext(dialogs, request, reply, k)
  }

  /** A server may fail, but what it answers is honest, to any request. */
  ghost predicate HonestServer(dialogs: seq<Dialog>, server: Server) {
    forall request :: server(request).Some? ==> HonestReply(dialogs, request, server(request).value)
  }

  ghost predicate HonestRounds(dialogs: seq<Dialog>, rounds: seq<Round>) {
    forall i :: 0 <= i < |rounds| ==> HonestServer(dialogs, rounds[i].server)
  }

  /** Such a server: it looks for the place and answers with as much as was asked for. */
  function Serving(dialogs: seq<Dialog>): Server {
    (request: Request) =>
      var k := PlaceOf(dialogs, request.after);
      Some(dialogs[k..Min(|dialogs|, k + request.limit)])
  }

  function PlaceOf(dialogs: seq<Dialog>, after: Option<int>): (k: nat)
    ensures k <= |dialogs|
  {
    if dialogs == [] || after == None then 0
    else if after == Some(dialogs[|dialogs| - 1].key) then |dialogs|
    else PlaceOf(dialogs[..|dialogs| - 1], after)
  }

  lemma {:induction false} PlaceIs(dialogs: seq<Dialog>, after: Option<int>, k: nat)
    requires Distinct(dialogs) && StandsAfter(dialogs, after, k)
    ensures PlaceOf(dialogs, after) == k
  {
    if dialogs != [] && after != None && k < |dialogs| {
      PlaceIs(dialogs[..|dialogs| - 1], after, k);
    }
  }

  lemma ServingIsHonest(dialogs: seq<Dialog>)
    requires Distinct(dialogs)
    ensures HonestServer(dialogs, Serving(dialogs))
  {
    forall request: Request, k: nat | StandsAfter(dialogs, request.after, k)
      ensures IsNext(dialogs, request, Serving(dialogs)(request).value, k)
    {
      PlaceIs(dialogs, request.after, k);
    }
  }

  /** The simple form: look at the dialogs from `lo` to `hi`, one after the other. */
  function OnePass(dialogs: seq<Dialog>, createLimit: int, lo: nat, hi: nat): seq<Entry>
    requires lo <= hi <= |dialogs|
  {
    seq(hi - lo, i requires 0 <= i < hi - lo => Entry(dialogs[lo + i], lo + i, MayCreate(dialogs[lo + i], lo + i, createLimit)))
  }

  lemma OnePassSplits(dialogs: seq<Dialog>, createLimit: int, lo: nat, mid: nat, hi: nat)
    requires lo <= mid <= hi <= |dialogs|
    ensures OnePass(dialogs, createLimit, lo, hi) == OnePass(dialogs, createLimit, lo, mid) + OnePass(dialogs, createLimit, mid, hi)
  {
  }

  /** Where a sync with `limit` dialogs left would stop. */
  function Bound(dialogs: seq<Dialog>, limit: int, k: nat): nat
    requires k <= |dialogs|
  {
    if limit < 0 then |dialogs| else Min(|dialogs|, k + limit)
  }

  lemma EntriesAreOnePass(dialogs: seq<Dialog>, list: seq<Dialog>, k: nat, createLimit: int, failAt: nat)
    requires k + |list| <= |dialogs| && list == dialogs[k..k + |list|]
    ensures var more := Entries(list, k, SubtractLimit(createLimit, k), failAt);
            more == OnePass(dialogs, createLimit, k, k + |more|)
  {
    var create := SubtractLimit(createLimit, k);
    var more := Entries(list, k, create, failAt);
    forall i | 0 <= i < |more|
      ensures more[i] == OnePass(dialogs, createLimit, k, k + |more|)[i]
    {
      assert list[i] == dialogs[k + i];
      assert MayCreate(list[i], i, create) <==> MayCreate(dialogs[k + i], k + i, createLimit);
    }
  }

  lemma CursorMoves(dialogs: seq<Dialog>, l: Loop, list: seq<Dialog>)
    requires Distinct(dialogs) && StandsAfter(dialogs, l.meta.cursor, l.meta.count) && list != []
    requires l.meta.count + |list| <= |dialogs| && list == dialogs[l.meta.count..l.meta.count + |list|]
    ensures var cursor := Some(list[|list| - 1].key);
            l.meta.cursor != cursor && StandsAfter(dialogs, cursor, l.meta.count + |list|)
  {
    assert list[|list| - 1] == dialogs[l.meta.count + |list| - 1];
  }

  /** A batch that is looked at, up to its end or the dialog that fails. */
  lemma BatchLooksOn(dialogs: seq<Dialog>, l: Loop, r: Round, list: seq<Dialog>, config: Config)
    requires Distinct(dialogs) && StandsAfter(dialogs, l.meta.cursor, l.meta.count) && l.update != 0
    requires l.create == SubtractLimit(config.createLimit, l.meta.count) && !(l.isFirst && !r.pinned)
    requires var reply := r.server(NextRequest(l));
             && reply.Some? && reply.value != [] && IsNext(dialogs, NextRequest(l), reply.value, l.meta.count)
             && list == Cut(reply.value, l.update)
    ensures var k, (l', next) := l.meta.count, Step(l, r);
            var hi := k + |Entries(list, k, l.create, r.failAt)|;
            && hi <= Bound(dialogs, l.update, k) && l'.log == l.log + OnePass(dialogs, config.createLimit, k, hi)
            && k <= l'.meta.count <= hi && StandsAfter(dialogs, l'.meta.cursor, l'.meta.count)
            && l'.meta.complete == l.meta.complete
            && next != Stop && (next == Again ==> AfterBatch(l, l', hi, config))
  {
    var k := l.meta.count;
    assert list == dialogs[k..k + |list|];
    CursorMoves(dialogs, l, list);
    EntriesAreOnePass(dialogs, list, k, config.createLimit, r.failAt);
    SubtractTwice(config.createLimit, k, |list|);
  }

  /** One batch of an honest server looks at the dialogs right after the cursor, up to `hi`. */
  lemma BatchIsNext(dialogs: seq<Dialog>, l: Loop, r: Round, config: Config) returns (hi: nat)
    requires Distinct(dialogs) && StandsAfter(dialogs, l.meta.cursor, l.meta.count) && l.update != 0
    requires l.create == SubtractLimit(config.createLimit, l.meta.count)
    requires HonestServer(dialogs, r.server)
    ensures l.meta.count <= hi <= Bound(dialogs, l.update, l.meta.count)
    ensures var (l', next) := Step(l, r);
            && l'.log == l.log + OnePass(dialogs, config.createLimit, l.meta.count, hi)
            && l.meta.count <= l'.meta.count <= hi && StandsAfter(dialogs, l'.meta.cursor, l'.meta.count)
            && l'.meta.complete == l.meta.complete
            && (next == Stop ==> l'.meta.count == hi == |dialogs|)
            && (next == Again ==> AfterBatch(l, l', hi, config))
  {
    var k := l.meta.count;
    hi := k;
    var reply := r.server(NextRequest(l));
    assert reply.Some? ==> HonestReply(dialogs, NextRequest(l), reply.value) && IsNext(dialogs, NextRequest(l), reply.value, k);
    if reply.None? || reply.value == [] || (l.isFirst && !r.pinned) {
      assert l.log + OnePass(dialogs, config.createLimit, k, k) == l.log;
    } else {
      var list := Cut(reply.value, l.update);
      hi := k + |Entries(list, k, l.create, r.failAt)|;
      BatchLooksOn(dialogs, l, r, list, config);
    }
  }

  lemma LogsJoin(dialogs: seq<Dialog>, log: seq<Entry>, createLimit: int, lo: nat, mid: nat, hi: nat)
    requires lo <= mid <= hi <= |dialogs|
    ensures log + OnePass(dialogs, createLimit, lo, mid) + OnePass(dialogs, createLimit, mid, hi)
         == log + OnePass(dialogs, createLimit, lo, hi)
  {
    OnePassSplits(dialogs, createLimit, lo, mid, hi);
  }

  lemma BoundStays(dialogs: seq<Dialog>, limit: int, k: nat, mid: nat)
    requires k <= mid <= |dialogs| && (limit < 0 || mid - k <= limit)
    ensures Bound(dialogs, SubtractLimit(limit, mid - k), mid) == Bound(dialogs, limit, k)
  {
  }

  predicate AfterBatch(l: Loop, l': Loop, hi: nat, config: Config) {
    && l.meta.count < l'.meta.count == hi && l'.update == SubtractLimit(l.update, hi - l.meta.count)
    && l'.create == SubtractLimit(config.createLimit, hi)
  }

  /** The loop refines one pass over the dialogs: wherever it is interrupted it has looked at a stretch of
      them beginning at the cursor, and the cursor it leaves is inside that stretch; if it is not
      interrupted it has looked at all up to its limit, and the cursor stands there. */
  lemma {:induction false} LoopIsOnePass(dialogs: seq<Dialog>, l: Loop, rounds: seq<Round>, config: Config) returns (hi: nat)
    requires Distinct(dialogs) && StandsAfter(dialogs, l.meta.cursor, l.meta.count) && HonestRounds(dialogs, rounds)
    requires l.create == SubtractLimit(config.createLimit, l.meta.count)
    ensures var (l', next) := RunLoop(l, rounds);
            && l.meta.count <= l'.meta.count <= hi <= Bound(dialogs, l.update, l.meta.count)
            && StandsAfter(dialogs, l'.meta.cursor, l'.meta.count) && l'.meta.complete == l.meta.complete
            && l'.log == l.log + OnePass(dialogs, config.createLimit, l.meta.count, hi)
            && (next == Stop ==> l'.meta.count == hi == Bound(dialogs, l.update, l.meta.count))
    decreases |rounds|
  {
    var k := l.meta.count;
    if l.update == 0 || rounds == [] {
      hi := k;
      assert RunLoop(l, rounds).0.log == l.log + OnePass(dialogs, config.createLimit, k, k);
    } else {
      hi := BatchIsNext(dialogs, l, rounds[0], config);
      var (l1, next) := Step(l, rounds[0]);
      if next == Again {
        var mid := hi;
        hi := LoopIsOnePass(dialogs, l1, rounds[1..], config);
        LogsJoin(dialogs, l.log, config.createLimit, k, mid, hi);
        BoundStays(dialogs, l.update, k, mid);
      }
    }
  }

  // ----- Syncs that pick up where the last one stopped -----

  function Syncs(s: Progress, config: Config, calls: seq<Call>): Progress
    decreases |calls|
  {
    if calls == [] then s else Syncs(Sync(s, config, calls[0]).0, config, calls[1..])
  }

  ghost predicate HonestCalls(dialogs: seq<Dialog>, calls: seq<Call>) {
    forall i :: 0 <= i < |calls| ==> HonestRounds(dialogs, calls[i].rounds)
  }

  /** The dialog with running number `g` was looked at, in this run. */
  predicate LookedAt(dialogs: seq<Dialog>, config: Config, log: seq<Entry>, from: nat, g: nat)
    requires g < |dialogs| && from <= |log|
  {
    OnePass(dialogs, config.createLimit, g, g + 1)[0] in log[from..]
  }

  /** Where the limit that counts from the first dialog on would stop. */
  function Target(dialogs: seq<Dialog>, config: Config): nat {
    Bound(dialogs, if config.updateLimit < 0 then -1 else config.updateLimit, 0)
  }

  /** What is true between syncs that began at number `first` with `from` entries: nothing was looked at but
      what one pass looks at, as it does, and nothing before the place reached was missed. */
  ghost predicate OnTheWay(dialogs: seq<Dialog>, config: Config, s: Progress, from: nat, first: nat) {
    && from <= |s.log|
    && (forall i :: from <= i < |s.log| ==> Passed(dialogs, config, s.log[i]))
    && (!s.meta.complete ==> StandsAfter(dialogs, s.meta.cursor, s.meta.count))
    && var reached := if s.meta.complete then Target(dialogs, config) else s.meta.count;
       forall g :: first <= g < reached && g < |dialogs| ==> LookedAt(dialogs, config, s.log, from, g)
  }

  predicate Passed(dialogs: seq<Dialog>, config: Config, e: Entry) {
    e.number < |dialogs| && e == OnePass(dialogs, config.createLimit, e.number, e.number + 1)[0]
  }

  lemma LookedAtMore(dialogs: seq<Dialog>, config: Config, log: seq<Entry>, lo: nat, hi: nat, from: nat, g: nat)
    requires from <= |log| && lo <= hi <= |dialogs| && g < hi
    requires g < lo ==> LookedAt(dialogs, config, log, from, g)
    ensures LookedAt(dialogs, config, log + OnePass(dialogs, config.createLimit, lo, hi), from, g)
  {
    var more := OnePass(dialogs, config.createLimit, lo, hi);
    assert (log + more)[from..] == log[from..] + more;
    if g >= lo {
      assert more[g - lo] == OnePass(dialogs, config.createLimit, g, g + 1)[0];
    }
  }

  lemma PassedMore(dialogs: seq<Dialog>, config: Config, log: seq<Entry>, lo: nat, hi: nat, from: nat)
    requires from <= |log| && lo <= hi <= |dialogs|
    requires forall i :: from <= i < |log| ==> Passed(dialogs, config, log[i])
    ensures var all := log + OnePass(dialogs, config.createLimit, lo, hi);
            forall i :: from <= i < |all| ==> Passed(dialogs, config, all[i])
  {
    var more := OnePass(dialogs, config.createLimit, lo, hi);
    forall i | |log| <= i < |log + more|
      ensures Passed(dialogs, config, (log + more)[i])
    {
      assert (log + more)[i] == more[i - |log|];
    }
  }

  /** One sync that picks up. */
  lemma SyncGoesOn(dialogs: seq<Dialog>, config: Config, s: Progress, call: Call, from: nat, first: nat)
    requires Distinct(dialogs) && OnTheWay(dialogs, config, s, from, first) && !call.restart
    requires HonestRounds(dialogs, call.rounds)
    ensures OnTheWay(dialogs, config, Sync(s, config, call).0, from, first)
  {
    var l := Begin(s, config, call);
    if !Skips(s.meta, config, call) && !(l.meta.cursor.Some? && !call.peerFound) {
      var hi := LoopIsOnePass(dialogs, l, call.rounds, config);
      PassedMore(dialogs, config, s.log, s.meta.count, hi, from);
      forall g | first <= g < hi
        ensures LookedAt(dialogs, config, s.log + OnePass(dialogs, config.createLimit, s.meta.count, hi), from, g)
      {
        LookedAtMore(dialogs, config, s.log, s.meta.count, hi, from, g);
      }
    }
  }

  /** Any number of syncs, each interrupted anywhere and each picking up where the last stopped, and a login
      sync among them, refine one pass over the dialogs: they look only at what the pass looks at and allow
      portals as it does, and once the dialogs count as synced none up to the limit was missed. */
  lemma {:induction false} SyncsAreOnePass(dialogs: seq<Dialog>, config: Config, s: Progress, calls: seq<Call>, from: nat, first: nat)
    requires Distinct(dialogs) && OnTheWay(dialogs, config, s, from, first)
    requires forall i :: 0 <= i < |calls| ==> !calls[i].restart
    requires HonestCalls(dialogs, calls)
    ensures OnTheWay(dialogs, config, Syncs(s, config, calls), from, first)
    decreases |calls|
  {
    if calls != [] {
      SyncGoesOn(dialogs, config, s, calls[0], from, first);
      SyncsAreOnePass(dialogs, config, Sync(s, config, calls[0]).0, calls[1..], from, first);
    }
  }

  /** Nothing was looked at but what one pass looks at, as it does, and all of it once the sync is complete. */
  predicate FullPass(dialogs: seq<Dialog>, config: Config, s: Progress) {
    && (forall e <- s.log :: e.number < |dialogs| && e.dialog == dialogs[e.number]
                              && (e.mayCreate <==> MayCreate(e.dialog, e.number, config.createLimit)))
    && (s.meta.complete ==>
          forall g :: 0 <= g < Target(dialogs, config) ==>
            Entry(dialogs[g], g, MayCreate(dialogs[g], g, config.createLimit)) in s.log)
  }

  lemma OnTheWayMeans(dialogs: seq<Dialog>, config: Config, s: Progress)
    requires OnTheWay(dialogs, config, s, 0, 0)
    ensures FullPass(dialogs, config, s)
  {
    assert s.log[0..] == s.log;
    forall e | e in s.log
      ensures Passed(dialogs, config, e)
    {
      var i :| 0 <= i < |s.log| && s.log[i] == e;
    }
    if s.meta.complete {
      forall g | 0 <= g < Target(dialogs, config)
        ensures Entry(dialogs[g], g, MayCreate(dialogs[g], g, config.createLimit)) in s.log
      {
        assert LookedAt(dialogs, config, s.log, 0, g);
      }
    }
  }

  /** From the start: once the dialogs count as synced, every dialog up to the limit was looked at, with a
      portal allowed as its running number says, and nothing else was looked at. */
  lemma SyncsFromScratch(dialogs: seq<Dialog>, config: Config, calls: seq<Call>)
    requires Distinct(dialogs) && HonestCalls(dialogs, calls)
    requires forall i :: 0 <= i < |calls| ==> !calls[i].restart
    ensures FullPass(dialogs, config, Syncs(Progress(FRESH, [], []), config, calls))
  {
    SyncsAreOnePass(dialogs, config, Progress(FRESH, [], []), calls, 0, 0);
    OnTheWayMeans(dialogs, config, Syncs(Progress(FRESH, [], []), config, calls));
  }

  /** A round in which nothing goes wrong. */
  ghost predicate Smooth(dialogs: seq<Dialog>, r: Round) {
    && HonestServer(dialogs, r.server) && (forall request :: r.server(request).Some?)
    && r.pinned && r.failAt >= |dialogs| && r.saved && r.found
  }

  ghost predicate AllSmooth(dialogs: seq<Dialog>, rounds: seq<Round>) {
    forall i :: 0 <= i < |rounds| ==> Smooth(dialogs, rounds[i])
  }

  lemma SmoothStep(dialogs: seq<Dialog>, l: Loop, r: Round)
    requires Distinct(dialogs) && StandsAfter(dialogs, l.meta.cursor, l.meta.count) && l.update != 0
    requires Smooth(dialogs, r)
    ensures var next := Step(l, r).1;
            next == if l.meta.count == |dialogs| then Stop else Again
  {
    var request, reply := NextRequest(l), r.server(NextRequest(l)).value;
    assert r.server(request).Some? && HonestReply(dialogs, request, reply) && IsNext(dialogs, request, reply, l.meta.count);
    if reply != [] {
      var list := Cut(reply, l.update);
      assert list == dialogs[l.meta.count..l.meta.count + |list|];
      CursorMoves(dialogs, l, list);
    }
  }

  /** With rounds enough and nothing going wrong the loop comes to its end. */
  lemma {:induction false} LoopEnds(dialogs: seq<Dialog>, l: Loop, rounds: seq<Round>, config: Config)
    requires Distinct(dialogs) && StandsAfter(dialogs, l.meta.cursor, l.meta.count) && AllSmooth(dialogs, rounds)
    requires l.create == SubtractLimit(config.createLimit, l.meta.count) && |rounds| > |dialogs| - l.meta.count
    ensures RunLoop(l, rounds).1 == Stop
    decreases |rounds|
  {
    if l.update != 0 {
      assert Smooth(dialogs, rounds[0]);
      SmoothStep(dialogs, l, rounds[0]);
      if l.meta.count < |dialogs| {
        var hi := BatchIsNext(dialogs, l, rounds[0], config);
        LoopEnds(dialogs, Step(l, rounds[0]).0, rounds[1..], config);
      }
    }
  }

  /** A sync in which nothing goes wrong finishes, and the dialogs count as synced afterwards, from the start
      again, unless it was a login sync, which leaves the rest to the takeout. */
  lemma SyncFinishes(dialogs: seq<Dialog>, s: Progress, config: Config, call: Call)
    requires Distinct(dialogs) && !Skips(s.meta, config, call) && AllSmooth(dialogs, call.rounds)
    requires var meta := if call.restart then FRESH else s.meta;
             StandsAfter(dialogs, meta.cursor, meta.count) && |call.rounds| > |dialogs| - meta.count
    requires call.peerFound && call.saved
    ensures var (s', outcome) := Sync(s, config, call);
            outcome == Finished && (!LoginSync(config, call) ==> s'.meta == Metadata(None, 0, true))
  {
    LoopEnds(dialogs, Begin(s, config, call), call.rounds, config);
  }

  /** What is not synced again: a takeout that is not configured, and dialogs that count as synced, unless the
      sync restarts. Then nothing is asked. */
  lemma SyncSkips(s: Progress, config: Config, call: Call)
    ensures Sync(s, config, call).1 == Skipped <==>
            (call.takeout && !config.takeout) || (s.meta.complete && !call.restart)
    ensures Sync(s, config, call).1 == Skipped ==> Sync(s, config, call).0 == s
  {
  }

  lemma {:induction false} LoopAppends(l: Loop, rounds: seq<Round>)
    ensures l.log <= RunLoop(l, rounds).0.log
    decreases |rounds|
  {
    if l.update != 0 && rounds != [] && Step(l, rounds[0]).1 == Again {
      LoopAppends(Step(l, rounds[0]).0, rounds[1..]);
    }
  }

  /** Portals are allowed by running number, and no number reaches the limit. */
  predicate LimitsKept(log: seq<Entry>, createLimit: int, limit: int) {
    forall e <- log ::
      (e.mayCreate <==> MayCreate(e.dialog, e.number, createLimit)) && (limit >= 0 ==> e.number < limit)
  }

  /** Any number of syncs, restarts among them, for any server. A login sync has a limit of its own, so then
      there is only the create limit to keep. */
  lemma {:induction false} SyncsKeepLimits(s: Progress, config: Config, calls: seq<Call>, limit: int)
    requires limit < 0 || (limit == config.updateLimit && forall i :: 0 <= i < |calls| ==> !LoginSync(config, calls[i]))
    requires LimitsKept(s.log, config.createLimit, limit)
    ensures LimitsKept(Syncs(s, config, calls).log, config.createLimit, limit)
    decreases |calls|
  {
    if calls != [] {
      var s1 := Sync(s, config, calls[0]).0;
      SyncKeepsLimits(s, config, calls[0]);
      LoopAppends(Begin(s, config, calls[0]), calls[0].rounds);
      forall e | e in s1.log
        ensures (e.mayCreate <==> MayCreate(e.dialog, e.number, config.createLimit)) && (limit >= 0 ==> e.number < limit)
      {
        var i :| 0 <= i < |s1.log| && s1.log[i] == e;
        assert i < |s.log| ==> s.log[i] == e;
      }
      SyncsKeepLimits(s1, config, calls[1..], limit);
    }
  }
}
