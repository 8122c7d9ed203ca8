/** The saved state of one poll, as Telegram's updates and Matrix's votes and ends change it. */
module Polls {
  import opened Basics
  import opened PollKeys

  datatype AnswerVoters = AnswerVoters(option: PollOption, chosen: bool)

  datatype Results = Results(min: bool, answers: seq<AnswerVoters>)

  function Chosen(answers: seq<AnswerVoters>): seq<PollOption> {
    if answers == [] then []
    else
      var last := answers[|answers| - 1];
      Chosen(answers[..|answers| - 1]) + if last.chosen then [last.option] else []
  }

  /** The options the user has picked, or None when the results say nothing about it. */
  function OwnVote(results: Option<Results>): Option<seq<PollOption>> {
    if results.None? || results.value.min || results.value.answers == [] then None
    else Some(Chosen(results.value.answers))
  }

  /** Whether the results say what the user has picked, and that an option is in the vote if it is a chosen one. */
  lemma OwnVoteMeans(results: Option<Results>, option: PollOption)
    ensures OwnVote(results).Some? <==> results.Some? && !results.value.min && |results.value.answers| > 0
    ensures OwnVote(results).Some? ==> (option in OwnVote(results).value <==> AnswerVoters(option, true) in results.value.answers)
  {
    if OwnVote(results).Some? {
      ChosenMembers(results.value.answers, option);
    }
  }

  lemma {:induction false} ChosenMembers(answers: seq<AnswerVoters>, option: PollOption)
    ensures option in Chosen(answers) <==> AnswerVoters(option, true) in answers
  {
    if answers != [] {
      var n := |answers| - 1;
      ChosenMembers(answers[..n], option);
      assert answers == answers[..n] + [answers[n]];
    }
  }

  method PollOwnVote(results: Option<Results>) returns (vote: Option<seq<PollOption>>)
    ensures vote == OwnVote(results)
  {
    if results.None? || results.value.min || |results.value.answers| == 0 {
      return None;
    }
    var answers := results.value.answers;
    var options: seq<PollOption> := [];
    var i := 0;
    while i < |answers|
      invariant 0 <= i <= |answers| && options == Chosen(answers[..i])
    {
      assert answers[..i + 1][..i] == answers[..i];
      if answers[i].chosen {
        options := options + [answers[i].option];
      }
      i := i + 1;
    }
    assert answers[..i] == answers;
    return Some(options);
  }

  /** What the database keeps with the message that carries the poll. */
  datatype Saved = Saved(ownVote: string, closed: bool)

  /** What reaches Matrix, what reaches Telegram, and the two times the mark of an end is saved for itself. */
  datatype Effect =
    | VoteQueued(options: seq<PollOption>)
    | EndQueued
    | VoteSent(options: seq<PollOption>)
    | EndMarked
    | CloseAsked(ok: bool)
    | EndUnmarked

  /** What happens to a poll. A sync brings the poll's closed flag if it brings the poll, and the results;
      `queued` says whether Matrix took the vote, `ok` whether Telegram took the request, and `saved` and
      `reset` whether the database took the new state. */
  datatype Event =
    | Sync(closed: Option<bool>, results: Option<Results>, queued: bool, saved: bool)
    | Vote(options: seq<PollOption>, ok: bool, saved: bool)
    | MatrixEnd(found: bool, saved: bool, ok: bool, reset: bool)

  /** Whether a sync brings a vote with another key than the saved one, and whether it brings a new end. */
  predicate VoteChanges(s: Saved, e: Event)
    requires e.Sync?
  {
    OwnVote(e.results).Some? && Key(OwnVote(e.results).value) != s.ownVote
  }

  predicate NewEnd(closed: Option<bool>, ended: bool) {
    closed == Some(true) && !ended
  }

  function AfterSync(s: Saved, e: Event): (Saved, seq<Effect>)
    requires e.Sync?
  {
    var changed, ends := VoteChanges(s, e), NewEnd(e.closed, s.closed);
    if changed && !e.queued then (s, [])
    else
      (if e.saved then Saved(if changed then Key(OwnVote(e.results).value) else s.ownVote, s.closed || ends) else s,
       (if changed then [VoteQueued(OwnVote(e.results).value)] else []) + (if ends then [EndQueued] else []))
  }

  /** A Matrix end is marked before Telegram is asked, and the mark is taken back if it refuses. */
  function AfterMatrixEnd(ended: bool, e: Event): (bool, seq<Effect>)
    requires e.MatrixEnd?
  {
    if ended || !e.found || !e.saved then (ended, [])
    else if e.ok then (true, [EndMarked, CloseAsked(true)])
    else if e.reset then (false, [EndMarked, CloseAsked(false), EndUnmarked])
    else (true, [EndMarked, CloseAsked(false)])
  }

  function After(s: Saved, e: Event): (Saved, seq<Effect>) {
    match e
    case Sync(_, _, _, _) => AfterSync(s, e)
    case Vote(options, ok, saved) =>
      if !ok then (s, []) else (if saved then s.(ownVote := Key(options)) else s, [VoteSent(options)])
    case MatrixEnd(_, _, _, _) => var (ended, effects) := AfterMatrixEnd(s.closed, e); (s.(closed := ended), effects)
  }

  /** Whether the caller is told of an error; a vote that was sent but could not be saved is not one. */
  predicate Errs(s: Saved, e: Event) {
    match e
    case Sync(closed, _, queued, saved) =>
      if VoteChanges(s, e) && !queued then true else (VoteChanges(s, e) || NewEnd(closed, s.closed)) && !saved
    case Vote(_, ok, _) => !ok
    case MatrixEnd(found, saved, ok, _) => !s.closed && (!found || !saved || !ok)
  }

  /** One poll's message in the database. */
  class Poll {
    var ownVote: string
    var closed: bool
    ghost var log: seq<Effect>

    function State(): Saved
      reads this
    {
      Saved(ownVote, closed)
    }

    constructor (initial: Saved)
      ensures State() == initial && log == []
    {
      ownVote, closed, log := initial.ownVote, initial.closed, [];
    }

    method SyncPoll(pollClosed: Option<bool>, results: Option<Results>, queued: bool, saved: bool) returns (err: bool)
      modifies this
      ensures var e := Sync(pollClosed, results, queued, saved);
              State() == After(old(State()), e).0 && log == old(log) + After(old(State()), e).1 && err == Errs(old(State()), e)
      ensures log == old(log) && !err ==> State() == old(State())
      ensures err ==> State() == old(State())
      ensures log != old(log) && !saved ==> err
    {
      var newVote, newClosed, changed := ownVote, closed, false;
      var isClosed := pollClosed == Some(true);
      var vote := PollOwnVote(results);
      if vote.Some? {
        var key := PollOptionsKey(vote.value);
        if key != newVote {
          if !queued {
            return true;
          }
          log := log + [VoteQueued(vote.value)];
          newVote, changed := key, true;
        }
      }
      if isClosed && !newClosed {
        log := log + [EndQueued];
        newClosed, changed := true, true;
      }
      if changed {
        if !saved {
          return true;
        }
        ownVote, closed := newVote, newClosed;
      }
      return false;
    }

    method SendPollVote(options: seq<PollOption>, ok: bool, saved: bool) returns (err: bool)
      modifies this
      ensures var e := Vote(options, ok, saved);
              State() == After(old(State()), e).0 && log == old(log) + After(old(State()), e).1 && err == Errs(old(State()), e)
      ensures err == !ok && closed == old(closed) && log == old(log) + if ok then [VoteSent(options)] else []
      ensures ownVote == if ok && saved then Key(options) else old(ownVote)
    {
      if !ok {
        return true;
      }
      log := log + [VoteSent(options)];
      var key := PollOptionsKey(options);
      if saved {
        ownVote := key;
      }
      return false;
    }

    method HandleMatrixPollEnd(found: bool, saved: bool, ok: bool, reset: bool) returns (err: bool)
      modifies this
      ensures var e := MatrixEnd(found, saved, ok, reset);
              State() == After(old(State()), e).0 && log == old(log) + After(old(State()), e).1 && err == Errs(old(State()), e)
      ensures err == (!old(closed) && !(found && saved && ok)) && ownVote == old(ownVote)
      ensures closed == (old(closed) || (found && saved && (ok || !reset)))
      ensures log != old(log) ==> !old(closed) && found && saved && old(log) + [EndMarked, CloseAsked(ok)] <= log
    {
      if closed {
        return false;
      }
      if !found {
        return true;
      }
      if !saved {
        return true;
      }
      closed := true;
      log := log + [EndMarked];
      log := log + [CloseAsked(ok)];
      if !ok {
        if reset {
          closed := false;
          log := log + [EndUnmarked];
        }
        return true;
      }
      return false;
    }
  }

  // ----- Runs -----

  function Run(s: Saved, events: seq<Event>): (Saved, seq<Effect>)
    decreases |events|
  {
    if events == [] then (s, [])
    else
      var (s1, first) := After(s, events[0]);
      var (s2, rest) := Run(s1, events[1..]);
      (s2, first + rest)
  }

  // ----- What should happen, without keys -----

  /** The vote the user is known to have, as a set of picks, and whether Matrix knows the poll has ended. */
  datatype Known = Known(vote: multiset<PollOption>, ended: bool)

  /** A vote is queued exactly when the known vote changes, and the end when Telegram says the poll is
      closed and Matrix does not know it yet. What could not be saved is not known. */
  function ShouldBe(k: Known, e: Event): (Known, seq<Effect>) {
    match e
    case Sync(closed, results, queued, saved) =>
      var vote := OwnVote(results);
      var changed, ends := vote.Some? && multiset(vote.value) != k.vote, NewEnd(closed, k.ended);
      if changed && !queued then (k, [])
      else
        (if saved then Known(if changed then multiset(vote.value) else k.vote, k.ended || ends) else k,
         (if changed then [VoteQueued(vote.value)] else []) + (if ends then [EndQueued] else []))
    case Vote(options, ok, saved) =>
      if !ok then (k, []) else (if saved then k.(vote := multiset(options)) else k, [VoteSent(options)])
    case MatrixEnd(_, _, _, _) => var (ended, effects) := AfterMatrixEnd(k.ended, e); (k.(ended := ended), effects)
  }

  function RunShouldBe(k: Known, events: seq<Event>): (Known, seq<Effect>)
    decreases |events|
  {
    if events == [] then (k, [])
    else
      var (k1, first) := ShouldBe(k, events[0]);
      var (k2, rest) := RunShouldBe(k1, events[1..]);
      (k2, first + rest)
  }

  /** Poll options are never empty. */
  predicate NonEmptyOptions(options: seq<PollOption>) {
    forall o <- options :: o != []
  }

  predicate RealOptions(e: Event) {
    match e
    case Sync(_, results, _, _) => OwnVote(results).Some? ==> NonEmptyOptions(OwnVote(results).value)
    case Vote(options, _, _) => NonEmptyOptions(options)
    case MatrixEnd(_, _, _, _) => true
  }

  /** The saved state stands for what is known; `vote` is some list of the known picks. */
  predicate Stands(s: Saved, k: Known, vote: seq<PollOption>) {
    NonEmptyOptions(vote) && multiset(vote) == k.vote && s.ownVote == Key(vote) && s.closed == k.ended
  }

  lemma KeysOfRealOptions(a: seq<PollOption>, b: seq<PollOption>)
    requires NonEmptyOptions(a) && NonEmptyOptions(b)
    ensures Key(a) == Key(b) <==> multiset(a) == multiset(b)
  {
    KeyEqual(a, b);
    var empty: PollOption := [];
    assert empty in [empty];
  }

  lemma StepRefines(s: Saved, k: Known, vote: seq<PollOption>, e: Event) returns (vote': seq<PollOption>)
    requires Stands(s, k, vote) && RealOptions(e)
    ensures Stands(After(s, e).0, ShouldBe(k, e).0, vote') && After(s, e).1 == ShouldBe(k, e).1
  {
    vote' := vote;
    match e
    case Sync(closed, results, queued, saved) =>
      if OwnVote(results).Some? {
        var options := OwnVote(results).value;
        KeysOfRealOptions(options, vote);
        if Key(options) != s.ownVote && queued && saved {
          vote' := options;
        }
      }
    case Vote(options, ok, saved) =>
      if ok && saved {
        vote' := options;
      }
    case MatrixEnd(_, _, _, _) =>
  }

  lemma {:induction false} RunRefinesFrom(s: Saved, k: Known, vote: seq<PollOption>, events: seq<Event>)
    requires Stands(s, k, vote) && forall e <- events :: RealOptions(e)
    ensures Run(s, events).1 == RunShouldBe(k, events).1 && Run(s, events).0.closed == RunShouldBe(k, events).0.ended
    decreases |events|
  {
    if events != [] {
      assert events[0] in events;
      var vote' := StepRefines(s, k, vote, events[0]);
      assert forall e <- events[1..] :: e in events;
      RunRefinesFrom(After(s, events[0]).0, ShouldBe(k, events[0]).0, vote', events[1..]);
    }
  }

  /** Whatever vote and end the poll was saved with: over any sequence of syncs, own votes and Matrix ends,
      comparing keys queues exactly what comparing the picks themselves would, an own vote exactly when the
      known vote changes. */
  lemma RunRefines(vote: seq<PollOption>, ended: bool, events: seq<Event>)
    requires NonEmptyOptions(vote) && forall e <- events :: RealOptions(e)
    ensures Run(Saved(Key(vote), ended), events).1 == RunShouldBe(Known(multiset(vote), ended), events).1
  {
    RunRefinesFrom(Saved(Key(vote), ended), Known(multiset(vote), ended), vote, events);
  }

  /** How often Matrix is told of the end or Telegram takes it. */
  function Ends(effects: seq<Effect>): nat {
    if effects == [] then 0
    else (if effects[0] == EndQueued || effects[0] == CloseAsked(true) then 1 else 0) + Ends(effects[1..])
  }

  lemma {:induction false} EndsConcat(a: seq<Effect>, b: seq<Effect>)
    ensures Ends(a + b) == Ends(a) + Ends(b)
  {
    if a == [] {
      assert a + b == b;
    } else {
      assert (a + b)[0] == a[0] && (a + b)[1..] == a[1..] + b;
      EndsConcat(a[1..], b);
    }
  }

  /** An end that was queued but could not be saved. */
  predicate LosesEnd(s: Saved, e: Event) {
    e.Sync? && NewEnd(e.closed, s.closed) && !(VoteChanges(s, e) && !e.queued) && !e.saved
  }

  /** A mark that could not be taken back after Telegram refused. */
  predicate KeepsMark(s: Saved, e: Event) {
    e.MatrixEnd? && !s.closed && e.found && e.saved && !e.ok && !e.reset
  }

  function LostEnds(s: Saved, events: seq<Event>): nat
    decreases |events|
  {
    if events == [] then 0
    else (if LosesEnd(s, events[0]) then 1 else 0) + LostEnds(After(s, events[0]).0, events[1..])
  }

  function KeptMarks(s: Saved, events: seq<Event>): nat
    decreases |events|
  {
    if events == [] then 0
    else (if KeepsMark(s, events[0]) then 1 else 0) + KeptMarks(After(s, events[0]).0, events[1..])
  }

  lemma EndsOfOne(s: Saved, e: Event)
    ensures Ends(After(s, e).1) + (if KeepsMark(s, e) then 1 else 0)
         == (if After(s, e).0.closed && !s.closed then 1 else 0) + (if LosesEnd(s, e) then 1 else 0)
    ensures s.closed ==> After(s, e).0.closed
  {
    var effects := After(s, e).1;
    if |effects| >= 1 {
      assert Ends(effects) == (if effects[0] == EndQueued || effects[0] == CloseAsked(true) then 1 else 0) + Ends(effects[1..]);
      if |effects| == 1 {
        assert effects[1..] == [];
      } else {
        assert Ends(effects[1..]) == (if effects[1] == EndQueued || effects[1] == CloseAsked(true) then 1 else 0) + Ends(effects[1..][1..]);
        if |effects| == 2 {
          assert effects[1..][1..] == [];
        } else {
          assert effects[1..][1..] == [EndUnmarked] && [EndUnmarked][1..] == [];
        }
      }
    }
  }

  /** Over any run the ends balance: a poll is ended once when it becomes closed, and beyond that only as
      often as an end that was queued could not be saved; and it becomes closed without an end only if a
      mark could not be taken back. */
  lemma {:induction false} EndsBalance(s: Saved, events: seq<Event>)
    ensures Ends(Run(s, events).1) + KeptMarks(s, events)
         == (if Run(s, events).0.closed && !s.closed then 1 else 0) + LostEnds(s, events)
    ensures s.closed ==> Run(s, events).0.closed
    decreases |events|
  {
    if events != [] {
      var (s1, first) := After(s, events[0]);
      EndsBalance(s1, events[1..]);
      EndsConcat(first, Run(s1, events[1..]).1);
      EndsOfOne(s, events[0]);
    }
  }

  predicate SavesWork(e: Event) {
    match e
    case Sync(_, _, _, saved) => saved
    case Vote(_, _, saved) => saved
    case MatrixEnd(_, saved, _, reset) => saved && reset
  }

  lemma {:induction false} NothingLost(s: Saved, events: seq<Event>)
    requires forall i :: 0 <= i < |events| ==> SavesWork(events[i])
    ensures LostEnds(s, events) == 0 && KeptMarks(s, events) == 0
    decreases |events|
  {
    if events != [] {
      assert SavesWork(events[0]);
      NothingLost(After(s, events[0]).0, events[1..]);
    }
  }

  /** With saves that work, a poll is ended at most once, by one side or the other, and then stays ended. */
  lemma EndsOnce(s: Saved, events: seq<Event>)
    requires forall i :: 0 <= i < |events| ==> SavesWork(events[i])
    ensures Ends(Run(s, events).1) == if Run(s, events).0.closed && !s.closed then 1 else 0
    ensures s.closed ==> Run(s, events).0.closed
  {
    EndsBalance(s, events);
    NothingLost(s, events);
  }

  /** A save that fails makes the next sync queue the end again. */
  lemma LostEndRepeats(ownVote: string)
    ensures var e := Sync(Some(true), None, true, false);
            Ends(Run(Saved(ownVote, false), [e, e]).1) == 2
  {
    var e := Sync(Some(true), None, true, false);
    var s := Saved(ownVote, false);
    assert After(s, e).0 == s && [EndQueued][1..] == [];
    assert After(s, e).1 == [] + [EndQueued] == [EndQueued];
    assert [e, e][1..] == [e] && [e][1..] == [];
    assert Run(s, [e]).1 == [EndQueued] + [] == [EndQueued];
    EndsConcat([EndQueued], [EndQueued]);
  }

  /** For any options at all, when a sync queues an own vote: exactly when the known vote changes, save that
      the key cannot tell a vote for one empty option from no vote. */
  lemma SyncQueues(vote: seq<PollOption>, ended: bool, closed: Option<bool>, options: seq<PollOption>, answers: seq<AnswerVoters>, saved: bool)
    requires answers != [] && options == Chosen(answers)
    ensures VoteQueued(options) in After(Saved(Key(vote), ended), Sync(closed, Some(Results(false, answers)), true, saved)).1
            <==> multiset(options) != multiset(vote) && !NoneAndEmpty(options, vote)
  {
    KeyEqual(options, vote);
  }

  /** So a vote for one empty option is lost when no vote was known. */
  lemma EmptyOptionLost(ended: bool)
    ensures var e := Sync(None, Some(Results(false, [AnswerVoters([], true)])), true, true);
            VoteQueued([[]]) !in After(Saved("", ended), e).1 && VoteQueued([[]]) in ShouldBe(Known(multiset{}, ended), e).1
  {
    var empty: PollOption := [];
    var answers := [AnswerVoters(empty, true)];
    assert answers[..0] == [] && Chosen(answers[..0]) == [] && Chosen(answers) == [empty];
    KeyOfNone();
    SyncQueues([], ended, None, [empty], answers, true);
    assert empty in multiset([empty]);
  }

  lemma KeyOfNone()
    ensures Key([]) == ""
  {
    assert Sort(Hexes([])) == [];
  }
}
