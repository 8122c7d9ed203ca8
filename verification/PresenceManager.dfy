/** The presence manager: it tracks the status remote users report and tells the homeserver about
    it, debounced, refreshed, expired and rate limited. Times are in seconds. */
module PresenceManager {
  import opened Basics
  import opened TokenBuckets

  const ACTIVITY_ONLINE: real := 300.0
  const FORGET_AFTER: real := 3600.0

  datatype Presence = Unset | Online | Offline | Unavailable

  /** A point in time, or the zero time. */
  datatype Moment = Zero | At(t: real)

  datatype Entry = Entry(desired: Presence, desiredMsg: string, sentMsg: string, until: Moment,
                         sent: Presence, sentAt: Moment, touched: real)

  datatype Config = Config(debounce: real, refresh: real, rate: real, burst: int, maxTracked: int, tickInterval: real)

  function SetDefaults(c: Config): (d: Config)
    ensures d.debounce > 0.0 && d.refresh > 0.0 && d.rate > 0.0 && d.burst > 0 && d.maxTracked > 0 && d.tickInterval > 0.0
    ensures (c.debounce > 0.0 ==> d.debounce == c.debounce) && (c.refresh > 0.0 ==> d.refresh == c.refresh)
    ensures (c.rate > 0.0 ==> d.rate == c.rate) && (c.burst > 0 ==> d.burst == c.burst)
    ensures (c.maxTracked > 0 ==> d.maxTracked == c.maxTracked)
    ensures (c.tickInterval > 0.0 ==> d.tickInterval == c.tickInterval)
    ensures c.debounce <= 0.0 ==> d.debounce == 10.0
    ensures c.refresh <= 0.0 ==> d.refresh == 240.0
    ensures c.rate <= 0.0 ==> d.rate == 5.0
    ensures c.burst <= 0 ==> d.burst == 10
    ensures c.maxTracked <= 0 ==> d.maxTracked == 10000
    ensures c.tickInterval <= 0.0 ==> d.tickInterval == 1.0
  {
    Config(if c.debounce <= 0.0 then 10.0 else c.debounce,
           if c.refresh <= 0.0 then 240.0 else c.refresh,
           if c.rate <= 0.0 then 5.0 else c.rate,
           if c.burst <= 0 then 10 else c.burst,
           if c.maxTracked <= 0 then 10000 else c.maxTracked,
           if c.tickInterval <= 0.0 then 1.0 else c.tickInterval)
  }

  /** What happened so far: accepted reports from the remote network, and requests to the homeserver, from
      when they were begun to when they were answered. */
  datatype Event =
    | Reported(user: string, presence: Presence)
    | Sent(user: string, presence: Presence, msg: string, at: real, ok: bool, done: real)

  type Entries = map<string, Entry>

  datatype State = State(entries: Entries, bucket: Bucket, log: seq<Event>)

  /** Whether `wait` has passed since `since`; the zero time is infinitely long ago. */
  predicate Elapsed(now: real, since: Moment, wait: real) {
    since.Zero? || now - since.t >= wait
  }

  // ----- Update and Activity -----

  predicate Evictable(e: Entry) {
    e.desired != Online && e.sent == e.desired
  }

  /** `victim` is an evictable entry touched longest ago, or None when there is none. */
  predicate IsVictim(entries: Entries, victim: Option<string>) {
    match victim
    case None => forall k <- entries :: !Evictable(entries[k])
    case Some(v) =>
      && v in entries && Evictable(entries[v])
      && forall k <- entries :: Evictable(entries[k]) ==> entries[v].touched <= entries[k].touched
  }

  function NewEntry(presence: Presence, now: real): Entry {
    if presence != Online then Entry(Unset, "", "", Zero, presence, At(now), now)
    else Entry(Unset, "", "", Zero, Unset, Zero, now)
  }

  function ApplyUpdate(cfg: Config, s: State, user: string, reported: Presence, until: Moment, now: real,
                       victim: Option<string>): State {
    if user == "" || reported == Unset then s
    else
      var presence := if reported == Unavailable then Offline else reported;
      var full := user !in s.entries && |s.entries| >= cfg.maxTracked;
      if full && victim.None? then s
      else
        var kept := if full then s.entries - {victim.value} else s.entries;
        var e := if user in s.entries then s.entries[user] else NewEntry(presence, now);
        s.(entries := kept[user := e.(desired := presence, desiredMsg := "", until := until, touched := now)],
           log := s.log + [Reported(user, presence)])
  }

  function ActivityAt(at: Moment, now: real): real {
    if at.Zero? || at.t > now then now else at.t
  }

  /** Whether the entry is online for longer than `until` already. */
  predicate OnlineLonger(entries: Entries, user: string, until: real) {
    user in entries && entries[user].desired == Online
    && (entries[user].until.Zero? || entries[user].until.t > until)
  }

  function ApplyActivity(cfg: Config, s: State, user: string, at: Moment, now: real, victim: Option<string>): State {
    var until := ActivityAt(at, now) + ACTIVITY_ONLINE;
    if until <= now || OnlineLonger(s.entries, user, until) then s
    else ApplyUpdate(cfg, s, user, Online, At(until), now, victim)
  }

  // ----- Tick -----

  function Expire(e: Entry, now: real): Entry {
    if e.desired == Online && e.until.At? && now >= e.until.t then e.(desired := Offline, until := Zero) else e
  }

  predicate IsDue(cfg: Config, e: Entry, now: real) {
    || ((e.desired != e.sent || e.desiredMsg != e.sentMsg) && Elapsed(now, e.sentAt, cfg.debounce))
    || (e.desired == Online && e.sent == Online && Elapsed(now, e.sentAt, cfg.refresh))
  }

  predicate IsStale(cfg: Config, e: Entry, now: real) {
    && !IsDue(cfg, e, now)
    && e.desired != Online && e.sent == e.desired && e.sentMsg == e.desiredMsg && now - e.touched > FORGET_AFTER
  }

  function Snapshot(cfg: Config, entries: Entries, now: real): Entries {
    map k | k in entries && !IsStale(cfg, Expire(entries[k], now), now) :: Expire(entries[k], now)
  }

  datatype Pending = Pending(key: string, presence: Presence, msg: string, sentAt: Moment)

  function PendingOf(key: string, e: Entry): Pending {
    Pending(key, e.desired, e.desiredMsg, e.sentAt)
  }

  predicate Before(a: Moment, b: Moment) {
    b.At? && (a.Zero? || a.t < b.t)
  }

  /** Sending order: whoever comes online before whoever goes offline, and among these by the last request. */
  predicate Less(p: Pending, q: Pending) {
    if (p.presence == Online) != (q.presence == Online) then p.presence == Online else Before(p.sentAt, q.sentAt)
  }

  predicate SortedDue(due: seq<Pending>) {
    forall i, j :: 0 <= i < j < |due| ==> !Less(due[j], due[i])
  }

  predicate DistinctKeys(due: seq<Pending>) {
    forall i, j :: 0 <= i < j < |due| ==> due[i].key != due[j].key
  }

  /** `due` lists what is to be sent after a snapshot, each user once, in sending order. */
  predicate IsDueList(cfg: Config, snapshot: Entries, now: real, due: seq<Pending>) {
    && SortedDue(due) && DistinctKeys(due)
    && (forall p <- due :: p.key in snapshot && IsDue(cfg, snapshot[p.key], now) && p == PendingOf(p.key, snapshot[p.key]))
    && (forall k <- snapshot :: IsDue(cfg, snapshot[k], now) ==> PendingOf(k, snapshot[k]) in due)
  }

  /** One attempt to send: when the limiter was asked, how the request ended, and when. */
  datatype Attempt = Attempt(askedAt: real, ok: bool, doneAt: real)

  function AfterSend(s: State, p: Pending, a: Attempt): State {
    var log := s.log + [Sent(p.key, p.presence, p.msg, a.askedAt, a.ok, a.doneAt)];
    if p.key !in s.entries then s.(log := log)
    else
      var bumped := s.entries[p.key].(sentAt := At(a.doneAt));
      var e := if a.ok then bumped.(sent := p.presence, sentMsg := p.msg) else bumped;
      s.(entries := s.entries[p.key := e], log := log)
  }

  function SendDue(s: State, due: seq<Pending>, attempts: nat -> Attempt, n: nat): State
    decreases |due|
  {
    if due == [] then s
    else
      var (ok, bucket) := Allow(s.bucket, attempts(n).askedAt);
      if !ok then s.(bucket := bucket)
      else SendDue(AfterSend(s.(bucket := bucket), due[0], attempts(n)), due[1..], attempts, n + 1)
  }

  function ApplyTick(cfg: Config, s: State, now: real, due: seq<Pending>, attempts: nat -> Attempt): State {
    SendDue(s.(entries := Snapshot(cfg, s.entries, now)), due, attempts, 0)
  }

  // ----- Runs -----

  datatype Action =
    | Update(user: string, presence: Presence, until: Moment, now: real, victim: Option<string>)
    | Activity(user: string, at: Moment, now: real, victim: Option<string>)
    | Tick(now: real, due: seq<Pending>, attempts: nat -> Attempt)

  function Apply(cfg: Config, s: State, a: Action): State {
    match a
    case Update(user, presence, until, now, victim) => ApplyUpdate(cfg, s, user, presence, until, now, victim)
    case Activity(user, at, now, victim) => ApplyActivity(cfg, s, user, at, now, victim)
    case Tick(now, due, attempts) => ApplyTick(cfg, s, now, due, attempts)
  }

  /** What an action may choose: the entry that eviction picks, the order of what is due, and a clock
      for the limiter that does not run backwards. */
  ghost predicate Enabled(cfg: Config, s: State, a: Action) {
    match a
    case Update(user, presence, until, now, victim) => IsVictim(s.entries, victim)
    case Activity(user, at, now, victim) => IsVictim(s.entries, victim)
    case Tick(now, due, attempts) =>
      && IsDueList(cfg, Snapshot(cfg, s.entries, now), now, due)
      && ClockForward(s.bucket.last, attempts)
  }

  ghost predicate ClockForward(last: real, attempts: nat -> Attempt) {
    && (forall n: nat :: last <= attempts(n).askedAt)
    && (forall m: nat, n: nat :: m <= n ==> attempts(m).askedAt <= attempts(n).askedAt)
  }

  function Initial(cfg: Config, now: real): State {
    State(map[], Bucket(cfg.rate, cfg.burst as real, cfg.burst as real, now), [])
  }

  function Run(cfg: Config, s: State, actions: seq<Action>): State {
    if actions == [] then s
    else Apply(cfg, Run(cfg, s, actions[..|actions| - 1]), actions[|actions| - 1])
  }

  ghost predicate CanRun(cfg: Config, s: State, actions: seq<Action>) {
    actions == [] ||
    (var front := actions[..|actions| - 1];
     CanRun(cfg, s, front) && Enabled(cfg, Run(cfg, s, front), actions[|actions| - 1]))
  }

  // ----- What the log says -----

  /** What the homeserver was last told about a user. */
  function Told(log: seq<Event>, user: string): Presence {
    if log == [] then Unset
    else
      var last := log[|log| - 1];
      if last.Sent? && last.user == user && last.ok then last.presence else Told(log[..|log| - 1], user)
  }

  /** Whether the user was reported online since the last successful offline request. */
  predicate OnlineSinceOffline(log: seq<Event>, user: string) {
    log != [] &&
    (var last := log[|log| - 1];
     if last == Reported(user, Online) then true
     else if last.Sent? && last.user == user && last.ok && last.presence == Offline then false
     else OnlineSinceOffline(log[..|log| - 1], user))
  }

  function SentSince(log: seq<Event>, t: real): nat {
    if log == [] then 0
    else
      var last := log[|log| - 1];
      (if last.Sent? && last.at >= t then 1 else 0) + SentSince(log[..|log| - 1], t)
  }

  // ----- The invariant -----

  /** An entry that agrees with the log. */
  predicate EntryAgrees(log: seq<Event>, user: string, e: Entry) {
    && e.desired in {Online, Offline} && e.sent in {Unset, Online, Offline}
    && e.desiredMsg == "" && e.sentMsg == ""
    && (e.sent == Online <==> Told(log, user) == Online)
    && (e.sent != Offline || e.desired == Online ==> OnlineSinceOffline(log, user))
  }

  /** The table mirrors the homeserver: a tracked user's `sent` is online iff the homeserver was last
      told so, and no untracked user was last told online. */
  ghost predicate Mirrors(entries: Entries, log: seq<Event>) {
    && (forall k <- entries :: EntryAgrees(log, k, entries[k]))
    && (forall k :: k !in entries ==> Told(log, k) != Online)
  }

  /** Every offline request was preceded by an online report, and no request carries a message. */
  predicate OfflinesJustified(log: seq<Event>) {
    forall i :: 0 <= i < |log| && log[i].Sent? ==>
      && log[i].msg == "" && log[i].presence in {Online, Offline}
      && (log[i].presence == Offline ==> OnlineSinceOffline(log[..i], log[i].user))
  }

  ghost predicate RateKept(bucket: Bucket, log: seq<Event>) {
    && InRange(bucket)
    && (forall i :: 0 <= i < |log| && log[i].Sent? ==> log[i].at <= bucket.last)
    && (forall t :: t <= bucket.last ==>
          SentSince(log, t) as real + bucket.tokens <= bucket.burst + Gain(bucket.last - t, bucket.rate))
  }

  ghost predicate Inv(cfg: Config, s: State) {
    && "" !in s.entries && |s.entries| <= cfg.maxTracked
    && Mirrors(s.entries, s.log) && OfflinesJustified(s.log) && RateKept(s.bucket, s.log)
    && s.bucket.burst == cfg.burst as real && s.bucket.rate == cfg.rate
  }

  lemma LogStep(log: seq<Event>, e: Event)
    ensures (log + [e])[..|log|] == log && (log + [e])[|log|] == e && |log + [e]| == |log| + 1
  {
  }

  lemma JustifiedStep(log: seq<Event>, e: Event)
    requires OfflinesJustified(log)
    requires e.Sent? ==> e.msg == "" && e.presence in {Online, Offline}
                         && (e.presence == Offline ==> OnlineSinceOffline(log, e.user))
    ensures OfflinesJustified(log + [e])
  {
    var log' := log + [e];
    forall i | 0 <= i < |log'|
      ensures log'[i] == (if i < |log| then log[i] else e) && log'[..i] == (if i < |log| then log[..i] else log)
    {
    }
  }

  lemma InitialInv(cfg: Config, now: real)
    requires cfg.maxTracked > 0 && cfg.burst > 0 && cfg.rate > 0.0
    ensures Inv(cfg, Initial(cfg, now))
  {
    var b := Initial(cfg, now).bucket;
    forall t | t <= b.last
      ensures SentSince([], t) as real + b.tokens <= b.burst + Gain(b.last - t, b.rate)
    {
      GainNonNegative(b.last - t, b.rate);
    }
  }

  lemma ReportKeepsRate(bucket: Bucket, log: seq<Event>, user: string, presence: Presence)
    requires RateKept(bucket, log)
    ensures RateKept(bucket, log + [Reported(user, presence)])
  {
    LogStep(log, Reported(user, presence));
    var log' := log + [Reported(user, presence)];
    assert forall t :: SentSince(log', t) == SentSince(log, t);
  }

  /** The table and the log agree on one user. */
  predicate AgreeOn(entries: Entries, log: seq<Event>, k: string) {
    if k in entries then EntryAgrees(log, k, entries[k]) else Told(log, k) != Online
  }

  lemma MirrorsAgree(entries: Entries, log: seq<Event>, k: string)
    requires Mirrors(entries, log)
    ensures AgreeOn(entries, log, k)
  {
  }

  lemma AgreeMirrors(entries: Entries, log: seq<Event>)
    requires forall k :: AgreeOn(entries, log, k)
    ensures Mirrors(entries, log)
  {
    forall k | k in entries
      ensures EntryAgrees(log, k, entries[k])
    {
      assert AgreeOn(entries, log, k);
    }
    forall k | k !in entries
      ensures Told(log, k) != Online
    {
      assert AgreeOn(entries, log, k);
    }
  }

  lemma UpdateAgrees(cfg: Config, s: State, user: string, reported: Presence, until: Moment, now: real,
                     victim: Option<string>, k: string)
    requires AgreeOn(s.entries, s.log, k) && IsVictim(s.entries, victim)
    ensures var s' := ApplyUpdate(cfg, s, user, reported, until, now, victim); AgreeOn(s'.entries, s'.log, k)
  {
    var s' := ApplyUpdate(cfg, s, user, reported, until, now, victim);
    if s' != s {
      LogStep(s.log, Reported(user, if reported == Unavailable then Offline else reported));
    }
  }

  lemma UpdateMirrors(cfg: Config, s: State, user: string, reported: Presence, until: Moment, now: real,
                      victim: Option<string>)
    requires Inv(cfg, s) && IsVictim(s.entries, victim) && cfg.maxTracked > 0
    ensures var s' := ApplyUpdate(cfg, s, user, reported, until, now, victim);
            "" !in s'.entries && |s'.entries| <= cfg.maxTracked && Mirrors(s'.entries, s'.log)
  {
    var s' := ApplyUpdate(cfg, s, user, reported, until, now, victim);
    forall k
      ensures AgreeOn(s'.entries, s'.log, k)
    {
      MirrorsAgree(s.entries, s.log, k);
      UpdateAgrees(cfg, s, user, reported, until, now, victim, k);
    }
    AgreeMirrors(s'.entries, s'.log);
  }

  lemma UpdateInv(cfg: Config, s: State, user: string, reported: Presence, until: Moment, now: real,
                  victim: Option<string>)
    requires Inv(cfg, s) && IsVictim(s.entries, victim) && cfg.maxTracked > 0
    ensures Inv(cfg, ApplyUpdate(cfg, s, user, reported, until, now, victim))
  {
    UpdateMirrors(cfg, s, user, reported, until, now, victim);
    var presence := if reported == Unavailable then Offline else reported;
    JustifiedStep(s.log, Reported(user, presence));
    ReportKeepsRate(s.bucket, s.log, user, presence);
  }

  lemma AllowKeepsRate(bucket: Bucket, log: seq<Event>, a: Attempt, p: Pending)
    requires RateKept(bucket, log) && bucket.last <= a.askedAt
    ensures var (ok, bucket') := Allow(bucket, a.askedAt);
            && bucket'.last == a.askedAt && bucket'.burst == bucket.burst && bucket'.rate == bucket.rate
            && (if ok then RateKept(bucket', log + [Sent(p.key, p.presence, p.msg, a.askedAt, a.ok, a.doneAt)])
                else RateKept(bucket', log))
  {
    var now := a.askedAt;
    var (ok, b) := Allow(bucket, now);
    AllowInRange(bucket, now);
    var log' := if ok then log + [Sent(p.key, p.presence, p.msg, now, a.ok, a.doneAt)] else log;
    var one := if ok then 1 else 0;
    LogStep(log, Sent(p.key, p.presence, p.msg, now, a.ok, a.doneAt));
    forall t | t <= now
      ensures SentSince(log', t) as real + b.tokens <= b.burst + Gain(now - t, b.rate)
    {
      assert SentSince(log', t) == SentSince(log, t) + one;
      if t <= bucket.last {
        GainSplits(t, bucket.last, now, b.rate);
      } else {
        NoneSince(log, bucket.last, t);
        GainNonNegative(now - t, b.rate);
        assert Refill(bucket, now).tokens <= b.burst;
      }
    }
  }

  lemma {:induction false} NoneSince(log: seq<Event>, last: real, t: real)
    requires last < t && forall i :: 0 <= i < |log| && log[i].Sent? ==> log[i].at <= last
    ensures SentSince(log, t) == 0
  {
    if log != [] {
      NoneSince(log[..|log| - 1], last, t);
    }
  }

  lemma SnapshotInv(cfg: Config, s: State, now: real)
    requires Inv(cfg, s)
    ensures Inv(cfg, s.(entries := Snapshot(cfg, s.entries, now)))
  {
    var snapshot := Snapshot(cfg, s.entries, now);
    assert snapshot.Keys <= s.entries.Keys;
    SubsetNoLarger(snapshot.Keys, s.entries.Keys);
    forall k | k !in snapshot
      ensures Told(s.log, k) != Online
    {
      if k in s.entries {
        assert EntryAgrees(s.log, k, s.entries[k]);
      }
    }
  }

  lemma SubsetNoLarger<T>(a: set<T>, b: set<T>)
    requires a <= b
    ensures |a| <= |b|
  {
    if a != b {
      SubsetSmaller(a, b);
    }
  }

  /** What remains due while sending: each is still as the snapshot left it. */
  predicate StillDue(entries: Entries, due: seq<Pending>) {
    DistinctKeys(due) && forall p <- due ::
      && p.key in entries && p == PendingOf(p.key, entries[p.key])
      && (entries[p.key].sent != p.presence || p.presence == Online)
  }

  lemma AfterSendAgrees(s: State, p: Pending, a: Attempt, k: string)
    requires AgreeOn(s.entries, s.log, k) && p.key in s.entries && p == PendingOf(p.key, s.entries[p.key])
    requires s.entries[p.key].sent != p.presence || p.presence == Online
    ensures var s' := AfterSend(s, p, a); AgreeOn(s'.entries, s'.log, k)
  {
    LogStep(s.log, Sent(p.key, p.presence, p.msg, a.askedAt, a.ok, a.doneAt));
  }

  lemma AfterSendMirrors(cfg: Config, s: State, p: Pending, a: Attempt)
    requires Inv(cfg, s) && StillDue(s.entries, [p])
    ensures var s' := AfterSend(s, p, a);
            s'.entries.Keys == s.entries.Keys && Mirrors(s'.entries, s'.log)
  {
    var s' := AfterSend(s, p, a);
    assert p in [p];
    forall k
      ensures AgreeOn(s'.entries, s'.log, k)
    {
      MirrorsAgree(s.entries, s.log, k);
      AfterSendAgrees(s, p, a, k);
    }
    AgreeMirrors(s'.entries, s'.log);
  }

  lemma AfterSendInv(cfg: Config, s: State, p: Pending, a: Attempt)
    requires Inv(cfg, s) && StillDue(s.entries, [p]) && s.bucket.last <= a.askedAt && Allow(s.bucket, a.askedAt).0
    ensures Inv(cfg, AfterSend(s.(bucket := Allow(s.bucket, a.askedAt).1), p, a))
  {
    AllowKeepsRate(s.bucket, s.log, a, p);
    AfterSendMirrors(cfg, s, p, a);
    assert p in [p];
    assert EntryAgrees(s.log, p.key, s.entries[p.key]);
    JustifiedStep(s.log, Sent(p.key, p.presence, p.msg, a.askedAt, a.ok, a.doneAt));
    var s' := AfterSend(s.(bucket := Allow(s.bucket, a.askedAt).1), p, a);
    assert s'.entries == AfterSend(s, p, a).entries && s'.log == AfterSend(s, p, a).log;
    assert |s'.entries| == |s'.entries.Keys| == |s.entries.Keys| == |s.entries|;
  }

  /** Sending one leaves the others as they were. */
  lemma RestStillDue(s: State, due: seq<Pending>, a: Attempt)
    requires due != [] && StillDue(s.entries, due)
    ensures StillDue(s.entries, [due[0]])
    ensures StillDue(AfterSend(s, due[0], a).entries, due[1..])
  {
    assert due[0] in due;
    forall p | p in due[1..]
      ensures p in due && p.key != due[0].key
    {
      var i :| 0 <= i < |due[1..]| && due[1..][i] == p;
      assert due[i + 1] == p;
    }
  }

  lemma {:induction false} SendDueInv(cfg: Config, s: State, due: seq<Pending>, attempts: nat -> Attempt, n: nat)
    requires Inv(cfg, s) && StillDue(s.entries, due)
    requires s.bucket.last <= attempts(n).askedAt
    requires forall i: nat, j: nat :: i <= j ==> attempts(i).askedAt <= attempts(j).askedAt
    ensures Inv(cfg, SendDue(s, due, attempts, n))
    decreases |due|
  {
    if due != [] {
      AllowKeepsRate(s.bucket, s.log, attempts(n), due[0]);
      var (ok, bucket) := Allow(s.bucket, attempts(n).askedAt);
      if ok {
        RestStillDue(s, due, attempts(n));
        AfterSendInv(cfg, s, due[0], attempts(n));
        var s' := AfterSend(s.(bucket := bucket), due[0], attempts(n));
        assert s'.entries == AfterSend(s, due[0], attempts(n)).entries;
        SendDueInv(cfg, s', due[1..], attempts, n + 1);
      }
    }
  }

  lemma TickInv(cfg: Config, s: State, now: real, due: seq<Pending>, attempts: nat -> Attempt)
    requires Inv(cfg, s) && Enabled(cfg, s, Tick(now, due, attempts))
    ensures Inv(cfg, ApplyTick(cfg, s, now, due, attempts))
  {
    var s1 := s.(entries := Snapshot(cfg, s.entries, now));
    SnapshotInv(cfg, s, now);
    DueStillDue(cfg, s1, now, due);
    SendDueInv(cfg, s1, due, attempts, 0);
  }

  lemma DueStillDue(cfg: Config, s: State, now: real, due: seq<Pending>)
    requires Inv(cfg, s) && IsDueList(cfg, s.entries, now, due)
    ensures StillDue(s.entries, due)
  {
    forall p | p in due
      ensures s.entries[p.key].sent != p.presence || p.presence == Online
    {
      assert EntryAgrees(s.log, p.key, s.entries[p.key]);
    }
  }

  lemma ActivityInv(cfg: Config, s: State, user: string, at: Moment, now: real, victim: Option<string>)
    requires Inv(cfg, s) && IsVictim(s.entries, victim) && cfg.maxTracked > 0
    ensures Inv(cfg, ApplyActivity(cfg, s, user, at, now, victim))
  {
    var until := ActivityAt(at, now) + ACTIVITY_ONLINE;
    if !(until <= now || OnlineLonger(s.entries, user, until)) {
      UpdateInv(cfg, s, user, Online, At(until), now, victim);
    }
  }

  lemma ApplyInv(cfg: Config, s: State, a: Action)
    requires Inv(cfg, s) && Enabled(cfg, s, a) && cfg.maxTracked > 0
    ensures Inv(cfg, Apply(cfg, s, a))
  {
    match a
    case Update(user, presence, until, now, victim) => UpdateInv(cfg, s, user, presence, until, now, victim);
    case Activity(user, at, now, victim) => ActivityInv(cfg, s, user, at, now, victim);
    case Tick(now, due, attempts) => TickInv(cfg, s, now, due, attempts);
  }

  /** Every reachable state keeps the invariant. */
  lemma {:induction false} RunInv(cfg: Config, start: real, actions: seq<Action>)
    requires cfg.maxTracked > 0 && cfg.burst > 0 && cfg.rate > 0.0
    requires CanRun(cfg, Initial(cfg, start), actions)
    ensures Inv(cfg, Run(cfg, Initial(cfg, start), actions))
  {
    if actions == [] {
      InitialInv(cfg, start);
    } else {
      var front := actions[..|actions| - 1];
      RunInv(cfg, start, front);
      ApplyInv(cfg, Run(cfg, Initial(cfg, start), front), actions[|actions| - 1]);
    }
  }

  lemma InvMeans(cfg: Config, s: State)
    requires Inv(cfg, s)
    ensures forall k <- s.entries :: s.entries[k].sent == Online <==> Told(s.log, k) == Online
    ensures forall t :: t <= s.bucket.last ==>
              SentSince(s.log, t) as real <= cfg.burst as real + Gain(s.bucket.last - t, cfg.rate)
  {
    forall k | k in s.entries
      ensures s.entries[k].sent == Online <==> Told(s.log, k) == Online
    {
      assert EntryAgrees(s.log, k, s.entries[k]);
    }
  }

  /** In every reachable state: a tracked user counts as online exactly when the homeserver was last
      told so, no untracked user was last told online, the table is bounded, every offline request
      followed an online report, and requests since any time are bounded by burst plus refill. */
  lemma ReachableStates(cfg: Config, start: real, actions: seq<Action>, s: State)
    requires cfg == SetDefaults(cfg) && CanRun(cfg, Initial(cfg, start), actions)
    requires s == Run(cfg, Initial(cfg, start), actions)
    ensures |s.entries| <= cfg.maxTracked
    ensures forall k <- s.entries :: s.entries[k].sent == Online <==> Told(s.log, k) == Online
    ensures forall k :: k !in s.entries ==> Told(s.log, k) != Online
    ensures forall i :: 0 <= i < |s.log| && s.log[i].Sent? && s.log[i].presence == Offline ==>
              OnlineSinceOffline(s.log[..i], s.log[i].user)
    ensures forall t :: t <= s.bucket.last ==>
              SentSince(s.log, t) as real <= cfg.burst as real + Gain(s.bucket.last - t, cfg.rate)
  {
    RunInv(cfg, start, actions);
    InvMeans(cfg, s);
  }

  predicate WentOffline(e: Event, user: string) {
    e.Sent? && e.user == user && e.ok && e.presence == Offline
  }

  /** What "since the last successful offline request" means on the log. */
  lemma {:induction false} OnlineSinceOfflineMeans(log: seq<Event>, user: string)
    ensures OnlineSinceOffline(log, user) <==>
            exists i :: 0 <= i < |log| && log[i] == Reported(user, Online)
                        && forall j :: i < j < |log| ==> !WentOffline(log[j], user)
  {
    if log != [] {
      var front := log[..|log| - 1];
      OnlineSinceOfflineMeans(front, user);
      if log[|log| - 1] != Reported(user, Online) {
        if OnlineSinceOffline(log, user) {
          var i :| 0 <= i < |front| && front[i] == Reported(user, Online)
                   && forall j :: i < j < |front| ==> !WentOffline(front[j], user);
          assert log[i] == Reported(user, Online);
          assert forall j :: i < j < |log| ==> !WentOffline(log[j], user);
        } else if !WentOffline(log[|log| - 1], user) {
          forall i | 0 <= i < |log| && log[i] == Reported(user, Online)
            ensures exists j :: i < j < |log| && WentOffline(log[j], user)
          {
            assert front[i] == Reported(user, Online);
            var j :| i < j < |front| && WentOffline(front[j], user);
            assert log[j] == front[j];
          }
        }
      }
    }
  }

  predicate AtLeastAsLong(before: Moment, after: Moment) {
    after.Zero? || (before.At? && before.t <= after.t)
  }

  /** Activity makes the user online and never cuts an online period short, of that user or another. */
  lemma ActivityNeverShortens(cfg: Config, s: State, user: string, at: Moment, now: real, victim: Option<string>, other: string)
    requires Inv(cfg, s) && IsVictim(s.entries, victim)
    requires other in s.entries && s.entries[other].desired == Online
    ensures var s' := ApplyActivity(cfg, s, user, at, now, victim);
            && other in s'.entries && s'.entries[other].desired == Online
            && AtLeastAsLong(s.entries[other].until, s'.entries[other].until)
            && (other != user ==> s'.entries[other] == s.entries[other])
  {
  }

  /** An online period that is over is due as offline at a tick exactly when the homeserver may still
      think otherwise and the debounce has passed. */
  lemma ExpiredIsDue(cfg: Config, s: State, now: real, due: seq<Pending>, k: string)
    requires Inv(cfg, s) && IsDueList(cfg, Snapshot(cfg, s.entries, now), now, due)
    requires k in s.entries && s.entries[k].desired == Online
    requires s.entries[k].until.At? && now >= s.entries[k].until.t
    ensures Pending(k, Offline, "", s.entries[k].sentAt) in due <==>
            s.entries[k].sent != Offline && Elapsed(now, s.entries[k].sentAt, cfg.debounce)
  {
    var e := s.entries[k];
    assert EntryAgrees(s.log, k, e);
    var p := Pending(k, Offline, "", e.sentAt);
    if IsDue(cfg, Expire(e, now), now) {
      assert k in Snapshot(cfg, s.entries, now);
      assert PendingOf(k, Expire(e, now)) == p;
    }
  }

  // ----- While a user is left alone -----

  /** Nothing about the user was logged from position `from` on. */
  predicate NoEvents(log: seq<Event>, from: nat, user: string) {
    forall i :: from <= i < |log| ==> log[i].user != user
  }

  lemma {:induction false} SendDueQuiet(s: State, due: seq<Pending>, attempts: nat -> Attempt, n: nat, k: string)
    ensures var s' := SendDue(s, due, attempts, n);
            && s.log <= s'.log && s'.entries.Keys == s.entries.Keys
            && (NoEvents(s'.log, |s.log|, k) && k in s.entries ==> s'.entries[k] == s.entries[k])
    decreases |due|
  {
    if due != [] {
      var (ok, bucket) := Allow(s.bucket, attempts(n).askedAt);
      if ok {
        var s1 := AfterSend(s.(bucket := bucket), due[0], attempts(n));
        SendDueQuiet(s1, due[1..], attempts, n + 1, k);
        var s' := SendDue(s1, due[1..], attempts, n + 1);
        assert s'.log[|s.log|] == s1.log[|s.log|];
      }
    }
  }

  /** A user who is to be told offline, at `until` or already, and was not told so yet. */
  predicate Expiring(s: State, k: string, until: real, sentAt: Moment) {
    && k in s.entries && s.entries[k].sent != Offline && s.entries[k].sentAt == sentAt
    && (s.entries[k].desired == Online ==> s.entries[k].until == At(until))
  }

  /** A report that is not about a user leaves them alone, unless it evicts them. */
  lemma UpdateQuiet(cfg: Config, s: State, user: string, reported: Presence, until: Moment, now: real,
                    victim: Option<string>, k: string)
    requires IsVictim(s.entries, victim)
    ensures var s' := ApplyUpdate(cfg, s, user, reported, until, now, victim);
            && s.log <= s'.log
            && (NoEvents(s'.log, |s.log|, k) && k in s.entries ==>
                  (if k in s'.entries then s'.entries[k] == s.entries[k] else victim == Some(k)))
            && (NoEvents(s'.log, |s.log|, k) && k !in s.entries ==> k !in s'.entries)
  {
    var s' := ApplyUpdate(cfg, s, user, reported, until, now, victim);
    if s'.log != s.log {
      assert s'.log[|s.log|].user == user;
    }
  }

  lemma QuietStep(cfg: Config, s: State, a: Action, k: string, until: real, sentAt: Moment)
    requires Inv(cfg, s) && Enabled(cfg, s, a) && Expiring(s, k, until, sentAt)
    ensures s.log <= Apply(cfg, s, a).log
    ensures NoEvents(Apply(cfg, s, a).log, |s.log|, k) ==> Expiring(Apply(cfg, s, a), k, until, sentAt)
  {
    assert EntryAgrees(s.log, k, s.entries[k]);
    match a
    case Update(user, presence, moment, now, victim) => UpdateQuiet(cfg, s, user, presence, moment, now, victim, k);
    case Activity(user, at, now, victim) =>
      UpdateQuiet(cfg, s, user, Online, At(ActivityAt(at, now) + ACTIVITY_ONLINE), now, victim, k);
    case Tick(now, due, attempts) =>
      SendDueQuiet(s.(entries := Snapshot(cfg, s.entries, now)), due, attempts, 0, k);
  }

  lemma {:induction false} QuietRun(cfg: Config, s: State, actions: seq<Action>, k: string, until: real, sentAt: Moment)
    requires cfg.maxTracked > 0 && Inv(cfg, s) && CanRun(cfg, s, actions) && Expiring(s, k, until, sentAt)
    requires NoEvents(Run(cfg, s, actions).log, |s.log|, k)
    ensures s.log <= Run(cfg, s, actions).log && Inv(cfg, Run(cfg, s, actions))
    ensures Expiring(Run(cfg, s, actions), k, until, sentAt)
  {
    if actions != [] {
      var front, last := actions[..|actions| - 1], actions[|actions| - 1];
      RunAppends(cfg, s, front);
      var s1 := Run(cfg, s, front);
      ApplyAppends(cfg, s1, last);
      QuietRun(cfg, s, front, k, until, sentAt);
      QuietStep(cfg, s1, last, k, until, sentAt);
      ApplyInv(cfg, s1, last);
    }
  }

  lemma ApplyAppends(cfg: Config, s: State, a: Action)
    ensures s.log <= Apply(cfg, s, a).log
  {
    if a.Tick? {
      SendDueQuiet(s.(entries := Snapshot(cfg, s.entries, a.now)), a.due, a.attempts, 0, "");
    }
  }

  lemma {:induction false} RunAppends(cfg: Config, s: State, actions: seq<Action>)
    ensures s.log <= Run(cfg, s, actions).log
  {
    if actions != [] {
      var front := actions[..|actions| - 1];
      RunAppends(cfg, s, front);
      ApplyAppends(cfg, Run(cfg, s, front), actions[|actions| - 1]);
    }
  }

  /** Whatever else happens to others in between, and however many ticks come too early: at every later tick
      after `until`, as long as nothing about the user was reported or sent, they are due as offline exactly
      when the debounce since the last request for them has passed. */
  lemma ExpiredBecomesDue(cfg: Config, s: State, actions: seq<Action>, k: string, until: real, sentAt: Moment,
                          now: real, due: seq<Pending>)
    requires cfg.maxTracked > 0 && Inv(cfg, s) && CanRun(cfg, s, actions) && Expiring(s, k, until, sentAt)
    requires NoEvents(Run(cfg, s, actions).log, |s.log|, k) && now >= until
    requires IsDueList(cfg, Snapshot(cfg, Run(cfg, s, actions).entries, now), now, due)
    ensures k in Run(cfg, s, actions).entries
    ensures Pending(k, Offline, "", sentAt) in due <==> Elapsed(now, sentAt, cfg.debounce)
  {
    QuietRun(cfg, s, actions, k, until, sentAt);
    DueAsOffline(cfg, Run(cfg, s, actions), k, until, sentAt, now, due);
  }

  lemma DueAsOffline(cfg: Config, s: State, k: string, until: real, sentAt: Moment, now: real, due: seq<Pending>)
    requires Inv(cfg, s) && Expiring(s, k, until, sentAt) && now >= until
    requires IsDueList(cfg, Snapshot(cfg, s.entries, now), now, due)
    ensures Pending(k, Offline, "", sentAt) in due <==> Elapsed(now, sentAt, cfg.debounce)
  {
    var e := s.entries[k];
    assert EntryAgrees(s.log, k, e);
    var p := Pending(k, Offline, "", sentAt);
    assert k in Snapshot(cfg, s.entries, now) && PendingOf(k, Expire(e, now)) == p;
    assert IsDue(cfg, Expire(e, now), now) <==> Elapsed(now, sentAt, cfg.debounce);
  }

  // ----- What a tick sends -----

  /** Who comes online is told first, and among those and among the others whoever was last told longest ago. */
  lemma SendingOrder(cfg: Config, snapshot: Entries, now: real, due: seq<Pending>, i: nat, j: nat)
    requires IsDueList(cfg, snapshot, now, due) && i < j < |due|
    ensures due[j].presence == Online ==> due[i].presence == Online
    ensures (due[i].presence == Online <==> due[j].presence == Online) ==>
              due[i].sentAt.Zero? || (due[j].sentAt.At? && due[i].sentAt.t <= due[j].sentAt.t)
  {
    assert !Less(due[j], due[i]);
  }

  /** The requests for the first `g` of what is due, as the attempts from number `n` on go. */
  function RequestsFor(due: seq<Pending>, attempts: nat -> Attempt, n: nat, g: nat): seq<Event>
    requires g <= |due|
  {
    seq(g, i requires 0 <= i < g =>
      var a := attempts(n + i);
      Sent(due[i].key, due[i].presence, due[i].msg, a.askedAt, a.ok, a.doneAt))
  }

  /** When the limiter is asked, the first `g` times. */
  function AskedTimes(attempts: nat -> Attempt, n: nat, g: nat): seq<real> {
    seq(g, i requires 0 <= i < g => attempts(n + i).askedAt)
  }

  /** A tick sends what is due in order, up to the first that the limiter does not grant, and that is the only one
      it is asked for in vain. */
  lemma {:induction false} TickSends(s: State, due: seq<Pending>, attempts: nat -> Attempt, n: nat) returns (g: nat)
    ensures g <= |due| && SendDue(s, due, attempts, n).log == s.log + RequestsFor(due, attempts, n, g)
    ensures AllGranted(s.bucket, AskedTimes(attempts, n, g))
    ensures g < |due| ==> !AllGranted(s.bucket, AskedTimes(attempts, n, g + 1))
    decreases |due|
  {
    g := 0;
    if due == [] {
      assert s.log + [] == s.log;
    } else {
      var a := attempts(n);
      var (ok, bucket) := Allow(s.bucket, a.askedAt);
      if ok {
        var s1 := AfterSend(s.(bucket := bucket), due[0], a);
        var rest := TickSends(s1, due[1..], attempts, n + 1);
        g := rest + 1;
        TimesSplit(s.bucket, attempts, n, rest);
        TimesSplit(s.bucket, attempts, n, rest + 1);
        RequestsSplit(s.log, due, attempts, n, rest);
      } else {
        TimesSplit(s.bucket, attempts, n, 0);
        assert s.log + [] == s.log;
      }
    }
  }

  /** The limiter grants every one of the requests. */
  predicate AllGranted(b: Bucket, times: seq<real>) {
    Grants(b, times) == seq(|times|, i => true)
  }

  lemma TimesSplit(b: Bucket, attempts: nat -> Attempt, n: nat, g: nat)
    ensures var (ok, b') := Allow(b, attempts(n).askedAt);
            AllGranted(b, AskedTimes(attempts, n, g + 1)) <==> ok && AllGranted(b', AskedTimes(attempts, n + 1, g))
  {
    var times, rest := AskedTimes(attempts, n, g + 1), AskedTimes(attempts, n + 1, g);
    var (ok, b') := Allow(b, attempts(n).askedAt);
    assert times[0] == attempts(n).askedAt && times[1..] == rest;
    assert Grants(b, times) == [ok] + Grants(b', rest);
    var trues := seq(g + 1, i => true);
    assert trues == [true] + seq(g, i => true);
    assert [ok] + Grants(b', rest) == trues <==> ok && Grants(b', rest) == seq(g, i => true) by {
      assert ([ok] + Grants(b', rest))[1..] == Grants(b', rest) && ([true] + seq(g, i => true))[1..] == seq(g, i => true);
    }
  }

  lemma RequestsSplit(log: seq<Event>, due: seq<Pending>, attempts: nat -> Attempt, n: nat, g: nat)
    requires due != [] && g < |due|
    ensures var a := attempts(n);
            log + RequestsFor(due, attempts, n, g + 1)
            == log + [Sent(due[0].key, due[0].presence, due[0].msg, a.askedAt, a.ok, a.doneAt)]
               + RequestsFor(due[1..], attempts, n + 1, g)
  {
    var all, rest := RequestsFor(due, attempts, n, g + 1), RequestsFor(due[1..], attempts, n + 1, g);
    assert all == [all[0]] + rest;
    assert log + ([all[0]] + rest) == log + [all[0]] + rest;
  }

  // ----- What a report is good for -----

  predicate NoReports(log: seq<Event>, from: nat, user: string) {
    forall i :: from <= i < |log| ==> !(log[i].Reported? && log[i].user == user)
  }

  /** Whether one of the actions is a tick at `until` or later. */
  predicate Ticked(actions: seq<Action>, until: Moment) {
    exists i :: 0 <= i < |actions| && actions[i].Tick? && until.At? && actions[i].now >= until.t
  }

  /** The table has a user as they were reported, at the time they were; or as offline, if their time online
      has ended. Someone online is not dropped from it. */
  predicate Holds(s: State, k: string, presence: Presence, until: Moment, at: real, ended: bool) {
    && (presence == Online && !ended ==> k in s.entries)
    && (k in s.entries ==>
          var e := s.entries[k];
          && e.touched == at && e.desiredMsg == ""
          && if presence == Online && ended then e.desired == Offline && e.until == Zero
             else e.desired == presence && e.until == until)
  }

  lemma {:induction false} SendDueHolds(s: State, due: seq<Pending>, attempts: nat -> Attempt, n: nat, k: string,
                                        presence: Presence, until: Moment, at: real, ended: bool)
    requires Holds(s, k, presence, until, at, ended)
    ensures Holds(SendDue(s, due, attempts, n), k, presence, until, at, ended)
    decreases |due|
  {
    if due != [] {
      var (ok, bucket) := Allow(s.bucket, attempts(n).askedAt);
      if ok {
        SendDueHolds(AfterSend(s.(bucket := bucket), due[0], attempts(n)), due[1..], attempts, n + 1, k, presence, until, at, ended);
      }
    }
  }

  lemma SnapshotHolds(cfg: Config, s: State, now: real, k: string, presence: Presence, until: Moment, at: real, ended: bool)
    requires Holds(s, k, presence, until, at, ended)
    ensures Holds(s.(entries := Snapshot(cfg, s.entries, now)), k, presence, until, at, ended || (until.At? && now >= until.t))
  {
  }

  lemma UpdateHolds(cfg: Config, s: State, user: string, reported: Presence, moment: Moment, now: real, victim: Option<string>,
                    k: string, presence: Presence, until: Moment, at: real, ended: bool)
    requires Holds(s, k, presence, until, at, ended) && IsVictim(s.entries, victim)
    requires NoReports(ApplyUpdate(cfg, s, user, reported, moment, now, victim).log, |s.log|, k)
    ensures Holds(ApplyUpdate(cfg, s, user, reported, moment, now, victim), k, presence, until, at, ended)
  {
    var s' := ApplyUpdate(cfg, s, user, reported, moment, now, victim);
    if s'.log != s.log {
      assert s'.log[|s.log|].Reported? && s'.log[|s.log|].user == user;
    }
  }

  lemma StepHolds(cfg: Config, s: State, a: Action, k: string, presence: Presence, until: Moment, at: real, ended: bool)
    requires Holds(s, k, presence, until, at, ended) && Enabled(cfg, s, a)
    requires NoReports(Apply(cfg, s, a).log, |s.log|, k)
    ensures Holds(Apply(cfg, s, a), k, presence, until, at, ended || (a.Tick? && until.At? && a.now >= until.t))
  {
    match a
    case Update(user, reported, moment, now, victim) =>
      UpdateHolds(cfg, s, user, reported, moment, now, victim, k, presence, until, at, ended);
    case Activity(user, moment, now, victim) =>
      if Apply(cfg, s, a) != s {
        UpdateHolds(cfg, s, user, Online, At(ActivityAt(moment, now) + ACTIVITY_ONLINE), now, victim, k, presence, until, at, ended);
      }
    case Tick(now, due, attempts) =>
      SnapshotHolds(cfg, s, now, k, presence, until, at, ended);
      SendDueHolds(s.(entries := Snapshot(cfg, s.entries, now)), due, attempts, 0, k, presence, until, at,
                   ended || (until.At? && now >= until.t));
  }

  lemma {:induction false} RunHolds(cfg: Config, s: State, actions: seq<Action>, k: string, presence: Presence, until: Moment, at: real)
    requires Holds(s, k, presence, until, at, false) && CanRun(cfg, s, actions)
    requires NoReports(Run(cfg, s, actions).log, |s.log|, k)
    ensures Holds(Run(cfg, s, actions), k, presence, until, at, Ticked(actions, until))
  {
    if actions != [] {
      var front, last := actions[..|actions| - 1], actions[|actions| - 1];
      var s1 := Run(cfg, s, front);
      RunAppends(cfg, s, front);
      ApplyAppends(cfg, s1, last);
      RunHolds(cfg, s, front, k, presence, until, at);
      StepHolds(cfg, s1, last, k, presence, until, at, Ticked(front, until));
      TickedStep(front, last, until);
      assert front + [last] == actions;
    }
  }

  lemma TickedStep(front: seq<Action>, last: Action, until: Moment)
    ensures Ticked(front + [last], until) <==> Ticked(front, until) || (last.Tick? && until.At? && last.now >= until.t)
  {
    var all := front + [last];
    assert forall i :: 0 <= i < |front| ==> all[i] == front[i];
    assert all[|front|] == last;
  }

  /** What a report of a presence means; Telegram's third presence is offline here. */
  function Meant(reported: Presence): Presence {
    if reported == Online then Online else Offline
  }

  /** A report that was accepted, when it was, and what the table has from then on, over any run without another
      report about the user: what was reported, until it ends. */
  lemma ReportHolds(cfg: Config, s: State, k: string, reported: Presence, until: Moment, now: real, victim: Option<string>,
                    actions: seq<Action>, s1: State)
    requires IsVictim(s.entries, victim) && s1 == Apply(cfg, s, Update(k, reported, until, now, victim))
    requires s1.log != s.log && CanRun(cfg, s1, actions) && NoReports(Run(cfg, s1, actions).log, |s1.log|, k)
    ensures s1.log == s.log + [Reported(k, Meant(reported))]
    ensures Holds(Run(cfg, s1, actions), k, Meant(reported), until, now, Ticked(actions, until))
  {
    RunHolds(cfg, s1, actions, k, Meant(reported), until, now);
  }

  /** Which reports are accepted: all about somebody who is tracked, or for whom there is room, or can be made. */
  lemma ReportAccepted(cfg: Config, s: State, k: string, reported: Presence, until: Moment, now: real, victim: Option<string>)
    requires IsVictim(s.entries, victim)
    ensures var s1 := Apply(cfg, s, Update(k, reported, until, now, victim));
            && (s1 != s ==> s1.log != s.log)
            && (s1.log != s.log <==>
                  k != "" && reported != Unset &&
                  (k in s.entries || |s.entries| < cfg.maxTracked || exists v :: v in s.entries && Evictable(s.entries[v])))
  {
    var s1 := Apply(cfg, s, Update(k, reported, until, now, victim));
    assert s1.log == s.log || |s1.log| == |s.log| + 1;
  }

  /** Activity is a report that somebody is online for five minutes from when they were active, or from now if
      that is not known or is said to be later; it is not taken for news if that is over already or they are
      online for longer. */
  lemma ActivityIsReport(cfg: Config, s: State, k: string, at: Moment, now: real, victim: Option<string>)
    ensures var since := if at.At? && at.t <= now then at.t else now;
            var news := since + 300.0 > now &&
                        !(k in s.entries && s.entries[k].desired == Online
                          && (s.entries[k].until == Zero || s.entries[k].until.t > since + 300.0));
            Apply(cfg, s, Activity(k, at, now, victim))
            == if news then Apply(cfg, s, Update(k, Online, At(since + 300.0), now, victim)) else s
  {
  }

  /** Who a tick lists: a tracked user is to be told online until their time has ended and offline from then on,
      if that is not what they were told and the debounce has passed, or once more online after the refresh. */
  lemma WhoIsListed(cfg: Config, s: State, k: string, now: real, due: seq<Pending>)
    requires Inv(cfg, s) && IsDueList(cfg, Snapshot(cfg, s.entries, now), now, due) && k in s.entries
    ensures var e := s.entries[k];
            var target := if e.desired == Online && e.until.At? && now >= e.until.t then Offline else e.desired;
            && (forall p :: p in due && p.key == k ==> p == Pending(k, target, "", e.sentAt))
            && (Pending(k, target, "", e.sentAt) in due <==>
                  if target == e.sent then target == Online && Elapsed(now, e.sentAt, cfg.refresh)
                  else Elapsed(now, e.sentAt, cfg.debounce))
            && (k !in Snapshot(cfg, s.entries, now) <==> target != Online && e.sent == target && now - e.touched > 3600.0)
  {
    var e := s.entries[k];
    assert EntryAgrees(s.log, k, e);
    var later := Expire(e, now);
    assert later.desiredMsg == "" && later.sentMsg == "";
    if IsDue(cfg, later, now) {
      assert k in Snapshot(cfg, s.entries, now) && PendingOf(k, later) in due;
    }
  }

  /** Somebody reported online until a time, over any run without another report about them and with no tick from
      then on yet: a tick before that has them as online, and one from then on lists them as offline exactly if
      they were told otherwise and the debounce has passed. */
  lemma OnlineEnds(cfg: Config, s: State, k: string, until: real, now: real, victim: Option<string>, actions: seq<Action>,
                   s1: State, s2: State, tick: real, due: seq<Pending>)
    requires cfg.maxTracked > 0 && Inv(cfg, s) && IsVictim(s.entries, victim)
    requires s1 == Apply(cfg, s, Update(k, Online, At(until), now, victim)) && s1.log != s.log
    requires CanRun(cfg, s1, actions) && s2 == Run(cfg, s1, actions) && NoReports(s2.log, |s1.log|, k)
    requires !Ticked(actions, At(until)) && IsDueList(cfg, Snapshot(cfg, s2.entries, tick), tick, due)
    ensures k in s2.entries && Inv(cfg, s2) && OnlineUntil(s2, k, until)
    ensures tick < until ==> k in Snapshot(cfg, s2.entries, tick) && Snapshot(cfg, s2.entries, tick)[k].desired == Online
                             && forall p :: p in due && p.key == k ==> p.presence == Online
    ensures tick >= until ==>
              && (Pending(k, Offline, "", s2.entries[k].sentAt) in due <==>
                    s2.entries[k].sent != Offline && Elapsed(tick, s2.entries[k].sentAt, cfg.debounce))
              && forall p :: p in due && p.key == k ==> p.presence == Offline
  {
    ReportHolds(cfg, s, k, Online, At(until), now, victim, actions, s1);
    ApplyInv(cfg, s, Update(k, Online, At(until), now, victim));
    RunKeepsInv(cfg, s1, actions);
    WhoIsListed(cfg, s2, k, tick, due);
  }

  /** The same of activity that was news: five minutes after it the user is offline. */
  lemma ActivityEnds(cfg: Config, s: State, k: string, at: Moment, now: real, victim: Option<string>, actions: seq<Action>,
                     s1: State, s2: State, tick: real, due: seq<Pending>)
    requires cfg.maxTracked > 0 && Inv(cfg, s) && IsVictim(s.entries, victim)
    requires s1 == Apply(cfg, s, Activity(k, at, now, victim)) && s1.log != s.log
    requires CanRun(cfg, s1, actions) && s2 == Run(cfg, s1, actions) && NoReports(s2.log, |s1.log|, k)
    requires var until := (if at.At? && at.t <= now then at.t else now) + 300.0; !Ticked(actions, At(until))
    requires IsDueList(cfg, Snapshot(cfg, s2.entries, tick), tick, due)
    ensures var until := (if at.At? && at.t <= now then at.t else now) + 300.0;
            && k in s2.entries && OnlineUntil(s2, k, until)
            && (tick < until ==> forall p :: p in due && p.key == k ==> p.presence == Online)
            && (tick >= until ==>
                  (Pending(k, Offline, "", s2.entries[k].sentAt) in due <==>
                     s2.entries[k].sent != Offline && Elapsed(tick, s2.entries[k].sentAt, cfg.debounce)))
  {
    ActivityIsReport(cfg, s, k, at, now, victim);
    OnlineEnds(cfg, s, k, (if at.At? && at.t <= now then at.t else now) + 300.0, now, victim, actions, s1, s2, tick, due);
  }

  /** And from there on: over any further run that leaves the user alone, with any number of ticks that come too
      early for the debounce, every tick from the end on lists them as offline exactly if it has passed. */
  lemma OnlineEndsLater(cfg: Config, s: State, k: string, until: real, now: real, victim: Option<string>,
                        actions: seq<Action>, later: seq<Action>, s1: State, s2: State, tick: real, due: seq<Pending>)
    requires cfg.maxTracked > 0 && Inv(cfg, s) && IsVictim(s.entries, victim)
    requires s1 == Apply(cfg, s, Update(k, Online, At(until), now, victim)) && s1.log != s.log
    requires CanRun(cfg, s1, actions) && s2 == Run(cfg, s1, actions) && NoReports(s2.log, |s1.log|, k)
    requires !Ticked(actions, At(until)) && CanRun(cfg, s2, later) && NoEvents(Run(cfg, s2, later).log, |s2.log|, k)
    requires tick >= until && IsDueList(cfg, Snapshot(cfg, Run(cfg, s2, later).entries, tick), tick, due)
    ensures k in s2.entries
    ensures s2.entries[k].sent != Offline ==>
              (Pending(k, Offline, "", s2.entries[k].sentAt) in due <==> Elapsed(tick, s2.entries[k].sentAt, cfg.debounce))
  {
    ReportHolds(cfg, s, k, Online, At(until), now, victim, actions, s1);
    ApplyInv(cfg, s, Update(k, Online, At(until), now, victim));
    RunKeepsInv(cfg, s1, actions);
    if s2.entries[k].sent != Offline {
      ExpiredBecomesDue(cfg, s2, later, k, until, s2.entries[k].sentAt, tick, due);
    }
  }

  /** Online until a set time. */
  predicate OnlineUntil(s: State, k: string, until: real) {
    k in s.entries && s.entries[k].desired == Online && s.entries[k].until == At(until)
  }

  lemma {:induction false} RunKeepsInv(cfg: Config, s: State, actions: seq<Action>)
    requires cfg.maxTracked > 0 && Inv(cfg, s) && CanRun(cfg, s, actions)
    ensures Inv(cfg, Run(cfg, s, actions))
  {
    if actions != [] {
      var front := actions[..|actions| - 1];
      RunKeepsInv(cfg, s, front);
      ApplyInv(cfg, Run(cfg, s, front), actions[|actions| - 1]);
    }
  }

  // ----- How far apart requests are -----

  predicate NoRequests(log: seq<Event>, from: nat, user: string) {
    forall i :: from <= i < |log| ==> !(log[i].Sent? && log[i].user == user)
  }

  ghost predicate TrackedThroughout(cfg: Config, s: State, actions: seq<Action>, k: string) {
    k in Run(cfg, s, actions).entries && (actions == [] || TrackedThroughout(cfg, s, actions[..|actions| - 1], k))
  }

  lemma {:induction false} SendDueKeepsSentAt(s: State, due: seq<Pending>, attempts: nat -> Attempt, n: nat, k: string)
    requires k in s.entries
    ensures var s' := SendDue(s, due, attempts, n);
            && s.log <= s'.log && k in s'.entries
            && (NoRequests(s'.log, |s.log|, k) ==> s'.entries[k].sentAt == s.entries[k].sentAt)
    decreases |due|
  {
    if due != [] {
      var (ok, bucket) := Allow(s.bucket, attempts(n).askedAt);
      if ok {
        var s1 := AfterSend(s.(bucket := bucket), due[0], attempts(n));
        SendDueKeepsSentAt(s1, due[1..], attempts, n + 1, k);
        var s' := SendDue(s1, due[1..], attempts, n + 1);
        assert s'.log[|s.log|] == s1.log[|s.log|];
      }
    }
  }

  lemma SentAtStep(cfg: Config, s: State, a: Action, k: string)
    requires k in s.entries && k in Apply(cfg, s, a).entries && Enabled(cfg, s, a)
    requires NoRequests(Apply(cfg, s, a).log, |s.log|, k)
    ensures Apply(cfg, s, a).entries[k].sentAt == s.entries[k].sentAt
  {
    if a.Tick? {
      var s1 := s.(entries := Snapshot(cfg, s.entries, a.now));
      SendDueQuiet(s1, a.due, a.attempts, 0, k);
      SendDueKeepsSentAt(s1, a.due, a.attempts, 0, k);
    }
  }

  lemma {:induction false} SentAtStays(cfg: Config, s: State, actions: seq<Action>, k: string)
    requires CanRun(cfg, s, actions) && TrackedThroughout(cfg, s, actions, k)
    requires NoRequests(Run(cfg, s, actions).log, |s.log|, k)
    ensures k in s.entries && Run(cfg, s, actions).entries[k].sentAt == s.entries[k].sentAt
  {
    if actions != [] {
      var front, last := actions[..|actions| - 1], actions[|actions| - 1];
      var s1 := Run(cfg, s, front);
      RunAppends(cfg, s, front);
      ApplyAppends(cfg, s1, last);
      SentAtStays(cfg, s, front, k);
      SentAtStep(cfg, s1, last, k);
    }
  }

  /** As long as a user stays in the table, they are not due before the debounce has passed since the last
      request, or the refresh if that is shorter. */
  lemma TrackedWaits(cfg: Config, s: State, actions: seq<Action>, k: string, sent: real, now: real, due: seq<Pending>)
    requires CanRun(cfg, s, actions) && TrackedThroughout(cfg, s, actions, k)
    requires k in s.entries && s.entries[k].sentAt == At(sent) && NoRequests(Run(cfg, s, actions).log, |s.log|, k)
    requires IsDueList(cfg, Snapshot(cfg, Run(cfg, s, actions).entries, now), now, due)
    ensures (exists p :: p in due && p.key == k) ==> now - sent >= RMin(cfg.debounce, cfg.refresh)
  {
    SentAtStays(cfg, s, actions, k);
  }

  predicate IsRequest(e: Event, user: string) {
    e.Sent? && e.user == user
  }

  /** When the last request for a user was answered, or the zero time if there was none. */
  function LastRequest(log: seq<Event>, user: string): Moment {
    if log == [] then Zero
    else if IsRequest(log[|log| - 1], user) then At(log[|log| - 1].done)
    else LastRequest(log[..|log| - 1], user)
  }

  predicate AnsweredBy(log: seq<Event>, now: real) {
    forall i :: 0 <= i < |log| && log[i].Sent? ==> log[i].done <= now
  }

  predicate BegunFrom(log: seq<Event>, from: nat, now: real) {
    forall i :: from <= i < |log| && log[i].Sent? ==> now <= log[i].at
  }

  /** The clock goes forward: whatever was sent before an action was answered by then, and what the action
      sends is begun after it. */
  ghost predicate OnTime(cfg: Config, s: State, actions: seq<Action>) {
    actions == [] ||
    (var front, last := actions[..|actions| - 1], actions[|actions| - 1];
     var s1 := Run(cfg, s, front);
     OnTime(cfg, s, front) && AnsweredBy(s1.log, last.now) && BegunFrom(Apply(cfg, s1, last).log, |s1.log|, last.now))
  }

  lemma {:induction false} LastRequestAnswered(log: seq<Event>, now: real, k: string)
    requires AnsweredBy(log, now)
    ensures LastRequest(log, k).At? ==> LastRequest(log, k).t <= now
  {
    if log != [] && !IsRequest(log[|log| - 1], k) {
      LastRequestAnswered(log[..|log| - 1], now, k);
    }
  }

  /** An entry waits from the last request for its user or from later, or is that of a user who was first seen
      online since, to whom nothing counts as sent. */
  predicate WaitsFrom(e: Entry, request: Moment) {
    if e.sentAt.Zero? then e.sent == Unset else request.Zero? || request.t <= e.sentAt.t
  }

  predicate Waits(s: State, k: string) {
    k in s.entries ==> WaitsFrom(s.entries[k], LastRequest(s.log, k))
  }

  lemma UpdateWaits(cfg: Config, s: State, user: string, reported: Presence, until: Moment, now: real,
                    victim: Option<string>, k: string)
    requires Waits(s, k) && AnsweredBy(s.log, now)
    ensures Waits(ApplyUpdate(cfg, s, user, reported, until, now, victim), k)
  {
    LastRequestAnswered(s.log, now, k);
    ReportIsNoRequest(s.log, user, if reported == Unavailable then Offline else reported, k);
  }

  lemma ReportIsNoRequest(log: seq<Event>, user: string, presence: Presence, k: string)
    ensures LastRequest(log + [Reported(user, presence)], k) == LastRequest(log, k)
  {
    LogStep(log, Reported(user, presence));
  }

  lemma AfterSendWaits(s: State, p: Pending, a: Attempt, k: string)
    requires Waits(s, k)
    ensures Waits(AfterSend(s, p, a), k)
    ensures p.key != k ==> LastRequest(AfterSend(s, p, a).log, k) == LastRequest(s.log, k)
  {
    LogStep(s.log, Sent(p.key, p.presence, p.msg, a.askedAt, a.ok, a.doneAt));
  }

  lemma {:induction false} SendDueWaits(s: State, due: seq<Pending>, attempts: nat -> Attempt, n: nat, k: string)
    requires Waits(s, k)
    ensures Waits(SendDue(s, due, attempts, n), k)
    decreases |due|
  {
    if due != [] {
      var (ok, bucket) := Allow(s.bucket, attempts(n).askedAt);
      if ok {
        var s1 := s.(bucket := bucket);
        AfterSendWaits(s1, due[0], attempts(n), k);
        SendDueWaits(AfterSend(s1, due[0], attempts(n)), due[1..], attempts, n + 1, k);
      }
    }
  }

  lemma ApplyWaits(cfg: Config, s: State, a: Action, k: string)
    requires Waits(s, k) && AnsweredBy(s.log, a.now)
    ensures Waits(Apply(cfg, s, a), k)
  {
    match a
    case Update(user, presence, until, now, victim) => UpdateWaits(cfg, s, user, presence, until, now, victim, k);
    case Activity(user, at, now, victim) =>
      UpdateWaits(cfg, s, user, Online, At(ActivityAt(at, now) + ACTIVITY_ONLINE), now, victim, k);
    case Tick(now, due, attempts) => SendDueWaits(s.(entries := Snapshot(cfg, s.entries, now)), due, attempts, 0, k);
  }

  lemma {:induction false} RunWaits(cfg: Config, start: real, actions: seq<Action>, k: string)
    requires OnTime(cfg, Initial(cfg, start), actions)
    ensures Waits(Run(cfg, Initial(cfg, start), actions), k)
  {
    if actions != [] {
      var front := actions[..|actions| - 1];
      RunWaits(cfg, start, front, k);
      ApplyWaits(cfg, Run(cfg, Initial(cfg, start), front), actions[|actions| - 1], k);
    }
  }

  /** The user is tracked as first seen online: nothing counts as sent to them. */
  predicate SeenAnew(entries: Entries, k: string) {
    k in entries && entries[k].sentAt.Zero?
  }

  predicate Listed(due: seq<Pending>, k: string) {
    exists p :: p in due && p.key == k
  }

  /** The user is told online once more, because the refresh is due. */
  predicate Refreshes(cfg: Config, entries: Entries, now: real, k: string) {
    k in entries &&
    var e := Expire(entries[k], now);
    e.desired == Online && e.sent == Online && Elapsed(now, e.sentAt, cfg.refresh)
  }

  /** Who is due at a tick sooner after the last request for them than the debounce: exactly one who counts as
      first seen online, or whose refresh, if that is shorter, is due. */
  lemma DueSoonAfter(cfg: Config, s: State, now: real, due: seq<Pending>, k: string)
    requires Inv(cfg, s) && Waits(s, k) && IsDueList(cfg, Snapshot(cfg, s.entries, now), now, due)
    requires var t := LastRequest(s.log, k); t.At? && now - t.t < cfg.debounce
    ensures Listed(due, k) <==> SeenAnew(s.entries, k) || Refreshes(cfg, s.entries, now, k)
    ensures Refreshes(cfg, s.entries, now, k) && !SeenAnew(s.entries, k) ==> now - LastRequest(s.log, k).t >= cfg.refresh
  {
    if k in s.entries {
      assert EntryAgrees(s.log, k, s.entries[k]);
      var e := Expire(s.entries[k], now);
      assert IsDue(cfg, e, now) <==> SeenAnew(s.entries, k) || Refreshes(cfg, s.entries, now, k);
      if IsDue(cfg, e, now) {
        assert k in Snapshot(cfg, s.entries, now);
        assert PendingOf(k, e) in due && PendingOf(k, e).key == k;
      }
    }
  }

  /** A tick asks for a user at most once, and only if they are due. */
  lemma {:induction false} SendDueAsksOnce(s: State, due: seq<Pending>, attempts: nat -> Attempt, n: nat, k: string, j: nat)
    requires DistinctKeys(due)
    requires |s.log| <= j < |SendDue(s, due, attempts, n).log| && IsRequest(SendDue(s, due, attempts, n).log[j], k)
    ensures Listed(due, k) && LastRequest(SendDue(s, due, attempts, n).log[..j], k) == LastRequest(s.log, k)
    decreases |due|
  {
    if due != [] && Allow(s.bucket, attempts(n).askedAt).0 {
      var s1 := AfterSend(s.(bucket := Allow(s.bucket, attempts(n).askedAt).1), due[0], attempts(n));
      var s' := SendDue(s1, due[1..], attempts, n + 1);
      SendDueQuiet(s1, due[1..], attempts, n + 1, k);
      assert s'.log[|s.log|] == s1.log[|s.log|] && due[0] in due;
      if j == |s.log| {
        assert s'.log[..j] == s.log;
      } else {
        SendDueAsksOnce(s1, due[1..], attempts, n + 1, k, j);
        var p :| p in due[1..] && p.key == k;
        var i :| 0 <= i < |due[1..]| && due[1..][i] == p;
        assert due[i + 1] == p && due[0].key != k;
        LogStep(s.log, s1.log[|s.log|]);
      }
    }
  }

  /** At least `gap` lies between the end of the last request for the user before position `j` and the
      request at it. */
  predicate Apart(log: seq<Event>, j: nat, k: string, gap: real)
    requires j < |log| && log[j].Sent?
  {
    var last := LastRequest(log[..j], k);
    last.At? ==> log[j].at - last.t >= gap
  }

  /** The debounce, exactly. In every reachable state, at a tick sooner than the debounce after the last request
      for a user: the user is due if and only if they are tracked as first seen online, or are online and the
      refresh, being shorter, is due. So any request a tick makes is the debounce apart from the last one for
      the same user, or is such a one; and the refresh apart in the second case. */
  lemma DebounceKept(cfg: Config, start: real, actions: seq<Action>, now: real, due: seq<Pending>,
                     attempts: nat -> Attempt, k: string, s: State, s': State)
    requires cfg == SetDefaults(cfg) && s == Run(cfg, Initial(cfg, start), actions)
    requires CanRun(cfg, Initial(cfg, start), actions) && OnTime(cfg, Initial(cfg, start), actions)
    requires s' == ApplyTick(cfg, s, now, due, attempts) && Enabled(cfg, s, Tick(now, due, attempts))
    requires BegunFrom(s'.log, |s.log|, now)
    ensures var t := LastRequest(s.log, k);
            t.At? && now - t.t < cfg.debounce ==>
              (Listed(due, k) <==> SeenAnew(s.entries, k) || Refreshes(cfg, s.entries, now, k))
    ensures forall j :: |s.log| <= j < |s'.log| && IsRequest(s'.log[j], k) ==>
              || SeenAnew(s.entries, k) || Apart(s'.log, j, k, cfg.debounce)
              || (Refreshes(cfg, s.entries, now, k) && Apart(s'.log, j, k, cfg.refresh))
  {
    RunInv(cfg, start, actions);
    RunWaits(cfg, start, actions, k);
    var t := LastRequest(s.log, k);
    if t.At? && now - t.t < cfg.debounce {
      DueSoonAfter(cfg, s, now, due, k);
    }
    forall j | |s.log| <= j < |s'.log| && IsRequest(s'.log[j], k)
      ensures || SeenAnew(s.entries, k) || Apart(s'.log, j, k, cfg.debounce)
              || (Refreshes(cfg, s.entries, now, k) && Apart(s'.log, j, k, cfg.refresh))
    {
      SendDueAsksOnce(s.(entries := Snapshot(cfg, s.entries, now)), due, attempts, 0, k, j);
    }
  }

  lemma {:induction false} SendDueKeepsAt(s: State, due: seq<Pending>, attempts: nat -> Attempt, n: nat, k: string)
    requires k in s.entries && s.entries[k].sentAt.At?
    ensures var s' := SendDue(s, due, attempts, n); k in s'.entries && s'.entries[k].sentAt.At?
    decreases |due|
  {
    if due != [] {
      var (ok, bucket) := Allow(s.bucket, attempts(n).askedAt);
      if ok {
        SendDueKeepsAt(AfterSend(s.(bucket := bucket), due[0], attempts(n)), due[1..], attempts, n + 1, k);
      }
    }
  }

  /** Only leaving the table makes a user count as first seen online again. */
  lemma TrackedStep(cfg: Config, s: State, a: Action, k: string)
    requires k in s.entries && s.entries[k].sentAt.At? && k in Apply(cfg, s, a).entries
    ensures Apply(cfg, s, a).entries[k].sentAt.At?
  {
    if a.Tick? {
      SendDueQuiet(s.(entries := Snapshot(cfg, s.entries, a.now)), a.due, a.attempts, 0, k);
      SendDueKeepsAt(s.(entries := Snapshot(cfg, s.entries, a.now)), a.due, a.attempts, 0, k);
    }
  }

  /** So whoever was asked for and now counts as first seen online was not tracked all the time in between. */
  lemma SeenAnewWasForgotten(cfg: Config, s: State, actions: seq<Action>, k: string)
    requires k in s.entries && s.entries[k].sentAt.At? && SeenAnew(Run(cfg, s, actions).entries, k)
    ensures !TrackedThroughout(cfg, s, actions, k)
  {
    if TrackedThroughout(cfg, s, actions, k) {
      TrackedStaysAt(cfg, s, actions, k);
    }
  }

  lemma {:induction false} TrackedStaysAt(cfg: Config, s: State, actions: seq<Action>, k: string)
    requires k in s.entries && s.entries[k].sentAt.At? && TrackedThroughout(cfg, s, actions, k)
    ensures Run(cfg, s, actions).entries[k].sentAt.At?
  {
    if actions != [] {
      var front := actions[..|actions| - 1];
      TrackedStaysAt(cfg, s, front, k);
      TrackedStep(cfg, Run(cfg, s, front), actions[|actions| - 1], k);
    }
  }

  /** At every point of a run the user is tracked if there was a request for them. */
  ghost predicate TrackedOnceAsked(cfg: Config, s: State, actions: seq<Action>, k: string) {
    && (LastRequest(Run(cfg, s, actions).log, k).At? ==> k in Run(cfg, s, actions).entries)
    && (actions == [] || TrackedOnceAsked(cfg, s, actions[..|actions| - 1], k))
  }

  /** Nobody who was asked for counts as first seen online. */
  predicate AskedIsAt(s: State, k: string) {
    LastRequest(s.log, k).At? && k in s.entries ==> s.entries[k].sentAt.At?
  }

  lemma {:induction false} SendDueAsked(s: State, due: seq<Pending>, attempts: nat -> Attempt, n: nat, k: string)
    requires AskedIsAt(s, k)
    ensures AskedIsAt(SendDue(s, due, attempts, n), k)
    decreases |due|
  {
    if due != [] {
      var (ok, bucket) := Allow(s.bucket, attempts(n).askedAt);
      if ok {
        var s1 := s.(bucket := bucket);
        AfterSendAsked(s1, due[0], attempts(n), k);
        SendDueAsked(AfterSend(s1, due[0], attempts(n)), due[1..], attempts, n + 1, k);
      }
    }
  }

  lemma AfterSendAsked(s: State, p: Pending, a: Attempt, k: string)
    requires AskedIsAt(s, k)
    ensures AskedIsAt(AfterSend(s, p, a), k)
  {
    LogStep(s.log, Sent(p.key, p.presence, p.msg, a.askedAt, a.ok, a.doneAt));
  }

  lemma UpdateAsked(cfg: Config, s: State, user: string, reported: Presence, until: Moment, now: real,
                    victim: Option<string>, k: string)
    requires AskedIsAt(s, k) && (LastRequest(s.log, k).At? ==> k in s.entries)
    ensures var s' := ApplyUpdate(cfg, s, user, reported, until, now, victim);
            AskedIsAt(s', k) && NoRequests(s'.log, |s.log|, k)
  {
    ReportIsNoRequest(s.log, user, if reported == Unavailable then Offline else reported, k);
  }

  lemma StepAsked(cfg: Config, s: State, a: Action, k: string)
    requires AskedIsAt(s, k) && (LastRequest(s.log, k).At? ==> k in s.entries)
    ensures AskedIsAt(Apply(cfg, s, a), k) && (!a.Tick? ==> NoRequests(Apply(cfg, s, a).log, |s.log|, k))
  {
    match a
    case Update(user, presence, until, now, victim) => UpdateAsked(cfg, s, user, presence, until, now, victim, k);
    case Activity(user, at, now, victim) =>
      UpdateAsked(cfg, s, user, Online, At(ActivityAt(at, now) + ACTIVITY_ONLINE), now, victim, k);
    case Tick(now, due, attempts) => SendDueAsked(s.(entries := Snapshot(cfg, s.entries, now)), due, attempts, 0, k);
  }

  /** A tick while nobody who was asked for counts as first seen online. */
  lemma TickApart(cfg: Config, start: real, actions: seq<Action>, last: Action, k: string, s: State, s': State, j: nat)
    requires cfg == SetDefaults(cfg) && s == Run(cfg, Initial(cfg, start), actions) && last.Tick?
    requires CanRun(cfg, Initial(cfg, start), actions) && OnTime(cfg, Initial(cfg, start), actions)
    requires s' == Apply(cfg, s, last) && Enabled(cfg, s, last) && BegunFrom(s'.log, |s.log|, last.now)
    requires AskedIsAt(s, k) && |s.log| <= j < |s'.log| && IsRequest(s'.log[j], k)
    ensures Apart(s'.log, j, k, RMin(cfg.debounce, cfg.refresh))
  {
    DebounceKept(cfg, start, actions, last.now, last.due, last.attempts, k, s, s');
    SendDueAsksOnce(s.(entries := Snapshot(cfg, s.entries, last.now)), last.due, last.attempts, 0, k, j);
  }

  lemma ApartStays(log: seq<Event>, log': seq<Event>, j: nat, k: string, gap: real)
    requires log <= log' && j < |log| && log[j].Sent? && Apart(log, j, k, gap)
    ensures Apart(log', j, k, gap)
  {
    assert log'[..j] == log[..j];
  }

  /** Over a whole run: any two requests in a row for a user who stays tracked once asked for are the debounce
      apart, or the refresh if that is shorter. */
  lemma {:induction false} RequestsApart(cfg: Config, start: real, actions: seq<Action>, k: string, s: State)
    requires cfg == SetDefaults(cfg) && s == Run(cfg, Initial(cfg, start), actions)
    requires CanRun(cfg, Initial(cfg, start), actions) && OnTime(cfg, Initial(cfg, start), actions)
    requires TrackedOnceAsked(cfg, Initial(cfg, start), actions, k)
    ensures AskedIsAt(s, k)
    ensures forall j :: 0 <= j < |s.log| && IsRequest(s.log[j], k) ==> Apart(s.log, j, k, RMin(cfg.debounce, cfg.refresh))
  {
    if actions != [] {
      var front, last := actions[..|actions| - 1], actions[|actions| - 1];
      var s1 := Run(cfg, Initial(cfg, start), front);
      RequestsApart(cfg, start, front, k, s1);
      StepAsked(cfg, s1, last, k);
      ApplyAppends(cfg, s1, last);
      forall j | 0 <= j < |s.log| && IsRequest(s.log[j], k)
        ensures Apart(s.log, j, k, RMin(cfg.debounce, cfg.refresh))
      {
        if j < |s1.log| {
          assert IsRequest(s1.log[j], k);
          ApartStays(s1.log, s.log, j, k, RMin(cfg.debounce, cfg.refresh));
        } else {
          TickApart(cfg, start, front, last, k, s1, s, j);
        }
      }
    }
  }

  /** A user who is not in the table and is reported online is due at any tick, whatever was sent before. */
  lemma ForgottenIsDueAtOnce(cfg: Config, s: State, k: string, until: Moment, now: real, victim: Option<string>,
                             tick: real, due: seq<Pending>)
    requires k !in s.entries && k in ApplyUpdate(cfg, s, k, Online, until, now, victim).entries
    requires IsDueList(cfg, Snapshot(cfg, ApplyUpdate(cfg, s, k, Online, until, now, victim).entries, tick), tick, due)
    ensures exists p :: p in due && p.key == k
  {
    var e := ApplyUpdate(cfg, s, k, Online, until, now, victim).entries[k];
    assert e.sent == Unset && e.sentAt == Zero && e.desired == Online && e.sentMsg == "" && e.desiredMsg == "";
    assert Expire(e, tick).desired != Unset && Elapsed(tick, Zero, cfg.debounce);
    assert IsDue(cfg, Expire(e, tick), tick);
    assert k in Snapshot(cfg, ApplyUpdate(cfg, s, k, Online, until, now, victim).entries, tick);
    assert PendingOf(k, Expire(e, tick)) in due;
  }

  // ----- A run that evicts -----

  /** A homeserver that answers at once. */
  function Instantly(now: real): nat -> Attempt {
    (n: nat) => Attempt(now, true, now)
  }

  /** A run from the start that can happen, in time, and where it leads. */
  ghost predicate Reaches(cfg: Config, actions: seq<Action>, s: State) {
    var start := Initial(cfg, 0.0);
    CanRun(cfg, start, actions) && OnTime(cfg, start, actions) && Run(cfg, start, actions) == s
  }

  lemma OneMore(cfg: Config, actions: seq<Action>, s: State, a: Action, s': State)
    requires Reaches(cfg, actions, s) && Enabled(cfg, s, a) && Apply(cfg, s, a) == s'
    requires AnsweredBy(s.log, a.now) && BegunFrom(s'.log, |s.log|, a.now)
    ensures Reaches(cfg, actions + [a], s')
  {
    assert (actions + [a])[..|actions|] == actions && (actions + [a])[|actions|] == a;
  }

  /** A full bucket or one with a token grants a request. */
  lemma TokenGrants(b: Bucket, now: real)
    requires InRange(b) && b.tokens >= 1.0 && b.last <= now
    ensures var (ok, b') := Allow(b, now); ok && InRange(b') && b'.tokens >= b.tokens - 1.0 && b'.last == now
  {
    AllowInRange(b, now);
    GainNonNegative(now - b.last, b.rate);
  }

  lemma OneIsListed(cfg: Config, k: string, e: Entry, now: real)
    requires IsDue(cfg, e, now) && Expire(e, now) == e
    ensures Snapshot(cfg, map[k := e], now) == map[k := e]
    ensures IsDueList(cfg, map[k := e], now, [PendingOf(k, e)])
  {
  }

  /** A table with a single user who is due: a tick with a token left tells the homeserver. */
  lemma OneIsSent(cfg: Config, s: State, k: string, e: Entry, now: real)
    requires s.entries == map[k := e] && IsDue(cfg, e, now) && Expire(e, now) == e
    requires InRange(s.bucket) && s.bucket.tokens >= 1.0 && s.bucket.last <= now
    ensures var tick := Tick(now, [PendingOf(k, e)], Instantly(now));
            && Enabled(cfg, s, tick)
            && Apply(cfg, s, tick) == State(map[k := e.(sentAt := At(now), sent := e.desired, sentMsg := e.desiredMsg)],
                                            Allow(s.bucket, now).1,
                                            s.log + [Sent(k, e.desired, e.desiredMsg, now, true, now)])
  {
    var p := PendingOf(k, e);
    OneIsListed(cfg, k, e, now);
    TokenGrants(s.bucket, now);
    var s1 := s.(entries := Snapshot(cfg, s.entries, now));
    var s2 := AfterSend(s1.(bucket := Allow(s.bucket, now).1), p, Instantly(now)(0));
    assert s1 == s && [p][1..] == [];
    assert SendDue(s2, [], Instantly(now), 1) == s2;
    assert SendDue(s1, [p], Instantly(now), 0) == s2;
  }

  /** A report about the only user in the table. */
  lemma OneIsReported(cfg: Config, actions: seq<Action>, s: State, k: string, e: Entry, presence: Presence, now: real)
    returns (more: seq<Action>, s': State)
    requires Reaches(cfg, actions, s) && s.entries == map[k := e] && !Evictable(e) && AnsweredBy(s.log, now)
    requires k != "" && presence in {Online, Offline}
    ensures Reaches(cfg, more, s') && s'.bucket == s.bucket && s'.log == s.log + [Reported(k, presence)]
    ensures s'.entries == map[k := e.(desired := presence, desiredMsg := "", until := Zero, touched := now)]
  {
    var a := Update(k, presence, Zero, now, None);
    more, s' := actions + [a], Apply(cfg, s, a);
    OneMore(cfg, actions, s, a, s');
  }

  /** A report about somebody else, in a table for one that can be taken over. */
  lemma OneIsReplaced(cfg: Config, actions: seq<Action>, s: State, v: string, e: Entry, k: string, presence: Presence, now: real)
    returns (more: seq<Action>, s': State)
    requires Reaches(cfg, actions, s) && s.entries == map[v := e] && Evictable(e) && AnsweredBy(s.log, now)
    requires cfg.maxTracked == 1 && k != "" && k != v && presence in {Online, Offline}
    ensures Reaches(cfg, more, s') && s'.bucket == s.bucket && s'.log == s.log + [Reported(k, presence)]
    ensures s'.entries == map[k := NewEntry(presence, now).(desired := presence)]
  {
    var a := Update(k, presence, Zero, now, Some(v));
    more, s' := actions + [a], Apply(cfg, s, a);
    assert s.entries.Keys == {v} && |s.entries| == 1;
    OneMore(cfg, actions, s, a, s');
  }

  /** A tick that tells the homeserver about the only user in the table. */
  lemma OneIsTold(cfg: Config, actions: seq<Action>, s: State, k: string, e: Entry, now: real)
    returns (more: seq<Action>, s': State)
    requires Reaches(cfg, actions, s) && s.entries == map[k := e] && IsDue(cfg, e, now) && Expire(e, now) == e
    requires InRange(s.bucket) && s.bucket.tokens >= 1.0 && s.bucket.last <= now && AnsweredBy(s.log, now)
    ensures Reaches(cfg, more, s') && s'.log == s.log + [Sent(k, e.desired, e.desiredMsg, now, true, now)]
    ensures s'.entries == map[k := e.(sentAt := At(now), sent := e.desired, sentMsg := e.desiredMsg)]
    ensures InRange(s'.bucket) && s'.bucket.tokens >= s.bucket.tokens - 1.0 && s'.bucket.last == now
  {
    var a := Tick(now, [PendingOf(k, e)], Instantly(now));
    OneIsSent(cfg, s, k, e, now);
    TokenGrants(s.bucket, now);
    more, s' := actions + [a], Apply(cfg, s, a);
    OneMore(cfg, actions, s, a, s');
  }

  /** The first report of all. */
  lemma FirstIsReported(cfg: Config, k: string) returns (actions: seq<Action>, s: State)
    requires cfg == SetDefaults(cfg) && k != ""
    ensures Reaches(cfg, actions, s) && s.bucket == Initial(cfg, 0.0).bucket && s.log == [Reported(k, Online)]
    ensures s.entries == map[k := Entry(Online, "", "", Zero, Unset, Zero, 0.0)]
  {
    var start, first := Initial(cfg, 0.0), Update(k, Online, Zero, 0.0, None);
    var entry := Entry(Online, "", "", Zero, Unset, Zero, 0.0);
    s := State(map[k := entry], start.bucket, [Reported(k, Online)]);
    assert Apply(cfg, start, first) == s by {
      assert start.entries == map[] && start.log == [] && |start.entries| == 0 < cfg.maxTracked;
      assert NewEntry(Online, 0.0).(desired := Online, desiredMsg := "", until := Zero, touched := 0.0) == entry;
      assert start.entries[k := entry] == map[k := entry] && [] + [Reported(k, Online)] == [Reported(k, Online)];
    }
    actions := [first];
    assert Reaches(cfg, [], start) && [] + [first] == [first];
    OneMore(cfg, [], start, first, s);
  }

  /** Somebody is told online. */
  lemma ToldOnline(cfg: Config, k: string) returns (actions: seq<Action>, s: State)
    requires cfg == SetDefaults(cfg) && k != ""
    ensures Reaches(cfg, actions, s)
    ensures s.entries == map[k := Entry(Online, "", "", Zero, Online, At(0.0), 0.0)]
    ensures s.log == [Reported(k, Online), Sent(k, Online, "", 0.0, true, 0.0)]
    ensures InRange(s.bucket) && s.bucket.tokens >= cfg.burst as real - 1.0 && s.bucket.last == 0.0
  {
    actions, s := FirstIsReported(cfg, k);
    actions, s := OneIsTold(cfg, actions, s, k, s.entries[k], 0.0);
  }

  /** And after the debounce offline. */
  lemma ToldOffline(cfg: Config, k: string) returns (actions: seq<Action>, s: State)
    requires cfg == SetDefaults(cfg) && cfg.burst >= 3 && k != ""
    ensures Reaches(cfg, actions, s)
    ensures var d := cfg.debounce;
            && s.entries == map[k := Entry(Offline, "", "", Zero, Offline, At(d), d)]
            && s.log == [Reported(k, Online), Sent(k, Online, "", 0.0, true, 0.0), Reported(k, Offline),
                         Sent(k, Offline, "", d, true, d)]
    ensures InRange(s.bucket) && s.bucket.tokens >= 1.0 && s.bucket.last == cfg.debounce
  {
    actions, s := ToldOnline(cfg, k);
    actions, s := OneIsReported(cfg, actions, s, k, s.entries[k], Offline, cfg.debounce);
    actions, s := OneIsTold(cfg, actions, s, k, s.entries[k], cfg.debounce);
  }

  /** Somebody who was told offline is evicted by a report about somebody else, takes the place back when
      reported online, and is told online, all at once. */
  lemma EvictedComesBack(cfg: Config, before: seq<Action>, s0: State, a: string, b: string, d: real)
    returns (actions: seq<Action>, s: State)
    requires Reaches(cfg, before, s0) && s0.entries == map[a := Entry(Offline, "", "", Zero, Offline, At(d), d)]
    requires cfg.maxTracked == 1 && a != b && a != "" && b != "" && AnsweredBy(s0.log, d)
    requires InRange(s0.bucket) && s0.bucket.tokens >= 1.0 && s0.bucket.last == d
    ensures Reaches(cfg, actions, s)
    ensures s.log == s0.log + [Reported(b, Offline), Reported(a, Online), Sent(a, Online, "", d, true, d)]
  {
    actions, s := OneIsReplaced(cfg, before, s0, a, s0.entries[a], b, Offline, d);
    actions, s := OneIsReplaced(cfg, actions, s, b, s.entries[b], a, Online, d);
    actions, s := OneIsTold(cfg, actions, s, a, s.entries[a], d);
  }

  /** So eviction breaks the debounce: a run from the start, with a table for one, in which two requests for the
      same user are made at the same time. */
  lemma EvictionBreaksDebounce(cfg: Config, a: string, b: string) returns (actions: seq<Action>)
    requires cfg == SetDefaults(cfg) && cfg.maxTracked == 1 && cfg.burst >= 3 && a != b && a != "" && b != ""
    ensures CanRun(cfg, Initial(cfg, 0.0), actions) && OnTime(cfg, Initial(cfg, 0.0), actions)
    ensures var log, d := Run(cfg, Initial(cfg, 0.0), actions).log, cfg.debounce;
            && |log| == 7 && log[3] == Sent(a, Offline, "", d, true, d) && log[6] == Sent(a, Online, "", d, true, d)
            && !Apart(log, 6, a, RMin(cfg.debounce, cfg.refresh))
  {
    var s: State;
    actions, s := ToldOffline(cfg, a);
    actions, s := EvictedComesBack(cfg, actions, s, a, b, cfg.debounce);
    LastOfSix(s.log, a, cfg.debounce);
  }

  lemma LastOfSix(log: seq<Event>, k: string, t: real)
    requires |log| == 7 && log[3] == Sent(k, Offline, "", t, true, t) && log[4].Reported? && log[5].Reported?
    ensures LastRequest(log[..6], k) == At(t)
  {
    assert log[..6][..5] == log[..5] && log[..5][..4] == log[..4];
    assert LastRequest(log[..4], k) == At(t);
    assert LastRequest(log[..5], k) == At(t);
  }

  // ----- The manager -----

  class Manager {
    const cfg: Config
    const limiter: TokenBucket
    var entries: Entries
    ghost var log: seq<Event>

    ghost function Now(): State
      reads this, limiter
    {
      State(entries, limiter.State(), log)
    }

    constructor (config: Config, now: real)
      ensures cfg == SetDefaults(config) && fresh(limiter) && Now() == Initial(cfg, now)
    {
      var c := SetDefaults(config);
      cfg := c;
      limiter := new TokenBucket(c.rate, c.burst, now);
      entries, log := map[], [];
    }

    method Update(user: string, reported: Presence, until: Moment, now: real)
      returns (ghost victim: Option<string>)
      requires "" !in entries
      modifies this
      ensures IsVictim(old(entries), victim)
      ensures Now() == ApplyUpdate(cfg, old(Now()), user, reported, until, now, victim)
    {
      victim := SomeVictim(entries);
      if user == "" || reported == Unset {
        return;
      }
      var presence := if reported == Unavailable then Offline else reported;
      var e: Entry;
      if user !in entries {
        if |entries| >= cfg.maxTracked {
          var evicted := EvictOne();
          victim := evicted;
          if evicted.None? {
            return;
          }
        }
        e := Entry(Unset, "", "", Zero, Unset, Zero, now);
        if presence != Online {
          e := e.(sent := presence, sentAt := At(now));
        }
      } else {
        e := entries[user];
      }
      entries := entries[user := e.(desired := presence, desiredMsg := "", until := until, touched := now)];
      log := log + [Reported(user, presence)];
    }

    method EvictOne() returns (evicted: Option<string>)
      requires "" !in entries
      modifies `entries
      ensures IsVictim(old(entries), evicted)
      ensures entries == if evicted.Some? then old(entries) - {evicted.value} else old(entries)
    {
      var oldestKey, oldest := "", 0.0;
      var keys := entries.Keys;
      while keys != {}
        invariant keys <= entries.Keys
        invariant oldestKey == "" ==> forall k <- entries :: k !in keys ==> !Evictable(entries[k])
        invariant oldestKey != "" ==>
                    && oldestKey in entries && Evictable(entries[oldestKey]) && oldest == entries[oldestKey].touched
                    && forall k <- entries :: k !in keys && Evictable(entries[k]) ==> oldest <= entries[k].touched
      {
        var k :| k in keys;
        keys := keys - {k};
        var e := entries[k];
        if e.desired != Online && e.sent == e.desired && (oldestKey == "" || e.touched < oldest) {
          oldestKey, oldest := k, e.touched;
        }
      }
      if oldestKey == "" {
        return None;
      }
      entries := entries - {oldestKey};
      return Some(oldestKey);
    }

    method Activity(user: string, at: Moment, now: real) returns (ghost victim: Option<string>)
      requires "" !in entries
      modifies this
      ensures IsVictim(old(entries), victim)
      ensures Now() == ApplyActivity(cfg, old(Now()), user, at, now, victim)
    {
      victim := SomeVictim(entries);
      var since := if at.Zero? || at.t > now then now else at.t;
      var until := since + ACTIVITY_ONLINE;
      if until <= now {
        return;
      }
      if !OnlineLonger(entries, user, until) {
        victim := Update(user, Online, At(until), now);
      }
    }

    method Collect(now: real) returns (due: seq<Pending>)
      modifies `entries
      ensures entries == Snapshot(cfg, old(entries), now)
      ensures DistinctKeys(due)
      ensures forall p <- due :: p.key in entries && IsDue(cfg, entries[p.key], now) && p == PendingOf(p.key, entries[p.key])
      ensures forall k <- entries :: IsDue(cfg, entries[k], now) ==> PendingOf(k, entries[k]) in due
    {
      due := [];
      ghost var before := entries;
      var keys := entries.Keys;
      while keys != {}
        invariant Halfway(cfg, before, entries, keys, due, now)
      {
        var k :| k in keys;
        HalfwayStep(cfg, before, entries, keys, due, now, k);
        keys := keys - {k};
        var e := Expire(entries[k], now);
        if IsDue(cfg, e, now) {
          entries := entries[k := e];
          due := due + [PendingOf(k, e)];
        } else if IsStale(cfg, e, now) {
          entries := entries - {k};
        } else {
          entries := entries[k := e];
        }
      }
      HalfwayDone(cfg, before, entries, due, now);
    }

    method Tick(now: real, attempts: nat -> Attempt) returns (ghost due: seq<Pending>)
      modifies this, limiter
      ensures IsDueList(cfg, Snapshot(cfg, old(entries), now), now, due)
      ensures Now() == ApplyTick(cfg, old(Now()), now, due, attempts)
    {
      var collected := Collect(now);
      var sorted := SortDue(collected);
      due := sorted;
      ghost var whole := SendDue(Now(), sorted, attempts, 0);
      var i := 0;
      assert sorted[0..] == sorted;
      while i < |sorted|
        invariant 0 <= i <= |sorted|
        invariant SendDue(Now(), sorted[i..], attempts, i) == whole
      {
        var p, a := sorted[i], attempts(i);
        assert sorted[i..][1..] == sorted[i + 1..];
        var ok := limiter.TryAllow(a.askedAt);
        if !ok {
          return;
        }
        if p.key in entries {
          var e := entries[p.key].(sentAt := At(a.doneAt));
          if a.ok {
            e := e.(sent := p.presence, sentMsg := p.msg);
          }
          entries := entries[p.key := e];
        }
        log := log + [Sent(p.key, p.presence, p.msg, a.askedAt, a.ok, a.doneAt)];
        i := i + 1;
      }
    }
  }

  /** A tick's pass over the table with `keys` left: the others are as the snapshot has them, and the due
      ones among them are listed. */
  ghost predicate Halfway(cfg: Config, before: Entries, entries: Entries, keys: set<string>, due: seq<Pending>, now: real) {
    && keys <= before.Keys && keys <= entries.Keys <= before.Keys
    && (forall k <- keys :: entries[k] == before[k])
    && (forall k <- before :: k !in keys ==> Passed(cfg, before, entries, now, k))
    && DistinctKeys(due)
    && (forall p <- due :: IsListed(cfg, entries, keys, now, p))
    && (forall k <- entries :: k !in keys && IsDue(cfg, entries[k], now) ==> PendingOf(k, entries[k]) in due)
  }

  predicate Passed(cfg: Config, before: Entries, entries: Entries, now: real, k: string)
    requires k in before
  {
    && (k in entries <==> !IsStale(cfg, Expire(before[k], now), now))
    && (k in entries ==> entries[k] == Expire(before[k], now))
  }

  predicate IsListed(cfg: Config, entries: Entries, keys: set<string>, now: real, p: Pending) {
    p.key in entries && p.key !in keys && IsDue(cfg, entries[p.key], now) && p == PendingOf(p.key, entries[p.key])
  }

  /** The list of what is due after one more user was looked at. */
  lemma ListGrows(cfg: Config, entries: Entries, keys: set<string>, due: seq<Pending>, now: real, k: string, e: Entry)
    requires k in keys && k in entries && DistinctKeys(due) && forall p <- due :: IsListed(cfg, entries, keys, now, p)
    ensures var entries' := if IsStale(cfg, e, now) then entries - {k} else entries[k := e];
            var due' := if IsDue(cfg, e, now) then due + [PendingOf(k, e)] else due;
            DistinctKeys(due') && forall p <- due' :: IsListed(cfg, entries', keys - {k}, now, p)
  {
    var entries' := if IsStale(cfg, e, now) then entries - {k} else entries[k := e];
    var due' := if IsDue(cfg, e, now) then due + [PendingOf(k, e)] else due;
    forall p | p in due'
      ensures IsListed(cfg, entries', keys - {k}, now, p)
    {
      assert p in due ==> IsListed(cfg, entries, keys, now, p);
    }
    forall i | 0 <= i < |due|
      ensures due[i].key != k
    {
      assert due[i] in due && IsListed(cfg, entries, keys, now, due[i]);
    }
  }

  lemma HalfwayStep(cfg: Config, before: Entries, entries: Entries, keys: set<string>, due: seq<Pending>, now: real, k: string)
    requires Halfway(cfg, before, entries, keys, due, now) && k in keys
    ensures var e := Expire(entries[k], now);
            Halfway(cfg, before, if IsStale(cfg, e, now) then entries - {k} else entries[k := e], keys - {k},
                    if IsDue(cfg, e, now) then due + [PendingOf(k, e)] else due, now)
  {
    var e := Expire(entries[k], now);
    var entries' := if IsStale(cfg, e, now) then entries - {k} else entries[k := e];
    forall other | other in before && other !in keys - {k}
      ensures Passed(cfg, before, entries', now, other)
    {
      assert other != k ==> Passed(cfg, before, entries, now, other);
    }
    ListGrows(cfg, entries, keys, due, now, k, e);
  }

  lemma HalfwayDone(cfg: Config, before: Entries, entries: Entries, due: seq<Pending>, now: real)
    requires Halfway(cfg, before, entries, {}, due, now)
    ensures entries == Snapshot(cfg, before, now)
    ensures forall p <- due :: p.key in entries && IsDue(cfg, entries[p.key], now) && p == PendingOf(p.key, entries[p.key])
  {
    forall k | k in before
      ensures Passed(cfg, before, entries, now, k)
    {
    }
    forall p | p in due
      ensures IsListed(cfg, entries, {}, now, p)
    {
    }
  }

  ghost function SomeVictim(entries: Entries): (victim: Option<string>)
    ensures IsVictim(entries, victim)
  {
    if forall k <- entries :: !Evictable(entries[k]) then None
    else
      var some :| some in entries && Evictable(entries[some]);
      var keys := set k | k in entries && Evictable(entries[k]);
      assert some in keys;
      Some(OldestOf(entries, keys))
  }

  ghost function OldestOf(entries: Entries, keys: set<string>): (oldest: string)
    requires keys != {} && keys <= entries.Keys
    ensures oldest in keys && forall k <- keys :: entries[oldest].touched <= entries[k].touched
  {
    var k :| k in keys;
    if forall other <- keys :: other == k then k
    else
      var some :| some in keys && some != k;
      assert some in keys - {k};
      var other := OldestOf(entries, keys - {k});
      if entries[k].touched <= entries[other].touched then k else other
  }

  function InsertDue(p: Pending, due: seq<Pending>): seq<Pending> {
    if due == [] || Less(p, due[0]) then [p] + due else [due[0]] + InsertDue(p, due[1..])
  }

  lemma {:induction false} InsertDueSorts(p: Pending, due: seq<Pending>)
    requires SortedDue(due) && DistinctKeys(due) && forall q <- due :: q.key != p.key
    ensures SortedDue(InsertDue(p, due)) && DistinctKeys(InsertDue(p, due))
    ensures forall q :: q in InsertDue(p, due) <==> q == p || q in due
  {
    if due != [] && !Less(p, due[0]) {
      var rest := InsertDue(p, due[1..]);
      InsertDueSorts(p, due[1..]);
      forall j | 0 <= j < |rest|
        ensures !Less(rest[j], due[0]) && rest[j].key != due[0].key
      {
        assert rest[j] in rest;
        if rest[j] != p {
          var i :| 0 <= i < |due[1..]| && due[1..][i] == rest[j];
          assert due[i + 1] == rest[j];
        }
      }
    }
  }

  method SortDue(due: seq<Pending>) returns (sorted: seq<Pending>)
    requires DistinctKeys(due)
    ensures SortedDue(sorted) && DistinctKeys(sorted) && forall p :: p in sorted <==> p in due
  {
    sorted := [];
    var i := 0;
    while i < |due|
      invariant 0 <= i <= |due|
      invariant SortedDue(sorted) && DistinctKeys(sorted) && forall p :: p in sorted <==> p in due[..i]
    {
      assert due[..i + 1] == due[..i] + [due[i]];
      InsertDueSorts(due[i], sorted);
      sorted := InsertDue(due[i], sorted);
      i := i + 1;
    }
    assert due[..i] == due;
  }
}
