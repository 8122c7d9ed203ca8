# Verification of the mautrix-telegram connector's algorithms

A Dafny 4.11 model of the self-contained algorithms of a Matrix–Telegram bridge, with proofs of what they
promise. `dafny verify dfyconfig.toml` checks everything.

Network calls are functions of what was asked and of how much was asked before, so a server may answer
anything, at any time; where a result needs a well-behaved server, the lemma says so (`Truthful`, `Honest`,
`Serving`, `HonestServer`). Clocks and failures are parameters. Code that changes state is a class or a loop
here too. A method's contract states its result outright or equates the new state with a function of the old
one; what the code promises is then proved of that function, for every input, run or reachable state.

## What is modelled

| module | what it models | main results |
|---|---|---|
| `PresenceBisect` | splitting a rejected batch until the rejected inputs stand alone | `IsolateExact`, `IsolateCutShort`, `CostBound`, `RunTells` |
| `PresencePoll` | batched polls over a list of users to skip for an hour | `PollCost`, `PollTells`, `PollProgress`, `FreshPollsConverge` |
| `RangeTree` | overlapping ranges inserted into a linked tree of nested nodes | `SortedEntitiesNest`, `InsertInBounds`, `BuildOpens` |
| `TelegramFmt` | printing the tree as nested markup, and the conversion loop before it | `FormatReads`, `ParseMeaning` |
| `EntityStrings` | the reverse direction: splitting, trimming, joining and cutting styled text | `SplitRejoins`, `JoinKeeps`, `TrimInBounds`, `CutOffKeeps` |
| `TextRoundTrip` | the two directions of the text conversion together | `SentComesBack` |
| `PresenceManager` | debounced, rate-limited presence with eviction and expiry | `ReachableStates`, `ReportHolds`, `OnlineEnds`, `DebounceKept`, `RequestsApart` |
| `TokenBuckets` | the rate limiter | `WindowBound`, `BurstAfterPause` |
| `AlbumPlan` | the greedy split of items into albums | `PlanAlbums` (no plan has fewer groups) |
| `AlbumSend` | uploading, sending and taking responses apart, item by item | `AlbumIsSent`, `AlbumGivesOwn` |
| `Albums`, `Backfill` | paged history, trimming a cut-off album, album indexes | `ImportComplete`, `ImportIndexes`, `ForwardBridgesNewest`, `KeepsAlbumsExactly` |
| `Waveform` | five-bit packing across bytes | `DecodeEncoded`, `EncodeDecoded`, `NormalizedBound` |
| `PollKeys`, `Polls` | the canonical key of a vote, and echo suppression with it | `KeyEqual`, `RunRefines`, `EndsBalance` |
| `DialogSync` | the resumable, limited loop over dialogs | `SyncsAreOnePass`, `SyncsFromScratch`, `SyncFinishes`, `SyncsKeepLimits` |

## Where the code does less than its documentation says

- Inserting a range into the tree keeps every node inside its parent exactly when the range `Fits`, which
  sorted entities always do; `UnsortedLeavesText` is an unsorted pair whose tree leaves the text.
- `TrimSpace` keeps every remaining unit's styles, but moves ranges to the front before it compares them with
  the end of the kept text. `TrimInBounds` says exactly when the ranges stay inside the trimmed text;
  `TrimLeavesText` is a heading whose bold range does not.
- No album is split by backfill exactly for batch sizes of 10 to 100 (`KeepsAlbumsExactly`): a smaller batch can
  be one part of an album, and more than a hundred messages never come back at once, so nothing is trimmed.
- `pollOptionsKey` tells all votes apart but one pair: no option, and one empty option (`KeyEqual`,
  `EmptyOptionLost`).
- `NormalizeWaveform` says that it bounds values to [0, 32]. It divides only when the maximum is 512 or more
  and never bounds: what it computes, before it is cut to a byte, is within 0 to 32 exactly when the waveform
  was already (`NormalizedBound`; `BoundExceeded` has 33 and 512). A round trip gives the values back exactly
  when all of them are 0 to 31 (`DecodeEncoded`).
- `Debounce` is called the minimum time between two requests for the same user. Sooner than that a user is due
  if and only if the table has them as first seen online, or their refresh is due, where that is configured to
  be shorter (`DebounceKept`). The first takes a user who was forgotten in between (`SeenAnewWasForgotten`):
  `EvictionBreaksDebounce` is a run from the start with two requests for one user at the same time, and while a
  user stays tracked requests for them are apart (`RequestsApart`).
- A mention of a channel without a username cannot be sent, and converting it panics (`CannotBeSent`); the link
  parser makes one of a link to the channel's ghost.
- `JoinEntityString` skips nil strings in its second loop but reads them in its first, so it panics if and only
  if one is nil, which is `Join`'s result null here. `<h1><b></b></h1>` gets there: the bold element without
  text becomes nil and the heading joins it.
- A poll is ended at most once when saving works (`EndsOnce`). An end that was queued but could not be saved is
  queued again, and a mark that could not be taken back closes a poll that is open on Telegram; `EndsBalance`
  counts both, `LostEndRepeats` is such a run.
- The create limit of the dialog sync is not asked for communities, which may always get a portal
  (`CommunityIgnoresLimit`).

## Model

| member | source | states |
|---|---|---|
| `PresenceBisect.FetchIsolatingBad` | pkg/connector/presencebisect.go:55-89 | the call returns what the recursive run over the items decides, with the requests it made |
| `PresenceBisect.Isolation.RunChunk` | pkg/connector/presencebisect.go:58-86 | the closure that updates requests, results, bad, wait and error in place computes one run from the old state |
| `PresenceBisect.RunStops` | pkg/connector/presencebisect.go:44-54 | whatever the server answers: requests stay within the budget, and a run ends early only out of budget, on a flood wait of at least a second or on an error, never both |
| `PresenceBisect.RunTells` | pkg/connector/presencebisect.go:58-86 | whatever the server answers: results are what was got and bad inputs those rejected on their own, in order; only the last answer can be a flood wait or an error, which is then reported, a flood wait for at least a second; a run cut short without either is out of budget |
| `PresenceBisect.RunDecidesPrefix` | pkg/connector/presencebisect.go:58-86 | wherever a run is cut short, what it decided is a prefix of its chunk: the results of its good items and its bad items, in order |
| `PresenceBisect.IsolateCutShort` | pkg/connector/presencebisect.go:48-54 | the same for a whole call, and it stops before the end only for one of the three reasons |
| `PresenceBisect.CeilLog2IsLog` | pkg/connector/presencebisect.go:48-50 | the logarithm of the cost bound is the least power of two that covers n |
| `PresenceBisect.CostBound` | pkg/connector/presencebisect.go:48-51 | a batch of n items with k bad ones costs at most 1 + 2 * k * ceil(log2 n) requests |
| `PresenceBisect.RunAffordable` | pkg/connector/presencebisect.go:58-86 | against a server that always answers, a run gets through exactly when the budget covers its cost, and then makes exactly that many requests |
| `PresenceBisect.IsolateExact` | pkg/connector/presencebisect.go:44-51 | with budget for the bound, exactly the bad items and the results of exactly the good ones come back, in order, within the bound |
| `PresenceBisect.RunFindsOne` | pkg/connector/presencebisect.go:58-86 | budget for one bad item finds at least one, however many there are |
| `PresencePoll.BadUserSkips.IsSkipped` | pkg/connector/presencebisect.go:98-107 | a user is skipped exactly when the rejection history has one of them within the last hour; what ran out is forgotten |
| `PresencePoll.BadUserSkips.Add` | pkg/connector/presencebisect.go:109-124 | the rejection is recorded, everything that has run out is dropped, and the list still mirrors the history |
| `PresencePoll.AskingMirrors` | pkg/connector/presencebisect.go:91-107 | with a clock that never goes back, forgetting an entry that ran out loses nothing |
| `PresencePoll.AddingMirrors` | pkg/connector/presencebisect.go:109-124 | neither does dropping all of them when one is added |
| `PresencePoll.LiveUsers` | pkg/connector/presencebisect.go:135-140 | the users left to ask, and the list after asking about all of them |
| `PresencePoll.FetchUnskipped` | pkg/connector/presencebisect.go:132-157 | one poll: results, rejected users, wait, error, requests and remaining extra are those of the batches one after the other, and each rejected user is recorded |
| `PresencePoll.BatchCountIsCeil` | pkg/connector/presencebisect.go:129-130 | the number of batches is the quotient rounded up |
| `PresencePoll.PollCost` | pkg/connector/presencebisect.go:126-131 | a poll makes at most ceil(len / batchSize) + extra requests, one for every batch reached, and extra never goes negative |
| `PresencePoll.PollTells` | pkg/connector/presencebisect.go:126-157 | a poll, whatever the server answers: a flood wait or an error is the last answer and is reported, if there is none every batch was reached and none is reported, and results and rejected users are what was answered |
| `PresencePoll.LiveIsFilter` | pkg/connector/presencebisect.go:135-140 | forgetting entries on the way does not change who is asked about |
| `PresencePoll.PollProgress` | pkg/connector/presencebisect.go:126-157 | rejected users are bad, asked about and not skipped before, exactly they are skipped from then on, and a poll that rejects no one returns every good user |
| `PresencePoll.PollsConverge` | pkg/connector/presencebisect.go:91-157 | with K unskipped bad users, one of the next K + 1 polls inside the skip period rejects no one and returns every good user, and all later ones in the period do if those skipped before stay skipped |
| `PresencePoll.FreshPollsConverge` | pkg/connector/presencebisect.go:91-157 | from an empty skip list, with K the number of bad users asked about: one of the first K + 1 polls is clean, and so is every later one in the skip period |
| `RangeTree.LinkedRangeTree.Add` | pkg/connector/telegramfmt/tree.go:98-113 | adding to the linked tree in place leaves the tree that inserting into its value gives |
| `RangeTree.LinkedRangeTree.PtrAdd` | pkg/connector/telegramfmt/tree.go:91-96 | adding through a pointer creates the node if there is none and otherwise adds to it |
| `RangeTree.InsertInBounds` | pkg/connector/telegramfmt/tree.go:98-113 | after inserting, every node lies inside its parent or tail if and only if the range fits: it does not start before a node it would be nested under |
| `RangeTree.InsertKeepsOutOfBounds` | pkg/connector/telegramfmt/tree.go:98-113 | a tree that left the text is never repaired by later insertions |
| `RangeTree.InsertOpens` | pkg/connector/telegramfmt/tree.go:98-113 | inserting adds the range's value, innermost, to exactly the positions it covers |
| `RangeTree.AcceptedFits` | pkg/connector/telegramfmt/tree.go:98-113 | a tree built from ranges that start no later lets the next one in whole |
| `RangeTree.InsertAccepts` | pkg/connector/telegramfmt/tree.go:98-113 | and insertion keeps that so, in the child and in the sibling |
| `RangeTree.BuildInBounds` | pkg/connector/telegramfmt/convert.go:82-150 | the tree of a list of ranges stays inside the text if and only if each of them fits when it is added |
| `RangeTree.SortedFits` | pkg/connector/telegramfmt/convert.go:82-150 | ranges in non-decreasing order of their start all fit |
| `RangeTree.BuildOpens` | pkg/connector/telegramfmt/tree.go:80-84 | the values open at a position of the tree are those of the ranges that cover it, in order |
| `RangeTree.UnsortedLeavesText` | pkg/connector/telegramfmt/tree.go:98-113 | two unsorted ranges whose tree has a node outside the text |
| `RangeTree.FlattenNests` | pkg/connector/telegramfmt/tree.go:80-84 | the nodes of a tree that stays in bounds overlap completely or not at all |
| `RangeTree.SortedEntitiesNest` | pkg/connector/telegramfmt/tree.go:80-113 | sorted ranges become nodes inside the text that only nest or are disjoint and style every position as the ranges do |
| `TelegramFmt.FormatTree` | pkg/connector/telegramfmt/html.go:97-113 | formatting the linked tree gives the tokens of its value, without slicing outside the message |
| `TelegramFmt.FormatReads` | pkg/connector/telegramfmt/html.go:97-113 | read back by an independent reader, the tokens are balanced, their texts are the message, and at each position the open values are those of the tree and code mode is on exactly inside code or pre |
| `TelegramFmt.Parse` | pkg/connector/telegramfmt/convert.go:71-157 | body, mentions and formatted body of the loop over the entities |
| `TelegramFmt.RangesStyles` | pkg/connector/telegramfmt/convert.go:86-150 | cutting entities off at the end of the message and leaving out unsupported ones keeps what covers each position |
| `TelegramFmt.ParseMeaning` | pkg/connector/telegramfmt/convert.go:71-157 | for entities in order of offset: each unit of the message is printed once, in order, styled by exactly the supported entities that cover it, in code mode exactly when one of them is code |
| `EntityStrings.EntityString.Split` | pkg/connector/matrixfmt/html.go:54-98 | the pieces as values; nil gives none, and a string without the separator is returned itself |
| `EntityStrings.EntityString.DoSplit` | pkg/connector/matrixfmt/html.go:64-77 | one piece: its text and the ranges cut to it; the guard on ranges excludes none that would be left |
| `EntityStrings.EntityString.TrimSpace` | pkg/connector/matrixfmt/html.go:100-140 | trims in place, or returns a new empty string when all is space |
| `EntityStrings.EntityString.Join` | pkg/connector/matrixfmt/html.go:142-170 | the non-empty strings, each followed by the separator, as a new string; no string (the panic) if and only if one of them is nil |
| `EntityStrings.EntityString.Format` | pkg/connector/matrixfmt/html.go:172-184 | one more range over the whole text, before the others, in place |
| `EntityStrings.EntityString.Append` | pkg/connector/matrixfmt/html.go:186-200 | text and shifted ranges are appended in place; nil on either side gives the other |
| `EntityStrings.EntityString.AppendString` | pkg/connector/matrixfmt/html.go:202-212 | text without ranges is appended in place |
| `EntityStrings.EntityString.Substring` | pkg/connector/matrixfmt/html.go:214-235 | the first units with the ranges cut off, as a new string unless nothing is cut |
| `EntityStrings.KeptStyles` | pkg/connector/matrixfmt/html.go:64-77 | splitting, trimming and cutting all keep the styles of every unit that stays, in their order |
| `EntityStrings.SplitIsFree` | pkg/connector/matrixfmt/html.go:54-98 | no piece contains the separator, and each piece's ranges lie inside it whatever they were before |
| `EntityStrings.SplitRejoins` | pkg/connector/matrixfmt/html.go:54-98 | the pieces with separators between them are the string without one trailing separator, with the same styles on everything but separators |
| `EntityStrings.SubstringKeeps` | pkg/connector/matrixfmt/html.go:214-235 | the prefix keeps its text and styles, and its ranges stay in bounds |
| `EntityStrings.AppendInBounds` | pkg/connector/matrixfmt/html.go:186-200 | appending keeps ranges in bounds |
| `EntityStrings.AppendKeeps` | pkg/connector/matrixfmt/html.go:186-200 | each position of the result has the styles of the string it came from |
| `EntityStrings.FormatStyles` | pkg/connector/matrixfmt/html.go:172-184 | exactly the value is added, outermost, to every position |
| `EntityStrings.JoinInBounds` | pkg/connector/matrixfmt/html.go:142-170 | joining keeps ranges in bounds |
| `EntityStrings.JoinKeeps` | pkg/connector/matrixfmt/html.go:142-170 | every non-empty string is found, text and styles, right after the ones before it, followed by a separator without styles |
| `EntityStrings.TrimKeeps` | pkg/connector/matrixfmt/html.go:100-140 | only spaces are removed and none is left at either end |
| `EntityStrings.TrimKeepsStyles` | pkg/connector/matrixfmt/html.go:129-136 | every unit that stays keeps its styles |
| `EntityStrings.TrimInBounds` | pkg/connector/matrixfmt/html.go:129-136 | the ranges stay inside the trimmed text if and only if nothing was cut at the front, or all was space, or every range is empty, inside the kept text, or far enough behind it to be dropped |
| `EntityStrings.TrimLeavesText` | pkg/connector/matrixfmt/html.go:129-136 | a bold range over a trailing space sticks out after trimming both ends |
| `EntityStrings.Parse` | pkg/connector/matrixfmt/convert.go:31-120 | which text and Telegram entities are sent: nothing for a file name, plain text as it is, HTML cut off at the limit, each range as one entity with its offset, length and kind; where the source panics, for a formatted date or a channel without username, the precondition does not hold |
| `EntityStrings.CannotBeSent` | pkg/connector/matrixfmt/convert.go:31-89 | exactly two values cannot be converted: a formatted date, and a mention of a channel without username |
| `EntityStrings.SentStyles` | pkg/connector/matrixfmt/convert.go:31-89 | the entities sent style every position with exactly the kinds of the values that styled it, in order |
| `EntityStrings.KindTells` | pkg/connector/matrixfmt/convert.go:31-89 | what a kind keeps of a value: two values become the same kind exactly when they are mentions spelled out in the text, mentions of one user, or one style with the same language, link or emoji where it has one |
| `TextRoundTrip.SentComesBack` | pkg/connector/matrixfmt/convert.go:31-89 | what any value is sent as comes back as the same style with its language or address, or as a mention of whoever is found |
| `TextRoundTrip.NotShown` | pkg/connector/telegramfmt/convert.go:91-150 | exactly unsupported entities and mentions of nobody known are left out |
| `EntityStrings.CutOffKeeps` | pkg/connector/matrixfmt/convert.go:108-111 | an HTML message is never longer than allowed, whatever its ranges; a longer one keeps its beginning with its styles and ends in the notice in italics, and ranges that were in bounds stay so |
| `PresenceManager.SetDefaults` | pkg/presence/presence.go:60-79 | every setting is positive, the ones that were stay, and the others get their defaults of 10 s, 240 s, 5 a second, 10, 10000 and 1 s |
| `PresenceManager.Manager.Update` | pkg/presence/presence.go:115-145 | one report as a step of the state machine, evicting at most one entry |
| `PresenceManager.Manager.Activity` | pkg/presence/presence.go:152-172 | one observed activity as a step |
| `PresenceManager.Manager.EvictOne` | pkg/presence/presence.go:175-189 | what is evicted is settled, not online, and touched no later than any other such entry |
| `PresenceManager.Manager.Collect` | pkg/presence/presence.go:203-219 | expired entries are turned offline, stale ones dropped, and exactly the due ones collected |
| `PresenceManager.SortDue` | pkg/presence/presence.go:225-231 | the due list sorted: online first, then whoever waited longest, with the same members |
| `PresenceManager.SendingOrder` | pkg/presence/presence.go:225-231 | of two that are due who comes online is told first, and among the same whoever was last told longer ago |
| `PresenceManager.Manager.Tick` | pkg/presence/presence.go:199-257 | one tick as a step: the due list is sent in order until the limiter refuses |
| `PresenceManager.TickSends` | pkg/presence/presence.go:232-257 | the requests of a tick are those for a first part of what is due, in order, all granted, and the next one, if there is one, is not |
| `PresenceManager.ApplyInv` | pkg/presence/presence.go:115-257 | every step keeps the invariant of the manager |
| `PresenceManager.ReachableStates` | pkg/presence/presence.go:113-257 | in every reachable state a tracked user's `sent` is online exactly when the homeserver was last told so, no untracked user was last told online, the table is within its cap, every offline sent had an online report since the last one, and sends are within the rate |
| `PresenceManager.OnlineSinceOfflineMeans` | pkg/presence/presence.go:122-125 | what that says of the log: an online report with no offline sent after it |
| `PresenceManager.ActivityNeverShortens` | pkg/presence/presence.go:150-172 | activity leaves every online period at least as long and no other user's changed |
| `PresenceManager.ReportAccepted` | pkg/presence/presence.go:115-137 | a report is accepted if and only if it says something about somebody who is tracked or for whom there is or can be made room |
| `PresenceManager.ReportHolds` | pkg/presence/presence.go:113-219 | over any run without another report about the user the table has what was reported, until when and since when, and offline from the first tick at or after the end on; somebody online stays in it |
| `PresenceManager.ActivityIsReport` | pkg/presence/presence.go:150-172 | activity is a report that the user is online for five minutes from then, unless that is over or they are online for longer |
| `PresenceManager.WhoIsListed` | pkg/presence/presence.go:203-219 | what a tick lists of a tracked user, if and only if it was not what they were told and the debounce has passed or the refresh is due, and that it forgets exactly a settled user not reported for an hour |
| `PresenceManager.OnlineEnds` | pkg/presence/presence.go:113-219 | somebody reported online until a time, over any run without another report: a tick before has them as online, and one from then on lists them as offline if and only if they were told otherwise and the debounce has passed |
| `PresenceManager.ActivityEnds` | pkg/presence/presence.go:150-219 | the same of activity, five minutes after it |
| `PresenceManager.OnlineEndsLater` | pkg/presence/presence.go:113-219 | and after any further run that leaves the user alone, with ticks that come too early, every tick lists them as offline if and only if the debounce has passed |
| `PresenceManager.ExpiredIsDue` | pkg/presence/presence.go:203-219 | at the tick that finds an online over, it is due as offline if and only if offline is not what was sent and the debounce has passed |
| `PresenceManager.QuietRun` | pkg/presence/presence.go:113-257 | over any run without a report about or a request for a user whose online ends at a set time, they stay tracked with the same last request, online until then or already turned offline |
| `PresenceManager.ExpiredBecomesDue` | pkg/presence/presence.go:203-219 | after any such run, with any number of ticks that came too early, the next tick after the end has them due as offline if and only if the debounce since the last request has passed |
| `PresenceManager.DebounceKept` | pkg/presence/presence.go:43-50 | in every reachable state of a clock that goes forward: sooner than the debounce after the end of the last request for a user, the user is due if and only if they are tracked as first seen online or their shorter refresh is due, and every request a tick makes is the debounce apart from the last for the same user but for these two |
| `PresenceManager.RequestsApart` | pkg/presence/presence.go:43-50 | over any run in which a user stays tracked once asked for, each request for them begins at least the debounce after the last one ended, or the refresh if that is shorter |
| `PresenceManager.SeenAnewWasForgotten` | pkg/presence/presence.go:115-257 | a user for whom the table knew of a request and who now counts as first seen online was not tracked all the time in between |
| `PresenceManager.TrackedWaits` | pkg/presence/presence.go:203-219 | from any state and for any clock, a user who stays tracked without a request is not due before the debounce, or the shorter refresh, since the last one |
| `PresenceManager.ForgottenIsDueAtOnce` | pkg/presence/presence.go:115-145 | a user who is not tracked and is reported online is due at any tick, whatever was sent before |
| `PresenceManager.EvictionBreaksDebounce` | pkg/presence/presence.go:43-50 | a run from the start, with a table for one, in which a user is told offline, evicted, reported online again and told online, the two requests at the same time |
| `TokenBuckets.TokenBucket.TryAllow` | pkg/presence/presence.go:286-298 | one request as a step of the bucket |
| `TokenBuckets.StaysInRange` | pkg/presence/presence.go:289-297 | tokens are never negative nor above the burst |
| `TokenBuckets.GrantedAfterWait` | pkg/presence/presence.go:286-298 | a request is granted if and only if the bucket can hold a token and has one by then |
| `TokenBuckets.BurstAfterPause` | pkg/presence/presence.go:286-298 | after a pause long enough a whole burst is granted at once |
| `TokenBuckets.GrantsArePaid` | pkg/presence/presence.go:289-297 | every grant is paid for by tokens that were there or came in since |
| `TokenBuckets.WindowBound` | pkg/presence/presence.go:273-298 | in any window of a non-decreasing clock at most burst + rate * length requests are allowed |
| `AlbumPlan.PlanAlbums` | pkg/connector/sendalbum.go:81-95 | the groups are a plan, every index once in order in runs of one kind of at most ten with kind none alone, and no plan has fewer groups |
| `AlbumPlan.AheadOfAll` | pkg/connector/sendalbum.go:84-95 | the greedy plan stays ahead of every other: fewer groups, or as many with no fuller a last one |
| `AlbumSend.SplitAlbumUpdates` | pkg/connector/sendalbum.go:166-203 | for each random ID the updates about it, or none without a message ID; an unknown response is an error |
| `AlbumSend.SplitGivesOwn` | pkg/connector/sendalbum.go:166-203 | with distinct random IDs and message IDs each item gets its own message and no other's, however the response is ordered |
| `AlbumSend.AnsweredOwn` | pkg/connector/sendalbum.go:166-279 | an item whose album request was accepted with an answer that tells of it unambiguously is left with exactly its own message ID and message |
| `AlbumSend.MakeMultiMedia` | pkg/connector/sendalbum.go:150-164 | one album request holds the chosen items in order |
| `AlbumSend.SaveAlbumMedia` | pkg/connector/sendalbum.go:238-253 | every item is uploaded once, in order; those that are kept get their new media and stay, the others get the error |
| `AlbumSend.SendOneAlbum` | pkg/connector/sendalbum.go:255-279 | one request for the whole album, and on each item what came back for it |
| `AlbumSend.SendGroup` | pkg/connector/sendalbum.go:213-236 | one group: uploads if it is an album, then nothing, one message or one album |
| `AlbumSend.SendAlbumItems` | pkg/connector/sendalbum.go:205-237 | the groups of a plan with the fewest groups, sent one after the other, each leaving the other items alone |
| `AlbumSend.AlbumsShareKind` | pkg/connector/sendalbum.go:205-213 | in the plan only freshly uploaded files of one kind share an album |
| `AlbumSend.GroupDone` | pkg/connector/sendalbum.go:205-237 | one more group deals with its own items and keeps what was done before it |
| `AlbumSend.AlbumIsSent` | pkg/connector/sendalbum.go:205-279 | for any pattern of failures: an item could not be prepared only if an upload of its media was refused; otherwise it was in a request, with its own media or what an upload made of them, and has the code of a refused request, the answer to its own message, or the part of the album's answer with its random ID, or the error that there is none; what was sent is the prepared items, each once, in order |
| `AlbumSend.OneRequestAGroup` | pkg/connector/sendalbum.go:213-236 | at most one request sends something for each group, and an album request has two to ten items |
| `AlbumSend.AlbumGivesOwn` | pkg/connector/sendalbum.go:166-279 | after all groups were sent, for any pattern of failures, the same holds of every item that could be prepared and was answered in an album |
| `Albums.TelegramAlbumIndex` | pkg/connector/album.go:62-82 | the distance to the smallest known ID of the album within the nine preceding ones, gaps or not |
| `Albums.WithAlbumBatch` | pkg/connector/album.go:86-100 | the albums of the batch by message ID |
| `Albums.TrimTrailingAlbum` | pkg/connector/album.go:159-186 | the batch without the album run at its end, unless that is all there is |
| `Albums.RunStartIs` | pkg/connector/album.go:173-180 | the run that is cut is as long as it can be |
| `Albums.BaseIsFirst` | pkg/connector/album.go:62-82 | the base of an item is the first item of its album, when the batch holds the whole album |
| `Albums.IndexesFollowIDs` | pkg/connector/album.go:62-100 | within a page that holds all the database knows of the album, its items get indexes 0 to 9 that differ as their message IDs do |
| `Backfill.FetchAll` | pkg/connector/backfill.go:233-292 | the fetch loop: chunks of at most a hundred until a short one, only one chunk backwards |
| `Backfill.FetchReceives` | pkg/connector/backfill.go:233-292 | for any server a fetch is all that its requests received, in order, and fails if and only if one of them does |
| `Backfill.StartsAtOlder` | pkg/connector/backfill.go:195-203 | backwards a batch starts at the older of anchor and cursor |
| `Backfill.ConvertAll` | pkg/connector/backfill.go:313-380 | which messages of a batch are bridged, in order, with their album indexes, and nothing if and only if converting one of these fails |
| `Backfill.FetchMessages` | pkg/connector/backfill.go:183-395 | messages in sending order, cursor, more, mark-read and the duplicate check of the response, from what was fetched and trimmed; no response if and only if fetching or a conversion fails |
| `Backfill.ForwardFetchesNewest` | pkg/connector/backfill.go:233-292 | forwards, the newest messages behind the anchor are fetched, as many as asked for, each once |
| `Backfill.ForwardBridges` | pkg/connector/backfill.go:313-335 | forwards, whatever was fetched: exactly the importable messages before the first not newer than the anchor are bridged |
| `Backfill.ForwardBridgesNewest` | pkg/connector/backfill.go:233-335 | from a truthful server a forward fetch bridges exactly the importable ones of the newest messages since the anchor, as many as asked for |
| `Backfill.BackwardBridges` | pkg/connector/backfill.go:313-335 | backwards, whatever was fetched: exactly the importable messages older than where the batch starts |
| `Backfill.PageIsNext` | pkg/connector/backfill.go:296-299 | a backwards batch is the next stretch of the history and is empty only at its end |
| `Backfill.PageKeepsAlbums` | pkg/connector/backfill.go:296-299 | for a batch size of 10 to 100 no album is cut where a batch ends |
| `Backfill.KeepsAlbumsExactly` | pkg/connector/backfill.go:211-212 | and for every other size some history has an album cut |
| `Backfill.NextStart` | pkg/connector/backfill.go:195-203 | the next request begins where the last batch ended, by the cursor or by the anchor |
| `Backfill.FirstBatchIsFetched` | pkg/connector/backfill.go:233-343 | the batches of an import are what fetching looks at and bridges |
| `Backfill.ImportCutsUp` | pkg/connector/backfill.go:183-395 | importing with the returned cursor terminates and cuts the history into consecutive stretches |
| `Backfill.ImportKeepsAlbums` | pkg/connector/backfill.go:296-299 | importing in batches of a safe size splits no album |
| `Backfill.ImportComplete` | pkg/connector/backfill.go:183-395 | every message older than the start is visited once, in order, exactly the importable ones are bridged, and for 10 to 100 no album is split |
| `Backfill.StretchKnowsOnly` | pkg/connector/album.go:62-82 | between two places that cut no album, a stretch of the history holds all that a truthful database knows of its albums |
| `Backfill.ImportIndexes` | pkg/connector/album.go:62-100 | where albums stand together and span at most ten IDs: in every batch of an import of 10 to 100 messages at a time that starts inside none, with any truthful database, each album item's index is 0 to 9 and its distance to the first item of its album |
| `Backfill.IndexesDiffer` | pkg/connector/album.go:62-100 | so two converted items of one album have indexes that differ as their message IDs do |
| `Waveform.NormalizeWaveform` | pkg/connector/waveform/waveform.go:36-48 | each value divided by a 256th of the maximum and rounded half away from zero, as a byte |
| `Waveform.NormalizedBound` | pkg/connector/waveform/waveform.go:34-48 | the rounded values are all 0 to 32 if and only if the waveform's are |
| `Waveform.BoundExceeded` | pkg/connector/waveform/waveform.go:34-48 | a maximum of 33 stays 33, and one of 512 becomes 256 and wraps to 0 |
| `Waveform.Encode` | pkg/connector/waveform/waveform.go:50-63 | the encoding is five bits for each value rounded up to bytes, and for every waveform a bit is set if and only if one of the normalised values, at five bits from each to the next, sets it |
| `Waveform.Decode` | pkg/connector/waveform/waveform.go:65-82 | each value is the next five bits, as many as there are whole ones, without reading outside the bytes |
| `Waveform.PackStep` | pkg/connector/waveform/waveform.go:57-61 | merging one value into two neighbouring bytes adds its bits and leaves the others |
| `Waveform.MergesPacks` | pkg/connector/waveform/waveform.go:57-61 | for values of five bits the bits of the encoding are those of its values alone |
| `Waveform.UnpackPacked` | pkg/connector/waveform/waveform.go:50-82 | unpacking packed values gives them back, followed by at most one zero |
| `Waveform.DecodeEncoded` | pkg/connector/waveform/waveform.go:50-82 | decoding an encoding gives the waveform followed by zeros if and only if all its values are 0 to 31 |
| `Waveform.EncodeDecoded` | pkg/connector/waveform/waveform.go:50-82 | encoding a decoding gives the bytes back if and only if the bits after the last whole value are zero, as for any multiple of five bytes |
| `PollKeys.PollOptionsKey` | pkg/connector/polls.go:93-101 | the options hex encoded, sorted and joined by commas |
| `PollKeys.HexSpells` | pkg/connector/polls.go:95-98 | two lower-case digits for every octet |
| `PollKeys.JoinInjective` | pkg/connector/polls.go:100-100 | joining by commas loses nothing of comma-free keys |
| `PollKeys.HexInjective` | pkg/connector/polls.go:95-98 | different options have different keys |
| `PollKeys.KeyEqual` | pkg/connector/polls.go:93-101 | two lists have the same key if and only if they are permutations of each other, or one is empty and the other a single empty option |
| `Polls.PollOwnVote` | pkg/connector/polls.go:349-362 | the chosen options in order, or nothing when the results do not say |
| `Polls.OwnVoteMeans` | pkg/connector/polls.go:349-362 | when the results say what was picked, and that an option is in the vote if and only if it is a chosen one |
| `Polls.Poll.SyncPoll` | pkg/connector/polls.go:626-684 | one sync: an own vote is queued and remembered if its key changed, then the end if it is new; a vote that cannot be queued stops it, what cannot be saved is not remembered, and both are errors |
| `Polls.Poll.SendPollVote` | pkg/connector/polls.go:540-574 | a vote that was sent is remembered if it can be saved, and only a vote that could not be sent is an error |
| `Polls.Poll.HandleMatrixPollEnd` | pkg/connector/polls.go:836-890 | a poll is marked closed and saved before Telegram is asked to close it, in this order, and the mark is taken back when it refuses and that can be saved |
| `Polls.SyncQueues` | pkg/connector/polls.go:648-658 | for any options a sync queues an own vote if and only if the known vote changes, but for the one collision of keys |
| `Polls.RunRefines` | pkg/connector/polls.go:540-684 | over any run, failing saves included, comparing keys queues exactly what comparing the votes themselves would |
| `Polls.EndsOnce` | pkg/connector/polls.go:660-676 | with saves that work, over any run a poll is ended at most once, by one side or the other, and then stays ended |
| `Polls.EndsBalance` | pkg/connector/polls.go:660-684 | for any failures: it is ended once when it becomes closed and otherwise only as often as a queued end could not be saved, and becomes closed without an end only by a mark that could not be taken back |
| `Polls.LostEndRepeats` | pkg/connector/polls.go:670-684 | a sync that could not save an end makes the next one queue it again |
| `Polls.EmptyOptionLost` | pkg/connector/polls.go:93-101 | a vote for a single empty option is not queued when no vote was known |
| `DialogSync.SubtractLimit` | pkg/connector/chatsync.go:229-238 | what is left of a limit: never below zero, and negative limits stay |
| `DialogSync.CommunityIgnoresLimit` | pkg/connector/chatsync.go:268-275 | a community at or above the create limit may get a portal where a chat with the same number may not |
| `DialogSync.ChatsKeepLimit` | pkg/connector/chatsync.go:268-275 | a normal chat may get a portal if and only if the limit is negative or its number below it |
| `DialogSync.DialogSyncer.HandleDialogs` | pkg/connector/chatsync.go:251-283 | the dialogs of a batch are looked at in order up to the first that fails, each with its permission to create a portal |
| `DialogSync.DialogSyncer.SyncBatch` | pkg/connector/chatsync.go:104-176 | one round of the loop: request, limits, cursor and count afterwards, and whether it goes on |
| `DialogSync.StepFails` | pkg/connector/chatsync.go:104-176 | what makes a round give up and what makes it the last, and that the cursor stays before a batch that was not looked at whole |
| `DialogSync.DialogSyncer.SyncChats` | pkg/connector/chatsync.go:45-190 | one sync: what is kept, what was looked at and requested, and how it ended |
| `DialogSync.SyncSkips` | pkg/connector/chatsync.go:45-72 | which syncs are skipped, and that these ask nothing |
| `DialogSync.SyncKeepsLimits` | pkg/connector/chatsync.go:75-82 | for any server: numbers continue from the saved count, portals are allowed by number, no number reaches the update limit, and a limited sync ends after at most that many requests for 1 to 100 dialogs each |
| `DialogSync.SyncsKeepLimits` | pkg/connector/chatsync.go:75-82 | the same over any number of syncs and restarts |
| `DialogSync.BatchIsNext` | pkg/connector/chatsync.go:104-176 | against a server that answers each request honestly with dialogs after the place it names, a batch is the dialogs right after the cursor |
| `DialogSync.LoopIsOnePass` | pkg/connector/chatsync.go:104-176 | wherever the loop stops it has looked at a stretch of the dialogs from the cursor on, and uninterrupted at all of them up to its limit |
| `DialogSync.SyncsAreOnePass` | pkg/connector/chatsync.go:45-190 | syncs that are interrupted anywhere and pick up again refine one pass over the dialogs |
| `DialogSync.SyncsFromScratch` | pkg/connector/chatsync.go:45-190 | once the dialogs count as synced, each up to the limit was looked at, with the permission its number gives, and nothing else was |
| `DialogSync.SyncFinishes` | pkg/connector/chatsync.go:45-190 | a sync in which nothing fails comes to its end against an honest server, and the dialogs then count as synced unless it was a login sync |

## Left out

- Telegram requests, database queries, Matrix sends, logging and retries after flood waits are functions or parameters; takeout sessions and waiting between requests are not modelled.
- HTML parsing (`golang.org/x/net/html`), the node-to-string recursion over it, mention and link resolution and the concrete tags of `Style.Format`: values are abstract, and mention and custom emoji tags, which replace the text they wrap, print it here.
- A slice of UTF-16 text may cut a surrogate pair apart; text is code units here and their conversion to strings is not modelled.
- Aliasing of Go slices: `TrimSpace` and `Append` reuse the backing array of their receiver, which another string may share.
- Presence ticks: one tick is one step; updates between its snapshot and its sends, and the `sort.Slice` order among equals, are not modelled. Times are reals.
- Album items are slots of an array instead of pointers, one item is in the list once, and `albumKindOf`, captions' entities and reply targets are not modelled.
- Backfill.ConvertAll: the contents of a converted message and its reactions are not modelled; which messages are converted and whether one fails are.
- Backfill.FetchMessages: topics, takeout sessions and the lock are not modelled, and the reply of a request is at most what was asked for.
- Waveforms: the division and rounding go through floats in the source, here through integers with the same rounding; a value that does not fit a byte wraps around, where the source's float conversion depends on the platform.
- Polls.Poll.SyncPoll: the votes of other users, which are synced between the own vote and the end, fail without effect on either and are not modelled, nor are their signatures, poll contents, the quiz answer and messages without poll data.
- Dialogs: the offset ID and date of a request follow from the cursor; pinned dialogs, migrated chats and the checks that skip a dialog are not modelled, so an entry says that a portal may be created, not that it is. The metadata is the one in memory.
- A server that repeats the last dialog at the end is covered by `SyncKeepsLimits` but is not honest: that dialog would be looked at twice.
- `BodyRangeList.Less` is not used by the tree and is not a strict order; sorting ranges is not modelled.
- Power levels, typing, stickers, capabilities, push templates and ID formats are tables or glue and are not modelled.
