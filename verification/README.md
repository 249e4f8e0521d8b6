# Verification of Jolyne's matching, chat, streak and learning core

Jolyne pairs people who each speak the language the other wants to practise, lets them chat, keeps the
streaks of their friendships, stands in with an AI tutor when nobody is there, and runs a small course mode.
This project models the parts of its backend whose correctness is not visible in any single function and
proves what they keep over every run. `dafny verify dfyconfig.toml` checks all of it.

The same shape is used throughout. Functions on values say what one transaction, one Redis script or one turn
of an event loop does. Classes and methods are that code statement by statement, each proved to do exactly what
its function says. Where calls interleave, an `Action` is one atomic step, `Step` performs it, a run is any
sequence of enabled actions, and the results are lemmas about every run.

- `Matcher`, `MatcherRuns`: the two mirrored queues and the scripts that take from one or join the other.
- `Rooms`, `RoomMoves`, `RoomRuns`, `TutorRooms`, `Partners`, `Hub`: the search loop of any number of sessions over
  those queues, the one-slot mailboxes, which rooms are taken for a tutor's, and whom a session avoids.
- `Tandem`, `TandemEnd`, `Transport`: the 50/50 session's handshake over the room's ordered channel, up to its
  first end. `TandemAlways`, `TandemInTime`, `TandemLanguage`: any number of sessions, with and without a bound on
  delays. `TandemRuns`, `TandemRules`: runs that go wrong, and exactly which client rules rule them out.
- `PendingFriends`, `PendingProgress`: friendships accepted before their users have an account, one Redis command at
  a time.
- `Streaks`, `StreakAnswers`, `StreakRules`: the row of a friendship's streak under messages, the loss cron and restores.
- `Utf`, `Anchor`, `AnchorReports`: finding an extract in UTF-8 and reporting it in UTF-16 units, following section 3 of
  RFC 3629 and section 2.1 of RFC 2781.
- `Tutor`, `TutorMemory`, `TutorProgress`: the tutor's bounded room, its bursts, its history, when it ends, and the
  quota of a turn.
- `Hearts`, `Ledger`, `LedgerPays`, `Sums`: hearts, XP, the daily streak, milestones and badges of a learner.
- `Reconcile`, `Courses`: storing a course over the one already there.
- `Photos`, `PhotoViews`: positions and verification. `Batcher`, `BatcherAnswers`, `BatcherProgress`: deferred
  analyses. `RateLimit`: the fixed-window limiter.

Identifiers, slugs and texts that are only compared are numbers, 0 standing for the empty one; session ids
compare as their texts do. A calendar day is a day number, a month the value of a non-decreasing function of the
day, an instant a whole number of microseconds. UUIDs are fresh. Clocks do not go back. The replies of Claude,
of the face matcher, of Redis failures where they are modelled, and the outcome of best-effort calls are inputs.

## What the proofs found

- Tandem: both sides can end up having proposed with nobody owning the session, and then nothing either of them
  does, short of leaving, changes that (`ProposingInAnswerStalls`, `StalemateIsForever`); `OwnerIffAgreed` says
  exactly when it is avoided.
- Tandem: the server does not check that an accept answers a prompt. Up to the first end two sides can come to own
  the session exactly when the side with the smaller id accepts unprompted while its peer is there
  (`OwnerAtRiskIff`); what the larger side accepts never matters (`AtMostOneOwner`).
- Tandem, across ends: consider three rules of the clients: accept only a prompt still pending (`Prompted`), propose
  only while no session is shown (`Unshown`), propose only while no accept of one's own is unanswered (`Unowed`).
  In time, a set of these rules keeps a chat to one owner at a time exactly if it has `Prompted` and one of the
  other two (`InTimeIff`); it takes no less if every timer finds all messages read. In time means that what was
  published up to the beginning of a phase is read, by a side still there, before that phase's timer expires ten
  minutes later (backend/internal/ws/handler.go:61). The web client keeps `Prompted` and `Unshown`
  (frontend/src/components/chat/TandemStrip.tsx:33-92), which is enough. Whatever the delays, it takes all three
  (`WhateverDelaysIff`): the runs that show this leave messages unread for a whole phase.
- Rooms: a session in tutor mode that fell back to the queue, was popped and asks for its tutor again enters
  whichever wakeup arrives first as the tutor's, a human's included (`HumanEnteredAsTutor`); the room still has the
  same two sessions. `CanBeMistakenIff` says at which moments this can still happen, `ChatsAreTaggedRight` that it is
  the only mistake of the kind. A session in a human chat may still be in a queue, so nothing is claimed about that.
- Streaks: the documentation speaks of three restores per user and month; the code counts them per friendship.
  `AtMostThreeRestoresAMonth` follows the code.
- Streaks: while an older loss is still recorded, a newly expired streak can be neither restored nor announced,
  though it is inside the window of three days (`ExpiredStreakRestoredIff`, `ExpiredStreakAnnouncedIff`,
  `LossBehindOlderOne`).
- Photos: an ordering is not checked to name existing positions. `ReorderCommitsIff` says which ones commit;
  no committed call leaves a gap.
- Courses: an empty list of units or lessons leaves what is stored, so the stored tree is the course at the levels
  that are not empty, exactly if the slugs of each level differ (`CourseIsStored`).
- Limiter: two full bursts fit in one window's length (`TwiceTheLimitHappens`).

## Model

| member | source | states |
|---|---|---|
| Matcher.BuildAllowedPairs | backend/internal/matcher/queue.go:34-50 | the nested loops yield exactly the ordered pairs of distinct supported languages |
| Matcher.OpenIffDistinctSupported | backend/internal/matcher/queue.go:52-73 | a pair passes the three checks iff both languages are supported and they differ |
| Matcher.QueueKeysAreDistinct | backend/internal/matcher/queue.go:75-85 | two open pairs share a queue only if they are the same pair, and one's target is the mirrored pair's own queue |
| Matcher.RankedInOrder | backend/internal/matcher/lua.go:71-78 | the candidates are listed by score and then by id, the head first |
| Matcher.ScannedAreLowest | backend/internal/matcher/lua.go:71-78 | those scanned are ten, or all if fewer, in that order, and none left out ranks before one of them |
| Matcher.PickByLevel | backend/internal/matcher/lua.go:71-93 | the first of the ten lowest-ranked candidates at least level distance, when one is within the tolerance, else the lowest-ranked of all |
| Matcher.ScanFindsFirstClosest | backend/internal/matcher/lua.go:79-90 | the running best of the scan is the first minimiser among the candidates seen |
| Matcher.ChooseByLevel | backend/internal/matcher/lua.go:71-93 | the loop over chosen and bestDelta chooses that candidate |
| Matcher.WaitingJoins | backend/internal/matcher/lua.go:47-48 | a request that finds nobody joins its own queue, changes no other, and the queue it searched held nobody but the avoided peer |
| Matcher.MatchTakes | backend/internal/matcher/lua.go:39-46 | the peer returned was waiting, is not the avoided one, and is all that leaves the queue searched |
| Matcher.CandidatesAreTheOthers | backend/internal/matcher/lua.go:33-42 | the candidates are the members of the mirrored pair's queue but the avoided peer, with their scores |
| Matcher.MatchesIffPossible | backend/internal/matcher/lua.go:28-49 | an accepted request gets a peer iff somebody but the avoided peer waits in the mirrored pair's queue |
| Matcher.MatchChooses | backend/internal/matcher/matcher.go:82-110 | the peer returned is the closest in level of the ten lowest-ranked candidates if the request gives its level to a level-aware matcher, else the lowest-ranked one |
| Matcher.DeltaIsDistance | backend/internal/matcher/lua.go:79-86 | a known level counts by its distance, an unknown one as half the tolerance |
| Matcher.LevelsFollow | backend/internal/matcher/lua.go:91-103 | a waiting session's level is recorded if it gives one, a returned peer's is forgotten, all others stay |
| Matcher.RejectedFor | backend/internal/matcher/queue.go:52-73 | a rejection names the first check that fails, and changes nothing |
| Matcher.RemoveLeavesOthers | backend/internal/matcher/matcher.go:116-126 | removing takes a session out of its own queue and forgets its level, and touches nothing else |
| Matcher.TakeThenRestore | backend/internal/matcher/lua.go:33-42 | setting the avoided peer aside, taking another and putting it back is taking that one alone |
| Matcher.QueueStore.TryMatch | backend/internal/matcher/matcher.go:82-110 | the scripts run command by command do the whole match step, its error checks included |
| Matcher.QueueStore.Cancel | backend/internal/matcher/matcher.go:116-126 | the session leaves its own queue and the levels; nothing else changes, and nothing at all for an invalid pair |
| Matcher.QueueStore.InQueue | backend/internal/matcher/matcher.go:132-152 | answers whether the session waits in its own queue, or which check failed |
| Matcher.QueueStore.RemoveFromQueue | backend/internal/matcher/matcher.go:157-170 | tells whether the session was waiting and leaves it out of the queue |
| MatcherRuns.WaitingPair | backend/internal/matcher/lua.go:28-49 | over every run: of two compatible sessions waiting at once, the one whose TryMatch ran last had passed the other as the peer to avoid |
| MatcherRuns.NoAvoidanceNoFacingQueues | backend/internal/matcher/lua.go:28-103 | without avoidance two mirrored queues are never both non-empty |
| MatcherRuns.FacingQueuesLeaveOneAlone | backend/internal/matcher/lua.go:28-103 | with avoidance one of two mirrored queues still holds at most one session |
| MatcherRuns.NoOvertakingByMoreThanAMinute | backend/internal/matcher/matcher.go:18-35 | the standard script never returns a session that arrived more than 60 seconds after another, not avoided, still waiting there |
| MatcherRuns.ScoreRanks | backend/internal/matcher/matcher.go:18-35 | at one instant premium goes before authenticated and that before anonymous, by 40 and 20 seconds of arrival |
| MatcherRuns.MatchTouchesOnlyThePeer | backend/internal/matcher/lua.go:28-103 | a match leaves every other score and level as it was, the avoided peer's included |
| MatcherRuns.TakenAtMostOncePerJoin | backend/internal/matcher/lua.go:28-103 | over any stretch of any run a session is returned at most once per join, plus once if it was waiting |
| Rooms.RunKeepsInv | backend/internal/ws/session.go:41-322 | every interleaving of all sessions' steps keeps the protocol's invariant |
| Rooms.RoomAgreement | backend/internal/ws/session.go:134-210 | two sessions that ever secured one human room are each other's peer, distinct, with mirrored languages |
| Rooms.AtMostTwoInARoom | backend/internal/ws/session.go:134-210 | at most two sessions ever secure one human room |
| Rooms.ChatPartnersAgree | backend/internal/ws/session.go:215-320 | sessions chatting in one room at the same time name each other as peer |
| Rooms.EachWakeupSettledOnce | backend/internal/ws/session.go:48-210 | each delivered wakeup is exactly one of unread, adopted, dismissed or lost, and lost only if its session ended |
| Rooms.NoSilentDeparture | backend/internal/ws/session.go:329-340 | each of a human room's two sessions is in it, has published a Left, has not read the wakeup, or ended with it unread |
| Rooms.PoppedIsMirrored | backend/internal/ws/session.go:126-142 | the session a match returns speaks what this one wants and wants what it speaks |
| RoomMoves.EndsOnlyWhen | backend/internal/ws/session.go:41-322 | a session's loop ends exactly when its swipe quota is used up, its connection or its time is up while it waits or chats, or its languages are rejected |
| RoomMoves.LooksAgainWhen | backend/internal/ws/session.go:41-322 | it starts over exactly on connecting, on Next, on letting go of a partner it may not have, and when the session it popped is gone or cannot be woken |
| RoomMoves.DrainEmptiesTheMailbox | backend/internal/ws/session.go:43-55 | a wakeup left over is dismissed at the head of the loop with a Left; then a tutor is asked for in tutor mode, else a match |
| RoomMoves.HumanTakesOver | backend/internal/ws/session.go:295-307 | a human who comes to a chat with a waiting tutor takes over: the tutor is left, the human's room held and the human remembered |
| RoomMoves.SecondTutorIsDismissed | backend/internal/ws/chat.go:227-232 | a second tutor that comes to it is dismissed and the chat goes on |
| RoomMoves.LeavingIsPublished | backend/internal/ws/chat.go:74-79 | whoever leaves a room has published a Left in it |
| RoomMoves.QueueIsLeft | backend/internal/ws/session.go:308-319 | leaving a chat with a waiting tutor takes a session out of its queue if that cancel goes through, and so does its end; else only a match changes the queues |
| RoomMoves.ChatIsNotInterrupted | backend/internal/ws/session.go:271-277 | a chat with a partner is only left; a wakeup that comes meanwhile stays unread |
| RoomMoves.OnlyHumansAreRefused | backend/internal/ws/session.go:218-252 | in every run only a human partner is let go of after having been secured |
| Partners.AvoidsLastSecured | backend/internal/ws/session.go:126-127 | in every run the peer a session asks to avoid is the one of the room it secured last, by waking, by being woken, or as a waiting tutor |
| Partners.NotTheSamePartnerAgain | backend/internal/ws/session.go:126-127 | in every run looking for a match never returns that peer |
| RoomRuns.MirroredPairMeets | backend/internal/ws/session.go:126-210 | for any two sessions with mirrored languages, a run in which each ends up chatting with the other in one human room |
| RoomRuns.HumanEnteredAsTutor | backend/internal/ws/session.go:57-109 | for any two sessions with mirrored languages, a run in which one in tutor mode is refused, waits, is popped while its waiting tutor is there, asks again and enters its human peer's room as a tutor's |
| TutorRooms.CanBeMistakenIff | backend/internal/ws/session.go:80-99 | in every run, a session waiting for its tutor can be brought by the others to enter a human's room so iff its unread wakeup is a human's, or its mailbox is free and someone has popped it or it is still in its own queue |
| TutorRooms.NeverWaitedNeverMistaken | backend/internal/ws/session.go:57-210 | a session that never joined the queue never enters a human's room as a tutor's and only ever has tutors' wakeups |
| TutorRooms.ChatsAreTaggedRight | backend/internal/ws/session.go:80-210 | in every run a chat is shown as a tutor's iff its room is one, but for sessions in tutor mode that entered a human's room while asking |
| Hub.Hub.Register | backend/internal/ws/hub.go:45-55 | a registered session has an empty mailbox of its own and no other mailbox changes |
| Hub.Hub.Unregister | backend/internal/ws/hub.go:57-66 | the session and its mailbox are gone, the others as they were |
| Hub.Hub.Lookup | backend/internal/ws/hub.go:75-83 | finds exactly the registered sessions |
| Hub.Hub.Wakeup | backend/internal/ws/hub.go:87-100 | delivers iff the session is registered and its slot is free; a full slot is never overwritten |
| Hub.WakePeerIsWakeup | backend/internal/ws/session.go:139-160 | in the room protocol a peer is woken by that Wakeup, and the room is secured iff it succeeds |
| Hub.BotWakeIsWakeup | backend/internal/ws/bot_manager.go:251-290 | a tutor's offer of a room is that Wakeup too |
| Hub.RegistryStepsAgree | backend/internal/ws/hub.go:45-83 | connecting, leaving and looking up are Register, Unregister and Lookup |
| Hub.OtherStepsReadOwnChannel | backend/internal/ws/session.go:48-210 | every other step leaves the hub alone or takes the acting session's one unread wakeup |
| Tandem.RunKeepsInv | backend/internal/ws/chat.go:145-189 | all interleavings of two endpoints over two FIFO channels keep the handshake's invariant up to the first end |
| Tandem.AtMostOneOwner | backend/internal/ws/chat.go:308-325 | if the smaller id accepts only when prompted, at most one side runs startTandem before the first end, and it is the active one, whatever the larger id accepts |
| Tandem.OwnerAtRiskIff | backend/internal/ws/chat.go:308-325 | after any run kept so, an action makes two owners reachable before the first end iff it is an unprompted accept of the smaller id to a peer that is there |
| Tandem.PhaseLanguageAgrees | backend/internal/ws/chat.go:157-170 | up to the first end, with empty channels both sides hold the owner's phase language, or none |
| Tandem.OwnerIffAgreed | backend/internal/ws/chat.go:308-325 | with empty channels there is one owner iff a side accepted or both proposed and the smaller id had not been prompted |
| Tandem.CrossedProposalsHaveOneOwner | backend/internal/ws/chat.go:312-319 | crossed proposals end with the smaller id as the one owner |
| Tandem.StalemateIsForever | backend/internal/ws/chat.go:488-506 | two proposals without an owner stay so whatever is tried short of leaving |
| TandemRuns.ProposingInAnswerStalls | backend/internal/ws/chat.go:308-321 | between any two sessions, a run that reaches that stalemate |
| TandemRuns.UnpromptedAcceptMakesTwoOwners | backend/internal/ws/chat.go:499-506 | between any two sessions, a run with an unprompted accept of the smaller id after which both sides are active |
| TandemRules.InTimeIff | backend/internal/ws/chat.go:151-189 | over all timely runs, any number of sessions in each, a set of client rules keeps at most one side active iff it has accepting only a pending prompt and one of the two rules about proposing; the same iff over the runs whose timers find everything read |
| TandemInTime.OneOwnerInTime | backend/internal/ws/chat.go:214-336 | in every timely run at most one side is active, if clients accept only a pending prompt and keep either rule about proposing |
| TandemInTime.DrainedIsTimely | backend/internal/ws/chat.go:160-170 | a run whose timers expire only on empty channels is timely |
| TandemRuns.TwoOwnersWithoutPrompted | backend/internal/ws/chat.go:499-506 | between any two sessions, a run to both sides active that keeps both rules about proposing and whose timers find everything read |
| TandemRuns.TwoOwnersOnPromptsAlone | backend/internal/ws/chat.go:488-506 | one that accepts only pending prompts and keeps neither rule about proposing |
| TandemRules.WhateverDelaysIff | backend/internal/ws/chat.go:151-189 | over all runs, however late messages are read, a set of client rules keeps at most one side active iff it has all three |
| TandemAlways.OneOwnerAtATime | backend/internal/ws/chat.go:151-189 | in every run, however late messages are read, at most one side is active if clients keep all three rules |
| TandemRuns.TwoOwnersWithoutUnowed | backend/internal/ws/chat.go:182-189 | with a follower that reads nothing for two phases, a run to both sides active that breaks only the rule about unanswered accepts |
| TandemRuns.TwoOwnersWithoutUnshown | backend/internal/ws/chat.go:488-498 | with such a follower, one that breaks only the rule about shown sessions |
| TandemLanguage.PhaseLanguageAlways | backend/internal/ws/chat.go:157-189 | in every run that keeps all three rules, across ends, on empty channels both sides hold the owner's phase language, or none if nobody owns a session |
| TandemLanguage.PhaseLanguageInTime | backend/internal/ws/chat.go:157-189 | the same in every timely run that keeps the first rule and one of the other two |
| TandemEnd.ChatEnd.OnTimer | backend/internal/ws/chat.go:260-274 | the timer's turn is the protocol's: second phase, or end published and state cleared |
| TandemEnd.ChatEnd.OnPeer | backend/internal/ws/chat.go:275-336 | reading a peer's message changes the loop's variables and publishes as the protocol says |
| TandemEnd.ChatEnd.OnProposal | backend/internal/ws/chat.go:308-321 | a proposal starts the session, is ignored or prompts, as the protocol says |
| TandemEnd.ChatEnd.OnClientPropose | backend/internal/ws/chat.go:488-498 | a client's proposal is published once and only when none is under way |
| TandemEnd.ChatEnd.OnClientAccept | backend/internal/ws/chat.go:499-506 | a client's accept is published unless a session or an own proposal is under way |
| TandemEnd.ChatEnd.Exit | backend/internal/ws/chat.go:74-79 | every way out of the loop publishes one Left, after everything sent before |
| Transport.Topic.Publish | backend/internal/ws/room.go:89-102 | appends to what every other reader still has to read and to nothing of one's own |
| Transport.Topic.Subscribe | backend/internal/ws/room.go:58-68 | a new subscriber has nothing published earlier to read |
| Transport.Topic.Receive | backend/internal/ws/room.go:71-86 | hands over the peer's messages published since the subscription, in order, and drops one's own echoes |
| PendingFriends.FriendshipWithUserNotLost | backend/internal/friends/pending.go:18-61 | in every interleaving of commands an accepted friendship with a user stays entered until it is made |
| PendingFriends.FriendshipOfDevicesNotLost | backend/internal/friends/pending.go:65-114 | one between two devices is at each moment entered, in the hands of a login between SRem and SAdd, or made |
| PendingFriends.LoopAloneIsResolveAll | backend/internal/friends/pending.go:79-112 | the commands of a login that runs alone amount to resolving each entry in turn |
| PendingFriends.PendingStore.AddPendingFriendship | backend/internal/friends/pending.go:18-61 | its commands enter the friendship under the device of each anonymous side, and nothing if neither is |
| PendingFriends.PendingStore.ResolvePendingFriendships | backend/internal/friends/pending.go:65-114 | the loop over the members does that, and nothing without a user or a device |
| PendingFriends.ResolveHonours | backend/internal/friends/pending.go:79-112 | a login makes a friendship for each user entry and leaves its user under each peer device |
| PendingFriends.ResolveKeeps | backend/internal/friends/pending.go:79-112 | it loses no friendship and no user's entry elsewhere |
| PendingFriends.TwoLoginsMakeFriends | backend/internal/friends/pending.go:18-114 | from any quiet reachable moment one login on each device makes the two users friends |
| PendingFriends.NoFriendshipIsInvented | backend/internal/friends/pending.go:18-114 | in every interleaving two users become friends only if an acceptance was between devices of theirs |
| PendingFriends.ResolveClears | backend/internal/friends/pending.go:79-112 | a login leaves none of the entries it read under its device, and its device under none of the peers' |
| PendingProgress.LoginAlone | backend/internal/friends/pending.go:65-114 | from any moment a login that runs alone resolves all entries of its device |
| PendingProgress.AcceptAlone | backend/internal/friends/pending.go:18-61 | an acceptance that runs alone enters each anonymous side's peer under its device and nothing else |
| Streaks.StreakRow.UpdateOnMessage | backend/internal/friends/streaks.go:32-171 | the statements of one message rewrite the row as specified and give the milestone crossed |
| Streaks.StreakRow.CronPass | backend/internal/friends/streak_loss_cron.go:38-165 | a pass snapshots an expired streak and posts at most one notice |
| Streaks.StreakRow.RestoreStreak | backend/internal/friends/streaks.go:213-318 | a restore answers and rewrites the row as specified, each refusal included |
| Streaks.ReadIsRunOfSharedDays | backend/internal/friends/streaks.go:339-369 | without a successful restore, what is read on a day is the length of the run of days both wrote that ends then or the day before; the cron is invisible |
| Streaks.RestoreNeverLowers | backend/internal/friends/streaks.go:177-318 | on every reachable row a successful restore gives at least the stored streak |
| Streaks.AtMostThreeRestoresAMonth | backend/internal/friends/streaks.go:182-318 | at most three restores succeed per friendship and calendar month |
| Streaks.LossesAnnouncedOnce | backend/internal/friends/streak_loss_cron.go:61-165 | in every run each notice names the streak of a loss of its own, in the order of the losses: none is announced twice |
| StreakAnswers.LossesAreReal | backend/internal/friends/streaks.go:82-130 | a loss is recorded exactly of an expired streak of at least two, as it stood |
| Streaks.ExpiredStreakRestoredIff | backend/internal/friends/streaks.go:213-318 | on every reachable row, a streak expired within the window is restored, quota and membership given, iff no older loss is still recorded; else the window is said to be over |
| Streaks.ExpiredStreakAnnouncedIff | backend/internal/friends/streak_loss_cron.go:61-165 | a pass records and announces an expired streak iff no older loss is still recorded |
| Streaks.LossBehindOlderOne | backend/internal/friends/streaks.go:213-318 | a run that reaches a streak of three, lost two days ago, that is neither restorable nor announced |
| StreakAnswers.RestoreAnswers | backend/internal/friends/streaks.go:213-318 | on every reachable row a restore is refused to a stranger, without a loss, more than three days after it, and after three restores that month, in that order; else it gives exactly the streak lost and says how many restores remain |
| StreakAnswers.RestoreIsRead | backend/internal/friends/streaks.go:213-369 | a refused restore changes no streak that is read; a successful one is read at once and settles the loss |
| StreakAnswers.LossIsShown | backend/internal/friends/streaks.go:339-369 | a reader is shown the loss recorded last while it is at most three days old, and none otherwise |
| StreakAnswers.RiskIsShown | backend/internal/friends/streaks.go:339-369 | without a successful restore, a streak is shown at risk iff it is of at least two days and ended the day before |
| StreakAnswers.PassLeavesNoLossUnannounced | backend/internal/friends/streak_loss_cron.go:61-165 | after any pass of the cron the loss then recorded has been announced |
| Streaks.MilestonesAscend | backend/internal/friends/streaks.go:132-147 | each announced milestone is strictly above all earlier ones, across losses and restores |
| StreakAnswers.MilestonesAreAnnounced | backend/internal/friends/streaks.go:132-147 | in every run each milestone the streak has reached has been announced |
| StreakRules.RunLengthIsMaximal | backend/internal/friends/streaks.go:82-130 | the run the results speak of is maximal: all its days are in the set and the day before is not |
| StreakRules.CrossedIsGreatest | backend/internal/friends/streaks.go:132-139 | the loop's last hit is the greatest milestone reached that is above the last one |
| Utf.DecodeEncode | backend/internal/grammar/ai.go:151-161 | decoding a scalar value's UTF-8 gives it back with its length |
| Utf.EncodeDecode | backend/internal/grammar/ai.go:151-161 | a well-formed sequence is the UTF-8 of the value it decodes to |
| Utf.NoStartInside | backend/internal/grammar/ai.go:101-127 | no sequence starts inside another: UTF-8 is self-synchronising |
| Utf.OccurrenceSplits | backend/internal/grammar/ai.go:101-127 | a byte-level occurrence of a valid text splits any text on rune boundaries |
| Utf.OccurrenceInJs | backend/internal/grammar/ai.go:101-148 | it is an occurrence at the UTF-16 length of what precedes it |
| Utf.UnitsDecode | backend/internal/grammar/ai.go:151-161 | a scalar's UTF-16 units are itself or the surrogate pair that decodes to it |
| Utf.Utf16Len | backend/internal/grammar/ai.go:151-161 | the counting loop gives the number of UTF-16 units, invalid bytes included |
| Anchor.IndexFromIsFirst | backend/internal/grammar/ai.go:108-121 | the search specified gives the first occurrence at or after a position |
| Anchor.Index | backend/internal/grammar/ai.go:108-121 | the search loop finds it |
| Anchor.LocateIsExact | backend/internal/grammar/ai.go:108-121 | an extract is found from the cursor on, else from the start, iff it occurs |
| Anchor.Replacements | backend/internal/grammar/ai.go:122-135 | the fixes kept are the trimmed ones that are neither empty nor the extract |
| AnchorReports.KeptAreTheFirst | backend/internal/grammar/ai.go:122-135 | they are the first five such fixes, in order |
| Anchor.AnchorMatches | backend/internal/grammar/ai.go:101-148 | the loop over cursor, matches and repl produces the planned matches in UTF-16 units |
| Anchor.EveryMatchSelectsItsExtract | backend/internal/grammar/ai.go:101-148 | for all texts and error lists each match selects exactly its extract in the UTF-16 text; at most ten, in order |
| AnchorReports.FirstTenAreReported | backend/internal/grammar/ai.go:101-148 | for all texts and error lists exactly the first ten reportable errors have a match: those with a valid extract that occurs, and a usable fix or a note; each match carries its trimmed note and its first five usable fixes |
| AnchorReports.EachStandsNext | backend/internal/grammar/ai.go:108-121 | each extract stands at its first occurrence past all those before it, or at its first in the text if it has none there |
| Anchor.ReadingOrder | backend/internal/grammar/ai.go:103-121 | an extract is anchored past all those before it unless it does not occur there |
| Tutor.LocalRoom.Publish | backend/internal/ws/local_room.go:77-88 | an envelope is buffered iff the peer has not closed and fewer than 128 wait |
| Tutor.LocalRoom.SendLeft | backend/internal/ws/local_room.go:97-106 | it waits for room: the Left ends up last in the buffer, or the peer has closed, or time is up and it says so |
| Tutor.LocalRoom.Close | backend/internal/ws/local_room.go:150-153 | closes its own end, however often it is called |
| Tutor.NewLocalRoomPair | backend/internal/ws/local_room.go:58-70 | each end sends into what the other receives and sees the other's close |
| Tutor.DrainPending | backend/internal/ws/bot_manager.go:591-611 | takes what is buffered as far as the first Left, keeping every message body in order |
| Tutor.UserMessagesKept | backend/internal/ws/bot_manager.go:486-611 | until the conversation ends, replied turns, bodies in hand and buffered messages are exactly what the user sent, in order |
| Tutor.AppendHistory | backend/internal/ws/bot_manager.go:731-737 | the history keeps its newest 24 messages |
| Tutor.AssembleRequest | backend/internal/claudeapi/client.go:224-236 | the request starts with a user message and ends with the new one |
| Tutor.RequestIsGood | backend/internal/claudeapi/client.go:224-236 | on a history of pairs the head-trimming loop removes nothing and the request is well formed |
| Tutor.TurnsAskWhatWasSaid | backend/internal/ws/bot_manager.go:504-563 | in every conversation the last message of each turn's request is all that the user said in that turn, line by line, and only the last turn can go unanswered |
| Tutor.JoinedIsLines | backend/internal/ws/bot_manager.go:528-530 | a burst is joined to its bodies in order, each on a line of its own |
| TutorMemory.EachTurnIsAskedInContext | backend/internal/ws/bot_manager.go:528-563 | in every conversation a turn's request is the newest 24 messages of the opening and the turns answered before it, followed by what the user says now |
| TutorProgress.EndsOnlyWhen | backend/internal/ws/bot_manager.go:291-585 | a conversation ends exactly when it is cancelled before a turn, the user leaves, a quota is used up, Claude fails, or the bot has sent fifty messages |
| TutorProgress.OpensOnce | backend/internal/ws/bot_manager.go:330-420 | a conversation that talks was opened by one greeting; only in a scenario was Claude asked for it, once and with the seed alone |
| TutorProgress.OpeningIsAsked | backend/internal/ws/bot_manager.go:330-420 | in a scenario Claude is asked for the opening even if the answer then fails |
| TutorProgress.BurstIsAnswered | backend/internal/ws/bot_manager.go:486-611 | from every reachable moment a message the bot takes up is answered in one turn with all that waits behind it |
| TutorProgress.SentUnlessFull | backend/internal/ws/local_room.go:77-88 | what the user sends is kept behind what waits unless 128 envelopes wait |
| Tutor.TurnKeepsPairs | backend/internal/ws/bot_manager.go:562-563 | a turn keeps the history in user/assistant pairs; when full, the oldest pair goes |
| Tutor.RequestsBounded | backend/internal/ws/bot_manager.go:486-585 | every request alternates, starts and ends with the user and has at most 25 messages; a conversation makes at most 50 |
| Tutor.QuotaCounter.CheckAndIncrement | backend/internal/quota/quota.go:55-71 | counts one unless Redis fails and tells whether the limit is exceeded |
| Tutor.QuotaCounter.Refund | backend/internal/quota/quota.go:103-119 | gives back what was counted |
| Tutor.QuotaCounter.TurnQuota | backend/internal/ws/bot_manager.go:504-552 | a turn whose Claude call fails leaves the counter where the other connections alone would have put it; a turn ends at the limit iff an increment passes it |
| Hearts.RegenTwiceIsOnce | backend/internal/learn/store.go:507-523 | regenerating at two instants is regenerating once at the later one |
| Hearts.RegenCountsPeriods | backend/internal/learn/store.go:507-523 | one heart per whole half hour, no fraction lost, and the countdown ends when the next heart is there |
| Ledger.ComputeStreak | backend/internal/learn/model.go:274-309 | the branches and the milestone loop compute the streak specified |
| Ledger.AwardsAreTheEarned | backend/internal/learn/store.go:812-836 | the badges awarded are exactly those earned and not yet held |
| Ledger.LearnStore.InsertBadges | backend/internal/learn/store.go:812-836 | the loop over the catalogue inserts each of them once |
| Ledger.LearnStore.FinishLesson | backend/internal/learn/store.go:665-855 | the transaction's statements write hearts, XP, streak, progress, day and badges as specified, the failed and missing lesson included |
| Ledger.LearnStore.FinishReview | backend/internal/learn/daily.go:30-130 | a review consumes its items and credits XP and streak, or is refused without any |
| LedgerPays.LessonPays | backend/internal/learn/store.go:665-855 | a lesson pays its XP, or five if it was played before, to the total and to the day; it counts as played once more with the best stars; each mistake costs a heart while there is one, none a premium learner; a failed lesson costs hearts and pays nothing |
| LedgerPays.ReviewPays | backend/internal/learn/daily.go:30-130 | a review pays ten iff it consumes an item, consumes all it names and nothing else, and touches no heart and no lesson |
| LedgerPays.GrantGivesOne | backend/internal/learn/store.go:913-961 | a heart given is one more, up to five, and changes nothing else |
| LedgerPays.EnrollingPlaces | backend/internal/learn/store.go:279-322 | enrolling further on places the lessons without progress and leaves the others as they were |
| LedgerPays.RecordsWhatHappened | backend/internal/learn/store.go:706-738 | the record of a run counts every heart a lesson took, every heart given and the most lessons seen played |
| Ledger.HeartsAreATokenBucket | backend/internal/learn/store.go:706-738 | in every run hearts stay in 0..5 and the hearts lost are at most 5 plus those granted plus one per elapsed half hour |
| Ledger.XpIsTheSumOfDays | backend/internal/learn/store.go:766-799 | in every run the XP total is the sum of the daily rows |
| LedgerPays.XpIsWhatWasPaid | backend/internal/learn/store.go:766-799 | in every run the XP is each lesson's XP when first played since its progress was last withdrawn, five for each time more, and ten for each credited review |
| LedgerPays.PlayedIsPlayedBefore | backend/internal/learn/store.go:740-760 | in every run a lesson counts as played iff it was, and its progress not withdrawn since; being placed does not count |
| Ledger.BadgesAreEarned | backend/internal/learn/store.go:801-836 | a badge is held iff its threshold was reached by the XP, the longest streak or the most lessons played at once |
| LedgerPays.BadgesFollowTheCatalogue | backend/internal/learn/model.go:246-257 | in every run a badge is held iff its column reached the threshold of the catalogue |
| Ledger.StreakIsRunOfActiveDays | backend/internal/learn/store.go:565-577 | the streak shown is the run of active days ending that day or the day before, the longest is the longest run, the milestone stored the greatest reached |
| LedgerPays.MilestoneIsTold | backend/internal/learn/model.go:274-309 | in every run an activity is told to raise the streak iff it is its day's first, and to reach a milestone iff it then does |
| Ledger.ReviewsConsumeItems | backend/internal/learn/daily.go:26-48 | in every run each credited review consumed items, and no two the same item |
| Ledger.ReviewAgainIsRefused | backend/internal/learn/daily.go:26-48 | after a credited review, one over the same ids or some of them is refused at any later time and changes nothing |
| Photos.EveryPositionIsTaken | backend/internal/profile/store.go:190-333 | distinct positions within 1..n are all of 1..n |
| Photos.AlbumStore.Set | backend/internal/profile/store.go:190-269 | the statements replace or add as specified, the clamp and the lost verification included |
| Photos.AlbumStore.Delete | backend/internal/profile/store.go:274-334 | the photo goes, later ones shift, verification is lost for the first |
| Photos.AlbumStore.Reorder | backend/internal/profile/store.go:343-466 | validation loops, one update and the unique constraint at commit act as specified |
| Photos.OrderingIsObeyed | backend/internal/profile/store.go:336-342 | each photo named goes where it was asked to go |
| PhotoViews.ReorderingIsStored | backend/internal/profile/store.go:336-466 | a committed ordering is what is then stored, photos left out included, and verification goes iff another first photo shows; a refused one changes nothing and names the check that failed |
| PhotoViews.DeletingCloses | backend/internal/profile/store.go:271-334 | deleting gives back the photo that was there, moves the later ones up by one and leaves the others; only the first takes the verification with it |
| Photos.ReorderCommitsIff | backend/internal/profile/store.go:343-466 | an accepted ordering commits iff each photo left out keeps a place that is given to a position without photo |
| Photos.PositionsAreOneToN | backend/internal/profile/store.go:190-466 | after any calls the positions are exactly 1..n, each once, with n at most six |
| Photos.VerifiedShowsTheCheckedPhoto | backend/internal/profile/store.go:246-466 | a verified user's position 1 holds the public id that was checked |
| Photos.SettingNeverLeavesAGap | backend/internal/profile/store.go:208-243 | setting changes one position: the one wanted if taken, else the one after the last |
| PhotoViews.SettingKeepsTheFlag | backend/internal/profile/store.go:190-269 | setting takes the verification away iff it shows another first photo; a wrong position or an empty id changes nothing |
| PhotoViews.CheckVouches | backend/internal/profile/store.go:468-479 | a matching face check vouches for the first photo as it is; without a match or a photo nothing changes |
| Reconcile.ReconciledLists | backend/internal/learn/store.go:62-97 | after upserting a non-empty list of distinct slugs and deleting the rest, the rows by idx are the list |
| Reconcile.ReconciledKeepsIds | backend/internal/learn/store.go:75-97 | a slug still listed keeps its id, one that is not has none |
| Reconcile.ReconciledTouches | backend/internal/learn/store.go:75-97 | rows of other parents are untouched and ids are never reused |
| Reconcile.ReconciledAgain | backend/internal/learn/store.go:75-97 | reconciling what is stored changes no row |
| Reconcile.ListsNeedsDistinct | backend/internal/learn/store.go:75-97 | a list can only be stored as such if its slugs differ |
| Courses.CourseStore.UpsertCourse | backend/internal/learn/store.go:33-113 | the nested loops, deletions and cascades perform the whole reconciliation, or nothing for an unsupported language |
| Courses.CourseIsStored | backend/internal/learn/store.go:33-113 | afterwards the tables are consistent, and the stored tree, ordered by idx, is the course iff the slugs of its units, and of each unit's lessons, differ |
| Courses.LessonsAreStored | backend/internal/learn/store.go:52-97 | each lesson is stored in its unit, at its place, with its own title and items, its XP if it gives any, else ten, and its kind if it gives one |
| Courses.SurvivorsKeepTheirIds | backend/internal/learn/store.go:100-111 | a unit still listed keeps its id; another is gone with its lessons |
| Courses.LessonsKeepTheirIds | backend/internal/learn/store.go:75-97 | a lesson of a surviving unit keeps its id iff it is still listed |
| Courses.ProgressStaysWithLessons | backend/internal/learn/store.go:26-31 | progress is lost exactly with its lesson, and other courses' rows are untouched |
| Courses.CoursesKeepTheirIds | backend/internal/learn/store.go:43-50 | course rows keep their ids |
| Courses.SecondRunChangesNothing | backend/internal/learn/store.go:26-31 | storing the same course again changes no row |
| Courses.LessonsStayPlayable | backend/internal/learn/store.go:66-73 | whatever XP and kinds a course gives, every lesson stored is worth some XP and has a kind |
| Batcher.AnalysisBatcher.Enqueue | backend/internal/ws/analyzer_batch.go:83-100 | a job gets the next number and waits last; enough waiting jobs ask for a flush |
| Batcher.AnalysisBatcher.TakePending | backend/internal/ws/analyzer_batch.go:185-192 | the queue is taken whole and left empty |
| Batcher.ByIdDropsNone | backend/internal/ws/analyzer_batch.go:194-203 | with distinct ids the map by id holds every job of the batch |
| Batcher.Index | backend/internal/ws/analyzer_batch.go:194-203 | the loop builds that map |
| Batcher.ApplyResults | backend/internal/ws/analyzer_batch.go:259-267 | each job that has an answer is applied once, with its own answer, and no other |
| Batcher.EachJobIsInOnePlace | backend/internal/ws/analyzer_batch.go:83-293 | in every interleaving each job is exactly once waiting, in flight, applied or abandoned |
| Batcher.AppliedAtMostOnce | backend/internal/ws/analyzer_batch.go:138-293 | no job is applied twice and none that was not enqueued |
| Batcher.QuietRunsApplyAll | backend/internal/ws/analyzer_batch.go:138-293 | once nothing waits or is in flight and no call failed, exactly the jobs enqueued were applied |
| BatcherAnswers.AppliedWithItsOwnAnswer | backend/internal/ws/analyzer_batch.go:138-293 | in every interleaving a job is applied with an answer that was given for it |
| BatcherAnswers.AbandonedForACause | backend/internal/ws/analyzer_batch.go:138-293 | and it is abandoned only if its call failed, its batch was given up or had no answer for it, or time was up |
| BatcherProgress.BatchIsApplied | backend/internal/ws/analyzer_batch.go:138-293 | a flushed batch that is answered has each of its jobs applied with its own answer |
| BatcherProgress.RefusedBatchIsCalled | backend/internal/ws/analyzer_batch.go:205-293 | one that is refused is called job by job, the failures abandoned |
| BatcherProgress.QueueIsDrained | backend/internal/ws/analyzer_batch.go:138-179 | draining takes the whole queue the same way |
| BatcherProgress.FourCallsAtOnce | backend/internal/ws/analyzer_batch.go:147-172 | in every interleaving a drain has at most four calls running at once |
| RateLimit.Limiter.Allow | backend/internal/quota/quota.go:84-96 | counts the hit in its window and allows it iff within the limit; without identity or limit always, counting nothing |
| RateLimit.AtMostTwiceTheLimit | backend/internal/quota/quota.go:84-96 | any stretch of calls spanning at most one window has at most twice the limit allowed |
| RateLimit.RefusedOnlyBehindAFullWindow | backend/internal/quota/quota.go:84-96 | a call is refused only if as many calls as the limit came before it within one window's length |
| RateLimit.TwiceTheLimitHappens | backend/internal/quota/quota.go:84-96 | for every limit and window such a stretch exists |

## Left out

- `runSession` is a state machine over its atomic steps, tied to the imperative hub and matcher by the lemmas of
  `Hub` and the shared `MatchStep`; it is not also written as one loop over those objects.
- Of `runChat`, message relay, corrections, the friend prompt and the capture for analysis: easy members.
- Redis, socket and database failures, except where a property names one; expiry of pending friendships and of
  room keys; the quota counter's midnight expiry.
- Blocking checks and the "next" quota decide `Refuse` steps by an input; the tutor manager's spawn delays,
  its presence re-send and its outgoing messages.
- The delay between the tandem's loops and their clients' screens: a frame shows at once, and a click is made on
  what the loop has sent.
- The tandem's failed publishes, which undo a proposal, and its start before both sides have subscribed: what one
  side publishes before the other's subscription is lost to it (`Topic.Subscribe`), so the handshake starts after.
- The gap between the cron's listing of a loss and the lock on its row: a pass over one friendship is one step.
- The gap between the face check's reading of the first photo and its writing of the flag: one step.
- A heart request's own row (who may grant it, its 24 hours): a grant is granted or not by an input.
- Nanoseconds of instants, which the database truncates to microseconds; the float comparison of levels and
  scores, which are reals and integers here.
- `trim` is any function on bytes; language detection, moderation and prompts are not modelled.
- The JSON encoding of a lesson's items, and the catalogue reads (`Tree`, `ListCourses`, `LessonForPlay`).
- HTTP handlers but for the clamp of negative mistakes, metrics, logging, mail, payments and the front end.
