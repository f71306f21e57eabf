# A verified model of the Telegram CMS

The system ingests posts from source channels, normalizes them, lets editors decide on
them, and publishes them once to a destination channel. This project models its most
delicate logic in Dafny 4.11 and proves what that logic is for. `dafny verify
dfyconfig.toml` checks everything.

## The publish protocol

`Protocol.dfy` is a timed transition system. Any number of `publish` runs are in flight;
each is a chain of separate database steps (the gate's read, its write, duplicate check,
reserve, send under the lock, release or mark, card, failure handler), and between any two
of them other runs act, editors decide, the normalize worker loads, checks and commits, the dedupe table is pruned,
overdue posts are re-queued, ARQ starts any queued post any number of times, and runs
crash or time out. Times are milliseconds. An action whose guard is false does nothing,
so every sequence of actions is a run and a theorem over `seq<Action>` is a theorem over
every interleaving.

The state keeps, beside the tables, what the program cannot see: the full history of
reservations, the log of completed sends (a `_send_post` call that returned an id) and the
log of send attempts.

`Config` holds the lookback window L, ARQ's job timeout T and the spacing S. The shipped
values are seven days, 900 seconds and 2 seconds. The results do not fix them: each names
the relation it needs, and for ownership, lone holders, releases, agreement and write-once
ids `ProtocolLimits.dfy` proves that relation exact.

- Completed sends of one hash are more than L + S - T apart, for every configuration
  (`SendsFarApart`), and come within a millisecond of that (`SendsBoundReached`).
- While the row of a completed send is in the table nothing with its hash is sent again
  (`SentRowBlocks`, `NoSendWhileRowStands`), and it is there at least until L - T after the
  send (`SentRowKept`), given T <= L or T < S. While a hash has a row, a run that starts for
  it and that nothing cuts short sends nothing and returns refused or as a duplicate, for
  every configuration in the disciplined runs described below (`LaterRunEnds`).
- A live run between its reserve and its release or mark owns its row and is alone for its
  hash (`ReservationOwned`, `OneHolderPerHash`): each exactly when T <= L (`OwnershipExact`,
  `OneHolderExact`). The delete by hash takes out the releasing run's own row
  (`ReleaseTakesOwnRow`): exactly when T <= L or T < S (`ReleaseExact`).
- The pruned table answers as a scan of all unreleased reservations in the window would
  (`PrunedTableAgrees`): exactly when T <= L or T < S (`AgreementExact`).
- `published_message_id` is truthful, never changes once set, and its post is never sent
  again, even after it is deleted (`PublishedIdsTruthful`, `PublishedIdWriteOnce`), in
  disciplined runs: editors approve or schedule only normalized posts, and ingestion does not
  change a post's content after normalize has read it. Ids are write-once exactly when
  2T <= L + S or T < S (`WriteOnceExact`), and neither rule of the discipline can be dropped
  (`UnhashedSentTwice`, `ChangedContentSentTwice`).
- Attempts are spaced, a retry waits out its RetryAfter, no run makes three
  (`AttemptsSpaced`).
- A rejected post with no run past the gate is not sent until an editor reopens it
  (`RejectionSticks`), and a post normalize only finds duplicate never is
  (`DuplicatesNeverSent`).
- A post without an id that the gate refuses is refused until an editor approves or
  schedules it or the failure handler of one of its runs commits (`GateOpensExactly`). Until
  then runs that have yet to read the post stay out, and only a run already past the gate
  can send it (`GateKeepsOut`): a run that writes `publishing` with no other run past the
  gate is the only one to send, at most once (`ClaimGuards`). This is all that guards a post
  without a hash.
- A run that times out never reaches the failure handler. Its post stays `publishing`,
  unless it is rejected or deleted, and nobody sends it until the gate is opened in one of
  those ways (`TimeoutStrands`); if the run had reserved, an approval gets the post rejected
  as a duplicate of a delivery that may never have been made (`CutOffIsRejected`).
- A failed send leaves the hash absent and the next undisturbed run reaches the send
  (`FailureIsRepeatable`); a run that Telegram tells to wait, and that has the time, sends by
  its second call exactly that many seconds and one later (`FloodWaitedOut`).
- An exception between the reserve's commit and the send leaves the row of a delivery that was
  never made, and the next try rejects the post (`OrphanedReservation`).
- Left alone, new content on an auto channel goes from ingestion to one published post a
  spacing later (`IngestedIsPublished`), the same content again within the lookback is
  rejected and nothing is owed (`RepeatIsRejected`, from `NormalizeDecides`), an approved post
  with a free hash is published (`ApprovedIsPublished`), and a scheduled post owes one publish
  at once and, when due, one more from reconcile (`ScheduledIsReconciled`), whose query
  returns all due posts of at most thirty days up to the hundred oldest (`ReconcileReturns`).

Some statements that a reader may expect are false of the code, and have a proof of it:
the gate reads and then writes, so two runs that both read before either writes both pass
it (`GateLetsBothPass`), and then only the reservation separates them; an exception while
the gate loads a rejected post reaches the failure handler, which makes the post publishable
again (`LoadFailureUnrejects`, and that exception is one of the two things `RejectionSticks`
excludes); and outside the relations above each of the exact guarantees breaks
(`OwnershipBroken`, `AgreementBroken`, `WriteOnceBroken`, and the only-if halves of the
others).

`PublishService.dfy` is the same logic as programs: class `Cms` holds the tables, each
handler is a method proved to be one step, and `Publish`, suspended at every await while
the environment acts, is proved to be a run of the protocol that reports a delivery only
when it made one and a skip or a duplicate only when it made none. Each of its own moves is
the one that the exceptions and answers it meets dictate (`Scripted`), and unless it finds
the send lock held it takes no longer than the spacing, the RetryAfter and what others let
pass (`Delay`), so that a job with that much time is not cancelled.

At bot/publisher.py:212 the mark hands an SQL statement to `session.add`, which SQLAlchemy
refuses, although the comment above it intends an insert that does nothing when the row
exists. The protocol has both: a mark may commit as intended, and it may raise before its
commit (`Raise(false)`), which is what the line does literally to every hashed post. Its
runs under the literal reading are those in which no hashed mark commits, so every result
about all runs holds under both readings, and so do the counterexamples and segments that
contain no hashed mark. The others need the intended insert, because a hashed mark commits
in them: `PublishesUndisturbed`, `Finishes`, `FloodWaitedOut`, `IngestedIsPublished`,
`ApprovedIsPublished`, `MarkInserts`, `WriteOnceBroken`, the only-if half of `WriteOnceExact`,
and `ChangedContentSentTwice`. `ProtocolAsWritten.dfy` proves what happens
under the literal reading instead: a run delivers its post and leaves it in
`publish_failed` without an id, the next try rejects it as a duplicate, and no normalized
post ever becomes published.

## Around the core

- `Watermark.dfy`: tag stripping. Substitution is defined as Python's `re.sub` works, and
  proved to remove the characters that matches cover and no others; no later pass brings
  back what an earlier one removed; stripping is idempotent with known fixed points.
- `TextKeys.dfy`, `MediaKeys.dfy`, `DedupeHash.dfy`: the dedupe key. The text half is the
  sequence of lower-cased words, the media half decodes to the sorted entries, and two
  posts share a hash exactly when both agree. The media key ignores the order of the refs
  exactly when refs of one type and size share a mime, because the sort key omits it.
- `Slug.dfy`: the Go loop computes the Python regular expression, on every lower-cased value.
- `RateLimit.dfy`: at most `limit` requests per counter and at most `2 * limit - 1` in any
  stretch of one window, which is attained. If the command that sets the expiry is lost, a
  full counter refuses its client for good (`LostExpiryLocksOut`).
- `Watchdog.dfy`: alerts are the edges of the health verdicts; while probes fail the sleeps
  between them never shrink (`SleepsGrow`); a dead connection is noticed by the third failing
  probe. A recovery can be announced without any successful probe since the loss, exactly
  when the first failing probe saw the connection or the authorisation gone, the second
  raised after seeing it back, and both came within the staleness limit: after every success
  (`RecoveredExactly`), and as the loop starts, where nothing was announced before it
  (`RecoveredAtStart`). At the start there is one more case, a connection recorded as absent
  and a first probe that could not look.
- `Admins.dfy`: the last active super-admin, in Go and in Python. The two disagree on one
  family of patches, and only while no super-admin is active. Nobody becomes an active
  super-admin unless a request asks for the role or enables a row (`NobodyRises`), and
  usernames and Telegram ids stay unique (`UniqueThroughout`).
- `Fleet.dfy`: the updater script and a fleet of hosts running it. HEAD and IMAGE_TAG part
  only where a run ends between a reset and its tag write (`PartedInGap`), and later ticks
  change nothing until one finds the branch away from HEAD, which repairs both
  (`GapPersists`): after the forward reset that takes a new commit on the branch, after a
  reset back the next tick does it. docs/FLEET_UPDATES.md says production only gets commits
  a canary verified healthy; the script warns about a failed deploy and goes on to the gate,
  so a gate can pass on services of the old commit (`PromotedUnrun`), exactly when a deploy
  failed and left some of them behind (`StaleGateExactly`). When none does on a canary, the
  documented guarantee holds (`ProductionProven`). When nothing fails, one canary tick, its
  push and one production tick bring both hosts to the tip of main (`RolloutReaches`).

Given, not modelled: the `\w` and whitespace classes and lower-casing (with the few facts
used about them in `Classes.Valid` and `Text.Valid`), SHA-256 (a function to strings of
one length; only the strings in question must not collide), commit ancestry, and every
answer of Telegram, Redis, Postgres, git and Docker.

## Model

| member | source | states |
|---|---|---|
| `ProtocolWriteOnce.PublishedIdWriteOnce` | bot/publisher.py:190-217 | once stored, a message id never changes and its post, deleted later or not, is never sent again, over every disciplined run and continuation |
| `ProtocolLimits.WriteOnceExact` | bot/publisher.py:190-217 | stored ids never change in disciplined runs if and only if 2 * timeout <= lookback + spacing or timeout < spacing |
| `ProtocolTheorems.PrunedTableAgrees` | worker/normalize.py:34-43 | the duplicate check on the pruned table answers as a scan of every unreleased reservation in the window |
| `ProtocolLimits.AgreementExact` | worker/reconcile.py:71-79 | the pruned table agrees with the history in all reachable states if and only if timeout <= lookback or timeout < spacing |
| `ProtocolTheorems.ReservationOwned` | bot/publisher.py:141-170 | every live run between reserve and release or mark has its own reservation's row in the table |
| `ProtocolLimits.OwnershipExact` | worker/reconcile.py:71-79 | live holders keep their rows in all reachable states if and only if the job timeout does not exceed the lookback |
| `ProtocolTheorems.OneHolderPerHash` | bot/publisher.py:141-158 | at most one live run holds a hash |
| `ProtocolLimits.OneHolderExact` | worker/reconcile.py:71-79 | holders are alone in all reachable states if and only if the job timeout does not exceed the lookback |
| `ProtocolTheorems.ReleaseTakesOwnRow` | bot/publisher.py:161-170 | the delete by hash removes the releasing run's own row and nothing else, given timeout <= lookback or timeout < spacing |
| `ProtocolLimits.ReleaseExact` | bot/publisher.py:161-170 | releases take out their own run's row in all reachable states if and only if timeout <= lookback or timeout < spacing |
| `ProtocolDeliveries.SendsFarApart` | bot/publisher.py:251-340 | in every run, for every configuration, any two completed sends with one hash are more than lookback + spacing - timeout apart |
| `ProtocolLimits.SendsBoundReached` | bot/publisher.py:251-340 | two sends of one hash one millisecond above that bound are reachable whenever spacing <= timeout <= lookback |
| `ProtocolDeliveries.SentRowBlocks` | bot/publisher.py:292-333 | while the row of a completed send is in the table no live run with its hash is sending, backing off or releasing, and only the sender may be at its mark |
| `ProtocolDeliveries.NoSendWhileRowStands` | bot/publisher.py:285-299 | over every continuation that leaves that row in the table no further send of the hash is made |
| `ProtocolDeliveries.LaterRunEnds` | bot/publisher.py:258-299 | a run started while its hash has a row, and not cut short, sends nothing while the row is there, whatever others do, and returns only refused at the gate or as a duplicate with its post rejected |
| `ProtocolDeliveries.SentRowKept` | worker/reconcile.py:71-79 | the row of a completed send is in the table until lookback - timeout after the send |
| `ProtocolTheorems.RejectionSticks` | bot/publisher.py:260-265 | a rejected post with no run past the gate gets no send in any continuation without an approve, a schedule or a failing load |
| `ProtocolTheorems.DuplicatesNeverSent` | worker/normalize.py:165-189 | a post nobody has asked for and normalize only finds duplicate gets no send |
| `ProtocolTheorems.AttemptsSpaced` | bot/publisher.py:303-319 | a first attempt starts a spacing after every earlier attempt ended, a retry follows its own failed attempt and waits retry_after + 1 seconds, and no run makes three attempts |
| `ProtocolDeliveries.SendsSpaced` | bot/publisher.py:303-317 | in every run any two completed sends, whatever their hash, are at least a spacing apart |
| `ProtocolTheorems.PublishedIdsTruthful` | bot/publisher.py:190-198 | a stored message id is the id of a completed send of that post, and state published implies one is stored |
| `ProtocolSegments.FailureIsRepeatable` | bot/publisher.py:318-329 | after a failing send the hash is absent and the post publish_failed; the next undisturbed run reserves and reaches the send |
| `ProtocolOutcomes.FloodWaitedOut` | bot/publisher.py:312-317 | from any first call, when the run has the time, a RetryAfter of n seconds is followed by a second call n + 1 seconds later that publishes the post: state, id, one send at that time, the row kept, the lock free |
| `ProtocolOutcomes.OrphanedReservation` | bot/publisher.py:141-158 | an exception after the reserve's commit leaves its row: the post fails, and its next try rejects it with nothing ever sent |
| `ProtocolOutcomes.MarkInserts` | bot/publisher.py:208-217 | as intended, a mark whose row was pruned inserts one again with state and id |
| `ProtocolSegments.PublishesUndisturbed` | bot/publisher.py:251-340 | an undisturbed run for a post the gate lets through with a free hash ends with exactly one send, the post published under its id and the run's row in the table |
| `ProtocolOutcomes.IngestedIsPublished` | worker/normalize.py:154-189 | content with no row, ingested on an auto channel and left alone, ends published under Telegram's id with its hash stored, one row and one send a spacing after it came in |
| `ProtocolOutcomes.NormalizeDecides` | worker/normalize.py:154-189 | loaded, checked and committed undisturbed, a post is rejected if and only if its hash has a row at most the lookback old, else keeps its state and owes one publish if and only if the channel is auto |
| `ProtocolOutcomes.RepeatIsRejected` | worker/normalize.py:165-176 | content ingested while its hash has such a row ends rejected, with nothing owed, sent or reserved |
| `ProtocolOutcomes.ApprovedIsPublished` | apigo/handlers_queue.go:202-216 | an approved post with a free hash, left alone, is published with one send; the dashboard clears its scheduled time and the inline button does not |
| `ProtocolOutcomes.ScheduledIsReconciled` | worker/reconcile.py:43-68 | scheduling stores the time and owes one publish; once due and for thirty days the gate lets the post through and reconcile owes one more, unless a hundred others due no later come back instead |
| `ProtocolOutcomes.ReconcileReturns` | worker/reconcile.py:48-60 | a batch is an answer of the query if and only if it lists due posts oldest first without repeats, all of them up to a hundred, and none left out is older than one returned |
| `ProtocolOutcomes.StoppedIsNotSent` | bot/publisher.py:255-265 | a post rejected or deleted while no run is past the gate gets no send until somebody reopens it |
| `ProtocolAsWritten.NothingPublished` | bot/publisher.py:208-217 | with the mark read literally no hashed post ever gets a message id or becomes published, in any disciplined run |
| `ProtocolAsWritten.FailsAfterSending` | bot/publisher.py:333-366 | read literally, an undisturbed run sends its post once and leaves it publish_failed without an id, its row kept |
| `ProtocolAsWritten.RetryRejects` | bot/publisher.py:287-290 | the next try finds that row and rejects the delivered post, sending nothing |
| `ProtocolDiscipline.UnhashedSentTwice` | bot/publisher.py:285-299 | from any state with a queued unhashed post that passes the gate, two racing runs send it twice and overwrite the id |
| `ProtocolDiscipline.ChangedContentSentTwice` | worker/normalize.py:154-158 | from any state with a queued hashed post that passes the gate, one change of its content after normalize read it, in runs otherwise disciplined, leads to two sends and an overwritten id |
| `ProtocolDiscipline.LoadFailureUnrejects` | bot/publisher.py:343-366 | an exception at the gate puts a rejected post in publish_failed and a later run sends it |
| `ProtocolGate.GateOpensExactly` | bot/publisher.py:260-271 | a step makes the gate let through a post it refused for its state if and only if it is an approve, a schedule or a committing failure handler of that post |
| `ProtocolOutcomes.GateReads` | bot/publisher.py:255-265 | the read lets a run on if and only if the post exists, has no id and is pending, approved, scheduled or publish_failed; the run takes its hash and nothing else changes |
| `ProtocolGate.GateKeepsOut` | bot/publisher.py:267-271 | over every continuation without such a step, a post the gate refuses has no run past the gate and no new send but those of the one run that was past it before |
| `ProtocolGate.ClaimGuards` | bot/publisher.py:9-10 | after any run's claim with no other run past the gate, all later sends of the post until the gate opens are by that run, and there is at most one |
| `ProtocolGate.TimeoutStrands` | bot/publisher.py:358-366 | a run cut off in publishing leaves its post publishing, rejected or deleted, refused by the gate and unsent, over every continuation in which the gate is not opened |
| `ProtocolOutcomes.ChannelMissingStrands` | bot/publisher.py:270-280 | a run whose channel is missing ends after writing publishing, and its post stays refused and unsent until the gate is opened |
| `ProtocolGate.CutOffIsRejected` | bot/publisher.py:285-290 | if such a run's hash is in the table, approving the post makes the next run reject it without sending |
| `ProtocolSegments.GateLetsBothPass` | bot/publisher.py:255-271 | two runs that both read before either writes both pass the gate with the same hash |
| `PublishService.Cms.Publish` | bot/publisher.py:358-366 | whatever happens at its awaits the job is a run of the protocol in which every move of its own is the one the surroundings dictate; it takes no longer than spacing, RetryAfter and the others' delays unless it finds the lock held; its outcome tells how many sends it made and what the post looked like, and a duplicate means its hash had a row when it looked |
| `MediaKeys.OrderFreeExactly` | shared/dedupe.py:21-39 | the key is the same for every permutation of the refs if and only if refs equal on type and size agree on mime |
| `MediaKeys.KeyDecodes` | shared/dedupe.py:32-39 | the sorted entries are read back from the key |
| `MediaKeys.KeyLists` | shared/dedupe.py:24-39 | the key decodes to exactly one entry per ref, of its type, size and mime, missing ones empty or 0, whatever its file |
| `DedupeHash.SameHashExactly` | shared/dedupe.py:42-48 | with no digest collision among the strings involved, hashes are equal if and only if words and media are |
| `DedupeHash.StoredAgainSameHash` | shared/dedupe.py:24-28 | posts whose refs agree in type, size and mime hash alike wherever the files are stored |
| `DedupeHash.PlainHashes` | shared/dedupe.py:15-48 | no text and no media hash as the empty ones, and a one-word text as the digest of its lower-cased digest, a colon and the digest of nothing |
| `TextKeys.SplitsExactly` | shared/dedupe.py:17 | splitting yields exactly the words the text lays out, whatever the whitespace |
| `TextKeys.CleanedAgree` | shared/dedupe.py:15-18 | two texts digest the same string if and only if their lower-cased words agree |
| `Watermark.StripLeavesNothing` | shared/transform.py:191-195 | a stripped text has no `#` or `@` before a word character, no `http://t.me/` or `https://t.me/` before a non-space, no three newlines in a row and no outer whitespace |
| `Watermark.StripFixedPoints` | shared/transform.py:191-195 | stripping leaves alone exactly the texts with nothing to strip, hence is idempotent |
| `Watermark.StripTakesOut` | shared/transform.py:191-195 | a stripped text is a subsequence of the text |
| `Watermark.SubIsUncovered` | shared/transform.py:171-175 | a tag or link pass deletes exactly the characters from such a marker or prefix on through the word characters, or non-spaces, after it, and keeps all others in order |
| `Slug.Slugify` | apigo/handlers_tags.go:13-33 | the loop computes the regular-expression definition on every lower-cased value |
| `Slug.SlugIsWords` | api/routers/tags.py:21-25 | the slug is the maximal a-z0-9 runs joined by dashes, cut to 64 |
| `Slug.SlugShape` | api/routers/tags.py:21-25 | refused if and only if no a-z0-9 occurs; a slug starts alphanumeric, has no double dash, is at most 64 long, and ends in a dash only when cut |
| `Slug.SlugAlphabet` | api/routers/tags.py:21-25 | a slug has 1 to 64 characters, each a to z, 0 to 9 or a dash, and a value is refused if and only if it has none of the former |
| `Slug.PlainIsOwnSlug` | api/routers/tags.py:21-25 | a value of a to z and 0 to 9 only is its own slug, cut after 64 |
| `Slug.OneDash` | apigo/handlers_tags.go:13-33 | any run of other characters between two such words becomes one dash |
| `Slug.SlugAgain` | api/routers/tags.py:21-25 | a second application drops at most that one trailing dash |
| `RateLimit.LimitPerWindow` | apigo/ratelimit.go:26-39 | for every arrival pattern any stretch of one window admits at most 2 * limit - 1 |
| `RateLimit.BoundReached` | apigo/ratelimit.go:26-39 | that bound is attained for every limit |
| `RateLimit.LimitPerCounter` | apigo/ratelimit.go:26-39 | for every arrival pattern one counter admits at most the limit |
| `RateLimit.LostExpiryLocksOut` | apigo/ratelimit.go:28-33 | over every trace in which the expiry of a full counter is not set, its client is never let through again |
| `Watchdog.RecoveredExactly` | userbot/main.py:140-229 | after a success, and for all failing probes that follow, a recovery is announced if and only if the first saw the connection or authorisation gone, the second raised after seeing it back, and both came soon enough |
| `Watchdog.RecoveredAtStart` | userbot/main.py:129-229 | as the loop starts, for all failing probes, a recovery is announced, and then before anything else, if and only if the same holds counting the age of the last ping, or no connection was recorded, the first probe could not look and the second raised after seeing it |
| `Watchdog.AlertsAreEdges` | userbot/main.py:206-229 | the alerts attempted are the edges of the verdict sequence, then the fatal one |
| `Watchdog.AlertsAlternate` | userbot/main.py:206-229 | unhealthy and recovered strictly alternate and a fatal alert comes only last |
| `Watchdog.NoticedByThird` | userbot/main.py:93-107 | after a success every verdict from the third failing probe to the next success is unhealthy |
| `Watchdog.HealthyMeans` | userbot/main.py:93-107 | healthy if and only if last seen connected, last seen authorised, and a success within ninety seconds |
| `Admins.SuperAdminRemains` | apigo/handlers_admins.go:131-175 | from any table with an active super-admin every serial run of creations and patches by either service keeps one |
| `Admins.ServicesAgreeExactly` | api/routers/admins.py:66-99 | on a well-formed patch the services give the same reply and table unless no super-admin is active and the patch promotes and disables an active plain admin |
| `Admins.ServicesAgreeThroughout` | api/routers/admins.py:66-99 | from a guarded table, sending well-formed patches to either service gives the same table throughout |
| `Admins.GuardExact` | apigo/handlers_admins.go:131-170 | on an active super-admin a patch is refused if and only if it would leave none active |
| `Admins.NobodyRises` | apigo/handlers_admins.go:54-92 | over every serial run of requests none of which gives the super-admin role or enables a row, the set of active super-admins never grows |
| `Admins.CreateWrites` | apigo/handlers_admins.go:54-92 | a creation is refused exactly for short values, a bad role or a taken username or Telegram id; else it adds one enabled row as asked, an editor when no role is sent, and one active super-admin if and only if that role is asked for |
| `Admins.UniqueThroughout` | shared/models.py:44-55 | usernames and Telegram ids stay unique over every run of requests |
| `Admins.PatchWrites` | api/routers/admins.py:65-101 | a patch answered 200, by either service, writes exactly the columns that were sent, only a null Telegram id clearing one |
| `Admins.PatchStatuses` | apigo/handlers_admins.go:94-199 | when a patch is answered 404, 422 or 500, and Python's bounds on a password |
| `Admins.Utf8Lengths` | apigo/handlers_admins.go:61 | the length Go checks: one byte for ASCII, two, three or four for other characters |
| `Fleet.ProductionVetted` | fleet/auto-update.sh:151-169 | with operators pushing only passed commits, over every interleaving and crash, stable and every production HEAD and running commit is an initial one or one a canary gate passed |
| `Fleet.ProductionProven` | fleet/auto-update.sh:186-201 | when no canary's deploy leaves services behind, whatever deploys do on production, over every careful interleaving and crash, stable and every production HEAD and running commit is an initial one or one a canary was running when its gate passed |
| `Fleet.StaleGateExactly` | fleet/auto-update.sh:186-192 | in every run a host is at its gate with services not all of the commit under test if and only if a deploy failed and left some behind and nothing has moved the host since |
| `Fleet.PartedInGap` | fleet/auto-update.sh:171-183 | over any answers, HEAD and IMAGE_TAG of an aligned host part only where a run ends between a reset and its tag write |
| `Fleet.StableMovesForward` | fleet/auto-update.sh:162-168 | plain pushes only move stable to descendants |
| `Fleet.RolloutReaches` | fleet/auto-update.sh:81-205 | when nothing fails, a tick of a canary with a token, its push and a tick of a production host leave tree, tag and services of both at the tip of main, and stable there |
| `Fleet.PushesExactly` | fleet/auto-update.sh:145-169 | a passed gate leads to a push if and only if the host is a canary with a token, and a push that is not forward, or fails, leaves stable alone |
| `Fleet.OutsideEvents` | fleet/auto-update.sh:162-168 | pushes of others move main and, forward only, stable; a crash ends one host's run and touches nothing else |
| `Fleet.UpdatedIsRun` | fleet/auto-update.sh:171-226 | that effect is the run of the per-command step relation on the same answers |
| `ProtocolWriteOnce.GuardedStep` | bot/publisher.py:251-340 | the inductive invariant behind it: hashes settled, requests only for hashed posts, every id recorded by a send whose overlapping runs are too old to send |
| `ProtocolWriteOnce.MarkRecorded` | bot/publisher.py:190-217 | a committed mark stores the id of the run's own send |
| `ProtocolInvariants.BaseStep` | bot/publisher.py:251-366 | every step keeps: known runs, one lock holder with spaced attempts, at most one send per run, truthful ids |
| `ProtocolInvariants.IndexStep` | bot/publisher.py:141-170 | every step keeps: rows recorded in history, unreleased reservations present until the window passes, reservations of one hash a window apart, holders reserved |
| `ProtocolSegments.TakenHashRejects` | bot/publisher.py:287-299 | a run that finds its hash taken rejects the post and ends, changing neither rows nor sends |
| `ProtocolSegments.Finishes` | bot/publisher.py:331-340 | after an accepted send, mark and card store state and id, add the one send and leave the rows as they are |
| `ProtocolOutcomes.ZeroIsNoId` | bot/publisher.py:326-329 | a call without an id is never a send |
| `PublishService.Cms.PublishCore` | bot/publisher.py:251-340 | the body: delivered means one send with that id, skip or duplicate means none, and it ends or stands at the failure handler |
| `PublishService.Cms.PassGate` | bot/publisher.py:255-283 | the gate: not found, already published, skip by state, channel missing, or on to the dedupe check |
| `PublishService.Cms.Admit` | bot/publisher.py:255-265 | the gate's read: the refusal that fits the post, or the run goes on with the hash it read |
| `PublishService.Cms.Claim` | bot/publisher.py:267-280 | the gate's write: the post is publishing whatever others did since the read; a post deleted meanwhile raises; then the channel check |
| `PublishService.Cms.Reserve` | bot/publisher.py:285-299 | both dedupe checks; a duplicate means one of them found a row, and the post is rejected |
| `PublishService.Cms.TakeTurn` | bot/publisher.py:306-307 | the lock and the spacing, unless cancelled after its timeout |
| `PublishService.Cms.SpacedSend` | bot/publisher.py:308-317 | one attempt and after RetryAfter one more, n + 1 seconds later and no more, ending at the mark with the accepted id or at the release |
| `PublishService.Cms.Settle` | bot/publisher.py:321-340 | release and raise, or mark and edit the card |
| `PublishService.Cms.Transact` | bot/publisher.py:141-217 | one transaction of the run, with others before it and an exception before or after its commit |
| `PublishService.Cms.InsertDedupe` | bot/publisher.py:141-158 | inserts exactly when the hash is absent and says so |
| `PublishService.Cms.StorePublished` | bot/publisher.py:190-217 | state, message id and the intended insert in one transaction; nothing for a missing post |
| `PublishService.Cms.Decide` | apigo/handlers_queue.go:191-260 | approve, schedule and reject, and the replies for a missing post, an unknown action or a time not in the future |
| `PublishService.Cms.CbApprove` | bot/handlers/callbacks.py:63-85 | the inline approve: a missing post or channel is answered, else approved and a publish owed, scheduled_for left alone |
| `PublishService.Cms.LookUpDuplicate` | worker/normalize.py:34-43 | found exactly when the hash has a row inside the window |
| `PublishService.Cms.NormalizeCheck` | worker/normalize.py:165 | the duplicate verdict, kept while others act before the commit |
| `PublishService.Cms.NormalizeCommit` | worker/normalize.py:154-189 | stores the hash, then rejects a duplicate or owes an auto channel its publish |
| `ProtocolOutcomes.NormalizeSkips` | worker/normalize.py:68 | a published or rejected post is not normalized |
| `PublishService.Cms.PruneDedupeRows` | worker/reconcile.py:71-79 | keeps exactly the rows at or after the cutoff and counts the others |
| `ProtocolOutcomes.PruneKeeps` | worker/reconcile.py:71-79 | the step keeps exactly the rows at or after the cutoff, unchanged, and cannot cut inside the window |
| `PublishService.Cms.ReconcileScheduled` | worker/reconcile.py:43-68 | owes one publish for each post of the batch and counts them |
| `PublishService.Cms.CbReject` | bot/handlers/callbacks.py:103-121 | the inline reject, with the same answers |
| `Watermark.ApplyWatermark` | shared/transform.py:178-200 | strip if asked, then brand |
| `Watermark.TagGone` | shared/transform.py:171-173 | a tag pass leaves no marker before a word character and no other pass recreates one |
| `Watermark.LinkGone` | shared/transform.py:174-175 | the link pass leaves neither prefix before a non-space and collapsing newlines recreates none |
| `Watermark.NewlinesGone` | shared/transform.py:195 | three newlines in a row never remain and up to two in front are kept |
| `Watermark.NewlinesOnly` | shared/transform.py:195 | collapsing changes nothing but newlines |
| `Watermark.StripMeans` | shared/transform.py:195 | trimming takes off exactly the outer whitespace |
| `Watermark.BrandedStripped` | shared/transform.py:197-198 | a stripped text is branded by a blank line and the watermark |
| `Watermark.BrandedMeans` | shared/transform.py:197-198 | any text is branded after losing exactly its trailing whitespace, by a blank line and the watermark |
| `Watermark.UnbrandedIsText` | shared/transform.py:197-200 | without a watermark, or with an empty one, the text is left as it is |
| `TextKeys.JoinSplits` | shared/dedupe.py:17 | joining then splitting gives the words back, and the strip changes nothing |
| `TextKeys.CleanedIsLowerWords` | shared/dedupe.py:15-18 | the digested text is the lower-cased words one space apart and can be split back into them |
| `TextKeys.CleanedTwice` | shared/dedupe.py:15-18 | cleaning is idempotent |
| `MediaKeys.MediaKey` | shared/dedupe.py:32-39 | the loop over the sorted refs builds the key |
| `MediaKeys.SortedStably` | shared/dedupe.py:33 | sorting permutes, orders by type and size, and keeps the given order within each group |
| `MediaKeys.KeyAscends` | shared/dedupe.py:33 | in the key types ascend by their first differing character, and sizes within one type |
| `MediaKeys.KeyOfOne` | shared/dedupe.py:34-37 | a single ref is its type, size in decimal and mime with colons between; missing values give an empty type and mime and size 0 |
| `MediaKeys.KeyOfTwo` | shared/dedupe.py:33-39 | two refs in either order are their two keys with a bar between, the smaller type, or of one type the smaller size, first |
| `MediaKeys.DecimalMeans` | shared/dedupe.py:37 | sizes are written digit by digit in decimal |
| `MediaKeys.PartRoundTrip` | shared/dedupe.py:34-37 | type, size and mime are read back from a part |
| `MediaKeys.KeysAgree` | shared/dedupe.py:21-39 | keys are equal if and only if sorted entries are |
| `MediaKeys.FilesIgnored` | shared/dedupe.py:24-28 | refs that agree in type, size and mime, one by one, have one key |
| `DedupeHash.SameContentSameHash` | shared/dedupe.py:42-48 | equal lower-cased words and equal sorted media give one hash |
| `DedupeHash.ReorderedMediaSameHash` | shared/dedupe.py:42-48 | a permutation of agreeing refs keeps the hash |
| `Slug.SlugSettles` | api/routers/tags.py:21-25 | a third application changes nothing |
| `RateLimit.Limiter.Handle` | apigo/ratelimit.go:23-42 | passes exactly below the limit or when Redis fails, as a run of Redis commands with others in between and an expiry that may be lost |
| `RateLimit.SoundStep` | apigo/ratelimit.go:28-33 | every command keeps the invariant tying counters to admissions |
| `Watchdog.Userbot.Probe` | userbot/main.py:130-204 | sleep, probe and record, with every call able to raise |
| `Watchdog.Userbot.Judge` | userbot/main.py:206-229 | the edge-triggered alerts |
| `Watchdog.Userbot.IsHealthy` | userbot/main.py:93-107 | the verdict on the liveness fields |
| `Watchdog.Userbot.Run` | userbot/main.py:116-229 | the loop over any number of cycles |
| `Watchdog.BackoffGrows` | userbot/main.py:130-138 | every sleep lies in 30 to 300 seconds and never shrinks with one more failure: 30, 30, 60, 120, 240, 300 |
| `Watchdog.SleepsGrow` | userbot/main.py:130-138 | over every stretch of failing probes no sleep is shorter than an earlier one, and all lie in 30 to 300 seconds |
| `Watchdog.TwoMayPass` | userbot/main.py:93-107 | two failing probes can go unnoticed |
| `Watchdog.RecoveredWithoutSuccess` | userbot/main.py:143-157 | one such probe sequence |
| `Admins.Store.HandleUpdateGo` | apigo/handlers_admins.go:94-199 | the Go update: collected assignments, statuses and the one row stored |
| `Admins.Store.Collect` | apigo/handlers_admins.go:117-185 | the guards in order and assignments that amount to the patch |
| `Admins.Store.UpdatePy` | api/routers/admins.py:55-105 | the Python update: sequential assignment with flushes, rolled back on refusal |
| `Admins.Store.HandleCreate` | apigo/handlers_admins.go:54-92 | the creation and its statuses |
| `Admins.GuardElsewhere` | apigo/handlers_admins.go:137-148 | on other rows only the demotion of a disabled super-admin can be refused, though nothing would be lost |
| `Admins.OnlyTheRow` | apigo/handlers_admins.go:187-199 | a success changes the one row as the patch says and anything else changes nothing |
| `Fleet.Updater.AutoUpdate` | fleet/auto-update.sh:81-226 | one uninterrupted run of the script, its effect on HEAD, IMAGE_TAG and the services, and its exit status |
| `Fleet.RunAligns` | fleet/auto-update.sh:106-116 | an uninterrupted run keeps HEAD and IMAGE_TAG together and restores them whenever it moves |
| `Fleet.StaysIfGated` | fleet/auto-update.sh:179-226 | the new commit stays if and only if its images were there and the gate passed, else HEAD is back |
| `Fleet.ServicesFollow` | fleet/auto-update.sh:174-223 | what the services run after a run, for each way the pull, the deploys and the gate can go |
| `Fleet.ExitsOnFailure` | fleet/auto-update.sh:92-94 | the script exits 1 if and only if the tracked ref is missing or the gate refused the new commit, which is then gone |
| `Fleet.GapPersists` | fleet/auto-update.sh:92-97 | after a run is cut off in a gap, over all later ticks nothing changes until one finds the branch away from HEAD and from then on HEAD and IMAGE_TAG agree; a branch still at the target is such a tick after a reset back and not after the forward reset |
| `Fleet.PassedAtGate` | fleet/auto-update.sh:190-201 | a commit counts as passed only at a canary's gate with tree and tag at that commit |
| `Fleet.PromotedUnrun` | fleet/auto-update.sh:186-201 | a failed deploy and a passing gate promote a commit that was never run |
| `Fleet.PassedWhileRunning` | fleet/auto-update.sh:186-201 | when no canary's deploy leaves services behind a commit counts as passed only at a gate of a canary running it |

## Left out

- Inside `_send_post`: media kinds, captions and groups. Only calls that returned an id count; a late failure can leave partial output in the channel.
- `scheduled_for` at publish time: `publish` ignores it and a rescheduled post keeps its old delayed job, so nothing is claimed about when a scheduled post goes out.
- Each remaining transaction is one instant; the rows it writes carry that instant as their time.
- The clock is shared by all services and the database; skew between them is not modelled.
- The send lock is one lock for all runs, as in a single bot process. asyncio's waiting order is not modelled: any waiting run may be next.
- `PublishService.Cms.ReconcileScheduled`: takes the batch the query returned; what the query may return is `Protocol.OverdueBatch`.
- `PublishService.Cms.NormalizeCommit`: the state, hash and routing part only; rendering, LLM transformation and the draft card are not modelled.
- `api/routers/queue.py`: the Python twin of `decide`, which takes the same steps.
- Events, tags, cards, alerts' wording, media files and the audit prune.
- `ProtocolWriteOnce.PublishedIdWriteOnce`: for runs in which every approved or scheduled post is already hashed and its content does not change after normalize reads it; `ProtocolDiscipline` shows why both are needed.
- `ProtocolLimits.WriteOnceExact`: the only-if half is for the intended insert; read literally the mark stores no id for a hashed post, so none can change (`ProtocolAsWritten.NothingPublished`).
- `ProtocolSegments.PublishesUndisturbed`: for the intended insert; `ProtocolAsWritten.FailsAfterSending` is its counterpart under the literal reading.
- `ProtocolOutcomes.FloodWaitedOut`: for the intended insert, as are `ProtocolOutcomes.IngestedIsPublished`, `ProtocolOutcomes.ApprovedIsPublished` and `ProtocolOutcomes.MarkInserts`; read literally their last step raises as in `ProtocolAsWritten.MarkRaised`.
- `ProtocolSegments.Finishes`: for the intended insert, with `ProtocolAsWritten.MarkRaised` as its counterpart.
- `PublishService.Cms.StorePublished`: follows the insert the source intends; read literally, the line raises for a hashed post, which is the `Raise(false)` of the protocol and the subject of `ProtocolAsWritten`.
- `PublishService.Cms.Decide`: the database-error and enqueue-error replies are left out; a database error changes nothing, and an enqueue that never comes is an owed publish that is never enqueued.
- `Watermark.ApplyWatermark`: Unicode classes are given; the facts used are that word and space characters are disjoint, the markers are not word characters, a newline is whitespace and the link prefixes contain none.
- `Slug.Slugify`: starts from the lower-cased value; Go's `strings.ToLower` and Python's `lower` differ on a few characters outside ASCII.
- `MediaKeys.KeyDecodes`: for types without colon or bar and mimes without bar, as the source's types and mimes are; sizes are natural numbers.
- `RateLimit.LimitPerWindow`: a request let through because Redis failed is not counted, and a key is removed by Redis at or after its deadline, never before.
- `Watchdog.Userbot.Run`: the endless loop is run over any finite number of cycles; cancellation and the reason strings are left out.
- `Admins.SuperAdminRemains`: requests one at a time; the count and the update are not one transaction, so concurrent patches are not covered.
- `Admins.Store.UpdatePy`: the authentication dependency and the hash computation are left out; a stored password stands for its hash.
- `Admins.Store.HandleCreate`: lengths in bytes of UTF-8 as the Go handler counts them; the Python schema counts characters and has upper bounds, which are left out.
- `Fleet.Updater.AutoUpdate`: which services a failed deploy restarted (the model keeps one tag, or none when they differ), configuration, registry login, image pruning, alerts and the migration step's exit code, which the script ignores.
- Ingestion, backfill, the web UI, metrics, CORS, configuration loading, authentication and installation.
- `default_tag_ids`: not kept in step with the join table by tag deletion, so no invariant is claimed.
