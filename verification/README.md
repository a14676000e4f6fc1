# Live-stream leaderboard: scoring core in Dafny

This project models the scoring core of a live-stream gift-and-like leaderboard backend.

Viewers send likes, gifts and comments. Each event goes to the scoring service:
- A like earns `count/10` points from a follower and `count/15` from anyone else.
- A gift earns coin value × band multiplier × quantity. The multipliers are 5, 6, 7, 8, 10, 15, 20 and 30, with band bounds 4, 9, 19, 49, 99, 299 and 999 coins.
- A comment earns nothing. It is appended to the viewer's comment list.

The service keeps its state in Redis, all under `session:{id}:`:
- a sorted-set leaderboard whose members are `"{user_id}|{nickname}"`;
- a statistics hash per viewer;
- a gift breakdown hash per viewer;
- a comment list per viewer.

The game manager holds:
- the connected and scoring-active flags;
- the current session, with an optional reset that deletes every key under the session prefix;
- the winner selection, which takes the top member off the leaderboard and reports that viewer's statistics, comments and gift breakdown.

The data service keeps relational records of viewers, gifts and comments. The replay adapter feeds recorded events, one JSON line at a time, through guards into both services.

The files:
- `wrappers.dfy` defines `Option` and `Result`.
- `strings.dfy` holds Python truthiness of strings, prefixes, `split("|", 1)` and the byte order of strings.
- `redis_store.dfy` models the Redis keyspace as a `map<string, Value>` held by the class `RedisStore`. Each command used is a function on that map with its own contract:
  - ZINCRBY, HSET, HINCRBY, HINCRBYFLOAT, RPUSH, ZREM, DEL and KEYS with a prefix pattern;
  - ZREVRANGE with its order: score descending, ties by member descending.
- `command_sequences.dfy` states, once and generically, what the command sequences of the three `process_*` calls do to a keyspace.
- `scoring_service.dfy` holds the class `ScoringService` and the pure effect of each call (`LikeEffect`, `GiftEffect`, `CommentEffect`). Each method is proved to produce exactly that effect.
- `scoring_properties.dfy` proves what the scoring engine promises:
  - the bands;
  - the key layout and its round trips;
  - the exact change each call makes;
  - a viewer's score equals the like and gift points in their statistics.
- `game_manager.dfy` holds the class `GameManager`.
- `data_service.dfy` holds the class `DataService`. Its tables are fields; the clock is a parameter.
- `mock_adapter.dfy` holds the pure per-line dispatch and the class `MockLiveAdapter`.

Python `float` points are modelled as exact reals. `int(score)` is truncation toward zero.

A Redis command that Redis would reject changes nothing in the model. Two cases exist:
- a command on a key of another type (WRONGTYPE);
- an increment of a field that holds no number.

The adapter's call to `save_comment` passes the comment text and the session id in each other's places. The model keeps that argument order as written, and `Replay.CommentRowSwapped` shows its consequence.

Three facts about the code that a reader might expect otherwise:
- `upsert_gift` never changes a stored gift's name or coin value. It stores an image only while the stored one is null, so the first image wins (`Data.FirstImageWins`).
- `process_gift` checks neither the coin value nor the quantity, and does not touch the gift catalogue: any amount is added, whatever its sign (`ScoringProperties.GiftRaisesScore`).
- The Redis comment list holds only the text of each comment, with no timestamp.

## Model

| member | source | states |
|---|---|---|
| Redis.RedisStore.ZRevRangeWithScores | backend/app/services/scoring_service.py:370 | the answer is the `count` best members in ZREVRANGE order (highest score first, ties by member descending), each with its own score |
| Redis.OutranksTransitive | backend/app/services/scoring_service.py:370 | the ZREVRANGE order is transitive |
| Redis.OutranksTotal | backend/app/services/scoring_service.py:370 | any two different members are ordered one way or the other |
| Redis.OutranksIrreflexive | backend/app/services/scoring_service.py:370 | no member outranks itself |
| Redis.KeysWithPrefix | backend/app/game_manager.py:29 | a key is listed by `KEYS session:{id}:*` exactly when it exists and starts with the prefix |
| Redis.ZIncr | backend/app/services/scoring_service.py:284 | on a sorted set or a missing key, ZINCRBY raises the member's score by the delta (from 0 for a new member) and leaves the other members alone; on a key of another type (WRONGTYPE) the store is unchanged; no other key changes |
| Redis.RedisStore.ZIncrBy | backend/app/services/scoring_service.py:319 | the store after ZINCRBY is `ZIncr` of the old store |
| Redis.HSetText | backend/app/services/scoring_service.py:288-290 | on a hash or a missing key, HSET makes the field hold the text and keeps the other fields; on a key of another type the store is unchanged; no other key changes |
| Redis.RedisStore.HSet | backend/app/services/scoring_service.py:322-324 | the store after HSET is `HSetText` of the old store |
| Redis.HIncrInt | backend/app/services/scoring_service.py:291-292 | on a hash whose field is absent or an integer, HINCRBY raises the field by the delta (from 0 when absent) and keeps the other fields; otherwise the store is unchanged; no other key changes |
| Redis.RedisStore.HIncrBy | backend/app/services/scoring_service.py:360 | the store after HINCRBY is `HIncrInt` of the old store |
| Redis.HIncrFloat | backend/app/services/scoring_service.py:293 | on a hash whose field is absent or numeric, HINCRBYFLOAT raises the field by the delta (from 0 when absent) and keeps the other fields; on text or another key type the store is unchanged; no other key changes |
| Redis.RedisStore.HIncrByFloat | backend/app/services/scoring_service.py:327 | the store after HINCRBYFLOAT is `HIncrFloat` of the old store |
| Redis.RPush | backend/app/services/scoring_service.py:356 | on a list or a missing key, RPUSH appends the item at the end; on a key of another type the store is unchanged; no other key changes |
| Redis.RedisStore.RPushItem | backend/app/services/scoring_service.py:355-356 | the store after RPUSH is `RPush` of the old store |
| Redis.RedisStore.Delete | backend/app/game_manager.py:30-31 | DEL removes exactly the listed keys and keeps every other key and value |
| Redis.ZRemove | backend/app/game_manager.py:101 | ZREM takes exactly the one member out of the sorted set, keeps it a sorted set and leaves every other key alone |
| Redis.RedisStore.ZRem | backend/app/game_manager.py:101 | the store after ZREM is `ZRemove` of the old store |
| Scoring.ScoringService.constructor | backend/app/services/scoring_service.py:216-227 | the service writes to the given client, under "session:{id}:leaderboard", "session:{id}:user_data" and "session:{id}:comments" |
| Scoring.GiftMultiplier | backend/app/services/scoring_service.py:229-247 | the multiplier lies between 5 and 30; it is 5 exactly up to 4 coins and 30 exactly above 999 |
| Scoring.LikePoints | backend/app/services/scoring_service.py:268-275 | a like earns points exactly when its count is positive; for a non-negative count the points lie between count/15 and count/10 |
| Scoring.UserKey | backend/app/services/scoring_service.py:249-251 | the member is the id, then a "\|", then the nickname, so it always holds a "\|" |
| Scoring.LikeEffect | backend/app/services/scoring_service.py:277-294 | specification function with no contract of its own: the store after a like, command by command in source order; `LikeFrame`, `LikeRaisesScore`, `LikeChangesExactly` and `LikeRecordsPoints` state what it does |
| Scoring.GiftEffect | backend/app/services/scoring_service.py:309-331 | specification function with no contract of its own: the store after a gift, command by command in source order; `GiftFrame`, `GiftRaisesScore`, `GiftChangesExactly` and `GiftCountsInBreakdown` state what it does |
| Scoring.CommentEffect | backend/app/services/scoring_service.py:343-360 | specification function with no contract of its own: the store after a comment, command by command in source order; `CommentFrame`, `CommentAppends`, `CommentChangesExactly` and `CommentKeepsPoints` state what it does |
| Scoring.EntryFor | backend/app/services/scoring_service.py:378-392 | the entry keeps the member; its user id is the text before the member's first "\|"; the nickname falls back to the text after that "\|" when the statistics have none; the score is the member's score truncated |
| Scoring.IsBreakdown | backend/app/services/scoring_service.py:419-425 | predicate with no contract of its own: every field of the gift hash has its name in the breakdown, and every breakdown entry comes from a field with that name, with that field's id and count |
| Scoring.ScoringService.ProcessLike | backend/app/services/scoring_service.py:253-294 | the store after `process_like` is `LikeEffect`: nothing when the points are not positive; otherwise ZINCRBY, the nickname, the avatar if non-empty, both like counters and the like points |
| Scoring.ScoringService.ProcessGift | backend/app/services/scoring_service.py:296-331 | the store after `process_gift` is `GiftEffect`: ZINCRBY by coin × multiplier × quantity, identity, coins, gifts sent, gift points and the "{id}\|{name}" breakdown field |
| Scoring.ScoringService.ProcessComment | backend/app/services/scoring_service.py:333-360 | the store after `process_comment` is `CommentEffect`: the nickname and avatar if non-empty, RPUSH of the text, one more comment |
| Scoring.ScoringService.GetTop5Leaderboard | backend/app/services/scoring_service.py:366-395 | the entries are the top five members in ZREVRANGE order, each split on its first "\|", with the truncated score, the nickname from the statistics (the member's when absent), the avatar and the three counters; scores do not increase down the list; the read fails exactly when one of the five members it reads has no "\|" (so it succeeds whenever every member has one) |
| Scoring.EntriesByScore | backend/app/services/scoring_service.py:370-375 | entries taken in ZREVRANGE order with truncated scores have non-increasing scores |
| Scoring.TruncMonotone | backend/app/services/scoring_service.py:375 | `int()` of a float keeps the order of scores |
| Scoring.ScoringService.GetUserStatsAndComments | backend/app/services/scoring_service.py:401-431 | the statistics hash and the comment list as stored; a breakdown that names each gift by the part after the first "\|" of its field ("Unknown Gift" when there is none), with the id before it and the count |
| ScoringProperties.GiftMultiplierIsBandLookup | backend/app/services/scoring_service.py:229-247 | the chain of comparisons picks the multiplier of the first band whose bound covers the coin value, 30 above 999 |
| ScoringProperties.BandLookupBounded | backend/app/services/scoring_service.py:229-247 | a band lookup returns a multiplier that lies between the first band's and the top one |
| ScoringProperties.BandLookupMonotone | backend/app/services/scoring_service.py:229-247 | in an ascending band table, more coins never pick a smaller multiplier |
| ScoringProperties.BandsAscending | backend/app/services/scoring_service.py:229-247 | the service's bands ascend |
| ScoringProperties.GiftMultiplierMonotone | backend/app/services/scoring_service.py:229-247 | more coins per unit never earn a smaller multiplier |
| ScoringProperties.GiftMultiplierBoundaries | backend/app/services/scoring_service.py:229-247 | the multiplier at each band edge, and 5 units of 10 coins earn 350 points |
| ScoringProperties.LikePointsPositive | backend/app/services/scoring_service.py:268-277 | likes score exactly when there is at least one; 150 likes are 15 points from a follower, 10 otherwise |
| ScoringProperties.UserKeySplits | backend/app/services/scoring_service.py:249-251 | a member splits back on its first "\|" into id and nickname when the id has no "\|" |
| ScoringProperties.SessionKeysCollide | backend/app/services/scoring_service.py:221-224 | the statistics key of viewer "leaderboard" in session "a" is the leaderboard key of session "a:user_data" |
| ScoringProperties.UserKeysCollide | backend/app/services/scoring_service.py:249-251 | with "\|" inside an id two different viewers share one member |
| ScoringProperties.GiftFieldSplits | backend/app/services/scoring_service.py:419-425 | a breakdown field splits back into gift id and name when the id has no "\|" |
| ScoringProperties.SessionKeysDistinct | backend/app/services/scoring_service.py:216-227 | in one session, the leaderboard, statistics, breakdown and comment keys never coincide, and different viewers have different keys |
| ScoringProperties.SessionKeysUnderPrefix | backend/app/services/scoring_service.py:216-227 | every key the service writes for a session starts with "session:{id}:" |
| ScoringProperties.LeaderboardKeyApart | backend/app/services/scoring_service.py:221-224 | the leaderboard key is never a viewer's statistics key |
| ScoringProperties.ViewerKeysApart | backend/app/services/scoring_service.py:315-317 | a viewer's statistics, breakdown and comment keys are pairwise different |
| ScoringProperties.ViewerKeysInjective | backend/app/services/scoring_service.py:315-317 | different viewers get different keys of each kind |
| ScoringProperties.LikeIsScoreWrites | backend/app/services/scoring_service.py:277-294 | `process_like` with points is the generic score-write sequence instantiated with its keys and fields |
| ScoringProperties.GiftIsGiftWrites | backend/app/services/scoring_service.py:309-331 | `process_gift` is the generic gift-write sequence instantiated with its keys and fields |
| ScoringProperties.CommentIsCommentWrites | backend/app/services/scoring_service.py:343-360 | `process_comment` is the generic comment-write sequence instantiated with its keys and fields |
| ScoringProperties.LikeWithoutPointsIsIgnored | backend/app/services/scoring_service.py:277 | a like worth no points leaves the store as it was |
| ScoringProperties.LikeFrame | backend/app/services/scoring_service.py:277-294 | a like writes only the leaderboard and its viewer's statistics, and on the leaderboard only its own member |
| ScoringProperties.LikeRaisesScore | backend/app/services/scoring_service.py:284 | a like with points raises its member by exactly the like's points and keeps every other member's score |
| ScoringProperties.LikeChangesExactly | backend/app/services/scoring_service.py:287-294 | the counters and like points grow by exactly the like's amounts; nickname and avatar (if given) are set |
| ScoringProperties.LikeTouchesOnlyItsFields | backend/app/services/scoring_service.py:287-294 | the statistics gain only the like's fields and keep every other field's value |
| ScoringProperties.LikeRecordsPoints | backend/app/services/scoring_service.py:284-293 | score and like points grow by the same amount; gift points stay |
| ScoringProperties.GiftFrame | backend/app/services/scoring_service.py:309-331 | a gift writes only its member, its viewer's statistics and its viewer's breakdown |
| ScoringProperties.GiftRaisesScore | backend/app/services/scoring_service.py:309-319 | a gift raises its member by coin × multiplier × quantity and keeps every other member's score |
| ScoringProperties.GiftChangesExactly | backend/app/services/scoring_service.py:321-327 | coins, gifts sent and gift points grow by exactly the gift's amounts; nickname and avatar (if given) are set |
| ScoringProperties.GiftTouchesOnlyItsFields | backend/app/services/scoring_service.py:321-327 | the statistics gain only the gift's fields and keep every other field's value |
| ScoringProperties.GiftCountsInBreakdown | backend/app/services/scoring_service.py:329-330 | the breakdown field "{id}\|{name}" grows by the quantity; no other breakdown field changes |
| ScoringProperties.GiftRecordsPoints | backend/app/services/scoring_service.py:319-327 | score and gift points grow by the same amount; like points stay |
| ScoringProperties.CommentFrame | backend/app/services/scoring_service.py:343-360 | a comment writes only its viewer's statistics and comment list |
| ScoringProperties.CommentAppends | backend/app/services/scoring_service.py:356 | the text goes to the end of the viewer's list |
| ScoringProperties.CommentChangesExactly | backend/app/services/scoring_service.py:347-360 | one more comment; nickname and avatar written only when non-empty; no other field added |
| ScoringProperties.CommentKeepsPoints | backend/app/services/scoring_service.py:333-360 | a comment leaves the leaderboard and both point fields alone |
| ScoringProperties.PointsAddUpAfterRaise | backend/app/services/scoring_service.py:284-327 | raising a score and one point field by the same amount keeps score = like points + gift points |
| ScoringProperties.PointsAddUpUntouched | backend/app/services/scoring_service.py:253-360 | writes elsewhere keep that sum |
| ScoringProperties.LikeKeepsScoreMatch | backend/app/services/scoring_service.py:253-294 | a compatible like keeps a viewer's score equal to their like points plus gift points |
| ScoringProperties.GiftKeepsScoreMatch | backend/app/services/scoring_service.py:296-331 | a compatible gift keeps that agreement |
| ScoringProperties.CommentKeepsScoreMatch | backend/app/services/scoring_service.py:333-360 | a comment keeps that agreement |
| ScoringProperties.CallKeepsScoreMatch | backend/app/services/scoring_service.py:253-360 | any compatible call keeps that agreement |
| ScoringProperties.ScoreMatchesStatsThroughout | backend/app/services/scoring_service.py:253-360 | through any sequence of compatible calls, the score stays like points + gift points |
| ScoringProperties.ClearedSessionScoreMatches | backend/app/game_manager.py:27-31 | in a session with no keys the agreement holds for everyone |
| ScoringProperties.SecondNicknameBreaksScoreMatch | backend/app/services/scoring_service.py:280-293 | likes under a second nickname go to a second member while the statistics are shared, so the first member falls short |
| ScoringProperties.NicknameChangeBreaksScoreMatch | backend/app/services/scoring_service.py:280-293 | in a fresh session, ten likes under each of two nicknames break the agreement |
| ScoringProperties.SplittableAfterOneMember | backend/app/services/scoring_service.py:280-284 | adding one splittable member keeps all members splittable |
| ScoringProperties.CallKeepsMembersSplittable | backend/app/services/scoring_service.py:249-251 | every call keeps each leaderboard member holding a "\|", so the top-five read never fails on members the service wrote |
| ScoringProperties.CommentTexts | backend/app/services/scoring_service.py:356 | the texts of one viewer's comments, in call order |
| ScoringProperties.CommentsReadBackInOrder | backend/app/services/scoring_service.py:356 | the list read back is the old list followed by that viewer's comment texts in arrival order |
| ScoringProperties.CallAppendsOwnComment | backend/app/services/scoring_service.py:356 | a call appends to a viewer's list exactly when it is a comment of theirs |
| ScoringProperties.LikeKeepsComments | backend/app/services/scoring_service.py:253-294 | a like leaves every comment list alone |
| ScoringProperties.GiftKeepsComments | backend/app/services/scoring_service.py:296-331 | a gift leaves every comment list alone |
| Redis.RevRangeUnique | backend/app/services/scoring_service.py:370 | ZREVRANGE has exactly one correct answer |
| ScoringProperties.BreakdownOfUniqueName | backend/app/services/scoring_service.py:419-425 | when one field carries a gift name, the breakdown under that name has that field's id and count |
| Game.GameManager.constructor | backend/app/game_manager.py:8-19 | session "default", a scoring service on the manager's store, disconnected, not scoring, no adapter task |
| Game.GameManager.SetSession | backend/app/game_manager.py:21-33 | the new session and a fresh service; with reset, exactly the keys under "session:{id}:" are deleted; flags kept |
| Game.GameManager.StartStream | backend/app/game_manager.py:35-52 | corrected: "already connected" changes nothing; otherwise both flags on, and the replay task started in "mock" mode |
| Game.GameManager.StartStreamAsWritten | backend/app/game_manager.py:35-52 | as written: "already connected" changes nothing; otherwise both flags on; in "mock" mode the call fails and no replay task exists, so every later start reports "already connected" until the stream is stopped |
| Game.GameManager.StopStream | backend/app/game_manager.py:54-66 | the task is cancelled and both flags are off |
| Game.GameManager.ToggleScoring | backend/app/game_manager.py:68-73 | the flag is set and reported |
| Game.GameManager.GetLeaderboard | backend/app/game_manager.py:75-76 | the current session's top five in ZREVRANGE order, each entry with its truncated score, nickname, avatar and counters read from the store; scores do not increase down the list; fails exactly when one of the five has no "\|" |
| Game.GameManager.SelectWinner | backend/app/game_manager.py:78-110 | scoring stops; an empty board gives none and no change; a non-empty board whose top five all hold a "\|" always gives a winner; the call fails, changing nothing, exactly when one of the top five has no "\|"; the winner is the top member, taken off the board (only it), split into id and nickname, and reported with its truncated score, statistics, comments and breakdown as they were before the removal |
| Game.RevRangeHeadIsTop | backend/app/game_manager.py:89-93 | the first entry of the top five outranks every other member |
| Game.RevRangeEmptyOnlyIfNoMembers | backend/app/game_manager.py:89-91 | an empty top five means an empty leaderboard |
| Game.TopHasHighestScore | backend/app/game_manager.py:93 | the winner's score is the highest |
| Game.TopIsUnique | backend/app/game_manager.py:93 | only one member can be top |
| Game.RunnerUpMovesToTop | backend/app/game_manager.py:100-101 | after the winner's removal the runner-up is top |
| Game.ResetClearsSession | backend/app/game_manager.py:27-31 | after a reset no key of the session remains |
| Game.ResetKeepsOtherKeys | backend/app/game_manager.py:27-31 | every key outside the prefix keeps its value |
| Game.ResetRestoresScoreMatch | backend/app/game_manager.py:27-31 | after a reset every viewer's score matches their statistics |
| Game.ResetReachesNestedSession | backend/app/game_manager.py:29 | resetting session "a" also deletes the leaderboard of session "a:b" |
| Data.UserUpserted | backend/app/services/data_service.py:11-39 | a new viewer is created as given; an existing one gets the new nickname, the avatar only when a non-empty one is given, and a new update time only when something changed; nothing else changes |
| Data.UserUpsertIdempotent | backend/app/services/data_service.py:20-29 | repeating an upsert changes nothing |
| Data.DataService.UpsertUser | backend/app/services/data_service.py:11-39 | the users table becomes `UserUpserted` of the old one |
| Data.GiftUpserted | backend/app/services/data_service.py:41-66 | a new gift is created as given; an existing gift keeps its name and coin value and takes the image only while it has none |
| Data.FirstImageWins | backend/app/services/data_service.py:41-66 | once a gift has an image, later upserts change nothing |
| Data.DataService.UpsertGift | backend/app/services/data_service.py:41-66 | the gifts table becomes `GiftUpserted` of the old one |
| Data.DataService.SaveComment | backend/app/services/data_service.py:68-78 | one unused comment is appended under a fresh id; ids stay increasing |
| Data.UnusedFor | backend/app/services/data_service.py:80-89 | a comment is listed exactly when it is the viewer's, in the session, and unused |
| Data.InsertNewestFirst | backend/app/services/data_service.py:85-86 | inserting into a newest-first list keeps it newest first and adds exactly that comment |
| Data.DataService.GetUserComments | backend/app/services/data_service.py:80-89 | exactly the viewer's unused comments in the session, newest first |
| Data.MarkUsed | backend/app/services/data_service.py:91-103 | only the comment with that id becomes used; ids and length are kept |
| Data.DataService.MarkCommentAsUsed | backend/app/services/data_service.py:91-103 | the table becomes `MarkUsed` of the old one (a missing id changes nothing) |
| Data.MarkedCommentNotListed | backend/app/services/data_service.py:80-103 | a marked comment is never listed again |
| Data.MarkAbsentIsNoOp | backend/app/services/data_service.py:96-101 | marking an id no comment has changes nothing |
| Data.MarkRemovesFromListing | backend/app/services/data_service.py:80-103 | after marking, every listing is the old listing without that comment |
| Replay.Dispatch | backend/app/adapters/mock_adapter.py:53-144 | a line leads to a scoring call only when it is an event with a type and a payload, and then to a call of the event's own kind, from a non-empty id with an avatar: a comment with non-empty text, a like with a nickname and a positive count, a gift with a nickname and a positive coin value and quantity |
| Replay.LikeGuard | backend/app/adapters/mock_adapter.py:79-102 | a like goes through exactly when id and nickname are non-empty, the count (default 0) is positive and the avatar list is not empty; follower exactly when follow status (default 0) is 1 |
| Replay.GiftGuard | backend/app/adapters/mock_adapter.py:104-144 | a gift goes through exactly when id and nickname are non-empty, coin value (default 0) and quantity (default 1) are positive and the avatar list is not empty; missing id and name read "Unknown" and "Unknown Gift" |
| Replay.CommentGuard | backend/app/adapters/mock_adapter.py:59-77 | a comment goes through exactly when id and text are non-empty and the avatar list is not empty; no nickname needed |
| Replay.OtherLinesIgnored | backend/app/adapters/mock_adapter.py:44-59 | blank or malformed lines, events without payload and other types lead to no call |
| Replay.Requests | backend/app/adapters/mock_adapter.py:69-134 | every data-service call the replay makes exists; for likes and comments they are the calls as written |
| Replay.CommentRowSwapped | backend/app/adapters/mock_adapter.py:72-74 | the saved row carries the text as its session and the session as its content, so the session's listing does not show it; with the foreign key from `comments.session_id` to `sessions.id` (backend/app/models/comment.py:11) and no session rows created, the database would most likely reject the row instead, and the listing does not show it either way |
| Replay.Calls | backend/app/adapters/mock_adapter.py:41-144 | a pass makes at most one call per line |
| Replay.InactivePassIsNoOp | backend/app/adapters/mock_adapter.py:48-49 | with scoring off, a pass makes no call and changes no table |
| Replay.CallsAppend | backend/app/adapters/mock_adapter.py:39-41 | the calls of a recording are the calls of its parts, in order |
| Replay.ReplayKeepsScoreMatch | backend/app/adapters/mock_adapter.py:41-144 | a replay with no conflicting nickname keeps a viewer's score equal to their points |
| Replay.ReplayCommentsInOrder | backend/app/adapters/mock_adapter.py:59-77 | after a replay, a viewer's comment list ends with their comment texts in recording order |
| Replay.MockLiveAdapter.constructor | backend/app/adapters/mock_adapter.py:12-19 | scoring on, not running |
| Replay.MockLiveAdapter.SetScoring | backend/app/adapters/mock_adapter.py:21-22 | sets the scoring switch |
| Replay.MockLiveAdapter.Stop | backend/app/adapters/mock_adapter.py:24-26 | the adapter is no longer running |
| Replay.MockLiveAdapter.HandleLine | backend/app/adapters/mock_adapter.py:44-149 | a blank line, or any line while scoring is off, changes nothing; otherwise the data-service calls and then exactly the scoring call `Dispatch` selects; for a gift line this is the corrected path (catalogue upsert, then `process_gift`), where the code as written stops at the missing `save_gift` and scores nothing |
| Replay.MockLiveAdapter.ForwardComment | backend/app/adapters/mock_adapter.py:68-77 | viewer upsert, the comment row (arguments as written) and `process_comment` |
| Replay.MockLiveAdapter.ForwardLike | backend/app/adapters/mock_adapter.py:92-102 | viewer upsert and `process_like` |
| Replay.MockLiveAdapter.ForwardGift | backend/app/adapters/mock_adapter.py:118-144 | viewer upsert, catalogue upsert and `process_gift` |
| Replay.MockLiveAdapter.ReplayPass | backend/app/adapters/mock_adapter.py:32-45 | one pass applies to the store exactly the dispatched calls in order, and to the tables exactly their data-service calls; gift lines take the corrected path, so as written a pass applies these calls without its gifts (`Replay.GiftNeverScoredAsWritten`) |
| Replay.GiftNeverScoredAsWritten | backend/app/adapters/mock_adapter.py:127-144 | as written, a gift never reaches `process_gift` |
| Replay.GiftLineNotScored | backend/app/adapters/mock_adapter.py:104-144 | a concrete well-formed gift line passes the guards and is not scored |
| Replay.GiftLineScored | backend/app/adapters/mock_adapter.py:118-144 | with the catalogue upsert, a gift line that passes the guards raises the sender's member by the gift's points |

## Left out

- Redis transport, pipelines and atomicity. A pipeline is modelled as its commands in order, with no other client writing in between.
- Exceptions from Redis. WRONGTYPE and non-numeric increments leave the store unchanged instead of raising. The reads do not raise either: a key of another type reads as an empty sorted set, hash or list. So where ZREVRANGE, HGETALL or LRANGE raise WRONGTYPE in the code, `Scoring.ScoringService.GetTop5Leaderboard` answers `Ok([])`, `Game.GameManager.SelectWinner` answers `Ok(None)`, and `Scoring.ScoringService.GetUserStatsAndComments` reports empty statistics or comments. The keys of two sessions can meet in this way (`SessionKeysCollide`).
- Scoring.ScoringService.ProcessLike, Scoring.ScoringService.ProcessGift, Scoring.ScoringService.ProcessComment: a command Redis rejects changes nothing, and the rest of the call still runs. In the code the exception ends the call. A WRONGTYPE from the ZINCRBY (scoring_service.py:284, :319) skips the statistics pipeline. A failed comment pipeline (:345-350) skips the RPUSH (:356) and the HINCRBY (:360). A failed RPUSH skips the HINCRBY. The adapter's handler (mock_adapter.py:148-149) then drops the line. Only the other commands queued in the same MULTI/EXEC pipeline still run, as modelled. So the model matches the code exactly when the leaderboard key holds a sorted set or nothing, the statistics key a hash or nothing, and the comment key a list or nothing. That can fail: viewer "leaderboard" of session "a" has its statistics under the leaderboard key of session "a:user_data" (`SessionKeysCollide`).
- Redis.HIncrInt, Scoring.ScoringService.ProcessLike, Scoring.ScoringService.ProcessGift: counters are unbounded integers. Redis keeps HINCRBY fields as signed 64-bit integers and rejects an increment whose result leaves that range. The replay guards only ask for positive counts, and JSON integers are unbounded in Python. So a gift of 2^62 coins sent 4 times makes HINCRBY of `total_gift_coins` fail inside the pipeline: `pipe.execute()` raises after the other queued commands have run, and the handler drops the line. The model adds 2^64. Integer gift points are likewise exact here, while ZINCRBY and HINCRBYFLOAT store them as doubles.
- Scoring.ScoringService.ProcessLike: points are exact rationals. Python float division and HINCRBYFLOAT rounding are not modelled.
- Scoring.ScoringService.GetTop5Leaderboard: a counter field holding text reads as 0, where Python's `int()` would raise.
- Scoring.ScoringService.GetUserStatsAndComments: the breakdown is a map, so the Python dict's insertion order is not modelled.
- Redis.KeysWithPrefix, Game.GameManager.SetSession: the KEYS pattern is modelled as a plain prefix, so glob metacharacters (`*`, `?`, `[`) inside a session id are not interpreted. In the code, a reset of session "a*" runs `KEYS session:a*:*`, which also matches, and so deletes, the keys of every other session whose id starts with "a" (such as "ab"). In the model the reset deletes only keys that start with "session:a*:".
- Game.GameManager.StartStream: the asyncio task is a flag (`adapterRunning`). Creating the adapter and awaiting the cancelled task are not modelled. The method is the corrected half of the finding below; `StartStreamAsWritten` is the code as written.
  - backend/run_mock.py has the same constructor mismatch and is not part of this model.
- Data service sessions, commits, rollbacks, foreign keys and the `print` on error. Every database call is modelled as succeeding.
- Data.DataService.GetUserComments: among comments with the same timestamp, the database's order is unspecified; the model promises only newest first and exactly the right comments.
- Replay.MockLiveAdapter.HandleLine, Replay.MockLiveAdapter.ReplayPass: gift lines follow the corrected path of the finding below (catalogue upsert, then `process_gift`). As written, a gift line raises at the missing `save_gift` after the viewer upsert, and the store does not change.
- Replay.MockLiveAdapter.ReplayPass: one pass over the lines is modelled.
  - The endless restart loop, the sleeps, file opening and JSON parsing are not modelled.
  - Stopping from another task mid-pass (`is_running` checked per line) needs concurrency and is not modelled.
  - Non-string ids, names and texts, and non-integer counts, are not modelled. A JSON `null` in a field with a default is treated as the key being absent.
- The live platform adapter, the HTTP API, the logging service, the frontend and all printing are not part of this model.

## Findings

| source | as written | input that shows it | evidently intended | confidence | as-written member | corrected member |
|---|---|---|---|---|---|---|
| backend/app/adapters/mock_adapter.py:127-144 | the gift branch awaits `data_service.save_gift(...)`, which `DataService` does not define; the AttributeError is caught by the per-line handler, so `process_gift` is never reached and replayed gifts never score | a "gift" line from user "u1" ("Ann"), mGift diamondCount 1, id "5655", name "Rose", repeatCount 1 | the gift is scored, and recorded in the gift catalogue as the live adapter does with `upsert_gift` | high for the repository's `DataService`; not executed | Replay.GiftNeverScoredAsWritten, Replay.GiftLineNotScored | Replay.GiftLineScored, Replay.MockLiveAdapter.ForwardGift |
| backend/app/game_manager.py:43-47 | in "mock" mode `start_stream` builds `MockLiveAdapter(self.scoring_service, "mock_data.jsonl")`, but the constructor takes a scoring service, a data service and a file path (backend/app/adapters/mock_adapter.py:12-14); the TypeError comes after both flags are set, so no replay task starts and every later start reports "already connected" until the stream is stopped | `start_stream("any", "mock")` on a fresh manager | the replay task is started and the call reports "started" | high; not executed | Game.GameManager.StartStreamAsWritten | Game.GameManager.StartStream |
