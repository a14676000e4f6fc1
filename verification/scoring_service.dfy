/** The scoring and leaderboard engine of one live session: viewer likes and
    gifts become points added to a sorted-set leaderboard keyed by
    "{user_id}|{nickname}", next to per-viewer running statistics, a per-viewer
    gift breakdown and a per-viewer comment list, all kept in Redis. */
module Scoring {
  import opened Wrappers
  import opened Strings
  import opened Redis

  // ---------------------------------------------------------------------
  // Point formulas

  /** The multiplier a gift's unit coin value earns, by band: 5 up to 4
      coins, 30 above 999, and in between. */
  function GiftMultiplier(coinValue: int): (m: int)
    ensures 5 <= m <= 30
    ensures m == 5 <==> coinValue <= 4
    ensures m == 30 <==> coinValue > 999
  {
    if coinValue <= 4 then 5
    else if coinValue <= 9 then 6
    else if coinValue <= 19 then 7
    else if coinValue <= 49 then 8
    else if coinValue <= 99 then 10
    else if coinValue <= 299 then 15
    else if coinValue <= 999 then 20
    else 30
  }

  /** Points for a batch of likes: one point per 10 likes from a follower,
      per 15 likes from anyone else (Python true division). */
  function LikePoints(likeCount: int, isFollower: bool): (p: real)
    ensures p > 0.0 <==> likeCount > 0
    ensures likeCount >= 0 ==> likeCount as real / 15.0 <= p <= likeCount as real / 10.0
  {
    if isFollower then likeCount as real / 10.0 else likeCount as real / 15.0
  }

  function GiftPoints(coinValue: int, quantity: int): int {
    coinValue * GiftMultiplier(coinValue) * quantity
  }

  /** The statistics field that counts likes of this kind. */
  function LikeTypeField(isFollower: bool): string {
    if isFollower then "likes_as_follower" else "likes_as_non_follower"
  }

  // ---------------------------------------------------------------------
  // Key layout

  /** The leaderboard member of a viewer: the id, a "|", the nickname. */
  function UserKey(userId: string, nickname: string): (k: string)
    ensures '|' in k && |k| == |userId| + 1 + |nickname|
    ensures k[..|userId|] == userId && k[|userId|] == '|' && k[|userId| + 1..] == nickname
  {
    var k := userId + "|" + nickname;
    assert k[|userId|] == '|';
    k
  }

  /** The field of the per-viewer gift breakdown that counts one gift. */
  function GiftField(giftId: string, giftName: string): string {
    giftId + "|" + giftName
  }

  function SessionPrefix(sessionId: string): string { "session:" + sessionId + ":" }
  function LeaderboardKey(sessionId: string): string { "session:" + sessionId + ":leaderboard" }
  function UserDataPrefix(sessionId: string): string { "session:" + sessionId + ":user_data" }
  function CommentsPrefix(sessionId: string): string { "session:" + sessionId + ":comments" }
  function UserDataKey(sessionId: string, userId: string): string { UserDataPrefix(sessionId) + ":" + userId }
  function CommentsKey(sessionId: string, userId: string): string { CommentsPrefix(sessionId) + ":" + userId }
  function UserGiftsKey(sessionId: string, userId: string): string {
    "session:" + sessionId + ":user_gifts:" + userId
  }

  // ---------------------------------------------------------------------
  // What each call does to the keyspace, command by command in the order the
  // service sends them (a pipeline is applied as its commands in order).

  function LikeEffect(d: Keyspace, s: string, userId: string, nickname: string, likeCount: int,
                      isFollower: bool, avatarUrl: Option<string>): Keyspace
  {
    var points := LikePoints(likeCount, isFollower);
    if points <= 0.0 then d
    else
      var h := UserDataKey(s, userId);
      var d1 := ZIncr(d, LeaderboardKey(s), UserKey(userId, nickname), points);
      var d2 := HSetText(d1, h, "nickname", nickname);
      var d3 := if Truthy(avatarUrl) then HSetText(d2, h, "avatar_url", avatarUrl.value) else d2;
      var d4 := HIncrInt(d3, h, "total_likes", likeCount);
      var d5 := HIncrInt(d4, h, LikeTypeField(isFollower), likeCount);
      HIncrFloat(d5, h, "points_from_likes", points)
  }

  function GiftEffect(d: Keyspace, s: string, userId: string, nickname: string, coinValue: int,
                      giftId: string, giftName: string, quantity: int, avatarUrl: Option<string>): Keyspace
  {
    var points := GiftPoints(coinValue, quantity);
    var h := UserDataKey(s, userId);
    var d1 := ZIncr(d, LeaderboardKey(s), UserKey(userId, nickname), points as real);
    var d2 := HSetText(d1, h, "nickname", nickname);
    var d3 := if Truthy(avatarUrl) then HSetText(d2, h, "avatar_url", avatarUrl.value) else d2;
    var d4 := HIncrInt(d3, h, "total_gift_coins", coinValue * quantity);
    var d5 := HIncrInt(d4, h, "total_gifts_sent", quantity);
    var d6 := HIncrFloat(d5, h, "points_from_gifts", points as real);
    HIncrInt(d6, UserGiftsKey(s, userId), GiftField(giftId, giftName), quantity)
  }

  function CommentEffect(d: Keyspace, s: string, userId: string, text: string,
                         nickname: Option<string>, avatarUrl: Option<string>): Keyspace
  {
    var h := UserDataKey(s, userId);
    var d1 := if Truthy(nickname) then HSetText(d, h, "nickname", nickname.value) else d;
    var d2 := if Truthy(avatarUrl) then HSetText(d1, h, "avatar_url", avatarUrl.value) else d1;
    var d3 := RPush(d2, CommentsKey(s, userId), text);
    HIncrInt(d3, h, "total_comments", 1)
  }

  /** One call of `process_like`, `process_gift` or `process_comment`. */
  datatype Call =
    | Like(userId: string, nickname: string, likeCount: int, isFollower: bool, avatarUrl: Option<string>)
    | Gift(userId: string, nickname: string, coinValue: int, giftId: string, giftName: string,
           quantity: int, avatarUrl: Option<string>)
    | Comment(userId: string, text: string, givenNickname: Option<string>, avatarUrl: Option<string>)

  function CallEffect(d: Keyspace, s: string, c: Call): Keyspace {
    match c
    case Like(u, n, count, f, a) => LikeEffect(d, s, u, n, count, f, a)
    case Gift(u, n, coin, gid, gname, q, a) => GiftEffect(d, s, u, n, coin, gid, gname, q, a)
    case Comment(u, t, n, a) => CommentEffect(d, s, u, t, n, a)
  }

  /** The keyspace after a sequence of calls, applied in order. */
  function CallsEffect(d: Keyspace, s: string, calls: seq<Call>): Keyspace {
    if calls == [] then d else CallEffect(CallsEffect(d, s, calls[..|calls| - 1]), s, calls[|calls| - 1])
  }

  // ---------------------------------------------------------------------
  // Reads

  /** Python's `int(x)` on a float: truncation toward zero. */
  function Trunc(x: real): int {
    if x >= 0.0 then x.Floor else -((-x).Floor)
  }

  /** `stats.get(field, default)` for a text field. */
  function TextOr(stats: map<string, Field>, field: string, default: string): string {
    if field in stats && stats[field].Text? then stats[field].text else default
  }

  datatype LeaderEntry = LeaderEntry(
    userKey: string, userId: string, nickname: string, score: int,
    avatarUrl: string, comments: int, likes: int, gifts: int)

  function UserKeys(es: seq<LeaderEntry>): (ks: seq<string>)
    ensures |ks| == |es| && forall i :: 0 <= i < |es| ==> ks[i] == es[i].userKey
  {
    seq(|es|, i requires 0 <= i < |es| => es[i].userKey)
  }

  /** The entry the top-5 read builds for a leaderboard member whose key
      contains a "|": id and nickname split from the key, the stored nickname
      preferred, counters read with 0 for a missing field. */
  function EntryFor(d: Keyspace, s: string, userKey: string): (e: LeaderEntry)
    requires '|' in userKey
    ensures e.userKey == userKey && '|' !in e.userId
    ensures |e.userId| < |userKey| && userKey[..|e.userId|] == e.userId && userKey[|e.userId|] == '|'
    ensures "nickname" !in HFields(d, UserDataKey(s, e.userId)) ==> e.nickname == userKey[|e.userId| + 1..]
    ensures e.score == Trunc(Score(d, LeaderboardKey(s), userKey))
  {
    var parts := SplitOnce(userKey, '|');
    assert userKey == parts[0] + ['|'] + parts[1];
    assert userKey[..|parts[0]|] == parts[0] && userKey[|parts[0]| + 1..] == parts[1];
    var stats := HFields(d, UserDataKey(s, parts[0]));
    LeaderEntry(userKey, parts[0], TextOr(stats, "nickname", parts[1]), Trunc(Score(d, LeaderboardKey(s), userKey)),
                TextOr(stats, "avatar_url", ""), IntValue(stats, "total_comments"),
                IntValue(stats, "total_likes"), IntValue(stats, "total_gifts_sent"))
  }

  /** What one gift field of the breakdown contributes: its id and its name,
      "Unknown Gift" when the field holds no "|". */
  function GiftIdOf(field: string): string {
    SplitOnce(field, '|')[0]
  }

  function GiftNameOf(field: string): string {
    var parts := SplitOnce(field, '|');
    if |parts| > 1 then parts[1] else "Unknown Gift"
  }

  datatype GiftCount = GiftCount(id: string, count: int)

  datatype UserDetail = UserDetail(
    stats: map<string, Field>, comments: seq<string>, giftsBreakdown: map<string, GiftCount>)

  /** `breakdown` is the gift breakdown built from the hash `gifts`: one entry
      per gift name, each taken from some field that carries that name (when
      two fields share a name, the one iterated last wins; Redis fixes that
      order, the model does not). */
  ghost predicate IsBreakdown(gifts: map<string, Field>, breakdown: map<string, GiftCount>) {
    && (forall k :: k in gifts ==> GiftNameOf(k) in breakdown)
    && (forall n :: n in breakdown ==>
          exists k :: k in gifts && GiftNameOf(k) == n && breakdown[n] == GiftCount(GiftIdOf(k), IntValue(gifts, k)))
  }

  class ScoringService {
    const r: RedisStore
    const sessionId: string
    const leaderboardKey: string
    const userDataKeyPrefix: string
    const userCommentsKeyPrefix: string

    /** The derived key names match the session id. */
    predicate Valid() {
      && leaderboardKey == LeaderboardKey(sessionId)
      && userDataKeyPrefix == UserDataPrefix(sessionId)
      && userCommentsKeyPrefix == CommentsPrefix(sessionId)
    }

    constructor (redisClient: RedisStore, sessionId: string)
      ensures Valid() && r == redisClient && this.sessionId == sessionId
    {
      r := redisClient;
      this.sessionId := sessionId;
      leaderboardKey := LeaderboardKey(sessionId);
      userDataKeyPrefix := UserDataPrefix(sessionId);
      userCommentsKeyPrefix := CommentsPrefix(sessionId);
    }

    method ProcessLike(userId: string, userNickname: string, likeCount: int, isFollower: bool,
                       avatarUrl: Option<string>)
      requires Valid()
      modifies r
      ensures r.data == LikeEffect(old(r.data), sessionId, userId, userNickname, likeCount, isFollower, avatarUrl)
    {
      var points: real;
      var likeTypeKey: string;
      if isFollower {
        points := likeCount as real / 10.0;
        likeTypeKey := "likes_as_follower";
      } else {
        points := likeCount as real / 15.0;
        likeTypeKey := "likes_as_non_follower";
      }
      assert points == LikePoints(likeCount, isFollower) && likeTypeKey == LikeTypeField(isFollower);
      if points > 0.0 {
        var userKey := UserKey(userId, userNickname);
        var userHashKey := userDataKeyPrefix + ":" + userId;
        r.ZIncrBy(leaderboardKey, points, userKey);
        r.HSet(userHashKey, "nickname", userNickname);
        if Truthy(avatarUrl) {
          r.HSet(userHashKey, "avatar_url", avatarUrl.value);
        }
        r.HIncrBy(userHashKey, "total_likes", likeCount);
        r.HIncrBy(userHashKey, likeTypeKey, likeCount);
        r.HIncrByFloat(userHashKey, "points_from_likes", points);
      }
    }

    method ProcessGift(userId: string, userNickname: string, coinValuePerUnit: int, giftId: string,
                       giftName: string, giftQuantity: int, avatarUrl: Option<string>)
      requires Valid()
      modifies r
      ensures r.data == GiftEffect(old(r.data), sessionId, userId, userNickname, coinValuePerUnit,
                                   giftId, giftName, giftQuantity, avatarUrl)
    {
      var multiplier := GiftMultiplier(coinValuePerUnit);
      var points := (coinValuePerUnit * multiplier) * giftQuantity;
      var totalCoinValue := coinValuePerUnit * giftQuantity;
      var userKey := UserKey(userId, userNickname);
      var userSummaryHashKey := userDataKeyPrefix + ":" + userId;
      var userGiftsHashKey := "session:" + sessionId + ":user_gifts:" + userId;
      r.ZIncrBy(leaderboardKey, points as real, userKey);
      r.HSet(userSummaryHashKey, "nickname", userNickname);
      if Truthy(avatarUrl) {
        r.HSet(userSummaryHashKey, "avatar_url", avatarUrl.value);
      }
      r.HIncrBy(userSummaryHashKey, "total_gift_coins", totalCoinValue);
      r.HIncrBy(userSummaryHashKey, "total_gifts_sent", giftQuantity);
      r.HIncrByFloat(userSummaryHashKey, "points_from_gifts", points as real);
      r.HIncrBy(userGiftsHashKey, GiftField(giftId, giftName), giftQuantity);
    }

    method ProcessComment(userId: string, commentText: string, userNickname: Option<string>,
                          avatarUrl: Option<string>)
      requires Valid()
      modifies r
      ensures r.data == CommentEffect(old(r.data), sessionId, userId, commentText, userNickname, avatarUrl)
    {
      var commentKey := userCommentsKeyPrefix + ":" + userId;
      var userHashKey := userDataKeyPrefix + ":" + userId;
      if Truthy(userNickname) || Truthy(avatarUrl) {
        if Truthy(userNickname) {
          r.HSet(userHashKey, "nickname", userNickname.value);
        }
        if Truthy(avatarUrl) {
          r.HSet(userHashKey, "avatar_url", avatarUrl.value);
        }
      }
      r.RPushItem(commentKey, commentText);
      r.HIncrBy(userHashKey, "total_comments", 1);
    }

    /** The five best-ranked members with their statistics. Fails (Python's
        unpacking error) exactly when one of those five has no "|" in its key. */
    method GetTop5Leaderboard() returns (res: Result<seq<LeaderEntry>>)
      requires Valid()
      ensures res.Ok? ==> IsRevRange(ZScores(r.data, leaderboardKey), 5, UserKeys(res.value))
      ensures res.Ok? ==> forall i :: 0 <= i < |res.value| ==>
        '|' in res.value[i].userKey && res.value[i] == EntryFor(r.data, sessionId, res.value[i].userKey)
      ensures res.Ok? ==> forall i, j :: 0 <= i < j < |res.value| ==> res.value[i].score >= res.value[j].score
      ensures (forall k :: k in ZScores(r.data, leaderboardKey) ==> '|' in k) ==> res.Ok?
      ensures res.Err? ==> exists k :: k in ZScores(r.data, leaderboardKey) && '|' !in k
      ensures forall top :: IsRevRange(ZScores(r.data, leaderboardKey), 5, top) ==>
        (res.Err? <==> exists k :: k in top && '|' !in k)
    {
      var top5 := r.ZRevRangeWithScores(leaderboardKey, 5);
      ghost var z := ZScores(r.data, leaderboardKey);
      var result: seq<LeaderEntry> := [];
      var i := 0;
      while i < |top5|
        invariant 0 <= i <= |top5|
        invariant |result| == i
        invariant forall j :: 0 <= j < i ==>
          result[j].userKey == top5[j].0 && '|' in top5[j].0 && result[j] == EntryFor(r.data, sessionId, top5[j].0)
      {
        var userKey := top5[i].0;
        var score := Trunc(top5[i].1);
        var parts := SplitOnce(userKey, '|');
        if |parts| < 2 {
          RevRangeUnsplittable(z, 5, Members(top5), i);
          return Err("not enough values to unpack");
        }
        var userId, nickname := parts[0], parts[1];
        var stats := r.HGetAll(userDataKeyPrefix + ":" + userId);
        result := result + [LeaderEntry(userKey, userId, TextOr(stats, "nickname", nickname), score,
                                        TextOr(stats, "avatar_url", ""), IntValue(stats, "total_comments"),
                                        IntValue(stats, "total_likes"), IntValue(stats, "total_gifts_sent"))];
        i := i + 1;
      }
      assert UserKeys(result) == Members(top5);
      EntriesByScore(z, 5, result);
      RevRangeSplittable(z, 5, UserKeys(result));
      return Ok(result);
    }

    /** A viewer's raw statistics, comments in insertion order and gift
        breakdown by gift name. */
    method GetUserStatsAndComments(userId: string) returns (detail: UserDetail)
      requires Valid()
      ensures detail.stats == HFields(r.data, UserDataKey(sessionId, userId))
      ensures detail.comments == LItems(r.data, CommentsKey(sessionId, userId))
      ensures IsBreakdown(HFields(r.data, UserGiftsKey(sessionId, userId)), detail.giftsBreakdown)
    {
      var stats := r.HGetAll(userDataKeyPrefix + ":" + userId);
      var comments := r.LRangeAll(userCommentsKeyPrefix + ":" + userId);
      var giftsRaw := r.HGetAll("session:" + sessionId + ":user_gifts:" + userId);
      var giftsBreakdown: map<string, GiftCount> := map[];
      var todo := giftsRaw.Keys;
      while todo != {}
        invariant todo <= giftsRaw.Keys
        invariant forall k :: k in giftsRaw && k !in todo ==> GiftNameOf(k) in giftsBreakdown
        invariant forall n :: n in giftsBreakdown ==>
          exists k :: k in giftsRaw && GiftNameOf(k) == n && giftsBreakdown[n] == GiftCount(GiftIdOf(k), IntValue(giftsRaw, k))
        decreases |todo|
      {
        var k :| k in todo;
        giftsBreakdown := giftsBreakdown[GiftNameOf(k) := GiftCount(GiftIdOf(k), IntValue(giftsRaw, k))];
        todo := todo - {k};
      }
      detail := UserDetail(stats, comments, giftsBreakdown);
    }
  }

  lemma TruncMonotone(x: real, y: real)
    requires x <= y
    ensures Trunc(x) <= Trunc(y)
  {
  }

  /** Entries listed in leaderboard order carry non-increasing truncated scores. */
  lemma EntriesByScore(z: map<string, real>, count: nat, entries: seq<LeaderEntry>)
    requires IsRevRange(z, count, UserKeys(entries))
    requires forall i :: 0 <= i < |entries| ==> entries[i].userKey in z && entries[i].score == Trunc(z[entries[i].userKey])
    ensures forall i, j :: 0 <= i < j < |entries| ==> entries[i].score >= entries[j].score
  {
    var ks := UserKeys(entries);
    forall i, j | 0 <= i < j < |entries|
      ensures entries[i].score >= entries[j].score
    {
      assert Outranks(z, ks[i], ks[j]);
      TruncMonotone(z[ks[j]], z[ks[i]]);
    }
  }

  /** A member without "|" in a ZREVRANGE answer is in the sorted set, and,
      the answer being unique, every answer holds such a member. */
  lemma RevRangeUnsplittable(z: map<string, real>, count: nat, ms: seq<string>, i: int)
    requires IsRevRange(z, count, ms) && 0 <= i < |ms| && '|' !in ms[i]
    ensures ms[i] in z
    ensures forall top :: IsRevRange(z, count, top) ==> exists k :: k in top && '|' !in k
  {
    forall top | IsRevRange(z, count, top)
      ensures exists k :: k in top && '|' !in k
    {
      RevRangeUnique(z, count, top, ms);
      assert top[i] == ms[i];
    }
  }

  /** When every member of a ZREVRANGE answer has a "|", so does every
      member of every answer. */
  lemma RevRangeSplittable(z: map<string, real>, count: nat, ms: seq<string>)
    requires IsRevRange(z, count, ms) && forall i :: 0 <= i < |ms| ==> '|' in ms[i]
    ensures forall top :: IsRevRange(z, count, top) ==> forall k :: k in top ==> '|' in k
  {
    forall top | IsRevRange(z, count, top)
      ensures forall k :: k in top ==> '|' in k
    {
      RevRangeUnique(z, count, top, ms);
    }
  }
}
