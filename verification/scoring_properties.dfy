/** What the scoring engine promises: the multiplier bands, the key layout and
    its round trips, the exact change each call makes to the store, and the
    agreement between a viewer's leaderboard score and the points recorded in
    their statistics. */
module ScoringProperties {
  import opened Wrappers
  import opened Strings
  import opened Redis
  import opened CommandSequences
  import opened Scoring

  // ---------------------------------------------------------------------
  // Multiplier bands

  /** The band table: inclusive upper coin bound and multiplier, in order;
      a value above every bound earns `TopMultiplier`. */
  const Bands: seq<(int, int)> := [(4, 5), (9, 6), (19, 7), (49, 8), (99, 10), (299, 15), (999, 20)]
  const TopMultiplier: int := 30

  /** The multiplier of the first band whose bound covers `coinValue`. */
  function BandLookup(bands: seq<(int, int)>, coinValue: int): int {
    if bands == [] then TopMultiplier
    else if coinValue <= bands[0].0 then bands[0].1
    else BandLookup(bands[1..], coinValue)
  }

  /** Bounds strictly increase and multipliers never decrease, up to the top one. */
  ghost predicate Ascending(bands: seq<(int, int)>) {
    && (forall i, j :: 0 <= i < j < |bands| ==> bands[i].0 < bands[j].0 && bands[i].1 <= bands[j].1)
    && (forall i :: 0 <= i < |bands| ==> bands[i].1 <= TopMultiplier)
  }

  lemma {:induction false} BandLookupBounded(bands: seq<(int, int)>, coinValue: int)
    requires Ascending(bands) && bands != []
    ensures bands[0].1 <= BandLookup(bands, coinValue) <= TopMultiplier
  {
    if coinValue > bands[0].0 && |bands| > 1 {
      BandLookupBounded(bands[1..], coinValue);
    }
  }

  /** A lookup in an ascending table is monotone in the coin value. */
  lemma {:induction false} BandLookupMonotone(bands: seq<(int, int)>, a: int, b: int)
    requires Ascending(bands) && a <= b
    ensures BandLookup(bands, a) <= BandLookup(bands, b)
  {
    if bands != [] {
      if a <= bands[0].0 {
        if b > bands[0].0 && |bands| > 1 {
          BandLookupBounded(bands[1..], b);
        }
      } else {
        BandLookupMonotone(bands[1..], a, b);
      }
    }
  }

  /** The service's chain of comparisons is the band table. */
  lemma GiftMultiplierIsBandLookup(coinValue: int)
    ensures GiftMultiplier(coinValue) == BandLookup(Bands, coinValue)
  {
    var b1 := [(9, 6), (19, 7), (49, 8), (99, 10), (299, 15), (999, 20)];
    var b2 := [(19, 7), (49, 8), (99, 10), (299, 15), (999, 20)];
    var b3 := [(49, 8), (99, 10), (299, 15), (999, 20)];
    var b4 := [(99, 10), (299, 15), (999, 20)];
    var b5 := [(299, 15), (999, 20)];
    var b6 := [(999, 20)];
    assert Bands[1..] == b1 && b1[1..] == b2 && b2[1..] == b3 && b3[1..] == b4;
    assert b4[1..] == b5 && b5[1..] == b6 && b6[1..] == [];
    assert BandLookup(b6, coinValue) == if coinValue <= 999 then 20 else 30;
    assert BandLookup(b5, coinValue) == if coinValue <= 299 then 15 else BandLookup(b6, coinValue);
    assert BandLookup(b4, coinValue) == if coinValue <= 99 then 10 else BandLookup(b5, coinValue);
    assert BandLookup(b3, coinValue) == if coinValue <= 49 then 8 else BandLookup(b4, coinValue);
    assert BandLookup(b2, coinValue) == if coinValue <= 19 then 7 else BandLookup(b3, coinValue);
    assert BandLookup(b1, coinValue) == if coinValue <= 9 then 6 else BandLookup(b2, coinValue);
  }

  lemma BandsAscending()
    ensures Ascending(Bands)
  {
  }

  /** More coins per unit never earn a smaller multiplier. */
  lemma GiftMultiplierMonotone(a: int, b: int)
    requires a <= b
    ensures GiftMultiplier(a) <= GiftMultiplier(b)
  {
    GiftMultiplierIsBandLookup(a);
    GiftMultiplierIsBandLookup(b);
    BandsAscending();
    BandLookupMonotone(Bands, a, b);
  }

  /** The band boundaries, and a gift of 5 units worth 10 coins each. */
  lemma GiftMultiplierBoundaries()
    ensures GiftMultiplier(4) == 5 && GiftMultiplier(5) == 6 && GiftMultiplier(9) == 6
    ensures GiftMultiplier(10) == 7 && GiftMultiplier(19) == 7 && GiftMultiplier(20) == 8
    ensures GiftMultiplier(49) == 8 && GiftMultiplier(50) == 10 && GiftMultiplier(99) == 10
    ensures GiftMultiplier(100) == 15 && GiftMultiplier(299) == 15 && GiftMultiplier(300) == 20
    ensures GiftMultiplier(999) == 20 && GiftMultiplier(1000) == 30
    ensures GiftPoints(10, 5) == 350
  {
  }

  /** Likes score exactly when there is at least one; 150 likes from a
      follower are 15 points, from anyone else 10. */
  lemma LikePointsPositive(likeCount: int, isFollower: bool)
    ensures LikePoints(likeCount, isFollower) > 0.0 <==> likeCount > 0
    ensures LikePoints(150, true) == 15.0 && LikePoints(150, false) == 10.0
  {
  }

  // ---------------------------------------------------------------------
  // Keys

  /** Splitting a leaderboard member on its first "|" gives back the viewer's
      id and nickname, provided the id holds no "|". */
  lemma UserKeySplits(userId: string, nickname: string)
    requires '|' !in userId
    ensures SplitOnce(UserKey(userId, nickname), '|') == [userId, nickname]
  {
    SplitOnceJoin(userId, nickname, '|');
  }

  /** With a "|" inside an id, two different viewers share one member. */
  lemma UserKeysCollide()
    ensures UserKey("a|b", "c") == UserKey("a", "b|c")
  {
  }

  /** The key layout does not keep sessions apart: the statistics of viewer
      "leaderboard" in session "a" live under the leaderboard key of session
      "a:user_data". */
  lemma SessionKeysCollide()
    ensures UserDataKey("a", "leaderboard") == LeaderboardKey("a:user_data")
  {
  }

  /** A gift breakdown field gives back its gift id and name. */
  lemma GiftFieldSplits(giftId: string, giftName: string)
    requires '|' !in giftId
    ensures GiftIdOf(GiftField(giftId, giftName)) == giftId
    ensures GiftNameOf(GiftField(giftId, giftName)) == giftName
  {
    SplitOnceJoin(giftId, giftName, '|');
  }

  lemma LeaderboardKeyApart(s: string, u: string)
    ensures LeaderboardKey(s) != UserDataKey(s, u)
    ensures LeaderboardKey(s) != UserGiftsKey(s, u)
    ensures LeaderboardKey(s) != CommentsKey(s, u)
  {
    var n := |s| + 9;
    assert LeaderboardKey(s)[n] == 'l';
    assert UserDataKey(s, u)[n] == 'u' && UserGiftsKey(s, u)[n] == 'u' && CommentsKey(s, u)[n] == 'c';
  }

  lemma ViewerKeysApart(s: string, u: string, v: string)
    ensures UserDataKey(s, u) != UserGiftsKey(s, v)
    ensures UserDataKey(s, u) != CommentsKey(s, v)
    ensures UserGiftsKey(s, u) != CommentsKey(s, v)
  {
    var n := |s| + 9;
    assert UserDataKey(s, u)[n] == 'u' && UserDataKey(s, u)[n + 5] == 'd';
    assert UserGiftsKey(s, v)[n + 5] == 'g' && UserGiftsKey(s, u)[n] == 'u';
    assert CommentsKey(s, v)[n] == 'c';
  }

  lemma ViewerKeysInjective(s: string, u: string, v: string)
    requires u != v
    ensures UserDataKey(s, u) != UserDataKey(s, v)
    ensures UserGiftsKey(s, u) != UserGiftsKey(s, v)
    ensures CommentsKey(s, u) != CommentsKey(s, v)
  {
    var dp, gp, cp := UserDataPrefix(s) + ":", "session:" + s + ":user_gifts:", CommentsPrefix(s) + ":";
    assert UserDataKey(s, u) == dp + u && UserDataKey(s, v) == dp + v;
    assert UserGiftsKey(s, u) == gp + u && UserGiftsKey(s, v) == gp + v;
    assert CommentsKey(s, u) == cp + u && CommentsKey(s, v) == cp + v;
    assert (dp + u)[|dp|..] == u && (dp + v)[|dp|..] == v;
    assert (gp + u)[|gp|..] == u && (gp + v)[|gp|..] == v;
    assert (cp + u)[|cp|..] == u && (cp + v)[|cp|..] == v;
  }

  /** Within one session the keys of the leaderboard, of statistics, of gift
      breakdowns and of comment lists never coincide, and each viewer has
      keys of their own. */
  lemma SessionKeysDistinct(s: string, u: string, v: string)
    ensures LeaderboardKey(s) != UserDataKey(s, u)
    ensures LeaderboardKey(s) != UserGiftsKey(s, u)
    ensures LeaderboardKey(s) != CommentsKey(s, u)
    ensures UserDataKey(s, u) != UserGiftsKey(s, v)
    ensures UserDataKey(s, u) != CommentsKey(s, v)
    ensures UserGiftsKey(s, u) != CommentsKey(s, v)
    ensures u != v ==> UserDataKey(s, u) != UserDataKey(s, v)
    ensures u != v ==> UserGiftsKey(s, u) != UserGiftsKey(s, v)
    ensures u != v ==> CommentsKey(s, u) != CommentsKey(s, v)
  {
    LeaderboardKeyApart(s, u);
    ViewerKeysApart(s, u, v);
    if u != v {
      ViewerKeysInjective(s, u, v);
    }
  }

  /** Every key the service writes for session `s` lies under "session:{s}:". */
  lemma SessionKeysUnderPrefix(s: string, u: string)
    ensures StartsWith(LeaderboardKey(s), SessionPrefix(s))
    ensures StartsWith(UserDataKey(s, u), SessionPrefix(s))
    ensures StartsWith(UserGiftsKey(s, u), SessionPrefix(s))
    ensures StartsWith(CommentsKey(s, u), SessionPrefix(s))
  {
    var p := SessionPrefix(s);
    assert LeaderboardKey(s) == p + "leaderboard";
    assert UserDataKey(s, u) == p + "user_data:" + u;
    assert UserGiftsKey(s, u) == p + "user_gifts:" + u;
    assert CommentsKey(s, u) == p + "comments:" + u;
  }

  // ---------------------------------------------------------------------
  // Each call as an instance of its command sequence

  lemma LikeFieldsApart(isFollower: bool)
    ensures var f2 := LikeTypeField(isFollower);
      && "nickname" != "avatar_url"
      && "total_likes" != "nickname" && "total_likes" != "avatar_url"
      && f2 != "nickname" && f2 != "avatar_url" && f2 != "total_likes"
      && "points_from_likes" != "nickname" && "points_from_likes" != "avatar_url"
      && "points_from_likes" != "total_likes" && "points_from_likes" != f2
      && "points_from_gifts" != "nickname" && "points_from_gifts" != "avatar_url"
      && "points_from_gifts" != "total_likes" && "points_from_gifts" != f2
      && "points_from_gifts" != "points_from_likes"
  {
    assert "points_from_gifts"[12] != "points_from_likes"[12];
  }

  lemma GiftFieldsApart()
    ensures && "nickname" != "avatar_url"
      && "total_gift_coins" != "nickname" && "total_gift_coins" != "avatar_url"
      && "total_gifts_sent" != "nickname" && "total_gifts_sent" != "avatar_url"
      && "total_gifts_sent" != "total_gift_coins"
      && "points_from_gifts" != "nickname" && "points_from_gifts" != "avatar_url"
      && "points_from_gifts" != "total_gift_coins" && "points_from_gifts" != "total_gifts_sent"
      && "points_from_likes" != "nickname" && "points_from_likes" != "avatar_url"
      && "points_from_likes" != "total_gift_coins" && "points_from_likes" != "total_gifts_sent"
      && "points_from_likes" != "points_from_gifts"
  {
    assert "total_gifts_sent"[10] != "total_gift_coins"[10];
    assert "points_from_gifts"[12] != "points_from_likes"[12];
  }

  lemma CommentFieldsApart()
    ensures && "nickname" != "avatar_url"
      && "total_comments" != "nickname" && "total_comments" != "avatar_url"
      && "points_from_likes" != "nickname" && "points_from_likes" != "avatar_url"
      && "points_from_likes" != "total_comments"
      && "points_from_gifts" != "nickname" && "points_from_gifts" != "avatar_url"
      && "points_from_gifts" != "total_comments"
  {
  }

  lemma LikeIsScoreWrites(d: Keyspace, s: string, userId: string, nickname: string, likeCount: int,
                          isFollower: bool, avatarUrl: Option<string>)
    requires likeCount > 0
    ensures LikeEffect(d, s, userId, nickname, likeCount, isFollower, avatarUrl)
         == ScoreWrites(d, LeaderboardKey(s), UserDataKey(s, userId), UserKey(userId, nickname), nickname, avatarUrl,
                        "nickname", "avatar_url", "total_likes", likeCount, LikeTypeField(isFollower), likeCount,
                        "points_from_likes", LikePoints(likeCount, isFollower))
  {
  }

  lemma GiftIsGiftWrites(d: Keyspace, s: string, userId: string, nickname: string, coinValue: int,
                         giftId: string, giftName: string, quantity: int, avatarUrl: Option<string>)
    ensures GiftEffect(d, s, userId, nickname, coinValue, giftId, giftName, quantity, avatarUrl)
         == GiftWrites(d, LeaderboardKey(s), UserDataKey(s, userId), UserGiftsKey(s, userId), UserKey(userId, nickname),
                       nickname, avatarUrl, "nickname", "avatar_url", "total_gift_coins", coinValue * quantity,
                       "total_gifts_sent", quantity, "points_from_gifts", GiftPoints(coinValue, quantity) as real,
                       GiftField(giftId, giftName))
  {
  }

  lemma CommentIsCommentWrites(d: Keyspace, s: string, userId: string, text: string,
                               nickname: Option<string>, avatarUrl: Option<string>)
    ensures CommentEffect(d, s, userId, text, nickname, avatarUrl)
         == CommentWrites(d, UserDataKey(s, userId), CommentsKey(s, userId), text, nickname, avatarUrl,
                          "nickname", "avatar_url", "total_comments")
  {
  }

  // ---------------------------------------------------------------------
  // The exact change of each call

  /** The statistics fields a like writes. */
  function LikeFields(isFollower: bool, avatarUrl: Option<string>): set<string> {
    ScoreWritten("nickname", "avatar_url", avatarUrl, "total_likes", LikeTypeField(isFollower), "points_from_likes")
  }

  /** The statistics fields a gift writes. */
  function GiftFields(avatarUrl: Option<string>): set<string> {
    ScoreWritten("nickname", "avatar_url", avatarUrl, "total_gift_coins", "total_gifts_sent", "points_from_gifts")
  }

  /** The statistics fields a comment writes. */
  function CommentFields(nickname: Option<string>, avatarUrl: Option<string>): set<string> {
    CommentWritten("total_comments", "nickname", "avatar_url", nickname, avatarUrl)
  }

  /** A like worth no points changes nothing. */
  lemma LikeWithoutPointsIsIgnored(d: Keyspace, s: string, userId: string, nickname: string, likeCount: int,
                                   isFollower: bool, avatarUrl: Option<string>)
    requires likeCount <= 0
    ensures LikeEffect(d, s, userId, nickname, likeCount, isFollower, avatarUrl) == d
  {
  }

  /** Whatever the store holds, a like writes only the leaderboard, and there
      only its own member, and the statistics of its own viewer. */
  lemma LikeFrame(d: Keyspace, s: string, userId: string, nickname: string, likeCount: int,
                  isFollower: bool, avatarUrl: Option<string>)
    ensures var d' := LikeEffect(d, s, userId, nickname, likeCount, isFollower, avatarUrl);
      && d' - {LeaderboardKey(s), UserDataKey(s, userId)} == d - {LeaderboardKey(s), UserDataKey(s, userId)}
      && ZScores(d', LeaderboardKey(s)) - {UserKey(userId, nickname)} == ZScores(d, LeaderboardKey(s)) - {UserKey(userId, nickname)}
      && (ZSetOrAbsent(d, LeaderboardKey(s)) ==> ZSetOrAbsent(d', LeaderboardKey(s)))
  {
    if likeCount > 0 {
      LeaderboardKeyApart(s, userId);
      LikeFieldsApart(isFollower);
      LikeIsScoreWrites(d, s, userId, nickname, likeCount, isFollower, avatarUrl);
      var L, h, f2, p := LeaderboardKey(s), UserDataKey(s, userId), LikeTypeField(isFollower), LikePoints(likeCount, isFollower);
      ScoreWritesFrame(d, L, h, UserKey(userId, nickname), nickname, avatarUrl,
                       "nickname", "avatar_url", "total_likes", likeCount, f2, likeCount, "points_from_likes", p);
      ScoreWritesBoard(d, L, h, UserKey(userId, nickname), nickname, avatarUrl,
                       "nickname", "avatar_url", "total_likes", likeCount, f2, likeCount, "points_from_likes", p);
    }
  }

  /** A like with points raises the viewer's member on the leaderboard by
      the like's points and leaves every other member's score alone. */
  lemma LikeRaisesScore(d: Keyspace, s: string, userId: string, nickname: string, likeCount: int,
                        isFollower: bool, avatarUrl: Option<string>)
    requires likeCount > 0
    requires ZSetOrAbsent(d, LeaderboardKey(s))
    ensures var d' := LikeEffect(d, s, userId, nickname, likeCount, isFollower, avatarUrl);
      var key := UserKey(userId, nickname);
      && ZSetOrAbsent(d', LeaderboardKey(s))
      && key in ZScores(d', LeaderboardKey(s))
      && Score(d', LeaderboardKey(s), key) == Score(d, LeaderboardKey(s), key) + LikePoints(likeCount, isFollower)
      && ZScores(d', LeaderboardKey(s)) - {key} == ZScores(d, LeaderboardKey(s)) - {key}
  {
    LeaderboardKeyApart(s, userId);
    LikeFieldsApart(isFollower);
    LikeIsScoreWrites(d, s, userId, nickname, likeCount, isFollower, avatarUrl);
    var L, h, f2, p := LeaderboardKey(s), UserDataKey(s, userId), LikeTypeField(isFollower), LikePoints(likeCount, isFollower);
    ScoreWritesBoard(d, L, h, UserKey(userId, nickname), nickname, avatarUrl,
                     "nickname", "avatar_url", "total_likes", likeCount, f2, likeCount, "points_from_likes", p);
  }

  /** A like with points raises the like counters and the like points by
      exactly the like's amounts and refreshes the nickname (and the avatar
      when one is given). */
  lemma LikeChangesExactly(d: Keyspace, s: string, userId: string, nickname: string, likeCount: int,
                           isFollower: bool, avatarUrl: Option<string>)
    requires likeCount > 0
    requires HashOrAbsent(d, UserDataKey(s, userId))
    requires IntOrAbsent(HFields(d, UserDataKey(s, userId)), "total_likes")
    requires IntOrAbsent(HFields(d, UserDataKey(s, userId)), LikeTypeField(isFollower))
    requires NumOrAbsent(HFields(d, UserDataKey(s, userId)), "points_from_likes")
    ensures var d' := LikeEffect(d, s, userId, nickname, likeCount, isFollower, avatarUrl);
      var before := HFields(d, UserDataKey(s, userId));
      var after := HFields(d', UserDataKey(s, userId));
      && IntValue(after, "total_likes") == IntValue(before, "total_likes") + likeCount
      && IntValue(after, LikeTypeField(isFollower)) == IntValue(before, LikeTypeField(isFollower)) + likeCount
      && NumValue(after, "points_from_likes") == NumValue(before, "points_from_likes") + LikePoints(likeCount, isFollower)
      && "nickname" in after && after["nickname"] == Text(nickname)
      && (Truthy(avatarUrl) ==> "avatar_url" in after && after["avatar_url"] == Text(avatarUrl.value))
  {
    LeaderboardKeyApart(s, userId);
    LikeFieldsApart(isFollower);
    LikeIsScoreWrites(d, s, userId, nickname, likeCount, isFollower, avatarUrl);
    var L, h, f2, p := LeaderboardKey(s), UserDataKey(s, userId), LikeTypeField(isFollower), LikePoints(likeCount, isFollower);
    ScoreWritesFields(d, L, h, UserKey(userId, nickname), nickname, avatarUrl,
                      "nickname", "avatar_url", "total_likes", likeCount, f2, likeCount, "points_from_likes", p);
  }

  /** A like with points adds only the fields it writes to the viewer's
      statistics and leaves every other field as it was. */
  lemma LikeTouchesOnlyItsFields(d: Keyspace, s: string, userId: string, nickname: string, likeCount: int,
                                 isFollower: bool, avatarUrl: Option<string>)
    requires likeCount > 0
    requires HashOrAbsent(d, UserDataKey(s, userId))
    requires IntOrAbsent(HFields(d, UserDataKey(s, userId)), "total_likes")
    requires IntOrAbsent(HFields(d, UserDataKey(s, userId)), LikeTypeField(isFollower))
    requires NumOrAbsent(HFields(d, UserDataKey(s, userId)), "points_from_likes")
    ensures var d' := LikeEffect(d, s, userId, nickname, likeCount, isFollower, avatarUrl);
      var before := HFields(d, UserDataKey(s, userId));
      var after := HFields(d', UserDataKey(s, userId));
      && after.Keys == before.Keys + LikeFields(isFollower, avatarUrl)
      && after - LikeFields(isFollower, avatarUrl) == before - LikeFields(isFollower, avatarUrl)
  {
    LeaderboardKeyApart(s, userId);
    LikeFieldsApart(isFollower);
    LikeIsScoreWrites(d, s, userId, nickname, likeCount, isFollower, avatarUrl);
    var L, h, f2, p := LeaderboardKey(s), UserDataKey(s, userId), LikeTypeField(isFollower), LikePoints(likeCount, isFollower);
    ScoreWritesFields(d, L, h, UserKey(userId, nickname), nickname, avatarUrl,
                      "nickname", "avatar_url", "total_likes", likeCount, f2, likeCount, "points_from_likes", p);
  }

  /** Whatever the like counters hold, a like with points adds them to the
      viewer's score and to the like points and leaves the gift points alone. */
  lemma LikeRecordsPoints(d: Keyspace, s: string, userId: string, nickname: string, likeCount: int,
                          isFollower: bool, avatarUrl: Option<string>)
    requires likeCount > 0
    requires ZSetOrAbsent(d, LeaderboardKey(s)) && HashOrAbsent(d, UserDataKey(s, userId))
    requires NumOrAbsent(HFields(d, UserDataKey(s, userId)), "points_from_likes")
    ensures var d' := LikeEffect(d, s, userId, nickname, likeCount, isFollower, avatarUrl);
      var key := UserKey(userId, nickname);
      var points := LikePoints(likeCount, isFollower);
      var before := HFields(d, UserDataKey(s, userId));
      var after := HFields(d', UserDataKey(s, userId));
      && ZSetOrAbsent(d', LeaderboardKey(s)) && HashOrAbsent(d', UserDataKey(s, userId))
      && Score(d', LeaderboardKey(s), key) == Score(d, LeaderboardKey(s), key) + points
      && NumValue(after, "points_from_likes") == NumValue(before, "points_from_likes") + points
      && NumOrAbsent(after, "points_from_likes")
      && ("points_from_gifts" in after <==> "points_from_gifts" in before)
      && ("points_from_gifts" in before ==> after["points_from_gifts"] == before["points_from_gifts"])
  {
    LikeRaisesScore(d, s, userId, nickname, likeCount, isFollower, avatarUrl);
    LeaderboardKeyApart(s, userId);
    LikeFieldsApart(isFollower);
    LikeIsScoreWrites(d, s, userId, nickname, likeCount, isFollower, avatarUrl);
    var L, h, f2, p := LeaderboardKey(s), UserDataKey(s, userId), LikeTypeField(isFollower), LikePoints(likeCount, isFollower);
    ScoreWritesPoints(d, L, h, UserKey(userId, nickname), nickname, avatarUrl,
                      "nickname", "avatar_url", "total_likes", likeCount, f2, likeCount, "points_from_likes", p,
                      "points_from_gifts");
  }

  /** Whatever the store holds, a gift writes only the leaderboard, and there
      only its own member, and the statistics and breakdown of its viewer. */
  lemma GiftFrame(d: Keyspace, s: string, userId: string, nickname: string, coinValue: int,
                  giftId: string, giftName: string, quantity: int, avatarUrl: Option<string>)
    ensures var d' := GiftEffect(d, s, userId, nickname, coinValue, giftId, giftName, quantity, avatarUrl);
      var touched := {LeaderboardKey(s), UserDataKey(s, userId), UserGiftsKey(s, userId)};
      && d' - touched == d - touched
      && ZScores(d', LeaderboardKey(s)) - {UserKey(userId, nickname)} == ZScores(d, LeaderboardKey(s)) - {UserKey(userId, nickname)}
      && (ZSetOrAbsent(d, LeaderboardKey(s)) ==> ZSetOrAbsent(d', LeaderboardKey(s)))
  {
    LeaderboardKeyApart(s, userId);
    ViewerKeysApart(s, userId, userId);
    GiftFieldsApart();
    GiftIsGiftWrites(d, s, userId, nickname, coinValue, giftId, giftName, quantity, avatarUrl);
    var L, h, g, p := LeaderboardKey(s), UserDataKey(s, userId), UserGiftsKey(s, userId), GiftPoints(coinValue, quantity) as real;
    var key, field := UserKey(userId, nickname), GiftField(giftId, giftName);
    GiftWritesFrame(d, L, h, g, key, nickname, avatarUrl, "nickname", "avatar_url", "total_gift_coins", coinValue * quantity,
                    "total_gifts_sent", quantity, "points_from_gifts", p, field);
    ScoreWritesBoard(d, L, h, key, nickname, avatarUrl, "nickname", "avatar_url", "total_gift_coins", coinValue * quantity,
                     "total_gifts_sent", quantity, "points_from_gifts", p);
  }

  /** A gift raises the viewer's member by its points (coin value x
      multiplier x quantity) and leaves every other member's score alone. There is no positivity
      guard: the amount is added whatever its sign. */
  lemma GiftRaisesScore(d: Keyspace, s: string, userId: string, nickname: string, coinValue: int,
                        giftId: string, giftName: string, quantity: int, avatarUrl: Option<string>)
    requires ZSetOrAbsent(d, LeaderboardKey(s))
    ensures var d' := GiftEffect(d, s, userId, nickname, coinValue, giftId, giftName, quantity, avatarUrl);
      var key := UserKey(userId, nickname);
      && ZSetOrAbsent(d', LeaderboardKey(s))
      && key in ZScores(d', LeaderboardKey(s))
      && Score(d', LeaderboardKey(s), key) == Score(d, LeaderboardKey(s), key) + GiftPoints(coinValue, quantity) as real
      && ZScores(d', LeaderboardKey(s)) - {key} == ZScores(d, LeaderboardKey(s)) - {key}
  {
    LeaderboardKeyApart(s, userId);
    ViewerKeysApart(s, userId, userId);
    GiftFieldsApart();
    GiftIsGiftWrites(d, s, userId, nickname, coinValue, giftId, giftName, quantity, avatarUrl);
    var L, h, g, p := LeaderboardKey(s), UserDataKey(s, userId), UserGiftsKey(s, userId), GiftPoints(coinValue, quantity) as real;
    var key, field := UserKey(userId, nickname), GiftField(giftId, giftName);
    GiftWritesBoard(d, L, h, g, key, nickname, avatarUrl, "nickname", "avatar_url", "total_gift_coins", coinValue * quantity,
                    "total_gifts_sent", quantity, "points_from_gifts", p, field);
  }

  /** A gift adds coin value x quantity to the coins, the quantity to the
      gifts sent, its points to the gift points, and refreshes the nickname
      (and the avatar when one is given). */
  lemma GiftChangesExactly(d: Keyspace, s: string, userId: string, nickname: string, coinValue: int,
                           giftId: string, giftName: string, quantity: int, avatarUrl: Option<string>)
    requires HashOrAbsent(d, UserDataKey(s, userId))
    requires IntOrAbsent(HFields(d, UserDataKey(s, userId)), "total_gift_coins")
    requires IntOrAbsent(HFields(d, UserDataKey(s, userId)), "total_gifts_sent")
    requires NumOrAbsent(HFields(d, UserDataKey(s, userId)), "points_from_gifts")
    ensures var d' := GiftEffect(d, s, userId, nickname, coinValue, giftId, giftName, quantity, avatarUrl);
      var before := HFields(d, UserDataKey(s, userId));
      var after := HFields(d', UserDataKey(s, userId));
      && IntValue(after, "total_gift_coins") == IntValue(before, "total_gift_coins") + coinValue * quantity
      && IntValue(after, "total_gifts_sent") == IntValue(before, "total_gifts_sent") + quantity
      && NumValue(after, "points_from_gifts") == NumValue(before, "points_from_gifts") + GiftPoints(coinValue, quantity) as real
      && "nickname" in after && after["nickname"] == Text(nickname)
      && (Truthy(avatarUrl) ==> "avatar_url" in after && after["avatar_url"] == Text(avatarUrl.value))
  {
    LeaderboardKeyApart(s, userId);
    ViewerKeysApart(s, userId, userId);
    GiftFieldsApart();
    GiftIsGiftWrites(d, s, userId, nickname, coinValue, giftId, giftName, quantity, avatarUrl);
    var L, h, g, p := LeaderboardKey(s), UserDataKey(s, userId), UserGiftsKey(s, userId), GiftPoints(coinValue, quantity) as real;
    var key, field := UserKey(userId, nickname), GiftField(giftId, giftName);
    GiftWritesFrame(d, L, h, g, key, nickname, avatarUrl, "nickname", "avatar_url", "total_gift_coins", coinValue * quantity,
                    "total_gifts_sent", quantity, "points_from_gifts", p, field);
    ScoreWritesFields(d, L, h, key, nickname, avatarUrl, "nickname", "avatar_url", "total_gift_coins", coinValue * quantity,
                      "total_gifts_sent", quantity, "points_from_gifts", p);
  }

  /** A gift adds only the fields it writes to the viewer's statistics. */
  lemma GiftTouchesOnlyItsFields(d: Keyspace, s: string, userId: string, nickname: string, coinValue: int,
                                 giftId: string, giftName: string, quantity: int, avatarUrl: Option<string>)
    requires HashOrAbsent(d, UserDataKey(s, userId))
    requires IntOrAbsent(HFields(d, UserDataKey(s, userId)), "total_gift_coins")
    requires IntOrAbsent(HFields(d, UserDataKey(s, userId)), "total_gifts_sent")
    requires NumOrAbsent(HFields(d, UserDataKey(s, userId)), "points_from_gifts")
    ensures var d' := GiftEffect(d, s, userId, nickname, coinValue, giftId, giftName, quantity, avatarUrl);
      var before := HFields(d, UserDataKey(s, userId));
      var after := HFields(d', UserDataKey(s, userId));
      && after.Keys == before.Keys + GiftFields(avatarUrl)
      && after - GiftFields(avatarUrl) == before - GiftFields(avatarUrl)
  {
    LeaderboardKeyApart(s, userId);
    ViewerKeysApart(s, userId, userId);
    GiftFieldsApart();
    GiftIsGiftWrites(d, s, userId, nickname, coinValue, giftId, giftName, quantity, avatarUrl);
    var L, h, g, p := LeaderboardKey(s), UserDataKey(s, userId), UserGiftsKey(s, userId), GiftPoints(coinValue, quantity) as real;
    var key, field := UserKey(userId, nickname), GiftField(giftId, giftName);
    GiftWritesFrame(d, L, h, g, key, nickname, avatarUrl, "nickname", "avatar_url", "total_gift_coins", coinValue * quantity,
                    "total_gifts_sent", quantity, "points_from_gifts", p, field);
    ScoreWritesFields(d, L, h, key, nickname, avatarUrl, "nickname", "avatar_url", "total_gift_coins", coinValue * quantity,
                      "total_gifts_sent", quantity, "points_from_gifts", p);
  }

  /** A gift adds its quantity to the breakdown field "{gift_id}|{gift_name}"
      and to no other breakdown field. */
  lemma GiftCountsInBreakdown(d: Keyspace, s: string, userId: string, nickname: string, coinValue: int,
                              giftId: string, giftName: string, quantity: int, avatarUrl: Option<string>)
    requires HashOrAbsent(d, UserGiftsKey(s, userId))
    requires IntOrAbsent(HFields(d, UserGiftsKey(s, userId)), GiftField(giftId, giftName))
    ensures var d' := GiftEffect(d, s, userId, nickname, coinValue, giftId, giftName, quantity, avatarUrl);
      var field := GiftField(giftId, giftName);
      var before := HFields(d, UserGiftsKey(s, userId));
      var after := HFields(d', UserGiftsKey(s, userId));
      && IntValue(after, field) == IntValue(before, field) + quantity
      && after.Keys == before.Keys + {field}
      && after - {field} == before - {field}
  {
    LeaderboardKeyApart(s, userId);
    ViewerKeysApart(s, userId, userId);
    GiftFieldsApart();
    GiftIsGiftWrites(d, s, userId, nickname, coinValue, giftId, giftName, quantity, avatarUrl);
    var L, h, g, p := LeaderboardKey(s), UserDataKey(s, userId), UserGiftsKey(s, userId), GiftPoints(coinValue, quantity) as real;
    var key, field := UserKey(userId, nickname), GiftField(giftId, giftName);
    GiftWritesBreakdown(d, L, h, g, key, nickname, avatarUrl, "nickname", "avatar_url", "total_gift_coins", coinValue * quantity,
                        "total_gifts_sent", quantity, "points_from_gifts", p, field);
  }

  /** Whatever the gift counters hold, a gift adds its points to the viewer's
      score and to the gift points and leaves the like points alone. */
  lemma GiftRecordsPoints(d: Keyspace, s: string, userId: string, nickname: string, coinValue: int,
                          giftId: string, giftName: string, quantity: int, avatarUrl: Option<string>)
    requires ZSetOrAbsent(d, LeaderboardKey(s)) && HashOrAbsent(d, UserDataKey(s, userId))
    requires NumOrAbsent(HFields(d, UserDataKey(s, userId)), "points_from_gifts")
    ensures var d' := GiftEffect(d, s, userId, nickname, coinValue, giftId, giftName, quantity, avatarUrl);
      var key := UserKey(userId, nickname);
      var points := GiftPoints(coinValue, quantity) as real;
      var before := HFields(d, UserDataKey(s, userId));
      var after := HFields(d', UserDataKey(s, userId));
      && ZSetOrAbsent(d', LeaderboardKey(s)) && HashOrAbsent(d', UserDataKey(s, userId))
      && Score(d', LeaderboardKey(s), key) == Score(d, LeaderboardKey(s), key) + points
      && NumValue(after, "points_from_gifts") == NumValue(before, "points_from_gifts") + points
      && NumOrAbsent(after, "points_from_gifts")
      && ("points_from_likes" in after <==> "points_from_likes" in before)
      && ("points_from_likes" in before ==> after["points_from_likes"] == before["points_from_likes"])
  {
    GiftRaisesScore(d, s, userId, nickname, coinValue, giftId, giftName, quantity, avatarUrl);
    LeaderboardKeyApart(s, userId);
    ViewerKeysApart(s, userId, userId);
    GiftFieldsApart();
    GiftIsGiftWrites(d, s, userId, nickname, coinValue, giftId, giftName, quantity, avatarUrl);
    var L, h, g, p := LeaderboardKey(s), UserDataKey(s, userId), UserGiftsKey(s, userId), GiftPoints(coinValue, quantity) as real;
    var key, field := UserKey(userId, nickname), GiftField(giftId, giftName);
    GiftWritesFrame(d, L, h, g, key, nickname, avatarUrl, "nickname", "avatar_url", "total_gift_coins", coinValue * quantity,
                    "total_gifts_sent", quantity, "points_from_gifts", p, field);
    ScoreWritesPoints(d, L, h, key, nickname, avatarUrl, "nickname", "avatar_url", "total_gift_coins", coinValue * quantity,
                      "total_gifts_sent", quantity, "points_from_gifts", p, "points_from_likes");
  }

  /** Whatever the store holds, a comment writes only its viewer's statistics
      and comment list. */
  lemma CommentFrame(d: Keyspace, s: string, userId: string, text: string,
                     nickname: Option<string>, avatarUrl: Option<string>)
    ensures var d' := CommentEffect(d, s, userId, text, nickname, avatarUrl);
      d' - {UserDataKey(s, userId), CommentsKey(s, userId)} == d - {UserDataKey(s, userId), CommentsKey(s, userId)}
  {
    ViewerKeysApart(s, userId, userId);
    CommentIsCommentWrites(d, s, userId, text, nickname, avatarUrl);
    CommentWritesFrame(d, UserDataKey(s, userId), CommentsKey(s, userId), text, nickname, avatarUrl,
                       "nickname", "avatar_url", "total_comments");
  }

  /** A comment goes to the end of its viewer's list. */
  lemma CommentAppends(d: Keyspace, s: string, userId: string, text: string,
                       nickname: Option<string>, avatarUrl: Option<string>)
    requires ListOrAbsent(d, CommentsKey(s, userId))
    ensures var d' := CommentEffect(d, s, userId, text, nickname, avatarUrl);
      && ListOrAbsent(d', CommentsKey(s, userId))
      && LItems(d', CommentsKey(s, userId)) == LItems(d, CommentsKey(s, userId)) + [text]
  {
    ViewerKeysApart(s, userId, userId);
    CommentIsCommentWrites(d, s, userId, text, nickname, avatarUrl);
    CommentWritesFrame(d, UserDataKey(s, userId), CommentsKey(s, userId), text, nickname, avatarUrl,
                       "nickname", "avatar_url", "total_comments");
  }

  /** A comment counts one more comment, writes nickname and avatar only when
      they are non-empty, and adds no other field. */
  lemma CommentChangesExactly(d: Keyspace, s: string, userId: string, text: string,
                              nickname: Option<string>, avatarUrl: Option<string>)
    requires HashOrAbsent(d, UserDataKey(s, userId)) && IntOrAbsent(HFields(d, UserDataKey(s, userId)), "total_comments")
    ensures var d' := CommentEffect(d, s, userId, text, nickname, avatarUrl);
      var before := HFields(d, UserDataKey(s, userId));
      var after := HFields(d', UserDataKey(s, userId));
      && IntValue(after, "total_comments") == IntValue(before, "total_comments") + 1
      && (Truthy(nickname) ==> "nickname" in after && after["nickname"] == Text(nickname.value))
      && (Truthy(avatarUrl) ==> "avatar_url" in after && after["avatar_url"] == Text(avatarUrl.value))
      && after.Keys == before.Keys + CommentFields(nickname, avatarUrl)
      && after - CommentFields(nickname, avatarUrl) == before - CommentFields(nickname, avatarUrl)
  {
    ViewerKeysApart(s, userId, userId);
    CommentFieldsApart();
    CommentIsCommentWrites(d, s, userId, text, nickname, avatarUrl);
    CommentWritesFields(d, UserDataKey(s, userId), CommentsKey(s, userId), text, nickname, avatarUrl,
                        "nickname", "avatar_url", "total_comments");
  }

  /** A comment leaves both point fields and the leaderboard alone. */
  lemma CommentKeepsPoints(d: Keyspace, s: string, userId: string, text: string,
                           nickname: Option<string>, avatarUrl: Option<string>)
    ensures var d' := CommentEffect(d, s, userId, text, nickname, avatarUrl);
      var before := HFields(d, UserDataKey(s, userId));
      var after := HFields(d', UserDataKey(s, userId));
      && (HashOrAbsent(d, UserDataKey(s, userId)) ==> HashOrAbsent(d', UserDataKey(s, userId)))
      && ("points_from_likes" in after <==> "points_from_likes" in before)
      && ("points_from_likes" in before ==> after["points_from_likes"] == before["points_from_likes"])
      && ("points_from_gifts" in after <==> "points_from_gifts" in before)
      && ("points_from_gifts" in before ==> after["points_from_gifts"] == before["points_from_gifts"])
      && (LeaderboardKey(s) in d' <==> LeaderboardKey(s) in d)
      && (LeaderboardKey(s) in d ==> d'[LeaderboardKey(s)] == d[LeaderboardKey(s)])
  {
    ViewerKeysApart(s, userId, userId);
    CommentFieldsApart();
    CommentIsCommentWrites(d, s, userId, text, nickname, avatarUrl);
    var h, c := UserDataKey(s, userId), CommentsKey(s, userId);
    CommentWritesKeepField(d, h, c, text, nickname, avatarUrl, "nickname", "avatar_url", "total_comments", "points_from_likes");
    CommentWritesKeepField(d, h, c, text, nickname, avatarUrl, "nickname", "avatar_url", "total_comments", "points_from_gifts");
    var d' := CommentEffect(d, s, userId, text, nickname, avatarUrl);
    CommentFrame(d, s, userId, text, nickname, avatarUrl);
    LeaderboardKeyApart(s, userId);
    OtherKeyUnchanged(d, d', {h, c}, LeaderboardKey(s));
  }

  // ---------------------------------------------------------------------
  // A viewer's score is the sum of their recorded points

  /** In store `d`, `member` of the sorted set `L` scores the sum of the
      numbers held in fields `f` and `g` of the hash `h`. */
  ghost predicate PointsAddUp(d: Keyspace, L: string, h: string, member: string, f: string, g: string) {
    && ZSetOrAbsent(d, L) && HashOrAbsent(d, h)
    && NumOrAbsent(HFields(d, h), f) && NumOrAbsent(HFields(d, h), g)
    && Score(d, L, member) == NumValue(HFields(d, h), f) + NumValue(HFields(d, h), g)
  }

  /** Raising the score and `f` by the same amount, leaving `g` alone, keeps
      the sum. */
  lemma PointsAddUpAfterRaise(d: Keyspace, d': Keyspace, L: string, h: string, member: string,
                              f: string, g: string, delta: real)
    requires PointsAddUp(d, L, h, member, f, g)
    requires ZSetOrAbsent(d', L) && HashOrAbsent(d', h)
    requires Score(d', L, member) == Score(d, L, member) + delta
    requires NumValue(HFields(d', h), f) == NumValue(HFields(d, h), f) + delta && NumOrAbsent(HFields(d', h), f)
    requires g in HFields(d', h) <==> g in HFields(d, h)
    requires g in HFields(d, h) ==> HFields(d', h)[g] == HFields(d, h)[g]
    ensures PointsAddUp(d', L, h, member, f, g)
  {
  }

  /** Writes outside `h` and outside `member`'s score keep the sum. */
  lemma PointsAddUpUntouched(d: Keyspace, d': Keyspace, L: string, h: string, member: string,
                             f: string, g: string, keys: set<string>, members: set<string>)
    requires PointsAddUp(d, L, h, member, f, g)
    requires d' - keys == d - keys && h !in keys
    requires ZScores(d', L) - members == ZScores(d, L) - members && member !in members
    requires ZSetOrAbsent(d, L) ==> ZSetOrAbsent(d', L)
    ensures PointsAddUp(d', L, h, member, f, g)
  {
    OtherKeyUnchanged(d, d', keys, h);
    AgreeOutside(ZScores(d, L), ZScores(d', L), members, member);
  }

  /** The viewer's leaderboard score is the sum of the points their
      statistics record from likes and from gifts. */
  ghost predicate ScoreMatchesStats(d: Keyspace, s: string, userId: string, nickname: string) {
    PointsAddUp(d, LeaderboardKey(s), UserDataKey(s, userId), UserKey(userId, nickname),
                "points_from_likes", "points_from_gifts")
  }

  /** A call that cannot break the agreement for the viewer (userId, nickname):
      a comment, a like or gift by that very viewer under that nickname, or by
      another viewer whose leaderboard member is a different one. */
  predicate Compatible(c: Call, userId: string, nickname: string) {
    match c
    case Like(u, n, _, _, _) => (u == userId && n == nickname) || (u != userId && UserKey(u, n) != UserKey(userId, nickname))
    case Gift(u, n, _, _, _, _, _) => (u == userId && n == nickname) || (u != userId && UserKey(u, n) != UserKey(userId, nickname))
    case Comment(_, _, _, _) => true
  }

  lemma LikeKeepsScoreMatch(d: Keyspace, s: string, userId: string, nickname: string,
                            u: string, n: string, count: int, f: bool, a: Option<string>)
    requires ScoreMatchesStats(d, s, userId, nickname) && Compatible(Like(u, n, count, f, a), userId, nickname)
    ensures ScoreMatchesStats(LikeEffect(d, s, u, n, count, f, a), s, userId, nickname)
  {
    var L, h, key := LeaderboardKey(s), UserDataKey(s, userId), UserKey(userId, nickname);
    var d' := LikeEffect(d, s, u, n, count, f, a);
    if count <= 0 {
      LikeWithoutPointsIsIgnored(d, s, u, n, count, f, a);
    } else if u == userId {
      LikeRecordsPoints(d, s, u, n, count, f, a);
      PointsAddUpAfterRaise(d, d', L, h, key, "points_from_likes", "points_from_gifts", LikePoints(count, f));
    } else {
      LikeFrame(d, s, u, n, count, f, a);
      LeaderboardKeyApart(s, userId);
      ViewerKeysInjective(s, userId, u);
      PointsAddUpUntouched(d, d', L, h, key, "points_from_likes", "points_from_gifts",
                           {L, UserDataKey(s, u)}, {UserKey(u, n)});
    }
  }

  lemma GiftKeepsScoreMatch(d: Keyspace, s: string, userId: string, nickname: string, u: string, n: string,
                            coin: int, gid: string, gname: string, q: int, a: Option<string>)
    requires ScoreMatchesStats(d, s, userId, nickname) && Compatible(Gift(u, n, coin, gid, gname, q, a), userId, nickname)
    ensures ScoreMatchesStats(GiftEffect(d, s, u, n, coin, gid, gname, q, a), s, userId, nickname)
  {
    var L, h, key := LeaderboardKey(s), UserDataKey(s, userId), UserKey(userId, nickname);
    var d' := GiftEffect(d, s, u, n, coin, gid, gname, q, a);
    if u == userId {
      GiftRecordsPoints(d, s, u, n, coin, gid, gname, q, a);
      PointsAddUpAfterRaise(d, d', L, h, key, "points_from_gifts", "points_from_likes", GiftPoints(coin, q) as real);
    } else {
      GiftFrame(d, s, u, n, coin, gid, gname, q, a);
      LeaderboardKeyApart(s, userId);
      ViewerKeysInjective(s, userId, u);
      ViewerKeysApart(s, userId, u);
      PointsAddUpUntouched(d, d', L, h, key, "points_from_likes", "points_from_gifts",
                           {L, UserDataKey(s, u), UserGiftsKey(s, u)}, {UserKey(u, n)});
    }
  }

  lemma CommentKeepsScoreMatch(d: Keyspace, s: string, userId: string, nickname: string,
                               u: string, t: string, n: Option<string>, a: Option<string>)
    requires ScoreMatchesStats(d, s, userId, nickname)
    ensures ScoreMatchesStats(CommentEffect(d, s, u, t, n, a), s, userId, nickname)
  {
    var L, h, key := LeaderboardKey(s), UserDataKey(s, userId), UserKey(userId, nickname);
    var d' := CommentEffect(d, s, u, t, n, a);
    CommentFrame(d, s, u, t, n, a);
    LeaderboardKeyApart(s, u);
    OtherKeyUnchanged(d, d', {UserDataKey(s, u), CommentsKey(s, u)}, L);
    if u == userId {
      CommentKeepsPoints(d, s, u, t, n, a);
      PointsAddUpAfterRaise(d, d', L, h, key, "points_from_likes", "points_from_gifts", 0.0);
    } else {
      ViewerKeysInjective(s, userId, u);
      ViewerKeysApart(s, userId, u);
      PointsAddUpUntouched(d, d', L, h, key, "points_from_likes", "points_from_gifts",
                           {UserDataKey(s, u), CommentsKey(s, u)}, {});
    }
  }

  /** One compatible call keeps the viewer's score equal to their points. */
  lemma CallKeepsScoreMatch(d: Keyspace, s: string, userId: string, nickname: string, c: Call)
    requires ScoreMatchesStats(d, s, userId, nickname) && Compatible(c, userId, nickname)
    ensures ScoreMatchesStats(CallEffect(d, s, c), s, userId, nickname)
  {
    match c
    case Like(u, n, count, f, a) => LikeKeepsScoreMatch(d, s, userId, nickname, u, n, count, f, a);
    case Gift(u, n, coin, gid, gname, q, a) => GiftKeepsScoreMatch(d, s, userId, nickname, u, n, coin, gid, gname, q, a);
    case Comment(u, t, n, a) => CommentKeepsScoreMatch(d, s, userId, nickname, u, t, n, a);
  }

  /** Through any sequence of compatible calls, the viewer's score stays the
      sum of their like points and gift points. */
  lemma {:induction false} ScoreMatchesStatsThroughout(d: Keyspace, s: string, userId: string, nickname: string,
                                                       calls: seq<Call>)
    requires ScoreMatchesStats(d, s, userId, nickname)
    requires forall i :: 0 <= i < |calls| ==> Compatible(calls[i], userId, nickname)
    ensures ScoreMatchesStats(CallsEffect(d, s, calls), s, userId, nickname)
  {
    if calls != [] {
      var init := calls[..|calls| - 1];
      ScoreMatchesStatsThroughout(d, s, userId, nickname, init);
      CallKeepsScoreMatch(CallsEffect(d, s, init), s, userId, nickname, calls[|calls| - 1]);
    }
  }

  /** In a session whose keys are all gone (a new or reset session) every
      viewer's score matches their statistics. */
  lemma ClearedSessionScoreMatches(d: Keyspace, s: string, userId: string, nickname: string)
    requires forall k :: k in d ==> !StartsWith(k, SessionPrefix(s))
    ensures ScoreMatchesStats(d, s, userId, nickname)
  {
    SessionKeysUnderPrefix(s, userId);
  }

  /** A viewer who likes under a second nickname gets a second member: the
      score under the first nickname stops matching their statistics. */
  lemma SecondNicknameBreaksScoreMatch(d: Keyspace, s: string, userId: string, first: string, second: string,
                                       likeCount: int, isFollower: bool, avatarUrl: Option<string>)
    requires first != second && likeCount > 0
    requires ScoreMatchesStats(d, s, userId, first)
    ensures !ScoreMatchesStats(LikeEffect(d, s, userId, second, likeCount, isFollower, avatarUrl), s, userId, first)
  {
    var d' := LikeEffect(d, s, userId, second, likeCount, isFollower, avatarUrl);
    var L, h := LeaderboardKey(s), UserDataKey(s, userId);
    LikePointsPositive(likeCount, isFollower);
    LikeRecordsPoints(d, s, userId, second, likeCount, isFollower, avatarUrl);
    LikeRaisesScore(d, s, userId, second, likeCount, isFollower, avatarUrl);
    assert UserKey(userId, first) != UserKey(userId, second) by {
      assert UserKey(userId, first)[|userId| + 1..] == first;
    }
    AgreeOutside(ZScores(d, L), ZScores(d', L), {UserKey(userId, second)}, UserKey(userId, first));
  }

  /** In a fresh session, ten likes under one nickname and ten under another
      leave the first member's score short of the recorded like points. */
  lemma NicknameChangeBreaksScoreMatch(s: string, userId: string, first: string, second: string)
    requires first != second
    ensures var d := CallsEffect(map[], s, [Like(userId, first, 10, true, None), Like(userId, second, 10, true, None)]);
      !ScoreMatchesStats(d, s, userId, first)
  {
    var c1, c2 := Like(userId, first, 10, true, None), Like(userId, second, 10, true, None);
    var d0: Keyspace := map[];
    var d1 := CallsEffect(d0, s, [c1]);
    assert [c1, c2][..1] == [c1] && [c1][..0] == [];
    assert d1 == CallEffect(CallsEffect(d0, s, []), s, c1);
    ClearedSessionScoreMatches(d0, s, userId, first);
    CallKeepsScoreMatch(d0, s, userId, first, c1);
    SecondNicknameBreaksScoreMatch(d1, s, userId, first, second, 10, true, None);
  }

  // ---------------------------------------------------------------------
  // Leaderboard members, comment order

  /** Every leaderboard member splits into an id and a nickname. */
  ghost predicate MembersSplittable(d: Keyspace, s: string) {
    forall k :: k in ZScores(d, LeaderboardKey(s)) ==> '|' in k
  }

  /** Replacing at most one member, itself splittable, keeps every member
      splittable. */
  lemma SplittableAfterOneMember(z: map<string, real>, z': map<string, real>, key: string)
    requires forall k :: k in z ==> '|' in k
    requires z' - {key} == z - {key} && '|' in key
    ensures forall k :: k in z' ==> '|' in k
  {
    forall k | k in z'
      ensures '|' in k
    {
      if k != key {
        AgreeOutside(z, z', {key}, k);
      }
    }
  }

  /** Members only ever come from `UserKey`, so the read of the top five never
      meets a member it cannot split. */
  lemma CallKeepsMembersSplittable(d: Keyspace, s: string, c: Call)
    requires MembersSplittable(d, s)
    ensures MembersSplittable(CallEffect(d, s, c), s)
  {
    var L, d' := LeaderboardKey(s), CallEffect(d, s, c);
    match c
    case Like(u, n, count, f, a) =>
      LikeFrame(d, s, u, n, count, f, a);
      assert UserKey(u, n)[|u|] == '|';
      SplittableAfterOneMember(ZScores(d, L), ZScores(d', L), UserKey(u, n));
    case Gift(u, n, coin, gid, gname, q, a) =>
      GiftFrame(d, s, u, n, coin, gid, gname, q, a);
      assert UserKey(u, n)[|u|] == '|';
      SplittableAfterOneMember(ZScores(d, L), ZScores(d', L), UserKey(u, n));
    case Comment(u, t, n, a) =>
      CommentFrame(d, s, u, t, n, a);
      LeaderboardKeyApart(s, u);
      OtherKeyUnchanged(d, d', {UserDataKey(s, u), CommentsKey(s, u)}, L);
  }

  /** The texts of the comments `calls` make for one viewer, in order. */
  function CommentTexts(calls: seq<Call>, userId: string): (texts: seq<string>)
    ensures |texts| <= |calls|
  {
    if calls == [] then []
    else
      var last := calls[|calls| - 1];
      CommentTexts(calls[..|calls| - 1], userId)
        + (if last.Comment? && last.userId == userId then [last.text] else [])
  }

  /** Reading a viewer's comments back gives them in the order they arrived,
      whatever likes, gifts and other viewers' comments came in between. */
  lemma {:induction false} CommentsReadBackInOrder(d: Keyspace, s: string, userId: string, calls: seq<Call>)
    requires ListOrAbsent(d, CommentsKey(s, userId))
    ensures ListOrAbsent(CallsEffect(d, s, calls), CommentsKey(s, userId))
    ensures LItems(CallsEffect(d, s, calls), CommentsKey(s, userId))
            == LItems(d, CommentsKey(s, userId)) + CommentTexts(calls, userId)
  {
    if calls != [] {
      var init := calls[..|calls| - 1];
      var prev := CallsEffect(d, s, init);
      CommentsReadBackInOrder(d, s, userId, init);
      CallAppendsOwnComment(prev, s, userId, calls[|calls| - 1]);
    }
  }

  /** One call appends to the viewer's comment list exactly when it is a
      comment of theirs. */
  lemma CallAppendsOwnComment(d: Keyspace, s: string, userId: string, c: Call)
    requires ListOrAbsent(d, CommentsKey(s, userId))
    ensures ListOrAbsent(CallEffect(d, s, c), CommentsKey(s, userId))
    ensures LItems(CallEffect(d, s, c), CommentsKey(s, userId))
            == LItems(d, CommentsKey(s, userId)) + (if c.Comment? && c.userId == userId then [c.text] else [])
  {
    var cs, d' := CommentsKey(s, userId), CallEffect(d, s, c);
    match c
    case Like(u, n, count, f, a) =>
      LikeKeepsComments(d, s, userId, u, n, count, f, a);
    case Gift(u, n, coin, gid, gname, q, a) =>
      GiftKeepsComments(d, s, userId, u, n, coin, gid, gname, q, a);
    case Comment(u, t, n, a) =>
      if u == userId {
        CommentAppends(d, s, u, t, n, a);
      } else {
        CommentFrame(d, s, u, t, n, a);
        ViewerKeysApart(s, u, userId);
        ViewerKeysInjective(s, userId, u);
        OtherKeyUnchanged(d, d', {UserDataKey(s, u), CommentsKey(s, u)}, cs);
      }
  }

  lemma LikeKeepsComments(d: Keyspace, s: string, userId: string,
                          u: string, n: string, count: int, f: bool, a: Option<string>)
    ensures var d' := LikeEffect(d, s, u, n, count, f, a);
      && ListOrAbsent(d', CommentsKey(s, userId)) == ListOrAbsent(d, CommentsKey(s, userId))
      && LItems(d', CommentsKey(s, userId)) == LItems(d, CommentsKey(s, userId))
  {
    LikeFrame(d, s, u, n, count, f, a);
    LeaderboardKeyApart(s, userId);
    ViewerKeysApart(s, u, userId);
    OtherKeyUnchanged(d, LikeEffect(d, s, u, n, count, f, a), {LeaderboardKey(s), UserDataKey(s, u)}, CommentsKey(s, userId));
  }

  lemma GiftKeepsComments(d: Keyspace, s: string, userId: string, u: string, n: string,
                          coin: int, gid: string, gname: string, q: int, a: Option<string>)
    ensures var d' := GiftEffect(d, s, u, n, coin, gid, gname, q, a);
      && ListOrAbsent(d', CommentsKey(s, userId)) == ListOrAbsent(d, CommentsKey(s, userId))
      && LItems(d', CommentsKey(s, userId)) == LItems(d, CommentsKey(s, userId))
  {
    GiftFrame(d, s, u, n, coin, gid, gname, q, a);
    LeaderboardKeyApart(s, userId);
    ViewerKeysApart(s, u, userId);
    OtherKeyUnchanged(d, GiftEffect(d, s, u, n, coin, gid, gname, q, a),
                      {LeaderboardKey(s), UserDataKey(s, u), UserGiftsKey(s, u)}, CommentsKey(s, userId));
  }

  // ---------------------------------------------------------------------
  // Reads

  /** When exactly one breakdown field carries a gift's name, the entry under
      that name reports that field's id and count. */
  lemma BreakdownOfUniqueName(gifts: map<string, Field>, breakdown: map<string, GiftCount>, field: string)
    requires IsBreakdown(gifts, breakdown) && field in gifts
    requires forall k :: k in gifts && GiftNameOf(k) == GiftNameOf(field) ==> k == field
    ensures GiftNameOf(field) in breakdown
    ensures breakdown[GiftNameOf(field)] == GiftCount(GiftIdOf(field), IntValue(gifts, field))
  {
  }
}
