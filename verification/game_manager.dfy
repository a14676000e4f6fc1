/** The game manager: the flags of a live session (connected, scoring
    active), the current session and its scoring service, session reset,
    and picking a winner off the top of the leaderboard. */
module Game {
  import opened Wrappers
  import opened Strings
  import opened Redis
  import opened Scoring
  import opened ScoringProperties

  datatype SessionStatus = SessionStatus(sessionId: string, reset: bool)

  datatype StreamStatus = AlreadyConnected | Started(mode: string) | Stopped

  /** What `select_winner` reports about the viewer it takes off the board. */
  datatype Winner = Winner(
    userId: string, nickname: string, score: int,
    stats: map<string, Field>, comments: seq<string>, giftsBreakdown: map<string, GiftCount>)

  /** `w` is ranked first among the members of `z`. */
  ghost predicate IsTop(z: map<string, real>, w: string) {
    w in z && forall k :: k in z && k != w ==> Outranks(z, w, k)
  }

  /** The first member of a ZREVRANGE answer is the top-ranked member. */
  lemma RevRangeHeadIsTop(z: map<string, real>, count: nat, ms: seq<string>)
    requires IsRevRange(z, count, ms) && |ms| > 0
    ensures IsTop(z, ms[0])
  {
    forall k | k in z && k != ms[0]
      ensures Outranks(z, ms[0], k)
    {
      if k in ms {
        var j :| 0 <= j < |ms| && ms[j] == k;
        assert j > 0;
      }
    }
  }

  /** A ZREVRANGE answer with a positive count is empty only on an empty set. */
  lemma RevRangeEmptyOnlyIfNoMembers(z: map<string, real>, count: nat, ms: seq<string>)
    requires IsRevRange(z, count, ms) && count > 0 && ms == []
    ensures z == map[]
  {
    assert |z.Keys| == 0;
    assert z.Keys == {};
  }

  /** The top-ranked member has the highest score. */
  lemma TopHasHighestScore(z: map<string, real>, w: string)
    requires IsTop(z, w)
    ensures forall k :: k in z ==> z[k] <= z[w]
  {
  }

  /** Only one member can be ranked first. */
  lemma TopIsUnique(z: map<string, real>, w: string, v: string)
    requires IsTop(z, w) && IsTop(z, v)
    ensures w == v
  {
    if w != v {
      OutranksTransitive(z, w, v, w);
      OutranksIrreflexive(z, w);
    }
  }

  /** After the winner is removed, the runner-up is ranked first. */
  lemma RunnerUpMovesToTop(z: map<string, real>, w: string, v: string)
    requires IsTop(z, w) && v in z && v != w
    requires forall k :: k in z && k != w && k != v ==> Outranks(z, v, k)
    ensures IsTop(z - {w}, v)
  {
    var z' := z - {w};
    forall k | k in z' && k != v
      ensures Outranks(z', v, k)
    {
      assert Outranks(z, v, k);
    }
  }

  /** Deleting the keys under "session:{s}:" leaves no key of the session. */
  lemma ResetClearsSession(d: Keyspace, s: string)
    ensures forall k :: k in d - KeysWithPrefix(d, SessionPrefix(s)) ==> !StartsWith(k, SessionPrefix(s))
  {
  }

  /** Deleting the keys under "session:{s}:" leaves every key outside that
      prefix, and its value, as it was. */
  lemma ResetKeepsOtherKeys(d: Keyspace, s: string, k: string)
    requires k in d && !StartsWith(k, SessionPrefix(s))
    ensures k in d - KeysWithPrefix(d, SessionPrefix(s))
    ensures (d - KeysWithPrefix(d, SessionPrefix(s)))[k] == d[k]
  {
  }

  /** After a reset every viewer's score matches their statistics. */
  lemma ResetRestoresScoreMatch(d: Keyspace, s: string, userId: string, nickname: string)
    ensures ScoreMatchesStats(d - KeysWithPrefix(d, SessionPrefix(s)), s, userId, nickname)
  {
    ResetClearsSession(d, s);
    ClearedSessionScoreMatches(d - KeysWithPrefix(d, SessionPrefix(s)), s, userId, nickname);
  }

  /** The prefix "session:a:" also covers session "a:b": resetting "a" wipes
      the leaderboard of "a:b". */
  lemma ResetReachesNestedSession(d: Keyspace)
    requires LeaderboardKey("a:b") in d
    ensures LeaderboardKey("a:b") in KeysWithPrefix(d, SessionPrefix("a"))
    ensures LeaderboardKey("a:b") !in d - KeysWithPrefix(d, SessionPrefix("a"))
  {
    assert LeaderboardKey("a:b") == SessionPrefix("a") + "b:leaderboard";
  }

  class GameManager {
    const redis: RedisStore
    var currentSessionId: string
    var scoringService: ScoringService
    var isConnected: bool
    var isScoringActive: bool
    /** Whether a replay task is running (one is started in "mock" mode only). */
    var adapterRunning: bool

    /** The scoring service writes to the manager's store, for the current session. */
    predicate Valid()
      reads this, scoringService
    {
      && scoringService.r == redis
      && scoringService.sessionId == currentSessionId
      && scoringService.Valid()
    }

    /** A manager on the "default" session, disconnected and not scoring. */
    constructor (redisClient: RedisStore)
      ensures Valid() && redis == redisClient
      ensures currentSessionId == "default" && !isConnected && !isScoringActive && !adapterRunning
    {
      redis := redisClient;
      currentSessionId := "default";
      scoringService := new ScoringService(redisClient, "default");
      isConnected := false;
      isScoringActive := false;
      adapterRunning := false;
    }

    /** Switches to `sessionId` with a fresh scoring service; with `reset`,
        every key under "session:{sessionId}:" is deleted first. */
    method SetSession(sessionId: string, reset: bool) returns (status: SessionStatus)
      requires Valid()
      modifies this, redis
      ensures Valid() && currentSessionId == sessionId
      ensures isConnected == old(isConnected) && isScoringActive == old(isScoringActive)
      ensures adapterRunning == old(adapterRunning)
      ensures reset ==> redis.data == old(redis.data) - KeysWithPrefix(old(redis.data), SessionPrefix(sessionId))
      ensures !reset ==> redis.data == old(redis.data)
      ensures status == SessionStatus(sessionId, reset)
    {
      currentSessionId := sessionId;
      scoringService := new ScoringService(redis, currentSessionId);
      if reset {
        var keys := KeysWithPrefix(redis.data, "session:" + sessionId + ":");
        if keys != {} {
          redis.Delete(keys);
        }
      }
      return SessionStatus(sessionId, reset);
    }

    /** Connects and starts scoring, unless already connected. */
    method StartStream(targetId: string, mode: string) returns (status: StreamStatus)
      modifies this
      ensures old(isConnected) ==> status == AlreadyConnected && isScoringActive == old(isScoringActive)
      ensures old(isConnected) ==> adapterRunning == old(adapterRunning)
      ensures !old(isConnected) ==> status == Started(mode) && isScoringActive
      ensures !old(isConnected) ==> adapterRunning == (mode == "mock" || old(adapterRunning))
      ensures isConnected
      ensures currentSessionId == old(currentSessionId) && scoringService == old(scoringService)
    {
      if isConnected {
        return AlreadyConnected;
      }
      isConnected := true;
      isScoringActive := true;
      if mode == "mock" {
        adapterRunning := true;
      }
      return Started(mode);
    }

    /** `start_stream` as the code stands: in "mock" mode the adapter is built
        with two arguments where its constructor takes three, so the call fails
        after both flags are set, and no replay task is started. */
    method StartStreamAsWritten(targetId: string, mode: string) returns (res: Result<StreamStatus>)
      modifies this
      ensures old(isConnected) ==> res == Ok(AlreadyConnected) && isScoringActive == old(isScoringActive)
      ensures !old(isConnected) && mode == "mock" ==> res.Err? && isScoringActive
      ensures !old(isConnected) && mode != "mock" ==> res == Ok(Started(mode)) && isScoringActive
      ensures isConnected && adapterRunning == old(adapterRunning)
      ensures currentSessionId == old(currentSessionId) && scoringService == old(scoringService)
    {
      if isConnected {
        return Ok(AlreadyConnected);
      }
      isConnected := true;
      isScoringActive := true;
      if mode == "mock" {
        return Err("MockLiveAdapter.__init__() missing 1 required positional argument: 'mock_file_path'");
      }
      return Ok(Started(mode));
    }

    /** Cancels the replay task, if any, and clears both flags. */
    method StopStream() returns (status: StreamStatus)
      modifies this
      ensures status == Stopped && !isConnected && !isScoringActive && !adapterRunning
      ensures currentSessionId == old(currentSessionId) && scoringService == old(scoringService)
    {
      if adapterRunning {
        adapterRunning := false;
      }
      isConnected := false;
      isScoringActive := false;
      return Stopped;
    }

    /** Opens or closes scoring and reports the new setting. */
    method ToggleScoring(active: bool) returns (result: bool)
      modifies this`isScoringActive
      ensures isScoringActive == active && result == active
    {
      isScoringActive := active;
      return isScoringActive;
    }

    /** The session's top five, each entry read from the viewer's statistics. */
    method GetLeaderboard() returns (res: Result<seq<LeaderEntry>>)
      requires Valid()
      ensures res.Ok? ==> IsRevRange(ZScores(redis.data, LeaderboardKey(currentSessionId)), 5, UserKeys(res.value))
      ensures res.Ok? ==> forall i :: 0 <= i < |res.value| ==>
        '|' in res.value[i].userKey && res.value[i] == EntryFor(redis.data, currentSessionId, res.value[i].userKey)
      ensures res.Ok? ==> forall i, j :: 0 <= i < j < |res.value| ==> res.value[i].score >= res.value[j].score
      ensures (forall k :: k in ZScores(redis.data, LeaderboardKey(currentSessionId)) ==> '|' in k) ==> res.Ok?
      ensures forall top :: IsRevRange(ZScores(redis.data, LeaderboardKey(currentSessionId)), 5, top) ==>
        (res.Err? <==> exists k :: k in top && '|' !in k)
    {
      res := scoringService.GetTop5Leaderboard();
    }

    /** Stops scoring, then takes the top-ranked viewer off the leaderboard and
        reports their score and details; `None` on an empty leaderboard.
        Fails, with the store untouched, when the top-5 read fails. */
    method SelectWinner() returns (res: Result<Option<Winner>>)
      requires Valid()
      modifies this`isScoringActive, redis
      ensures !isScoringActive
      ensures var z := ZScores(old(redis.data), LeaderboardKey(currentSessionId));
        && (res.Err? ==> redis.data == old(redis.data))
        && (res.Ok? && res.value.None? ==> z == map[] && redis.data == old(redis.data))
        && (z == map[] ==> res == Ok(None))
        && (z != map[] && (forall k :: k in z ==> '|' in k) ==> res.Ok? && res.value.Some?)
        && (res.Err? ==> exists k :: k in z && '|' !in k)
        && (forall top :: IsRevRange(z, 5, top) ==> (res.Err? <==> exists k :: k in top && '|' !in k))
      ensures var z := ZScores(old(redis.data), LeaderboardKey(currentSessionId));
        res.Ok? && res.value.Some? ==>
          var w := res.value.value;
          var key := UserKey(w.userId, w.nickname);
          && IsTop(z, key)
          && SplitOnce(key, '|') == [w.userId, w.nickname]
          && redis.data == ZRemove(old(redis.data), LeaderboardKey(currentSessionId), key)
          && ZScores(redis.data, LeaderboardKey(currentSessionId)) == z - {key}
          && w.score == Trunc(z[key])
          && w.stats == HFields(old(redis.data), UserDataKey(currentSessionId, w.userId))
          && w.comments == LItems(old(redis.data), CommentsKey(currentSessionId, w.userId))
          && IsBreakdown(HFields(old(redis.data), UserGiftsKey(currentSessionId, w.userId)), w.giftsBreakdown)
    {
      isScoringActive := false;
      var top := scoringService.GetTop5Leaderboard();
      if top.Err? {
        return Err(top.message);
      }
      var topList := top.value;
      ghost var z := ZScores(redis.data, LeaderboardKey(currentSessionId));
      if |topList| == 0 {
        RevRangeEmptyOnlyIfNoMembers(z, 5, UserKeys(topList));
        return Ok(None);
      }
      var winnerEntry := topList[0];
      var userKey := winnerEntry.userKey;
      var parts := SplitOnce(userKey, '|');
      var userId, nickname := parts[0], parts[1];
      assert userKey == UserKey(userId, nickname);
      RevRangeHeadIsTop(z, 5, UserKeys(topList));
      var stats := scoringService.GetUserStatsAndComments(userId);
      redis.ZRem(scoringService.leaderboardKey, userKey);
      return Ok(Some(Winner(userId, nickname, winnerEntry.score, stats.stats, stats.comments, stats.giftsBreakdown)));
    }
  }
}
