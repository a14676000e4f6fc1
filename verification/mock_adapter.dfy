/** The replay adapter: recorded live events, one per line, fed to the
    scoring service and the data service. The per-line guards and field
    extraction are the pure function `Dispatch`; the data-service calls a
    line makes are values of `DataRequest`; the adapter object keeps the
    scoring switch and runs one pass over the lines. */
module Replay {
  import opened Wrappers
  import opened Strings
  import opened Redis
  import opened Scoring
  import opened ScoringProperties
  import Data

  /** A viewer object of an event payload; an object missing from the
      payload reads as one with no keys. */
  datatype Author = Author(id: Option<string>, nickName: Option<string>, mUrls: Option<seq<string>>,
                           urlList: Option<seq<string>>, followStatus: Option<int>)

  datatype GiftInfo = GiftInfo(diamondCount: Option<int>, id: Option<string>, name: Option<string>)

  /** The payload keys the adapter reads; `None` is a key that is absent. */
  datatype Payload = Payload(userInfo: Author, user: Author, fromUser: Author, content: Option<string>,
                             count: Option<int>, mGift: GiftInfo, repeatCount: Option<int>)

  /** One line of the recording: blank, not a JSON object, or an event. */
  datatype Line = Blank | Malformed | Event(eventType: Option<string>, payload: Option<Payload>)

  function OrDefault<T>(o: Option<T>, default: T): T {
    if o.Some? then o.value else default
  }

  /** The first URL of an avatar list, "" when the list is absent; an empty
      list raises, which abandons the line. */
  function FirstUrl(urls: Option<seq<string>>): Result<string> {
    if urls.None? then Ok("")
    else if |urls.value| == 0 then Err("list index out of range")
    else Ok(urls.value[0])
  }

  /** The scoring call a line leads to, if its guards let it through: a call
      of the line's own kind, from a named viewer with an avatar, with a
      non-empty comment text, a positive like count, or a positive coin value
      and quantity. */
  function Dispatch(line: Line): (c: Option<Call>)
    ensures c.Some? ==> line.Event? && line.eventType.Some? && line.payload.Some?
    ensures c.Some? ==> && (c.value.Comment? <==> line.eventType.value == "comment")
                        && (c.value.Like? <==> line.eventType.value == "like")
                        && (c.value.Gift? <==> line.eventType.value == "gift")
    ensures c.Some? ==> c.value.userId != "" && c.value.avatarUrl.Some?
    ensures c.Some? && c.value.Comment? ==> c.value.text != ""
    ensures c.Some? && c.value.Like? ==> c.value.nickname != "" && c.value.likeCount > 0
    ensures c.Some? && c.value.Gift? ==> c.value.nickname != "" && c.value.coinValue > 0 && c.value.quantity > 0
  {
    match line
    case Event(Some(t), Some(p)) =>
      if t == "comment" then
        var avatar := FirstUrl(p.userInfo.mUrls);
        if avatar.Ok? && Truthy(p.userInfo.id) && Truthy(p.content) then
          Some(Comment(p.userInfo.id.value, p.content.value, p.userInfo.nickName, Some(avatar.value)))
        else None
      else if t == "like" then
        var avatar := FirstUrl(p.user.urlList);
        var count := OrDefault(p.count, 0);
        if avatar.Ok? && Truthy(p.user.id) && Truthy(p.user.nickName) && count > 0 then
          Some(Like(p.user.id.value, p.user.nickName.value, count, OrDefault(p.user.followStatus, 0) == 1,
                    Some(avatar.value)))
        else None
      else if t == "gift" then
        var avatar := FirstUrl(p.fromUser.mUrls);
        var coinValue := OrDefault(p.mGift.diamondCount, 0);
        var quantity := OrDefault(p.repeatCount, 1);
        if avatar.Ok? && Truthy(p.fromUser.id) && Truthy(p.fromUser.nickName) && coinValue > 0 && quantity > 0 then
          Some(Gift(p.fromUser.id.value, p.fromUser.nickName.value, coinValue,
                    OrDefault(p.mGift.id, "Unknown"), OrDefault(p.mGift.name, "Unknown Gift"),
                    quantity, Some(avatar.value)))
        else None
      else None
    case _ => None
  }

  // ---------------------------------------------------------------------
  // The guards, one event kind at a time

  /** A like goes through exactly when the viewer has an id and a nickname,
      the count (0 when absent) is positive and the avatar list is not empty;
      the viewer counts as a follower exactly when the follow status (0 when
      absent) is 1. */
  lemma LikeGuard(p: Payload)
    ensures var c := Dispatch(Event(Some("like"), Some(p)));
      && (c.Some? <==> Truthy(p.user.id) && Truthy(p.user.nickName) && OrDefault(p.count, 0) > 0
                       && FirstUrl(p.user.urlList).Ok?)
      && (c.Some? ==> c.value.Like? && c.value.userId == p.user.id.value && c.value.nickname == p.user.nickName.value
                      && c.value.likeCount == p.count.value
                      && (c.value.isFollower <==> p.user.followStatus == Some(1)))
  {
  }

  /** A gift goes through exactly when the sender has an id and a nickname,
      the coin value (0 when absent) and the quantity (1 when absent) are
      positive and the avatar list is not empty; a missing id or name reads
      as "Unknown" or "Unknown Gift". */
  lemma GiftGuard(p: Payload)
    ensures var c := Dispatch(Event(Some("gift"), Some(p)));
      && (c.Some? <==> Truthy(p.fromUser.id) && Truthy(p.fromUser.nickName) && OrDefault(p.mGift.diamondCount, 0) > 0
                       && OrDefault(p.repeatCount, 1) > 0 && FirstUrl(p.fromUser.mUrls).Ok?)
      && (c.Some? ==> c.value.Gift? && c.value.userId == p.fromUser.id.value
                      && c.value.coinValue == p.mGift.diamondCount.value
                      && (p.repeatCount.None? ==> c.value.quantity == 1)
                      && (p.mGift.id.None? ==> c.value.giftId == "Unknown")
                      && (p.mGift.name.None? ==> c.value.giftName == "Unknown Gift"))
  {
  }

  /** A comment goes through exactly when the viewer has an id, the text is
      not empty and the avatar list is not empty; no nickname is needed. */
  lemma CommentGuard(p: Payload)
    ensures var c := Dispatch(Event(Some("comment"), Some(p)));
      && (c.Some? <==> Truthy(p.userInfo.id) && Truthy(p.content) && FirstUrl(p.userInfo.mUrls).Ok?)
      && (c.Some? ==> c == Some(Comment(p.userInfo.id.value, p.content.value, p.userInfo.nickName,
                                        Some(FirstUrl(p.userInfo.mUrls).value))))
  {
  }

  /** Blank and malformed lines, events without a payload and events of any
      other type lead to no call. */
  lemma OtherLinesIgnored(line: Line)
    requires || line.Blank? || line.Malformed? || (line.Event? && line.payload.None?)
             || (line.Event? && line.eventType !in {Some("comment"), Some("like"), Some("gift")})
    ensures Dispatch(line) == None
  {
  }

  // ---------------------------------------------------------------------
  // Data-service calls

  /** A call the adapter makes on the data service, with the arguments bound
      to the parameter names of the called operation. */
  datatype DataRequest =
    | UpsertUser(tiktokId: string, nickname: Option<string>, avatarUrl: Option<string>)
    | SaveComment(userId: string, sessionId: string, content: string)
    | UpsertGift(giftId: string, name: string, diamondCount: int, imageUrl: Option<string>)
    | SaveGift(userId: string, giftId: string, giftName: string, coinValue: int, quantity: int, sessionId: string)

  /** `SaveGift` names an operation the data service does not have. */
  predicate Supported(q: DataRequest) {
    !q.SaveGift?
  }

  /** The data-service calls before the scoring call, as the source writes
      them: the comment's text and the session id reach `save_comment` in
      each other's places, and a gift is handed to `save_gift`. */
  function RequestsAsWritten(c: Call, s: string): seq<DataRequest> {
    match c
    case Comment(u, t, n, a) => [UpsertUser(u, n, a), SaveComment(u, t, s)]
    case Like(u, n, _, _, a) => [UpsertUser(u, Some(n), a)]
    case Gift(u, n, coin, gid, gname, q, a) => [UpsertUser(u, Some(n), a), SaveGift(u, gid, gname, coin, q, s)]
  }

  /** The same with the gift recorded in the catalogue instead. */
  function Requests(c: Call, s: string): (qs: seq<DataRequest>)
    ensures forall i :: 0 <= i < |qs| ==> Supported(qs[i])
    ensures !c.Gift? ==> qs == RequestsAsWritten(c, s)
  {
    match c
    case Gift(u, n, coin, gid, gname, _, a) => [UpsertUser(u, Some(n), a), UpsertGift(gid, gname, coin, None)]
    case _ => RequestsAsWritten(c, s)
  }

  /** The scoring call, if every data-service call before it returns. */
  function Reached(qs: seq<DataRequest>, c: Call): Option<Call> {
    if forall i :: 0 <= i < |qs| ==> Supported(qs[i]) then Some(c) else None
  }

  function RequestEffect(t: Data.Tables, q: DataRequest, now: int): Data.Tables {
    match q
    case UpsertUser(id, n, a) => t.(users := Data.UserUpserted(t.users, id, n, a, now))
    case SaveComment(u, s, content) =>
      t.(comments := t.comments + [Data.Comment(t.nextCommentId, u, s, content, now, false)],
         nextCommentId := t.nextCommentId + 1)
    case UpsertGift(g, name, dc, img) => t.(gifts := Data.GiftUpserted(t.gifts, g, name, dc, img, now))
    case SaveGift(_, _, _, _, _, _) => t
  }

  /** The tables after the calls, up to the first one that raises. */
  function RequestsEffect(t: Data.Tables, qs: seq<DataRequest>, now: int): Data.Tables
    decreases |qs|
  {
    if qs == [] || !Supported(qs[0]) then t else RequestsEffect(RequestEffect(t, qs[0], now), qs[1..], now)
  }

  lemma OneRequestEffect(t: Data.Tables, q: DataRequest, now: int)
    requires Supported(q)
    ensures RequestsEffect(t, [q], now) == RequestEffect(t, q, now)
  {
    assert [q][1..] == [];
  }

  lemma TwoRequestsEffect(t: Data.Tables, q1: DataRequest, q2: DataRequest, now: int)
    requires Supported(q1) && Supported(q2)
    ensures RequestsEffect(t, [q1, q2], now) == RequestEffect(RequestEffect(t, q1, now), q2, now)
  {
    assert [q1, q2][1..] == [q2];
    OneRequestEffect(RequestEffect(t, q1, now), q2, now);
  }

  // ---------------------------------------------------------------------
  // The gift path as written

  /** As written, a gift never reaches the scoring service: the call before
      it raises, and the line is abandoned. */
  lemma GiftNeverScoredAsWritten(c: Call, s: string)
    requires c.Gift?
    ensures Reached(RequestsAsWritten(c, s), c) == None
  {
    assert !Supported(RequestsAsWritten(c, s)[1]);
  }

  /** A well-formed gift line that passes every guard and is still not scored. */
  lemma GiftLineNotScored()
    ensures var p := Payload(Author(None, None, None, None, None), Author(None, None, None, None, None),
                             Author(Some("u1"), Some("Ann"), None, None, None), None, None,
                             GiftInfo(Some(1), Some("5655"), Some("Rose")), Some(1));
      var line := Event(Some("gift"), Some(p));
      && Dispatch(line) == Some(Gift("u1", "Ann", 1, "5655", "Rose", 1, Some("")))
      && Reached(RequestsAsWritten(Dispatch(line).value, "default"), Dispatch(line).value) == None
  {
    GiftNeverScoredAsWritten(Gift("u1", "Ann", 1, "5655", "Rose", 1, Some("")), "default");
  }

  /** With the gift recorded in the catalogue instead, a gift line that
      passes the guards reaches the scoring service and raises the sender's
      member by the gift's points. */
  lemma GiftLineScored(line: Line, d: Keyspace, s: string)
    requires Dispatch(line).Some? && Dispatch(line).value.Gift?
    requires ZSetOrAbsent(d, LeaderboardKey(s))
    ensures var c := Dispatch(line).value;
      var key := UserKey(c.userId, c.nickname);
      && Reached(Requests(c, s), c) == Some(c)
      && key in ZScores(CallEffect(d, s, c), LeaderboardKey(s))
      && Score(CallEffect(d, s, c), LeaderboardKey(s), key)
         == Score(d, LeaderboardKey(s), key) + GiftPoints(c.coinValue, c.quantity) as real
  {
    var c := Dispatch(line).value;
    GiftRaisesScore(d, s, c.userId, c.nickname, c.coinValue, c.giftId, c.giftName, c.quantity, c.avatarUrl);
  }

  /** The comment row the replay saves carries the comment text as its
      session id and the session id as its content, so the viewer's comments
      in the session do not list it (unless the text is the session id). */
  lemma CommentRowSwapped(t: Data.Tables, u: string, text: string, n: Option<string>, a: Option<string>,
                          s: string, now: int)
    requires text != s
    ensures var t' := RequestsEffect(t, Requests(Comment(u, text, n, a), s), now);
      && t'.comments == t.comments + [Data.Comment(t.nextCommentId, u, text, s, now, false)]
      && Data.UnusedFor(t'.comments, u, s) == Data.UnusedFor(t.comments, u, s)
  {
    TwoRequestsEffect(t, UpsertUser(u, n, a), SaveComment(u, text, s), now);
    var row := Data.Comment(t.nextCommentId, u, text, s, now, false);
    assert (t.comments + [row])[..|t.comments|] == t.comments;
  }

  // ---------------------------------------------------------------------
  // A pass over the recording

  /** The scoring calls one pass makes, in order. */
  function Calls(lines: seq<Line>, active: bool): (calls: seq<Call>)
    ensures |calls| <= |lines|
  {
    if lines == [] then []
    else
      var last := Dispatch(lines[|lines| - 1]);
      Calls(lines[..|lines| - 1], active) + (if active && last.Some? then [last.value] else [])
  }

  /** The tables after one pass, line `i` handled at `clock[i]`. */
  function PassTables(t: Data.Tables, s: string, lines: seq<Line>, clock: seq<int>, active: bool): Data.Tables
    requires |clock| == |lines|
  {
    if lines == [] then t
    else
      var t' := PassTables(t, s, lines[..|lines| - 1], clock[..|lines| - 1], active);
      var c := Dispatch(lines[|lines| - 1]);
      if active && c.Some? then RequestsEffect(t', Requests(c.value, s), clock[|lines| - 1]) else t'
  }

  /** The store after handling `line`: its call's effect, if any. */
  function LineStore(d: Keyspace, s: string, line: Line, active: bool): Keyspace
  {
    var c := Dispatch(line);
    if active && c.Some? then CallEffect(d, s, c.value) else d
  }

  /** The tables after handling `line` at time `now`. */
  function LineTables(t: Data.Tables, s: string, line: Line, now: int, active: bool): Data.Tables
  {
    var c := Dispatch(line);
    if active && c.Some? then RequestsEffect(t, Requests(c.value, s), now) else t
  }

  /** The store after the first `n` lines, one line at a time. */
  ghost function StoreAfter(d: Keyspace, s: string, lines: seq<Line>, active: bool, n: nat): Keyspace
    requires n <= |lines|
  {
    if n == 0 then d else LineStore(StoreAfter(d, s, lines, active, n - 1), s, lines[n - 1], active)
  }

  /** The tables after the first `n` lines, one line at a time. */
  ghost function TablesAfter(t: Data.Tables, s: string, lines: seq<Line>, clock: seq<int>, active: bool, n: nat): Data.Tables
    requires |clock| == |lines| && n <= |lines|
  {
    if n == 0 then t else LineTables(TablesAfter(t, s, lines, clock, active, n - 1), s, lines[n - 1], clock[n - 1], active)
  }

  lemma {:induction false} StoreAfterIsPass(d: Keyspace, s: string, lines: seq<Line>, active: bool, n: nat)
    requires n <= |lines|
    ensures StoreAfter(d, s, lines, active, n) == CallsEffect(d, s, Calls(lines[..n], active))
  {
    if n > 0 {
      StoreAfterIsPass(d, s, lines, active, n - 1);
      PassStoreStep(d, s, lines, active, n);
    }
  }

  lemma {:induction false} TablesAfterIsPass(t: Data.Tables, s: string, lines: seq<Line>, clock: seq<int>, active: bool, n: nat)
    requires |clock| == |lines| && n <= |lines|
    ensures TablesAfter(t, s, lines, clock, active, n) == PassTables(t, s, lines[..n], clock[..n], active)
  {
    if n > 0 {
      TablesAfterIsPass(t, s, lines, clock, active, n - 1);
      PassTablesStep(t, s, lines, clock, active, n);
    }
  }

  /** Extending a pass by one line adds that line's call, if any. */
  lemma CallsStep(lines: seq<Line>, active: bool, n: nat)
    requires 0 < n <= |lines|
    ensures var c := Dispatch(lines[n - 1]);
      Calls(lines[..n], active) == Calls(lines[..n - 1], active) + (if active && c.Some? then [c.value] else [])
  {
    assert lines[..n][..n - 1] == lines[..n - 1];
  }

  /** Extending a pass by one line applies that line's call to the store, if any. */
  lemma PassStoreStep(d: Keyspace, s: string, lines: seq<Line>, active: bool, n: nat)
    requires 0 < n <= |lines|
    ensures CallsEffect(d, s, Calls(lines[..n], active))
      == LineStore(CallsEffect(d, s, Calls(lines[..n - 1], active)), s, lines[n - 1], active)
  {
    var c := Dispatch(lines[n - 1]);
    CallsStep(lines, active, n);
    if active && c.Some? {
      CallsEffectSnoc(d, s, Calls(lines[..n - 1], active), c.value);
    } else {
      assert Calls(lines[..n - 1], active) + [] == Calls(lines[..n - 1], active);
    }
  }

  lemma CallsEffectSnoc(d: Keyspace, s: string, calls: seq<Call>, c: Call)
    ensures CallsEffect(d, s, calls + [c]) == CallEffect(CallsEffect(d, s, calls), s, c)
  {
    assert (calls + [c])[..|calls|] == calls;
  }

  /** Extending a pass by one line applies that line's data-service calls, if any. */
  lemma PassTablesStep(t: Data.Tables, s: string, lines: seq<Line>, clock: seq<int>, active: bool, n: nat)
    requires |clock| == |lines| && 0 < n <= |lines|
    ensures PassTables(t, s, lines[..n], clock[..n], active)
      == LineTables(PassTables(t, s, lines[..n - 1], clock[..n - 1], active), s, lines[n - 1], clock[n - 1], active)
  {
    assert lines[..n][..n - 1] == lines[..n - 1] && clock[..n][..n - 1] == clock[..n - 1];
  }

  /** With scoring switched off, a pass makes no call and leaves both stores
      as they were. */
  lemma {:induction false} InactivePassIsNoOp(t: Data.Tables, s: string, lines: seq<Line>, clock: seq<int>)
    requires |clock| == |lines|
    ensures Calls(lines, false) == []
    ensures PassTables(t, s, lines, clock, false) == t
  {
    if lines != [] {
      InactivePassIsNoOp(t, s, lines[..|lines| - 1], clock[..|lines| - 1]);
    }
  }

  /** The calls of two passes over consecutive parts of a recording are
      the calls of one pass over the whole. */
  lemma {:induction false} CallsAppend(a: seq<Line>, b: seq<Line>, active: bool)
    ensures Calls(a + b, active) == Calls(a, active) + Calls(b, active)
    decreases |b|
  {
    if b == [] {
      assert a + b == a;
    } else {
      var b' := b[..|b| - 1];
      assert (a + b)[..|a + b| - 1] == a + b';
      CallsAppend(a, b', active);
    }
  }

  /** A replay keeps a viewer's leaderboard score equal to the points in
      their statistics, as long as no line carries their id under another
      nickname or another viewer's key collides with theirs. */
  lemma ReplayKeepsScoreMatch(d: Keyspace, s: string, lines: seq<Line>, active: bool, userId: string,
                              nickname: string)
    requires ScoreMatchesStats(d, s, userId, nickname)
    requires forall i :: 0 <= i < |lines| && Dispatch(lines[i]).Some? ==> Compatible(Dispatch(lines[i]).value, userId, nickname)
    ensures ScoreMatchesStats(CallsEffect(d, s, Calls(lines, active)), s, userId, nickname)
  {
    CallsCompatible(lines, active, userId, nickname);
    ScoreMatchesStatsThroughout(d, s, userId, nickname, Calls(lines, active));
  }

  lemma {:induction false} CallsCompatible(lines: seq<Line>, active: bool, userId: string, nickname: string)
    requires forall i :: 0 <= i < |lines| && Dispatch(lines[i]).Some? ==> Compatible(Dispatch(lines[i]).value, userId, nickname)
    ensures forall i :: 0 <= i < |Calls(lines, active)| ==> Compatible(Calls(lines, active)[i], userId, nickname)
  {
    if lines != [] {
      var init := lines[..|lines| - 1];
      assert forall i :: 0 <= i < |init| ==> init[i] == lines[i];
      CallsCompatible(init, active, userId, nickname);
    }
  }

  /** A replay leaves every viewer's comment list as it was followed by the
      texts of their comment lines, in recording order. */
  lemma ReplayCommentsInOrder(d: Keyspace, s: string, lines: seq<Line>, active: bool, userId: string)
    requires ListOrAbsent(d, CommentsKey(s, userId))
    ensures LItems(CallsEffect(d, s, Calls(lines, active)), CommentsKey(s, userId))
            == LItems(d, CommentsKey(s, userId)) + CommentTexts(Calls(lines, active), userId)
  {
    CommentsReadBackInOrder(d, s, userId, Calls(lines, active));
  }

  class MockLiveAdapter {
    const service: ScoringService
    const dataService: Data.DataService
    var isScoringActive: bool
    var isRunning: bool

    /** A stopped adapter with scoring switched on. */
    constructor (scoringService: ScoringService, dataService: Data.DataService)
      ensures service == scoringService && this.dataService == dataService
      ensures isScoringActive && !isRunning
    {
      service := scoringService;
      this.dataService := dataService;
      isScoringActive := true;
      isRunning := false;
    }

    method SetScoring(active: bool)
      modifies this`isScoringActive
      ensures isScoringActive == active
    {
      isScoringActive := active;
    }

    method Stop()
      modifies this`isRunning
      ensures !isRunning
    {
      isRunning := false;
    }

    /** Handles one line: skipped when blank or while scoring is off,
        otherwise the data-service calls and then the scoring call that
        `Dispatch` selects. */
    method HandleLine(line: Line, now: int)
      requires service.Valid() && dataService.Valid()
      modifies service.r, dataService
      ensures dataService.Valid()
      ensures service.r.data == LineStore(old(service.r.data), service.sessionId, line, isScoringActive)
      ensures dataService.Snapshot() == LineTables(old(dataService.Snapshot()), service.sessionId, line, now, isScoringActive)
    {
      if line.Blank? || !isScoringActive {
        return;
      }
      var call := Dispatch(line);
      if call.None? {
        return;
      }
      match call.value {
        case Comment(u, text, n, a) => ForwardComment(u, text, n, a, now);
        case Like(u, n, count, follower, a) => ForwardLike(u, n, count, follower, a, now);
        case Gift(u, n, coin, gid, gname, quantity, a) => ForwardGift(u, n, coin, gid, gname, quantity, a, now);
      }
    }

    /** Records the viewer and the comment row, then scores the comment. */
    method ForwardComment(u: string, text: string, n: Option<string>, a: Option<string>, now: int)
      requires service.Valid() && dataService.Valid()
      modifies service.r, dataService
      ensures dataService.Valid()
      ensures service.r.data == CommentEffect(old(service.r.data), service.sessionId, u, text, n, a)
      ensures dataService.Snapshot()
              == RequestsEffect(old(dataService.Snapshot()), [UpsertUser(u, n, a), SaveComment(u, text, service.sessionId)], now)
    {
      ghost var t := dataService.Snapshot();
      dataService.UpsertUser(u, n, a, now);
      // the text and the session id go in each other's places, as the adapter passes them
      dataService.SaveComment(u, text, service.sessionId, now);
      service.ProcessComment(u, text, n, a);
      TwoRequestsEffect(t, UpsertUser(u, n, a), SaveComment(u, text, service.sessionId), now);
    }

    /** Records the viewer, then scores the likes. */
    method ForwardLike(u: string, n: string, count: int, follower: bool, a: Option<string>, now: int)
      requires service.Valid() && dataService.Valid()
      modifies service.r, dataService
      ensures dataService.Valid()
      ensures service.r.data == LikeEffect(old(service.r.data), service.sessionId, u, n, count, follower, a)
      ensures dataService.Snapshot() == RequestsEffect(old(dataService.Snapshot()), [UpsertUser(u, Some(n), a)], now)
    {
      ghost var t := dataService.Snapshot();
      dataService.UpsertUser(u, Some(n), a, now);
      service.ProcessLike(u, n, count, follower, a);
      OneRequestEffect(t, UpsertUser(u, Some(n), a), now);
    }

    /** Records the viewer and the gift in the catalogue, then scores the gift. */
    method ForwardGift(u: string, n: string, coin: int, gid: string, gname: string, quantity: int, a: Option<string>,
                       now: int)
      requires service.Valid() && dataService.Valid()
      modifies service.r, dataService
      ensures dataService.Valid()
      ensures service.r.data == GiftEffect(old(service.r.data), service.sessionId, u, n, coin, gid, gname, quantity, a)
      ensures dataService.Snapshot()
              == RequestsEffect(old(dataService.Snapshot()), [UpsertUser(u, Some(n), a), UpsertGift(gid, gname, coin, None)], now)
    {
      ghost var t := dataService.Snapshot();
      dataService.UpsertUser(u, Some(n), a, now);
      dataService.UpsertGift(gid, gname, coin, None, now);
      service.ProcessGift(u, n, coin, gid, gname, quantity, a);
      TwoRequestsEffect(t, UpsertUser(u, Some(n), a), UpsertGift(gid, gname, coin, None), now);
    }

    /** One pass over the recording, line `i` handled at `clock[i]`. */
    method ReplayPass(lines: seq<Line>, clock: seq<int>)
      requires |clock| == |lines|
      requires service.Valid() && dataService.Valid()
      modifies this`isRunning, service.r, dataService
      ensures isRunning && dataService.Valid()
      ensures service.r.data == CallsEffect(old(service.r.data), service.sessionId, Calls(lines, isScoringActive))
      ensures dataService.Snapshot()
              == PassTables(old(dataService.Snapshot()), service.sessionId, lines, clock, isScoringActive)
    {
      isRunning := true;
      ghost var d0, t0 := service.r.data, dataService.Snapshot();
      ghost var active, s := isScoringActive, service.sessionId;
      var i := 0;
      while i < |lines|
        invariant 0 <= i <= |lines| && isRunning && dataService.Valid()
        invariant service.r.data == StoreAfter(d0, s, lines, active, i)
        invariant dataService.Snapshot() == TablesAfter(t0, s, lines, clock, active, i)
      {
        HandleLine(lines[i], clock[i]);
        i := i + 1;
      }
      StoreAfterIsPass(d0, s, lines, active, i);
      TablesAfterIsPass(t0, s, lines, clock, active, i);
      assert lines[..i] == lines && clock[..i] == clock;
    }
  }
}
