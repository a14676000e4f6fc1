/** The relational side of the service: viewers, the gift catalogue and
    saved comments, with the upsert rules, the "used" mark on comments and
    the read of a viewer's unused comments, newest first. Each table is a
    field of `DataService`; the clock is the parameter `now`. */
module Data {
  import opened Wrappers
  import opened Strings

  datatype User = User(tiktokId: string, nickname: Option<string>, avatarUrl: Option<string>, createdAt: int, updatedAt: int)

  datatype Gift = Gift(giftId: string, name: string, imageUrl: Option<string>, diamondCount: int,
                       createdAt: int, updatedAt: int)

  datatype Comment = Comment(id: nat, userId: string, sessionId: string, content: string, timestamp: int, isUsed: bool)

  // ---------------------------------------------------------------------
  // Users

  /** The users table after `upsert_user`. */
  function UserUpserted(users: map<string, User>, tiktokId: string, nickname: Option<string>, avatarUrl: Option<string>,
                        now: int): (users': map<string, User>)
    ensures tiktokId in users' && users'[tiktokId].nickname == nickname
    ensures users'.Keys == users.Keys + {tiktokId} && users' - {tiktokId} == users - {tiktokId}
    ensures tiktokId !in users ==> users'[tiktokId] == User(tiktokId, nickname, avatarUrl, now, now)
    ensures tiktokId in users ==> users'[tiktokId].createdAt == users[tiktokId].createdAt
    ensures tiktokId in users && Truthy(avatarUrl) ==> users'[tiktokId].avatarUrl == avatarUrl
    ensures tiktokId in users && !Truthy(avatarUrl) ==> users'[tiktokId].avatarUrl == users[tiktokId].avatarUrl
    ensures (tiktokId in users && users[tiktokId].nickname == nickname
             && (!Truthy(avatarUrl) || users[tiktokId].avatarUrl == avatarUrl)) ==> users' == users
    ensures tiktokId in users && users' != users ==> users'[tiktokId].updatedAt == now
  {
    if tiktokId in users then
      var user := users[tiktokId];
      if user.nickname != nickname || (Truthy(avatarUrl) && user.avatarUrl != avatarUrl) then
        var avatar := if Truthy(avatarUrl) then avatarUrl else user.avatarUrl;
        users[tiktokId := user.(nickname := nickname, avatarUrl := avatar, updatedAt := now)]
      else users
    else
      users[tiktokId := User(tiktokId, nickname, avatarUrl, now, now)]
  }

  /** Repeating an upsert, at any later time, changes nothing. */
  lemma UserUpsertIdempotent(users: map<string, User>, tiktokId: string, nickname: Option<string>, avatarUrl: Option<string>,
                             now: int, later: int)
    ensures var once := UserUpserted(users, tiktokId, nickname, avatarUrl, now);
      UserUpserted(once, tiktokId, nickname, avatarUrl, later) == once
  {
  }

  // ---------------------------------------------------------------------
  // Gift catalogue

  /** The gifts table after `upsert_gift`. */
  function GiftUpserted(gifts: map<string, Gift>, giftId: string, name: string, diamondCount: int,
                        imageUrl: Option<string>, now: int): (gifts': map<string, Gift>)
    ensures giftId in gifts'
    ensures gifts'.Keys == gifts.Keys + {giftId} && gifts' - {giftId} == gifts - {giftId}
    ensures giftId !in gifts ==> gifts'[giftId] == Gift(giftId, name, imageUrl, diamondCount, now, now)
    ensures giftId in gifts ==> gifts'[giftId].name == gifts[giftId].name
    ensures giftId in gifts ==> gifts'[giftId].diamondCount == gifts[giftId].diamondCount
    ensures giftId in gifts ==> gifts'[giftId].createdAt == gifts[giftId].createdAt
    ensures giftId in gifts && gifts[giftId].imageUrl.Some? ==> gifts'[giftId] == gifts[giftId]
    ensures giftId in gifts && gifts[giftId].imageUrl.None? ==>
      gifts'[giftId].imageUrl == (if Truthy(imageUrl) then imageUrl else None)
  {
    if giftId !in gifts then
      gifts[giftId := Gift(giftId, name, imageUrl, diamondCount, now, now)]
    else if gifts[giftId].imageUrl.None? && Truthy(imageUrl) then
      gifts[giftId := gifts[giftId].(imageUrl := imageUrl, updatedAt := now)]
    else
      gifts
  }

  /** The first image stored for a gift stays: a later upsert with another
      image leaves the record as it was. */
  lemma FirstImageWins(gifts: map<string, Gift>, giftId: string, name: string, diamondCount: int,
                       first: string, name2: string, diamondCount2: int, second: Option<string>, now: int, later: int)
    requires giftId !in gifts && first != ""
    ensures var once := GiftUpserted(gifts, giftId, name, diamondCount, Some(first), now);
      && GiftUpserted(once, giftId, name2, diamondCount2, second, later) == once
      && once[giftId].imageUrl == Some(first)
  {
  }

  // ---------------------------------------------------------------------
  // Comments

  /** A viewer's unused comments in one session, in table order. */
  function UnusedFor(cs: seq<Comment>, userId: string, sessionId: string): (r: seq<Comment>)
    ensures |r| <= |cs|
    ensures forall c :: c in r <==> c in cs && c.userId == userId && c.sessionId == sessionId && !c.isUsed
  {
    if cs == [] then []
    else
      var last := cs[|cs| - 1];
      UnusedFor(cs[..|cs| - 1], userId, sessionId)
        + (if last.userId == userId && last.sessionId == sessionId && !last.isUsed then [last] else [])
  }

  /** The listing of the first `n` comments extends the listing of the first `n - 1`. */
  lemma UnusedForStep(cs: seq<Comment>, userId: string, sessionId: string, n: nat)
    requires 0 < n <= |cs|
    ensures var c := cs[n - 1];
      UnusedFor(cs[..n], userId, sessionId)
      == UnusedFor(cs[..n - 1], userId, sessionId) + (if c.userId == userId && c.sessionId == sessionId && !c.isUsed then [c] else [])
  {
    assert cs[..n][..n - 1] == cs[..n - 1];
  }

  /** Non-increasing timestamps. */
  predicate NewestFirst(cs: seq<Comment>) {
    forall i, j :: 0 <= i < j < |cs| ==> cs[i].timestamp >= cs[j].timestamp
  }

  /** Comment `commentId`, wherever it is, marked as used. */
  function MarkUsed(cs: seq<Comment>, commentId: nat): (r: seq<Comment>)
    ensures |r| == |cs|
    ensures forall i :: 0 <= i < |cs| ==> r[i].id == cs[i].id && (r[i].isUsed <==> cs[i].isUsed || cs[i].id == commentId)
  {
    seq(|cs|, i requires 0 <= i < |cs| => if cs[i].id == commentId then cs[i].(isUsed := true) else cs[i])
  }

  /** Once marked, a comment is never listed again. */
  lemma MarkedCommentNotListed(cs: seq<Comment>, commentId: nat, userId: string, sessionId: string)
    ensures forall c :: c in UnusedFor(MarkUsed(cs, commentId), userId, sessionId) ==> c.id != commentId
  {
    var r := MarkUsed(cs, commentId);
    forall c | c in UnusedFor(r, userId, sessionId)
      ensures c.id != commentId
    {
      var i :| 0 <= i < |r| && r[i] == c;
    }
  }

  /** Marking an id no comment carries changes nothing. */
  lemma MarkAbsentIsNoOp(cs: seq<Comment>, commentId: nat)
    requires forall i :: 0 <= i < |cs| ==> cs[i].id != commentId
    ensures MarkUsed(cs, commentId) == cs
  {
  }

  /** Marking removes exactly the marked comment from every listing: the
      listing after marking is the listing before without that comment. */
  lemma {:induction false} MarkRemovesFromListing(cs: seq<Comment>, commentId: nat, userId: string, sessionId: string)
    ensures UnusedFor(MarkUsed(cs, commentId), userId, sessionId)
            == Without(UnusedFor(cs, userId, sessionId), commentId)
  {
    if cs != [] {
      var init, last := cs[..|cs| - 1], cs[|cs| - 1];
      var tail := if last.userId == userId && last.sessionId == sessionId && !last.isUsed then [last] else [];
      MarkedListingSnoc(cs, commentId, userId, sessionId);
      MarkRemovesFromListing(init, commentId, userId, sessionId);
      WithoutAppend(UnusedFor(init, userId, sessionId), tail, commentId);
    }
  }

  /** The listing after marking, split at the last comment. */
  lemma MarkedListingSnoc(cs: seq<Comment>, commentId: nat, userId: string, sessionId: string)
    requires cs != []
    ensures var last := cs[|cs| - 1];
      var tail := if last.userId == userId && last.sessionId == sessionId && !last.isUsed then [last] else [];
      UnusedFor(MarkUsed(cs, commentId), userId, sessionId)
      == UnusedFor(MarkUsed(cs[..|cs| - 1], commentId), userId, sessionId) + Without(tail, commentId)
  {
    var n := |cs| - 1;
    var m := MarkUsed(cs, commentId);
    var last := cs[n];
    assert m[..n] == MarkUsed(cs[..n], commentId);
    var listed := m[n].userId == userId && m[n].sessionId == sessionId && !m[n].isUsed;
    assert UnusedFor(m, userId, sessionId) == UnusedFor(m[..n], userId, sessionId) + (if listed then [m[n]] else []);
    if last.userId == userId && last.sessionId == sessionId && !last.isUsed {
      assert [last][..0] == [];
      assert Without([last], commentId) == if last.id == commentId then [] else [last];
    }
  }

  /** The comments of `cs` whose id is not `commentId`, in order. */
  function Without(cs: seq<Comment>, commentId: nat): (r: seq<Comment>)
    ensures forall c :: c in r <==> c in cs && c.id != commentId
  {
    if cs == [] then []
    else Without(cs[..|cs| - 1], commentId) + (if cs[|cs| - 1].id == commentId then [] else [cs[|cs| - 1]])
  }

  lemma {:induction false} WithoutAppend(a: seq<Comment>, b: seq<Comment>, commentId: nat)
    ensures Without(a + b, commentId) == Without(a, commentId) + Without(b, commentId)
    decreases |b|
  {
    if b != [] {
      var b' := b[..|b| - 1];
      assert (a + b)[..|a + b| - 1] == a + b';
      WithoutAppend(a, b', commentId);
    } else {
      assert a + b == a;
    }
  }

  /** Places `c` after every comment at least as new, keeping the order. */
  method InsertNewestFirst(cs: seq<Comment>, c: Comment) returns (r: seq<Comment>)
    requires NewestFirst(cs)
    ensures NewestFirst(r)
    ensures multiset(r) == multiset(cs) + multiset{c}
  {
    var j := 0;
    while j < |cs| && cs[j].timestamp >= c.timestamp
      invariant 0 <= j <= |cs|
      invariant forall k :: 0 <= k < j ==> cs[k].timestamp >= c.timestamp
    {
      j := j + 1;
    }
    assert cs == cs[..j] + cs[j..];
    r := cs[..j] + [c] + cs[j..];
  }

  /** All four tables at one moment. */
  datatype Tables = Tables(users: map<string, User>, gifts: map<string, Gift>, comments: seq<Comment>,
                           nextCommentId: nat)

  class DataService {
    var users: map<string, User>
    var gifts: map<string, Gift>
    /** The comments table in id order. */
    var comments: seq<Comment>
    /** The id the next saved comment receives. */
    var nextCommentId: nat

    /** Comment ids strictly increase and stay below the next id. */
    predicate Valid()
      reads this
    {
      && (forall i :: 0 <= i < |comments| ==> comments[i].id < nextCommentId)
      && (forall i, j :: 0 <= i < j < |comments| ==> comments[i].id < comments[j].id)
    }

    function Snapshot(): Tables
      reads this
    {
      Tables(users, gifts, comments, nextCommentId)
    }

    constructor ()
      ensures Valid() && users == map[] && gifts == map[] && comments == [] && nextCommentId == 1
    {
      users := map[];
      gifts := map[];
      comments := [];
      nextCommentId := 1;
    }

    method UpsertUser(tiktokId: string, nickname: Option<string>, avatarUrl: Option<string>, now: int)
      modifies this`users
      ensures users == UserUpserted(old(users), tiktokId, nickname, avatarUrl, now)
      ensures Snapshot() == old(Snapshot()).(users := users)
    {
      if tiktokId in users {
        var user := users[tiktokId];
        if user.nickname != nickname || (Truthy(avatarUrl) && user.avatarUrl != avatarUrl) {
          user := user.(nickname := nickname);
          if Truthy(avatarUrl) {
            user := user.(avatarUrl := avatarUrl);
          }
          user := user.(updatedAt := now);
          users := users[tiktokId := user];
        }
      } else {
        users := users[tiktokId := User(tiktokId, nickname, avatarUrl, now, now)];
      }
    }

    method UpsertGift(giftId: string, name: string, diamondCount: int, imageUrl: Option<string>, now: int)
      modifies this`gifts
      ensures gifts == GiftUpserted(old(gifts), giftId, name, diamondCount, imageUrl, now)
      ensures Snapshot() == old(Snapshot()).(gifts := gifts)
    {
      if giftId !in gifts {
        gifts := gifts[giftId := Gift(giftId, name, imageUrl, diamondCount, now, now)];
      } else if gifts[giftId].imageUrl.None? && Truthy(imageUrl) {
        gifts := gifts[giftId := gifts[giftId].(imageUrl := imageUrl, updatedAt := now)];
      }
    }

    /** Adds one unused comment under a fresh id. */
    method SaveComment(userId: string, sessionId: string, content: string, now: int)
      requires Valid()
      modifies this`comments, this`nextCommentId
      ensures Valid()
      ensures comments == old(comments) + [Comment(old(nextCommentId), userId, sessionId, content, now, false)]
      ensures nextCommentId == old(nextCommentId) + 1
      ensures Snapshot() == old(Snapshot()).(comments := comments, nextCommentId := nextCommentId)
    {
      comments := comments + [Comment(nextCommentId, userId, sessionId, content, now, false)];
      nextCommentId := nextCommentId + 1;
    }

    /** Marks the comment with id `commentId` as used, if there is one. */
    method MarkCommentAsUsed(commentId: nat)
      requires Valid()
      modifies this`comments
      ensures Valid()
      ensures comments == MarkUsed(old(comments), commentId)
    {
      var i := 0;
      while i < |comments| && comments[i].id != commentId
        invariant 0 <= i <= |comments|
        invariant forall j :: 0 <= j < i ==> comments[j].id != commentId
      {
        i := i + 1;
      }
      if i < |comments| {
        comments := comments[i := comments[i].(isUsed := true)];
      }
    }

    /** The viewer's unused comments in the session, newest first. */
    method GetUserComments(userId: string, sessionId: string) returns (result: seq<Comment>)
      ensures NewestFirst(result)
      ensures multiset(result) == multiset(UnusedFor(comments, userId, sessionId))
    {
      result := [];
      var i := 0;
      while i < |comments|
        invariant 0 <= i <= |comments|
        invariant NewestFirst(result)
        invariant multiset(result) == multiset(UnusedFor(comments[..i], userId, sessionId))
      {
        var c := comments[i];
        if c.userId == userId && c.sessionId == sessionId && !c.isUsed {
          result := InsertNewestFirst(result, c);
        }
        i := i + 1;
        UnusedForStep(comments, userId, sessionId, i);
      }
      assert comments[..i] == comments;
    }
  }
}
