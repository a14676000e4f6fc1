/** The command sequences the scoring service sends, written over abstract
    keys and field names, with their effect proved once here. The facts about
    a concrete like, gift or comment instantiate these with the service's own
    keys and field names. */
module CommandSequences {
  import opened Wrappers
  import opened Strings
  import opened Redis

  /** Two maps that agree outside `K1`, then outside `K2`, agree outside both. */
  lemma FrameCompose(a: Keyspace, b: Keyspace, c: Keyspace, K1: set<string>, K2: set<string>)
    requires b - K1 == a - K1 && c - K2 == b - K2
    ensures c - (K1 + K2) == a - (K1 + K2)
  {
    assert c - (K1 + K2) == (c - K2) - K1;
    assert a - (K1 + K2) == (a - K1) - K2;
    assert (b - K2) - K1 == (b - K1) - K2;
  }

  // ---------------------------------------------------------------------
  // Profile: HSET nickname, then HSET avatar when one is given.

  function WithProfile(h: map<string, Field>, fN: string, fA: string, nickname: string,
                       avatarUrl: Option<string>): map<string, Field>
  {
    var named := h[fN := Text(nickname)];
    if Truthy(avatarUrl) then named[fA := Text(avatarUrl.value)] else named
  }

  function ProfileWrites(d: Keyspace, h: string, nickname: string, avatarUrl: Option<string>,
                         fN: string, fA: string): Keyspace
  {
    var d1 := HSetText(d, h, fN, nickname);
    if Truthy(avatarUrl) then HSetText(d1, h, fA, avatarUrl.value) else d1
  }

  lemma ProfileWritesEffect(d: Keyspace, h: string, nickname: string, avatarUrl: Option<string>,
                            fN: string, fA: string)
    ensures var d' := ProfileWrites(d, h, nickname, avatarUrl, fN, fA);
      && d' - {h} == d - {h}
      && (HashOrAbsent(d, h) ==>
            h in d' && d'[h].Hash? && HFields(d', h) == WithProfile(HFields(d, h), fN, fA, nickname, avatarUrl))
  {
  }

  // ---------------------------------------------------------------------
  // Counters: HINCRBY f1, HINCRBY f2, HINCRBYFLOAT f3.

  function WithCounters(h: map<string, Field>, f1: string, a: int, f2: string, b: int,
                        f3: string, delta: real): map<string, Field>
  {
    h[f1 := Int(IntValue(h, f1) + a)][f2 := Int(IntValue(h, f2) + b)][f3 := Float(NumValue(h, f3) + delta)]
  }

  function CounterWrites(d: Keyspace, h: string, f1: string, a: int, f2: string, b: int,
                         f3: string, delta: real): Keyspace
  {
    var d1 := HIncrInt(d, h, f1, a);
    var d2 := HIncrInt(d1, h, f2, b);
    HIncrFloat(d2, h, f3, delta)
  }

  lemma CounterWritesEffect(d: Keyspace, h: string, f1: string, a: int, f2: string, b: int,
                            f3: string, delta: real)
    requires f2 != f1 && f3 != f1 && f3 != f2
    ensures var d' := CounterWrites(d, h, f1, a, f2, b, f3, delta);
      && d' - {h} == d - {h}
      && (HashOrAbsent(d, h) && IntOrAbsent(HFields(d, h), f1) && IntOrAbsent(HFields(d, h), f2)
          && NumOrAbsent(HFields(d, h), f3) ==>
            h in d' && d'[h].Hash? && HFields(d', h) == WithCounters(HFields(d, h), f1, a, f2, b, f3, delta))
  {
  }

  /** The float counter grows by `delta` whatever the two integer counters
      hold, and a field not named is left alone. */
  lemma CounterWritesPoints(d: Keyspace, h: string, f1: string, a: int, f2: string, b: int,
                            f3: string, delta: real, x: string)
    requires f2 != f1 && f3 != f1 && f3 != f2 && x != f1 && x != f2 && x != f3
    requires HashOrAbsent(d, h) && NumOrAbsent(HFields(d, h), f3)
    ensures var d' := CounterWrites(d, h, f1, a, f2, b, f3, delta);
      && h in d' && d'[h].Hash?
      && NumValue(HFields(d', h), f3) == NumValue(HFields(d, h), f3) + delta
      && NumOrAbsent(HFields(d', h), f3)
      && (x in HFields(d', h) <==> x in HFields(d, h))
      && (x in HFields(d, h) ==> HFields(d', h)[x] == HFields(d, h)[x])
  {
  }

  // ---------------------------------------------------------------------
  // A scoring call: ZINCRBY of the member, then profile, then counters.

  function ScoreWrites(d: Keyspace, L: string, h: string, member: string, nickname: string,
                       avatarUrl: Option<string>, fN: string, fA: string,
                       f1: string, a: int, f2: string, b: int, f3: string, delta: real): Keyspace
  {
    CounterWrites(ProfileWrites(ZIncr(d, L, member, delta), h, nickname, avatarUrl, fN, fA), h, f1, a, f2, b, f3, delta)
  }

  /** The fields a scoring call writes. */
  function ScoreWritten(fN: string, fA: string, avatarUrl: Option<string>, f1: string, f2: string, f3: string): set<string> {
    {fN, f1, f2, f3} + (if Truthy(avatarUrl) then {fA} else {})
  }

  /** Whatever the store holds, a scoring call writes `L` and `h` only. */
  lemma ScoreWritesFrame(d: Keyspace, L: string, h: string, member: string, nickname: string,
                         avatarUrl: Option<string>, fN: string, fA: string,
                         f1: string, a: int, f2: string, b: int, f3: string, delta: real)
    requires f2 != f1 && f3 != f1 && f3 != f2
    ensures var d' := ScoreWrites(d, L, h, member, nickname, avatarUrl, fN, fA, f1, a, f2, b, f3, delta);
      d' - {L, h} == d - {L, h}
  {
    var d1 := ZIncr(d, L, member, delta);
    var d2 := ProfileWrites(d1, h, nickname, avatarUrl, fN, fA);
    ProfileWritesEffect(d1, h, nickname, avatarUrl, fN, fA);
    CounterWritesEffect(d2, h, f1, a, f2, b, f3, delta);
    var d' := ScoreWrites(d, L, h, member, nickname, avatarUrl, fN, fA, f1, a, f2, b, f3, delta);
    FrameCompose(d, d1, d', {L}, {h});
    assert {L} + {h} == {L, h};
  }

  /** In `L` a scoring call changes the score of `member` only, raising it by
      `delta` when `L` is a sorted set (or absent). */
  lemma ScoreWritesBoard(d: Keyspace, L: string, h: string, member: string, nickname: string,
                         avatarUrl: Option<string>, fN: string, fA: string,
                         f1: string, a: int, f2: string, b: int, f3: string, delta: real)
    requires L != h && f2 != f1 && f3 != f1 && f3 != f2
    ensures var d' := ScoreWrites(d, L, h, member, nickname, avatarUrl, fN, fA, f1, a, f2, b, f3, delta);
      && ZScores(d', L) - {member} == ZScores(d, L) - {member}
      && (ZSetOrAbsent(d, L) ==> ZSetOrAbsent(d', L))
      && (ZSetOrAbsent(d, L) ==> ZScores(d', L) == ZScores(d, L)[member := Score(d, L, member) + delta])
  {
    var d1 := ZIncr(d, L, member, delta);
    var d2 := ProfileWrites(d1, h, nickname, avatarUrl, fN, fA);
    ProfileWritesEffect(d1, h, nickname, avatarUrl, fN, fA);
    CounterWritesEffect(d2, h, f1, a, f2, b, f3, delta);
    var d' := ScoreWrites(d, L, h, member, nickname, avatarUrl, fN, fA, f1, a, f2, b, f3, delta);
    OtherKeyUnchanged(d1, d', {h}, L);
  }

  lemma ScoreWritesHash(d: Keyspace, L: string, h: string, member: string, nickname: string,
                        avatarUrl: Option<string>, fN: string, fA: string,
                        f1: string, a: int, f2: string, b: int, f3: string, delta: real)
    requires L != h
    requires f1 != fN && f1 != fA && f2 != fN && f2 != fA && f2 != f1
    requires f3 != fN && f3 != fA && f3 != f1 && f3 != f2
    requires HashOrAbsent(d, h)
    requires IntOrAbsent(HFields(d, h), f1) && IntOrAbsent(HFields(d, h), f2) && NumOrAbsent(HFields(d, h), f3)
    ensures var d' := ScoreWrites(d, L, h, member, nickname, avatarUrl, fN, fA, f1, a, f2, b, f3, delta);
      && h in d' && d'[h].Hash?
      && HFields(d', h) == WithCounters(WithProfile(HFields(d, h), fN, fA, nickname, avatarUrl), f1, a, f2, b, f3, delta)
  {
    var d1 := ZIncr(d, L, member, delta);
    OtherKeyUnchanged(d, d1, {L}, h);
    var d2 := ProfileWrites(d1, h, nickname, avatarUrl, fN, fA);
    ProfileWritesEffect(d1, h, nickname, avatarUrl, fN, fA);
    var p := WithProfile(HFields(d, h), fN, fA, nickname, avatarUrl);
    assert IntOrAbsent(p, f1) && IntOrAbsent(p, f2) && NumOrAbsent(p, f3);
    CounterWritesEffect(d2, h, f1, a, f2, b, f3, delta);
  }

  lemma ScoredFieldsReads(before: map<string, Field>, nickname: string, avatarUrl: Option<string>,
                          fN: string, fA: string, f1: string, a: int, f2: string, b: int, f3: string, delta: real)
    requires fN != fA
    requires f1 != fN && f1 != fA && f2 != fN && f2 != fA && f2 != f1
    requires f3 != fN && f3 != fA && f3 != f1 && f3 != f2
    ensures var after := WithCounters(WithProfile(before, fN, fA, nickname, avatarUrl), f1, a, f2, b, f3, delta);
      && IntValue(after, f1) == IntValue(before, f1) + a
      && IntValue(after, f2) == IntValue(before, f2) + b
      && NumValue(after, f3) == NumValue(before, f3) + delta
      && fN in after && after[fN] == Text(nickname)
      && (Truthy(avatarUrl) ==> fA in after && after[fA] == Text(avatarUrl.value))
      && after.Keys == before.Keys + ScoreWritten(fN, fA, avatarUrl, f1, f2, f3)
      && after - ScoreWritten(fN, fA, avatarUrl, f1, f2, f3) == before - ScoreWritten(fN, fA, avatarUrl, f1, f2, f3)
  {
  }

  /** On a hash whose counters hold numbers of the right kind, a scoring call
      sets the profile, adds `a` to `f1`, `b` to `f2` and `delta` to `f3`,
      and leaves every other field alone. */
  lemma ScoreWritesFields(d: Keyspace, L: string, h: string, member: string, nickname: string,
                          avatarUrl: Option<string>, fN: string, fA: string,
                          f1: string, a: int, f2: string, b: int, f3: string, delta: real)
    requires L != h && fN != fA
    requires f1 != fN && f1 != fA && f2 != fN && f2 != fA && f2 != f1
    requires f3 != fN && f3 != fA && f3 != f1 && f3 != f2
    requires HashOrAbsent(d, h)
    requires IntOrAbsent(HFields(d, h), f1) && IntOrAbsent(HFields(d, h), f2) && NumOrAbsent(HFields(d, h), f3)
    ensures var d' := ScoreWrites(d, L, h, member, nickname, avatarUrl, fN, fA, f1, a, f2, b, f3, delta);
      var before := HFields(d, h);
      var after := HFields(d', h);
      && h in d' && d'[h].Hash?
      && IntValue(after, f1) == IntValue(before, f1) + a
      && IntValue(after, f2) == IntValue(before, f2) + b
      && NumValue(after, f3) == NumValue(before, f3) + delta
      && fN in after && after[fN] == Text(nickname)
      && (Truthy(avatarUrl) ==> fA in after && after[fA] == Text(avatarUrl.value))
      && after.Keys == before.Keys + ScoreWritten(fN, fA, avatarUrl, f1, f2, f3)
      && after - ScoreWritten(fN, fA, avatarUrl, f1, f2, f3) == before - ScoreWritten(fN, fA, avatarUrl, f1, f2, f3)
  {
    ScoreWritesHash(d, L, h, member, nickname, avatarUrl, fN, fA, f1, a, f2, b, f3, delta);
    ScoredFieldsReads(HFields(d, h), nickname, avatarUrl, fN, fA, f1, a, f2, b, f3, delta);
  }

  /** Whatever the integer counters hold, a scoring call raises `f3` by
      `delta` and leaves a field it does not name alone. */
  lemma ScoreWritesPoints(d: Keyspace, L: string, h: string, member: string, nickname: string,
                          avatarUrl: Option<string>, fN: string, fA: string,
                          f1: string, a: int, f2: string, b: int, f3: string, delta: real, x: string)
    requires L != h
    requires f2 != f1 && f3 != fN && f3 != fA && f3 != f1 && f3 != f2
    requires x != fN && x != fA && x != f1 && x != f2 && x != f3
    requires HashOrAbsent(d, h) && NumOrAbsent(HFields(d, h), f3)
    ensures var d' := ScoreWrites(d, L, h, member, nickname, avatarUrl, fN, fA, f1, a, f2, b, f3, delta);
      && h in d' && d'[h].Hash?
      && NumValue(HFields(d', h), f3) == NumValue(HFields(d, h), f3) + delta
      && NumOrAbsent(HFields(d', h), f3)
      && (x in HFields(d', h) <==> x in HFields(d, h))
      && (x in HFields(d, h) ==> HFields(d', h)[x] == HFields(d, h)[x])
  {
    var d1 := ZIncr(d, L, member, delta);
    OtherKeyUnchanged(d, d1, {L}, h);
    var d2 := ProfileWrites(d1, h, nickname, avatarUrl, fN, fA);
    ProfileWritesEffect(d1, h, nickname, avatarUrl, fN, fA);
    CounterWritesPoints(d2, h, f1, a, f2, b, f3, delta, x);
  }

  // ---------------------------------------------------------------------
  // A gift: a scoring call, then HINCRBY of the breakdown field on `g`.

  function GiftWrites(d: Keyspace, L: string, h: string, g: string, member: string, nickname: string,
                      avatarUrl: Option<string>, fN: string, fA: string,
                      f1: string, a: int, f2: string, b: int, f3: string, delta: real, field: string): Keyspace
  {
    HIncrInt(ScoreWrites(d, L, h, member, nickname, avatarUrl, fN, fA, f1, a, f2, b, f3, delta), g, field, b)
  }

  lemma GiftWritesFrame(d: Keyspace, L: string, h: string, g: string, member: string, nickname: string,
                        avatarUrl: Option<string>, fN: string, fA: string,
                        f1: string, a: int, f2: string, b: int, f3: string, delta: real, field: string)
    requires L != g && h != g && f2 != f1 && f3 != f1 && f3 != f2
    ensures var d6 := ScoreWrites(d, L, h, member, nickname, avatarUrl, fN, fA, f1, a, f2, b, f3, delta);
      var d' := GiftWrites(d, L, h, g, member, nickname, avatarUrl, fN, fA, f1, a, f2, b, f3, delta, field);
      && d' - {L, h, g} == d - {L, h, g}
      && (L in d' <==> L in d6) && (L in d6 ==> d'[L] == d6[L]) && ZScores(d', L) == ZScores(d6, L)
      && (h in d' <==> h in d6) && (h in d6 ==> d'[h] == d6[h]) && HFields(d', h) == HFields(d6, h)
      && HFields(d6, g) == HFields(d, g) && (HashOrAbsent(d, g) ==> HashOrAbsent(d6, g))
  {
    var d6 := ScoreWrites(d, L, h, member, nickname, avatarUrl, fN, fA, f1, a, f2, b, f3, delta);
    var d' := GiftWrites(d, L, h, g, member, nickname, avatarUrl, fN, fA, f1, a, f2, b, f3, delta, field);
    ScoreWritesFrame(d, L, h, member, nickname, avatarUrl, fN, fA, f1, a, f2, b, f3, delta);
    FrameCompose(d, d6, d', {L, h}, {g});
    assert {L, h} + {g} == {L, h, g};
    OtherKeyUnchanged(d6, d', {g}, L);
    OtherKeyUnchanged(d6, d', {g}, h);
    OtherKeyUnchanged(d, d6, {L, h}, g);
  }

  /** On the leaderboard a gift changes what its scoring call changes. */
  lemma GiftWritesBoard(d: Keyspace, L: string, h: string, g: string, member: string, nickname: string,
                        avatarUrl: Option<string>, fN: string, fA: string,
                        f1: string, a: int, f2: string, b: int, f3: string, delta: real, field: string)
    requires L != g && L != h && h != g && f2 != f1 && f3 != f1 && f3 != f2
    ensures var d' := GiftWrites(d, L, h, g, member, nickname, avatarUrl, fN, fA, f1, a, f2, b, f3, delta, field);
      && ZScores(d', L) - {member} == ZScores(d, L) - {member}
      && (ZSetOrAbsent(d, L) ==> ZSetOrAbsent(d', L))
      && (ZSetOrAbsent(d, L) ==> ZScores(d', L) == ZScores(d, L)[member := Score(d, L, member) + delta])
  {
    var d6 := ScoreWrites(d, L, h, member, nickname, avatarUrl, fN, fA, f1, a, f2, b, f3, delta);
    ScoreWritesBoard(d, L, h, member, nickname, avatarUrl, fN, fA, f1, a, f2, b, f3, delta);
    var d' := GiftWrites(d, L, h, g, member, nickname, avatarUrl, fN, fA, f1, a, f2, b, f3, delta, field);
    OtherKeyUnchanged(d6, d', {g}, L);
  }

  /** The breakdown field of the gift grows by the quantity; no other
      breakdown field changes. */
  lemma GiftWritesBreakdown(d: Keyspace, L: string, h: string, g: string, member: string, nickname: string,
                            avatarUrl: Option<string>, fN: string, fA: string,
                            f1: string, a: int, f2: string, b: int, f3: string, delta: real, field: string)
    requires L != g && h != g && f2 != f1 && f3 != f1 && f3 != f2
    requires HashOrAbsent(d, g) && IntOrAbsent(HFields(d, g), field)
    ensures var d' := GiftWrites(d, L, h, g, member, nickname, avatarUrl, fN, fA, f1, a, f2, b, f3, delta, field);
      var before := HFields(d, g);
      var after := HFields(d', g);
      && g in d' && d'[g].Hash?
      && IntValue(after, field) == IntValue(before, field) + b
      && after.Keys == before.Keys + {field}
      && after - {field} == before - {field}
  {
    GiftWritesFrame(d, L, h, g, member, nickname, avatarUrl, fN, fA, f1, a, f2, b, f3, delta, field);
  }

  // ---------------------------------------------------------------------
  // A comment: optional profile writes, RPUSH of the text, HINCRBY by one.

  function WithOptionalProfile(h: map<string, Field>, fN: string, fA: string, nickname: Option<string>,
                               avatarUrl: Option<string>): map<string, Field>
  {
    var named := if Truthy(nickname) then h[fN := Text(nickname.value)] else h;
    if Truthy(avatarUrl) then named[fA := Text(avatarUrl.value)] else named
  }

  function OptionalProfileWrites(d: Keyspace, h: string, nickname: Option<string>, avatarUrl: Option<string>,
                                 fN: string, fA: string): Keyspace
  {
    var d1 := if Truthy(nickname) then HSetText(d, h, fN, nickname.value) else d;
    if Truthy(avatarUrl) then HSetText(d1, h, fA, avatarUrl.value) else d1
  }

  lemma OptionalProfileWritesEffect(d: Keyspace, h: string, nickname: Option<string>, avatarUrl: Option<string>,
                                    fN: string, fA: string)
    ensures var d' := OptionalProfileWrites(d, h, nickname, avatarUrl, fN, fA);
      && d' - {h} == d - {h}
      && (HashOrAbsent(d, h) ==>
            HashOrAbsent(d', h) && HFields(d', h) == WithOptionalProfile(HFields(d, h), fN, fA, nickname, avatarUrl))
  {
  }

  function CommentWrites(d: Keyspace, h: string, c: string, text: string, nickname: Option<string>,
                         avatarUrl: Option<string>, fN: string, fA: string, fC: string): Keyspace
  {
    HIncrInt(RPush(OptionalProfileWrites(d, h, nickname, avatarUrl, fN, fA), c, text), h, fC, 1)
  }

  /** The fields a comment writes. */
  function CommentWritten(fC: string, fN: string, fA: string, nickname: Option<string>, avatarUrl: Option<string>): set<string> {
    {fC} + (if Truthy(nickname) then {fN} else {}) + (if Truthy(avatarUrl) then {fA} else {})
  }

  lemma CommentWritesFrame(d: Keyspace, h: string, c: string, text: string, nickname: Option<string>,
                           avatarUrl: Option<string>, fN: string, fA: string, fC: string)
    requires h != c
    ensures var d' := CommentWrites(d, h, c, text, nickname, avatarUrl, fN, fA, fC);
      && d' - {h, c} == d - {h, c}
      && (ListOrAbsent(d, c) ==> ListOrAbsent(d', c) && LItems(d', c) == LItems(d, c) + [text])
  {
    var d2 := OptionalProfileWrites(d, h, nickname, avatarUrl, fN, fA);
    OptionalProfileWritesEffect(d, h, nickname, avatarUrl, fN, fA);
    var d3 := RPush(d2, c, text);
    var d' := HIncrInt(d3, h, fC, 1);
    OtherKeyUnchanged(d, d2, {h}, c);
    OtherKeyUnchanged(d3, d', {h}, c);
    FrameCompose(d, d2, d3, {h}, {c});
    FrameCompose(d, d3, d', {h} + {c}, {h});
    assert {h} + {c} + {h} == {h, c};
  }

  lemma CommentWritesHash(d: Keyspace, h: string, c: string, text: string, nickname: Option<string>,
                          avatarUrl: Option<string>, fN: string, fA: string, fC: string)
    requires h != c && fC != fN && fC != fA
    requires HashOrAbsent(d, h) && IntOrAbsent(HFields(d, h), fC)
    ensures var d' := CommentWrites(d, h, c, text, nickname, avatarUrl, fN, fA, fC);
      var p := WithOptionalProfile(HFields(d, h), fN, fA, nickname, avatarUrl);
      && h in d' && d'[h].Hash?
      && HFields(d', h) == p[fC := Int(IntValue(p, fC) + 1)]
  {
    var d2 := OptionalProfileWrites(d, h, nickname, avatarUrl, fN, fA);
    OptionalProfileWritesEffect(d, h, nickname, avatarUrl, fN, fA);
    var d3 := RPush(d2, c, text);
    OtherKeyUnchanged(d2, d3, {c}, h);
    var p := WithOptionalProfile(HFields(d, h), fN, fA, nickname, avatarUrl);
    assert IntOrAbsent(p, fC);
  }

  lemma CommentFieldsReads(before: map<string, Field>, nickname: Option<string>, avatarUrl: Option<string>,
                           fN: string, fA: string, fC: string)
    requires fN != fA && fC != fN && fC != fA
    ensures var p := WithOptionalProfile(before, fN, fA, nickname, avatarUrl);
      var after := p[fC := Int(IntValue(p, fC) + 1)];
      && IntValue(after, fC) == IntValue(before, fC) + 1
      && (Truthy(nickname) ==> fN in after && after[fN] == Text(nickname.value))
      && (Truthy(avatarUrl) ==> fA in after && after[fA] == Text(avatarUrl.value))
      && after.Keys == before.Keys + CommentWritten(fC, fN, fA, nickname, avatarUrl)
      && after - CommentWritten(fC, fN, fA, nickname, avatarUrl) == before - CommentWritten(fC, fN, fA, nickname, avatarUrl)
  {
  }

  /** A comment sets the profile fields it is given, counts one more comment,
      and leaves every other field alone. */
  lemma CommentWritesFields(d: Keyspace, h: string, c: string, text: string, nickname: Option<string>,
                            avatarUrl: Option<string>, fN: string, fA: string, fC: string)
    requires h != c && fN != fA && fC != fN && fC != fA
    requires HashOrAbsent(d, h) && IntOrAbsent(HFields(d, h), fC)
    ensures var d' := CommentWrites(d, h, c, text, nickname, avatarUrl, fN, fA, fC);
      var before := HFields(d, h);
      var after := HFields(d', h);
      && h in d' && d'[h].Hash?
      && IntValue(after, fC) == IntValue(before, fC) + 1
      && (Truthy(nickname) ==> fN in after && after[fN] == Text(nickname.value))
      && (Truthy(avatarUrl) ==> fA in after && after[fA] == Text(avatarUrl.value))
      && after.Keys == before.Keys + CommentWritten(fC, fN, fA, nickname, avatarUrl)
      && after - CommentWritten(fC, fN, fA, nickname, avatarUrl) == before - CommentWritten(fC, fN, fA, nickname, avatarUrl)
  {
    CommentWritesHash(d, h, c, text, nickname, avatarUrl, fN, fA, fC);
    CommentFieldsReads(HFields(d, h), nickname, avatarUrl, fN, fA, fC);
  }

  /** Whatever the hash holds, a comment leaves a field it does not name
      alone, and a hash stays a hash. */
  lemma CommentWritesKeepField(d: Keyspace, h: string, c: string, text: string, nickname: Option<string>,
                               avatarUrl: Option<string>, fN: string, fA: string, fC: string, x: string)
    requires h != c && x != fN && x != fA && x != fC
    ensures var d' := CommentWrites(d, h, c, text, nickname, avatarUrl, fN, fA, fC);
      && (HashOrAbsent(d, h) ==> HashOrAbsent(d', h))
      && (x in HFields(d', h) <==> x in HFields(d, h))
      && (x in HFields(d, h) ==> HFields(d', h)[x] == HFields(d, h)[x])
  {
    var d2 := OptionalProfileWrites(d, h, nickname, avatarUrl, fN, fA);
    OptionalProfileWritesEffect(d, h, nickname, avatarUrl, fN, fA);
    var d3 := RPush(d2, c, text);
    OtherKeyUnchanged(d2, d3, {c}, h);
  }
}
