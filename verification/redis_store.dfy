/** The part of Redis the service uses, as an in-memory keyspace. A key holds
    a sorted set (member -> score), a hash (field -> value) or a list. Each
    command is a function from keyspace to keyspace; `RedisStore` is the
    client object the services share, whose methods apply those functions. */
module Redis {
  import opened Wrappers
  import opened Strings

  /** A hash field. Redis keeps strings; the model keeps what was written:
      text by HSET, an integer by HINCRBY, a real number by HINCRBYFLOAT. */
  datatype Field = Text(text: string) | Int(i: int) | Float(x: real)

  datatype Value =
    | ZSet(scores: map<string, real>)
    | Hash(fields: map<string, Field>)
    | List(items: seq<string>)

  type Keyspace = map<string, Value>

  // ---------------------------------------------------------------------
  // Reads. A missing key reads as the empty collection.

  function ZScores(d: Keyspace, key: string): map<string, real> {
    if key in d && d[key].ZSet? then d[key].scores else map[]
  }

  /** ZSCORE, with a missing member read as 0 (the base ZINCRBY adds to). */
  function Score(d: Keyspace, key: string, member: string): real {
    var z := ZScores(d, key);
    if member in z then z[member] else 0.0
  }

  function HFields(d: Keyspace, key: string): map<string, Field> {
    if key in d && d[key].Hash? then d[key].fields else map[]
  }

  function LItems(d: Keyspace, key: string): seq<string> {
    if key in d && d[key].List? then d[key].items else []
  }

  predicate ZSetOrAbsent(d: Keyspace, key: string) { key !in d || d[key].ZSet? }
  predicate HashOrAbsent(d: Keyspace, key: string) { key !in d || d[key].Hash? }
  predicate ListOrAbsent(d: Keyspace, key: string) { key !in d || d[key].List? }

  /** The integer a field holds, 0 when it is missing. */
  function IntValue(h: map<string, Field>, f: string): int {
    if f in h && h[f].Int? then h[f].i else 0
  }

  /** The number a field holds, 0 when it is missing. */
  function NumValue(h: map<string, Field>, f: string): real {
    if f !in h then 0.0
    else match h[f]
      case Int(i) => i as real
      case Float(x) => x
      case Text(_) => 0.0
  }

  predicate IntOrAbsent(h: map<string, Field>, f: string) { f !in h || h[f].Int? }
  predicate NumOrAbsent(h: map<string, Field>, f: string) { f !in h || !h[f].Text? }

  // ---------------------------------------------------------------------
  // Commands. Redis rejects a command on a key of another type (WRONGTYPE)
  // and an increment of a field that holds no number of the right kind;
  // a rejected command changes nothing.

  /** ZINCRBY key delta member */
  function ZIncr(d: Keyspace, key: string, member: string, delta: real): (d': Keyspace)
    ensures ZSetOrAbsent(d, key) ==>
      key in d' && d'[key].ZSet? && ZScores(d', key) == ZScores(d, key)[member := Score(d, key, member) + delta]
    ensures !ZSetOrAbsent(d, key) ==> d' == d
    ensures d' - {key} == d - {key}
  {
    if key in d && !d[key].ZSet? then d
    else d[key := ZSet(ZScores(d, key)[member := Score(d, key, member) + delta])]
  }

  /** HSET key field value */
  function HSetText(d: Keyspace, key: string, field: string, value: string): (d': Keyspace)
    ensures HashOrAbsent(d, key) ==>
      key in d' && d'[key].Hash? && HFields(d', key) == HFields(d, key)[field := Text(value)]
    ensures !HashOrAbsent(d, key) ==> d' == d
    ensures d' - {key} == d - {key}
  {
    if key in d && !d[key].Hash? then d
    else d[key := Hash(HFields(d, key)[field := Text(value)])]
  }

  /** HINCRBY key field delta */
  function HIncrInt(d: Keyspace, key: string, field: string, delta: int): (d': Keyspace)
    ensures HashOrAbsent(d, key) && IntOrAbsent(HFields(d, key), field) ==>
      key in d' && d'[key].Hash? && HFields(d', key) == HFields(d, key)[field := Int(IntValue(HFields(d, key), field) + delta)]
    ensures !(HashOrAbsent(d, key) && IntOrAbsent(HFields(d, key), field)) ==> d' == d
    ensures d' - {key} == d - {key}
  {
    if key in d && !d[key].Hash? then d
    else
      var h := HFields(d, key);
      if field in h && !h[field].Int? then d
      else d[key := Hash(h[field := Int(IntValue(h, field) + delta)])]
  }

  /** HINCRBYFLOAT key field delta */
  function HIncrFloat(d: Keyspace, key: string, field: string, delta: real): (d': Keyspace)
    ensures HashOrAbsent(d, key) && NumOrAbsent(HFields(d, key), field) ==>
      key in d' && d'[key].Hash? && HFields(d', key) == HFields(d, key)[field := Float(NumValue(HFields(d, key), field) + delta)]
    ensures !(HashOrAbsent(d, key) && NumOrAbsent(HFields(d, key), field)) ==> d' == d
    ensures d' - {key} == d - {key}
  {
    if key in d && !d[key].Hash? then d
    else
      var h := HFields(d, key);
      if field in h && h[field].Text? then d
      else d[key := Hash(h[field := Float(NumValue(h, field) + delta)])]
  }

  /** RPUSH key item */
  function RPush(d: Keyspace, key: string, item: string): (d': Keyspace)
    ensures ListOrAbsent(d, key) ==> key in d' && d'[key].List? && LItems(d', key) == LItems(d, key) + [item]
    ensures !ListOrAbsent(d, key) ==> d' == d
    ensures d' - {key} == d - {key}
  {
    if key in d && !d[key].List? then d
    else d[key := List(LItems(d, key) + [item])]
  }

  /** ZREM key member; Redis deletes a sorted set once its last member goes. */
  function ZRemove(d: Keyspace, key: string, member: string): (d': Keyspace)
    ensures ZScores(d', key) == ZScores(d, key) - {member}
    ensures ZSetOrAbsent(d, key) ==> ZSetOrAbsent(d', key)
    ensures d' - {key} == d - {key}
  {
    if key in d && d[key].ZSet? && member in d[key].scores then
      var z := d[key].scores - {member};
      if z == map[] then d - {key} else d[key := ZSet(z)]
    else d
  }

  /** Two maps that agree outside `keys` agree on every other key. */
  lemma AgreeOutside<V>(m: map<string, V>, m': map<string, V>, keys: set<string>, k: string)
    requires m' - keys == m - keys && k !in keys
    ensures (k in m' <==> k in m) && (k in m ==> m'[k] == m[k])
  {
    assert k in m' <==> k in m' - keys;
    assert k in m <==> k in m - keys;
    if k in m {
      assert m'[k] == (m' - keys)[k];
    }
  }

  /** Commands confined to `keys` leave every other key, and what it reads as,
      as it was. */
  lemma OtherKeyUnchanged(d: Keyspace, d': Keyspace, keys: set<string>, k: string)
    requires d' - keys == d - keys && k !in keys
    ensures (k in d' <==> k in d) && (k in d ==> d'[k] == d[k])
    ensures ZScores(d', k) == ZScores(d, k) && HFields(d', k) == HFields(d, k) && LItems(d', k) == LItems(d, k)
    ensures ZSetOrAbsent(d', k) == ZSetOrAbsent(d, k) && HashOrAbsent(d', k) == HashOrAbsent(d, k)
    ensures ListOrAbsent(d', k) == ListOrAbsent(d, k)
  {
    AgreeOutside(d, d', keys, k);
  }

  /** The keys KEYS returns for the pattern `prefix*`, where `prefix` holds no
      glob metacharacter. */
  function KeysWithPrefix(d: Keyspace, prefix: string): (ks: set<string>)
    ensures forall k :: k in ks <==> k in d && StartsWith(k, prefix)
  {
    set k | k in d && StartsWith(k, prefix)
  }

  // ---------------------------------------------------------------------
  // Ranking. ZREVRANGE lists members from the highest score down and breaks
  // ties by descending byte-wise order of the member.

  predicate Outranks(z: map<string, real>, a: string, b: string)
    requires a in z && b in z
  {
    z[a] > z[b] || (z[a] == z[b] && LexLess(b, a))
  }

  lemma OutranksIrreflexive(z: map<string, real>, a: string)
    requires a in z
    ensures !Outranks(z, a, a)
  {
    LexLessIrreflexive(a);
  }

  lemma OutranksTransitive(z: map<string, real>, a: string, b: string, c: string)
    requires a in z && b in z && c in z
    requires Outranks(z, a, b) && Outranks(z, b, c)
    ensures Outranks(z, a, c)
  {
    if z[a] == z[b] == z[c] {
      LexLessTransitive(c, b, a);
    }
  }

  lemma OutranksTotal(z: map<string, real>, a: string, b: string)
    requires a in z && b in z && a != b
    ensures Outranks(z, a, b) || Outranks(z, b, a)
  {
    LexLessTotal(a, b);
  }

  function Members(items: seq<(string, real)>): (ms: seq<string>)
    ensures |ms| == |items| && forall i :: 0 <= i < |items| ==> ms[i] == items[i].0
  {
    seq(|items|, i requires 0 <= i < |items| => items[i].0)
  }

  /** `ms` is what ZREVRANGE 0 (count-1) answers on the sorted set `z`: the
      `count` best-ranked members (all of them if there are fewer), best first. */
  ghost predicate IsRevRange(z: map<string, real>, count: nat, ms: seq<string>) {
    && |ms| == (if count < |z| then count else |z|)
    && (forall i :: 0 <= i < |ms| ==> ms[i] in z)
    && (forall i, j :: 0 <= i < j < |ms| ==> ms[i] in z && ms[j] in z && Outranks(z, ms[i], ms[j]))
    && (forall k, i :: k in z && k !in ms && 0 <= i < |ms| ==> ms[i] in z && Outranks(z, ms[i], k))
  }

  /** The ranking a ZREVRANGE answer must have is unique: two answers that
      both satisfy `IsRevRange` are the same list. */
  lemma RevRangeUnique(z: map<string, real>, count: nat, a: seq<string>, b: seq<string>)
    requires IsRevRange(z, count, a) && IsRevRange(z, count, b)
    ensures a == b
  {
    forall i | 0 <= i < |a|
      ensures a[i] == b[i]
    {
      RevRangeAgreesAt(z, count, a, b, i);
    }
  }

  lemma {:induction false} RevRangeAgreesAt(z: map<string, real>, count: nat, a: seq<string>, b: seq<string>, i: nat)
    requires IsRevRange(z, count, a) && IsRevRange(z, count, b)
    requires i < |a|
    ensures a[i] == b[i]
    decreases i
  {
    forall j | 0 <= j < i
      ensures a[j] == b[j]
    {
      RevRangeAgreesAt(z, count, a, b, j);
    }
    if a[i] != b[i] {
      var x, y := a[i], b[i];
      // x outranks y, since y is either listed after x in a or not listed in a
      assert Outranks(z, x, y) by {
        if y in a {
          var k :| 0 <= k < |a| && a[k] == y;
          if k < i {
            assert b[k] == y;
            OutranksIrreflexive(z, y);
          }
        }
      }
      // and y outranks x by the same argument on b
      assert Outranks(z, y, x) by {
        if x in b {
          var k :| 0 <= k < |b| && b[k] == x;
          if k < i {
            assert a[k] == x;
            OutranksIrreflexive(z, x);
          }
        }
      }
      OutranksTransitive(z, x, y, x);
      OutranksIrreflexive(z, x);
    }
  }

  /** `ms` lists, best first, the members of `z` outside `rest`, each of
      which outranks every member still in `rest`. */
  ghost predicate RankedPrefix(z: map<string, real>, ms: seq<string>, rest: set<string>) {
    && rest <= z.Keys
    && (forall k :: k in z ==> (k in rest <==> k !in ms))
    && (forall i :: 0 <= i < |ms| ==> ms[i] in z)
    && (forall i, j :: 0 <= i < j < |ms| ==> ms[i] in z && ms[j] in z && Outranks(z, ms[i], ms[j]))
    && (forall k, i :: k in rest && 0 <= i < |ms| ==> ms[i] in z && Outranks(z, ms[i], k))
  }

  lemma RankedPrefixStep(z: map<string, real>, ms: seq<string>, rest: set<string>, m: string)
    requires RankedPrefix(z, ms, rest) && m in rest
    requires forall k :: k in rest && k != m ==> Outranks(z, m, k)
    ensures RankedPrefix(z, ms + [m], rest - {m})
  {
  }

  lemma RankedPrefixDone(z: map<string, real>, count: nat, ms: seq<string>, rest: set<string>)
    requires RankedPrefix(z, ms, rest)
    requires |ms| <= count && |ms| + |rest| == |z| && (|ms| == count || rest == {})
    ensures IsRevRange(z, count, ms)
  {
  }

  /** The best-ranked member of the non-empty set `s` of members of `z`. */
  method BestOf(z: map<string, real>, s: set<string>) returns (m: string)
    requires s != {} && s <= z.Keys
    ensures m in s
    ensures forall k :: k in s && k != m ==> Outranks(z, m, k)
  {
    m :| m in s;
    var todo := s - {m};
    while todo != {}
      invariant todo <= s && m in s && m !in todo
      invariant forall k :: k in s - todo && k != m ==> Outranks(z, m, k)
      decreases |todo|
    {
      var k :| k in todo;
      if Outranks(z, k, m) {
        forall j | j in s - todo && j != k
          ensures Outranks(z, k, j)
        {
          if j != m {
            OutranksTransitive(z, k, m, j);
          }
        }
        m := k;
      } else {
        OutranksTotal(z, k, m);
      }
      todo := todo - {k};
    }
  }

  /** The Redis connection shared by the services: one mutable keyspace. */
  class RedisStore {
    var data: Keyspace

    constructor ()
      ensures data == map[]
    {
      data := map[];
    }

    method ZIncrBy(key: string, amount: real, member: string)
      modifies this
      ensures data == ZIncr(old(data), key, member, amount)
    {
      data := ZIncr(data, key, member, amount);
    }

    method HSet(key: string, field: string, value: string)
      modifies this
      ensures data == HSetText(old(data), key, field, value)
    {
      data := HSetText(data, key, field, value);
    }

    method HIncrBy(key: string, field: string, amount: int)
      modifies this
      ensures data == HIncrInt(old(data), key, field, amount)
    {
      data := HIncrInt(data, key, field, amount);
    }

    method HIncrByFloat(key: string, field: string, amount: real)
      modifies this
      ensures data == HIncrFloat(old(data), key, field, amount)
    {
      data := HIncrFloat(data, key, field, amount);
    }

    method RPushItem(key: string, item: string)
      modifies this
      ensures data == RPush(old(data), key, item)
    {
      data := RPush(data, key, item);
    }

    method ZRem(key: string, member: string)
      modifies this
      ensures data == ZRemove(old(data), key, member)
    {
      data := ZRemove(data, key, member);
    }

    method Delete(keys: set<string>)
      modifies this
      ensures data == old(data) - keys
    {
      data := data - keys;
    }

    /** HGETALL key */
    function HGetAll(key: string): map<string, Field>
      reads this
    {
      HFields(data, key)
    }

    /** LRANGE key 0 -1 */
    function LRangeAll(key: string): seq<string>
      reads this
    {
      LItems(data, key)
    }

    /** ZREVRANGE key 0 (count-1) WITHSCORES, built by repeatedly taking the
        best-ranked member not yet listed. */
    method ZRevRangeWithScores(key: string, count: nat) returns (items: seq<(string, real)>)
      ensures IsRevRange(ZScores(data, key), count, Members(items))
      ensures forall i :: 0 <= i < |items| ==>
        items[i].0 in ZScores(data, key) && items[i].1 == ZScores(data, key)[items[i].0]
    {
      var z := ZScores(data, key);
      var rest := z.Keys;
      var ms: seq<string> := [];
      items := [];
      while |ms| < count && rest != {}
        invariant RankedPrefix(z, ms, rest)
        invariant |ms| <= count && |ms| + |rest| == |z|
        invariant |items| == |ms| && forall i :: 0 <= i < |ms| ==> items[i] == (ms[i], z[ms[i]])
        decreases |rest|
      {
        var m := BestOf(z, rest);
        RankedPrefixStep(z, ms, rest, m);
        items, ms := items + [(m, z[m])], ms + [m];
        rest := rest - {m};
      }
      RankedPrefixDone(z, count, ms, rest);
      assert Members(items) == ms;
    }
  }
}
