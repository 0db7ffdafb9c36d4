/** The key an object is stored under in Redis: type key, `:`, ID. */
module RedisKeys {
  import opened Base

  function RedisKey(typeKey: string, id: Id): string {
    typeKey + ":" + id
  }

  function TypeAndID(redisKey: string): (string, Id) {
    var index := LastIndex(redisKey, ':');
    if index == -1 then (redisKey, redisKey) else (redisKey[..index], redisKey[index + 1..])
  }

  /** The type key a loaded object's container is chosen by. */
  function TypePart(redisKey: string): string {
    var index := LastIndex(redisKey, ':');
    if index != -1 then redisKey[..index] else redisKey
  }

  /** Type keys may hold colons; the round trip works exactly for IDs that do not. */
  lemma KeyRoundTrip(typeKey: string, id: Id)
    ensures TypeAndID(RedisKey(typeKey, id)) == (typeKey, id) <==> ':' !in id
    ensures ':' !in id ==> TypePart(RedisKey(typeKey, id)) == typeKey
  {
    var key := RedisKey(typeKey, id);
    assert key == typeKey + [':'] + id;
    if ':' !in id {
      LastIndexIs(typeKey, ':', id);
      assert key[..|typeKey|] == typeKey && key[|typeKey| + 1..] == id;
    } else {
      var i := LastIndex(key, ':');
      assert key[|typeKey|] == ':';
      assert forall k :: i < k < |key| ==> key[i + 1..][k - i - 1] == key[k];
      assert ':' !in key[i + 1..];
    }
  }

  lemma KeyInjective(t1: string, id1: Id, t2: string, id2: Id)
    requires ':' !in id1 && ':' !in id2
    ensures RedisKey(t1, id1) == RedisKey(t2, id2) <==> t1 == t2 && id1 == id2
  {
    KeyRoundTrip(t1, id1);
    KeyRoundTrip(t2, id2);
  }

  /**
   Any key with a colon is put together again from its two parts, of which the second holds no colon; a key
   without one is taken for type and ID alike. The container is always chosen by the first part.
   */
  lemma PartsRejoin(redisKey: string)
    ensures var (typeKey, id) := TypeAndID(redisKey);
            && TypePart(redisKey) == typeKey
            && (':' in redisKey ==> RedisKey(typeKey, id) == redisKey && ':' !in id)
            && (':' !in redisKey ==> typeKey == redisKey && id == redisKey)
  {
    var i := LastIndex(redisKey, ':');
    if i != -1 {
      assert redisKey == redisKey[..i] + ":" + redisKey[i + 1..];
      assert forall k :: i < k < |redisKey| ==> redisKey[i + 1..][k - i - 1] == redisKey[k];
    }
  }
}
