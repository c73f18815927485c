/** The Redis keys of one breaker: `prefix:tag:key` for seven tags. */
module Keys {

  /** The text between `prefix + ":"` and `":" + key` in a key built for
      `prefix` and `key`; `""` when the key is too short to hold both. */
  function TagOf(prefix: string, k: string, key: string): string {
    if |prefix| + 2 + |key| <= |k| then k[|prefix| + 1 .. |k| - |key| - 1] else ""
  }

  /** `fmt.Sprintf("%s:<tag>:%s", prefix, key)`: the key starts with the
      prefix, ends with the breaker key, and the tag can be read back. */
  function Tagged(prefix: string, tag: string, key: string): (k: string)
    ensures |k| == |prefix| + |tag| + |key| + 2
    ensures k[..|prefix|] == prefix && k[|k| - |key|..] == key
    ensures k[|prefix|] == ':' && k[|prefix| + |tag| + 1] == ':'
    ensures TagOf(prefix, k, key) == tag
  {
    var k := prefix + ":" + tag + ":" + key;
    assert k[..|prefix|] == prefix && k[|k| - |key|..] == key;
    assert k[|prefix| + 1 .. |k| - |key| - 1] == tag;
    k
  }

  function StateKey(prefix: string, key: string): (k: string)
    ensures TagOf(prefix, k, key) == "state"
  { Tagged(prefix, "state", key) }

  function RequestKey(prefix: string, key: string): (k: string)
    ensures TagOf(prefix, k, key) == "req"
  { Tagged(prefix, "req", key) }

  function FailureKey(prefix: string, key: string): (k: string)
    ensures TagOf(prefix, k, key) == "fail"
  { Tagged(prefix, "fail", key) }

  function ConsecutiveFailureKey(prefix: string, key: string): (k: string)
    ensures TagOf(prefix, k, key) == "confail"
  { Tagged(prefix, "confail", key) }

  function SuccessKey(prefix: string, key: string): (k: string)
    ensures TagOf(prefix, k, key) == "succ"
  { Tagged(prefix, "succ", key) }

  function ConsecutiveSuccessKey(prefix: string, key: string): (k: string)
    ensures TagOf(prefix, k, key) == "consucc"
  { Tagged(prefix, "consucc", key) }

  function HalfOpenKey(prefix: string, key: string): (k: string)
    ensures TagOf(prefix, k, key) == "half"
  { Tagged(prefix, "half", key) }

  /** The seven keys of one breaker, in the order the builders are declared. */
  function BreakerKeys(prefix: string, key: string): (ks: seq<string>)
    ensures |ks| == 7
  {
    [StateKey(prefix, key), RequestKey(prefix, key), FailureKey(prefix, key),
     ConsecutiveFailureKey(prefix, key), SuccessKey(prefix, key),
     ConsecutiveSuccessKey(prefix, key), HalfOpenKey(prefix, key)]
  }

  /** For a fixed prefix and key, the tag can be read back from the key. */
  lemma {:induction false} TaggedInjective(prefix: string, tag1: string, tag2: string, key: string)
    requires Tagged(prefix, tag1, key) == Tagged(prefix, tag2, key)
    ensures tag1 == tag2
  {
    assert TagOf(prefix, Tagged(prefix, tag1, key), key) == tag1;
    assert TagOf(prefix, Tagged(prefix, tag2, key), key) == tag2;
  }

  /** The seven keys of one breaker are pairwise distinct, so each command
      touches exactly one of the breaker's seven values. */
  lemma KeysDistinct(prefix: string, key: string)
    ensures forall i, j :: 0 <= i < j < 7 ==> BreakerKeys(prefix, key)[i] != BreakerKeys(prefix, key)[j]
  {
    var tags := ["state", "req", "fail", "confail", "succ", "consucc", "half"];
    var ks := BreakerKeys(prefix, key);
    forall i, j | 0 <= i < j < 7
      ensures ks[i] != ks[j]
    {
      assert ks[i] == Tagged(prefix, tags[i], key) && ks[j] == Tagged(prefix, tags[j], key);
      assert tags[i] != tags[j];
      assert TagOf(prefix, ks[i], key) != TagOf(prefix, ks[j], key);
    }
  }
}
