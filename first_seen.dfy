/**
 * First-seen order: reformatData and reformatSteps both append an entry the
 * first time a name shows up (`find`, then `push`), so their entries follow
 * the first occurrences of the names in the input.
 */
module FirstSeen {

  /** Where `key` first occurs in `keys`; `|keys|` when it does not. */
  function FirstIndexOf(keys: seq<string>, key: string): (p: nat)
    ensures p <= |keys|
    ensures p < |keys| <==> key in keys
    ensures p < |keys| ==> keys[p] == key
  {
    if |keys| == 0 then 0
    else if keys[0] == key then 0
    else 1 + FirstIndexOf(keys[1..], key)
  }

  lemma {:induction false} FirstIndexOfSnoc(keys: seq<string>, x: string, key: string)
    ensures FirstIndexOf(keys + [x], key) ==
              if key in keys then FirstIndexOf(keys, key)
              else if x == key then |keys| else |keys| + 1
  {
    if |keys| > 0 {
      assert (keys + [x])[1..] == keys[1..] + [x];
      FirstIndexOfSnoc(keys[1..], x, key);
    }
  }

  /** Each name first occurs in `keys`, and earlier names first occur earlier. */
  predicate FirstSeenOrder(names: seq<string>, keys: seq<string>)
  {
    (forall i :: 0 <= i < |names| ==> FirstIndexOf(keys, names[i]) < |keys|)
    && (forall i, j :: 0 <= i < j < |names| ==> FirstIndexOf(keys, names[i]) < FirstIndexOf(keys, names[j]))
  }

  lemma FirstSeenOrderExtend(names: seq<string>, keys: seq<string>, x: string)
    requires FirstSeenOrder(names, keys)
    ensures FirstSeenOrder(names, keys + [x])
  {
    forall i | 0 <= i < |names|
      ensures FirstIndexOf(keys + [x], names[i]) == FirstIndexOf(keys, names[i])
    {
      FirstIndexOfSnoc(keys, x, names[i]);
    }
  }

  lemma FirstSeenOrderAppend(names: seq<string>, keys: seq<string>, key: string)
    requires FirstSeenOrder(names, keys) && key !in keys
    ensures FirstSeenOrder(names + [key], keys + [key])
  {
    FirstSeenOrderExtend(names, keys, key);
    FirstIndexOfSnoc(keys, key, key);
  }

}
