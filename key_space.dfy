/**
 * The key namespace of a queue: every store key is `prefix:name:type`,
 * and `FromKey` recovers `type` by cutting off as many characters as the
 * key of the empty type has.
 */
module KeySpace {

  /** The store key of resource `t` for the queue `name` under `prefix`. */
  function ToKey(prefix: string, name: string, t: string): (k: string)
    ensures |k| == |prefix| + |name| + |t| + 2
    ensures k[..|prefix|] == prefix && k[|prefix|] == ':'
    ensures k[|prefix| + 1..|prefix| + 1 + |name|] == name && k[|prefix| + 1 + |name|] == ':'
    ensures k[|k| - |t|..] == t
  {
    prefix + ":" + name + ":" + t
  }

  /** The common head of every key of the queue: the key of the empty type. */
  function Head(prefix: string, name: string): (h: string)
    ensures h == prefix + ":" + name + ":"
    ensures |h| == |prefix| + |name| + 2
  {
    ToKey(prefix, name, "")
  }

  /**
   * The type part of `key`: `key` without its first `|Head(prefix, name)|`
   * characters, or the empty string when `key` is no longer than that
   * (a slice past the end is empty). Delimiters are not looked at.
   */
  function FromKey(prefix: string, name: string, key: string): (r: string)
    ensures |r| == if |key| <= |Head(prefix, name)| then 0 else |key| - |Head(prefix, name)|
    ensures r == key[|key| - |r|..]
  {
    var n := |Head(prefix, name)|;
    if |key| <= n then "" else key[n..]
  }

  /** Every key is the head followed by its type. */
  lemma ToKeySplit(prefix: string, name: string, t: string)
    ensures ToKey(prefix, name, t) == Head(prefix, name) + t
    ensures |ToKey(prefix, name, t)| == |Head(prefix, name)| + |t|
  {
  }

  /**
   * Round trip: `FromKey` gives back the type of any key built by `ToKey`,
   * whatever `prefix`, `name` and `t` contain, colons included.
   */
  lemma FromKeyToKey(prefix: string, name: string, t: string)
    ensures FromKey(prefix, name, ToKey(prefix, name, t)) == t
  {
  }

  /** `ToKey` never sends two types of one queue to the same key. */
  lemma ToKeyInjective(prefix: string, name: string, t1: string, t2: string)
    requires ToKey(prefix, name, t1) == ToKey(prefix, name, t2)
    ensures t1 == t2
  {
  }

  /**
   * A key belongs to the queue's namespace with type `t` exactly when it
   * starts with the queue's head and `FromKey` reads `t` from it.
   */
  lemma FromKeyCharacterises(prefix: string, name: string, key: string, t: string)
    ensures key == ToKey(prefix, name, t)
        <==> (Head(prefix, name) <= key && FromKey(prefix, name, key) == t)
  {
  }

  /**
   * The example of the documentation comment on `fromKey`: the key
   * `bull:myQueueName:job1` gives `job1`.
   */
  lemma DocumentedExample()
    ensures FromKey("bull", "myQueueName", "bull:myQueueName:job1") == "job1"
  {
  }

  /**
   * Colons in a prefix or name blur where one ends: two different queues
   * can own the same keys, and `FromKey` of either reads the same type.
   */
  lemma NamespacesCanCollide(t: string)
    ensures ToKey("a:b", "c", t) == ToKey("a", "b:c", t)
    ensures FromKey("a:b", "c", ToKey("a", "b:c", t)) == t
  {
  }

  /** `by-name:<jobName>` keys, a sub-namespace of the queue: `FromKey` reads back the compound type. */
  lemma ByNameKeyShape(prefix: string, name: string, jobName: string)
    ensures ToKey(prefix, name, "by-name") + ":" + jobName == ToKey(prefix, name, "by-name:" + jobName)
    ensures FromKey(prefix, name, ToKey(prefix, name, "by-name") + ":" + jobName) == "by-name:" + jobName
  {
  }

  /** The resource types whose keys a queue computes once, at construction. */
  const Labels: seq<string> := [
    "", "active", "wait", "waiting", "paused", "resumed", "id", "delayed",
    "priority", "stalled-check", "completed", "failed", "stalled", "repeat",
    "limiter", "drained", "progress", "meta", "events", "delay", "by-name"
  ]

  function LabelSet(): set<string>
  {
    set l | l in Labels
  }

  predicate Distinct<T(==)>(s: seq<T>)
  {
    forall i, j :: 0 <= i < j < |s| ==> s[i] != s[j]
  }

  /** A sequence without repeats has as many elements as its set. */
  lemma {:induction false} DistinctCardinality<T>(s: seq<T>)
    requires Distinct(s)
    ensures |set x | x in s| == |s|
  {
    if s != [] {
      var tail := s[1..];
      assert Distinct(tail) by {
        forall i, j | 0 <= i < j < |tail| ensures tail[i] != tail[j] {
          assert tail[i] == s[i + 1] && tail[j] == s[j + 1];
        }
      }
      DistinctCardinality(tail);
      assert s[0] !in tail by {
        forall k | 0 <= k < |tail| ensures tail[k] != s[0] {
          assert tail[k] == s[k + 1];
        }
      }
      assert (set x | x in s) == {s[0]} + (set x | x in tail) by {
        assert s == [s[0]] + tail;
      }
    }
  }

  /** The label list holds 21 different labels, the empty one among them. */
  lemma LabelCount()
    ensures "" in LabelSet() && "by-name" in LabelSet()
    ensures |LabelSet()| == 21
  {
    assert Distinct(Labels);
    DistinctCardinality(Labels);
  }

  /**
   * The key table: for each label, in order, record its key. Labels met
   * again overwrite with the same key.
   */
  method BuildKeys(prefix: string, name: string, labels: seq<string>) returns (keys: map<string, string>)
    ensures keys.Keys == set l | l in labels
    ensures forall l :: l in keys ==> keys[l] == ToKey(prefix, name, l)
  {
    keys := map[];
    var i := 0;
    while i < |labels|
      invariant 0 <= i <= |labels|
      invariant keys.Keys == set l | l in labels[..i]
      invariant forall l :: l in keys ==> keys[l] == ToKey(prefix, name, l)
    {
      keys := keys[labels[i] := ToKey(prefix, name, labels[i])];
      assert labels[..i + 1] == labels[..i] + [labels[i]];
      i := i + 1;
    }
    assert labels[..i] == labels;
  }
}
