/**
 * A queue's identity and teardown guard: its name, resolved prefix and key
 * table, computed once at construction, and the memoised `closing` handle.
 */
module QueueBases {
  import opened Wrappers
  import opened Options
  import KeySpace

  /** What the store connection's `close`/`disconnect` hand back: an opaque pending completion. */
  datatype Handle = Handle(id: nat)

  /** The owned store connection, reduced to the settings it was created from. */
  datatype RedisConnection = RedisConnection(options: Option<ConnectionOptions>)

  class QueueBase {
    const name: string
    const opts: QueueBaseOptions
    const connection: RedisConnection
    var keys: map<string, string>
    var closing: Option<Handle>

    /** How often the connection's `close` and `disconnect` have been invoked. */
    ghost var closeCalls: nat
    ghost var disconnectCalls: nat

    /** The prefix the queue's keys live under: the resolved options always carry one. */
    function Prefix(): string
    {
      opts.prefix.GetOr(DefaultPrefix)
    }

    ghost predicate Valid()
      reads this
    {
      && opts.prefix.Some?
      && keys.Keys == KeySpace.LabelSet()
      && (forall l :: l in keys ==> keys[l] == KeySpace.ToKey(Prefix(), name, l))
      && closeCalls == (if closing.Some? then 1 else 0)
    }

    constructor (name: string, opts: QueueBaseOptions)
      ensures Valid()
      ensures this.name == name && this.opts == Resolve(opts)
      ensures Prefix() == Resolve(opts).prefix.value
      ensures connection == RedisConnection(opts.connection)
      ensures |keys| == 21
      ensures forall l :: l in KeySpace.Labels ==> l in keys && keys[l] == KeySpace.ToKey(Prefix(), name, l)
      ensures closing == None && closeCalls == 0 && disconnectCalls == 0
    {
      this.name := name;
      this.opts := Resolve(opts);
      this.connection := RedisConnection(opts.connection);
      new;
      keys := KeySpace.BuildKeys(Prefix(), name, KeySpace.Labels);
      closing := None;
      closeCalls, disconnectCalls := 0, 0;
      KeySpace.LabelCount();
    }

    /** The key of the secondary index of jobs named `jobName`. */
    function ByNameKey(jobName: string): (r: string)
      reads this
      requires Valid()
      ensures r == KeySpace.ToKey(Prefix(), name, "by-name:" + jobName)
      ensures KeySpace.FromKey(Prefix(), name, r) == "by-name:" + jobName
    {
      KeySpace.LabelCount();
      KeySpace.ByNameKeyShape(Prefix(), name, jobName);
      keys["by-name"] + ":" + jobName
    }

    /**
     * Graceful teardown, memoised. `pending` is what the connection's `close`
     * returns if it is invoked now; it is invoked only when nothing is
     * memoised yet, and every call returns the memoised handle.
     */
    method Close(pending: Handle) returns (h: Handle)
      requires Valid()
      modifies this
      ensures Valid()
      ensures old(closing).None? ==> h == pending && closeCalls == 1
      ensures old(closing).Some? ==> h == old(closing).value && closeCalls == old(closeCalls)
      ensures closing == Some(h) && closeCalls <= 1
      ensures keys == old(keys) && disconnectCalls == old(disconnectCalls)
    {
      if closing.None? {
        closing := Some(pending);
        closeCalls := closeCalls + 1;
      }
      h := closing.value;
    }

    /**
     * Hard teardown, not memoised: the connection's `disconnect` is invoked
     * on every call and its `result` returned, whatever `closing` holds.
     */
    method Disconnect(result: Handle) returns (h: Handle)
      requires Valid()
      modifies this
      ensures Valid()
      ensures h == result && disconnectCalls == old(disconnectCalls) + 1
      ensures closing == old(closing) && closeCalls == old(closeCalls) && keys == old(keys)
    {
      disconnectCalls := disconnectCalls + 1;
      h := result;
    }
  }

  /**
   * A queue named "orders" built without options lives under "bull": its
   * active list and by-name index have the keys below.
   */
  method DefaultKeysScenario() returns (active: string, byName: string)
    ensures active == "bull:orders:active" && byName == "bull:orders:by-name"
  {
    var q := new QueueBase("orders", QueueBaseOptions(None, None));
    assert q.Prefix() == "bull";
    assert KeySpace.Labels[1] == "active" && KeySpace.Labels[20] == "by-name";
    active := q.keys["active"];
    byName := q.keys["by-name"];
    OrdersKeys();
  }

  /** The two keys of the scenario above, spelled out. */
  lemma OrdersKeys()
    ensures KeySpace.ToKey("bull", "orders", "active") == "bull:orders:active"
    ensures KeySpace.ToKey("bull", "orders", "by-name") == "bull:orders:by-name"
  {
  }

  /**
   * Three closes and a disconnect on a fresh queue with default options:
   * one underlying close, one handle seen by all three callers, and the
   * disconnect still goes through.
   */
  method TeardownScenario(first: Handle, second: Handle, third: Handle, hard: Handle)
    returns (r1: Handle, r2: Handle, r3: Handle, d: Handle)
    ensures r1 == first && r2 == first && r3 == first && d == hard
  {
    var q := new QueueBase("orders", QueueBaseOptions(None, None));
    r1 := q.Close(first);
    r2 := q.Close(second);
    r3 := q.Close(third);
    assert q.closeCalls == 1;
    d := q.Disconnect(hard);
    assert q.disconnectCalls == 1 && q.closing == Some(first);
  }
}
