/**
 * The bounded log backlog of src/service/log_queue.rs: a FIFO ring of the last `cap`
 * lines, a broadcast of every pushed line, and listeners that replay the backlog and
 * then forward the live broadcast until their sink goes away.
 */
module LogQueue {

  /** One outcome of `broadcast::Receiver::recv`. */
  datatype RecvResult<T> = Item(value: T) | Lagged(skipped: nat) | Closed

  /** Why a listener stopped: a send into its sink failed, the receiver failed, or it is still waiting. */
  datatype Stop = SendRejected | ReceiveFailed | Waiting

  /** What a listener forwarded into its sink, in order, and why it stopped. */
  datatype Delivery<T> = Delivery(forwarded: seq<T>, stop: Stop)

  /** A listener attached to the broadcast after its first `start` values. */
  datatype Listener = Listener(start: nat)

  /** The values the receiver yields before its first error. */
  function ItemsBeforeError<T>(recv: seq<RecvResult<T>>): (r: seq<T>)
    ensures |r| <= |recv|
  {
    if recv == [] || !recv[0].Item? then [] else [recv[0].value] + ItemsBeforeError(recv[1..])
  }

  predicate HasError<T>(recv: seq<RecvResult<T>>) {
    exists k :: 0 <= k < |recv| && !recv[k].Item?
  }

  /** The live feed of a receiver that never lags: every value broadcast since it subscribed. */
  function Feed<T>(values: seq<T>): (r: seq<RecvResult<T>>)
    ensures |r| == |values|
    ensures forall k :: 0 <= k < |values| ==> r[k] == Item(values[k])
  {
    if values == [] then [] else [Item(values[0])] + Feed(values[1..])
  }

  /**
   * What `listen` delivers when the sink accepts exactly its first `sinkOpen` sends:
   * the backlog, then the live values up to the receiver's first error, cut at the first
   * rejected send.
   */
  function Delivered<T>(backlog: seq<T>, recv: seq<RecvResult<T>>, sinkOpen: nat): Delivery<T> {
    var all := backlog + ItemsBeforeError(recv);
    if sinkOpen < |all| then Delivery(all[..sinkOpen], SendRejected)
    else Delivery(all, if HasError(recv) then ReceiveFailed else Waiting)
  }

  /** The cache after one `push_data`: evict the front when full, then append. */
  function AfterPush<T>(cache: seq<T>, cap: nat, v: T): seq<T> {
    (if |cache| == cap && cache != [] then cache[1..] else cache) + [v]
  }

  /** The cache after pushing `vs` in order. */
  function AfterPushes<T>(cache: seq<T>, cap: nat, vs: seq<T>): seq<T>
    decreases |vs|
  {
    if vs == [] then cache else AfterPushes(AfterPush(cache, cap, vs[0]), cap, vs[1..])
  }

  function Min(a: nat, b: nat): nat { if a <= b then a else b }

  /** The last min(|w|, n) values of `w`. */
  function Last<T>(w: seq<T>, n: nat): (r: seq<T>)
    ensures |r| == Min(|w|, n)
  {
    w[|w| - Min(|w|, n)..]
  }

  /** One push never lets the cache outgrow its capacity. */
  lemma PushBounded<T>(cache: seq<T>, cap: nat, v: T)
    requires 0 < cap && |cache| <= cap
    ensures |AfterPush(cache, cap, v)| <= cap
    ensures |cache| < cap ==> AfterPush(cache, cap, v) == cache + [v]
    ensures |cache| == cap ==> AfterPush(cache, cap, v) == cache[1..] + [v]
  {
  }

  /** Pushing onto the last min(|w|, cap) values of `w` keeps the last min(|w|+1, cap) values of `w + [v]`. */
  lemma {:induction false} PushKeepsSuffix<T>(w: seq<T>, cap: nat, v: T)
    requires 0 < cap
    ensures AfterPush(Last(w, cap), cap, v) == Last(w + [v], cap)
  {
    var s := Last(w, cap);
    var t := w + [v];
    if |w| < cap {
      assert s == w;
      assert Last(t, cap) == t;
    } else {
      assert |s| == cap;
      assert s[1..] + [v] == t[|t| - cap..];
    }
  }

  /**
   * After pushing `vs` into a cache that holds the last values of `before`, the cache holds
   * the last min(k, cap) values of everything pushed: the FIFO-ring round trip.
   */
  lemma {:induction false} PushesKeepLast<T>(before: seq<T>, cap: nat, vs: seq<T>)
    requires 0 < cap
    ensures AfterPushes(Last(before, cap), cap, vs) == Last(before + vs, cap)
    decreases |vs|
  {
    if vs != [] {
      var w := before + [vs[0]];
      PushKeepsSuffix(before, cap, vs[0]);
      PushesKeepLast(w, cap, vs[1..]);
      assert w + vs[1..] == before + vs;
    }
  }

  /** From an empty queue, the cache is the last min(k, cap) of the k values pushed. */
  lemma PushesFromEmpty<T>(cap: nat, vs: seq<T>)
    requires 0 < cap
    ensures AfterPushes([], cap, vs) == vs[|vs| - Min(|vs|, cap)..]
    ensures |vs| <= cap ==> AfterPushes([], cap, vs) == vs
  {
    var empty: seq<T> := [];
    assert AfterPushes(empty, cap, vs) == vs[|vs| - Min(|vs|, cap)..] by {
      PushesKeepLast(empty, cap, vs);
      assert Last(empty, cap) == empty;
      assert empty + vs == vs;
    }
    if |vs| <= cap {
      assert vs[0..] == vs;
    }
  }

  lemma {:induction false} ItemsBeforeErrorAppend<T>(a: seq<RecvResult<T>>, b: seq<RecvResult<T>>, values: seq<T>)
    requires |a| == |values| && forall k :: 0 <= k < |a| ==> a[k] == Item(values[k])
    ensures ItemsBeforeError(a + b) == values + ItemsBeforeError(b)
    decreases |a|
  {
    if a != [] {
      assert (a + b)[1..] == a[1..] + b;
      ItemsBeforeErrorAppend(a[1..], b, values[1..]);
    } else {
      assert a + b == b;
    }
  }

  /**
   * A listener whose receiver never lags and whose sink stays open gets the cache, then
   * exactly the values broadcast since it subscribed.
   */
  lemma {:induction false} FeedDeliversAll<T>(cache: seq<T>, broadcast: seq<T>, l: Listener, sinkOpen: nat)
    requires l.start <= |broadcast| && |cache| + |broadcast| - l.start <= sinkOpen
    ensures Delivered(cache, Feed(broadcast[l.start..]), sinkOpen) == Delivery(cache + broadcast[l.start..], Waiting)
  {
    var values := broadcast[l.start..];
    ItemsBeforeErrorAppend(Feed(values), [], values);
    assert Feed(values) + [] == Feed(values);
  }

  /** The last `|vs|` values of a cache after pushing `vs` (no more than fit) are `vs` themselves. */
  lemma PushesEndWith<T>(cache: seq<T>, cap: nat, vs: seq<T>)
    requires 0 < cap && |cache| <= cap && |vs| <= cap
    ensures var c := AfterPushes(cache, cap, vs); |vs| <= |c| <= cap && c[|c| - |vs|..] == vs
  {
    PushesKeepLast(cache, cap, vs);
    assert Last(cache, cap) == cache;
    var all := cache + vs;
    var c := Last(all, cap);
    assert c[|c| - |vs|..] == all[|cache|..];
    assert all[|cache|..] == vs;
  }

  /**
   * `listen` takes its cache snapshot after `subscribe` created the receiver, so a value
   * pushed in between is both in the snapshot and on the receiver: it arrives twice,
   * the copies `|vs|` values apart.
   */
  lemma PushedBetweenArriveTwice<T>(cache: seq<T>, cap: nat, vs: seq<T>, sinkOpen: nat)
    requires 0 < cap && |cache| <= cap && |vs| <= cap && 2 * cap <= sinkOpen
    ensures var snapshot := AfterPushes(cache, cap, vs);
      var d := Delivered(snapshot, Feed(vs), sinkOpen);
      && |vs| <= |snapshot| && d == Delivery(snapshot + vs, Waiting)
      && d.forwarded[|d.forwarded| - 2 * |vs|..] == vs + vs
  {
    var snapshot := AfterPushes(cache, cap, vs);
    PushesEndWith(cache, cap, vs);
    FeedDeliversAll(snapshot, vs, Listener(0), sinkOpen);
    assert vs[0..] == vs;
    var f := snapshot + vs;
    assert f[|f| - 2 * |vs|..] == snapshot[|snapshot| - |vs|..] + vs;
  }

  /** The backlog always comes first: whatever is forwarded is a prefix of backlog-then-live. */
  lemma DeliveredOrder<T>(backlog: seq<T>, recv: seq<RecvResult<T>>, sinkOpen: nat)
    ensures var d := Delivered(backlog, recv, sinkOpen);
      d.forwarded <= backlog + ItemsBeforeError(recv)
      && (sinkOpen >= |backlog| ==> d.forwarded[..|backlog|] == backlog)
      && |d.forwarded| <= sinkOpen
  {
  }

  /**
   * The two loops of `listen` over a snapshot of the cache: send the snapshot, then what
   * the receiver yields, until a send is rejected or the receiver fails.
   */
  method Forward<T>(backlog: seq<T>, recv: seq<RecvResult<T>>, sinkOpen: nat) returns (d: Delivery<T>)
    ensures d == Delivered(backlog, recv, sinkOpen)
  {
    var out: seq<T> := [];
    var i := 0;
    while i < |backlog|
      invariant 0 <= i <= |backlog| && i <= sinkOpen
      invariant out == backlog[..i]
    {
      if |out| == sinkOpen {
        d := Delivery(out, SendRejected);
        return;
      }
      out := out + [backlog[i]];
      i := i + 1;
    }
    assert backlog[..i] == backlog;
    var j := 0;
    ghost var values: seq<T> := [];
    while j < |recv|
      invariant 0 <= j <= |recv| && |values| == j
      invariant forall k :: 0 <= k < j ==> recv[k] == Item(values[k])
      invariant out == backlog + values && |out| <= sinkOpen
    {
      if !recv[j].Item? {
        ItemsBeforeErrorAppend(recv[..j], recv[j..], values);
        assert recv[..j] + recv[j..] == recv;
        d := Delivery(out, ReceiveFailed);
        return;
      }
      if |out| == sinkOpen {
        ItemsBeforeErrorAppend(recv[..j], recv[j..], values);
        assert recv[..j] + recv[j..] == recv;
        d := Delivery(out, SendRejected);
        return;
      }
      out := out + [recv[j].value];
      values := values + [recv[j].value];
      j := j + 1;
    }
    ItemsBeforeErrorAppend(recv, [], values);
    assert recv + [] == recv;
    d := Delivery(out, Waiting);
  }

  lemma PrefixAppend<T>(a: seq<T>, b: seq<T>, c: seq<T>)
    requires b <= c
    ensures a + b <= a + c
  {
    assert (a + c)[..|a + b|] == a + b;
  }

  class LogQueue<T> {
    /** The backlog (`VecDeque` contents), oldest first. */
    var cache: seq<T>
    /** Every value handed to the broadcast sender, in push order. */
    var broadcast: seq<T>
    /** The `max_size` the queue was created with. */
    const maxSize: nat
    /** `VecDeque::capacity()`: at least `maxSize`, and fixed once the queue is full. */
    const cap: nat

    /** The cache is always the last `cap` values broadcast, or all of them while fewer were pushed. */
    ghost predicate Valid()
      reads this
    {
      0 < cap && maxSize <= cap && cache == Last(broadcast, cap)
    }

    /** `LogQueue::new(max_size)`; `capacity` is what `VecDeque::with_capacity` granted. */
    constructor (maxSize: nat, capacity: nat)
      requires 0 < maxSize <= capacity
      ensures Valid()
      ensures this.maxSize == maxSize && cap == capacity
      ensures cache == [] && broadcast == []
    {
      this.maxSize := maxSize;
      cap := capacity;
      cache := [];
      broadcast := [];
    }

    /** `push_data`: evict the front when the cache is full, append, then broadcast. */
    method PushData(v: T)
      requires Valid()
      modifies this
      ensures Valid()
      ensures |old(cache)| < cap ==> cache == old(cache) + [v]
      ensures |old(cache)| == cap ==> cache == old(cache)[1..] + [v]
      ensures cache == AfterPush(old(cache), cap, v)
      ensures broadcast == old(broadcast) + [v]
    {
      PushKeepsSuffix(broadcast, cap, v);
      if |cache| == cap {
        cache := cache[1..];
      }
      cache := cache + [v];
      broadcast := broadcast + [v];
    }

    /**
     * `subscribe`: the new receiver starts at the end of the broadcast, so what it will
     * yield is what is pushed from now on (`broadcast[l.start..]`, nothing yet).
     */
    method Subscribe() returns (l: Listener)
      ensures l.start <= |broadcast| && broadcast[l.start..] == []
    {
      l := Listener(|broadcast|);
    }

    /**
     * `LogQueueListener::listen`: replay the cache as it is NOW, then forward what the
     * listener's receiver yields, stopping at the first rejected send or the first receive
     * error. The values `recv` yields before its first error are values broadcast since
     * the listener subscribed, in order (a lagging receiver yields an error, not a gap).
     * The sink accepts exactly its first `sinkOpen` sends.
     */
    method Listen(l: Listener, recv: seq<RecvResult<T>>, sinkOpen: nat) returns (d: Delivery<T>)
      requires l.start <= |broadcast| && ItemsBeforeError(recv) <= broadcast[l.start..]
      ensures d == Delivered(cache, recv, sinkOpen)
      ensures d.forwarded <= cache + broadcast[l.start..]
      ensures recv == Feed(broadcast[l.start..]) && |cache| + |broadcast| - l.start <= sinkOpen ==>
        d == Delivery(cache + broadcast[l.start..], Waiting)
    {
      DeliveredWithinHistory(l, recv, sinkOpen);
      if recv == Feed(broadcast[l.start..]) && |cache| + |broadcast| - l.start <= sinkOpen {
        FeedDeliversAll(cache, broadcast, l, sinkOpen);
      }
      d := Forward(cache, recv, sinkOpen);
    }

    /** The delivery is a prefix of the cache followed by what was broadcast since `l` subscribed. */
    lemma DeliveredWithinHistory(l: Listener, recv: seq<RecvResult<T>>, sinkOpen: nat)
      requires l.start <= |broadcast| && ItemsBeforeError(recv) <= broadcast[l.start..]
      ensures Delivered(cache, recv, sinkOpen).forwarded <= cache + broadcast[l.start..]
    {
      DeliveredOrder(cache, recv, sinkOpen);
      PrefixAppend(cache, ItemsBeforeError(recv), broadcast[l.start..]);
    }
  }
}
