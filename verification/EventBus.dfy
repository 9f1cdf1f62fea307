/**
 * taskrunner/shared/events.py: a bounded replay window and bounded subscriber buffers. What one
 * subscriber sees is a value, a View; the bus is a class whose methods change views by the functions
 * below. A publication runs to its end without giving way, so it is one step.
 */
module EventBus {
  import opened Models

  const BUFFER_SIZE: nat := 1_000

  function Start(n: nat, size: nat): nat {
    if n < size then 0 else n - size
  }

  /** The contents of a deque with maxlen `size` to which the log was appended. */
  function Window<E>(log: seq<E>, size: nat): seq<E> {
    log[Start(|log|, size)..]
  }

  function Append<E>(replay: seq<E>, e: E, size: nat): seq<E> {
    Window(replay + [e], size)
  }

  /** What a subscriber has been given, has still to be given from the replay, and has waiting in its buffer. */
  datatype View<E> = View(yielded: seq<E>, history: seq<E>, buffer: seq<E>)
  {
    function Total(): seq<E> { yielded + history + buffer }
  }

  function Join<E>(replay: seq<E>, wanted: bool): View<E> {
    View([], if wanted then replay else [], [])
  }

  /** `put_nowait` on a bounded queue: a full one refuses. */
  function Offer<E>(v: View<E>, e: E): View<E> {
    if |v.buffer| < BUFFER_SIZE then v.(buffer := v.buffer + [e]) else v
  }

  predicate CanYield<E>(v: View<E>) {
    v.history != [] || v.buffer != []
  }

  /** The generator gives the history first, then the buffer. */
  function Yield<E>(v: View<E>): (r: View<E>)
    requires CanYield(v)
    ensures r.Total() == v.Total() && |r.yielded| == |v.yielded| + 1
  {
    if v.history != [] then v.(yielded := v.yielded + [v.history[0]], history := v.history[1..])
    else v.(yielded := v.yielded + [v.buffer[0]], buffer := v.buffer[1..])
  }

  // ---------- One subscriber's run ----------

  datatype Act<E> = Publish(event: E) | Take

  function Step<E>(v: View<E>, act: Act<E>): View<E> {
    match act
    case Publish(e) => Offer(v, e)
    case Take => if CanYield(v) then Yield(v) else v
  }

  function After<E>(v: View<E>, acts: seq<Act<E>>): View<E> {
    if acts == [] then v else Step(After(v, acts[..|acts| - 1]), acts[|acts| - 1])
  }

  function Published<E>(acts: seq<Act<E>>): seq<E> {
    if acts == [] then []
    else Published(acts[..|acts| - 1]) + if acts[|acts| - 1].Publish? then [acts[|acts| - 1].event] else []
  }

  /** Some publication found the buffer full. */
  predicate Overflowed<E>(v: View<E>, acts: seq<Act<E>>) {
    acts != [] &&
    var front := acts[..|acts| - 1];
    Overflowed(v, front) || (acts[|acts| - 1].Publish? && |After(v, front).buffer| >= BUFFER_SIZE)
  }

  /** a is what is left of b when some elements are dropped. */
  ghost predicate Subsequence<E>(a: seq<E>, b: seq<E>) {
    if a == [] then true
    else if b == [] then false
    else (a[|a| - 1] == b[|b| - 1] && Subsequence(a[..|a| - 1], b[..|b| - 1])) || Subsequence(a, b[..|b| - 1])
  }

  lemma SubsequenceMore<E>(a: seq<E>, b: seq<E>, e: E)
    requires Subsequence(a, b)
    ensures Subsequence(a, b + [e]) && Subsequence(a + [e], b + [e])
  {
    assert (a + [e])[..|a|] == a && (b + [e])[..|b|] == b;
  }

  /** The deque holds the last `size` events of the log. */
  lemma WindowIsSuffix<E>(log: seq<E>, e: E, size: nat)
    ensures Append(Window(log, size), e, size) == Window(log + [e], size)
  {
  }

  lemma OfferAppends<E>(v: View<E>, e: E)
    requires |v.buffer| < BUFFER_SIZE
    ensures Offer(v, e).Total() == v.Total() + [e]
  {
  }

  /**
   * Whatever is published and taken after it joined, a subscriber has been given, and has still
   * before it, the history it joined with followed by a subsequence of what was published since:
   * all of it exactly when its buffer never overflowed.
   */
  lemma {:induction false} Delivery<E>(v: View<E>, acts: seq<Act<E>>) returns (live: seq<E>)
    ensures After(v, acts).Total() == v.Total() + live
    ensures Subsequence(live, Published(acts))
    ensures Overflowed(v, acts) ==> |live| < |Published(acts)|
    ensures !Overflowed(v, acts) ==> live == Published(acts)
    ensures |live| <= |Published(acts)|
  {
    if acts == [] {
      live := [];
      assert v.Total() + [] == v.Total();
    } else {
      var front, act := acts[..|acts| - 1], acts[|acts| - 1];
      var w := After(v, front);
      live := Delivery(v, front);
      if act.Publish? {
        SubsequenceMore(live, Published(front), act.event);
        if |w.buffer| < BUFFER_SIZE {
          OfferAppends(w, act.event);
          assert (v.Total() + live) + [act.event] == v.Total() + (live + [act.event]);
          live := live + [act.event];
        }
      } else {
        assert Published(front) + [] == Published(front);
      }
    }
  }

  /**
   * Replay and live delivery join without gap or duplicate: a replaying subscriber's events, given
   * and to come, are the suffix of the log from `size` before the point where it joined, if and only
   * if its buffer never overflowed.
   */
  lemma ReplayJoinsLive<E>(log: seq<E>, size: nat, acts: seq<Act<E>>)
    ensures var v := Join(Window(log, size), true);
            var start := if |log| > size then |log| - size else 0;
            After(v, acts).Total() == (log + Published(acts))[start..] <==> !Overflowed(v, acts)
  {
    var v := Join(Window(log, size), true);
    var live := Delivery(v, acts);
    var k := Start(|log|, size);
    assert v.Total() == log[k..];
    assert (log + Published(acts))[k..] == log[k..] + Published(acts);
    if Overflowed(v, acts) {
      assert |After(v, acts).Total()| < |(log + Published(acts))[k..]|;
    }
  }

  lemma {:induction false} SubsequenceSuffix<E>(b: seq<E>, k: nat)
    requires k <= |b|
    ensures Subsequence(b[k..], b)
  {
    if k < |b| {
      SubsequenceSuffix(b[..|b| - 1], k);
      assert b[k..][..|b| - k - 1] == b[..|b| - 1][k..];
      assert b[k..][|b| - k - 1] == b[|b| - 1];
    } else {
      assert b[k..] == [];
    }
  }

  lemma LastOfSum<E>(a: seq<E>, c: seq<E>)
    requires c != []
    ensures a + c == (a + c[..|c| - 1]) + [c[|c| - 1]]
  {
  }

  lemma {:induction false} SubsequenceJoin<E>(a: seq<E>, b: seq<E>, c: seq<E>, d: seq<E>)
    requires Subsequence(a, b) && Subsequence(c, d)
    ensures Subsequence(a + c, b + d)
    decreases |d|
  {
    if d == [] {
      assert a + c == a && b + d == b;
    } else {
      var front, e := d[..|d| - 1], d[|d| - 1];
      LastOfSum(b, d);
      if Subsequence(c, front) {
        SubsequenceJoin(a, b, c, front);
        hide Subsequence;
        SubsequenceMore(a + c, b + front, e);
      } else {
        LastOfSum(a, c);
        SubsequenceJoin(a, b, c[..|c| - 1], front);
        assert c[|c| - 1] == e;
        hide Subsequence;
        SubsequenceMore(a + c[..|c| - 1], b + front, e);
      }
    }
  }

  /** In every case what a subscriber is given is in publication order, with gaps only after it joined. */
  lemma OrderIsKept<E>(log: seq<E>, size: nat, wanted: bool, acts: seq<Act<E>>)
    ensures var v := Join(Window(log, size), wanted);
            Subsequence(After(v, acts).Total(), log + Published(acts))
  {
    var v := Join(Window(log, size), wanted);
    var live := Delivery(v, acts);
    var k := if wanted then Start(|log|, size) else |log|;
    assert v.Total() == log[k..];
    SubsequenceSuffix(log, k);
    SubsequenceJoin(log[k..], log, live, Published(acts));
  }

  ghost predicate Distinct<E>(s: seq<E>) {
    forall i, j | 0 <= i < j < |s| :: s[i] != s[j]
  }

  /** Events published once are delivered at most once. */
  lemma {:induction false} SubsequenceDistinct<E>(a: seq<E>, b: seq<E>)
    requires Subsequence(a, b) && Distinct(b)
    ensures Distinct(a) && forall x | x in a :: x in b
    decreases |b|
  {
    if a != [] {
      var front := b[..|b| - 1];
      if a[|a| - 1] == b[|b| - 1] && Subsequence(a[..|a| - 1], front) {
        SubsequenceDistinct(a[..|a| - 1], front);
        assert forall i | 0 <= i < |a| - 1 :: a[i] == a[..|a| - 1][i] && a[i] in front;
      } else {
        SubsequenceDistinct(a, front);
      }
    }
  }

  // ---------- The bus ----------

  class Subscriber<E> {
    var history: seq<E>
    var buffer: seq<E>
    ghost var yielded: seq<E>

    ghost function Seen(): View<E>
      reads this
    {
      View(yielded, history, buffer)
    }

    constructor (replay: seq<E>, wanted: bool)
      ensures Seen() == Join(replay, wanted)
    {
      history, buffer, yielded := if wanted then replay else [], [], [];
    }

    /** `put_nowait`, with QueueFull suppressed. */
    method Put(e: E)
      modifies this
      ensures Seen() == Offer(old(Seen()), e)
      ensures buffer == if |old(buffer)| < 1_000 then old(buffer) + [e] else old(buffer)
      ensures history == old(history) && yielded == old(yielded)
    {
      if |buffer| < BUFFER_SIZE {
        buffer := buffer + [e];
      }
    }

    /** The next event of the subscription, if there is one; otherwise the generator would wait. */
    method Next() returns (e: Option<E>)
      modifies this
      ensures e.Some? == old(CanYield(Seen()))
      ensures Seen() == if e.Some? then Yield(old(Seen())) else old(Seen())
      ensures e.Some? ==> yielded == old(yielded) + [e.value]
    {
      if history != [] {
        e := Some(history[0]);
        yielded, history := yielded + [history[0]], history[1..];
      } else if buffer != [] {
        e := Some(buffer[0]);
        yielded, buffer := yielded + [buffer[0]], buffer[1..];
      } else {
        e := None;
      }
    }
  }

  class EventBus<E> {
    const replaySize: nat
    var replay: seq<E>
    var subscribers: set<Subscriber<E>>
    ghost var log: seq<E>

    ghost predicate Valid()
      reads this
    {
      replay == Window(log, replaySize)
    }

    constructor (replaySize: nat)
      ensures Valid() && log == [] && subscribers == {} && this.replaySize == replaySize
    {
      this.replaySize := replaySize;
      replay, subscribers, log := [], {}, [];
    }

    method Publish(e: E)
      requires Valid()
      modifies `replay, `log, subscribers
      ensures Valid() && log == old(log) + [e]
      ensures forall s | s in subscribers :: s.Seen() == Offer(old(s.Seen()), e)
    {
      WindowIsSuffix(log, e, replaySize);
      replay, log := Append(replay, e, replaySize), log + [e];
      var left := subscribers;
      while left != {}
        modifies subscribers
        invariant left <= subscribers
        invariant forall s | s in left :: s.Seen() == old(s.Seen())
        invariant forall s | s in subscribers - left :: s.Seen() == Offer(old(s.Seen()), e)
        decreases |left|
      {
        var s :| s in left;
        s.Put(e);
        left := left - {s};
      }
    }

    method Subscribe(wanted: bool) returns (s: Subscriber<E>)
      requires Valid()
      modifies `subscribers
      ensures fresh(s) && subscribers == old(subscribers) + {s}
      ensures s.Seen() == Join(Window(log, replaySize), wanted)
    {
      s := new Subscriber(replay, wanted);
      subscribers := subscribers + {s};
    }

    method Unsubscribe(s: Subscriber<E>)
      modifies `subscribers
      ensures subscribers == old(subscribers) - {s}
    {
      subscribers := subscribers - {s};
    }
  }
}
