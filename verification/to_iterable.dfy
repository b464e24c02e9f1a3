/** `to_iterable` (rx/operators/observable/blocking/toiterable.py): the source
    is materialized into notifications, which a producer callback appends to a
    shared FIFO queue and the generator `gen` pops from the front and
    interprets. The condition variable and the thread hand-off are left out:
    what remains is the sequential queue discipline. */
module ToIterable {
  import opened Events

  /** What one resumption of `gen` does with a popped notification: yield its
      value, raise its exception, or return (StopIteration). */
  datatype Pulled<V, E> = Value(value: V) | Raise(error: E) | Done

  function Interpret<V, E>(n: Event<V, E>): Pulled<V, E> {
    match n
    case Next(v) => Value(v)
    case Error(e) => Raise(e)
    case Completed => Done
  }

  /** Why iteration over the current queue stops: it would wait for the
      producer, it raised the stored exception, or it ended. */
  datatype Stop<E> = Blocked | Raised(error: E) | Ended

  /** The notification that stops iteration with `s`. */
  function Terminal<V, E>(s: Stop<E>): Event<V, E>
    requires s != Blocked
  {
    match s
    case Raised(e) => Error(e)
    case Ended => Completed
  }

  /** What a consumer iterating to the end of the available notifications gets:
      the yielded values, how it stopped, and how many notifications it popped. */
  datatype Outcome<V, E> = Outcome(values: seq<V>, stop: Stop<E>, used: nat)

  /** Iterating over the queue `ns`: values are yielded in queue order until the
      first error or completion, which is popped and ends iteration; nothing
      after it is consumed. Without a terminal notification the whole queue is
      consumed and the consumer then waits. */
  function Iterate<V, E>(ns: seq<Event<V, E>>): (o: Outcome<V, E>)
    ensures o.used <= |ns|
  {
    if ns == [] then Outcome([], Blocked, 0)
    else match ns[0]
      case Next(v) =>
        var o := Iterate(ns[1..]);
        Outcome([v] + o.values, o.stop, o.used + 1)
      case Error(e) => Outcome([], Raised(e), 1)
      case Completed => Outcome([], Ended, 1)
  }

  /** What `Iterate` consumes: a run of values, then either the end of the
      queue (the consumer waits) or exactly one terminal notification, the
      first in the queue; nothing after it. */
  lemma {:induction false} IterateShape<V, E>(ns: seq<Event<V, E>>)
    ensures var o := Iterate(ns);
      && (o.stop == Blocked ==> o.used == |ns| && ns == Nexts(o.values))
      && (o.stop != Blocked ==> 0 < o.used && ns[..o.used] == Nexts(o.values) + [Terminal(o.stop)])
  {
    if ns != [] && ns[0].Next? {
      var o := Iterate(ns[1..]);
      IterateStep(ns);
      IterateShape(ns[1..]);
      NextsCons<V, E>(ns[0].value, o.values);
      assert ns == [ns[0]] + ns[1..];
      assert ns[..o.used + 1] == [ns[0]] + ns[1..][..o.used];
    }
  }

  /** The values a consumer gets are exactly the values of the notifications
      popped, and the popped notifications hold at most one error or
      completion: the one iteration stopped at. */
  lemma IterateConsumed<V, E>(ns: seq<Event<V, E>>)
    ensures var o := Iterate(ns);
      && Values(ns[..o.used]) == o.values
      && Terminals(ns[..o.used]) == if o.stop == Blocked then [] else [Terminal(o.stop)]
  {
    var o := Iterate(ns);
    IterateShape(ns);
    ValuesOfNexts<V, E>(o.values);
    TerminalsOfNexts<V, E>(o.values);
    if o.stop == Blocked {
      assert ns[..o.used] == ns;
    } else {
      var t: Event<V, E> := Terminal(o.stop);
      ValuesAppend(Nexts<V, E>(o.values), [t]);
      TerminalsAppend(Nexts<V, E>(o.values), [t]);
      assert Values([t]) == [] && Terminals([t]) == [t];
    }
  }

  lemma NextsCons<V, E>(v: V, vs: seq<V>)
    ensures Nexts<V, E>([v] + vs) == [Next(v)] + Nexts<V, E>(vs)
  {
    assert ([v] + vs)[1..] == vs;
  }

  /** The outcome `o` of iterating the rest of a queue, after `vs` were
      already yielded from its first `k` notifications. */
  function Resumed<V, E>(vs: seq<V>, k: nat, o: Outcome<V, E>): Outcome<V, E> {
    Outcome(vs + o.values, o.stop, k + o.used)
  }

  /** Popping one notification: a value is yielded and iteration goes on with
      the rest; a terminal notification stops it at once. */
  lemma IterateStep<V, E>(ns: seq<Event<V, E>>)
    requires ns != []
    ensures ns[0].Next? ==> Iterate(ns) == Resumed([ns[0].value], 1, Iterate(ns[1..]))
    ensures ns[0].Error? ==> Iterate(ns) == Outcome([], Raised(ns[0].error), 1)
    ensures ns[0].Completed? ==> Iterate(ns) == Outcome([], Ended, 1)
  {
  }

  /** Values at the front of the queue are all yielded, in order, before
      iteration goes on with what follows them. */
  lemma {:induction false} IterateNexts<V, E>(vs: seq<V>, tail: seq<Event<V, E>>)
    ensures Iterate(Nexts<V, E>(vs) + tail) == Resumed(vs, |vs|, Iterate(tail))
  {
    var ns := Nexts<V, E>(vs) + tail;
    if vs == [] {
      assert ns == tail;
    } else {
      var o := Iterate(tail);
      var later := Nexts<V, E>(vs[1..]) + tail;
      assert [vs[0]] + vs[1..] == vs;
      NextsCons<V, E>(vs[0], vs[1..]);
      assert ns == [Next(vs[0])] + later;
      assert ns[1..] == later;
      IterateStep(ns);
      IterateNexts(vs[1..], tail);
      assert [vs[0]] + (vs[1..] + o.values) == vs + o.values;
    }
  }

  /** A source that emits `vs` and then completes is read back as exactly `vs`,
      in order, followed by the end of iteration; anything after the completion
      is never consumed. */
  lemma IterateCompleted<V, E>(vs: seq<V>, rest: seq<Event<V, E>>)
    ensures Iterate(Nexts<V, E>(vs) + [Completed] + rest) == Outcome(vs, Ended, |vs| + 1)
  {
    var tail := [Completed] + rest;
    assert Nexts<V, E>(vs) + [Completed] + rest == Nexts<V, E>(vs) + tail;
    IterateStep(tail);
    IterateNexts(vs, tail);
    assert vs + [] == vs;
  }

  /** A source that emits `vs` and then fails with `e` is read back as `vs`,
      after which the next pull raises `e` itself, unchanged. */
  lemma IterateRaises<V, E>(vs: seq<V>, e: E, rest: seq<Event<V, E>>)
    ensures Iterate(Nexts<V, E>(vs) + [Error(e)] + rest) == Outcome(vs, Raised(e), |vs| + 1)
  {
    var tail := [Error(e)] + rest;
    assert Nexts<V, E>(vs) + [Error(e)] + rest == Nexts<V, E>(vs) + tail;
    IterateStep(tail);
    IterateNexts(vs, tail);
    assert vs + [] == vs;
  }

  /** Values only: all are yielded in order and the consumer then waits. */
  lemma IterateBlocks<V, E>(vs: seq<V>)
    ensures Iterate(Nexts<V, E>(vs)) == Outcome(vs, Blocked, |vs|)
  {
    IterateNexts<V, E>(vs, []);
    assert Nexts<V, E>(vs) + [] == Nexts<V, E>(vs);
    assert vs + [] == vs;
  }

  lemma ResumedAssoc<V, E>(vs: seq<V>, v: V, k: nat, o: Outcome<V, E>)
    ensures Resumed(vs, k, Resumed([v], 1, o)) == Resumed(vs + [v], k + 1, o)
  {
    assert vs + ([v] + o.values) == (vs + [v]) + o.values;
  }

  /** The shared state of one `to_iterable` call: the `notifications` list and
      whether the generator has returned or raised. `pushed` and `popped`
      record what the producer appended and what the consumer removed. */
  class Bridge<V, E> {
    var queue: seq<Event<V, E>>
    var finished: bool
    ghost var pushed: seq<Event<V, E>>
    ghost var popped: seq<Event<V, E>>

    /** FIFO: what was pushed is what was popped followed by the queue; only the
        last popped notification can be terminal, and it finishes the generator. */
    ghost predicate Valid()
      reads this
    {
      && pushed == popped + queue
      && (forall i | 0 <= i < |popped| - 1 :: popped[i].Next?)
      && finished == (popped != [] && popped[|popped| - 1].IsTerminal())
    }

    constructor ()
      ensures Valid()
      ensures queue == [] && !finished && pushed == [] && popped == []
    {
      queue := [];
      finished := false;
      pushed := [];
      popped := [];
    }

    /** The producer's `on_next`: appends the notification at the back and
        changes nothing else. */
    method Push(n: Event<V, E>)
      requires Valid()
      modifies this
      ensures Valid()
      ensures queue == old(queue) + [n] && pushed == old(pushed) + [n]
      ensures finished == old(finished) && popped == old(popped)
    {
      queue := queue + [n];
      pushed := pushed + [n];
    }

    /** One `next()` on the generator. A finished generator only reports the end
        and consumes nothing; otherwise the oldest notification is popped and
        interpreted, and a terminal one finishes the generator. The wait for a
        non-empty queue is the caller's obligation here. */
    method Pull() returns (r: Pulled<V, E>)
      requires Valid()
      requires finished || queue != []
      modifies this
      ensures Valid()
      ensures pushed == old(pushed)
      ensures old(finished) ==> r == Done && finished && queue == old(queue) && popped == old(popped)
      ensures !old(finished) ==>
        && r == Interpret(old(queue)[0])
        && queue == old(queue)[1..]
        && popped == old(popped) + [old(queue)[0]]
        && finished == old(queue)[0].IsTerminal()
    {
      if finished {
        r := Done;
      } else {
        var n := queue[0];
        queue := queue[1..];
        popped := popped + [n];
        r := Interpret(n);
        finished := n.IsTerminal();
      }
    }

    /** The `while True` loop of `gen`, run until it would wait for the
        producer or it returns or raises: the values it yields and how it stops
        are those of `Iterate` on the queue, and exactly the notifications
        `Iterate` uses are removed from the front of the queue. */
    method Drain() returns (vs: seq<V>, stop: Stop<E>)
      requires Valid()
      modifies this
      ensures Valid()
      ensures pushed == old(pushed)
      ensures old(finished) ==> vs == [] && stop == Ended && queue == old(queue) && finished
      ensures !old(finished) ==>
        var o := Iterate(old(queue));
        && vs == o.values && stop == o.stop
        && queue == old(queue)[o.used..]
        && finished == (o.stop != Blocked)
    {
      vs, stop := [], Blocked;
      if finished {
        stop := Ended;
        return;
      }
      ghost var q0 := queue;
      while !finished && queue != []
        invariant Valid() && pushed == old(pushed)
        invariant |queue| <= |q0| && queue == q0[|q0| - |queue|..]
        invariant !finished ==> stop == Blocked && Iterate(q0) == Resumed(vs, |q0| - |queue|, Iterate(queue))
        invariant finished ==> stop != Blocked && Iterate(q0) == Outcome(vs, stop, |q0| - |queue|)
        decreases |queue|
      {
        ghost var k := |q0| - |queue|;
        IterateStep(queue);
        var r := Pull();
        assert queue == q0[k + 1..];
        match r
        case Value(v) =>
          ResumedAssoc(vs, v, k, Iterate(queue));
          vs := vs + [v];
        case Raise(e) =>
          stop := Raised(e);
        case Done =>
          stop := Ended;
      }
    }
  }
}
