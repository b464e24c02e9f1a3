/** `skip_with_time` (rx/operators/observable/skipwithtime.py): a gate that
    drops upstream values until a timer has fired, and always lets errors and
    completion through. The scheduler and the duration are abstracted into an
    `Opened` input: the moment the scheduled action runs. */
module SkipWithTime {
  import opened Events

  /** What reaches one subscription: the timer action, or an upstream event. */
  datatype Input<V, E> = Opened | Upstream(ev: Event<V, E>)

  /** The downstream events one input produces while the gate is `open`. */
  function Emit<V, E>(open: bool, i: Input<V, E>): seq<Event<V, E>> {
    match i
    case Opened => []
    case Upstream(ev) => if ev.Next? && !open then [] else [ev]
  }

  /** The downstream events for the inputs `h`, received with the gate `open` at first. */
  function Run<V, E>(h: seq<Input<V, E>>, open: bool): seq<Event<V, E>> {
    if h == [] then [] else Emit(open, h[0]) + Run(h[1..], open || h[0].Opened?)
  }

  /** What the downstream observer has received after the inputs `h`: the gate starts closed. */
  function Output<V, E>(h: seq<Input<V, E>>): seq<Event<V, E>> {
    Run(h, false)
  }

  /** The upstream events among the inputs, in order. */
  function Received<V, E>(h: seq<Input<V, E>>): seq<Event<V, E>> {
    if h == [] then [] else (if h[0].Upstream? then [h[0].ev] else []) + Received(h[1..])
  }

  /** Feeding one more input appends exactly what that input emits under the
      gate state reached so far: the gate is open iff it started open or the
      timer has fired. */
  lemma {:induction false} RunSnoc<V, E>(h: seq<Input<V, E>>, open: bool, i: Input<V, E>)
    ensures Run(h + [i], open) == Run(h, open) + Emit(open || Opened in h, i)
  {
    if h != [] {
      assert (h + [i])[1..] == h[1..] + [i];
      RunSnoc(h[1..], open || h[0].Opened?, i);
      assert (Opened in h) == (h[0].Opened? || Opened in h[1..]);
    }
  }

  /** Once the gate is open, every upstream event is forwarded unchanged and in order. */
  lemma {:induction false} RunOpen<V, E>(h: seq<Input<V, E>>)
    ensures Run(h, true) == Received(h)
  {
    if h != [] {
      RunOpen(h[1..]);
    }
  }

  /** While the timer has not fired, exactly the errors and completions get through. */
  lemma {:induction false} RunClosed<V, E>(h: seq<Input<V, E>>)
    requires Opened !in h
    ensures Run(h, false) == Terminals(Received(h))
  {
    if h != [] {
      assert h[0] in h;
      assert forall i | i in h[1..] :: i in h;
      RunClosed(h[1..]);
      TerminalsAppend(if h[0].Upstream? then [h[0].ev] else [], Received(h[1..]));
    }
  }

  /** The whole behaviour: with `pre` the inputs before the timer first fires,
      the output is the errors and completions of `pre` followed by every
      upstream event received after opening, unchanged and in source order. */
  lemma {:induction false} OutputSplit<V, E>(pre: seq<Input<V, E>>, post: seq<Input<V, E>>)
    requires Opened !in pre
    ensures Output(pre + [Opened] + post) == Terminals(Received(pre)) + Received(post)
  {
    SplitRun(pre, post);
    RunClosed(pre);
    RunOpen(post);
  }

  lemma {:induction false} SplitRun<V, E>(pre: seq<Input<V, E>>, post: seq<Input<V, E>>)
    requires Opened !in pre
    ensures Run(pre + [Opened] + post, false) == Run(pre, false) + Run(post, true)
  {
    var h := pre + [Opened] + post;
    if pre == [] {
      assert h == [Opened] + post && h[1..] == post;
    } else {
      assert pre[0] in pre;
      assert h[0] == pre[0] && h[1..] == pre[1..] + [Opened] + post;
      assert Opened !in pre[1..] by {
        assert forall i | i in pre[1..] :: i in pre;
      }
      SplitRun(pre[1..], post);
      calc {
        Run(h, false);
        Emit(false, pre[0]) + Run(pre[1..] + [Opened] + post, false);
        Emit(false, pre[0]) + (Run(pre[1..], false) + Run(post, true));
        (Emit(false, pre[0]) + Run(pre[1..], false)) + Run(post, true);
      }
    }
  }

  /** The values that reach the observer are exactly those received after the
      timer first fired; none received before it. */
  lemma ForwardedValues<V, E>(pre: seq<Input<V, E>>, post: seq<Input<V, E>>)
    requires Opened !in pre
    ensures Values(Output(pre + [Opened] + post)) == Values(Received(post))
  {
    OutputSplit(pre, post);
    ValuesAppend(Terminals(Received(pre)), Received(post));
    NoValuesInTerminals(Received(pre));
  }

  /** Before the timer fires, no value reaches the observer. */
  lemma NothingForwardedWhileClosed<V, E>(h: seq<Input<V, E>>)
    requires Opened !in h
    ensures Values(Output(h)) == []
  {
    RunClosed(h);
    NoValuesInTerminals(Received(h));
  }

  lemma {:induction false} NoValuesInTerminals<V, E>(s: seq<Event<V, E>>)
    ensures Values(Terminals(s)) == []
  {
    if s != [] {
      NoValuesInTerminals(s[1..]);
      ValuesAppend(if s[0].Next? then [] else [s[0]], Terminals(s[1..]));
    }
  }

  /** Errors and completions are forwarded whatever the gate state, in order. */
  lemma {:induction false} TerminalsPassThrough<V, E>(h: seq<Input<V, E>>, open: bool)
    ensures Terminals(Run(h, open)) == Terminals(Received(h))
  {
    if h != [] {
      TerminalsPassThrough(h[1..], open || h[0].Opened?);
      TerminalsAppend(Emit(open, h[0]), Run(h[1..], open || h[0].Opened?));
      TerminalsAppend(if h[0].Upstream? then [h[0].ev] else [], Received(h[1..]));
    }
  }

  /** The state of one `subscribe` call: the mutable cell `open[0]` and what the
      downstream observer has been sent. `history` records the inputs so far. */
  class Subscription<V, E> {
    var open: bool
    var out: seq<Event<V, E>>
    ghost var history: seq<Input<V, E>>

    ghost predicate Valid()
      reads this
    {
      && open == (Opened in history)
      && out == Output(history)
    }

    /** Subscribing: the gate starts closed and nothing has been forwarded. */
    constructor ()
      ensures Valid()
      ensures !open && out == [] && history == []
    {
      open := false;
      out := [];
      history := [];
    }

    /** The scheduled `action`: opens the gate; nothing closes it again. */
    method Open()
      requires Valid()
      modifies this
      ensures Valid()
      ensures open && out == old(out) && history == old(history) + [Opened]
    {
      RunSnoc(history, false, Opened);
      open := true;
      history := history + [Opened];
    }

    /** `on_next`: forwards `x` unchanged iff the gate is open, else drops it. */
    method OnNext(x: V)
      requires Valid()
      modifies this
      ensures Valid()
      ensures open == old(open) && history == old(history) + [Upstream(Next(x))]
      ensures out == if old(open) then old(out) + [Next(x)] else old(out)
    {
      RunSnoc(history, false, Upstream(Next(x)));
      if open {
        out := out + [Next(x)];
      }
      history := history + [Upstream(Next(x))];
    }

    /** `observer.on_error` is subscribed directly: the error always passes. */
    method OnError(e: E)
      requires Valid()
      modifies this
      ensures Valid()
      ensures open == old(open) && history == old(history) + [Upstream(Error(e))]
      ensures out == old(out) + [Error(e)]
    {
      RunSnoc(history, false, Upstream(Error(e)));
      out := out + [Error(e)];
      history := history + [Upstream(Error(e))];
    }

    /** `observer.on_completed` is subscribed directly: completion always passes. */
    method OnCompleted()
      requires Valid()
      modifies this
      ensures Valid()
      ensures open == old(open) && history == old(history) + [Upstream(Completed)]
      ensures out == old(out) + [Completed]
    {
      RunSnoc(history, false, Upstream(Completed));
      out := out + [Completed];
      history := history + [Upstream(Completed)];
    }
  }
}
