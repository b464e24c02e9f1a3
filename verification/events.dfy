/** Values shared by the three operators: the push events an observer
    receives (and that `materialize()` turns into notifications), and the
    outcome of a caller-supplied mapper, which may raise. */
module Events {

  /** One call on an observer: `on_next(value)`, `on_error(error)` or
      `on_completed()`. As a materialized notification, the `kind` is
      "N", "E" or "C" respectively. */
  datatype Event<+V, +E> = Next(value: V) | Error(error: E) | Completed {
    predicate IsTerminal() {
      !Next?
    }
  }

  /** The outcome of calling a mapper: a value, or the exception it raised. */
  datatype Result<+T, +E> = Ok(value: T) | Err(error: E)

  datatype Option<+T> = None | Some(value: T)

  /** The events that deliver `vs` one by one, in order. */
  function Nexts<V, E>(vs: seq<V>): (r: seq<Event<V, E>>)
    ensures |r| == |vs|
    ensures forall i | 0 <= i < |vs| :: r[i] == Next(vs[i])
  {
    if vs == [] then [] else [Next(vs[0])] + Nexts(vs[1..])
  }

  /** The values carried by the `Next` events of `s`, in order. */
  function Values<V, E>(s: seq<Event<V, E>>): seq<V> {
    if s == [] then []
    else (if s[0].Next? then [s[0].value] else []) + Values(s[1..])
  }

  /** `s` with its `Next` events dropped: the error and completion events only. */
  function Terminals<V, E>(s: seq<Event<V, E>>): seq<Event<V, E>> {
    if s == [] then []
    else (if s[0].Next? then [] else [s[0]]) + Terminals(s[1..])
  }

  lemma {:induction false} ValuesOfNexts<V, E>(vs: seq<V>)
    ensures Values(Nexts<V, E>(vs)) == vs
  {
    if vs != [] {
      assert Nexts<V, E>(vs)[1..] == Nexts<V, E>(vs[1..]);
      ValuesOfNexts<V, E>(vs[1..]);
    }
  }

  lemma {:induction false} TerminalsOfNexts<V, E>(vs: seq<V>)
    ensures Terminals(Nexts<V, E>(vs)) == []
  {
    if vs != [] {
      assert Nexts<V, E>(vs)[1..] == Nexts<V, E>(vs[1..]);
      TerminalsOfNexts<V, E>(vs[1..]);
    }
  }

  lemma {:induction false} ValuesAppend<V, E>(a: seq<Event<V, E>>, b: seq<Event<V, E>>)
    ensures Values(a + b) == Values(a) + Values(b)
  {
    if a != [] {
      assert (a + b)[1..] == a[1..] + b;
      ValuesAppend(a[1..], b);
    } else {
      assert a + b == b;
    }
  }

  lemma {:induction false} TerminalsAppend<V, E>(a: seq<Event<V, E>>, b: seq<Event<V, E>>)
    ensures Terminals(a + b) == Terminals(a) + Terminals(b)
  {
    if a != [] {
      assert (a + b)[1..] == a[1..] + b;
      TerminalsAppend(a[1..], b);
    } else {
      assert a + b == b;
    }
  }

  /** No element occurs twice. */
  ghost predicate Distinct<T>(s: seq<T>) {
    forall i, j | 0 <= i < j < |s| :: s[i] != s[j]
  }
}
