/** `group_by_until` (rx/operators/observable/groupbyuntil.py): partitions an
    upstream sequence into groups keyed by `key_mapper`, one writer Subject per
    live key, each group living until its duration signal fires.

    Writers are identified by the order of their creation (writer `w` is the
    `w`-th Subject created), so a group reborn after expiry is a different
    writer. Every call the operator makes on a writer or on the downstream
    observer is recorded, in order, in one delivery trace; a writer's own
    history and the observer's are projections of it. */
module GroupByUntil {
  import opened Events

  /** What both GroupedObservables built for a new key carry: the key and the
      writer Subject they are views of. */
  datatype Group<K> = Group(key: K, writer: nat)

  /** One call made by the operator: on writer `writer`, or on the downstream observer. */
  datatype Delivery<K, R, E> =
    | ToWriter(writer: nat, ev: Event<R, E>)
    | ToObserver(out: Event<Group<K>, E>)

  /** The three caller-supplied mappers; each may raise, which is an `Err`. */
  datatype Mappers<!T, !K, R, D, E> = Mappers(
    keyOf: T -> Result<K, E>,
    elementOf: T -> Result<R, E>,
    durationOf: Group<K> -> Result<D, E>)

  /** `element_mapper or identity`: a missing element mapper maps every value to itself. */
  function ElementMapperOrIdentity<T(!new), E>(m: Option<T -> Result<T, E>>): T -> Result<T, E> {
    if m.Some? then m.value else x => Ok(x)
  }

  /** The state of one subscription: the keys of the `writers` OrderedDict in
      insertion order and the dict itself, the key of every writer created so
      far (the next writer is `|created|`), the duration observables whose
      subscriptions are held for live groups, and the delivery trace. */
  datatype State<K, R, D, E> = State(
    order: seq<K>,
    writers: map<K, nat>,
    created: seq<K>,
    durations: map<nat, D>,
    trace: seq<Delivery<K, R, E>>)

  function Initial<K, R, D, E>(): State<K, R, D, E> {
    State([], map[], [], map[], [])
  }

  // ---------------------------------------------------------------- projections

  /** The calls writer `w` has received, in order. */
  function WriterLog<K, R, E>(t: seq<Delivery<K, R, E>>, w: nat): seq<Event<R, E>> {
    if t == [] then []
    else (if t[0].ToWriter? && t[0].writer == w then [t[0].ev] else []) + WriterLog(t[1..], w)
  }

  /** The calls the downstream observer has received, in order. */
  function ObserverLog<K, R, E>(t: seq<Delivery<K, R, E>>): seq<Event<Group<K>, E>> {
    if t == [] then []
    else (if t[0].ToObserver? then [t[0].out] else []) + ObserverLog(t[1..])
  }

  lemma {:induction false} WriterLogAppend<K, R, E>(a: seq<Delivery<K, R, E>>, b: seq<Delivery<K, R, E>>, w: nat)
    ensures WriterLog(a + b, w) == WriterLog(a, w) + WriterLog(b, w)
  {
    if a == [] {
      assert a + b == b;
    } else {
      var head := if a[0].ToWriter? && a[0].writer == w then [a[0].ev] else [];
      assert (a + b)[0] == a[0];
      assert (a + b)[1..] == a[1..] + b;
      WriterLogAppend(a[1..], b, w);
      assert WriterLog(a + b, w) == head + (WriterLog(a[1..], w) + WriterLog(b, w));
      assert WriterLog(a, w) == head + WriterLog(a[1..], w);
    }
  }

  lemma {:induction false} ObserverLogAppend<K, R, E>(a: seq<Delivery<K, R, E>>, b: seq<Delivery<K, R, E>>)
    ensures ObserverLog(a + b) == ObserverLog(a) + ObserverLog(b)
  {
    if a == [] {
      assert a + b == b;
    } else {
      var head := if a[0].ToObserver? then [a[0].out] else [];
      assert (a + b)[0] == a[0];
      assert (a + b)[1..] == a[1..] + b;
      ObserverLogAppend(a[1..], b);
      assert ObserverLog(a + b) == head + (ObserverLog(a[1..]) + ObserverLog(b));
      assert ObserverLog(a) == head + ObserverLog(a[1..]);
    }
  }

  lemma SingleLogs<K, R, E>(d: Delivery<K, R, E>, w: nat)
    ensures WriterLog([d], w) == if d.ToWriter? && d.writer == w then [d.ev] else []
    ensures ObserverLog([d]) == if d.ToObserver? then [d.out] else []
  {
    assert [d][1..] == [];
  }

  // ------------------------------------------------------------------- fan-out

  /** `for wrt in writers.values(): wrt.<call>`: one delivery of `ev` to the
      writer of each key, in insertion order. */
  function Broadcast<K, R, E>(keys: seq<K>, writers: map<K, nat>, ev: Event<R, E>): (r: seq<Delivery<K, R, E>>)
    requires forall k | k in keys :: k in writers
    ensures |r| == |keys|
    ensures forall i | 0 <= i < |keys| :: r[i] == ToWriter(writers[keys[i]], ev)
  {
    if keys == [] then [] else [ToWriter(writers[keys[0]], ev)] + Broadcast(keys[1..], writers, ev)
  }

  /** Some key of `keys` has writer `w`. */
  ghost predicate Reaches<K>(keys: seq<K>, writers: map<K, nat>, w: nat)
    requires forall k | k in keys :: k in writers
  {
    exists i | 0 <= i < |keys| :: writers[keys[i]] == w
  }

  lemma ReachesCons<K>(keys: seq<K>, writers: map<K, nat>, w: nat)
    requires keys != [] && forall k | k in keys :: k in writers
    ensures Reaches(keys, writers, w) <==> writers[keys[0]] == w || Reaches(keys[1..], writers, w)
  {
    if Reaches(keys, writers, w) {
      var i :| 0 <= i < |keys| && writers[keys[i]] == w;
      if i > 0 {
        assert keys[1..][i - 1] == keys[i];
      }
    }
    if Reaches(keys[1..], writers, w) {
      var i :| 0 <= i < |keys[1..]| && writers[keys[1..][i]] == w;
      assert keys[i + 1] == keys[1..][i];
    }
  }

  /** When distinct keys have distinct writers, a broadcast reaches each of
      those writers exactly once and no other writer, and never the observer. */
  lemma {:induction false} BroadcastLog<K, R, E>(keys: seq<K>, writers: map<K, nat>, ev: Event<R, E>, w: nat)
    requires forall k | k in keys :: k in writers
    requires forall i, j | 0 <= i < j < |keys| :: writers[keys[i]] != writers[keys[j]]
    ensures WriterLog(Broadcast(keys, writers, ev), w) == if Reaches(keys, writers, w) then [ev] else []
    ensures ObserverLog(Broadcast(keys, writers, ev)) == []
  {
    if keys != [] {
      var rest := keys[1..];
      var first := ToWriter(writers[keys[0]], ev);
      assert Broadcast(keys, writers, ev) == [first] + Broadcast(rest, writers, ev);
      SingleLogs<K, R, E>(first, w);
      WriterLogAppend([first], Broadcast(rest, writers, ev), w);
      ObserverLogAppend([first], Broadcast(rest, writers, ev));
      forall i, j | 0 <= i < j < |rest|
        ensures writers[rest[i]] != writers[rest[j]]
      {
        assert rest[i] == keys[i + 1] && rest[j] == keys[j + 1];
      }
      BroadcastLog(rest, writers, ev, w);
      ReachesCons(keys, writers, w);
      if writers[keys[0]] == w {
        assert !Reaches(rest, writers, w) by {
          forall i | 0 <= i < |rest|
            ensures writers[rest[i]] != w
          {
            assert rest[i] == keys[i + 1];
          }
        }
      }
    }
  }

  /** `s` with one key removed; the other keys keep their order. */
  function Without<K(==)>(s: seq<K>, k: K): (r: seq<K>)
    ensures forall x | x in r :: x in s && x != k
    ensures forall x | x in s && x != k :: x in r
  {
    if s == [] then [] else (if s[0] == k then [] else [s[0]]) + Without(s[1..], k)
  }

  lemma {:induction false} WithoutAbsent<K>(s: seq<K>, k: K)
    requires k !in s
    ensures Without(s, k) == s
  {
    if s != [] {
      assert k !in s[1..] by {
        assert forall x | x in s[1..] :: x in s;
      }
      WithoutAbsent(s[1..], k);
      assert s == [s[0]] + s[1..];
    }
  }

  /** Removing the one occurrence of `k` at index `i` leaves the others in place. */
  lemma {:induction false} WithoutAt<K>(s: seq<K>, k: K, i: nat)
    requires Distinct(s) && i < |s| && s[i] == k
    ensures Without(s, k) == s[..i] + s[i + 1..]
  {
    if i == 0 {
      assert k !in s[1..];
      WithoutAbsent(s[1..], k);
    } else {
      assert Distinct(s[1..]);
      WithoutAt(s[1..], k, i - 1);
      assert s[1..][..i - 1] + s[1..][i..] == s[1..i] + s[i + 1..];
      assert s[..i] == [s[0]] + s[1..i];
    }
  }

  // ------------------------------------------------------------------ invariant

  /** Every key of the insertion order has a writer. */
  ghost predicate WellFormed<K, R, D, E>(s: State<K, R, D, E>) {
    forall k | k in s.order :: k in s.writers
  }

  /** The groups sent downstream, in order, name writers created for their key,
      each writer at most once and in creation order. */
  ghost predicate AnnouncedOnce<K>(gs: seq<Group<K>>, created: seq<K>) {
    && (forall i | 0 <= i < |gs| :: gs[i].writer < |created| && created[gs[i].writer] == gs[i].key)
    && (forall i, j | 0 <= i < j < |gs| :: gs[i].writer < gs[j].writer)
  }

  /** The map and the insertion order hold the same keys, each once; each key
      has one writer, created for that key. */
  ghost predicate Keyed<K, R, D, E>(s: State<K, R, D, E>) {
    && Distinct(s.order)
    && (forall k | k in s.writers :: k in s.order)
    && (forall k | k in s.order :: k in s.writers)
    && (forall k | k in s.writers :: s.writers[k] < |s.created| && s.created[s.writers[k]] == k)
  }

  /** The invariant of a subscription: the map and the insertion order hold the
      same keys, each once; at most one writer per key, and it was created for
      that key; a held duration subscription belongs to a live writer; writers
      not yet created have received nothing; each writer is announced
      downstream at most once. */
  ghost predicate Inv<K, R, D, E>(s: State<K, R, D, E>) {
    && Keyed(s)
    && (forall w | w in s.durations ::
          w < |s.created| && s.created[w] in s.writers && s.writers[s.created[w]] == w)
    && (forall w: nat | |s.created| <= w :: WriterLog(s.trace, w) == [])
    && AnnouncedOnce(Values(ObserverLog(s.trace)), s.created)
  }

  lemma InitialInv<K, R, D, E>()
    ensures Inv(Initial<K, R, D, E>())
  {
  }

  /** Under the invariant, "some key of the order has writer `w`" is "`w` is a
      live writer", and distinct keys have distinct writers. */
  lemma LiveWriters<K, R, D, E>(s: State<K, R, D, E>, w: nat)
    requires Keyed(s)
    ensures forall i, j | 0 <= i < j < |s.order| :: s.writers[s.order[i]] != s.writers[s.order[j]]
    ensures Reaches(s.order, s.writers, w) <==> w in s.writers.Values
  {
    forall i, j | 0 <= i < j < |s.order|
      ensures s.writers[s.order[i]] != s.writers[s.order[j]]
    {
      assert s.order[i] in s.writers && s.order[j] in s.writers;
    }
    if w in s.writers.Values {
      var k :| k in s.writers && s.writers[k] == w;
      assert k in s.order;
      var i :| 0 <= i < |s.order| && s.order[i] == k;
    }
  }

  // ------------------------------------------------------------------ operations

  /** Fan the writer event `wev` out to every live writer in insertion order,
      then send `oev` to the observer (lines 57-64, 76-83, 99-102, 111-116,
      120-130). The map is left as it is. */
  function Terminate<K, R, D, E>(s: State<K, R, D, E>, wev: Event<R, E>, oev: Event<Group<K>, E>): State<K, R, D, E>
    requires WellFormed(s)
  {
    s.(trace := s.trace + Broadcast(s.order, s.writers, wev) + [ToObserver(oev)])
  }

  function Abort<K, R, D, E>(s: State<K, R, D, E>, e: E): State<K, R, D, E>
    requires WellFormed(s)
  {
    Terminate(s, Error(e), Error(e))
  }

  /** Lines 109-118: map the element and hand it to writer `w`. */
  function Route<T, K, R, D, E>(s: State<K, R, D, E>, m: Mappers<T, K, R, D, E>, x: T, w: nat): State<K, R, D, E>
    requires WellFormed(s)
  {
    match m.elementOf(x)
    case Err(e) => Abort(s, e)
    case Ok(el) => s.(trace := s.trace + [ToWriter(w, Next(el))])
  }

  /** The state after the new key `key` gets writer `|created|` (lines 66-71). */
  function Insert<K, R, D, E>(s: State<K, R, D, E>, key: K): State<K, R, D, E> {
    s.(order := s.order + [key], writers := s.writers[key := |s.created|], created := s.created + [key])
  }

  /** The new group `g` goes downstream and its duration subscription is held
      (lines 85-87, 107). */
  function Announce<K, R, D, E>(s: State<K, R, D, E>, g: Group<K>, d: D): State<K, R, D, E> {
    s.(durations := s.durations[g.writer := d], trace := s.trace + [ToObserver(Next(g))])
  }

  /** The upstream `on_next(x)` (lines 53-118). */
  function AfterNext<T, K, R, D, E>(s: State<K, R, D, E>, m: Mappers<T, K, R, D, E>, x: T): (t: State<K, R, D, E>)
    requires WellFormed(s)
    ensures WellFormed(t) && s.order <= t.order
  {
    match m.keyOf(x)
    case Err(e) => Abort(s, e)
    case Ok(key) =>
      if key in s.writers then Route(s, m, x, s.writers[key])
      else
        var w := |s.created|;
        var s1 := Insert(s, key);
        match m.durationOf(Group(key, w))
        case Err(e) => Abort(s1, e)
        case Ok(d) => Route(Announce(s1, Group(key, w), d), m, x, w)
  }

  /** The upstream `on_error(e)` (lines 120-124). */
  function AfterError<K, R, D, E>(s: State<K, R, D, E>, e: E): State<K, R, D, E>
    requires WellFormed(s)
  {
    Abort(s, e)
  }

  /** The upstream `on_completed()` (lines 126-130). */
  function AfterCompleted<K, R, D, E>(s: State<K, R, D, E>): State<K, R, D, E>
    requires WellFormed(s)
  {
    Terminate(s, Completed, Completed)
  }

  /** The key leaves the map and the insertion order, and the duration
      subscription of its writer is released (lines 90-91, 94). */
  function Remove<K, R, D, E>(s: State<K, R, D, E>, key: K): State<K, R, D, E>
    requires key in s.writers
  {
    s.(order := Without(s.order, key), writers := s.writers - {key},
       durations := s.durations - {s.writers[key]})
  }

  /** `expire()` for the group of `key`, run when its duration signal first
      emits or completes (lines 89-94, 104-107): the key leaves the map, its
      writer completes, and its duration subscription is released. */
  function AfterExpire<K, R, D, E>(s: State<K, R, D, E>, key: K): State<K, R, D, E>
    requires key in s.writers && s.writers[key] in s.durations
  {
    var s1 := Remove(s, key);
    s1.(trace := s1.trace + [ToWriter(s.writers[key], Completed)])
  }

  /** The duration signal of `key`'s group fails (lines 99-102). */
  function AfterDurationError<K, R, D, E>(s: State<K, R, D, E>, key: K, e: E): State<K, R, D, E>
    requires WellFormed(s)
    requires key in s.writers && s.writers[key] in s.durations
  {
    Abort(s, e)
  }

  // ------------------------------------------------------- preserving the invariant

  /** Appending deliveries that reach only existing writers and announce no
      group keeps the invariant. */
  lemma AppendPreservesInv<K, R, D, E>(s: State<K, R, D, E>, extra: seq<Delivery<K, R, E>>)
    requires Inv(s)
    requires forall w: nat | |s.created| <= w :: WriterLog(extra, w) == []
    requires Values(ObserverLog(extra)) == []
    ensures Inv(s.(trace := s.trace + extra))
  {
    forall w: nat | |s.created| <= w
      ensures WriterLog(s.trace + extra, w) == []
    {
      WriterLogAppend(s.trace, extra, w);
    }
    ObserverLogAppend(s.trace, extra);
    ValuesAppend(ObserverLog(s.trace), ObserverLog(extra));
  }

  lemma TerminatePreservesInv<K, R, D, E>(s: State<K, R, D, E>, wev: Event<R, E>, oev: Event<Group<K>, E>)
    requires Inv(s) && !oev.Next?
    ensures WellFormed(s) && Inv(Terminate(s, wev, oev))
  {
    var t := Terminate(s, wev, oev);
    forall w: nat | |s.created| <= w
      ensures WriterLog(t.trace, w) == []
    {
      TerminateLogs(s, wev, oev, w);
      assert w !in s.writers.Values;
    }
    TerminateLogs(s, wev, oev, 0);
    ValuesAppend(ObserverLog(s.trace), [oev]);
    assert Values([oev]) == [];
    assert Values(ObserverLog(t.trace)) == Values(ObserverLog(s.trace));
    assert Keyed(t) && t.durations == s.durations && t.created == s.created;
  }

  lemma DeliverPreservesInv<K, R, D, E>(s: State<K, R, D, E>, w: nat, ev: Event<R, E>)
    requires Inv(s) && w < |s.created|
    ensures Inv(s.(trace := s.trace + [ToWriter(w, ev)]))
  {
    forall v: nat | |s.created| <= v
      ensures WriterLog<K, R, E>([ToWriter(w, ev)], v) == []
    {
      SingleLogs<K, R, E>(ToWriter(w, ev), v);
    }
    SingleLogs<K, R, E>(ToWriter(w, ev), w);
    AppendPreservesInv(s, [ToWriter(w, ev)]);
  }

  lemma RoutePreservesInv<T, K, R, D, E>(s: State<K, R, D, E>, m: Mappers<T, K, R, D, E>, x: T, w: nat)
    requires Inv(s) && w < |s.created|
    ensures WellFormed(s) && Inv(Route(s, m, x, w))
  {
    match m.elementOf(x)
    case Err(e) => TerminatePreservesInv(s, Error(e), Error(e));
    case Ok(el) => DeliverPreservesInv(s, w, Next(el));
  }

  /** Inserting a writer for an absent key keeps the dict and the order in agreement. */
  lemma InsertKeyed<K, R, D, E>(s: State<K, R, D, E>, key: K)
    requires Keyed(s) && key !in s.writers
    ensures Keyed(Insert(s, key))
  {
    var s1 := Insert(s, key);
    assert key !in s.order;
    forall k | k in s1.writers
      ensures s1.writers[k] < |s1.created| && s1.created[s1.writers[k]] == k
    {
      if k != key {
        assert s1.writers[k] == s.writers[k];
      }
    }
  }

  lemma InsertPreservesInv<K, R, D, E>(s: State<K, R, D, E>, key: K)
    requires Inv(s) && key !in s.writers
    ensures Inv(Insert(s, key))
  {
    InsertKeyed(s, key);
  }

  /** A born writer for a new key, announced downstream when its duration
      mapper succeeded, keeps the invariant. */
  lemma AnnouncePreservesInv<K, R, D, E>(s: State<K, R, D, E>, key: K, d: D)
    requires Inv(s) && key !in s.writers
    ensures Inv(Announce(Insert(s, key), Group(key, |s.created|), d))
  {
    var g := Group(key, |s.created|);
    var s1 := Insert(s, key);
    InsertPreservesInv(s, key);
    var s2 := Announce(s1, g, d);
    forall v: nat | |s2.created| <= v
      ensures WriterLog(s2.trace, v) == []
    {
      AnnouncedLogs(s1, s2, g, v);
    }
    AnnouncedLogs(s1, s2, g, 0);
    assert Values<Group<K>, E>([Next(g)]) == [g];
    ValuesAppend(ObserverLog(s1.trace), [Next(g)]);
    AnnouncedOnceSnoc(Values(ObserverLog(s.trace)), s.created, key);
    assert AnnouncedOnce(Values(ObserverLog(s2.trace)), s2.created);
    assert s2.created[g.writer] == key && s2.writers[key] == g.writer;
    assert Keyed(s2);
  }

  /** A group for a writer created after all earlier ones can be announced after them. */
  lemma AnnouncedOnceSnoc<K>(gs: seq<Group<K>>, created: seq<K>, key: K)
    requires AnnouncedOnce(gs, created)
    ensures AnnouncedOnce(gs + [Group(key, |created|)], created + [key])
  {
    var hs := gs + [Group(key, |created|)];
    var c := created + [key];
    forall i | 0 <= i < |hs|
      ensures hs[i].writer < |c| && c[hs[i].writer] == hs[i].key
    {
      if i < |gs| {
        assert hs[i] == gs[i];
      }
    }
    forall i, j | 0 <= i < j < |hs|
      ensures hs[i].writer < hs[j].writer
    {
      assert hs[i] == gs[i];
    }
  }

  /** Every upstream `on_next` keeps the invariant. */
  lemma NextPreservesInv<T, K, R, D, E>(s: State<K, R, D, E>, m: Mappers<T, K, R, D, E>, x: T)
    requires Inv(s)
    ensures WellFormed(s) && Inv(AfterNext(s, m, x))
  {
    match m.keyOf(x)
    case Err(e) => TerminatePreservesInv(s, Error(e), Error(e));
    case Ok(key) =>
      if key in s.writers {
        RoutePreservesInv(s, m, x, s.writers[key]);
      } else {
        var w := |s.created|;
        var s1 := Insert(s, key);
        InsertPreservesInv(s, key);
        match m.durationOf(Group(key, w))
        case Err(e) => TerminatePreservesInv(s1, Error(e), Error(e));
        case Ok(d) =>
          AnnouncePreservesInv(s, key, d);
          RoutePreservesInv(Announce(s1, Group(key, w), d), m, x, w);
      }
  }

  lemma RemovePreservesInv<K, R, D, E>(s: State<K, R, D, E>, key: K)
    requires Inv(s) && key in s.writers
    ensures Inv(Remove(s, key))
  {
    var t := Remove(s, key);
    RemoveKeyed(s, key);
    forall v | v in t.durations
      ensures v < |t.created| && t.created[v] in t.writers && t.writers[t.created[v]] == v
    {
      assert s.created[v] != key;
    }
    assert t.trace == s.trace && t.created == s.created;
  }

  /** Deleting a key keeps the dict and the insertion order in agreement. */
  lemma RemoveKeyed<K, R, D, E>(s: State<K, R, D, E>, key: K)
    requires Keyed(s) && key in s.writers
    ensures Keyed(Remove(s, key))
  {
    var t := Remove(s, key);
    assert key in s.order;
    var i :| 0 <= i < |s.order| && s.order[i] == key;
    WithoutAt(s.order, key, i);
    DistinctDrop(s.order, i);
    assert forall k | k in t.writers :: k in t.order;
    assert forall k | k in t.order :: k in t.writers;
    assert forall k | k in t.writers :: t.writers[k] == s.writers[k];
  }

  lemma DistinctDrop<T>(s: seq<T>, i: nat)
    requires Distinct(s) && i < |s|
    ensures Distinct(s[..i] + s[i + 1..])
  {
    var r := s[..i] + s[i + 1..];
    forall a, b | 0 <= a < b < |r|
      ensures r[a] != r[b]
    {
      var a', b' := if a < i then a else a + 1, if b < i then b else b + 1;
      assert r[a] == s[a'] && r[b] == s[b'];
    }
  }

  lemma ExpirePreservesInv<K, R, D, E>(s: State<K, R, D, E>, key: K)
    requires Inv(s) && key in s.writers && s.writers[key] in s.durations
    ensures Inv(AfterExpire(s, key))
  {
    var w := s.writers[key];
    RemovePreservesInv(s, key);
    forall v: nat | |s.created| <= v
      ensures WriterLog<K, R, E>([ToWriter(w, Completed)], v) == []
    {
      SingleLogs<K, R, E>(ToWriter(w, Completed), v);
    }
    SingleLogs<K, R, E>(ToWriter(w, Completed), w);
    AppendPreservesInv(Remove(s, key), [ToWriter(w, Completed)]);
  }

  // ------------------------------------------------------------------ properties

  /** A failure fans the error out: every live writer gets it exactly once and
      no other writer gets anything, then the observer gets it; the map, the
      order and the duration subscriptions stay as they are. */
  lemma AbortLogs<K, R, D, E>(s: State<K, R, D, E>, e: E, w: nat)
    requires Keyed(s)
    ensures WellFormed(s)
    ensures var t := Abort(s, e);
      && t.order == s.order && t.writers == s.writers && t.created == s.created && t.durations == s.durations
      && t.trace == s.trace + Broadcast(s.order, s.writers, Error(e)) + [ToObserver(Error(e))]
      && WriterLog(t.trace, w) == WriterLog(s.trace, w) + (if w in s.writers.Values then [Error(e)] else [])
      && ObserverLog(t.trace) == ObserverLog(s.trace) + [Error(e)]
  {
    TerminateLogs(s, Error(e), Error(e), w);
  }

  lemma TerminateLogs<K, R, D, E>(s: State<K, R, D, E>, wev: Event<R, E>, oev: Event<Group<K>, E>, w: nat)
    requires Keyed(s)
    ensures WellFormed(s)
    ensures var t := Terminate(s, wev, oev);
      && WriterLog(t.trace, w) == WriterLog(s.trace, w) + (if w in s.writers.Values then [wev] else [])
      && ObserverLog(t.trace) == ObserverLog(s.trace) + [oev]
  {
    var b := Broadcast(s.order, s.writers, wev);
    var extra := b + [ToObserver(oev)];
    assert Terminate(s, wev, oev).trace == s.trace + extra;
    LiveWriters(s, w);
    BroadcastLog(s.order, s.writers, wev, w);
    SingleLogs<K, R, E>(ToObserver(oev), w);
    WriterLogAppend(b, [ToObserver(oev)], w);
    assert WriterLog(extra, w) == if w in s.writers.Values then [wev] else [];
    WriterLogAppend(s.trace, extra, w);
    ObserverLogAppend(b, [ToObserver(oev)]);
    assert ObserverLog(extra) == [oev];
    ObserverLogAppend(s.trace, extra);
  }

  /** Upstream completion completes every live writer exactly once, in
      insertion order, then the observer; the map is not cleared. */
  lemma CompletedFansOut<K, R, D, E>(s: State<K, R, D, E>, w: nat)
    requires Inv(s)
    ensures WellFormed(s)
    ensures var t := AfterCompleted(s);
      && t.order == s.order && t.writers == s.writers && t.durations == s.durations
      && t.trace == s.trace + Broadcast(s.order, s.writers, Completed) + [ToObserver(Completed)]
      && WriterLog(t.trace, w) == WriterLog(s.trace, w) + (if w in s.writers.Values then [Completed] else [])
      && ObserverLog(t.trace) == ObserverLog(s.trace) + [Completed]
  {
    TerminateLogs(s, Completed, Completed, w);
  }

  /** Upstream error: every live writer gets the error exactly once, in
      insertion order, then the observer. */
  lemma ErrorFansOut<K, R, D, E>(s: State<K, R, D, E>, e: E, w: nat)
    requires Inv(s)
    ensures WellFormed(s)
    ensures var t := AfterError(s, e);
      && t.order == s.order && t.writers == s.writers && t.durations == s.durations
      && t.trace == s.trace + Broadcast(s.order, s.writers, Error(e)) + [ToObserver(Error(e))]
      && WriterLog(t.trace, w) == WriterLog(s.trace, w) + (if w in s.writers.Values then [Error(e)] else [])
      && ObserverLog(t.trace) == ObserverLog(s.trace) + [Error(e)]
  {
    AbortLogs(s, e, w);
  }

  /** `key_mapper` raises: the error goes to every live writer, then the
      observer; no writer is created and the element is delivered nowhere. */
  lemma KeyMapperFailure<T, K, R, D, E>(s: State<K, R, D, E>, m: Mappers<T, K, R, D, E>, x: T, w: nat)
    requires Inv(s) && m.keyOf(x).Err?
    ensures WellFormed(s)
    ensures var t := AfterNext(s, m, x); var e := m.keyOf(x).error;
      && t.order == s.order && t.writers == s.writers && t.created == s.created && t.durations == s.durations
      && t.trace == s.trace + Broadcast(s.order, s.writers, Error(e)) + [ToObserver(Error(e))]
      && WriterLog(t.trace, w) == WriterLog(s.trace, w) + (if w in s.writers.Values then [Error(e)] else [])
      && ObserverLog(t.trace) == ObserverLog(s.trace) + [Error(e)]
  {
    AbortLogs(s, m.keyOf(x).error, w);
  }

  /** `duration_mapper` raises for a new key: the writer just inserted stays in
      the map and, with every other live writer, gets the error (it is last in
      insertion order); no group is sent downstream, only the error, and the
      element is delivered nowhere. */
  lemma DurationMapperFailure<T, K, R, D, E>(s: State<K, R, D, E>, m: Mappers<T, K, R, D, E>, x: T, w: nat)
    requires Inv(s) && m.keyOf(x).Ok? && m.keyOf(x).value !in s.writers
    requires m.durationOf(Group(m.keyOf(x).value, |s.created|)).Err?
    ensures WellFormed(s)
    ensures var t := AfterNext(s, m, x); var key := m.keyOf(x).value;
      var e := m.durationOf(Group(key, |s.created|)).error;
      && t.order == s.order + [key] && t.writers == s.writers[key := |s.created|]
      && t.durations == s.durations
      && t.trace == s.trace + Broadcast(s.order + [key], s.writers[key := |s.created|], Error(e)) + [ToObserver(Error(e))]
      && t.trace[|t.trace| - 2] == ToWriter(|s.created|, Error(e))
      && WriterLog(t.trace, w) == WriterLog(s.trace, w) + (if w in t.writers.Values then [Error(e)] else [])
      && ObserverLog(t.trace) == ObserverLog(s.trace) + [Error(e)]
  {
    var key := m.keyOf(x).value;
    var s1 := Insert(s, key);
    InsertKeyed(s, key);
    var e := m.durationOf(Group(key, |s.created|)).error;
    var t := AfterNext(s, m, x);
    assert t == Abort(s1, e);
    AbortLogs(s1, e, w);
    var b := Broadcast(s1.order, s1.writers, Error(e));
    assert t.trace == (s.trace + b) + [ToObserver(Error(e))];
    assert b[|b| - 1] == ToWriter(|s.created|, Error(e)) by {
      assert s1.order[|s1.order| - 1] == key;
    }
    assert t.trace[|t.trace| - 2] == (s.trace + b)[|s.trace + b| - 1];
  }

  /** `element_mapper` raises: every live writer, including one just created
      for this element's key, gets the error, then the observer; the element
      reaches no writer. */
  lemma ElementMapperFailure<T, K, R, D, E>(s: State<K, R, D, E>, m: Mappers<T, K, R, D, E>, x: T, w: nat)
    requires Inv(s) && m.keyOf(x).Ok? && m.elementOf(x).Err?
    requires m.keyOf(x).value !in s.writers ==> m.durationOf(Group(m.keyOf(x).value, |s.created|)).Ok?
    ensures WellFormed(s)
    ensures var t := AfterNext(s, m, x); var key := m.keyOf(x).value; var e := m.elementOf(x).error;
      var born := |s.created|;
      && key in t.writers
      && (key in s.writers ==>
            && t.order == s.order && t.writers == s.writers && t.created == s.created && t.durations == s.durations
            && t.trace == s.trace + Broadcast(s.order, s.writers, Error(e)) + [ToObserver(Error(e))])
      && (key !in s.writers ==>
            && t.order == s.order + [key] && t.writers == s.writers[key := born]
            && t.durations == s.durations[born := m.durationOf(Group(key, born)).value]
            && t.trace == s.trace + [ToObserver(Next(Group(key, born)))]
                 + Broadcast(s.order + [key], s.writers[key := born], Error(e)) + [ToObserver(Error(e))])
      && WriterLog(t.trace, w) == WriterLog(s.trace, w) + (if w in t.writers.Values then [Error(e)] else [])
      && ObserverLog(t.trace) == ObserverLog(s.trace)
           + (if key in s.writers then [] else [Next(Group(key, |s.created|))]) + [Error(e)]
  {
    var key := m.keyOf(x).value;
    var e := m.elementOf(x).error;
    if key in s.writers {
      AbortLogs(s, e, w);
    } else {
      var g := Group(key, |s.created|);
      var s2 := Announce(Insert(s, key), g, m.durationOf(g).value);
      assert AfterNext(s, m, x) == Route(s2, m, x, g.writer);
      InsertKeyed(s, key);
      AnnouncedLogs(s, s2, g, w);
      AbortLogs(s2, e, w);
    }
  }

  /** Announcing a group adds it to the observer's log and nothing to any writer's. */
  lemma AnnouncedLogs<K, R, D, E>(s: State<K, R, D, E>, s2: State<K, R, D, E>, g: Group<K>, w: nat)
    requires s2.trace == s.trace + [ToObserver(Next(g))]
    ensures WriterLog(s2.trace, w) == WriterLog(s.trace, w)
    ensures ObserverLog(s2.trace) == ObserverLog(s.trace) + [Next(g)]
  {
    SingleLogs<K, R, E>(ToObserver(Next(g)), w);
    WriterLogAppend(s.trace, [ToObserver(Next(g))], w);
    ObserverLogAppend(s.trace, [ToObserver(Next(g))]);
  }

  /** All mappers succeed for a key that already has a writer: that writer is
      reused and receives the mapped element; no other writer receives
      anything, nothing is sent downstream and the map is unchanged. */
  lemma ExistingKeyReusesWriter<T, K, R, D, E>(s: State<K, R, D, E>, m: Mappers<T, K, R, D, E>, x: T, w: nat)
    requires Inv(s) && m.keyOf(x).Ok? && m.keyOf(x).value in s.writers && m.elementOf(x).Ok?
    ensures WellFormed(s)
    ensures var t := AfterNext(s, m, x); var key := m.keyOf(x).value;
      && t.order == s.order && t.writers == s.writers && t.created == s.created && t.durations == s.durations
      && t.trace == s.trace + [ToWriter(s.writers[key], Next(m.elementOf(x).value))]
      && WriterLog(t.trace, w) == WriterLog(s.trace, w) + (if w == s.writers[key] then [Next(m.elementOf(x).value)] else [])
      && ObserverLog(t.trace) == ObserverLog(s.trace)
  {
    var t := AfterNext(s, m, x);
    var d := [ToWriter(s.writers[m.keyOf(x).value], Next(m.elementOf(x).value))];
    WriterLogAppend(s.trace, d, w);
    ObserverLogAppend(s.trace, d);
  }

  /** All mappers succeed for a key without a writer: a born writer, which has
      received nothing before, is inserted at the end of the order; its group is
      sent downstream once, before the mapped element reaches the writer. */
  lemma NewKeyCreatesGroup<T, K, R, D, E>(s: State<K, R, D, E>, m: Mappers<T, K, R, D, E>, x: T, w: nat)
    requires Inv(s) && m.keyOf(x).Ok? && m.keyOf(x).value !in s.writers
    requires m.durationOf(Group(m.keyOf(x).value, |s.created|)).Ok? && m.elementOf(x).Ok?
    ensures WellFormed(s)
    ensures var t := AfterNext(s, m, x); var key := m.keyOf(x).value; var born := |s.created|;
      var el := m.elementOf(x).value;
      && born !in s.writers.Values && WriterLog(s.trace, born) == []
      && t.order == s.order + [key] && t.writers == s.writers[key := born]
      && t.durations == s.durations[born := m.durationOf(Group(key, born)).value]
      && t.trace == s.trace + [ToObserver(Next(Group(key, born))), ToWriter(born, Next(el))]
      && WriterLog(t.trace, w) == WriterLog(s.trace, w) + (if w == born then [Next(el)] else [])
      && ObserverLog(t.trace) == ObserverLog(s.trace) + [Next(Group(key, born))]
  {
    var key := m.keyOf(x).value;
    var born := |s.created|;
    var el := m.elementOf(x).value;
    var a := ToObserver(Next(Group(key, born)));
    var b := ToWriter(born, Next(el));
    assert AfterNext(s, m, x).trace == s.trace + [a, b];
    assert [a, b] == [a] + [b];
    SingleLogs<K, R, E>(a, w);
    SingleLogs<K, R, E>(b, w);
    WriterLogAppend([a], [b], w);
    ObserverLogAppend([a], [b]);
    WriterLogAppend(s.trace, [a, b], w);
    ObserverLogAppend(s.trace, [a, b]);
    assert born !in s.writers.Values by {
      forall k | k in s.writers
        ensures s.writers[k] != born
      {
      }
    }
  }

  /** Expiry removes exactly its key: the other keys keep their writers and
      their relative order, and the expired writer's duration subscription is
      released, so it cannot expire twice. */
  lemma ExpireRemovesOnlyItsKey<K, R, D, E>(s: State<K, R, D, E>, key: K)
    requires Inv(s) && key in s.writers && s.writers[key] in s.durations
    ensures var t := AfterExpire(s, key); var gone := s.writers[key];
      && key !in t.writers && (forall k | k in t.writers :: k in s.writers && t.writers[k] == s.writers[k])
      && (forall k | k in s.writers && k != key :: k in t.writers)
      && (exists i | 0 <= i < |s.order| :: s.order[i] == key && t.order == s.order[..i] + s.order[i + 1..])
      && gone !in t.durations && t.durations.Keys == s.durations.Keys - {gone}
      && t.created == s.created
  {
    var t := AfterExpire(s, key);
    assert key in s.order;
    var i :| 0 <= i < |s.order| && s.order[i] == key;
    WithoutAt(s.order, key, i);
    assert t.order == s.order[..i] + s.order[i + 1..];
  }

  /** Expiry completes exactly the expired writer, once, and sends nothing downstream. */
  lemma ExpireCompletesOnlyItsWriter<K, R, D, E>(s: State<K, R, D, E>, key: K, w: nat)
    requires key in s.writers && s.writers[key] in s.durations
    ensures var t := AfterExpire(s, key);
      && WriterLog(t.trace, w) == WriterLog(s.trace, w) + (if w == s.writers[key] then [Completed] else [])
      && ObserverLog(t.trace) == ObserverLog(s.trace)
  {
    var d := ToWriter(s.writers[key], Completed);
    SingleLogs<K, R, E>(d, w);
    WriterLogAppend(s.trace, [d], w);
    ObserverLogAppend(s.trace, [d]);
  }

  /** After a group expires, the next element with the same key creates a new
      writer, different from the expired one and from every other writer, and
      sends a new group downstream. */
  lemma ExpiredGroupIsReborn<T, K, R, D, E>(s: State<K, R, D, E>, m: Mappers<T, K, R, D, E>, key: K, x: T)
    requires Inv(s) && key in s.writers && s.writers[key] in s.durations
    requires m.keyOf(x) == Ok(key) && m.elementOf(x).Ok?
    requires m.durationOf(Group(key, |s.created|)).Ok?
    ensures var s1 := AfterExpire(s, key);
      WellFormed(s1) &&
      var t := AfterNext(s1, m, x);
      && key in t.writers && t.writers[key] != s.writers[key]
      && t.writers[key] !in s.writers.Values
      && ObserverLog(t.trace) == ObserverLog(s.trace) + [Next(Group(key, t.writers[key]))]
  {
    var s1 := AfterExpire(s, key);
    ExpirePreservesInv(s, key);
    ExpireRemovesOnlyItsKey(s, key);
    ExpireCompletesOnlyItsWriter(s, key, 0);
    NewKeyCreatesGroup(s1, m, x, 0);
    assert s1.created == s.created;
    assert |s.created| !in s.writers.Values by {
      forall k | k in s.writers
        ensures s.writers[k] != |s.created|
      {
      }
    }
  }

  /** Each writer is announced downstream at most once, under its own key. */
  lemma GroupAnnouncedAtMostOnce<K, R, D, E>(s: State<K, R, D, E>, i: nat, j: nat)
    requires Inv(s)
    requires i < j < |Values(ObserverLog(s.trace))|
    ensures Values(ObserverLog(s.trace))[i].writer != Values(ObserverLog(s.trace))[j].writer
  {
  }

  // ------------------------------------------------------------ no group left open

  /** Writer `w` has received an error or a completion. */
  ghost predicate Closed<K, R, E>(t: seq<Delivery<K, R, E>>, w: nat) {
    Terminals(WriterLog(t, w)) != []
  }

  /** Every writer created so far that has left the dict has been completed or
      failed: a key leaves the dict only by expiry, which completes its writer
      (lines 89-92). */
  ghost predicate NoneLeftOpen<K, R, D, E>(s: State<K, R, D, E>) {
    forall w: nat | w < |s.created| && w !in s.writers.Values :: Closed(s.trace, w)
  }

  /** A closed writer stays closed whatever is delivered after. */
  lemma ClosedGrows<K, R, E>(a: seq<Delivery<K, R, E>>, b: seq<Delivery<K, R, E>>, w: nat)
    requires Closed(a, w)
    ensures Closed(a + b, w)
  {
    WriterLogAppend(a, b, w);
    TerminalsAppend(WriterLog(a, w), WriterLog(b, w));
  }

  /** A writer whose last call is an error or a completion is closed. */
  lemma ClosedByTerminal<K, R, E>(t: seq<Delivery<K, R, E>>, before: seq<Event<R, E>>, ev: Event<R, E>, w: nat)
    requires WriterLog(t, w) == before + [ev] && ev.IsTerminal()
    ensures Closed(t, w)
  {
    TerminalsAppend(before, [ev]);
    assert [ev][1..] == [];
  }

  lemma InitialNoneLeftOpen<K, R, D, E>()
    ensures NoneLeftOpen(Initial<K, R, D, E>())
  {
  }

  /** A step that only appends to the trace, keeps every live key's writer and
      creates at most one writer, which it leaves live, keeps `NoneLeftOpen`. */
  lemma GrowthKeepsNoneLeftOpen<K, R, D, E>(s: State<K, R, D, E>, t: State<K, R, D, E>)
    requires NoneLeftOpen(s) && s.trace <= t.trace
    requires forall k | k in s.writers :: k in t.writers && t.writers[k] == s.writers[k]
    requires |s.created| <= |t.created| <= |s.created| + 1
    requires |t.created| == |s.created| + 1 ==> |s.created| in t.writers.Values
    ensures NoneLeftOpen(t)
  {
    var later := t.trace[|s.trace|..];
    assert t.trace == s.trace + later;
    forall w: nat | w < |t.created| && w !in t.writers.Values
      ensures Closed(t.trace, w)
    {
      assert w !in s.writers.Values by {
        forall k | k in s.writers
          ensures s.writers[k] != w
        {
          assert t.writers[k] in t.writers.Values;
        }
      }
      ClosedGrows(s.trace, later, w);
    }
  }

  /** Every upstream `on_next` keeps every writer that left the dict closed. */
  lemma NextKeepsNoneLeftOpen<T, K, R, D, E>(s: State<K, R, D, E>, m: Mappers<T, K, R, D, E>, x: T)
    requires WellFormed(s) && NoneLeftOpen(s)
    ensures NoneLeftOpen(AfterNext(s, m, x))
  {
    var t := AfterNext(s, m, x);
    match m.keyOf(x)
    case Err(e) =>
      assert t.trace == s.trace + Broadcast(s.order, s.writers, Error(e)) + [ToObserver(Error(e))];
      GrowthKeepsNoneLeftOpen(s, t);
    case Ok(key) =>
      if key in s.writers {
        assert t == Route(s, m, x, s.writers[key]);
        assert t.writers == s.writers && t.created == s.created && s.trace <= t.trace;
        GrowthKeepsNoneLeftOpen(s, t);
      } else {
        var w := |s.created|;
        var s1 := Insert(s, key);
        assert s1.writers[key] == w && s1.trace == s.trace;
        match m.durationOf(Group(key, w)) {
          case Err(e) =>
            assert t == Abort(s1, e);
          case Ok(d) =>
            assert t == Route(Announce(s1, Group(key, w), d), m, x, w);
        }
        assert t.writers == s1.writers && t.created == s1.created && s.trace <= t.trace;
        assert t.writers[key] in t.writers.Values;
        GrowthKeepsNoneLeftOpen(s, t);
      }
  }

  /** Expiry keeps every writer that left the dict closed: the expired writer
      is completed by it. */
  lemma ExpireKeepsNoneLeftOpen<K, R, D, E>(s: State<K, R, D, E>, key: K)
    requires NoneLeftOpen(s) && key in s.writers && s.writers[key] in s.durations
    ensures NoneLeftOpen(AfterExpire(s, key))
  {
    var t := AfterExpire(s, key);
    var gone := s.writers[key];
    forall w: nat | w < |t.created| && w !in t.writers.Values
      ensures Closed(t.trace, w)
    {
      ExpireCompletesOnlyItsWriter(s, key, w);
      if w == gone {
        ClosedByTerminal(t.trace, WriterLog(s.trace, w), Completed, w);
      } else {
        assert w !in s.writers.Values by {
          forall k | k in s.writers
            ensures s.writers[k] != w
          {
            if k != key {
              assert t.writers[k] in t.writers.Values;
            }
          }
        }
        ClosedGrows(s.trace, [ToWriter(gone, Completed)], w);
      }
    }
  }

  /** A fan-out, and so every failure path and a failed duration, keeps every
      writer that left the dict closed. */
  lemma TerminateKeepsNoneLeftOpen<K, R, D, E>(s: State<K, R, D, E>, wev: Event<R, E>, oev: Event<Group<K>, E>)
    requires WellFormed(s) && NoneLeftOpen(s)
    ensures NoneLeftOpen(Terminate(s, wev, oev))
  {
    GrowthKeepsNoneLeftOpen(s, Terminate(s, wev, oev));
  }

  /** After a terminal fan-out, every writer ever created is closed: the live
      ones by the fan-out itself, the others by their earlier expiry. */
  lemma TerminateLeavesNoneOpen<K, R, D, E>(s: State<K, R, D, E>, wev: Event<R, E>, oev: Event<Group<K>, E>, w: nat)
    requires Inv(s) && NoneLeftOpen(s) && wev.IsTerminal() && w < |s.created|
    ensures WellFormed(s) && Closed(Terminate(s, wev, oev).trace, w)
  {
    var t := Terminate(s, wev, oev);
    TerminateLogs(s, wev, oev, w);
    if w in s.writers.Values {
      ClosedByTerminal(t.trace, WriterLog(s.trace, w), wev, w);
    } else {
      assert t.trace == s.trace + (Broadcast(s.order, s.writers, wev) + [ToObserver(oev)]);
      ClosedGrows(s.trace, Broadcast(s.order, s.writers, wev) + [ToObserver(oev)], w);
    }
  }

  /** Once upstream completes, no group is left open: every writer ever
      created has been completed or failed (lines 126-130). */
  lemma CompletedLeavesNoneOpen<K, R, D, E>(s: State<K, R, D, E>, w: nat)
    requires Inv(s) && NoneLeftOpen(s) && w < |s.created|
    ensures WellFormed(s) && Closed(AfterCompleted(s).trace, w)
  {
    TerminateLeavesNoneOpen(s, Completed, Completed, w);
  }

  /** Once upstream fails, no group is left open: every writer ever created has
      been completed or failed (lines 120-124). */
  lemma ErrorLeavesNoneOpen<K, R, D, E>(s: State<K, R, D, E>, e: E, w: nat)
    requires Inv(s) && NoneLeftOpen(s) && w < |s.created|
    ensures WellFormed(s) && Closed(AfterError(s, e).trace, w)
  {
    TerminateLeavesNoneOpen(s, Error(e), Error(e), w);
  }

  /** Without an element mapper, every element reaches its group's writer
      unchanged: an existing key's writer gets `x` itself, and a new key's group
      is announced before its born writer gets `x`. */
  lemma IdentityElementMapper<T(!new), K, D, E>(s: State<K, T, D, E>, keyOf: T -> Result<K, E>,
                                          durationOf: Group<K> -> Result<D, E>, x: T)
    requires WellFormed(s) && keyOf(x).Ok?
    ensures var m := Mappers(keyOf, ElementMapperOrIdentity<T, E>(None), durationOf);
      var key := keyOf(x).value; var t := AfterNext(s, m, x);
      && (key in s.writers ==> t.trace == s.trace + [ToWriter(s.writers[key], Next(x))])
      && (key !in s.writers && durationOf(Group(key, |s.created|)).Ok? ==>
            t.trace == s.trace + [ToObserver(Next(Group(key, |s.created|))), ToWriter(|s.created|, Next(x))])
  {
  }

  /** A record of the upstream in the worked example below. */
  datatype Record = Record(id: int, name: string)

  /** Key by `id`, map to `name`, and a duration signal that never fires. */
  function ByIdNeverExpiring(): Mappers<Record, int, string, (), string> {
    Mappers((r: Record) => Ok(r.id), (r: Record) => Ok(r.name), (g: Group<int>) => Ok(()))
  }

  /** The calls made for records (1, "a"), (2, "b"), (1, "c") under
      `ByIdNeverExpiring`: group 1 is announced before its writer gets "a",
      group 2 before its writer gets "b", and "c" goes to the writer of group
      1 without a new announcement. */
  lemma ThreeRecordsTrace()
    ensures
      var m := ByIdNeverExpiring();
      var s1 := AfterNext(Initial(), m, Record(1, "a"));
      var s2 := AfterNext(s1, m, Record(2, "b"));
      var s3 := AfterNext(s2, m, Record(1, "c"));
      && s3.trace == [ToObserver(Next(Group(1, 0))), ToWriter(0, Next("a")),
                      ToObserver(Next(Group(2, 1))), ToWriter(1, Next("b")), ToWriter(0, Next("c"))]
      && s3.order == [1, 2]
  {
    var m := ByIdNeverExpiring();
    var a, b, c := Record(1, "a"), Record(2, "b"), Record(1, "c");
    assert m.keyOf(a) == Ok(1) && m.elementOf(a) == Ok("a") && m.durationOf(Group(1, 0)) == Ok(());
    var s1 := AfterNext(Initial(), m, a);
    assert s1.writers == map[1 := 0] && s1.created == [1] && s1.order == [1];
    assert m.keyOf(b) == Ok(2) && m.elementOf(b) == Ok("b") && m.durationOf(Group(2, 1)) == Ok(());
    var s2 := AfterNext(s1, m, b);
    assert s2.writers == map[1 := 0, 2 := 1] && s2.order == [1, 2];
    assert m.keyOf(c) == Ok(1) && m.elementOf(c) == Ok("c");
  }

  lemma ThreeRecordsLogs()
    ensures var t: seq<Delivery<int, string, string>> :=
        [ToObserver(Next(Group(1, 0))), ToWriter(0, Next("a")),
         ToObserver(Next(Group(2, 1))), ToWriter(1, Next("b")), ToWriter(0, Next("c"))];
      && ObserverLog(t) == [Next(Group(1, 0)), Next(Group(2, 1))]
      && WriterLog(t, 0) == [Next("a"), Next("c")]
      && WriterLog(t, 1) == [Next("b")]
  {
  }

  /** Records (1, "a"), (2, "b"), (1, "c") with never-expiring groups: exactly
      two groups go downstream, keyed 1 and 2; group 1's writer receives "a"
      then "c", group 2's writer receives "b". */
  lemma ThreeRecordsTwoGroups()
    ensures
      var m := ByIdNeverExpiring();
      var s1 := AfterNext(Initial(), m, Record(1, "a"));
      var s2 := AfterNext(s1, m, Record(2, "b"));
      var s3 := AfterNext(s2, m, Record(1, "c"));
      && ObserverLog(s3.trace) == [Next(Group(1, 0)), Next(Group(2, 1))]
      && WriterLog(s3.trace, 0) == [Next("a"), Next("c")]
      && WriterLog(s3.trace, 1) == [Next("b")]
      && s3.order == [1, 2]
  {
    ThreeRecordsTrace();
    ThreeRecordsLogs();
  }

  // -------------------------------------------------------- the subscription object

  /** The state of one `subscribe` call (lines 48-133): the `writers`
      OrderedDict (as `order` and `writers`), the writers created so far, the
      duration subscriptions held by `group_disposable`, and the calls made
      on writers and on the observer. */
  class Subscription<T, K(==), R, D, E> {
    const mappers: Mappers<T, K, R, D, E>
    var order: seq<K>
    var writers: map<K, nat>
    var created: seq<K>
    var durations: map<nat, D>
    var trace: seq<Delivery<K, R, E>>

    ghost function Snapshot(): State<K, R, D, E>
      reads this
    {
      State(order, writers, created, durations, trace)
    }

    ghost predicate Valid()
      reads this
    {
      Inv(Snapshot())
    }

    constructor (mappers: Mappers<T, K, R, D, E>)
      ensures Valid() && Snapshot() == Initial() && this.mappers == mappers
    {
      this.mappers := mappers;
      order, writers, created, durations, trace := [], map[], [], map[], [];
    }

    /** `for wrt in writers.values(): wrt.<call>(...)`. */
    method FanOut(ev: Event<R, E>)
      requires WellFormed(Snapshot())
      modifies this
      ensures Snapshot() == old(Snapshot()).(trace := old(trace) + Broadcast(old(order), old(writers), ev))
    {
      var sent := [];
      var i := 0;
      while i < |order|
        invariant 0 <= i <= |order|
        invariant |sent| == i
        invariant forall j | 0 <= j < i :: sent[j] == ToWriter(writers[order[j]], ev)
      {
        sent := sent + [ToWriter(writers[order[i]], ev)];
        i := i + 1;
      }
      assert sent == Broadcast(order, writers, ev);
      trace := trace + sent;
    }

    /** A fan-out followed by the same call on the observer. */
    method Fail(e: E)
      requires Valid()
      modifies this
      ensures WellFormed(old(Snapshot())) && Snapshot() == Abort(old(Snapshot()), e)
      ensures Valid()
    {
      TerminatePreservesInv(Snapshot(), Error(e), Error(e));
      FanOut(Error(e));
      trace := trace + [ToObserver(Error(e))];
    }

    /** The upstream `on_next(x)`: find or create the key's writer, announce a
        new group, then hand the mapped element to the writer; a mapper that
        raises makes the error fan out instead. */
    method OnNext(x: T)
      requires Valid()
      modifies this
      ensures WellFormed(old(Snapshot())) && Snapshot() == AfterNext(old(Snapshot()), mappers, x)
      ensures Valid()
    {
      match mappers.keyOf(x)
      case Err(e) =>
        Fail(e);
      case Ok(key) =>
        if key in writers {
          Deliver(x, writers[key]);
        } else {
          var w := NewWriter(key);
          match mappers.durationOf(Group(key, w))
          case Err(e) =>
            Fail(e);
          case Ok(d) =>
            AnnouncePreservesInv(old(Snapshot()), key, d);
            trace := trace + [ToObserver(Next(Group(key, w)))];
            durations := durations[w := d];
            Deliver(x, w);
        }
    }

    /** Lines 66-71 for an absent key: a new writer Subject is inserted last. */
    method NewWriter(key: K) returns (w: nat)
      requires Valid() && key !in writers
      modifies this
      ensures w == old(|created|) && Snapshot() == Insert(old(Snapshot()), key)
      ensures Valid()
    {
      InsertPreservesInv(Snapshot(), key);
      w := |created|;
      created := created + [key];
      writers := writers[key := w];
      order := order + [key];
    }

    /** Lines 109-118: map the element and hand it to writer `w`. */
    method Deliver(x: T, w: nat)
      requires Valid() && w < |created|
      modifies this
      ensures WellFormed(old(Snapshot())) && Snapshot() == Route(old(Snapshot()), mappers, x, w)
      ensures Valid()
    {
      RoutePreservesInv(Snapshot(), mappers, x, w);
      match mappers.elementOf(x)
      case Err(e) =>
        Fail(e);
      case Ok(el) =>
        trace := trace + [ToWriter(w, Next(el))];
    }

    method OnError(e: E)
      requires Valid()
      modifies this
      ensures WellFormed(old(Snapshot())) && Snapshot() == AfterError(old(Snapshot()), e)
      ensures Valid()
    {
      Fail(e);
    }

    method OnCompleted()
      requires Valid()
      modifies this
      ensures WellFormed(old(Snapshot())) && Snapshot() == AfterCompleted(old(Snapshot()))
      ensures Valid()
    {
      TerminatePreservesInv(Snapshot(), Completed, Completed);
      FanOut(Completed);
      trace := trace + [ToObserver(Completed)];
    }

    /** The first value or the completion of `key`'s duration signal. */
    method Expire(key: K)
      requires Valid() && key in writers && writers[key] in durations
      modifies this
      ensures Snapshot() == AfterExpire(old(Snapshot()), key)
      ensures Valid()
    {
      ghost var s := Snapshot();
      ExpirePreservesInv(s, key);
      var w := writers[key];
      if key in writers {
        writers := writers - {key};
        order := Without(order, key);
        trace := trace + [ToWriter(w, Completed)];
      }
      durations := durations - {w};
      assert Snapshot() == AfterExpire(s, key);
    }

    /** An error from `key`'s duration signal. */
    method DurationError(key: K, e: E)
      requires Valid() && key in writers && writers[key] in durations
      modifies this
      ensures WellFormed(old(Snapshot())) && Snapshot() == AfterDurationError(old(Snapshot()), key, e)
      ensures Valid()
    {
      Fail(e);
    }
  }
}
