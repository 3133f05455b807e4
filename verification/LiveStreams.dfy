/**
 The watch task, the attach tasks and the mux task together: which streams live, and whose they are. The watch task
 drops a key in four steps, with the other tasks running in between.
 */
module LiveStreams {
  import opened Source
  import opened Registry

  datatype Task = Starting | Opening | Sending | Awaiting | Returned
  datatype Cmd = Add(key: SourceKey, token: Token) | Remove(key: SourceKey)

  /** Between two keys, or how far the drop of a key has come. */
  datatype Watch = Boundary | Forgetting(key: SourceKey) | Unlisting(key: SourceKey) | Removing(key: SourceKey)

  datatype State = State(
    books: Books,
    watch: Watch,
    root: bool,                   // the root token is cancelled, and with it all others
    tasks: map<Token, Task>,
    cmds: seq<Cmd>,
    mux: map<SourceKey, Token>,   // the streams in the mux, by the token of the attach task that opened them
    muxOpen: bool,
    signalled: set<Token>)        // tasks whose current stream has signalled its end

  datatype Action =
    | DropToken(key: SourceKey)
    | Forget
    | Unlist
    | SendRemove
    | AddKey(key: SourceKey)
    | CursorLands(key: SourceKey, at: int)
    | CancelRoot
    | SeeCancelled(token: Token)
    | Open(token: Token)
    | OpenOk(token: Token)
    | OpenFails(token: Token, again: bool)
    | SendAdd(token: Token)
    | SeeEnd(token: Token, again: bool)
    | MuxCommand
    | StreamEnds(key: SourceKey)
    | MuxStops

  const START := State(Books({}, map[], 0, {}, [], [], map[]), Boundary, false, map[], [], map[], true, {})

  predicate At(s: State, t: Token, k: Task) {
    t in s.tasks && s.tasks[t] == k
  }

  predicate Cancelled(s: State, t: Token) {
    s.root || t in s.books.cancelled
  }

  function KeyOf(s: State, t: Token): SourceKey
    requires t < |s.books.spawned|
  {
    s.books.spawned[t].0
  }

  predicate Enabled(s: State, a: Action) {
    match a
    case DropToken(k) => s.watch.Boundary?
    case Forget => s.watch.Forgetting?
    case Unlist => s.watch.Unlisting?
    case SendRemove => s.watch.Removing?
    case AddKey(k) => s.watch.Boundary?
    case CursorLands(_, _) => true
    case CancelRoot => true
    case SeeCancelled(t) => At(s, t, Starting) && Cancelled(s, t)
    // The token is looked at once, before the request.
    case Open(t) => At(s, t, Starting) && !Cancelled(s, t)
    case OpenOk(t) => At(s, t, Opening)
    case OpenFails(t, _) => At(s, t, Opening)
    case SendAdd(t) => At(s, t, Sending) && t < |s.books.spawned|
    case SeeEnd(t, _) => At(s, t, Awaiting) && t in s.signalled
    case MuxCommand => s.muxOpen && s.cmds != []
    case StreamEnds(k) => s.muxOpen && k in s.mux
    case MuxStops => s.muxOpen && s.root
  }

  function Retask(s: State, t: Token, k: Task): State {
    s.(tasks := s.tasks[t := k])
  }

  function Insert(s: State, k: SourceKey, t: Token): State {
    s.(mux := s.mux[k := t], signalled := if k in s.mux then s.signalled + {s.mux[k]} else s.signalled)
  }

  function Evict(s: State, k: SourceKey): State {
    if k in s.mux then s.(mux := s.mux - {k}, signalled := s.signalled + {s.mux[k]}) else s
  }

  function WatchDo(s: State, a: Action): State
    requires a.DropToken? || a.AddKey? || (a.Forget? && s.watch.Forgetting?)
             || (a.Unlist? && s.watch.Unlisting?) || (a.SendRemove? && s.watch.Removing?)
  {
    var b := s.books;
    match a
    case DropToken(k) =>
      s.(watch := Forgetting(k),
         books := b.(tokens := b.tokens - {k},
                     cancelled := if k in b.tokens then b.cancelled + {b.tokens[k]} else b.cancelled))
    case Forget => s.(watch := Unlisting(s.watch.key), books := b.(cursors := b.cursors - {s.watch.key}))
    case Unlist => s.(watch := Removing(s.watch.key), books := b.(active := b.active - {s.watch.key}))
    case SendRemove =>
      s.(watch := Boundary, books := b.(removes := b.removes + [s.watch.key]),
         cmds := if s.muxOpen then s.cmds + [Remove(s.watch.key)] else s.cmds)
    case AddKey(k) =>
      s.(books := Added(b, k), tasks := if k in b.active then s.tasks else s.tasks[b.nextToken := Starting])
  }

  function Do(s: State, a: Action): State
    requires Enabled(s, a)
  {
    match a
    case CursorLands(k, at) => s.(books := s.books.(cursors := s.books.cursors[k := at]))
    case CancelRoot => s.(root := true)
    case SeeCancelled(t) => Retask(s, t, Returned)
    case Open(t) => Retask(s, t, Opening)
    case OpenOk(t) => Retask(s, t, Sending)
    case OpenFails(t, again) => Retask(s, t, if again then Starting else Returned)
    case SendAdd(t) =>
      if s.muxOpen then Retask(s, t, Awaiting).(cmds := s.cmds + [Add(KeyOf(s, t), t)]) else Retask(s, t, Returned)
    case SeeEnd(t, again) =>
      Retask(s, t, if again then Starting else Returned).(signalled := s.signalled - {t})
    case MuxCommand =>
      var next := s.(cmds := s.cmds[1..]);
      if s.cmds[0].Add? then Insert(next, s.cmds[0].key, s.cmds[0].token) else Evict(next, s.cmds[0].key)
    case StreamEnds(k) => Evict(s, k)
    case MuxStops =>
      var queued := set cmd | cmd in s.cmds && cmd.Add? :: cmd.token;
      s.(muxOpen := false, mux := map[], cmds := [], signalled := s.signalled + s.mux.Values + queued)
    case _ => WatchDo(s, a)
  }

  predicate IsRun(s: State, actions: seq<Action>)
    decreases |actions|
  {
    actions == [] || (Enabled(s, actions[0]) && IsRun(Do(s, actions[0]), actions[1..]))
  }

  function After(s: State, actions: seq<Action>): State
    requires IsRun(s, actions)
    decreases |actions|
  {
    if actions == [] then s else After(Do(s, actions[0]), actions[1..])
  }

  /** The four steps together are the registry's drop of a key. */
  lemma StepsDropKey(s: State, k: SourceKey)
    requires s.watch.Boundary?
    ensures var steps := [DropToken(k), Forget, Unlist, SendRemove];
            && IsRun(s, steps)
            && After(s, steps).watch == Boundary
            && After(s, steps).books == Dropped(s.books, k)
  {
    var s1 := Do(s, DropToken(k));
    var s2 := Do(s1, Forget);
    var s3 := Do(s2, Unlist);
    var s4 := Do(s3, SendRemove);
    var steps := [DropToken(k), Forget, Unlist, SendRemove];
    assert steps[1..] == [Forget, Unlist, SendRemove];
    assert steps[1..][1..] == [Unlist, SendRemove];
    assert steps[1..][1..][1..] == [SendRemove];
    assert steps[1..][1..][1..][1..] == [];
    assert IsRun(s4, []) && After(s4, []) == s4;
    assert IsRun(s3, [SendRemove]) && After(s3, [SendRemove]) == s4;
    assert IsRun(s2, [Unlist, SendRemove]) && After(s2, [Unlist, SendRemove]) == s4;
    assert IsRun(s1, [Forget, Unlist, SendRemove]) && After(s1, [Forget, Unlist, SendRemove]) == s4;
  }

  // ---- Invariant ----

  /** The keys that have a token are the active ones, but for the one being dropped. */
  ghost predicate TableOk(s: State) {
    s.books.tokens.Keys == match s.watch
                           case Forgetting(k) => s.books.active - {k}
                           case Unlisting(k) => s.books.active - {k}
                           case _ => s.books.active
  }

  ghost predicate DropOk(s: State) {
    && (!s.watch.Boundary? ==> s.watch.key !in s.books.tokens)
    && s.books.nextToken == |s.books.spawned|
    && (forall t: Token :: t in s.tasks <==> t < |s.books.spawned|)
  }

  /** A token is in the table exactly as long as it is not cancelled. */
  ghost predicate TokensOk(s: State) {
    && (forall t :: t in s.books.cancelled ==> t < |s.books.spawned|)
    && (forall k :: k in s.books.tokens ==>
          s.books.tokens[k] < |s.books.spawned| && KeyOf(s, s.books.tokens[k]) == k
          && s.books.tokens[k] !in s.books.cancelled)
    && (forall t: Token :: t < |s.books.spawned| && t !in s.books.cancelled ==>
          KeyOf(s, t) in s.books.tokens && s.books.tokens[KeyOf(s, t)] == t)
  }

  ghost predicate EntriesOk(s: State) {
    && (forall i :: 0 <= i < |s.cmds| && s.cmds[i].Add? ==>
          s.cmds[i].token < |s.books.spawned| && KeyOf(s, s.cmds[i].token) == s.cmds[i].key)
    && (forall k :: k in s.mux ==> s.mux[k] < |s.books.spawned| && KeyOf(s, s.mux[k]) == k)
    && (forall i, j :: 0 <= i < j < |s.cmds| && s.cmds[i].Add? && s.cmds[j].Add? ==> s.cmds[i].token != s.cmds[j].token)
    && (!s.muxOpen ==> s.mux == map[] && s.cmds == [])
  }

  ghost predicate Queued(s: State, t: Token) {
    exists i :: 0 <= i < |s.cmds| && s.cmds[i].Add? && s.cmds[i].token == t
  }

  ghost predicate InMux(s: State, t: Token) {
    exists k :: k in s.mux && s.mux[k] == t
  }

  /** The stream of an awaiting task is queued, in the mux, or has signalled its end, and only one of these; other tasks
      have none. */
  ghost predicate PlaceOk(s: State, t: Token)
    requires t in s.tasks
  {
    && (s.tasks[t] == Awaiting ==> Queued(s, t) || InMux(s, t) || t in s.signalled)
    && (s.tasks[t] != Awaiting ==> !Queued(s, t) && !InMux(s, t) && t !in s.signalled)
    && (Queued(s, t) ==> !InMux(s, t) && t !in s.signalled)
    && (InMux(s, t) ==> t !in s.signalled)
  }

  /** Whatever a queued remove will meet is cancelled already. */
  ghost predicate RemovesOk(s: State) {
    forall i :: 0 <= i < |s.cmds| && s.cmds[i].Remove? ==>
      && (s.cmds[i].key in s.mux ==> Cancelled(s, s.mux[s.cmds[i].key]))
      && (forall j :: 0 <= j < i && s.cmds[j].Add? && s.cmds[j].key == s.cmds[i].key ==> Cancelled(s, s.cmds[j].token))
  }

  ghost predicate BooksOk(s: State) {
    TableOk(s) && DropOk(s) && TokensOk(s)
  }

  ghost predicate PlacesOk(s: State) {
    && EntriesOk(s)
    && (forall t :: t in s.tasks ==> PlaceOk(s, t))
    && (forall t :: t in s.signalled ==> t in s.tasks)
  }

  ghost predicate Inv(s: State) {
    BooksOk(s) && PlacesOk(s) && RemovesOk(s)
  }

  predicate OfBooks(a: Action) {
    a.DropToken? || a.Forget? || a.Unlist? || a.AddKey? || a.CursorLands? || a.CancelRoot?
  }

  predicate OfTask(a: Action) {
    a.SeeCancelled? || a.Open? || a.OpenOk? || a.OpenFails? || a.SeeEnd?
  }

  lemma BooksKept(s: State, a: Action)
    requires BooksOk(s) && Enabled(s, a)
    ensures BooksOk(Do(s, a))
  {
    if OfBooks(a) {
      BooksStepKept(s, a);
    } else {
      OtherStepsLeaveBooks(s, a);
      BooksAlone(s, Do(s, a));
    }
  }

  lemma OtherStepsLeaveBooks(s: State, a: Action)
    requires DropOk(s) && Enabled(s, a) && !OfBooks(a)
    ensures var t := Do(s, a);
            && t.books.(removes := s.books.removes) == s.books && t.tasks.Keys == s.tasks.Keys
            && (t.watch == s.watch || (s.watch.Removing? && t.watch.Boundary?))
  {
  }

  lemma BooksAlone(s: State, t: State)
    requires BooksOk(s) && t.books.(removes := s.books.removes) == s.books && t.tasks.Keys == s.tasks.Keys
    requires t.watch == s.watch || (s.watch.Removing? && t.watch.Boundary?)
    ensures BooksOk(t)
  {
    assert forall n: Token :: n in t.tasks <==> n in s.tasks.Keys;
    assert forall n: Token :: n < |s.books.spawned| ==> KeyOf(t, n) == KeyOf(s, n);
  }

  lemma BooksStepKept(s: State, a: Action)
    requires BooksOk(s) && Enabled(s, a) && OfBooks(a)
    ensures BooksOk(Do(s, a))
  {
    match a
    case AddKey(k) => AddKept(s, k);
    case DropToken(k) => DropTokenKept(s, k);
    case _ =>
  }

  lemma AddKept(s: State, k: SourceKey)
    requires BooksOk(s) && s.watch.Boundary?
    ensures BooksOk(Do(s, AddKey(k)))
  {
  }

  lemma DropTokenKept(s: State, k: SourceKey)
    requires BooksOk(s) && s.watch.Boundary?
    ensures BooksOk(Do(s, DropToken(k)))
  {
  }

  /** Cancelled tokens stay so, and keep their keys. */
  lemma CancelledStays(s: State, a: Action)
    requires Enabled(s, a)
    ensures s.books.spawned <= Do(s, a).books.spawned && s.books.cancelled <= Do(s, a).books.cancelled
    ensures s.root ==> Do(s, a).root
  {
  }

  lemma BooksStepKeepsPlaces(s: State, a: Action)
    requires Inv(s) && Enabled(s, a) && OfBooks(a)
    ensures PlacesOk(Do(s, a)) && RemovesOk(Do(s, a))
  {
    var next := Do(s, a);
    assert next.cmds == s.cmds && next.mux == s.mux && next.signalled == s.signalled && next.muxOpen == s.muxOpen;
    CancelledStays(s, a);
    forall t | t in next.tasks ensures PlaceOk(next, t) {
      if t in s.tasks { assert PlaceOk(s, t); }
    }
  }

  lemma TaskStepKeeps(s: State, a: Action)
    requires Inv(s) && Enabled(s, a) && OfTask(a)
    ensures PlacesOk(Do(s, a)) && RemovesOk(Do(s, a))
  {
    var next := Do(s, a);
    forall t | t in next.tasks ensures PlaceOk(next, t) { TaskStepKeepsPlace(s, a, t); }
  }

  lemma TaskStepKeepsPlace(s: State, a: Action, t: Token)
    requires Inv(s) && Enabled(s, a) && OfTask(a) && t in Do(s, a).tasks
    ensures PlaceOk(Do(s, a), t)
  {
    assert PlaceOk(s, t);
    assert Queued(Do(s, a), t) <==> Queued(s, t);
    assert InMux(Do(s, a), t) <==> InMux(s, t);
  }

  lemma SendRemoveKeeps(s: State)
    requires Inv(s) && s.watch.Removing?
    ensures PlacesOk(Do(s, SendRemove)) && RemovesOk(Do(s, SendRemove))
  {
    var next := Do(s, SendRemove);
    var k := s.watch.key;
    assert next.tasks == s.tasks && next.mux == s.mux && next.signalled == s.signalled;
    forall t | t in next.tasks ensures PlaceOk(next, t) {
      assert PlaceOk(s, t);
      QueuedAppend(s, next, Remove(k), t);
    }
    // No live token has the key any more.
    assert forall t: Token :: t < |s.books.spawned| && KeyOf(s, t) == k ==> Cancelled(s, t);
  }

  lemma QueuedAppend(s: State, next: State, cmd: Cmd, t: Token)
    requires next.cmds == s.cmds + [cmd] || next.cmds == s.cmds
    ensures Queued(next, t) <==> Queued(s, t) || (next.cmds != s.cmds && cmd == Add(cmd.key, t))
  {
    if next.cmds != s.cmds {
      assert next.cmds[|s.cmds|] == cmd;
      assert forall i :: 0 <= i < |s.cmds| ==> next.cmds[i] == s.cmds[i];
    }
  }

  lemma SendAddKeeps(s: State, t: Token)
    requires Inv(s) && Enabled(s, SendAdd(t))
    ensures PlacesOk(Do(s, SendAdd(t))) && RemovesOk(Do(s, SendAdd(t)))
  {
    var next := Do(s, SendAdd(t));
    assert next.mux == s.mux && next.signalled == s.signalled && next.books == s.books;
    forall u | u in next.tasks ensures PlaceOk(next, u) {
      assert PlaceOk(s, u);
      QueuedAppend(s, next, Add(KeyOf(s, t), t), u);
    }
    if s.muxOpen {
      forall i | 0 <= i < |s.cmds| && s.cmds[i].Add? ensures s.cmds[i].token != t {
        assert PlaceOk(s, t) && !Queued(s, t);
      }
      forall i | 0 <= i < |next.cmds| && next.cmds[i].Remove?
        ensures (next.cmds[i].key in next.mux ==> Cancelled(next, next.mux[next.cmds[i].key]))
        ensures forall j :: 0 <= j < i && next.cmds[j].Add? && next.cmds[j].key == next.cmds[i].key
                  ==> Cancelled(next, next.cmds[j].token)
      {
        assert s.cmds[i] == next.cmds[i];
      }
    }
  }

  /** The stream under a key leaves the mux, and its end is signalled. */
  lemma EvictKeepsPlace(s: State, k: SourceKey, t: Token)
    requires EntriesOk(s) && t in s.tasks && PlaceOk(s, t)
    requires forall u :: u in s.tasks ==> PlaceOk(s, u)
    ensures PlaceOk(Evict(s, k), t)
  {
    var next := Evict(s, k);
    assert next.cmds == s.cmds && next.tasks == s.tasks;
    assert Queued(next, t) <==> Queued(s, t);
    if k in s.mux {
      assert InMux(s, s.mux[k]);
      assert InMux(next, t) <==> InMux(s, t) && t != s.mux[k] by {
        if InMux(s, t) && t != s.mux[k] {
          var l :| l in s.mux && s.mux[l] == t;
          assert l in next.mux && next.mux[l] == t;
        }
      }
    }
  }

  lemma EvictKeeps(s: State, k: SourceKey)
    requires PlacesOk(s)
    requires k in s.mux ==> s.mux[k] in s.tasks
    ensures PlacesOk(Evict(s, k))
  {
    forall t | t in s.tasks ensures PlaceOk(Evict(s, k), t) { EvictKeepsPlace(s, k, t); }
  }

  /** Taking a remove off the queue. */
  lemma PopRemoveKeeps(s: State)
    requires Inv(s) && s.cmds != [] && s.cmds[0].Remove?
    ensures PlacesOk(s.(cmds := s.cmds[1..])) && RemovesOk(s.(cmds := s.cmds[1..]))
  {
    var next := s.(cmds := s.cmds[1..]);
    forall t | t in next.tasks ensures PlaceOk(next, t) {
      assert PlaceOk(s, t);
      QueuedPop(s, next, t);
    }
    PopKeepsRemoves(s, next);
  }

  lemma QueuedPop(s: State, next: State, t: Token)
    requires s.cmds != [] && next.cmds == s.cmds[1..]
    ensures Queued(s, t) <==> Queued(next, t) || s.cmds[0] == Add(s.cmds[0].key, t)
  {
    if Queued(s, t) {
      var i :| 0 <= i < |s.cmds| && s.cmds[i].Add? && s.cmds[i].token == t;
      assert i > 0 ==> next.cmds[i - 1] == s.cmds[i];
    }
    if Queued(next, t) {
      var i :| 0 <= i < |next.cmds| && next.cmds[i].Add? && next.cmds[i].token == t;
      assert s.cmds[i + 1] == next.cmds[i];
    }
  }

  lemma OnceQueued(s: State, next: State)
    requires EntriesOk(s) && s.cmds != [] && s.cmds[0].Add? && next.cmds == s.cmds[1..]
    ensures !Queued(next, s.cmds[0].token)
  {
    forall i | 0 <= i < |next.cmds| && next.cmds[i].Add? ensures next.cmds[i].token != s.cmds[0].token {
      assert s.cmds[i + 1] == next.cmds[i];
    }
  }

  lemma PopKeepsRemoves(s: State, next: State)
    requires RemovesOk(s) && s.cmds != [] && next == s.(cmds := s.cmds[1..])
    ensures RemovesOk(next)
  {
    forall i | 0 <= i < |next.cmds| && next.cmds[i].Remove?
      ensures next.cmds[i].key in next.mux ==> Cancelled(next, next.mux[next.cmds[i].key])
      ensures forall j :: 0 <= j < i && next.cmds[j].Add? && next.cmds[j].key == next.cmds[i].key
                ==> Cancelled(next, next.cmds[j].token)
    {
      assert s.cmds[i + 1] == next.cmds[i];
      assert forall j :: 0 <= j < i ==> s.cmds[j + 1] == next.cmds[j];
    }
  }

  lemma InsertKeeps(s: State)
    requires Inv(s) && s.muxOpen && s.cmds != [] && s.cmds[0].Add?
    ensures PlacesOk(Do(s, MuxCommand)) && RemovesOk(Do(s, MuxCommand))
  {
    var Add(k, n) := s.cmds[0];
    var popped := s.(cmds := s.cmds[1..]);
    var next := Insert(popped, k, n);
    forall t | t in next.tasks ensures PlaceOk(next, t) { InsertKeepsPlace(s, k, n, t); }
    InsertKeepsRemoves(s, k, n);
  }

  lemma InsertKeepsRemoves(s: State, k: SourceKey, n: Token)
    requires Inv(s) && s.muxOpen && s.cmds != [] && s.cmds[0] == Add(k, n)
    ensures RemovesOk(Insert(s.(cmds := s.cmds[1..]), k, n))
  {
    var popped := s.(cmds := s.cmds[1..]);
    var next := Insert(popped, k, n);
    PopKeepsRemoves(s, popped);
    forall i | 0 <= i < |next.cmds| && next.cmds[i].Remove? && next.cmds[i].key == k ensures Cancelled(s, n) {
      assert s.cmds[i + 1] == next.cmds[i];
    }
  }

  lemma InsertKeepsPlace(s: State, k: SourceKey, n: Token, t: Token)
    requires Inv(s) && s.muxOpen && s.cmds != [] && s.cmds[0] == Add(k, n) && t in s.tasks
    ensures PlaceOk(Insert(s.(cmds := s.cmds[1..]), k, n), t)
  {
    var popped := s.(cmds := s.cmds[1..]);
    assert Queued(s, n) && PlaceOk(s, n) && PlaceOk(s, t);
    OnceQueued(s, popped);
    QueuedPop(s, popped, t);
    assert Queued(Insert(popped, k, n), t) <==> Queued(popped, t);
    InsertMoves(s, k, n, t);
  }

  lemma InsertMoves(s: State, k: SourceKey, n: Token, t: Token)
    requires EntriesOk(s) && !InMux(s, n)
    ensures InMux(Insert(s, k, n), t) <==> t == n || (InMux(s, t) && !(k in s.mux && s.mux[k] == t))
  {
    var next := Insert(s, k, n);
    assert next.mux[k] == n;
    if InMux(s, t) && !(k in s.mux && s.mux[k] == t) {
      var l :| l in s.mux && s.mux[l] == t;
      assert l in next.mux && next.mux[l] == t;
    }
  }

  lemma StopKeeps(s: State)
    requires Inv(s) && s.muxOpen
    ensures PlacesOk(Do(s.(root := true), MuxStops)) && RemovesOk(Do(s.(root := true), MuxStops))
  {
    var next := Do(s.(root := true), MuxStops);
    forall t | t in next.tasks ensures PlaceOk(next, t) { StopKeepsPlace(s, next, t); }
  }

  lemma StopKeepsPlace(s: State, next: State, t: Token)
    requires PlacesOk(s) && t in s.tasks
    requires next == Do(s.(root := true, muxOpen := true), MuxStops)
    ensures PlaceOk(next, t)
  {
    assert PlaceOk(s, t);
    assert t in next.signalled <==> t in s.signalled || Queued(s, t) || InMux(s, t) by {
      if Queued(s, t) {
        var i :| 0 <= i < |s.cmds| && s.cmds[i].Add? && s.cmds[i].token == t;
        assert s.cmds[i] in s.cmds;
      }
    }
  }

  lemma StepKeeps(s: State, a: Action)
    requires Inv(s) && Enabled(s, a)
    ensures Inv(Do(s, a))
  {
    BooksKept(s, a);
    match a
    case SendRemove => SendRemoveKeeps(s);
    case SendAdd(t) => SendAddKeeps(s, t);
    case MuxCommand => CommandKeeps(s);
    case StreamEnds(k) => EndKeeps(s, k);
    case MuxStops =>
      assert s.(root := true) == s;
      StopKeeps(s);
    case _ => if OfBooks(a) { BooksStepKeepsPlaces(s, a); } else { TaskStepKeeps(s, a); }
  }

  lemma EndKeeps(s: State, k: SourceKey)
    requires Inv(s) && s.muxOpen && k in s.mux
    ensures PlacesOk(Do(s, StreamEnds(k))) && RemovesOk(Do(s, StreamEnds(k)))
  {
    EvictKeeps(s, k);
    assert Evict(s, k).cmds == s.cmds && Evict(s, k).books == s.books;
  }

  lemma CommandKeeps(s: State)
    requires Inv(s) && s.muxOpen && s.cmds != []
    ensures PlacesOk(Do(s, MuxCommand)) && RemovesOk(Do(s, MuxCommand))
  {
    if s.cmds[0].Add? {
      InsertKeeps(s);
    } else {
      PopRemoveKeeps(s);
      var popped := s.(cmds := s.cmds[1..]);
      EvictKeeps(popped, s.cmds[0].key);
      assert Do(s, MuxCommand) == Evict(popped, s.cmds[0].key);
    }
  }

  lemma {:induction false} RunKeeps(s: State, actions: seq<Action>)
    requires Inv(s) && IsRun(s, actions)
    ensures Inv(After(s, actions))
    decreases |actions|
  {
    if actions != [] {
      StepKeeps(s, actions[0]);
      RunKeeps(Do(s, actions[0]), actions[1..]);
    }
  }

  // ---- Results ----

  predicate Live(s: State, t: Token) {
    t in s.tasks && !Cancelled(s, t)
  }

  /** Every token that is not cancelled is the one its own registered key holds; so a key has at most one, and so has
      every stream in the mux and every add on the way there. */
  ghost predicate NoOrphan(s: State) {
    && s.books.tokens.Keys <= s.books.active
    && (s.watch.Boundary? ==> s.books.tokens.Keys == s.books.active)
    && (forall t: Token :: Live(s, t) ==>
          && t < |s.books.spawned|
          && KeyOf(s, t) in s.books.active
          && KeyOf(s, t) in s.books.tokens && s.books.tokens[KeyOf(s, t)] == t)
    && (forall k :: k in s.mux && Live(s, s.mux[k]) ==> k in s.books.tokens && s.books.tokens[k] == s.mux[k])
    && (forall i :: 0 <= i < |s.cmds| && s.cmds[i].Add? && Live(s, s.cmds[i].token) ==>
          s.cmds[i].key in s.books.tokens && s.books.tokens[s.cmds[i].key] == s.cmds[i].token)
  }

  lemma NoOrphanLiveStream(actions: seq<Action>)
    requires IsRun(START, actions)
    ensures NoOrphan(After(START, actions))
  {
    RunKeeps(START, actions);
  }

  /** The stream an attach task waits for is never lost: it is queued, in the mux, or its end is signalled. */
  lemma AwaitedStreamIsSomewhere(actions: seq<Action>, t: Token)
    requires IsRun(START, actions) && At(After(START, actions), t, Awaiting)
    ensures var s := After(START, actions);
            && (Queued(s, t) || InMux(s, t) || t in s.signalled)
            && !(Queued(s, t) && InMux(s, t)) && !(Queued(s, t) && t in s.signalled)
            && !(InMux(s, t) && t in s.signalled)
  {
    RunKeeps(START, actions);
    assert PlaceOk(After(START, actions), t);
  }

  /** A live stream leaves the mux only when it ends by itself, or when the late add of a task that is cancelled
      replaces it. In particular no remove does it. */
  lemma LiveStreamStays(actions: seq<Action>, k: SourceKey, a: Action)
    requires IsRun(START, actions) && Enabled(After(START, actions), a)
    requires k in After(START, actions).mux && Live(After(START, actions), After(START, actions).mux[k])
    ensures var s := After(START, actions);
            (k !in Do(s, a).mux || Do(s, a).mux[k] != s.mux[k])
            <==> a == StreamEnds(k) || (a == MuxCommand && exists t :: s.cmds[0] == Add(k, t) && Cancelled(s, t))
  {
    RunKeeps(START, actions);
    LiveStreamLeaves(After(START, actions), k, a);
  }

  lemma LiveStreamLeaves(s: State, k: SourceKey, a: Action)
    requires Inv(s) && Enabled(s, a) && k in s.mux && Live(s, s.mux[k])
    ensures (k !in Do(s, a).mux || Do(s, a).mux[k] != s.mux[k])
            <==> a == StreamEnds(k) || (a == MuxCommand && exists t :: s.cmds[0] == Add(k, t) && Cancelled(s, t))
  {
    if a.MuxCommand? && s.cmds[0].Add? && s.cmds[0].key == k {
      var n := s.cmds[0].token;
      assert Queued(s, n) && InMux(s, s.mux[k]) && PlaceOk(s, n);
      assert n != s.mux[k] && Cancelled(s, n);
    }
  }

  ghost predicate CanReach(s: State, t: State) {
    exists actions :: IsRun(s, actions) && After(s, actions) == t
  }

  lemma Here(s: State)
    ensures CanReach(s, s)
  {
    assert IsRun(s, []) && After(s, []) == s;
  }

  lemma StepFirst(s: State, a: Action, t: State)
    requires Enabled(s, a) && CanReach(Do(s, a), t)
    ensures CanReach(s, t)
  {
    var rest :| IsRun(Do(s, a), rest) && After(Do(s, a), rest) == t;
    assert ([a] + rest)[1..] == rest;
    assert IsRun(s, [a] + rest) && After(s, [a] + rest) == t;
  }

  /** Such a replacement does happen: a pod's container goes and comes back while its first request is still being
      opened. The registered key then has no stream in the mux but that of the cancelled task. */
  lemma LateAddReplacesLiveStream(k: SourceKey)
    ensures exists s :: CanReach(START, s) && k in s.books.tokens && Live(s, s.books.tokens[k])
              && k in s.mux && Cancelled(s, s.mux[k]) && s.books.tokens[k] in s.signalled
  {
    var s1 := Do(START, AddKey(k));
    var s2 := Do(s1, Open(0));
    var s3 := Do(s2, DropToken(k));
    var s4 := Do(s3, Forget);
    var s5 := Do(s4, Unlist);
    var s6 := Do(s5, SendRemove);
    var s7 := Do(s6, AddKey(k));
    assert s7.tasks == map[0 := Opening, 1 := Starting] && s7.books.spawned == [(k, 0), (k, 1)];
    assert s7.books.tokens == map[k := 1] && s7.books.cancelled == {0} && s7.cmds == [Remove(k)] && s7.mux == map[];
    LateAdd(k, s7);
    var s :| CanReach(s7, s) && k in s.books.tokens && Live(s, s.books.tokens[k])
             && k in s.mux && Cancelled(s, s.mux[k]) && s.books.tokens[k] in s.signalled;
    StepFirst(s6, AddKey(k), s);
    StepFirst(s5, SendRemove, s);
    StepFirst(s4, Unlist, s);
    StepFirst(s3, Forget, s);
    StepFirst(s2, DropToken(k), s);
    StepFirst(s1, Open(0), s);
    StepFirst(START, AddKey(k), s);
  }

  lemma LateAdd(k: SourceKey, s: State)
    requires s.tasks == map[0 := Opening, 1 := Starting] && s.books.spawned == [(k, 0), (k, 1)] && !s.root && s.muxOpen
    requires s.books.tokens == map[k := 1] && s.books.cancelled == {0} && s.cmds == [Remove(k)] && s.mux == map[]
    ensures exists t :: CanReach(s, t) && k in t.books.tokens && Live(t, t.books.tokens[k])
              && k in t.mux && Cancelled(t, t.mux[k]) && t.books.tokens[k] in t.signalled
  {
    var s1 := Do(s, MuxCommand);
    var s2 := Do(s1, Open(1));
    assert s2.mux == map[] && s2.cmds == [] && s2.tasks == map[0 := Opening, 1 := Opening];
    FirstAdd(k, s2);
    var t :| CanReach(s2, t) && k in t.books.tokens && Live(t, t.books.tokens[k])
             && k in t.mux && Cancelled(t, t.mux[k]) && t.books.tokens[k] in t.signalled;
    StepFirst(s1, Open(1), t);
    StepFirst(s, MuxCommand, t);
  }

  lemma FirstAdd(k: SourceKey, s: State)
    requires s.tasks == map[0 := Opening, 1 := Opening] && s.books.spawned == [(k, 0), (k, 1)] && !s.root && s.muxOpen
    requires s.books.tokens == map[k := 1] && s.books.cancelled == {0} && s.cmds == [] && s.mux == map[]
    ensures exists t :: CanReach(s, t) && k in t.books.tokens && Live(t, t.books.tokens[k])
              && k in t.mux && Cancelled(t, t.mux[k]) && t.books.tokens[k] in t.signalled
  {
    var s3 := Do(s, OpenOk(1));
    var s4 := Do(s3, SendAdd(1));
    var s5 := Do(s4, MuxCommand);
    assert s5.mux == map[k := 1] && s5.cmds == [] && s5.tasks == map[0 := Opening, 1 := Awaiting];
    SecondAdd(k, s5);
    var t :| CanReach(s5, t) && k in t.books.tokens && Live(t, t.books.tokens[k])
             && k in t.mux && Cancelled(t, t.mux[k]) && t.books.tokens[k] in t.signalled;
    StepFirst(s4, MuxCommand, t);
    StepFirst(s3, SendAdd(1), t);
    StepFirst(s, OpenOk(1), t);
  }

  lemma SecondAdd(k: SourceKey, s: State)
    requires s.tasks == map[0 := Opening, 1 := Awaiting] && s.books.spawned == [(k, 0), (k, 1)] && !s.root && s.muxOpen
    requires s.books.tokens == map[k := 1] && s.books.cancelled == {0} && s.cmds == [] && s.mux == map[k := 1]
    ensures exists t :: CanReach(s, t) && k in t.books.tokens && Live(t, t.books.tokens[k])
              && k in t.mux && Cancelled(t, t.mux[k]) && t.books.tokens[k] in t.signalled
  {
    var s6 := Do(s, OpenOk(0));
    var s7 := Do(s6, SendAdd(0));
    var s8 := Do(s7, MuxCommand);
    Here(s8);
    StepFirst(s7, MuxCommand, s8);
    StepFirst(s6, SendAdd(0), s8);
    StepFirst(s, OpenOk(0), s8);
  }
}
