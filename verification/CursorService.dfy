/**
 The stream wrapper that reports cursor advances and the end of a pod log stream, and the wait before a reopen.
 */
module CursorService {
  import opened Wrappers
  import opened Source

  const CURSOR_FLUSH_RETRIES: nat := 16

  datatype CursorUpdate = CursorUpdate(key: SourceKey, timestamp: int)
  datatype StreamEnd = Eof(lastLineTs: Option<int>) | Cancelled
  datatype Item = Line(timestamp: int) | Failed(error: string)
  datatype Poll = Ready(item: Item) | Finished | Pending

  /** The unbounded channel to the processor task. */
  class UpdateQueue {
    var updates: seq<CursorUpdate>
    constructor () ensures updates == [] { updates := []; }
  }

  /** The i-th item is a line, and none after it is. */
  predicate LastLineAt(items: seq<Item>, i: int) {
    && 0 <= i < |items| && items[i].Line?
    && forall j :: i < j < |items| ==> !items[j].Line?
  }

  /** `stamp` is that of the last line, or none when there is no line. */
  ghost predicate LastLineStamp(items: seq<Item>, stamp: Option<int>) {
    match stamp
    case None => forall i :: 0 <= i < |items| ==> !items[i].Line?
    case Some(t) => exists i :: LastLineAt(items, i) && items[i].timestamp == t
  }

  lemma LastLineGrows(items: seq<Item>, stamp: Option<int>, item: Item)
    requires LastLineStamp(items, stamp)
    ensures LastLineStamp(items + [item], if item.Line? then Some(item.timestamp) else stamp)
  {
    var longer := items + [item];
    if item.Line? {
      assert LastLineAt(longer, |items|);
    } else if stamp.Some? {
      var i :| LastLineAt(items, i) && items[i].timestamp == stamp.value;
      assert LastLineAt(longer, i);
    }
  }

  function UpdatesFor(key: SourceKey, items: seq<Item>): seq<CursorUpdate> {
    if items == [] then []
    else
      var before := UpdatesFor(key, items[..|items| - 1]);
      if items[|items| - 1].Line? then before + [CursorUpdate(key, items[|items| - 1].timestamp)] else before
  }

  /** A tracked stream. With `enabled` unset only the end is reported, without a stamp. */
  class TrackedStream {
    const key: SourceKey
    const enabled: bool
    const cursorTx: UpdateQueue
    var inner: seq<Item>             // what the wrapped stream still has to give
    var lastLineTs: Option<int>
    var doneTx: bool                 // the end has not been signalled yet
    var signals: seq<StreamEnd>      // what the attach task's receiver has been sent
    ghost var seen: seq<Item>

    ghost predicate Valid()
      reads this
    {
      && (if enabled then LastLineStamp(seen, lastLineTs) else lastLineTs == None)
      && |signals| == (if doneTx then 0 else 1)
    }

    constructor (key: SourceKey, enabled: bool, cursorTx: UpdateQueue, inner: seq<Item>)
      ensures Valid() && doneTx && seen == []
      ensures this.key == key && this.enabled == enabled && this.cursorTx == cursorTx && this.inner == inner
    {
      this.key, this.enabled, this.cursorTx, this.inner := key, enabled, cursorTx, inner;
      lastLineTs, doneTx, signals, seen := None, true, [], [];
    }

    /** The end reported for a stream that stops now. */
    function EndReason(cancelled: bool): StreamEnd
      reads this
    {
      if cancelled then Cancelled else Eof(lastLineTs)
    }

    method Finish(reason: StreamEnd)
      requires Valid()
      modifies this`doneTx, this`signals
      ensures Valid() && !doneTx
      ensures signals == if old(doneTx) then [reason] else old(signals)
    {
      if doneTx {
        doneTx := false;
        signals := signals + [reason];
      }
    }

    /** `awake` says whether the wrapped stream is ready, `cancelled` whether the stream's token is. */
    method PollNext(awake: bool, cancelled: bool) returns (poll: Poll)
      requires Valid()
      modifies this, cursorTx
      ensures Valid()
      ensures !awake ==> poll == Pending && unchanged(this) && unchanged(cursorTx)
      ensures awake && old(inner) == [] ==>
                poll == Finished && unchanged(cursorTx) && seen == old(seen) && inner == []
                && lastLineTs == old(lastLineTs)
                && signals == if old(doneTx) then [old(EndReason(cancelled))] else old(signals)
      ensures awake && old(inner) != [] ==>
                poll == Ready(old(inner)[0]) && inner == old(inner)[1..] && seen == old(seen) + [old(inner)[0]]
                && signals == old(signals)
      ensures awake && old(inner) != [] ==>
                if enabled && old(inner)[0].Line? then
                  && lastLineTs == Some(old(inner)[0].timestamp)
                  && cursorTx.updates == old(cursorTx.updates) + [CursorUpdate(key, old(inner)[0].timestamp)]
                else lastLineTs == old(lastLineTs) && unchanged(cursorTx)
    {
      if !awake { return Pending; }
      if inner == [] {
        Finish(EndReason(cancelled));
        return Finished;
      }
      var item := inner[0];
      inner := inner[1..];
      if enabled { LastLineGrows(seen, lastLineTs, item); }
      seen := seen + [item];
      if enabled && item.Line? {
        lastLineTs := Some(item.timestamp);
        cursorTx.updates := cursorTx.updates + [CursorUpdate(key, item.timestamp)];
      }
      return Ready(item);
    }

    method Drop(cancelled: bool)
      requires Valid()
      modifies this`doneTx, this`signals
      ensures Valid() && !doneTx
      ensures signals == if old(doneTx) then [old(EndReason(cancelled))] else old(signals)
    {
      Finish(EndReason(cancelled));
    }
  }

  /** A poll finds the wrapped stream ready or not, and the stream's token cancelled or not. */
  datatype Turn = Turn(awake: bool, cancelled: bool)

  /** Whether the token is cancelled when the end is noticed: by the poll that finds nothing more after `lines`
      items, or else by the drop. */
  predicate CancelledAtEnd(schedule: seq<Turn>, lines: nat, atDrop: bool) {
    if schedule == [] then atDrop
    else if !schedule[0].awake then CancelledAtEnd(schedule[1..], lines, atDrop)
    else if lines == 0 then schedule[0].cancelled
    else CancelledAtEnd(schedule[1..], lines - 1, atDrop)
  }

  function AwakeTurns(schedule: seq<Turn>): nat {
    if schedule == [] then 0 else (if schedule[0].awake then 1 else 0) + AwakeTurns(schedule[1..])
  }

  /** The end is noticed by the first poll that finds the stream ready after all its items, and by the drop when there
      is no such poll. */
  lemma {:induction false} CancelledWhenNoticed(schedule: seq<Turn>, lines: nat, atDrop: bool)
    ensures forall i :: 0 <= i < |schedule| && schedule[i].awake && AwakeTurns(schedule[..i]) == lines ==>
              CancelledAtEnd(schedule, lines, atDrop) == schedule[i].cancelled
    ensures AwakeTurns(schedule) <= lines ==> CancelledAtEnd(schedule, lines, atDrop) == atDrop
    decreases |schedule|
  {
    if schedule != [] {
      var rest := schedule[1..];
      if !schedule[0].awake { CancelledWhenNoticed(rest, lines, atDrop); }
      else if lines > 0 { CancelledWhenNoticed(rest, lines - 1, atDrop); }
      forall i | 0 < i < |schedule|
        ensures AwakeTurns(schedule[..i]) == (if schedule[0].awake then 1 else 0) + AwakeTurns(rest[..i - 1])
      {
        assert schedule[..i][1..] == rest[..i - 1];
      }
      forall i | 0 <= i < |schedule| && schedule[i].awake && AwakeTurns(schedule[..i]) == lines
        ensures CancelledAtEnd(schedule, lines, atDrop) == schedule[i].cancelled
      {
        if i > 0 { assert rest[i - 1] == schedule[i]; }
      }
    }
  }

  /** Whatever the schedule of polls, and whenever the token is cancelled, a stream that is polled and then dropped
      signals its end exactly once, with the stamp of the last line it gave if cursors are tracked, and as cancelled
      if the token was when the end was noticed; the lines it gave are a prefix of the wrapped stream. */
  method PollThenDrop(s: TrackedStream, schedule: seq<Turn>, atDrop: bool)
    requires s.Valid() && s.doneTx && s.seen == []
    modifies s, s.cursorTx
    ensures s.signals == [if CancelledAtEnd(schedule, |old(s.inner)|, atDrop) then Cancelled else Eof(s.lastLineTs)]
    ensures if s.enabled then LastLineStamp(s.seen, s.lastLineTs) else s.lastLineTs == None
    ensures s.seen + s.inner == old(s.inner)
    ensures s.cursorTx.updates == old(s.cursorTx.updates) + if s.enabled then UpdatesFor(s.key, s.seen) else []
  {
    ghost var cancelled := CancelledAtEnd(schedule, |s.inner|, atDrop);
    for i := 0 to |schedule|
      invariant s.Valid() && s.seen + s.inner == old(s.inner)
      invariant s.doneTx ==> CancelledAtEnd(schedule[i..], |s.inner|, atDrop) == cancelled
      invariant !s.doneTx ==> s.inner == [] && s.signals == [if cancelled then Cancelled else Eof(s.lastLineTs)]
      invariant s.cursorTx.updates == old(s.cursorTx.updates) + if s.enabled then UpdatesFor(s.key, s.seen) else []
    {
      ghost var seen, inner := s.seen, s.inner;
      assert schedule[i..][0] == schedule[i] && schedule[i..][1..] == schedule[i + 1..];
      var poll := s.PollNext(schedule[i].awake, schedule[i].cancelled);
      if poll.Ready? {
        assert s.seen[..|s.seen| - 1] == seen && seen + inner == seen + [inner[0]] + inner[1..];
      }
    }
    assert schedule[|schedule|..] == [];
    s.Drop(atDrop);
  }

  /** `answers[i]` is what the store answers to the i-th read; other tasks write to it in between. */
  method WaitCursorFlushed(answers: seq<Option<int>>, expected: Option<int>) returns (confirmed: bool, gets: nat)
    requires CURSOR_FLUSH_RETRIES <= |answers|
    ensures expected == None ==> gets == 0 && !confirmed
    ensures expected.Some? ==>
              && gets <= CURSOR_FLUSH_RETRIES
              && (if confirmed then
                    gets > 0 && answers[gets - 1].Some? && expected.value <= answers[gets - 1].value
                  else gets == CURSOR_FLUSH_RETRIES)
              && (forall i :: 0 <= i < gets - (if confirmed then 1 else 0) ==>
                    answers[i].None? || answers[i].value < expected.value)
  {
    gets := 0;
    if expected.None? { return false, gets; }
    while gets < CURSOR_FLUSH_RETRIES
      invariant gets <= CURSOR_FLUSH_RETRIES
      invariant forall i :: 0 <= i < gets ==> answers[i].None? || answers[i].value < expected.value
    {
      var got := answers[gets];
      gets := gets + 1;
      if got.Some? && expected.value <= got.value { return true, gets; }
    }
    confirmed := false;
  }

  // ---- The processor task ----

  type Store = map<SourceKey, int>

  /** The store after the processor has applied `updates` in order. */
  function ApplyUpdates(store: Store, updates: seq<CursorUpdate>): Store
    decreases |updates|
  {
    if updates == [] then store
    else ApplyUpdates(store[updates[0].key := updates[0].timestamp], updates[1..])
  }

  predicate AtLeast(store: Store, key: SourceKey, target: int) {
    key in store && target <= store[key]
  }

  /** The last update of a key wins, however it compares with earlier ones. */
  lemma {:induction false} LastUpdateWins(store: Store, updates: seq<CursorUpdate>, key: SourceKey, i: nat)
    requires i < |updates| && updates[i].key == key
    requires forall j :: i < j < |updates| ==> updates[j].key != key
    ensures key in ApplyUpdates(store, updates) && ApplyUpdates(store, updates)[key] == updates[i].timestamp
    decreases |updates|
  {
    var next := store[updates[0].key := updates[0].timestamp];
    if i == 0 {
      KeyUntouched(next, updates[1..], key);
    } else {
      LastUpdateWins(next, updates[1..], key, i - 1);
    }
  }

  lemma {:induction false} KeyUntouched(store: Store, updates: seq<CursorUpdate>, key: SourceKey)
    requires forall u :: u in updates ==> u.key != key
    ensures key in ApplyUpdates(store, updates) <==> key in store
    ensures key in store ==> ApplyUpdates(store, updates)[key] == store[key]
    decreases |updates|
  {
    if updates != [] {
      assert updates[0] in updates;
      KeyUntouched(store[updates[0].key := updates[0].timestamp], updates[1..], key);
    }
  }

  /** Between the read that confirms the flush and the read the request is built from, the processor may step.
      The second read stays at or above the confirmed stamp in every schedule exactly when no pending update of the
      key lies below it. */
  lemma {:induction false} SecondReadKeepsTarget(store: Store, pending: seq<CursorUpdate>, key: SourceKey, target: int)
    requires AtLeast(store, key, target)
    ensures (forall n: nat :: n <= |pending| ==> AtLeast(ApplyUpdates(store, pending[..n]), key, target))
            <==> (forall u :: u in pending && u.key == key ==> target <= u.timestamp)
  {
    if exists i: nat :: i < |pending| && pending[i].key == key && pending[i].timestamp < target {
      var i: nat :| i < |pending| && pending[i].key == key && pending[i].timestamp < target;
      LastUpdateWins(store, pending[..i + 1], key, i);
    } else {
      forall n: nat | n <= |pending|
        ensures AtLeast(ApplyUpdates(store, pending[..n]), key, target)
      {
        UpdatesStayAbove(store, pending[..n], key, target);
      }
    }
  }

  lemma {:induction false} UpdatesStayAbove(store: Store, updates: seq<CursorUpdate>, key: SourceKey, target: int)
    requires AtLeast(store, key, target)
    requires forall u :: u in updates && u.key == key ==> target <= u.timestamp
    ensures AtLeast(ApplyUpdates(store, updates), key, target)
    decreases |updates|
  {
    if updates != [] {
      assert updates[0] in updates;
      UpdatesStayAbove(store[updates[0].key := updates[0].timestamp], updates[1..], key, target);
    }
  }
}
