/**
 The loops of the mux task and of the forward task, each run against a script of what its selects and channels answer,
 with the counters they keep.
 */
module MuxForward {
  import opened Wrappers
  import opened Source
  import opened Pipeline
  import D = Dataflow

  datatype RunStatsSnapshot = RunStatsSnapshot(
    activeStreams: nat, forwardedLines: nat, droppedLines: nat, muxDroppedLines: nat)

  class RunStats {
    var activeStreams: nat
    var forwardedLines: nat
    var droppedLines: nat
    var muxDroppedLines: nat
    var sourceErrors: nat

    constructor ()
      ensures activeStreams == forwardedLines == droppedLines == muxDroppedLines == sourceErrors == 0
    {
      activeStreams, forwardedLines, droppedLines, muxDroppedLines, sourceErrors := 0, 0, 0, 0, 0;
    }

    /** The line counters start a new window; the gauge and the errors stay. */
    method SnapshotAndReset() returns (snapshot: RunStatsSnapshot)
      modifies this
      ensures snapshot == old(RunStatsSnapshot(activeStreams, forwardedLines, droppedLines, muxDroppedLines))
      ensures forwardedLines == droppedLines == muxDroppedLines == 0
      ensures activeStreams == old(activeStreams) && sourceErrors == old(sourceErrors)
    {
      snapshot := RunStatsSnapshot(activeStreams, forwardedLines, droppedLines, muxDroppedLines);
      forwardedLines, droppedLines, muxDroppedLines := 0, 0, 0;
    }
  }

  /** What comes of putting an item on a bounded channel. `Gone`: nobody receives any more, or the token was cancelled
      while a blocking send waited. */
  datatype Answer = Sent | Full | Gone
  datatype Offer<T> = Offer(item: T, answer: Answer)

  /** A blocking send waits until there is room. */
  predicate Passes(answer: Answer, lossy: bool) {
    answer == Sent || (answer == Full && !lossy)
  }

  function Items<T>(offers: seq<Offer<T>>): seq<T>
    decreases |offers|
  {
    if offers == [] then [] else Items(offers[..|offers| - 1]) + [offers[|offers| - 1].item]
  }

  function SentItems<T>(offers: seq<Offer<T>>, lossy: bool): seq<T>
    decreases |offers|
  {
    if offers == [] then []
    else
      var before, last := SentItems(offers[..|offers| - 1], lossy), offers[|offers| - 1];
      if Passes(last.answer, lossy) then before + [last.item] else before
  }

  function Drops<T>(offers: seq<Offer<T>>, lossy: bool): nat
    decreases |offers|
  {
    if offers == [] then 0
    else Drops(offers[..|offers| - 1], lossy) + (if lossy && offers[|offers| - 1].answer == Full then 1 else 0)
  }

  /** The item a loop still had in hand when it ended. */
  function InHand<T>(offers: seq<Offer<T>>): seq<T> {
    if offers != [] && offers[|offers| - 1].answer == Gone then [offers[|offers| - 1].item] else []
  }

  /** No item is lost uncounted but the one in hand when the loop ends, items stay in order, and a loop with blocking
      sends drops nothing. */
  lemma {:induction false} OffersAreATier<T>(offers: seq<Offer<T>>, lossy: bool)
    requires forall j :: 0 <= j < |offers| - 1 ==> offers[j].answer != Gone
    ensures D.Tier(SentItems(offers, lossy) + InHand(offers), Items(offers), Drops(offers, lossy), lossy)
    decreases |offers|
  {
    if offers != [] {
      var before := offers[..|offers| - 1];
      OffersAreATier(before, lossy);
      assert SentItems(before, lossy) + InHand(before) == SentItems(before, lossy);
      D.TierGrows(SentItems(before, lossy), Items(before), Drops(before, lossy), lossy, offers[|offers| - 1].item);
      assert SentItems(offers, lossy) + [] == SentItems(offers, lossy);
    }
  }

  // ---- The mux task ----

  datatype MuxCmd = Add(key: SourceKey) | Remove(key: SourceKey)

  /** What the select of the mux loop comes up with. */
  datatype Turn =
    | TokenCancelled
    | Command(cmd: Option<MuxCmd>)                       // none: all senders are gone
    | StreamItem(key: SourceKey, row: Row, answer: Answer)
    | StreamEnds(key: SourceKey)

  predicate EndsMux(turn: Turn) {
    match turn
    case TokenCancelled => true
    case Command(cmd) => cmd.None?
    case StreamItem(_, _, answer) => answer == Gone
    case StreamEnds(_) => false
  }

  function RowOffers(turns: seq<Turn>): seq<Offer<Row>>
    decreases |turns|
  {
    if turns == [] then []
    else
      var before, last := RowOffers(turns[..|turns| - 1]), turns[|turns| - 1];
      if last.StreamItem? then before + [Offer(last.row, last.answer)] else before
  }

  /** The keys in the stream map after one more turn. */
  function KeysThen(keys: set<SourceKey>, turn: Turn): set<SourceKey> {
    match turn
    case Command(Some(Add(k))) => keys + {k}
    case Command(Some(Remove(k))) => keys - {k}
    case StreamEnds(k) => keys - {k}
    case _ => keys
  }

  /** The gauge of active streams is set by commands alone. */
  function GaugeThen(keys: set<SourceKey>, gauge: nat, turn: Turn): nat {
    match turn
    case Command(Some(Add(_))) => |KeysThen(keys, turn)|
    case Command(Some(Remove(k))) => if k in keys then |KeysThen(keys, turn)| else gauge
    case _ => gauge
  }

  function Keys(turns: seq<Turn>): set<SourceKey>
    decreases |turns|
  {
    if turns == [] then {} else KeysThen(Keys(turns[..|turns| - 1]), turns[|turns| - 1])
  }

  function Gauge(turns: seq<Turn>): nat
    decreases |turns|
  {
    if turns == [] then 0
    else
      var before := turns[..|turns| - 1];
      GaugeThen(Keys(before), Gauge(before), turns[|turns| - 1])
  }

  /** The gauge may count streams that have ended by themselves, and never counts too few. */
  lemma {:induction false} GaugeIsNeverLow(turns: seq<Turn>)
    ensures |Keys(turns)| <= Gauge(turns)
    ensures (forall t :: t in turns ==> !t.StreamEnds?) ==> |Keys(turns)| == Gauge(turns)
    decreases |turns|
  {
    if turns != [] {
      var before := turns[..|turns| - 1];
      GaugeIsNeverLow(before);
      match turns[|turns| - 1]
      case Command(Some(Remove(k))) => assert k !in Keys(before) ==> Keys(before) - {k} == Keys(before);
      case StreamEnds(k) =>
        Smaller(Keys(before) - {k}, Keys(before));
        assert turns[|turns| - 1] in turns;
      case _ =>
    }
  }

  /** The map holds the keys whose last add was not followed by a remove or by the stream's end. */
  lemma {:induction false} KeysAre(turns: seq<Turn>, k: SourceKey)
    ensures k in Keys(turns) <==> exists i :: LastAdd(turns, i, k)
    decreases |turns|
  {
    if turns != [] {
      var n := |turns| - 1;
      var before, last := turns[..n], turns[n];
      KeysAre(before, k);
      if last == Command(Some(Add(k))) {
        assert LastAdd(turns, n, k);
      } else {
        forall i | 0 <= i < n ensures LastAdd(turns, i, k) <==> LastAdd(before, i, k) && !TakesOut(last, k) {
          assert before[i] == turns[i];
          forall j | i < j < n ensures before[j] == turns[j] {}
        }
        if k in Keys(before) && !TakesOut(last, k) {
          var i :| LastAdd(before, i, k);
          assert LastAdd(turns, i, k);
        }
      }
    }
  }

  predicate TakesOut(turn: Turn, k: SourceKey) {
    turn == Command(Some(Remove(k))) || turn == StreamEnds(k)
  }

  predicate LastAdd(turns: seq<Turn>, i: int, k: SourceKey) {
    && 0 <= i < |turns| && turns[i] == Command(Some(Add(k)))
    && forall j :: i < j < |turns| ==> !TakesOut(turns[j], k)
  }

  /** An add, or a remove that finds its key. */
  predicate Changes(keys: set<SourceKey>, turn: Turn) {
    match turn
    case Command(Some(Add(_))) => true
    case Command(Some(Remove(k))) => k in keys
    case _ => false
  }

  predicate Unchanging(turns: seq<Turn>, from: nat)
    requires from <= |turns|
  {
    forall j :: from <= j < |turns| ==> !Changes(Keys(turns[..j]), turns[j])
  }

  /** The gauge is the size the map had after the last command that changed it; ends of streams are not seen. */
  lemma {:induction false} GaugeIsOfLastCommand(turns: seq<Turn>, n: nat)
    requires n <= |turns| && Unchanging(turns, n)
    requires n > 0 ==> Changes(Keys(turns[..n - 1]), turns[n - 1])
    ensures Gauge(turns) == if n == 0 then 0 else |Keys(turns[..n])|
    decreases |turns|
  {
    if n == |turns| {
      assert turns[..n] == turns;
    } else {
      var before := turns[..|turns| - 1];
      UnchangingBefore(turns, n);
      assert before[..n] == turns[..n] && (n > 0 ==> before[..n - 1] == turns[..n - 1]);
      GaugeIsOfLastCommand(before, n);
      assert !Changes(Keys(turns[..|turns| - 1]), turns[|turns| - 1]);
    }
  }

  lemma UnchangingBefore(turns: seq<Turn>, n: nat)
    requires n < |turns| && Unchanging(turns, n)
    ensures Unchanging(turns[..|turns| - 1], n)
  {
    var before := turns[..|turns| - 1];
    forall j | n <= j < |before| ensures !Changes(Keys(before[..j]), before[j]) {
      assert before[..j] == turns[..j];
    }
  }

  /** Every row a stream gives is offered, an error like any other; nothing else is. */
  lemma RowsOffered(turns: seq<Turn>, k: SourceKey, row: Row, answer: Answer, cmd: Option<MuxCmd>)
    ensures RowOffers([]) == []
    ensures RowOffers(turns + [StreamItem(k, row, answer)]) == RowOffers(turns) + [Offer(row, answer)]
    ensures RowOffers(turns + [Command(cmd)]) == RowOffers(turns)
    ensures RowOffers(turns + [StreamEnds(k)]) == RowOffers(turns)
    ensures RowOffers(turns + [TokenCancelled]) == RowOffers(turns)
  {
    assert forall turn :: (turns + [turn])[..|turns|] == turns;
  }

  lemma {:induction false} Smaller<T>(a: set<T>, b: set<T>)
    requires a <= b
    ensures |a| <= |b|
    decreases a
  {
    if a != {} {
      var x :| x in a;
      Smaller(a - {x}, b - {x});
    }
  }

  /** `used` turns are taken, up to and with the first that ends the loop. */
  ghost predicate Took<T(!new)>(script: seq<T>, used: nat, stopped: bool, ends: T -> bool) {
    && used <= |script|
    && (forall j :: 0 <= j < used ==> (ends(script[j]) <==> stopped && j == used - 1))
    && (if stopped then used > 0 else used == |script|)
  }

  lemma {:induction false} RowsGoOn(turns: seq<Turn>)
    requires forall t :: t in turns ==> !EndsMux(t)
    ensures forall j :: 0 <= j < |RowOffers(turns)| ==> RowOffers(turns)[j].answer != Gone
    decreases |turns|
  {
    if turns != [] {
      RowsGoOn(turns[..|turns| - 1]);
      assert turns[|turns| - 1] in turns;
    }
  }

  /** So the mux loop is one tier of the flow, whenever and however it ends. */
  lemma MuxLoopIsATier(turns: seq<Turn>, used: nat, stopped: bool, lossy: bool)
    requires Took(turns, used, stopped, EndsMux)
    ensures var offers := RowOffers(turns[..used]);
            D.Tier(SentItems(offers, lossy) + InHand(offers), Items(offers), Drops(offers, lossy), lossy)
  {
    if used > 0 {
      forall t | t in turns[..used - 1] ensures !EndsMux(t) {
        var j :| 0 <= j < used - 1 && turns[..used - 1][j] == t;
        assert !EndsMux(turns[j]);
      }
      RowsGoOn(turns[..used - 1]);
      var before, last := RowOffers(turns[..used - 1]), turns[used - 1];
      assert turns[..used][..|turns[..used]| - 1] == turns[..used - 1];
      assert RowOffers(turns[..used]) == if last.StreamItem? then before + [Offer(last.row, last.answer)] else before;
    }
    OffersAreATier(RowOffers(turns[..used]), lossy);
  }

  /** What is sent, and how many rows are dropped, in one turn. */
  function SentIn(turn: Turn, lossy: bool): seq<Row> {
    if turn.StreamItem? && Passes(turn.answer, lossy) then [turn.row] else []
  }

  function DroppedIn(turn: Turn, lossy: bool): nat {
    if turn.StreamItem? && lossy && turn.answer == Full then 1 else 0
  }

  lemma LastTurn(turns: seq<Turn>, turn: Turn, lossy: bool)
    ensures var more := turns + [turn];
            && Keys(more) == KeysThen(Keys(turns), turn)
            && Gauge(more) == GaugeThen(Keys(turns), Gauge(turns), turn)
            && SentItems(RowOffers(more), lossy) == SentItems(RowOffers(turns), lossy) + SentIn(turn, lossy)
            && Drops(RowOffers(more), lossy) == Drops(RowOffers(turns), lossy) + DroppedIn(turn, lossy)
  {
    assert (turns + [turn])[..|turns + [turn]| - 1] == turns;
    if turn.StreamItem? { LastOffer(RowOffers(turns), Offer(turn.row, turn.answer), lossy); }
  }

  /** What `turns` come to: the rows sent, the streams left, the drops, and the gauge. */
  ghost predicate ComesTo(turns: seq<Turn>, lossy: bool, raw: seq<Row>, streams: set<SourceKey>, dropped: nat,
                          gauge: nat) {
    && raw == SentItems(RowOffers(turns), lossy) && streams == Keys(turns)
    && dropped == Drops(RowOffers(turns), lossy) && gauge == Gauge(turns)
  }

  lemma OneMoreTurn(turns: seq<Turn>, used: nat, lossy: bool, raw: seq<Row>, streams: set<SourceKey>, dropped: nat,
                    gauge: nat)
    requires used < |turns| && ComesTo(turns[..used], lossy, raw, streams, dropped, gauge)
    ensures var turn := turns[used];
            ComesTo(turns[..used + 1], lossy, raw + SentIn(turn, lossy), KeysThen(streams, turn),
                    dropped + DroppedIn(turn, lossy), GaugeThen(streams, gauge, turn))
  {
    LastTurn(turns[..used], turns[used], lossy);
    assert turns[..used + 1] == turns[..used] + [turns[used]];
  }

  /** The body of the loop. */
  method TakeTurn(turn: Turn, lossy: bool, keys: set<SourceKey>, stats: RunStats)
    returns (sent: seq<Row>, streams: set<SourceKey>, stopped: bool)
    modifies stats`activeStreams, stats`muxDroppedLines
    ensures sent == SentIn(turn, lossy) && streams == KeysThen(keys, turn) && stopped == EndsMux(turn)
    ensures stats.muxDroppedLines == old(stats.muxDroppedLines) + DroppedIn(turn, lossy)
    ensures stats.activeStreams == GaugeThen(keys, old(stats.activeStreams), turn)
  {
    sent, streams, stopped := [], keys, false;
    match turn
    case TokenCancelled => stopped := true;
    case Command(None) => stopped := true;
    case Command(Some(Add(k))) =>
      streams := streams + {k};
      stats.activeStreams := |streams|;
    case Command(Some(Remove(k))) =>
      if k in streams {
        streams := streams - {k};
        stats.activeStreams := |streams|;
      }
    case StreamEnds(k) => streams := streams - {k};
    case StreamItem(_, row, answer) =>
      if Passes(answer, lossy) {
        sent := [row];
      } else if answer == Full {
        stats.muxDroppedLines := stats.muxDroppedLines + 1;
      } else {
        stopped := true;
      }
  }

  /** What it sends and drops is what the channel answers; see `MuxLoopIsATier` and `GaugeIsNeverLow`. */
  method MuxMultiplexLoop(turns: seq<Turn>, lossy: bool, stats: RunStats)
    returns (raw: seq<Row>, streams: set<SourceKey>, used: nat, stopped: bool)
    requires stats.activeStreams == 0
    modifies stats`activeStreams, stats`muxDroppedLines
    ensures Took(turns, used, stopped, EndsMux)
    ensures used < |turns| ==> stopped
    ensures stopped ==> used > 0 && var last := turns[used - 1];
              last.TokenCancelled? || last == Command(None) || (last.StreamItem? && last.answer == Gone)
    ensures forall j :: 0 <= j < used && !(stopped && j == used - 1) ==>
              !turns[j].TokenCancelled? && turns[j] != Command(None)
              && (turns[j].StreamItem? ==> turns[j].answer != Gone)
    ensures raw == SentItems(RowOffers(turns[..used]), lossy) && streams == Keys(turns[..used])
    ensures stats.muxDroppedLines == old(stats.muxDroppedLines) + Drops(RowOffers(turns[..used]), lossy)
    ensures stats.activeStreams == if stopped then 0 else Gauge(turns)
  {
    raw, streams, used, stopped := [], {}, 0, false;
    ghost var dropped: nat := 0;
    while used < |turns| && !stopped
      invariant used <= |turns| && (stopped ==> used > 0)
      invariant forall j :: 0 <= j < used ==> (EndsMux(turns[j]) <==> stopped && j == used - 1)
      invariant ComesTo(turns[..used], lossy, raw, streams, dropped, stats.activeStreams)
      invariant stats.muxDroppedLines == old(stats.muxDroppedLines) + dropped
      decreases |turns| - used
    {
      OneMoreTurn(turns, used, lossy, raw, streams, dropped, stats.activeStreams);
      dropped := dropped + DroppedIn(turns[used], lossy);
      var sent;
      sent, streams, stopped := TakeTurn(turns[used], lossy, streams, stats);
      raw := raw + sent;
      used := used + 1;
    }
    if stopped {
      stats.activeStreams := 0;
    } else {
      assert used == |turns| && turns[..used] == turns;
    }
  }

  lemma LastOffer<T>(offers: seq<Offer<T>>, offer: Offer<T>, lossy: bool)
    ensures SentItems(offers + [offer], lossy)
         == SentItems(offers, lossy) + (if Passes(offer.answer, lossy) then [offer.item] else [])
    ensures Drops(offers + [offer], lossy) == Drops(offers, lossy) + (if lossy && offer.answer == Full then 1 else 0)
  {
    assert (offers + [offer])[..|offers + [offer]| - 1] == offers;
  }

  // ---- The forward task ----

  /** What the select of the forward loop comes up with; the answer is for the line of an `Ok` row. */
  datatype Pull =
    | Cancelled
    | Next(item: Option<Row>, answer: Answer)            // none: the pipeline has ended

  predicate EndsForward(pull: Pull) {
    match pull
    case Cancelled => true
    case Next(item, answer) => item.None? || (item.value.Ok? && answer == Gone)
  }

  function LineOffers(pulls: seq<Pull>): seq<Offer<LogEvent>>
    decreases |pulls|
  {
    if pulls == [] then []
    else
      var before, last := LineOffers(pulls[..|pulls| - 1]), pulls[|pulls| - 1];
      if last.Next? && last.item.Some? && last.item.value.Ok? then before + [Offer(last.item.value.event, last.answer)]
      else before
  }

  function ApiErrors(pulls: seq<Pull>): nat
    decreases |pulls|
  {
    if pulls == [] then 0
    else
      var before, last := ApiErrors(pulls[..|pulls| - 1]), pulls[|pulls| - 1];
      if last.Next? && last.item.Some? && last.item.value.Err? && last.item.value.error.Api? then before + 1 else before
  }

  lemma {:induction false} LinesGoOn(pulls: seq<Pull>)
    requires forall p :: p in pulls ==> !EndsForward(p)
    ensures forall j :: 0 <= j < |LineOffers(pulls)| ==> LineOffers(pulls)[j].answer != Gone
    decreases |pulls|
  {
    if pulls != [] {
      LinesGoOn(pulls[..|pulls| - 1]);
      assert pulls[|pulls| - 1] in pulls;
    }
  }

  /** So the forward loop is the other tier. */
  lemma ForwardLoopIsATier(pulls: seq<Pull>, used: nat, stopped: bool, lossy: bool)
    requires Took(pulls, used, stopped, EndsForward)
    ensures var offers := LineOffers(pulls[..used]);
            D.Tier(SentItems(offers, lossy) + InHand(offers), Items(offers), Drops(offers, lossy), lossy)
  {
    if used > 0 {
      forall p | p in pulls[..used - 1] ensures !EndsForward(p) {
        var j :| 0 <= j < used - 1 && pulls[..used - 1][j] == p;
        assert !EndsForward(pulls[j]);
      }
      LinesGoOn(pulls[..used - 1]);
      var before := LineOffers(pulls[..used - 1]);
      assert pulls[..used][..|pulls[..used]| - 1] == pulls[..used - 1];
      assert LineOffers(pulls[..used]) == before
          || exists o :: LineOffers(pulls[..used]) == before + [o];
    }
    OffersAreATier(LineOffers(pulls[..used]), lossy);
  }

  function Line(pull: Pull): Option<LogEvent> {
    if pull.Next? && pull.item.Some? && pull.item.value.Ok? then Some(pull.item.value.event) else None
  }

  function ErrorsIn(pull: Pull): nat {
    if pull.Next? && pull.item.Some? && pull.item.value.Err? && pull.item.value.error.Api? then 1 else 0
  }

  function LinesIn(pull: Pull, lossy: bool): seq<LogEvent> {
    if Line(pull).Some? && Passes(pull.answer, lossy) then [Line(pull).value] else []
  }

  function LostIn(pull: Pull, lossy: bool): nat {
    if Line(pull).Some? && lossy && pull.answer == Full then 1 else 0
  }

  lemma LastPull(pulls: seq<Pull>, pull: Pull, lossy: bool)
    ensures var more := pulls + [pull];
            && SentItems(LineOffers(more), lossy) == SentItems(LineOffers(pulls), lossy) + LinesIn(pull, lossy)
            && Drops(LineOffers(more), lossy) == Drops(LineOffers(pulls), lossy) + LostIn(pull, lossy)
            && ApiErrors(more) == ApiErrors(pulls) + ErrorsIn(pull)
  {
    assert (pulls + [pull])[..|pulls + [pull]| - 1] == pulls;
    if Line(pull).Some? { LastOffer(LineOffers(pulls), Offer(Line(pull).value, pull.answer), lossy); }
  }

  /** Every event is offered as a line; errors are not, and only those of the API are counted. */
  lemma LinesOffered(pulls: seq<Pull>, event: LogEvent, answer: Answer, error: SourceError)
    ensures LineOffers([]) == [] && ApiErrors([]) == 0
    ensures var more := pulls + [Next(Some(Ok(event)), answer)];
            LineOffers(more) == LineOffers(pulls) + [Offer(event, answer)] && ApiErrors(more) == ApiErrors(pulls)
    ensures var more := pulls + [Next(Some(Err(error)), answer)];
            && LineOffers(more) == LineOffers(pulls)
            && ApiErrors(more) == ApiErrors(pulls) + (match error case Api(_) => 1 case Eof => 0 case Cancelled => 0)
    ensures var more := pulls + [Next(None, answer)];
            LineOffers(more) == LineOffers(pulls) && ApiErrors(more) == ApiErrors(pulls)
    ensures var more := pulls + [Pull.Cancelled];
            LineOffers(more) == LineOffers(pulls) && ApiErrors(more) == ApiErrors(pulls)
  {
    assert forall pull :: (pulls + [pull])[..|pulls|] == pulls;
  }

  /** What is sent and what is dropped of an offer, by the channel's answer. */
  lemma AnswersDecide<T>(offers: seq<Offer<T>>, item: T, lossy: bool)
    ensures SentItems<T>([], lossy) == [] && Drops<T>([], lossy) == 0
    ensures var more := offers + [Offer(item, Sent)];
            SentItems(more, lossy) == SentItems(offers, lossy) + [item] && Drops(more, lossy) == Drops(offers, lossy)
    ensures var more := offers + [Offer(item, Full)];
            && SentItems(more, lossy) == SentItems(offers, lossy) + (if lossy then [] else [item])
            && Drops(more, lossy) == Drops(offers, lossy) + (if lossy then 1 else 0)
    ensures var more := offers + [Offer(item, Gone)];
            SentItems(more, lossy) == SentItems(offers, lossy) && Drops(more, lossy) == Drops(offers, lossy)
  {
    LastOffer(offers, Offer(item, Sent), lossy);
    LastOffer(offers, Offer(item, Full), lossy);
    LastOffer(offers, Offer(item, Gone), lossy);
  }

  /** The body of the loop. */
  method TakePull(pull: Pull, lossy: bool, stats: RunStats) returns (sent: seq<LogEvent>, stopped: bool)
    modifies stats`forwardedLines, stats`droppedLines, stats`sourceErrors
    ensures sent == LinesIn(pull, lossy) && stopped == EndsForward(pull)
    ensures stats.forwardedLines == old(stats.forwardedLines) + |sent|
    ensures stats.droppedLines == old(stats.droppedLines) + LostIn(pull, lossy)
    ensures stats.sourceErrors == old(stats.sourceErrors) + ErrorsIn(pull)
  {
    sent, stopped := [], false;
    match pull
    case Cancelled => stopped := true;
    case Next(None, _) => stopped := true;
    case Next(Some(Err(error)), _) =>
      if error.Api? { stats.sourceErrors := stats.sourceErrors + 1; }
    case Next(Some(Ok(event)), answer) =>
      if Passes(answer, lossy) {
        sent := [event];
        stats.forwardedLines := stats.forwardedLines + 1;
      } else if answer == Full {
        stats.droppedLines := stats.droppedLines + 1;
      } else {
        stopped := true;
      }
  }

  /** What `pulls` come to: the lines sent, the drops, and the errors of the API. */
  ghost predicate Yields(pulls: seq<Pull>, lossy: bool, render: seq<LogEvent>, dropped: nat, errors: nat) {
    && render == SentItems(LineOffers(pulls), lossy)
    && dropped == Drops(LineOffers(pulls), lossy) && errors == ApiErrors(pulls)
  }

  lemma OneMorePull(pulls: seq<Pull>, used: nat, lossy: bool, render: seq<LogEvent>, dropped: nat, errors: nat)
    requires used < |pulls| && Yields(pulls[..used], lossy, render, dropped, errors)
    ensures var pull := pulls[used];
            Yields(pulls[..used + 1], lossy, render + LinesIn(pull, lossy), dropped + LostIn(pull, lossy),
                   errors + ErrorsIn(pull))
  {
    LastPull(pulls[..used], pulls[used], lossy);
    assert pulls[..used + 1] == pulls[..used] + [pulls[used]];
  }

  /** Lines are sent or dropped as the channel answers, and every one is counted; errors of the API are counted and not
      sent. */
  method ForwardToRender(pulls: seq<Pull>, lossy: bool, stats: RunStats)
    returns (render: seq<LogEvent>, used: nat, stopped: bool)
    modifies stats`forwardedLines, stats`droppedLines, stats`sourceErrors
    ensures Took(pulls, used, stopped, EndsForward)
    ensures used < |pulls| ==> stopped
    ensures stopped ==> used > 0 && var last := pulls[used - 1];
              last.Cancelled? || last.item.None? || (last.item.value.Ok? && last.answer == Gone)
    ensures forall j :: 0 <= j < used && !(stopped && j == used - 1) ==>
              pulls[j].Next? && pulls[j].item.Some? && (pulls[j].item.value.Err? || pulls[j].answer != Gone)
    ensures render == SentItems(LineOffers(pulls[..used]), lossy)
    ensures stats.forwardedLines == old(stats.forwardedLines) + |render|
    ensures stats.droppedLines == old(stats.droppedLines) + Drops(LineOffers(pulls[..used]), lossy)
    ensures stats.sourceErrors == old(stats.sourceErrors) + ApiErrors(pulls[..used])
  {
    render, used, stopped := [], 0, false;
    ghost var dropped: nat, errors: nat := 0, 0;
    while used < |pulls| && !stopped
      invariant used <= |pulls| && (stopped ==> used > 0)
      invariant forall j :: 0 <= j < used ==> (EndsForward(pulls[j]) <==> stopped && j == used - 1)
      invariant Yields(pulls[..used], lossy, render, dropped, errors)
      invariant stats.forwardedLines == old(stats.forwardedLines) + |render|
      invariant stats.droppedLines == old(stats.droppedLines) + dropped
      invariant stats.sourceErrors == old(stats.sourceErrors) + errors
      decreases |pulls| - used
    {
      OneMorePull(pulls, used, lossy, render, dropped, errors);
      dropped, errors := dropped + LostIn(pulls[used], lossy), errors + ErrorsIn(pulls[used]);
      var sent;
      sent, stopped := TakePull(pulls[used], lossy, stats);
      render := render + sent;
      used := used + 1;
    }
  }
}
