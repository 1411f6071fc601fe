/**
 Sending a companion's answer as several messages. Segments go out in order; a rate-limited segment is tried once more;
 any result that may already be visible to the user, and any that could not be written to the workflow trace, stops
 the delivery. A control may cancel the delivery at any of its waits.
 */
module CompanionDelivery {
  import opened Common

  // ---------- who decides the end of a batch ----------

  /** The first reason claimed is the one that counts. */
  class TerminalArbiter {
    var reason: string

    constructor ()
      ensures reason == ""
    {
      reason := "";
    }

    method Claim(claimed: string) returns (won: bool)
      modifies this
      ensures won == (claimed != "" && old(reason) == "")
      ensures reason == Decide(old(reason), claimed)
    {
      if claimed == "" {
        return false;
      }
      if reason != "" {
        return false;
      }
      reason := claimed;
      return true;
    }
  }

  function Decide(reason: string, claimed: string): string {
    if reason == "" then claimed else reason
  }

  function DecideAll(reason: string, claims: seq<string>): string {
    if claims == [] then reason else Decide(DecideAll(reason, claims[..|claims| - 1]), claims[|claims| - 1])
  }

  /** Whatever is claimed and in whatever order, exactly the first real claim wins, and it stays. */
  lemma {:induction false} FirstClaimWins(claims: seq<string>, i: nat)
    requires i < |claims| && claims[i] != "" && forall j | 0 <= j < i :: claims[j] == ""
    ensures DecideAll("", claims) == claims[i]
  {
    var init := claims[..|claims| - 1];
    if i < |init| {
      FirstClaimWins(init, i);
    } else {
      NoClaims(init);
    }
  }

  lemma {:induction false} NoClaims(claims: seq<string>)
    requires forall j | 0 <= j < |claims| :: claims[j] == ""
    ensures DecideAll("", claims) == ""
  {
    if claims != [] {
      NoClaims(claims[..|claims| - 1]);
    }
  }

  /** The delivery window of a batch. */
  datatype Window = Window(started: bool, published: bool, cancelled: bool, finished: bool)

  datatype WindowEvent = Begin | Publish | Cancel | Finish

  function WindowStep(w: Window, e: WindowEvent): Window {
    match e
    case Begin => if w.started || w.finished then w else w.(started := true)
    case Publish => if !w.started || w.published || w.finished || w.cancelled then w else w.(published := true)
    case Cancel => w.(cancelled := true)
    case Finish => w.(finished := true)
  }

  function WindowAfter(w: Window, events: seq<WindowEvent>): Window {
    if events == [] then w else WindowStep(WindowAfter(w, events[..|events| - 1]), events[|events| - 1])
  }

  lemma WindowEventsFollow(w: Window, events: seq<WindowEvent>, e: WindowEvent)
    ensures WindowAfter(w, []) == w && WindowAfter(w, events + [e]) == WindowStep(WindowAfter(w, events), e)
  {
    assert (events + [e])[..|events|] == events;
  }

  /** A cancellation that comes first keeps the window shut for good. */
  lemma {:induction false} CancelledWindowStaysShut(w: Window, events: seq<WindowEvent>)
    requires w.cancelled && !w.published
    ensures WindowAfter(w, events).cancelled && !WindowAfter(w, events).published
  {
    if events != [] {
      CancelledWindowStaysShut(w, events[..|events| - 1]);
    }
  }

  class DeliverySlot {
    var started: bool
    var published: bool
    var cancelled: bool
    var finished: bool

    function View(): Window
      reads this
    {
      Window(started, published, cancelled, finished)
    }

    constructor ()
      ensures View() == Window(false, false, false, false)
    {
      started, published, cancelled, finished := false, false, false, false;
    }

    method BeginDelivery() returns (ok: bool)
      modifies this
      ensures View() == WindowStep(old(View()), Begin) && ok == (View() != old(View()))
    {
      if started || finished {
        return false;
      }
      started := true;
      return true;
    }

    method PublishWindow() returns (ok: bool)
      modifies this
      ensures View() == WindowStep(old(View()), Publish) && ok == (View() != old(View()))
    {
      if !started || published || finished || cancelled {
        return false;
      }
      published := true;
      return true;
    }

    method CancelWindow()
      modifies this
      ensures View() == WindowStep(old(View()), Cancel)
    {
      cancelled := true;
    }

    method FinishWindow()
      modifies this
      ensures View() == WindowStep(old(View()), Finish)
    {
      finished := true;
    }
  }

  // ---------- the sends ----------

  datatype Outcome = Sent(messageId: string) | Rejected(rateLimited: bool) | Unknown | Cancelled

  /** A result of the sender, and whether it could be written to the trace. */
  datatype Answer = Answer(outcome: Outcome, recorded: bool)

  /** How a wait ends: by itself, because the delivery was cancelled, or because its deadline has passed. */
  datatype Wait = Elapsed | WaitCancelled | WaitExpired

  /**
   What happens around one segment: at the wait before it, at its send, at the wait before a retry and at the retry. The
   wait before a retry treats a deadline like a cancellation.
   */
  datatype Turn = Turn(wait: Wait, first: Answer, retryCancelled: bool, second: Answer)

  datatype Send = Send(index: nat, retry: bool, outcome: Outcome, recorded: bool)

  datatype Error = DeliveryCancelled | DeliveryExpired | TraceIncomplete | DeliveryUnknown | Other

  datatype Summary = Summary(sent: nat, rejected: nat, unknown: nat, cancelled: nat, firstMessageId: string)

  /** Nothing may follow this send. */
  predicate Stops(s: Send) {
    !s.recorded || s.outcome.Unknown? || s.outcome.Cancelled?
  }

  predicate MustRetry(s: Send) {
    !s.retry && s.outcome == Rejected(true)
  }

  /** Whether `s` may follow the sends so far. */
  ghost predicate MayFollow(sends: seq<Send>, s: Send) {
    if sends == [] then s.index == 0 && !s.retry
    else
      var last := sends[|sends| - 1];
      && !Stops(last)
      && (if MustRetry(last) then s.index == last.index && s.retry else s.index == last.index + 1 && !s.retry)
  }

  ghost predicate Ordered(sends: seq<Send>) {
    sends == [] || (Ordered(sends[..|sends| - 1]) && MayFollow(sends[..|sends| - 1], sends[|sends| - 1]))
  }

  /** The last result of a segment; none if it was never sent. */
  function Final(sends: seq<Send>, index: nat): Option<Outcome> {
    if sends == [] then None
    else if sends[|sends| - 1].index == index then Some(sends[|sends| - 1].outcome)
    else Final(sends[..|sends| - 1], index)
  }

  /** How many of the first `n` segments were finally sent, or finally rejected. */
  function Count(sends: seq<Send>, n: nat, accepted: bool): nat {
    if n == 0 then 0
    else
      var last := Final(sends, n - 1);
      Count(sends, n - 1, accepted)
      + if last.Some? && (if accepted then last.value.Sent? else last.value.Rejected?) then 1 else 0
  }

  predicate HasId(o: Option<Outcome>) {
    o.Some? && o.value.Sent? && o.value.messageId != ""
  }

  /** The first message identifier that the first `n` segments got, or none. */
  ghost predicate FirstSent(sends: seq<Send>, n: nat, id: string) {
    if id == "" then forall i | 0 <= i < n :: !HasId(Final(sends, i))
    else exists i :: 0 <= i < n && Final(sends, i) == Some(Sent(id)) && forall j | 0 <= j < i :: !HasId(Final(sends, j))
  }

  lemma FirstSentNext(sends: seq<Send>, next: seq<Send>, n: nat, summary: Summary, o: Outcome)
    requires FirstSent(sends, n, summary.firstMessageId) && Final(next, n) == Some(o)
    requires forall i | 0 <= i < n :: Final(next, i) == Final(sends, i)
    ensures FirstSent(next, n + 1, Tally(summary, o).firstMessageId)
  {
    hide Final;
    var id := summary.firstMessageId;
    if id != "" {
      var i :| 0 <= i < n && Final(sends, i) == Some(Sent(id)) && forall j | 0 <= j < i :: !HasId(Final(sends, j));
      assert Final(next, i) == Some(Sent(id));
    } else {
      assert forall j | 0 <= j < n :: !HasId(Final(next, j));
    }
  }

  /** The segments before `n` are settled: each was sent or explicitly rejected, and the counters say how many. */
  ghost predicate Settled(sends: seq<Send>, n: nat, summary: Summary) {
    && (forall i | 0 <= i < n :: Final(sends, i).Some? && (Final(sends, i).value.Sent? || Final(sends, i).value.Rejected?))
    && (forall k | 0 <= k < |sends| :: sends[k].index < n)
    && summary.sent == Count(sends, n, true) && summary.rejected == Count(sends, n, false)
    && summary.unknown == 0 && summary.cancelled == 0 && FirstSent(sends, n, summary.firstMessageId)
    && (sends != [] ==> sends[|sends| - 1].index == n - 1 && !Stops(sends[|sends| - 1]) && !MustRetry(sends[|sends| - 1]))
    && (sends == [] ==> n == 0)
  }

  lemma {:induction false} CountKeeps(sends: seq<Send>, s: Send, n: nat, accepted: bool)
    requires n <= s.index
    ensures Count(sends + [s], n, accepted) == Count(sends, n, accepted)
  {
    if n > 0 {
      CountKeeps(sends, s, n - 1, accepted);
      FinalNext(sends, s, n - 1);
    }
  }

  lemma FinalNext(sends: seq<Send>, s: Send, i: nat)
    ensures Final(sends + [s], i) == if s.index == i then Some(s.outcome) else Final(sends, i)
    ensures Ordered(sends + [s]) <==> Ordered(sends) && MayFollow(sends, s)
  {
    assert (sends + [s])[..|sends|] == sends;
  }

  function Tally(summary: Summary, o: Outcome): Summary {
    match o
    case Sent(id) =>
      summary.(sent := summary.sent + 1,
               firstMessageId := if summary.firstMessageId == "" then id else summary.firstMessageId)
    case Rejected(_) => summary.(rejected := summary.rejected + 1)
    case Unknown => summary.(unknown := summary.unknown + 1)
    case Cancelled => summary.(cancelled := summary.cancelled + 1)
  }

  /** Each result moves its own counter. */
  lemma TallyCountsOnce(summary: Summary, o: Outcome)
    ensures var t := Tally(summary, o);
            && t.sent + t.rejected + t.unknown + t.cancelled == summary.sent + summary.rejected + summary.unknown + summary.cancelled + 1
            && (o.Sent? ==> t.sent == summary.sent + 1) && (o.Rejected? ==> t.rejected == summary.rejected + 1)
            && (o.Unknown? ==> t.unknown == summary.unknown + 1) && (o.Cancelled? ==> t.cancelled == summary.cancelled + 1)
  {
  }

  /** The last send of segment `n` settles it. */
  lemma SettleNext(sends: seq<Send>, s: Send, n: nat, summary: Summary)
    requires Settled(sends, n, summary) && s.index == n && !Stops(s) && !MustRetry(s)
    ensures Settled(sends + [s], n + 1, Tally(summary, s.outcome))
  {
    hide Final, Count;
    Recount(sends, s, n);
    forall i | 0 <= i < n + 1 ensures Final(sends + [s], i) == if s.index == i then Some(s.outcome) else Final(sends, i) {
      FinalNext(sends, s, i);
    }
    FirstSentNext(sends, sends + [s], n, summary, s.outcome);
    hide FirstSent;
  }

  lemma Recount(sends: seq<Send>, s: Send, n: nat)
    requires s.index == n
    ensures Count(sends + [s], n + 1, true) == Count(sends, n, true) + if s.outcome.Sent? then 1 else 0
    ensures Count(sends + [s], n + 1, false) == Count(sends, n, false) + if s.outcome.Rejected? then 1 else 0
  {
    CountKeeps(sends, s, n, true);
    CountKeeps(sends, s, n, false);
    FinalNext(sends, s, n);
  }

  /** A first try that is to be retried does not settle its segment, and disturbs no other. */
  lemma RetryKeeps(sends: seq<Send>, a: Send, b: Send, n: nat, summary: Summary)
    requires Settled(sends, n, summary) && a.index == n && b.index == n && !Stops(b) && !MustRetry(b)
    ensures Settled(sends + [a] + [b], n + 1, Tally(summary, b.outcome))
  {
    hide Final, Count;
    CountKeeps(sends, a, n, true);
    CountKeeps(sends, a, n, false);
    Recount(sends + [a], b, n);
    forall i | 0 <= i < n + 1 ensures Final(sends + [a] + [b], i) == if b.index == i then Some(b.outcome) else Final(sends, i) {
      FinalNext(sends, a, i);
      FinalNext(sends + [a], b, i);
    }
    FirstSentNext(sends, sends + [a] + [b], n, summary, b.outcome);
    hide FirstSent;
  }

  /** The error that a result leaves behind. */
  function ErrorOf(o: Outcome): Option<Error> {
    match o
    case Unknown => Some(DeliveryUnknown)
    case Cancelled => Some(DeliveryCancelled)
    case _ => None
  }

  /** Every send carries the answer its segment was given, and none follows a wait that was cut short. */
  ghost predicate Answered(sends: seq<Send>, turns: seq<Turn>) {
    forall k | 0 <= k < |sends| ::
      && sends[k].index < |turns|
      && var turn := turns[sends[k].index];
         && Answer(sends[k].outcome, sends[k].recorded) == (if sends[k].retry then turn.second else turn.first)
         && (if sends[k].retry then !turn.retryCancelled else sends[k].index > 0 ==> turn.wait.Elapsed?)
  }

  lemma AnsweredNext(sends: seq<Send>, s: Send, turns: seq<Turn>)
    requires Answered(sends, turns) && s.index < |turns|
    requires Answer(s.outcome, s.recorded) == if s.retry then turns[s.index].second else turns[s.index].first
    requires if s.retry then !turns[s.index].retryCancelled else s.index > 0 ==> turns[s.index].wait.Elapsed?
    ensures Answered(sends + [s], turns)
  {
  }

  /** Why a delivery stopped: exactly what its last send, and the wait after it, say. */
  ghost predicate Explains(error: Error, sends: seq<Send>, turns: seq<Turn>)
    requires Answered(sends, turns)
  {
    && sends != []
    && var last := sends[|sends| - 1];
       var turn := turns[last.index];
       if !last.recorded then error.TraceIncomplete?
       else if MustRetry(last) then
         turn.retryCancelled && if turn.second.recorded then error.DeliveryCancelled? else error.TraceIncomplete?
       else if last.outcome.Unknown? then error.DeliveryUnknown?
       else if last.outcome.Cancelled? then error.DeliveryCancelled?
       else
         && last.index + 1 < |turns|
         && match turns[last.index + 1].wait
            case Elapsed => false
            case WaitCancelled => error.DeliveryCancelled?
            case WaitExpired => error.DeliveryExpired?
  }

  /** The counters of what stopped the delivery. */
  predicate CountsError(error: Error, summary: Summary) {
    && summary.unknown == (if error.DeliveryUnknown? then 1 else 0)
    && summary.cancelled == (if error.DeliveryCancelled? || error.DeliveryExpired? then 1 else 0)
  }

  /** Sends one segment, with its retry; `error` tells whether the delivery must stop. */
  method SendSegment(index: nat, turns: seq<Turn>, before: seq<Send>, summary: Summary)
    returns (sends: seq<Send>, next: Summary, error: Option<Error>)
    requires index < |turns| && Ordered(before) && Settled(before, index, summary) && Answered(before, turns)
    requires index > 0 ==> turns[index].wait.Elapsed?
    ensures Ordered(sends) && before <= sends && Answered(sends, turns)
    ensures error.None? ==> Settled(sends, index + 1, next)
    ensures error.Some? ==> Explains(error.value, sends, turns)
    ensures error.Some? ==> CountsError(error.value, next)
  {
    var result := turns[index].first;
    var send := Send(index, false, result.outcome, result.recorded);
    FirstTry(before, send, turns, summary);
    hide Ordered, Settled, Answered, Tally;
    sends := before + [send];
    if !result.recorded {
      return sends, summary, Some(TraceIncomplete);
    }
    if result.outcome == Rejected(true) {
      sends, next, error := RetrySegment(index, turns, before, summary, send);
      return;
    }
    next := Tally(summary, result.outcome);
    error := ErrorOf(result.outcome);
  }

  /** The one retry of a rate-limited segment. */
  method RetrySegment(index: nat, turns: seq<Turn>, before: seq<Send>, summary: Summary, send: Send)
    returns (sends: seq<Send>, next: Summary, error: Option<Error>)
    requires index < |turns| && turns[index].first == Answer(Rejected(true), true)
    requires send == Send(index, false, Rejected(true), true) && Settled(before, index, summary)
    requires Ordered(before + [send]) && Answered(before + [send], turns)
    ensures Ordered(sends) && before <= sends && Answered(sends, turns)
    ensures error.None? ==> Settled(sends, index + 1, next)
    ensures error.Some? ==> Explains(error.value, sends, turns)
    ensures error.Some? ==> CountsError(error.value, next)
  {
    assert summary.unknown == 0 && summary.cancelled == 0;
    hide Ordered, Settled, Answered, Tally;
    sends := before + [send];
    var result := Answer(Cancelled, turns[index].second.recorded);
    if !turns[index].retryCancelled {
      result := turns[index].second;
      var again := Send(index, true, result.outcome, result.recorded);
      SecondTry(before, send, again, turns, summary);
      sends := sends + [again];
    }
    if !result.recorded {
      return sends, summary, Some(TraceIncomplete);
    }
    next := Tally(summary, result.outcome);
    error := ErrorOf(result.outcome);
  }

  lemma FirstTry(before: seq<Send>, send: Send, turns: seq<Turn>, summary: Summary)
    requires Ordered(before) && Settled(before, send.index, summary) && Answered(before, turns)
    requires send.index < |turns| && !send.retry && Answer(send.outcome, send.recorded) == turns[send.index].first
    requires send.index > 0 ==> turns[send.index].wait.Elapsed?
    ensures Ordered(before + [send]) && Answered(before + [send], turns)
    ensures !Stops(send) && !MustRetry(send) ==> Settled(before + [send], send.index + 1, Tally(summary, send.outcome))
  {
    FinalNext(before, send, send.index);
    AnsweredNext(before, send, turns);
    if !Stops(send) && !MustRetry(send) {
      SettleNext(before, send, send.index, summary);
    }
  }

  lemma SecondTry(before: seq<Send>, send: Send, again: Send, turns: seq<Turn>, summary: Summary)
    requires Settled(before, send.index, summary) && Ordered(before + [send]) && Answered(before + [send], turns)
    requires MustRetry(send) && send.recorded && again.index == send.index < |turns| && again.retry
    requires Answer(again.outcome, again.recorded) == turns[again.index].second && !turns[again.index].retryCancelled
    ensures Ordered(before + [send] + [again]) && Answered(before + [send] + [again], turns)
    ensures !Stops(again) ==> Settled(before + [send] + [again], again.index + 1, Tally(summary, again.outcome))
  {
    FinalNext(before + [send], again, again.index);
    AnsweredNext(before + [send], again, turns);
    hide Ordered, Answered;
    if !Stops(again) {
      RetryKeeps(before, send, again, again.index, summary);
    }
  }

  /** Sends the segments in order until one of them stops the delivery. */
  method DeliverSegments(turns: seq<Turn>, failed: Option<Error>)
    returns (sends: seq<Send>, summary: Summary, error: Option<Error>)
    ensures Ordered(sends) && Answered(sends, turns)
    ensures failed.Some? ==> sends == [] && error == failed
    ensures error.None? ==> Settled(sends, |turns|, summary)
    ensures failed.None? && error.Some? ==> Explains(error.value, sends, turns) && CountsError(error.value, summary)
    ensures failed.None? && turns != [] ==> sends != []
  {
    sends, summary, error := [], Summary(0, 0, 0, 0, ""), failed;
    assert Settled([], 0, summary);
    var index := 0;
    while index < |turns|
      invariant index <= |turns|
      invariant Ordered(sends) && Answered(sends, turns)
      invariant failed.Some? ==> sends == [] && error == failed
      invariant error.None? ==> Settled(sends, index, summary)
      invariant failed.None? && error.Some? ==> Explains(error.value, sends, turns) && CountsError(error.value, summary)
      invariant failed.None? && index > 0 ==> sends != []
    {
      if error.Some? {
        break;
      }
      if index > 0 && !turns[index].wait.Elapsed? {
        error := Some(if turns[index].wait.WaitCancelled? then DeliveryCancelled else DeliveryExpired);
        summary := summary.(cancelled := summary.cancelled + 1);
      } else {
        sends, summary, error := SendSegment(index, turns, sends, summary);
      }
      index := index + 1;
    }
  }

  // ---------- what an ordered delivery guarantees ----------

  lemma {:induction false} OrderedAt(sends: seq<Send>, j: nat)
    requires Ordered(sends) && j < |sends|
    ensures Ordered(sends[..j]) && MayFollow(sends[..j], sends[j])
  {
    if j < |sends| - 1 {
      OrderedAt(sends[..|sends| - 1], j);
      assert sends[..|sends| - 1][..j] == sends[..j];
    }
  }

  /** Nothing is sent after a result that may be visible, was cancelled, or could not be recorded. */
  lemma {:induction false} NothingAfterStop(sends: seq<Send>, i: nat, j: nat)
    requires Ordered(sends) && i < j < |sends|
    ensures !Stops(sends[i])
  {
    OrderedAt(sends, i + 1);
    assert sends[..i + 1][i] == sends[i];
  }

  /** Later sends are for later segments, except the one retry of a rate-limited segment that directly follows it. */
  lemma {:induction false} SendsMoveForward(sends: seq<Send>, i: nat, j: nat)
    requires Ordered(sends) && i < j < |sends|
    ensures sends[i].index < sends[j].index ||
            (j == i + 1 && sends[i].index == sends[j].index && MustRetry(sends[i]) && sends[j].retry)
  {
    OrderedAt(sends, j);
    assert sends[..j][j - 1] == sends[j - 1];
    if i < j - 1 {
      SendsMoveForward(sends, i, j - 1);
      if sends[i].index == sends[j - 1].index {
        assert sends[j - 1].retry;
      } else if MustRetry(sends[j - 1]) {
        assert sends[j].index == sends[j - 1].index;
      }
    }
  }

  /** So results that are not rejections come from strictly increasing segments: no text is shown twice or out of order. */
  lemma VisibleSendsIncrease(sends: seq<Send>, i: nat, j: nat)
    requires Ordered(sends) && i < j < |sends| && !sends[i].outcome.Rejected?
    ensures sends[i].index < sends[j].index
  {
    SendsMoveForward(sends, i, j);
  }

  // ---------- what is recorded ----------

  datatype Record =
    | CompanionCompleted(code: string, firstMessageId: string)
    | Completed(firstMessageId: string)
    | CompanionFailed(code: string)
    | BatchFailed
    | NotRecorded

  function CompletionCode(emptyFinal: bool, summary: Summary): string {
    if emptyFinal then "companion_final_empty"
    else if summary.rejected > 0 && summary.sent == 0 then "companion_segment_delivery_none"
    else if summary.rejected > 0 then "companion_segment_delivery_partial"
    else ""
  }

  function FailureCode(error: Error): string {
    match error
    case TraceIncomplete => "companion_delivery_trace_incomplete"
    case DeliveryUnknown => "companion_segment_delivery_unknown"
    case DeliveryCancelled => "companion_delivery_cancelled"
    case DeliveryExpired => "companion_delivery_failed"
    case Other => "companion_delivery_failed"
  }

  /** What the store answers: the error of recording a completion, if any, and whether a failure could be recorded. */
  datatype Storing = Storing(completion: Option<Error>, failure: bool)

  /** What the batch is recorded as, given the delivery's error, whether its start was marked, and the terminal reason. */
  function RecordOf(error: Option<Error>, marked: bool, lifecycle: bool, reason: string, emptyFinal: bool, summary: Summary,
                    storing: Storing): Record
  {
    if error.Some? then RecordOfFailure(error.value, marked, lifecycle, storing)
    else if marked && reason == "" then
      match storing.completion
      case None => CompanionCompleted(CompletionCode(emptyFinal, summary), summary.firstMessageId)
      case Some(lost) => RecordOfFailure(lost, marked, lifecycle, storing)
    else if lifecycle && storing.completion.None? then Completed(summary.firstMessageId)
    else NotRecorded
  }

  function RecordOfFailure(error: Error, marked: bool, lifecycle: bool, storing: Storing): Record {
    if !storing.failure then NotRecorded
    else if marked then CompanionFailed(FailureCode(error))
    else if lifecycle then BatchFailed
    else NotRecorded
  }

  /** Each error is recorded under the code that names it. */
  lemma CodeNamesTheError(error: Error)
    ensures FailureCode(error) == "companion_delivery_trace_incomplete" <==> error.TraceIncomplete?
    ensures FailureCode(error) == "companion_segment_delivery_unknown" <==> error.DeliveryUnknown?
    ensures FailureCode(error) == "companion_delivery_cancelled" <==> error.DeliveryCancelled?
    ensures FailureCode(error) == "companion_delivery_failed" <==> error.DeliveryExpired? || error.Other?
  {
  }

  /** The last send was answered in a way that nobody can tell whether it arrived. */
  ghost predicate EndsUnknown(sends: seq<Send>) {
    sends != [] && sends[|sends| - 1].recorded && sends[|sends| - 1].outcome.Unknown?
  }

  /** The last send, or the last answer that stands for a cancelled retry, could not be recorded. */
  ghost predicate EndsUntraced(sends: seq<Send>, turns: seq<Turn>)
    requires Answered(sends, turns)
  {
    && sends != []
    && var last := sends[|sends| - 1];
       !last.recorded || (MustRetry(last) && !turns[last.index].second.recorded)
  }

  /** A failure that could be recorded is one of the delivery if its start was marked, and of the batch otherwise. */
  lemma FailuresAreRecorded(error: Error, marked: bool, lifecycle: bool, storing: Storing)
    ensures var record := RecordOfFailure(error, marked, lifecycle, storing);
            && (record.CompanionFailed? <==> storing.failure && marked) && (record.BatchFailed? <==> storing.failure && !marked && lifecycle)
            && !record.CompanionCompleted? && !record.Completed?
  {
  }

  /** Of `n` settled segments every one was sent, every one was rejected, or there are some of both. */
  lemma {:induction false} CountsCover(sends: seq<Send>, n: nat)
    requires forall i | 0 <= i < n :: Final(sends, i).Some? && (Final(sends, i).value.Sent? || Final(sends, i).value.Rejected?)
    ensures Count(sends, n, true) + Count(sends, n, false) == n
    ensures Count(sends, n, false) == 0 <==> forall i | 0 <= i < n :: Final(sends, i).value.Sent?
    ensures Count(sends, n, true) == 0 <==> forall i | 0 <= i < n :: Final(sends, i).value.Rejected?
  {
    hide Final;
    if n > 0 {
      CountsCover(sends, n - 1);
      assert Final(sends, n - 1).Some?;
    }
  }

  /** The code a completed delivery is recorded with says which segments arrived. */
  lemma CodeSaysWhatArrived(sends: seq<Send>, n: nat, summary: Summary)
    requires Settled(sends, n, summary) && n > 0
    ensures CompletionCode(true, summary) == "companion_final_empty"
    ensures CompletionCode(false, summary) == "" <==> forall i | 0 <= i < n :: Final(sends, i).value.Sent?
    ensures CompletionCode(false, summary) == "companion_segment_delivery_none" <==>
            forall i | 0 <= i < n :: Final(sends, i).value.Rejected?
  {
    hide Final, Count;
    CountsCover(sends, n);
  }

  /** Publishing, sending and recording. */
  method DeliverCompanion(turns: seq<Turn>, slot: DeliverySlot, companion: bool, markFails: bool, lifecycle: bool,
                          emptyFinal: bool, claimed: string, storing: Storing)
    returns (sends: seq<Send>, record: Record)
    modifies slot
    ensures Ordered(sends) && Answered(sends, turns)
    ensures companion && old(slot.View()) == Window(false, false, true, false) ==> sends == []
    ensures !companion || (!markFails && old(slot.View()) == Window(false, false, false, false)) ==> turns != [] ==> sends != []
    ensures slot.View() == if companion && !markFails && !old(slot.started) && !old(slot.finished)
                           then Window(true, old(slot.published) || !old(slot.cancelled), old(slot.cancelled), false)
                           else old(slot.View())
    ensures companion && markFails ==> sends == [] && !record.CompanionCompleted? && !record.Completed? && !record.CompanionFailed?
    ensures record.CompanionCompleted? || record.Completed? ==> storing.completion.None? && exists summary :: Settled(sends, |turns|, summary)
    ensures record.CompanionCompleted? ==>
              claimed == "" && exists summary :: Settled(sends, |turns|, summary) && record.code == CompletionCode(emptyFinal, summary)
    ensures record.NotRecorded? && lifecycle ==> !storing.failure || storing.completion.Some?
    ensures record.CompanionFailed? && storing.completion.None? ==>
              && (record.code == "companion_segment_delivery_unknown" <==> EndsUnknown(sends))
              && (record.code == "companion_delivery_trace_incomplete" <==> EndsUntraced(sends, turns))
    ensures EndsUnknown(sends) || (sends != [] && EndsUntraced(sends, turns)) ==> !record.CompanionCompleted? && !record.Completed?
    ensures !companion ==> !record.CompanionCompleted? && !record.CompanionFailed?
    ensures companion && !markFails && old(slot.View()) == Window(false, false, false, false) ==> !record.BatchFailed?
  {
    var marked, failed := OpenWindow(slot, companion, markFails);
    var summary, error;
    sends, summary, error := DeliverSegments(turns, failed);
    record := RecordOf(error, marked, lifecycle, claimed, emptyFinal, summary, storing);
    RecordFollows(error, marked, lifecycle, claimed, emptyFinal, summary, storing);
    EndIsNamed(sends, turns, failed, error, summary);
    hide Settled, Ordered, Answered, RecordOf, FailureCode, CompletionCode, EndsUnknown, EndsUntraced;
  }

  /** Marks the start and opens the window; a cancelled window, or a start that cannot be marked, ends the delivery. */
  method OpenWindow(slot: DeliverySlot, companion: bool, markFails: bool) returns (marked: bool, error: Option<Error>)
    modifies slot
    ensures marked == (companion && !markFails && !old(slot.started) && !old(slot.finished))
    ensures slot.View() == if marked then Window(true, old(slot.published) || !old(slot.cancelled), old(slot.cancelled), false)
                           else old(slot.View())
    ensures error == if companion && markFails then Some(Other)
                     else if marked && (old(slot.published) || old(slot.cancelled)) then Some(DeliveryCancelled)
                     else None
  {
    error, marked := None, false;
    if companion {
      if markFails {
        error := Some(Other);
      } else {
        marked := slot.BeginDelivery();
      }
    }
    if marked {
      var published := slot.PublishWindow();
      if !published {
        error := Some(DeliveryCancelled);
      }
    }
  }

  lemma RecordFollows(error: Option<Error>, marked: bool, lifecycle: bool, reason: string, emptyFinal: bool, summary: Summary,
                      storing: Storing)
    ensures var record := RecordOf(error, marked, lifecycle, reason, emptyFinal, summary, storing);
            && (record.CompanionCompleted? || record.Completed? ==> error.None? && storing.completion.None?)
            && (record.CompanionCompleted? ==> marked && reason == "" && record.code == CompletionCode(emptyFinal, summary))
            && (record.NotRecorded? && lifecycle ==> !storing.failure || storing.completion.Some?)
            && (record.CompanionFailed? ==> marked)
            && (record.CompanionFailed? && storing.completion.None? ==> error.Some? && record.code == FailureCode(error.value))
            && (record.BatchFailed? ==> !marked)
  {
    hide FailureCode, CompletionCode;
  }

  /** How a delivery ended shows in the code of its error, if it has one. */
  lemma EndIsNamed(sends: seq<Send>, turns: seq<Turn>, failed: Option<Error>, error: Option<Error>, summary: Summary)
    requires Answered(sends, turns)
    requires failed.Some? ==> sends == [] && error == failed && !failed.value.DeliveryUnknown? && !failed.value.TraceIncomplete?
    requires error.None? ==> Settled(sends, |turns|, summary)
    requires failed.None? && error.Some? ==> Explains(error.value, sends, turns)
    ensures error.None? ==> !EndsUnknown(sends) && !EndsUntraced(sends, turns)
    ensures error.Some? ==>
              && (FailureCode(error.value) == "companion_segment_delivery_unknown" <==> EndsUnknown(sends))
              && (FailureCode(error.value) == "companion_delivery_trace_incomplete" <==> EndsUntraced(sends, turns))
  {
    if error.Some? {
      CodeNamesTheError(error.value);
    }
    hide FailureCode, Final, Count, FirstSent;
  }

  /**
   A terminal reason claimed by somebody else after the last segment does not make the batch fail, but it drops the
   code: the record says which segments arrived if and only if no reason was claimed and the record could be stored. When
   a reason was claimed and the plain completion is refused, as by a context that is already cancelled, nothing is recorded.
   */
  lemma CodeIsKeptUnlessClaimed(sends: seq<Send>, n: nat, summary: Summary, reason: string, storing: Storing)
    requires Settled(sends, n, summary) && n > 0
    ensures var record := RecordOf(None, true, true, reason, false, summary, storing);
            && (record.CompanionCompleted? <==> reason == "" && storing.completion.None?)
            && (record.Completed? <==> reason != "" && storing.completion.None?)
            && (record.NotRecorded? <==> storing.completion.Some? && (reason != "" || !storing.failure))
            && (record.CompanionCompleted? ==> (record.code == "" <==> forall i | 0 <= i < n :: Final(sends, i).value.Sent?))
  {
    CodeSaysWhatArrived(sends, n, summary);
  }

  /**
   For instance, one segment, rejected, and a `/cancel` that comes too late: recorded as a plain success, or not at all
   when the cancelled context reaches the store.
   */
  lemma RejectedYetCompleted() returns (sends: seq<Send>, summary: Summary)
    ensures Ordered(sends) && Settled(sends, 1, summary) && Final(sends, 0) == Some(Rejected(false))
    ensures RecordOf(None, true, true, "cancelled", false, summary, Storing(None, true)) == Completed("")
    ensures RecordOf(None, true, true, "cancelled", false, summary, Storing(Some(DeliveryCancelled), true)) == NotRecorded
  {
    var none := Summary(0, 0, 0, 0, "");
    var send := Send(0, false, Rejected(false), true);
    assert Settled([], 0, none);
    FinalNext([], send, 0);
    SettleNext([], send, 0, none);
    sends, summary := [] + [send], Tally(none, send.outcome);
  }
}
