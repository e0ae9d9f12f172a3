/**
 * Properties of the session orchestration of `connectToJarvis`
 * (Frontend/services/geminiService.ts): how an audio payload is scheduled,
 * what a source's `ended` event and an interruption do to the source set,
 * the request/response discipline of a tool-call batch, and what a failing
 * step of the message router leaves undone.
 */
module SessionLaws {
  import opened Types
  import opened AudioCodec
  import opened ToolExecutor
  import opened JarvisSession

  // ---------------------------------------------------------------------------
  // Enqueue

  /**
   * A payload of n bytes (n even) is one mono chunk of n / 2 frames, i.e.
   * n / 2 ticks: SPEAKING is signalled first, the chunk starts at
   * max(cursor, now), the cursor moves to the chunk's end, and the new
   * source joins the set.
   */
  lemma EnqueueSchedules(s: Snapshot, binary: string, now: nat)
    requires |binary| % 2 == 0 && |binary| > 0
    ensures var r := AudioStep(s, binary, now);
      var start := Max(s.nextStartTime, now);
      && r.1
      && r.0.trace == s.trace + [StateChanged(Speaking), SourceStarted(s.created, start, MonoSamples(CharsToBytes(binary)).value)]
      && r.0.nextStartTime == start + |binary| / 2
      && r.0.sources == s.sources + [s.created]
      && r.0.created == s.created + 1
  {
  }

  /** The cursor never moves back on an enqueue, ends at or after the device time, and a chunk arriving in time starts where the cursor was. */
  lemma EnqueueCursor(s: Snapshot, binary: string, now: nat)
    ensures var r := AudioStep(s, binary, now);
      && s.nextStartTime <= r.0.nextStartTime
      && now <= r.0.nextStartTime
      && (r.1 && now <= s.nextStartTime ==> r.0.trace[|r.0.trace| - 1].at == s.nextStartTime)
  {
  }

  /**
   * Two chunks, the second arriving before the first has finished playing:
   * the second starts exactly where the first ends, with no gap and no overlap.
   */
  lemma BackToBack(s: Snapshot, first: string, second: string, now1: nat, now2: nat)
    requires |first| % 2 == 0 && |second| % 2 == 0 && |first| > 0 && |second| > 0
    requires now2 <= AudioStep(s, first, now1).0.nextStartTime
    ensures var s1 := AudioStep(s, first, now1).0;
      var s2 := AudioStep(s1, second, now2).0;
      var a := s1.trace[|s1.trace| - 1];
      var b := s2.trace[|s2.trace| - 1];
      && a.SourceStarted? && b.SourceStarted?
      && b.at == a.at + |first| / 2
      && a.source != b.source
  {
    EnqueueSchedules(s, first, now1);
    EnqueueSchedules(AudioStep(s, first, now1).0, second, now2);
  }

  /**
   * Chunks of 1.0 s, 0.5 s and 2.0 s (24000, 12000 and 48000 frames)
   * enqueued on an idle device at time 0 start at 0, 1.0 s and 1.5 s, and
   * leave the cursor at 3.5 s.
   */
  lemma ThreeChunksBackToBack(s: Snapshot, a: string, b: string, c: string)
    requires s.nextStartTime == 0
    requires |a| == 48000 && |b| == 24000 && |c| == 96000
    ensures var s1 := AudioStep(s, a, 0).0;
      var s2 := AudioStep(s1, b, 0).0;
      var s3 := AudioStep(s2, c, 0).0;
      && s1.trace[|s1.trace| - 1].at == 0
      && s2.trace[|s2.trace| - 1].at == 24000
      && s3.trace[|s3.trace| - 1].at == 36000
      && s3.nextStartTime == 84000
  {
    EnqueueSchedules(s, a, 0);
    var s1 := AudioStep(s, a, 0).0;
    EnqueueSchedules(s1, b, 0);
    EnqueueSchedules(AudioStep(s1, b, 0).0, c, 0);
  }

  /**
   * A payload of odd byte length cannot be viewed as 16-bit samples, and an
   * empty one gives a buffer of no frames: after SPEAKING and the cursor
   * update, nothing is scheduled.
   */
  lemma UndecodablePayloadSchedulesNothing(s: Snapshot, binary: string, now: nat)
    requires |binary| % 2 == 1 || |binary| == 0
    ensures AudioStep(s, binary, now)
      == (s.(trace := s.trace + [StateChanged(Speaking)], nextStartTime := Max(s.nextStartTime, now)), false)
  {
  }

  // ---------------------------------------------------------------------------
  // `ended` and interruption

  /** Removing a member of a list of distinct ids removes exactly one element. */
  lemma {:induction false} RemoveLength(ids: seq<SourceId>, id: SourceId)
    requires Distinct(ids)
    ensures |Remove(ids, id)| == if id in ids then |ids| - 1 else |ids|
  {
    if ids != [] {
      assert Distinct(ids[1..]);
      RemoveLength(ids[1..], id);
      if ids[0] == id {
        assert id !in ids[1..];
      }
    }
  }

  /**
   * A source's `ended` event: it leaves the set (which shrinks by one if it
   * was still there), and LISTENING is signalled exactly when the set is
   * then empty. The cursor is not touched.
   */
  lemma EndedRemovesSource(s: Snapshot, id: SourceId)
    requires SourcesValid(s)
    ensures var r := Ended(s, id);
      && id !in r.sources
      && (forall x :: x in r.sources <==> x in s.sources && x != id)
      && |r.sources| == (if id in s.sources then |s.sources| - 1 else |s.sources|)
      && r.trace == (if r.sources == [] then s.trace + [StateChanged(Listening)] else s.trace)
      && r.nextStartTime == s.nextStartTime && r.created == s.created
  {
    RemoveLength(s.sources, id);
  }

  /**
   * An interruption stops every source of the set once, in the set's order,
   * and no other; the set ends empty, the cursor is back at 0 and LISTENING
   * is the last event, however many chunks were queued.
   */
  lemma InterruptStopsEverySource(s: Snapshot)
    requires SourcesValid(s)
    ensures var r := Interrupted(s);
      var stops := r.trace[|s.trace|..|r.trace| - 1];
      && s.trace <= r.trace
      && r.sources == [] && r.nextStartTime == 0
      && r.trace[|r.trace| - 1] == StateChanged(Listening)
      && |stops| == |s.sources|
      && (forall i :: 0 <= i < |stops| ==> stops[i] == SourceStopped(s.sources[i]))
      && (forall id :: SourceStopped(id) in stops <==> id in s.sources)
      && (forall i, j :: 0 <= i < j < |stops| ==> stops[i] != stops[j])
  {
    var r := Interrupted(s);
    var stops := r.trace[|s.trace|..|r.trace| - 1];
    assert stops == StopAll(s.sources);
    forall id | SourceStopped(id) in stops ensures id in s.sources {
      var i :| 0 <= i < |stops| && stops[i] == SourceStopped(id);
      assert s.sources[i] == id;
    }
  }

  // ---------------------------------------------------------------------------
  // Tool-call batches

  predicate IsExchange(e: Event)
  {
    e.ToolCallObserved? || e.ToolResponseSent?
  }

  /** The notifications to the application and the responses to the server, in order; everything else dropped. */
  function Exchanges(evs: seq<Event>): (r: seq<Event>)
    ensures |r| <= |evs|
    ensures forall e :: e in r ==> e in evs && IsExchange(e)
  {
    if evs == [] then []
    else (if IsExchange(evs[0]) then [evs[0]] else []) + Exchanges(evs[1..])
  }

  lemma {:induction false} ExchangesAppend(a: seq<Event>, b: seq<Event>)
    ensures Exchanges(a + b) == Exchanges(a) + Exchanges(b)
  {
    if a == [] {
      assert a + b == b;
    } else {
      assert (a + b)[1..] == a[1..] + b;
      ExchangesAppend(a[1..], b);
    }
  }

  predicate AllReturn(calls: seq<FunctionCall>, run: FunctionCall -> Dispatch)
  {
    forall i :: 0 <= i < |calls| ==> run(calls[i]).Done?
  }

  /**
   * The intended discipline of a batch of calls that all return: for call i,
   * the notification `onToolCall(name, args)` at position 2i and its response,
   * carrying the call's id and name and the JSON of its result, at 2i + 1.
   */
  function Alternating(calls: seq<FunctionCall>, run: FunctionCall -> Dispatch): (r: seq<Event>)
    requires AllReturn(calls, run)
    ensures |r| == 2 * |calls|
  {
    seq(2 * |calls|, k requires 0 <= k < 2 * |calls| =>
      if k % 2 == 0 then ToolCallObserved(calls[k / 2].name, calls[k / 2].args)
      else ToolResponseSent(calls[k / 2].id, calls[k / 2].name, ResultJson(run(calls[k / 2]).result)))
  }

  lemma AlternatingCons(calls: seq<FunctionCall>, run: FunctionCall -> Dispatch)
    requires calls != [] && AllReturn(calls, run)
    ensures Alternating(calls, run) ==
      [ToolCallObserved(calls[0].name, calls[0].args), Response(calls[0], run(calls[0]).result)]
      + Alternating(calls[1..], run)
  {
    var rest := calls[1..];
    assert AllReturn(rest, run) by {
      forall i | 0 <= i < |rest| ensures run(rest[i]).Done? {
        assert rest[i] == calls[i + 1];
      }
    }
    var lhs := Alternating(calls, run);
    var rhs := [ToolCallObserved(calls[0].name, calls[0].args), Response(calls[0], run(calls[0]).result)]
      + Alternating(rest, run);
    forall k | 2 <= k < |lhs| ensures lhs[k] == rhs[k] {
      assert (k - 2) / 2 == k / 2 - 1 && (k - 2) % 2 == k % 2;
      assert rest[k / 2 - 1] == calls[k / 2];
    }
  }

  /** The exchanges of one call that returns: its notification, then its response. */
  lemma ReturningCallExchanges(fc: FunctionCall, run: FunctionCall -> Dispatch)
    requires run(fc).Done?
    ensures CallEvents(fc, run).1
    ensures Exchanges(CallEvents(fc, run).0) ==
      [ToolCallObserved(fc.name, fc.args), Response(fc, run(fc).result)]
  {
    var nav := NavigationEvents(run(fc).navigation);
    ExchangesAppend([ToolCallObserved(fc.name, fc.args)], nav);
    ExchangesAppend([ToolCallObserved(fc.name, fc.args)] + nav, [Response(fc, run(fc).result)]);
    if nav != [] {
      assert Exchanges(nav) == Exchanges(nav[1..]);
    }
  }

  /**
   * A batch whose calls all return answers every call: one notification and
   * then one response per call, in arrival order, each response carrying its
   * call's id and name.
   */
  lemma {:induction false} BatchAnswersEveryCall(calls: seq<FunctionCall>, from: nat, run: FunctionCall -> Dispatch)
    requires from <= |calls| && AllReturn(calls[from..], run)
    ensures BatchEvents(calls, from, run).1
    ensures Exchanges(BatchEvents(calls, from, run).0) == Alternating(calls[from..], run)
    decreases |calls| - from
  {
    var rest := calls[from..];
    if from < |calls| {
      assert rest[0] == calls[from];
      assert rest[1..] == calls[from + 1..];
      ReturningCallExchanges(calls[from], run);
      AlternatingCons(rest, run);
      BatchAnswersEveryCall(calls, from + 1, run);
      ExchangesAppend(CallEvents(calls[from], run).0, BatchEvents(calls, from + 1, run).0);
    } else {
      assert Alternating(rest, run) == [];
    }
  }

  /**
   * The first call that throws ends the batch: the calls before it are
   * answered as usual, it is notified but never answered, and no later call
   * is even notified.
   */
  lemma {:induction false} BatchStopsAtFirstThrow(calls: seq<FunctionCall>, from: nat, k: nat, run: FunctionCall -> Dispatch)
    requires from <= k < |calls| && run(calls[k]).Threw? && AllReturn(calls[from..k], run)
    ensures !BatchEvents(calls, from, run).1
    ensures Exchanges(BatchEvents(calls, from, run).0) ==
      Alternating(calls[from..k], run) + [ToolCallObserved(calls[k].name, calls[k].args)]
    decreases k - from
  {
    var done := calls[from..k];
    if from == k {
      assert done == [];
      assert Exchanges([ToolCallObserved(calls[k].name, calls[k].args)]) == [ToolCallObserved(calls[k].name, calls[k].args)];
      assert Alternating(done, run) == [];
    } else {
      assert done[0] == calls[from];
      assert done[1..] == calls[from + 1..k];
      ReturningCallExchanges(calls[from], run);
      AlternatingCons(done, run);
      BatchStopsAtFirstThrow(calls, from + 1, k, run);
      ExchangesAppend(CallEvents(calls[from], run).0, BatchEvents(calls, from + 1, run).0);
    }
  }

  /** A batch signals no state change of its own. */
  lemma {:induction false} BatchChangesNoState(calls: seq<FunctionCall>, from: nat, run: FunctionCall -> Dispatch)
    requires from <= |calls|
    ensures forall e :: e in BatchEvents(calls, from, run).0 ==> !e.StateChanged?
    decreases |calls| - from
  {
    if from < |calls| {
      BatchChangesNoState(calls, from + 1, run);
    }
  }

  /**
   * A message carrying `functionCalls` signals THINKING exactly once, before
   * the batch, even when the list is empty.
   */
  lemma ThinkingOncePerBatch(s: Snapshot, m: ServerMessage, run: FunctionCall -> Dispatch)
    requires m.toolCalls.Some?
    ensures var r := ToolPart(s, m, run).0;
      && r.trace[..|s.trace| + 1] == s.trace + [StateChanged(Thinking)]
      && (forall e :: e in r.trace[|s.trace| + 1..] ==> !e.StateChanged?)
      && (m.toolCalls.value == [] ==> ToolPart(s, m, run) == (Emit(s, StateChanged(Thinking)), true))
  {
    BatchChangesNoState(m.toolCalls.value, 0, run);
    var r := ToolPart(s, m, run).0;
    assert r.trace[|s.trace| + 1..] == BatchEvents(m.toolCalls.value, 0, run).0;
    if m.toolCalls.value == [] {
      assert BatchEvents(m.toolCalls.value, 0, run) == ([], true);
      assert s.trace + [StateChanged(Thinking)] + [] == s.trace + [StateChanged(Thinking)];
    }
  }

  // ---------------------------------------------------------------------------
  // The router

  /**
   * An audio payload of odd byte length rejects the handler after SPEAKING:
   * no source is scheduled, no tool runs, and neither `turnComplete` nor
   * `interrupted` is acted on.
   */
  lemma OddAudioAbortsMessage(s: Snapshot, m: ServerMessage, now: nat, encodeComponent: string -> string)
    requires HasAudio(m) && |m.audio.value| % 2 == 1
    ensures var r := Route(s, m, now, encodeComponent);
      var t := Transcripts(s, m);
      && !r.1
      && r.0.trace == t.trace + [StateChanged(Speaking)]
      && r.0.sources == s.sources
      && r.0.nextStartTime == Max(s.nextStartTime, now)
  {
    UndecodablePayloadSchedulesNothing(Transcripts(s, m), m.audio.value, now);
  }

  /**
   * A tool that throws rejects the handler: its notification is the last
   * effect of the message, so `turnComplete` and `interrupted` are not acted
   * on and the playback state is what the audio step left.
   */
  lemma ThrowingToolAbortsMessage(s: Snapshot, m: ServerMessage, now: nat, encodeComponent: string -> string, k: nat)
    requires AudioPart(Transcripts(s, m), m, now).1
    requires m.toolCalls.Some? && k < |m.toolCalls.value|
    requires Executor(encodeComponent)(m.toolCalls.value[k]).Threw?
    requires AllReturn(m.toolCalls.value[..k], Executor(encodeComponent))
    ensures var r := Route(s, m, now, encodeComponent);
      var a := AudioPart(Transcripts(s, m), m, now).0;
      var fc := m.toolCalls.value[k];
      && !r.1
      && r.0.trace[|r.0.trace| - 1] == ToolCallObserved(fc.name, fc.args)
      && r.0.sources == a.sources && r.0.nextStartTime == a.nextStartTime
  {
    var calls := m.toolCalls.value;
    var run := Executor(encodeComponent);
    BatchStopsAtFirstThrow(calls, 0, k, run);
    LastThrows(calls, 0, k, run);
  }

  /** When the batch stops at call k, its last event is call k's notification. */
  lemma {:induction false} LastThrows(calls: seq<FunctionCall>, from: nat, k: nat, run: FunctionCall -> Dispatch)
    requires from <= k < |calls| && run(calls[k]).Threw? && AllReturn(calls[from..k], run)
    ensures var b := BatchEvents(calls, from, run).0;
      |b| > 0 && b[|b| - 1] == ToolCallObserved(calls[k].name, calls[k].args)
    decreases k - from
  {
    if from < k {
      assert calls[from..k][0] == calls[from];
      assert calls[from + 1..k] == calls[from..k][1..];
      LastThrows(calls, from + 1, k, run);
    }
  }

  /** Without an interruption, handling a message never moves the playback cursor back. */
  lemma CursorMonotoneWithoutInterrupt(s: Snapshot, m: ServerMessage, now: nat, encodeComponent: string -> string)
    requires !m.interrupted
    ensures s.nextStartTime <= Route(s, m, now, encodeComponent).0.nextStartTime
  {
  }
}
