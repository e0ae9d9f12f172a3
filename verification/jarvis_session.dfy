/**
 * The session orchestration of `connectToJarvis`
 * (Frontend/services/geminiService.ts): the playback scheduler (a cursor
 * `nextStartTime` and the set `sources` of scheduled audio sources), the
 * router that handles each inbound server message, the tool-call loop that
 * answers every function call, and the close routine that releases the
 * microphone and both audio contexts.
 *
 * The remote channel, the audio devices, the browser window and the
 * application's callbacks are not called: every effect on them is appended,
 * in order, to the session's `trace`. Time is counted in ticks of the output
 * context's sample clock (1/24000 s), so a chunk of n mono frames lasts n
 * ticks. Each message is handled to completion before the next one.
 */
module JarvisSession {
  import opened Types
  import opened AudioCodec
  import opened ToolExecutor

  /** Identity of one scheduled AudioBufferSourceNode. */
  type SourceId = nat

  /** One entry of `toolCall.functionCalls`. */
  datatype FunctionCall = FunctionCall(id: string, name: string, args: Args)

  /**
   * The fields of a LiveServerMessage the router looks at. `audio` is the
   * inline data of the model turn's first part, as the binary string `atob`
   * makes of it.
   */
  datatype ServerMessage = ServerMessage(
    inputTranscription: Option<string>,
    outputTranscription: Option<string>,
    audio: Option<string>,
    toolCalls: Option<seq<FunctionCall>>,
    turnComplete: bool,
    interrupted: bool)

  /** Every effect a session has on the world outside it. */
  datatype Event =
    // callbacks into the application
    | StateChanged(state: AppState)
    | UserTranscription(text: string)
    | JarvisTranscription(text: string)
    | TurnCompleted
    | ToolCallObserved(name: string, args: Args)
    | ErrorReported
    // the browser window
    | Navigated(navigation: Navigation)
    // the remote channel
    | RealtimeInputSent(blob: RealtimeBlob)
    | ToolResponseSent(id: string, name: string, result: string)
    | ChannelCloseRequested
    // the audio devices and the microphone
    | InputContextCreated
    | OutputContextCreated
    | SourceStarted(source: SourceId, at: nat, samples: seq<real>)
    | SourceStopped(source: SourceId)
    | TracksStopped
    | InputContextClosed
    | OutputContextClosed

  /** The session's mutable state, as a value. `created` counts the sources created so far. */
  datatype Snapshot = Snapshot(nextStartTime: nat, sources: seq<SourceId>, created: nat, trace: seq<Event>)

  function Max(a: nat, b: nat): nat
  {
    if a < b then b else a
  }

  predicate Distinct(ids: seq<SourceId>)
  {
    forall i, j :: 0 <= i < j < |ids| ==> ids[i] != ids[j]
  }

  /** The scheduler's invariant: the active sources are distinct and were all created. */
  predicate SourcesValid(s: Snapshot)
  {
    Distinct(s.sources) && forall i :: 0 <= i < |s.sources| ==> s.sources[i] < s.created
  }

  function Emit(s: Snapshot, e: Event): Snapshot
  {
    s.(trace := s.trace + [e])
  }

  // ---------------------------------------------------------------------------
  // Playback scheduler

  /**
   * An audio payload: SPEAKING is signalled and the cursor moves up to the
   * device time; then the payload is decoded, and if that succeeds a new
   * source plays it at the cursor, the cursor advances by its duration and
   * the source joins the set. A payload of odd byte length, or one of no
   * frames, fails to decode (false), after the first two steps.
   */
  function AudioStep(s: Snapshot, binary: string, now: nat): (Snapshot, bool)
  {
    var s1 := Emit(s, StateChanged(Speaking)).(nextStartTime := Max(s.nextStartTime, now));
    match MonoSamples(CharsToBytes(binary))
    case None => (s1, false)
    case Some(samples) =>
      (s1.(nextStartTime := s1.nextStartTime + |samples|,
           sources := s1.sources + [s1.created],
           created := s1.created + 1,
           trace := s1.trace + [SourceStarted(s1.created, s1.nextStartTime, samples)]), true)
  }

  /** `sources.delete(id)`. */
  function Remove(ids: seq<SourceId>, id: SourceId): (r: seq<SourceId>)
    ensures forall x :: x in r <==> x in ids && x != id
    ensures |r| <= |ids|
  {
    if ids == [] then []
    else if ids[0] == id then Remove(ids[1..], id)
    else [ids[0]] + Remove(ids[1..], id)
  }

  /** A source's `ended` event: it leaves the set, and LISTENING is signalled if the set is then empty. */
  function Ended(s: Snapshot, id: SourceId): Snapshot
  {
    var s1 := s.(sources := Remove(s.sources, id));
    if s1.sources == [] then Emit(s1, StateChanged(Listening)) else s1
  }

  /** The stop calls for the given sources, in order. */
  function StopAll(ids: seq<SourceId>): (r: seq<Event>)
    ensures |r| == |ids|
    ensures forall i :: 0 <= i < |ids| ==> r[i] == SourceStopped(ids[i])
  {
    seq(|ids|, i requires 0 <= i < |ids| => SourceStopped(ids[i]))
  }

  /** An `interrupted` signal: stop every source, empty the set, reset the cursor, signal LISTENING. */
  function Interrupted(s: Snapshot): Snapshot
  {
    s.(sources := [], nextStartTime := 0, trace := s.trace + StopAll(s.sources) + [StateChanged(Listening)])
  }

  // ---------------------------------------------------------------------------
  // Tool calls

  /** `JSON.stringify(result)` of a `{ success }` object. */
  function ResultJson(r: ToolResult): string
  {
    if r.success then "{\"success\":true}" else "{\"success\":false}"
  }

  function NavigationEvents(nav: Navigation): seq<Event>
  {
    if nav == NoNavigation then [] else [Navigated(nav)]
  }

  /** The response sent for a call whose tool returned `result`. */
  function Response(fc: FunctionCall, result: ToolResult): Event
  {
    ToolResponseSent(fc.id, fc.name, ResultJson(result))
  }

  /** The session's tool runner: the tool executor applied to a call's name and arguments. */
  function Executor(encodeComponent: string -> string): FunctionCall -> Dispatch
  {
    (fc: FunctionCall) => ExecuteTool(fc.name, fc.args, encodeComponent)
  }

  /**
   * One function call: notify the application, run the tool, send the
   * response with the call's id and name. A tool that throws ends the
   * handler before its response (false).
   */
  function CallEvents(fc: FunctionCall, run: FunctionCall -> Dispatch): (seq<Event>, bool)
  {
    match run(fc)
    case Threw(_) => ([ToolCallObserved(fc.name, fc.args)], false)
    case Done(result, nav) =>
      ([ToolCallObserved(fc.name, fc.args)] + NavigationEvents(nav) + [Response(fc, result)], true)
  }

  /**
   * The calls of a batch from index `from` on, strictly one after another,
   * up to the first that throws; the flag says whether none threw.
   */
  function BatchEvents(calls: seq<FunctionCall>, from: nat, run: FunctionCall -> Dispatch): (seq<Event>, bool)
    requires from <= |calls|
    decreases |calls| - from
  {
    if from == |calls| then ([], true)
    else
      var first := CallEvents(calls[from], run);
      if !first.1 then first
      else
        var rest := BatchEvents(calls, from + 1, run);
        (first.0 + rest.0, rest.1)
  }

  lemma AppendAssociates(a: seq<Event>, b: seq<Event>, c: seq<Event>)
    ensures (a + b) + c == a + (b + c)
  {
  }

  // ---------------------------------------------------------------------------
  // The message router

  function Transcripts(s: Snapshot, m: ServerMessage): Snapshot
  {
    var s1 := if m.inputTranscription.Some? then Emit(s, UserTranscription(m.inputTranscription.value)) else s;
    if m.outputTranscription.Some? then Emit(s1, JarvisTranscription(m.outputTranscription.value)) else s1
  }

  /** An empty payload is falsy and skipped. */
  predicate HasAudio(m: ServerMessage)
  {
    m.audio.Some? && m.audio.value != ""
  }

  function AudioPart(s: Snapshot, m: ServerMessage, now: nat): (Snapshot, bool)
  {
    if HasAudio(m) then AudioStep(s, m.audio.value, now) else (s, true)
  }

  function ToolPart(s: Snapshot, m: ServerMessage, run: FunctionCall -> Dispatch): (Snapshot, bool)
  {
    match m.toolCalls
    case None => (s, true)
    case Some(calls) =>
      var batch := BatchEvents(calls, 0, run);
      (s.(trace := s.trace + [StateChanged(Thinking)] + batch.0), batch.1)
  }

  function FlagsPart(s: Snapshot, m: ServerMessage): Snapshot
  {
    var s1 := if m.turnComplete then Emit(s, TurnCompleted) else s;
    if m.interrupted then Interrupted(s1) else s1
  }

  /**
   * `onmessage`: the user transcript, the assistant transcript, the audio,
   * the tool-call batch, turn completion and interruption, in that order. A
   * failure (undecodable audio, a throwing tool) rejects the handler and
   * skips everything after it (false).
   */
  function Route(s: Snapshot, m: ServerMessage, now: nat, encodeComponent: string -> string): (Snapshot, bool)
  {
    var audio := AudioPart(Transcripts(s, m), m, now);
    if !audio.1 then audio
    else
      var tools := ToolPart(audio.0, m, Executor(encodeComponent));
      if !tools.1 then tools
      else (FlagsPart(tools.0, m), true)
  }

  // ---------------------------------------------------------------------------
  // The session object

  /** Why `connectToJarvis` rejects. */
  datatype ConnectError = MissingApiKey | MediaAccessDenied | ChannelFailed

  /** No audio context is closed by these events. */
  predicate ReleaseFree(evs: seq<Event>)
  {
    InputContextClosed !in evs && OutputContextClosed !in evs
  }

  /** Appending events that close no context closes nothing new. */
  lemma AppendReleaseFree(trace: seq<Event>, evs: seq<Event>)
    requires ReleaseFree(evs)
    ensures SameReleases(trace, trace + evs)
  {
  }

  /** `e` occurs at most once in `trace`. */
  predicate AtMostOnce(trace: seq<Event>, e: Event)
  {
    forall i, j :: 0 <= i < j < |trace| && trace[i] == e ==> trace[j] != e
  }

  /** Both traces have closed the same audio contexts, and none twice if `before` did not. */
  predicate SameReleases(before: seq<Event>, after: seq<Event>)
  {
    && (InputContextClosed in after <==> InputContextClosed in before)
    && (OutputContextClosed in after <==> OutputContextClosed in before)
    && (AtMostOnce(before, InputContextClosed) ==> AtMostOnce(after, InputContextClosed))
    && (AtMostOnce(before, OutputContextClosed) ==> AtMostOnce(after, OutputContextClosed))
  }

  /** `after` is `before` with events appended, keeps the scheduler's invariant and closes no context. */
  predicate Extends(before: Snapshot, after: Snapshot)
  {
    SourcesValid(after) && before.trace <= after.trace && SameReleases(before.trace, after.trace)
  }

  /** The closure state of one `connectToJarvis` call. */
  class Session {
    var nextStartTime: nat
    var sources: seq<SourceId>
    var created: nat
    var trace: seq<Event>
    var inputClosed: bool
    var outputClosed: bool

    function Snap(): Snapshot
      reads this
    {
      Snapshot(nextStartTime, sources, created, trace)
    }

    /**
     * The sources are distinct and created; an audio context is closed
     * exactly when the trace holds its close.
     */
    ghost predicate Valid()
      reads this
    {
      && SourcesValid(Snap())
      && (inputClosed <==> InputContextClosed in trace)
      && (outputClosed <==> OutputContextClosed in trace)
      && AtMostOnce(trace, InputContextClosed) && AtMostOnce(trace, OutputContextClosed)
    }

    constructor Open(setup: seq<Event>)
      requires ReleaseFree(setup)
      ensures Valid()
      ensures Snap() == Snapshot(0, [], 0, setup)
      ensures !inputClosed && !outputClosed
    {
      nextStartTime, sources, created, trace := 0, [], 0, setup;
      inputClosed, outputClosed := false, false;
    }

    /** The `onaudioprocess` handler: one captured block is sent as one realtime-input message. */
    method OnAudioProcess(block: seq<real>)
      requires Valid()
      modifies this
      ensures Valid()
      ensures Snap() == Emit(old(Snap()), RealtimeInputSent(RealtimeBlob(PcmPayload(block), "audio/pcm;rate=16000")))
      ensures inputClosed == old(inputClosed) && outputClosed == old(outputClosed)
    {
      var blob := CreatePcmBlob(block);
      AppendReleaseFree(trace, [RealtimeInputSent(blob)]);
      trace := trace + [RealtimeInputSent(blob)];
    }

    /** Lines 209-226 of the handler: schedule one audio payload. */
    method PlayAudio(binary: string, now: nat) returns (ok: bool)
      requires Valid()
      modifies this
      ensures Valid()
      ensures (Snap(), ok) == AudioStep(old(Snap()), binary, now)
      ensures inputClosed == old(inputClosed) && outputClosed == old(outputClosed)
    {
      AudioStepExtends(Snap(), binary, now);
      ghost var want := AudioStep(Snap(), binary, now);
      trace := trace + [StateChanged(Speaking)];
      nextStartTime := Max(nextStartTime, now);
      var bytes := Decode(binary);
      var buffer := DecodeAudioData(bytes, 1);
      if buffer.None? {
        assert (Snap(), false) == want;
        return false;
      }
      MonoDeInterleave(bytes);
      var samples := buffer.value[0];
      var src := created;
      created := created + 1;
      trace := trace + [SourceStarted(src, nextStartTime, samples)];
      nextStartTime := nextStartTime + |samples|;
      sources := sources + [src];
      ok := true;
      assert (Snap(), ok) == want;
    }

    /** The `ended` listener of source `id`. */
    method OnEnded(id: SourceId)
      requires Valid()
      modifies this
      ensures Valid()
      ensures Snap() == Ended(old(Snap()), id)
      ensures inputClosed == old(inputClosed) && outputClosed == old(outputClosed)
    {
      EndedKeepsInvariant(Snap(), id);
      sources := Remove(sources, id);
      if sources == [] {
        trace := trace + [StateChanged(Listening)];
      }
    }

    /** Lines 250-257 of the handler: stop and drop every source, reset the cursor. */
    method Interrupt()
      modifies this
      ensures Snap() == Interrupted(old(Snap()))
      ensures inputClosed == old(inputClosed) && outputClosed == old(outputClosed)
    {
      ghost var stopped: seq<SourceId> := [];
      while sources != []
        invariant old(sources) == stopped + sources
        invariant trace == old(trace) + StopAll(stopped)
        invariant nextStartTime == old(nextStartTime) && created == old(created)
        invariant inputClosed == old(inputClosed) && outputClosed == old(outputClosed)
        decreases |sources|
      {
        var src := sources[0];
        trace := trace + [SourceStopped(src)];
        sources := sources[1..];
        stopped := stopped + [src];
      }
      nextStartTime := 0;
      trace := trace + [StateChanged(Listening)];
    }

    /** Lines 233-244 of the handler: notify, execute and answer one function call. */
    method RunCall(fc: FunctionCall, run: FunctionCall -> Dispatch) returns (ok: bool)
      modifies this
      ensures trace == old(trace) + CallEvents(fc, run).0
      ensures ok == CallEvents(fc, run).1
      ensures nextStartTime == old(nextStartTime) && sources == old(sources) && created == old(created)
      ensures inputClosed == old(inputClosed) && outputClosed == old(outputClosed)
    {
      trace := trace + [ToolCallObserved(fc.name, fc.args)];
      var dispatch := run(fc);
      if dispatch.Threw? {
        return false;
      }
      trace := trace + NavigationEvents(dispatch.navigation) + [Response(fc, dispatch.result)];
      ok := true;
    }

    /** Lines 232-245 of the handler: answer each function call in turn. */
    method RunToolCalls(calls: seq<FunctionCall>, run: FunctionCall -> Dispatch) returns (ok: bool)
      modifies this
      ensures trace == old(trace) + BatchEvents(calls, 0, run).0
      ensures ok == BatchEvents(calls, 0, run).1
      ensures nextStartTime == old(nextStartTime) && sources == old(sources) && created == old(created)
      ensures inputClosed == old(inputClosed) && outputClosed == old(outputClosed)
    {
      ghost var total := trace + BatchEvents(calls, 0, run).0;
      var i := 0;
      while i < |calls|
        invariant 0 <= i <= |calls|
        invariant trace + BatchEvents(calls, i, run).0 == total
        invariant BatchEvents(calls, i, run).1 == BatchEvents(calls, 0, run).1
        invariant nextStartTime == old(nextStartTime) && sources == old(sources) && created == old(created)
        invariant inputClosed == old(inputClosed) && outputClosed == old(outputClosed)
      {
        ghost var before := trace;
        ghost var first := CallEvents(calls[i], run);
        ghost var rest := BatchEvents(calls, i + 1, run);
        assert BatchEvents(calls, i, run) == if first.1 then (first.0 + rest.0, rest.1) else first;
        var answered := RunCall(calls[i], run);
        if !answered {
          return false;
        }
        AppendAssociates(before, first.0, rest.0);
        i := i + 1;
      }
      ok := true;
    }

    /** Lines 197-205 of the handler: forward the transcript fragments. */
    method ForwardTranscripts(m: ServerMessage)
      requires Valid()
      modifies this
      ensures Valid()
      ensures Snap() == Transcripts(old(Snap()), m)
      ensures inputClosed == old(inputClosed) && outputClosed == old(outputClosed)
    {
      if m.inputTranscription.Some? {
        trace := trace + [UserTranscription(m.inputTranscription.value)];
      }
      if m.outputTranscription.Some? {
        trace := trace + [JarvisTranscription(m.outputTranscription.value)];
      }
    }

    /** Lines 228-246 of the handler: signal THINKING and answer the batch. */
    method AnswerToolCalls(m: ServerMessage, run: FunctionCall -> Dispatch) returns (ok: bool)
      requires Valid()
      modifies this
      ensures Valid()
      ensures (Snap(), ok) == ToolPart(old(Snap()), m, run)
      ensures inputClosed == old(inputClosed) && outputClosed == old(outputClosed)
    {
      ToolPartExtends(Snap(), m, run);
      ok := true;
      if m.toolCalls.Some? {
        trace := trace + [StateChanged(Thinking)];
        ok := RunToolCalls(m.toolCalls.value, run);
      }
    }

    /** Lines 248-257 of the handler: turn completion, then interruption. */
    method HandleFlags(m: ServerMessage)
      requires Valid()
      modifies this
      ensures Valid()
      ensures Snap() == FlagsPart(old(Snap()), m)
      ensures inputClosed == old(inputClosed) && outputClosed == old(outputClosed)
    {
      FlagsPartExtends(Snap(), m);
      if m.turnComplete {
        trace := trace + [TurnCompleted];
      }
      if m.interrupted {
        Interrupt();
      }
    }

    /** `onmessage`: route one server message. */
    method HandleMessage(m: ServerMessage, now: nat, encodeComponent: string -> string) returns (completed: bool)
      requires Valid()
      modifies this
      ensures Valid()
      ensures (Snap(), completed) == Route(old(Snap()), m, now, encodeComponent)
      ensures inputClosed == old(inputClosed) && outputClosed == old(outputClosed)
    {
      ForwardTranscripts(m);
      completed := true;
      if HasAudio(m) {
        completed := PlayAudio(m.audio.value, now);
      }
      if completed {
        completed := AnswerToolCalls(m, Executor(encodeComponent));
        if completed {
          HandleFlags(m);
        }
      }
    }

    /** `onerror`: report the channel error to the application. */
    method OnError()
      requires Valid()
      modifies this
      ensures Valid()
      ensures Snap() == Emit(old(Snap()), ErrorReported)
      ensures inputClosed == old(inputClosed) && outputClosed == old(outputClosed)
    {
      AppendReleaseFree(trace, [ErrorReported]);
      trace := trace + [ErrorReported];
    }

    /** The handle's `close`: ask the remote channel to close. */
    method Close()
      requires Valid()
      modifies this
      ensures Valid()
      ensures Snap() == Emit(old(Snap()), ChannelCloseRequested)
      ensures inputClosed == old(inputClosed) && outputClosed == old(outputClosed)
    {
      AppendReleaseFree(trace, [ChannelCloseRequested]);
      trace := trace + [ChannelCloseRequested];
    }

    /**
     * `onclose`: stop the microphone tracks, then close each audio context
     * that is not closed yet. A context's close is appended only while the
     * trace does not hold one, so however often this runs each context is
     * closed at most once.
     */
    method OnClose()
      requires Valid()
      modifies this
      ensures Valid()
      ensures inputClosed && outputClosed
      ensures trace == old(trace) + CloseEvents(old(inputClosed), old(outputClosed))
      ensures nextStartTime == old(nextStartTime) && sources == old(sources) && created == old(created)
    {
      CloseKeepsValid(trace, inputClosed, outputClosed);
      ghost var closing := CloseEvents(inputClosed, outputClosed);
      trace := trace + [TracksStopped];
      if !inputClosed {
        trace := trace + [InputContextClosed];
        inputClosed := true;
      }
      if !outputClosed {
        trace := trace + [OutputContextClosed];
        outputClosed := true;
      }
      assert trace == old(trace) + closing;
    }
  }

  /**
   * The close routine keeps each close event at most once, and afterwards
   * both contexts are closed.
   */
  lemma CloseKeepsValid(trace: seq<Event>, inputClosed: bool, outputClosed: bool)
    requires AtMostOnce(trace, InputContextClosed) && AtMostOnce(trace, OutputContextClosed)
    requires (inputClosed <==> InputContextClosed in trace) && (outputClosed <==> OutputContextClosed in trace)
    ensures var after := trace + CloseEvents(inputClosed, outputClosed);
      && AtMostOnce(after, InputContextClosed) && AtMostOnce(after, OutputContextClosed)
      && InputContextClosed in after && OutputContextClosed in after
  {
    var after := trace + CloseEvents(inputClosed, outputClosed);
    assert after[|trace|] == TracksStopped;
    if !inputClosed {
      assert after[|trace| + 1] == InputContextClosed;
    }
    if !outputClosed {
      assert after[|after| - 1] == OutputContextClosed;
    }
  }

  /**
   * The effects of `onclose`: the microphone tracks are stopped, and each
   * audio context is closed unless it already is.
   */
  function CloseEvents(inputClosed: bool, outputClosed: bool): seq<Event>
  {
    [TracksStopped]
      + (if inputClosed then [] else [InputContextClosed])
      + (if outputClosed then [] else [OutputContextClosed])
  }

  /**
   * `connectToJarvis` up to the resolved session: a missing API key throws
   * before anything is created; the two audio contexts are created next; a
   * denied microphone throws (leaving both contexts open); LISTENING is
   * signalled before the channel is opened; a channel that fails to open
   * throws.
   */
  method Connect(apiKey: Option<string>, micGranted: bool, channelOpens: bool)
    returns (session: Session?, error: Option<ConnectError>, effects: seq<Event>)
    ensures session == null <==> error.Some?
    ensures apiKey.None? || apiKey.value == "" ==> error == Some(MissingApiKey) && effects == []
    ensures apiKey.Some? && apiKey.value != "" && !micGranted ==>
      error == Some(MediaAccessDenied) && effects == [InputContextCreated, OutputContextCreated]
    ensures apiKey.Some? && apiKey.value != "" && micGranted ==>
      effects == [InputContextCreated, OutputContextCreated, StateChanged(Listening)] &&
      error == (if channelOpens then None else Some(ChannelFailed))
    ensures session != null ==>
      && fresh(session) && session.Valid()
      && session.Snap() == Snapshot(0, [], 0, effects) && !session.inputClosed && !session.outputClosed
  {
    if apiKey.None? || apiKey.value == "" {
      return null, Some(MissingApiKey), [];
    }
    effects := [InputContextCreated, OutputContextCreated];
    if !micGranted {
      return null, Some(MediaAccessDenied), effects;
    }
    effects := effects + [StateChanged(Listening)];
    if !channelOpens {
      return null, Some(ChannelFailed), effects;
    }
    session := new Session.Open(effects);
    error := None;
  }

  // ---------------------------------------------------------------------------
  // The router keeps the scheduler's invariant and closes no context

  lemma {:induction false} RemoveKeepsDistinct(ids: seq<SourceId>, id: SourceId)
    requires Distinct(ids)
    ensures Distinct(Remove(ids, id))
  {
    if ids != [] {
      RemoveKeepsDistinct(ids[1..], id);
      if ids[0] != id {
        assert ids[0] !in ids[1..];
      }
    }
  }

  lemma EndedKeepsInvariant(s: Snapshot, id: SourceId)
    requires SourcesValid(s)
    ensures Extends(s, Ended(s, id))
  {
    RemoveKeepsDistinct(s.sources, id);
    var r := Remove(s.sources, id);
    forall i | 0 <= i < |r| ensures r[i] < s.created {
      assert r[i] in s.sources;
    }
  }

  lemma {:induction false} BatchReleaseFree(calls: seq<FunctionCall>, from: nat, run: FunctionCall -> Dispatch)
    requires from <= |calls|
    ensures ReleaseFree(BatchEvents(calls, from, run).0)
    decreases |calls| - from
  {
    if from < |calls| {
      BatchReleaseFree(calls, from + 1, run);
    }
  }

  lemma EmitExtends(s: Snapshot, e: Event)
    requires SourcesValid(s) && e != InputContextClosed && e != OutputContextClosed
    ensures Extends(s, Emit(s, e))
  {
  }

  lemma AudioStepExtends(s: Snapshot, binary: string, now: nat)
    requires SourcesValid(s)
    ensures Extends(s, AudioStep(s, binary, now).0)
  {
    var s1 := Emit(s, StateChanged(Speaking)).(nextStartTime := Max(s.nextStartTime, now));
    EmitExtends(s, StateChanged(Speaking));
    var r := AudioStep(s, binary, now);
    if r.1 {
      var e := r.0.trace[|r.0.trace| - 1];
      assert r.0.trace == s1.trace + [e];
      EmitExtends(s1, e);
      forall i, j | 0 <= i < j < |r.0.sources| ensures r.0.sources[i] != r.0.sources[j] {
        if j == |r.0.sources| - 1 {
          assert r.0.sources[i] in s1.sources;
        }
      }
    }
  }

  lemma ToolPartExtends(s: Snapshot, m: ServerMessage, run: FunctionCall -> Dispatch)
    requires SourcesValid(s)
    ensures Extends(s, ToolPart(s, m, run).0)
  {
    if m.toolCalls.Some? {
      var batch := BatchEvents(m.toolCalls.value, 0, run).0;
      BatchReleaseFree(m.toolCalls.value, 0, run);
      assert s.trace + [StateChanged(Thinking)] + batch == s.trace + ([StateChanged(Thinking)] + batch);
      AppendReleaseFree(s.trace, [StateChanged(Thinking)] + batch);
    }
  }

  lemma FlagsPartExtends(s: Snapshot, m: ServerMessage)
    requires SourcesValid(s)
    ensures Extends(s, FlagsPart(s, m))
  {
    var s1 := if m.turnComplete then Emit(s, TurnCompleted) else s;
    if m.turnComplete {
      EmitExtends(s, TurnCompleted);
    }
    if m.interrupted {
      var stops := StopAll(s1.sources) + [StateChanged(Listening)];
      assert s1.trace + StopAll(s1.sources) + [StateChanged(Listening)] == s1.trace + stops;
      AppendReleaseFree(s1.trace, stops);
    }
  }

}
