/**
 * The application component (Frontend/App.tsx): the conversation log, the
 * bounded tool-call log, the transcript buffers that collect streamed
 * fragments until a turn completes, the assistant's state, and the toggle
 * that closes the live session or starts connecting a new one.
 *
 * React state setters are modelled as assignments that take effect at once;
 * the two refs are plain fields. `connectToJarvis` is asynchronous, so the
 * toggle is split into the synchronous part (`ToggleSession`) and the two
 * ways the connection attempt settles (`ConnectResolved`,
 * `ConnectRejected`); session callbacks may arrive in between.
 */
module AppModel {
  import opened Types
  import opened ToolExecutor
  import opened JarvisSession

  // ---------------------------------------------------------------------------
  // `String.prototype.trim`

  /** The characters `trim` removes: ECMAScript WhiteSpace and LineTerminator. */
  predicate IsTrimmable(c: char)
  {
    || c == '\t' || c == '\n' || c == '\U{B}' || c == '\U{C}' || c == '\r' || c == ' '
    || c == '\U{A0}' || c == '\U{1680}' || ('\U{2000}' <= c <= '\U{200A}')
    || c == '\U{2028}' || c == '\U{2029}' || c == '\U{202F}' || c == '\U{205F}'
    || c == '\U{3000}' || c == '\U{FEFF}'
  }

  /** Every character of `s` is whitespace (vacuously so for ""). */
  predicate Blank(s: string)
  {
    forall i :: 0 <= i < |s| ==> IsTrimmable(s[i])
  }

  function TrimStart(s: string): (r: string)
    ensures |r| <= |s| && r == s[|s| - |r|..]
    ensures r == [] || !IsTrimmable(r[0])
    ensures Blank(s[..|s| - |r|])
  {
    if s != [] && IsTrimmable(s[0]) then TrimStart(s[1..]) else s
  }

  function TrimEnd(s: string): (r: string)
    ensures |r| <= |s| && r == s[..|r|]
    ensures r == [] || !IsTrimmable(r[|r| - 1])
    ensures Blank(s[|r|..])
  {
    if s != [] && IsTrimmable(s[|s| - 1]) then TrimEnd(s[..|s| - 1]) else s
  }

  /** `s.trim()`: leading and trailing whitespace removed. */
  function Trim(s: string): (r: string)
    ensures r == [] || (!IsTrimmable(r[0]) && !IsTrimmable(r[|r| - 1]))
  {
    TrimEnd(TrimStart(s))
  }

  /**
   * `trim` removes only leading and trailing whitespace: the result is the
   * middle of `s` between a blank prefix and a blank suffix.
   */
  lemma TrimIsMiddle(s: string)
    ensures exists k ::
      && 0 <= k <= |s| - |Trim(s)| && Trim(s) == s[k..k + |Trim(s)|]
      && Blank(s[..k]) && Blank(s[k + |Trim(s)|..])
  {
    MiddleOf(s, TrimStart(s), Trim(s));
  }

  /** A suffix `t` of `s` after blanks, cut before trailing blanks, is a middle of `s` between blanks. */
  lemma MiddleOf(s: string, t: string, r: string)
    requires |t| <= |s| && t == s[|s| - |t|..] && Blank(s[..|s| - |t|])
    requires |r| <= |t| && r == t[..|r|] && Blank(t[|r|..])
    ensures exists k :: 0 <= k <= |s| - |r| && r == s[k..k + |r|] && Blank(s[..k]) && Blank(s[k + |r|..])
  {
    var k := |s| - |t|;
    assert r == s[k..k + |r|];
    assert t[|r|..] == s[k + |r|..];
  }

  lemma {:induction false} TrimStartEmptyIffBlank(s: string)
    ensures TrimStart(s) == [] <==> Blank(s)
  {
    if s != [] && IsTrimmable(s[0]) {
      TrimStartEmptyIffBlank(s[1..]);
      assert Blank(s) <==> Blank(s[1..]) by {
        if Blank(s[1..]) {
          forall i | 0 <= i < |s| ensures IsTrimmable(s[i]) {
            if i > 0 {
              assert s[i] == s[1..][i - 1];
            }
          }
        }
      }
    } else if s != [] {
      assert !Blank(s);
    }
  }

  lemma {:induction false} TrimEndEmptyIffBlank(s: string)
    ensures TrimEnd(s) == [] <==> Blank(s)
  {
    if s != [] && IsTrimmable(s[|s| - 1]) {
      var front := s[..|s| - 1];
      TrimEndEmptyIffBlank(front);
      assert Blank(s) <==> Blank(front) by {
        if Blank(front) {
          forall i | 0 <= i < |s| ensures IsTrimmable(s[i]) {
            if i < |s| - 1 {
              assert s[i] == front[i];
            }
          }
        }
      }
    } else if s != [] {
      assert !Blank(s);
    }
  }

  /** `text.trim()` is falsy (the empty string) exactly when `text` is all whitespace. */
  lemma TrimEmptyIffBlank(s: string)
    ensures Trim(s) == [] <==> Blank(s)
  {
    var t := TrimStart(s);
    TrimStartEmptyIffBlank(s);
    TrimEndEmptyIffBlank(t);
    if t != [] {
      assert !Blank(t);
    }
  }

  // ---------------------------------------------------------------------------
  // The two logs

  /**
   * The log after `addMessage(author, text)`: the old log, unchanged, with
   * `{author, text}` appended if and only if the text has a character that
   * is not whitespace (by `TrimEmptyIffBlank`, exactly when `text.trim()`
   * is non-empty).
   */
  function Logged(log: seq<Message>, author: Author, text: string): (r: seq<Message>)
    ensures log <= r
    ensures |r| == |log| + 1 <==> !Blank(text)
    ensures |r| == |log| || |r| == |log| + 1
    ensures |r| == |log| + 1 ==> r[|log|] == Message(author, text)
  {
    if Blank(text) then log else log + [Message(author, text)]
  }

  /** No message of the log is blank. */
  predicate NonBlank(log: seq<Message>)
  {
    forall i :: 0 <= i < |log| ==> !Blank(log[i].text)
  }

  lemma LoggedKeepsNonBlank(log: seq<Message>, author: Author, text: string)
    requires NonBlank(log)
    ensures NonBlank(Logged(log, author, text))
  {
  }

  /**
   * `xs.slice(-n)` for a positive n: the last n elements, or all of them if
   * there are fewer. (`slice(-0)` would return the whole array.)
   */
  function LastAtMost<T>(xs: seq<T>, n: nat): (r: seq<T>)
    requires n >= 1
    ensures |r| == if |xs| < n then |xs| else n
    ensures r == xs[|xs| - |r|..]
  {
    if |xs| <= n then xs else xs[|xs| - n..]
  }

  /**
   * The tool log after `addToolCall(entry)`: at most seven entries, the new
   * one last, preceded by the previous log's last (up to) six in their
   * original order.
   */
  function RecentToolCalls(log: seq<string>, entry: string): (r: seq<string>)
    ensures 1 <= |r| <= 7
    ensures r[|r| - 1] == entry
    ensures |r| - 1 == if |log| < 6 then |log| else 6
    ensures r[..|r| - 1] == log[|log| - (|r| - 1)..]
  {
    LastAtMost(log, 6) + [entry]
  }

  /** The tool-call log entry: a hammer-and-wrench sign, the tool name, an arrow and the JSON of the arguments. */
  function ToolCallEntry(toolName: string, argsJson: string): (r: string)
    ensures |r| == |toolName| + |argsJson| + 5
    ensures r[..2] == "\U{1F6E0} " && r[2..2 + |toolName|] == toolName
    ensures r[2 + |toolName|..|r| - |argsJson|] == " \U{2192} "
    ensures r[|r| - |argsJson|..] == argsJson
  {
    "\U{1F6E0} " + toolName + " \U{2192} " + argsJson
  }

  const ErrorText := "An error occurred. Please try again."
  const StartFailedText := "Failed to start session."

  /** A text with a visible character is always logged. */
  lemma LoggedVisible(log: seq<Message>, author: Author, text: string)
    requires !Blank(text)
    ensures Logged(log, author, text) == log + [Message(author, text)]
  {
  }

  lemma FixedTextsVisible()
    ensures !Blank(ErrorText) && !Blank(StartFailedText)
  {
    assert ErrorText[0] == 'A' && StartFailedText[0] == 'F';
  }

  // ---------------------------------------------------------------------------
  // The component

  class App {
    var appState: AppState
    var messages: seq<Message>
    var toolCalls: seq<string>
    /** `sessionRef.current`. */
    var session: Session?
    /** `userTranscriptionRef.current`. */
    var userTranscript: string
    /** `jarvisTranscriptionRef.current`. */
    var jarvisTranscript: string

    /** The tool log is bounded, no logged message is blank, and a held session is in a consistent state. */
    ghost predicate Valid()
      reads this, session
    {
      && |toolCalls| <= 7
      && NonBlank(messages)
      && (session != null ==> session.Valid())
    }

    /** The initial state: IDLE, both logs and both buffers empty, no session. */
    constructor ()
      ensures Valid()
      ensures appState == Idle && messages == [] && toolCalls == [] && session == null
      ensures userTranscript == "" && jarvisTranscript == ""
    {
      appState := Idle;
      messages := [];
      toolCalls := [];
      session := null;
      userTranscript := "";
      jarvisTranscript := "";
    }

    method AddMessage(author: Author, text: string)
      requires Valid()
      modifies this
      ensures Valid()
      ensures messages == Logged(old(messages), author, text)
      ensures appState == old(appState) && toolCalls == old(toolCalls) && session == old(session)
      ensures userTranscript == old(userTranscript) && jarvisTranscript == old(jarvisTranscript)
    {
      LoggedKeepsNonBlank(messages, author, text);
      TrimEmptyIffBlank(text);
      if Trim(text) != [] {
        messages := messages + [Message(author, text)];
      }
    }

    method AddToolCall(entry: string)
      requires Valid()
      modifies this
      ensures Valid()
      ensures toolCalls == RecentToolCalls(old(toolCalls), entry)
      ensures appState == old(appState) && messages == old(messages) && session == old(session)
      ensures userTranscript == old(userTranscript) && jarvisTranscript == old(jarvisTranscript)
    {
      var keep := if |toolCalls| <= 6 then toolCalls else toolCalls[|toolCalls| - 6..];
      toolCalls := keep + [entry];
    }

    /** `onStateChange`: `setAppState`. */
    method OnStateChange(state: AppState)
      requires Valid()
      modifies this
      ensures Valid()
      ensures appState == state
      ensures messages == old(messages) && toolCalls == old(toolCalls) && session == old(session)
      ensures userTranscript == old(userTranscript) && jarvisTranscript == old(jarvisTranscript)
    {
      appState := state;
    }

    /** `onUserTranscription`: the fragment is appended to the user buffer. */
    method OnUserTranscription(text: string)
      requires Valid()
      modifies this
      ensures Valid()
      ensures userTranscript == old(userTranscript) + text
      ensures appState == old(appState) && messages == old(messages) && toolCalls == old(toolCalls)
      ensures session == old(session) && jarvisTranscript == old(jarvisTranscript)
    {
      userTranscript := userTranscript + text;
    }

    /** `onJarvisTranscription`: the fragment is appended to the assistant buffer. */
    method OnJarvisTranscription(text: string)
      requires Valid()
      modifies this
      ensures Valid()
      ensures jarvisTranscript == old(jarvisTranscript) + text
      ensures appState == old(appState) && messages == old(messages) && toolCalls == old(toolCalls)
      ensures session == old(session) && userTranscript == old(userTranscript)
    {
      jarvisTranscript := jarvisTranscript + text;
    }

    /**
     * `onTurnComplete`: the user buffer, then the assistant buffer, become
     * messages (each only if non-blank); both buffers are then emptied.
     */
    method OnTurnComplete()
      requires Valid()
      modifies this
      ensures Valid()
      ensures messages == Logged(Logged(old(messages), User, old(userTranscript)), Jarvis, old(jarvisTranscript))
      ensures userTranscript == "" && jarvisTranscript == ""
      ensures appState == old(appState) && toolCalls == old(toolCalls) && session == old(session)
    {
      AddMessage(User, userTranscript);
      AddMessage(Jarvis, jarvisTranscript);
      userTranscript := "";
      jarvisTranscript := "";
    }

    /** `onToolCall`: the formatted call joins the tool log. */
    method OnToolCall(toolName: string, argsJson: string)
      requires Valid()
      modifies this
      ensures Valid()
      ensures toolCalls == RecentToolCalls(old(toolCalls), ToolCallEntry(toolName, argsJson))
      ensures appState == old(appState) && messages == old(messages) && session == old(session)
      ensures userTranscript == old(userTranscript) && jarvisTranscript == old(jarvisTranscript)
    {
      AddToolCall(ToolCallEntry(toolName, argsJson));
    }

    /**
     * `onError`: one assistant message, IDLE, and the session reference
     * dropped (the session itself is not closed).
     */
    method OnError()
      requires Valid()
      modifies this
      ensures Valid()
      ensures messages == old(messages) + [Message(Jarvis, ErrorText)]
      ensures appState == Idle && session == null
      ensures toolCalls == old(toolCalls)
      ensures userTranscript == old(userTranscript) && jarvisTranscript == old(jarvisTranscript)
    {
      FixedTextsVisible();
      LoggedVisible(messages, Jarvis, ErrorText);
      AddMessage(Jarvis, ErrorText);
      appState := Idle;
      session := null;
    }

    /**
     * `handleToggleSession` up to its `await`. With a live session: close it
     * (once), drop the reference, go IDLE and empty both logs, leaving the
     * transcript buffers as they are (false). Without one: go CONNECTING and
     * start connecting (true).
     */
    method ToggleSession() returns (connecting: bool)
      requires Valid()
      modifies this, session
      ensures Valid()
      ensures connecting <==> old(session) == null
      ensures old(session) != null ==>
        && old(session).Valid()
        && old(session).Snap() == Emit(old(session.Snap()), ChannelCloseRequested)
        && old(session).inputClosed == old(session.inputClosed)
        && old(session).outputClosed == old(session.outputClosed)
        && session == null && appState == Idle && messages == [] && toolCalls == []
      ensures old(session) == null ==>
        && session == null && appState == Connecting
        && messages == old(messages) && toolCalls == old(toolCalls)
      ensures userTranscript == old(userTranscript) && jarvisTranscript == old(jarvisTranscript)
    {
      if session != null {
        session.Close();
        session := null;
        appState := Idle;
        messages := [];
        toolCalls := [];
        return false;
      }
      appState := Connecting;
      connecting := true;
    }

    /** `sessionRef.current = session` once `connectToJarvis` resolves. */
    method ConnectResolved(s: Session)
      requires Valid() && s.Valid()
      modifies this
      ensures Valid()
      ensures session == s
      ensures appState == old(appState) && messages == old(messages) && toolCalls == old(toolCalls)
      ensures userTranscript == old(userTranscript) && jarvisTranscript == old(jarvisTranscript)
    {
      session := s;
    }

    /**
     * The `catch` branch: IDLE and one assistant message. The session
     * reference is left as it is: a second attempt started while the first
     * was pending may already have stored a session.
     */
    method ConnectRejected()
      requires Valid()
      modifies this
      ensures Valid()
      ensures appState == Idle && session == old(session)
      ensures messages == old(messages) + [Message(Jarvis, StartFailedText)]
      ensures toolCalls == old(toolCalls)
      ensures userTranscript == old(userTranscript) && jarvisTranscript == old(jarvisTranscript)
    {
      FixedTextsVisible();
      LoggedVisible(messages, Jarvis, StartFailedText);
      appState := Idle;
      AddMessage(Jarvis, StartFailedText);
    }

    /**
     * The callbacks object handed to `connectToJarvis`: each application
     * event of a session reaches its handler; `stringify` stands for
     * `JSON.stringify` on the call's arguments. Other events do not concern
     * the component.
     */
    method Deliver(e: Event, stringify: Args -> string)
      requires Valid()
      modifies this
      ensures Valid()
      ensures e.StateChanged? ==>
        && appState == e.state
        && messages == old(messages) && toolCalls == old(toolCalls) && session == old(session)
        && userTranscript == old(userTranscript) && jarvisTranscript == old(jarvisTranscript)
      ensures e.UserTranscription? ==>
        && userTranscript == old(userTranscript) + e.text
        && appState == old(appState) && messages == old(messages) && toolCalls == old(toolCalls)
        && session == old(session) && jarvisTranscript == old(jarvisTranscript)
      ensures e.JarvisTranscription? ==>
        && jarvisTranscript == old(jarvisTranscript) + e.text
        && appState == old(appState) && messages == old(messages) && toolCalls == old(toolCalls)
        && session == old(session) && userTranscript == old(userTranscript)
      ensures e.TurnCompleted? ==>
        && messages == Logged(Logged(old(messages), User, old(userTranscript)), Jarvis, old(jarvisTranscript))
        && userTranscript == "" && jarvisTranscript == ""
        && appState == old(appState) && toolCalls == old(toolCalls) && session == old(session)
      ensures e.ToolCallObserved? ==>
        && toolCalls == RecentToolCalls(old(toolCalls), ToolCallEntry(e.name, stringify(e.args)))
        && appState == old(appState) && messages == old(messages) && session == old(session)
        && userTranscript == old(userTranscript) && jarvisTranscript == old(jarvisTranscript)
      ensures e.ErrorReported? ==>
        && messages == old(messages) + [Message(Jarvis, ErrorText)]
        && appState == Idle && session == null && toolCalls == old(toolCalls)
        && userTranscript == old(userTranscript) && jarvisTranscript == old(jarvisTranscript)
      ensures !(e.StateChanged? || e.UserTranscription? || e.JarvisTranscription? || e.TurnCompleted?
                || e.ToolCallObserved? || e.ErrorReported?) ==>
        && appState == old(appState) && messages == old(messages) && toolCalls == old(toolCalls)
        && session == old(session)
        && userTranscript == old(userTranscript) && jarvisTranscript == old(jarvisTranscript)
    {
      match e {
        case StateChanged(state) => OnStateChange(state);
        case UserTranscription(text) => OnUserTranscription(text);
        case JarvisTranscription(text) => OnJarvisTranscription(text);
        case TurnCompleted => OnTurnComplete();
        case ToolCallObserved(name, args) => OnToolCall(name, stringify(args));
        case ErrorReported => OnError();
        case _ =>
      }
    }
  }
}
