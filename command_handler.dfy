/**
 * The command filter the plugin inserts in front of the editor's own command
 * handler. `Exec` sees every editor command: completion-related commands are
 * handled here (start, commit, dismiss the completion session), everything
 * not handled goes on to the next handler, and typing afterwards starts or
 * filters the session.
 *
 * The handler's only state is the current session (`m_session`) and, as part
 * of the model, the set of sessions whose `Dismissed` event it has subscribed
 * to. Everything the IDE decides (whether an item is selected, which session
 * the broker hands out, whether `Commit` or `Start` dismisses the session,
 * what the next handler returns) is an input, a `Host`. The calls the handler
 * makes on the IDE are recorded, in order, as a sequence of `HostCall`s.
 */
module CommandHandler {
  import opened Wrappers
  import opened CaretToken

  /** The identity of an `ICompletionSession` object. */
  type SessionId = nat

  /** A 32-bit `HRESULT`. */
  newtype HResult = x: int | -0x8000_0000 <= x < 0x8000_0000

  /** `VSConstants.S_OK` */
  const S_OK: HResult := 0

  /** `ErrorHandler.Succeeded`: a non-negative `HRESULT`. */
  predicate Succeeded(hr: HResult) { hr >= 0 }

  /** The space character, as a UTF-16 code unit. */
  const Space: CodeUnit := 0x20

  /**
   * A command as `Exec` tells them apart: the `VSStd2K` commands it looks at
   * (the typed character of `TYPECHAR` already unmarshalled), and every other
   * command of that group or of any other group.
   */
  datatype Command =
    | AutoComplete
    | CompleteWord
    | Return
    | Tab
    | Cancel
    | TypeChar(ch: CodeUnit)
    | Backspace
    | Other

  /** A call the handler makes on the IDE. */
  datatype HostCall =
    | Dismiss(session: SessionId)
    | Commit(session: SessionId)
    | CreateSession(session: SessionId)
    | GetSession(session: SessionId)
    | Start(session: SessionId)
    | SelectBestMatch(session: SessionId)
    | Recalculate(session: SessionId)
    | Forward(command: Command)

  /**
   * What the IDE answers during one `Exec`: the caret's line and column, the
   * selection status of the session's selected completion set, whether
   * `Commit` dismisses the session, whether a completion is already active
   * (then the broker's first session is reused, otherwise a new one is
   * created), whether `Start` dismisses the session at once, whether the
   * next command handler's edit dismisses the current session (the IDE raises
   * `Dismissed`, for instance when the caret leaves the session's span), and
   * the `HRESULT` of the next command handler.
   */
  datatype Host = Host(
    line: seq<CodeUnit>,
    column: nat,
    selected: bool,
    commitDismisses: bool,
    completionActive: bool,
    created: SessionId,
    existing: SessionId,
    startDismisses: bool,
    forwardDismisses: bool,
    nextResult: HResult)
  {
    /** The caret lies within its line. */
    predicate Valid() { column <= |line| }

    /** The session `StartSession` obtains from the broker. */
    function NewSession(): SessionId { if completionActive then existing else created }
  }

  /** The handler's state: `m_session` and the sessions whose `Dismissed` event clears it. */
  datatype HandlerState = HandlerState(session: Option<SessionId>, subscribed: set<SessionId>)

  /** The current session, if any, has the handler's `Dismissed` lambda attached. */
  predicate Inv(st: HandlerState)
  {
    st.session.Some? ==> st.session.value in st.subscribed
  }

  /** What one operation returns, the state it leaves, and the host calls it makes. */
  datatype Step<T> = Step(result: T, after: HandlerState, calls: seq<HostCall>)

  // ---------------------------------------------------------------------------
  // The operations, as functions of the state before them
  // ---------------------------------------------------------------------------

  /**
   * `IsSuggestionNeeded`: whether the token under the caret is non-empty, by the
   * same scan the completion source uses.
   */
  function IsSuggestionNeeded(k: CharClasses, line: seq<CodeUnit>, column: nat): bool
    requires column <= |line|
  {
    Head(k, line, column) + Tail(k, line, column) != 0
  }

  /** The session `id` raised `Dismissed`: every lambda attached to it sets `m_session` to null. */
  function Dismissed(st: HandlerState, id: SessionId): (r: HandlerState)
    ensures r.subscribed == st.subscribed
    ensures id in st.subscribed ==> r.session.None?
    ensures id !in st.subscribed ==> r == st
  {
    if id in st.subscribed then HandlerState(None, st.subscribed) else st
  }

  /** `Filter` */
  function FilterStep(st: HandlerState): Step<()>
  {
    match st.session
    case None => Step((), st, [])
    case Some(id) => Step((), st, [SelectBestMatch(id), Recalculate(id)])
  }

  /** `Cancel` */
  function CancelStep(st: HandlerState): Step<bool>
  {
    match st.session
    case None => Step(false, st, [])
    case Some(id) => Step(true, Dismissed(st, id), [Dismiss(id)])
  }

  /** `Complete(force)` */
  function CompleteStep(st: HandlerState, force: bool, h: Host): Step<bool>
  {
    match st.session
    case None => Step(false, st, [])
    case Some(id) =>
      if !h.selected && !force then Step(false, Dismissed(st, id), [Dismiss(id)])
      else Step(true, if h.commitDismisses then Dismissed(st, id) else st, [Commit(id)])
  }

  /** `StartSession` */
  function StartSessionStep(st: HandlerState, h: Host): Step<bool>
  {
    var (cleared, dismissals) :=
      match st.session
      case None => (st, [])
      case Some(prev) => (HandlerState(None, st.subscribed), [Dismiss(prev)]);
    var id := h.NewSession();
    var obtain := if h.completionActive then GetSession(id) else CreateSession(id);
    var attached := HandlerState(Some(id), cleared.subscribed + {id});
    var started := if h.startDismisses then Dismissed(attached, id) else attached;
    Step(true, started, dismissals + [obtain, Start(id)])
  }

  /** The first phase of `Exec`: whether the command was handled here. */
  function PreProcess(st: HandlerState, cmd: Command, k: CharClasses, h: Host): Step<bool>
    requires h.Valid()
  {
    match cmd
    case AutoComplete | CompleteWord =>
      if IsSuggestionNeeded(k, h.line, h.column) then StartSessionStep(st, h) else Step(false, st, [])
    case Return => CompleteStep(st, false, h)
    case Tab => CompleteStep(st, true, h)
    case Cancel => CancelStep(st)
    case _ => Step(false, st, [])
  }

  /**
   * The state after the next command handler has run: when its edit dismisses
   * the current session, the lambda attached to that session clears it.
   */
  function AfterForward(st: HandlerState, h: Host): (r: HandlerState)
    ensures r.subscribed == st.subscribed
    ensures Inv(st) ==> r.session == (if h.forwardDismisses then None else st.session)
  {
    if h.forwardDismisses && st.session.Some? then Dismissed(st, st.session.value) else st
  }

  /** The last phase of `Exec`, run only when the command succeeded. */
  function PostProcess(st: HandlerState, cmd: Command, h: Host): Step<()>
  {
    match cmd
    case TypeChar(ch) =>
      if ch == Space then
        var started := StartSessionStep(st, h);
        Step((), started.after, started.calls)
      else if st.session.Some? then FilterStep(st)
      else Step((), st, [])
    case Backspace => FilterStep(st)
    case _ => Step((), st, [])
  }

  /** `Exec`: pre-process, forward if not handled, post-process on success. */
  function ExecStep(st: HandlerState, cmd: Command, k: CharClasses, h: Host): Step<HResult>
    requires h.Valid()
  {
    var pre := PreProcess(st, cmd, k, h);
    var hresult := if pre.result then S_OK else h.nextResult;
    var forwarded := if pre.result then [] else [Forward(cmd)];
    var mid := if pre.result then pre.after else AfterForward(pre.after, h);
    var post := if Succeeded(hresult) then PostProcess(mid, cmd, h) else Step((), mid, []);
    Step(hresult, post.after, pre.calls + forwarded + post.calls)
  }

  // ---------------------------------------------------------------------------
  // What the operations promise
  // ---------------------------------------------------------------------------

  /** A suggestion is needed exactly when a neighbour of the caret qualifies. */
  lemma SuggestionNeededIffNeighbourQualifies(k: CharClasses, line: seq<CodeUnit>, column: nat)
    requires column <= |line|
    ensures IsSuggestionNeeded(k, line, column)
        <==> ((column > 0 && Qualifies(k, line[column - 1])) || (column < |line| && Qualifies(k, line[column])))
  {
    TokenNonEmptyIffNeighbourQualifies(k, line, column);
  }

  /** On a line of Latin-1 code units no suggestion is ever needed. */
  lemma Latin1LineNeedsNoSuggestion(k: CharClasses, line: seq<CodeUnit>, column: nat)
    requires column <= |line|
    requires forall i :: 0 <= i < |line| ==> line[i] <= 0xFF
    ensures !IsSuggestionNeeded(k, line, column)
  {
    Latin1LineHasNoToken(k, line, column);
  }

  /**
   * The command handler and the completion source agree: a suggestion is
   * needed exactly when the completion source's token at the same line and
   * column is not blank, that is, when it would query the service.
   */
  lemma SuggestionNeededIffQueryable(k: CharClasses, line: seq<CodeUnit>, column: nat)
    requires column <= |line|
    ensures IsSuggestionNeeded(k, line, column) <==> !IsBlank(k, TokenText(k, line, column))
  {
    TokenBlankIffEmpty(k, line, column);
  }

  /**
   * `Filter` never changes the state; with a session it asks that session to
   * select the best match and then to recalculate, and without one it does nothing.
   */
  lemma FilterOutcome(st: HandlerState)
    ensures FilterStep(st).after == st
    ensures FilterStep(st).calls == [] <==> st.session.None?
    ensures st.session.Some? ==>
      FilterStep(st).calls == [SelectBestMatch(st.session.value), Recalculate(st.session.value)]
  {
  }

  /** `Cancel` reports whether there was a session, and afterwards there is none. */
  lemma CancelOutcome(st: HandlerState)
    requires Inv(st)
    ensures var step := CancelStep(st);
      && (step.result <==> st.session.Some?)
      && step.after.session.None?
      && step.calls == (if st.session.Some? then [Dismiss(st.session.value)] else [])
  {
  }

  /** `Complete` without a session does nothing and reports `false`. */
  lemma CompleteWithoutSession(st: HandlerState, force: bool, h: Host)
    requires st.session.None?
    ensures CompleteStep(st, force, h) == Step(false, st, [])
  {
  }

  /**
   * `Complete` with a session commits exactly when an item is selected or
   * completion is forced, and reports that; otherwise it dismisses the session,
   * which is then gone. `Complete(true)` therefore always commits.
   */
  lemma CompleteWithSession(st: HandlerState, force: bool, h: Host)
    requires Inv(st) && st.session.Some?
    ensures var step := CompleteStep(st, force, h);
      && (step.result <==> h.selected || force)
      && (step.result ==> step.calls == [Commit(st.session.value)])
      && (!step.result ==> step.calls == [Dismiss(st.session.value)] && step.after.session.None?)
  {
  }

  /**
   * `StartSession` always reports `true`; it first dismisses the previous
   * session, if any, then starts the broker's session, which stays current
   * unless starting it dismissed it.
   */
  lemma StartSessionOutcome(st: HandlerState, h: Host)
    ensures var step := StartSessionStep(st, h);
      && step.result
      && step.after.session == (if h.startDismisses then None else Some(h.NewSession()))
      && (st.session.Some? <==> |step.calls| == 3)
      && (st.session.Some? ==> step.calls[0] == Dismiss(st.session.value))
      && step.calls[|step.calls| - 1] == Start(h.NewSession())
  {
  }

  /** No phase of `Exec` other than forwarding calls the next handler. */
  lemma NoForwardInPhases(st: HandlerState, cmd: Command, k: CharClasses, h: Host, c: Command)
    requires h.Valid()
    ensures Forward(c) !in PreProcess(st, cmd, k, h).calls
    ensures Forward(c) !in PostProcess(st, cmd, h).calls
  {
  }

  /**
   * `Exec` calls the next handler exactly when pre-processing did not handle
   * the command, and then returns its `HRESULT`; otherwise it returns `S_OK`.
   */
  lemma ExecForwardsIffUnhandled(st: HandlerState, cmd: Command, k: CharClasses, h: Host)
    requires h.Valid()
    ensures var pre := PreProcess(st, cmd, k, h);
      var step := ExecStep(st, cmd, k, h);
      && (Forward(cmd) in step.calls <==> !pre.result)
      && step.result == (if pre.result then S_OK else h.nextResult)
  {
    var pre := PreProcess(st, cmd, k, h);
    var step := ExecStep(st, cmd, k, h);
    var mid := if pre.result then pre.after else AfterForward(pre.after, h);
    var post := if Succeeded(step.result) then PostProcess(mid, cmd, h) else Step((), mid, []);
    NoForwardInPhases(st, cmd, k, h, cmd);
    NoForwardInPhases(mid, cmd, k, h, cmd);
    assert step.calls == pre.calls + (if pre.result then [] else [Forward(cmd)]) + post.calls;
  }

  /**
   * When the next handler fails, `Exec` does no post-processing: the state is
   * the one forwarding left, and forwarding is the last call.
   */
  lemma FailedCommandIsNotPostProcessed(st: HandlerState, cmd: Command, k: CharClasses, h: Host)
    requires h.Valid()
    requires !PreProcess(st, cmd, k, h).result && !Succeeded(h.nextResult)
    ensures var pre := PreProcess(st, cmd, k, h);
      ExecStep(st, cmd, k, h) == Step(h.nextResult, AfterForward(pre.after, h), pre.calls + [Forward(cmd)])
  {
  }

  /**
   * A typed space, once the next handler has accepted it, starts a session.
   * The previous session is dismissed first only when it survived forwarding.
   */
  lemma TypedSpaceStartsSession(st: HandlerState, k: CharClasses, h: Host)
    requires h.Valid() && Succeeded(h.nextResult) && Inv(st)
    ensures var step := ExecStep(st, TypeChar(Space), k, h);
      && step.after.session == (if h.startDismisses then None else Some(h.NewSession()))
      && step.calls[0] == Forward(TypeChar(Space))
      && |step.calls| == (if st.session.Some? && !h.forwardDismisses then 4 else 3)
      && step.calls[|step.calls| - 1] == Start(h.NewSession())
  {
    StartSessionOutcome(AfterForward(st, h), h);
  }

  /**
   * Any other typed character, or a backspace, is post-processed by filtering
   * and nothing else, which leaves the state the next handler left.
   */
  lemma TypingOtherwiseKeepsState(st: HandlerState, ch: CodeUnit, k: CharClasses, h: Host)
    requires h.Valid() && ch != Space
    ensures PostProcess(st, TypeChar(ch), h) == FilterStep(st)
    ensures PostProcess(st, Backspace, h) == FilterStep(st)
    ensures PostProcess(st, TypeChar(ch), h).after == st
    ensures PostProcess(st, Backspace, h).after == st
    ensures ExecStep(st, TypeChar(ch), k, h).after == AfterForward(st, h)
    ensures ExecStep(st, Backspace, k, h).after == AfterForward(st, h)
  {
  }

  /**
   * A typed character other than a space, once the next handler has accepted
   * it, filters the session exactly when one survived forwarding: the calls
   * are the forwarding, then `SelectBestMatch` and `Recalculate` on that
   * session, or the forwarding alone.
   */
  lemma TypingFiltersSurvivingSession(st: HandlerState, ch: CodeUnit, k: CharClasses, h: Host)
    requires h.Valid() && ch != Space && Inv(st) && Succeeded(h.nextResult)
    ensures var step := ExecStep(st, TypeChar(ch), k, h);
      if st.session.Some? && !h.forwardDismisses then
        step.calls == [Forward(TypeChar(ch)), SelectBestMatch(st.session.value), Recalculate(st.session.value)]
      else
        step.calls == [Forward(TypeChar(ch))]
  {
  }

  /** Every operation keeps the current session subscribed. */
  lemma ExecKeepsInv(st: HandlerState, cmd: Command, k: CharClasses, h: Host)
    requires h.Valid() && Inv(st)
    ensures Inv(ExecStep(st, cmd, k, h).after)
  {
  }

  /** Regrouping a concatenation of four sequences. */
  lemma AppendAssoc<T>(a: seq<T>, b: seq<T>, c: seq<T>, d: seq<T>)
    ensures a + (b + c + d) == a + b + c + d
  {
  }

  // ---------------------------------------------------------------------------
  // The handler object
  // ---------------------------------------------------------------------------

  /** `CompletionCommandHandler`, with the host calls it has made so far. */
  class CompletionCommandHandler {
    /** The Unicode category tests `IsSuggestionNeeded` relies on. */
    const classes: CharClasses
    /** `m_session` */
    var session: Option<SessionId>
    /** The sessions whose `Dismissed` event runs this handler's lambda. */
    var subscribed: set<SessionId>
    /** The calls made on the IDE, oldest first. */
    var calls: seq<HostCall>

    function State(): HandlerState
      reads this
    {
      HandlerState(session, subscribed)
    }

    predicate Valid()
      reads this
    {
      Inv(State())
    }

    constructor (k: CharClasses)
      ensures classes == k && State() == HandlerState(None, {}) && calls == []
      ensures Valid()
    {
      classes := k;
      session := None;
      subscribed := {};
      calls := [];
    }

    /**
     * The lambda `StartSession` attaches with `m_session.Dismissed += … => m_session = null`:
     * session `id` raised `Dismissed`.
     */
    method OnDismissed(id: SessionId)
      requires Valid()
      modifies this
      ensures Valid()
      ensures State() == Dismissed(old(State()), id) && calls == old(calls)
    {
      if id in subscribed {
        session := None;
      }
    }

    /** `m_session.Dismiss()`, which raises `Dismissed` at once. */
    method DismissSession(id: SessionId)
      requires Valid()
      modifies this
      ensures Valid()
      ensures State() == Dismissed(old(State()), id) && calls == old(calls) + [Dismiss(id)]
    {
      calls := calls + [Dismiss(id)];
      OnDismissed(id);
    }

    method Filter()
      requires Valid()
      modifies this
      ensures Valid()
      ensures var step := FilterStep(old(State()));
        State() == step.after && calls == old(calls) + step.calls
    {
      if session.None? {
        return;
      }
      var id := session.value;
      calls := calls + [SelectBestMatch(id)];
      calls := calls + [Recalculate(id)];
    }

    method Cancel() returns (r: bool)
      requires Valid()
      modifies this
      ensures Valid()
      ensures var step := CancelStep(old(State()));
        r == step.result && State() == step.after && calls == old(calls) + step.calls
    {
      if session.None? {
        return false;
      }
      DismissSession(session.value);
      return true;
    }

    method Complete(force: bool, h: Host) returns (r: bool)
      requires Valid()
      modifies this
      ensures Valid()
      ensures var step := CompleteStep(old(State()), force, h);
        r == step.result && State() == step.after && calls == old(calls) + step.calls
    {
      if session.None? {
        return false;
      }
      var id := session.value;
      if !h.selected && !force {
        DismissSession(id);
        return false;
      } else {
        calls := calls + [Commit(id)];
        if h.commitDismisses {
          OnDismissed(id);
        }
        return true;
      }
    }

    method StartSession(h: Host) returns (r: bool)
      requires Valid()
      modifies this
      ensures Valid()
      ensures var step := StartSessionStep(old(State()), h);
        r == step.result && State() == step.after && calls == old(calls) + step.calls
    {
      if session.Some? {
        DismissSession(session.value);
        session := None;
      }
      var id := h.NewSession();
      if !h.completionActive {
        calls := calls + [CreateSession(id)];
      } else {
        calls := calls + [GetSession(id)];
      }
      session := Some(id);
      subscribed := subscribed + {id};
      calls := calls + [Start(id)];
      if h.startDismisses {
        OnDismissed(id);
      }
      return true;
    }

    method Exec(cmd: Command, h: Host) returns (hresult: HResult)
      requires h.Valid() && Valid()
      modifies this
      ensures Valid()
      ensures var step := ExecStep(old(State()), cmd, classes, h);
        hresult == step.result && State() == step.after && calls == old(calls) + step.calls
    {
      ghost var st0, calls0 := State(), calls;
      var handled := false;
      hresult := S_OK;

      match cmd {
        case AutoComplete | CompleteWord =>
          if IsSuggestionNeeded(classes, h.line, h.column) {
            handled := StartSession(h);
          }
        case Return =>
          handled := Complete(false, h);
        case Tab =>
          handled := Complete(true, h);
        case Cancel =>
          handled := Cancel();
        case _ =>
      }
      ghost var pre := PreProcess(st0, cmd, classes, h);
      assert handled == pre.result && State() == pre.after && calls == calls0 + pre.calls;

      if !handled {
        calls := calls + [Forward(cmd)];
        hresult := h.nextResult;
        if h.forwardDismisses && session.Some? {
          OnDismissed(session.value);
        }
      }
      ghost var forwarded := if handled then [] else [Forward(cmd)];
      ghost var mid := if handled then pre.after else AfterForward(pre.after, h);
      assert State() == mid;
      ghost var post := if Succeeded(hresult) then PostProcess(mid, cmd, h) else Step((), mid, []);
      AppendAssoc(calls0, pre.calls, forwarded, post.calls);

      if Succeeded(hresult) {
        match cmd {
          case TypeChar(ch) =>
            if ch == Space {
              var _ := StartSession(h);
            } else if session.Some? {
              Filter();
            }
          case Backspace =>
            Filter();
          case _ =>
        }
      }
    }
  }
}
