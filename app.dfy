/**
 * src/app.rs: the terminal front end. `App::run` waits on three sources
 * (terminal events, output lines from a running task, the task's final
 * result) and updates the interface state on each. Here every arm of that
 * wait is one method of class `App`, each specified by a transition function
 * on `AppState`; starting a task in the background is recorded in `spawned`
 * as the input it gets and the approval answer it is resumed with.
 */
module App {
  import opened Wrappers
  import opened Text
  import opened ToolHandler

  /** `u16`: the scroll offset saturates at both ends. */
  newtype u16 = x: int | 0 <= x < 0x1_0000

  const MaxScroll: u16 := 0xFFFF

  /** The key codes the handler tells apart; every other code is `OtherKey`. */
  datatype Key = Char(c: char) | Backspace | Up | Enter | Esc | OtherKey

  /** One event taken by the `select!`: terminal events, then the two channels. */
  datatype Event =
    | Input(key: Key)
    | ScrollUp
    | ScrollDown
    | Tick
    | OutputLine(msg: string)
    | RunDone(result: Result<Option<PromptType>, string>)

  /** A background call of the loop controller: its message and `approval_override`. */
  datatype Spawn = Spawn(input: string, approval: Option<bool>)

  datatype AppState = AppState(
    shouldQuit: bool,
    processing: bool,
    pendingPrompt: Option<PromptType>,
    pendingInput: Option<string>,
    pendingApproval: Option<bool>,
    input: string,
    history: seq<string>,
    scroll: u16,
    spawned: seq<Spawn>)

  const Initial := AppState(false, false, None, None, None, "", [], 0, [])

  /** Ctrl-D as the terminal reports it. */
  const CtrlD: char := '\U{0004}'

  const UserPrefix := "User: "

  /** A request is in flight and nothing asks the user: keys are ignored. */
  predicate Busy(s: AppState) {
    s.processing && s.pendingPrompt.None?
  }

  /** Free typing is accepted with no prompt or under a clarification prompt. */
  predicate Editable(s: AppState) {
    s.pendingPrompt.None? || s.pendingPrompt.value.Clarification?
  }

  predicate UnderApproval(s: AppState) {
    s.pendingPrompt.Some? && s.pendingPrompt.value.Approval?
  }

  predicate IsAnswerLetter(c: char) {
    c == 'y' || c == 'Y' || c == 'n' || c == 'N'
  }

  /** The position of the latest history entry that starts with `User: `. */
  function LastUserIndex(h: seq<string>): (r: Option<nat>)
    ensures r.None? <==> forall i :: 0 <= i < |h| ==> !StartsWith(h[i], UserPrefix)
    ensures r.Some? ==> && r.value < |h| && StartsWith(h[r.value], UserPrefix)
                        && forall j :: r.value < j < |h| ==> !StartsWith(h[j], UserPrefix)
  {
    if |h| == 0 then None
    else if StartsWith(h[|h| - 1], UserPrefix) then Some(|h| - 1)
    else
      var r := LastUserIndex(h[..|h| - 1]);
      assert forall i :: 0 <= i < |h| - 1 ==> h[..|h| - 1][i] == h[i];
      r
  }

  /** The text after `User: ` of the latest history entry that starts so. */
  function LastUserMessage(h: seq<string>): Option<string> {
    match LastUserIndex(h)
    case None => None
    case Some(i) => Some(h[i][|UserPrefix|..])
  }

  /** Enter: answer the pending prompt, or send a fresh request when idle. */
  function OnEnter(s: AppState): AppState {
    if UnderApproval(s) then
      if s.pendingApproval.Some? && s.pendingInput.Some? then
        s.(pendingApproval := None, pendingInput := None, processing := true,
           history := s.history + ["Processing approval..."],
           spawned := s.spawned + [Spawn(s.pendingInput.value, Some(s.pendingApproval.value))],
           input := "")
      else
        s.(pendingApproval := None, input := "")
    else if s.pendingPrompt.Some? then
      s.(history := s.history + [UserPrefix + s.input, "Processing clarification..."],
         input := "", processing := true, spawned := s.spawned + [Spawn(s.input, None)])
    else if !s.processing then
      s.(history := s.history + [UserPrefix + s.input, "Processing request..."],
         input := "", processing := true, spawned := s.spawned + [Spawn(s.input, None)])
    else
      s
  }

  function OnKey(s: AppState, k: Key): AppState {
    if Busy(s) then s
    else
      match k
      case Char(c) =>
        if IsAnswerLetter(c) then
          s.(pendingApproval := if UnderApproval(s) then Some(c == 'y' || c == 'Y') else s.pendingApproval,
             input := s.input + [c])
        else if c == CtrlD then s.(shouldQuit := true)
        else if Editable(s) then s.(input := s.input + [c])
        else s
      case Backspace =>
        if Editable(s) && |s.input| > 0 then s.(input := s.input[..|s.input| - 1]) else s
      case Up =>
        if s.pendingPrompt.None? && LastUserMessage(s.history).Some? then
          s.(input := LastUserMessage(s.history).value)
        else s
      case Enter => OnEnter(s)
      case Esc => s.(shouldQuit := true)
      case OtherKey => s
  }

  function PromptLine(p: PromptType): string {
    match p
    case Approval(m) => "Approval: " + m
    case Clarification(m) => "Clarification: " + m
  }

  /** A finished task: the outcome it sent back over the result channel. */
  function OnResult(s: AppState, r: Result<Option<PromptType>, string>): AppState {
    match r
    case Ok(None) => s.(processing := false)
    case Ok(Some(p)) =>
      s.(processing := false, history := s.history + [PromptLine(p)],
         input := if p.Clarification? then "" else s.input, pendingPrompt := Some(p))
    case Err(e) => s.(processing := false, history := s.history + ["Error: " + e])
  }

  function Next(s: AppState, e: Event): AppState {
    match e
    case Input(k) => OnKey(s, k)
    case ScrollUp => s.(scroll := if s.scroll == 0 then 0 else s.scroll - 1)
    case ScrollDown => s.(scroll := if s.scroll == MaxScroll then MaxScroll else s.scroll + 1)
    case Tick => s
    case OutputLine(msg) => s.(history := s.history + [msg])
    case RunDone(r) => OnResult(s, r)
  }

  /**
   * The event loop on a finite stream: the state after it and the number of
   * events taken. The loop ends after the first event that leaves
   * `shouldQuit` set; an ignored key goes straight to the next event.
   */
  function RunEvents(s: AppState, es: seq<Event>): (AppState, nat)
    decreases |es|
  {
    if |es| == 0 then (s, 0)
    else
      var t := Next(s, es[0]);
      if t.shouldQuit && !(es[0].Input? && Busy(s)) then (t, 1)
      else
        var r := RunEvents(t, es[1..]);
        (r.0, r.1 + 1)
  }

  class App {
    var shouldQuit: bool
    var processing: bool
    var pendingPrompt: Option<PromptType>
    var pendingInput: Option<string>
    var pendingApproval: Option<bool>
    var input: string
    var history: seq<string>
    var scroll: u16
    var spawned: seq<Spawn>

    function State(): AppState
      reads this
    {
      AppState(shouldQuit, processing, pendingPrompt, pendingInput, pendingApproval,
               input, history, scroll, spawned)
    }

    constructor()
      ensures State() == Initial
    {
      shouldQuit := false;
      processing := false;
      pendingPrompt := None;
      pendingInput := None;
      pendingApproval := None;
      input := "";
      history := [];
      scroll := 0;
      spawned := [];
    }

    method HandleKey(k: Key)
      modifies this
      ensures State() == OnKey(old(State()), k)
    {
      if processing && pendingPrompt.None? {
        return;
      }
      match k
      case Char(c) =>
        if IsAnswerLetter(c) {
          if pendingPrompt.Some? && pendingPrompt.value.Approval? {
            pendingApproval := Some(c == 'y' || c == 'Y');
          }
          input := input + [c];
        } else if c == CtrlD {
          shouldQuit := true;
        } else if pendingPrompt.None? || pendingPrompt.value.Clarification? {
          input := input + [c];
        }
      case Backspace =>
        if (pendingPrompt.None? || pendingPrompt.value.Clarification?) && |input| > 0 {
          input := input[..|input| - 1];
        }
      case Up =>
        if pendingPrompt.None? {
          var last := LastUserMessage(history);
          if last.Some? {
            input := last.value;
          }
        }
      case Enter => HandleEnter();
      case Esc => shouldQuit := true;
      case OtherKey =>
    }

    method HandleEnter()
      modifies this
      ensures State() == OnEnter(old(State()))
    {
      if pendingPrompt.Some? {
        if pendingPrompt.value.Approval? {
          var approval := pendingApproval;
          pendingApproval := None;
          if approval.Some? {
            var pending := pendingInput;
            pendingInput := None;
            if pending.Some? {
              processing := true;
              history := history + ["Processing approval..."];
              spawned := spawned + [Spawn(pending.value, Some(approval.value))];
            } else {
              pendingInput := pending;
            }
          }
          input := "";
        } else {
          var answer := input;
          history := history + [UserPrefix + answer];
          input := "";
          processing := true;
          history := history + ["Processing clarification..."];
          spawned := spawned + [Spawn(answer, None)];
        }
      } else if !processing {
        var request := input;
        history := history + [UserPrefix + request];
        input := "";
        processing := true;
        history := history + ["Processing request..."];
        spawned := spawned + [Spawn(request, None)];
      }
    }

    method HandleResult(r: Result<Option<PromptType>, string>)
      modifies this
      ensures State() == OnResult(old(State()), r)
    {
      processing := false;
      match r
      case Ok(Some(p)) =>
        history := history + [PromptLine(p)];
        if p.Clarification? {
          input := "";
        }
        pendingPrompt := Some(p);
      case Ok(None) =>
      case Err(e) =>
        history := history + ["Error: " + e];
    }

    method Handle(e: Event)
      modifies this
      ensures State() == Next(old(State()), e)
    {
      match e
      case Input(k) => HandleKey(k);
      case ScrollUp => scroll := if scroll == 0 then 0 else scroll - 1;
      case ScrollDown => scroll := if scroll == MaxScroll then MaxScroll else scroll + 1;
      case Tick =>
      case OutputLine(msg) => history := history + [msg];
      case RunDone(r) => HandleResult(r);
    }

    /** The body of `App::run` between entering and leaving the alternate screen. */
    method Run(events: seq<Event>) returns (handled: nat)
      modifies this
      ensures (State(), handled) == RunEvents(old(State()), events)
    {
      var i := 0;
      while i < |events|
        invariant 0 <= i <= |events|
        invariant var rest := RunEvents(State(), events[i..]);
          RunEvents(old(State()), events) == (rest.0, i + rest.1)
      {
        var e := events[i];
        assert events[i..][1..] == events[i + 1..];
        var ignored := e.Input? && processing && pendingPrompt.None?;
        Handle(e);
        i := i + 1;
        if shouldQuit && !ignored {
          return i;
        }
      }
      return i;
    }
  }

  /** While a request runs with no prompt pending, every key is ignored, Esc included. */
  lemma BusyIgnoresKeys(s: AppState, k: Key)
    requires Busy(s)
    ensures OnKey(s, k) == s
    ensures RunEvents(s, [Input(k)]) == (s, 1)
  {
  }

  /** Esc and Ctrl-D set `shouldQuit` and nothing else, and end the loop at once. */
  lemma QuitKeys(s: AppState, k: Key, rest: seq<Event>)
    requires !Busy(s)
    requires k == Esc || k == Char(CtrlD)
    ensures OnKey(s, k) == s.(shouldQuit := true)
    ensures RunEvents(s, [Input(k)] + rest) == (s.(shouldQuit := true), 1)
  {
    assert ([Input(k)] + rest)[0] == Input(k);
  }

  /**
   * `y`, `Y`, `n` and `N` always go into the input; only under an approval
   * prompt do they also record the answer, yes for `y`/`Y` and no for `n`/`N`.
   */
  lemma AnswerLetters(s: AppState, c: char)
    requires !Busy(s) && IsAnswerLetter(c)
    ensures var t := OnKey(s, Char(c));
      && t.input == s.input + [c]
      && (UnderApproval(s) ==> t.pendingApproval == Some(c == 'y' || c == 'Y'))
      && (!UnderApproval(s) ==> t.pendingApproval == s.pendingApproval)
      && t == s.(input := t.input, pendingApproval := t.pendingApproval)
  {
  }

  /**
   * Any other character and Backspace edit the input exactly when typing is
   * accepted; Backspace removes the last character and leaves an empty input empty.
   */
  lemma EditingKeys(s: AppState, c: char)
    requires !Busy(s) && !IsAnswerLetter(c) && c != CtrlD
    ensures OnKey(s, Char(c)) == if Editable(s) then s.(input := s.input + [c]) else s
    ensures var t := OnKey(s, Backspace);
      && t == s.(input := t.input)
      && (!Editable(s) || s.input == [] ==> t.input == s.input)
      && (Editable(s) && s.input != [] ==> t.input + [s.input[|s.input| - 1]] == s.input)
  {
  }

  /** Up with no prompt recalls the text of the latest `User: ` line, if there is one. */
  lemma UpRecallsLastRequest(s: AppState, m: string, older: seq<string>, newer: seq<string>)
    requires !Busy(s) && s.pendingPrompt.None?
    requires s.history == older + [UserPrefix + m] + newer
    requires forall j :: 0 <= j < |newer| ==> !StartsWith(newer[j], UserPrefix)
    ensures OnKey(s, Up) == s.(input := m)
  {
    var h := s.history;
    assert h[|older|] == UserPrefix + m;
    assert StartsWith(h[|older|], UserPrefix) by {
      assert h[|older|][..|UserPrefix|] == UserPrefix;
    }
    var i := LastUserIndex(h).value;
    if i < |older| {
      assert false;
    } else if i > |older| {
      assert false;
    }
    assert h[i][|UserPrefix|..] == m;
  }

  /**
   * Enter when idle with no prompt logs the request, clears the input, marks
   * the front end busy and starts exactly one run with that input and no
   * approval override.
   */
  lemma FreshRequest(s: AppState)
    requires s.pendingPrompt.None? && !s.processing
    ensures OnKey(s, Enter) == s.(history := s.history + [UserPrefix + s.input, "Processing request..."],
                                  input := "", processing := true,
                                  spawned := s.spawned + [Spawn(s.input, None)])
  {
  }

  /**
   * Enter under an approval prompt uses up the recorded answer and clears
   * the input, and starts a run only when an input is pending; the prompt
   * itself stays.
   */
  lemma ApprovalEnter(s: AppState)
    requires UnderApproval(s)
    ensures var t := OnKey(s, Enter);
      && t.pendingApproval == None && t.input == "" && t.pendingPrompt == s.pendingPrompt
      && (s.pendingInput.None? ==> t == s.(pendingApproval := None, input := ""))
      && (|t.spawned| > |s.spawned| <==> s.pendingApproval.Some? && s.pendingInput.Some?)
  {
  }

  /**
   * Enter under a clarification prompt sends the typed answer as a new run
   * whether or not one is already running, and leaves the prompt pending.
   */
  lemma ClarificationEnter(s: AppState, m: string)
    requires s.pendingPrompt == Some(Clarification(m))
    ensures OnKey(s, Enter) == s.(history := s.history + [UserPrefix + s.input, "Processing clarification..."],
                                  input := "", processing := true,
                                  spawned := s.spawned + [Spawn(s.input, None)])
  {
  }

  /**
   * A result clears `processing`; a prompt becomes the pending prompt and is
   * logged (a clarification also clears the input), an error is logged, and
   * a plain success adds nothing.
   */
  lemma ResultArrives(s: AppState, r: Result<Option<PromptType>, string>)
    ensures var t := OnResult(s, r);
      && !t.processing
      && t.shouldQuit == s.shouldQuit && t.spawned == s.spawned && t.scroll == s.scroll
      && t.pendingApproval == s.pendingApproval && t.pendingInput == s.pendingInput
      && (r == Ok(None) ==> t == s.(processing := false))
      && (r.Err? ==> t == s.(processing := false, history := s.history + ["Error: " + r.error]))
      && (r.Ok? && r.value.Some? ==>
            && t.pendingPrompt == r.value
            && t.history == s.history + [PromptLine(r.value.value)]
            && t.input == (if r.value.value.Clarification? then "" else s.input))
  {
  }

  /** The scroll offset moves by one and saturates at both ends of `u16`. */
  lemma ScrollSaturates(s: AppState)
    ensures Next(s, ScrollUp).scroll as int == if s.scroll == 0 then 0 else s.scroll as int - 1
    ensures Next(s, ScrollDown).scroll as int == if s.scroll == MaxScroll then MaxScroll as int else s.scroll as int + 1
    ensures Next(s, ScrollUp) == s.(scroll := Next(s, ScrollUp).scroll)
    ensures Next(s, ScrollDown) == s.(scroll := Next(s, ScrollDown).scroll)
  {
  }

  /**
   * Over any stream of events the history and the started runs only grow,
   * output lines land in the history in the order they arrive, and no run
   * ever gets an approval override while no input is pending, which in the
   * front end is always: nothing ever sets it.
   */
  lemma {:induction false} RunGrowsOnly(s: AppState, es: seq<Event>)
    requires s.pendingInput.None?
    ensures var (t, n) := RunEvents(s, es);
      && n <= |es|
      && s.history <= t.history && s.spawned <= t.spawned
      && t.pendingInput.None?
      && (forall i :: |s.spawned| <= i < |t.spawned| ==> t.spawned[i].approval.None?)
      && (n < |es| ==> t.shouldQuit)
    decreases |es|
  {
    if |es| > 0 {
      var u := Next(s, es[0]);
      NextGrows(s, es[0]);
      if !(u.shouldQuit && !(es[0].Input? && Busy(s))) {
        RunGrowsOnly(u, es[1..]);
        var t := RunEvents(u, es[1..]).0;
        assert forall i :: |s.spawned| <= i < |t.spawned| ==> t.spawned[i].approval.None? by {
          forall i | |s.spawned| <= i < |t.spawned| ensures t.spawned[i].approval.None? {
            if i < |u.spawned| {
              assert t.spawned[i] == u.spawned[i];
            }
          }
        }
      }
    }
  }

  /** One event: the same facts, for a single step. */
  lemma NextGrows(s: AppState, e: Event)
    requires s.pendingInput.None?
    ensures var u := Next(s, e);
      && s.history <= u.history && s.spawned <= u.spawned && u.pendingInput.None?
      && forall i :: |s.spawned| <= i < |u.spawned| ==> u.spawned[i].approval.None?
  {
    if e.Input? && e.key.Enter? {
      EnterGrows(s);
    }
  }

  lemma EnterGrows(s: AppState)
    requires s.pendingInput.None?
    ensures var u := OnEnter(s);
      && s.history <= u.history && s.spawned <= u.spawned && u.pendingInput.None?
      && forall i :: |s.spawned| <= i < |u.spawned| ==> u.spawned[i].approval.None?
  {
  }

  /** Output lines alone are appended to the history one by one, in arrival order, and never end the loop. */
  lemma {:induction false} OutputInOrder(s: AppState, msgs: seq<string>)
    requires !s.shouldQuit
    ensures RunEvents(s, seq(|msgs|, i requires 0 <= i < |msgs| => OutputLine(msgs[i])))
            == (s.(history := s.history + msgs), |msgs|)
    decreases |msgs|
  {
    var es := seq(|msgs|, i requires 0 <= i < |msgs| => OutputLine(msgs[i]));
    if |msgs| > 0 {
      var u := s.(history := s.history + [msgs[0]]);
      assert Next(s, es[0]) == u;
      assert es[1..] == seq(|msgs[1..]|, i requires 0 <= i < |msgs[1..]| => OutputLine(msgs[1..][i]));
      OutputInOrder(u, msgs[1..]);
      assert u.history + msgs[1..] == s.history + msgs;
    } else {
      assert s.history + msgs == s.history;
    }
  }
}
