/** The chat page's controller: four pieces of component state (`messages`, `input`,
    `loading`, `lang`) and the handlers that change them. The transitions are stated
    once, as functions on a `State` value; the `ChatSession` class performs them in
    place, and `Run` strings them together into any sequence of user and network
    events. */
module Session {
  import opened Text
  import opened Locale
  import opened Transcript

  datatype Option<T> = None | Some(value: T)

  datatype State = State(messages: seq<Turn>, input: string, loading: bool, lang: Lang)

  /** Empty history, empty input box, not loading, Japanese labels. */
  const Initial: State := State([], "", false, Ja)

  /** What a send attempt leaves: the new state and, when a request was issued, the
      history it captured (`newMessages`), which is what the request carries and what
      its settlement writes back. */
  datatype Begun = Begun(state: State, snapshot: Option<seq<Turn>>)

  /** Typing in the text area replaces the input and nothing else. */
  function OnInput(s: State, text: string): (r: State)
    ensures r.input == text
    ensures r.messages == s.messages && r.loading == s.loading && r.lang == s.lang
  {
    s.(input := text)
  }

  /** The synchronous part of the send handler. Blank input (only whitespace, or
      nothing) is refused and changes nothing. Otherwise the untrimmed input is
      appended as one user turn, every earlier turn stays as it was, the input box
      is emptied, the page starts loading, and the new history is captured. */
  function OnSend(s: State): (b: Begun)
    ensures b.snapshot.None? <==> IsBlank(s.input)
    ensures b.snapshot.None? ==> b.state == s
    ensures b.snapshot.Some? ==>
              && b.snapshot.value == b.state.messages
              && |b.state.messages| == |s.messages| + 1
              && b.state.messages[..|s.messages|] == s.messages
              && b.state.messages[|s.messages|] == Turn(User, s.input)
              && b.state.input == ""
              && b.state.loading
    ensures b.state.lang == s.lang
    ensures NoSystemTurns(s.messages) ==> NoSystemTurns(b.state.messages)
  {
    if IsBlank(s.input) then Begun(s, None)
    else
      var newMessages := s.messages + [Turn(User, s.input)];
      Begun(State(newMessages, "", true, s.lang), Some(newMessages))
  }

  /** A request settles: the history becomes the captured snapshot followed by exactly
      one assistant turn, whatever the history held meanwhile, and loading stops. */
  function OnSettle(s: State, snapshot: seq<Turn>, outcome: Outcome): (r: State)
    ensures |r.messages| == |snapshot| + 1
    ensures r.messages[..|snapshot|] == snapshot
    ensures r.messages[|snapshot|].role == Assistant
    ensures outcome.Success? ==> r.messages[|snapshot|].content == outcome.reply
    ensures outcome.Failure? ==> r.messages[|snapshot|].content == ErrorMessage
    ensures !r.loading && r.input == s.input && r.lang == s.lang
    ensures NoSystemTurns(snapshot) ==> NoSystemTurns(r.messages)
  {
    State(snapshot + [ReplyTurn(outcome)], s.input, false, s.lang)
  }

  /** The clear button empties the history and touches nothing else, even while a
      request is outstanding. */
  function OnClear(s: State): (r: State)
    ensures r.messages == []
    ensures r.input == s.input && r.loading == s.loading && r.lang == s.lang
  {
    s.(messages := [])
  }

  /** The language button flips the display language and touches nothing else. */
  function OnToggle(s: State): (r: State)
    ensures r.lang != s.lang
    ensures r.messages == s.messages && r.input == s.input && r.loading == s.loading
  {
    s.(lang := Toggle(s.lang))
  }

  /** Pressing the language button twice restores the page exactly. */
  lemma ToggleTwiceRestores(s: State)
    ensures OnToggle(OnToggle(s)) == s
  {
    ToggleTwice(s.lang);
  }

  /** The send button is disabled while loading: a click then does nothing; otherwise
      it runs the send handler. */
  function OnClick(s: State): (b: Begun)
    ensures s.loading ==> b == Begun(s, None)
    ensures !s.loading ==> b == OnSend(s)
  {
    if s.loading then Begun(s, None) else OnSend(s)
  }

  /** Enter without Shift runs the send handler, with no check of `loading`; any other
      key issues nothing here. */
  function OnKeyDown(s: State, key: string, shiftKey: bool): (b: Begun)
    ensures key == "Enter" && !shiftKey ==> b == OnSend(s)
    ensures !(key == "Enter" && !shiftKey) ==> b == Begun(s, None)
  {
    if key == "Enter" && !shiftKey then OnSend(s) else Begun(s, None)
  }

  /** An accepted send followed by its settlement grows the history by exactly two
      turns, the user's and the assistant's, and leaves the page idle. */
  lemma SendThenSettle(s: State, outcome: Outcome)
    requires !IsBlank(s.input)
    ensures var b := OnSend(s);
            var r := OnSettle(b.state, b.snapshot.value, outcome);
            && r.messages == s.messages + [Turn(User, s.input)] + [ReplyTurn(outcome)]
            && r.input == "" && !r.loading && r.lang == s.lang
  {
    var b := OnSend(s);
    assert b.snapshot.value == s.messages + [Turn(User, s.input)];
  }

  /** Clearing while a request is outstanding is undone when it settles: the cleared
      turns come back, because the settlement writes the captured snapshot. */
  lemma ClearWhilePendingIsUndone(s: State, outcome: Outcome)
    requires !IsBlank(s.input)
    ensures var b := OnSend(s);
            var r := OnSettle(OnClear(b.state), b.snapshot.value, outcome);
            && r == OnSettle(b.state, b.snapshot.value, outcome)
            && r.messages == s.messages + [Turn(User, s.input)] + [ReplyTurn(outcome)]
  {
    SendThenSettle(s, outcome);
  }

  /** Enter while a request is outstanding issues a second request. If the first
      settles first, the page stops loading while the second is still outstanding,
      and when the second settles the first reply is dropped from the history. */
  lemma OverlappingSendsSettleInOrder(s: State, second: string, first: Outcome, last: Outcome)
    requires !IsBlank(s.input) && !IsBlank(second)
    ensures var b1 := OnSend(s);
            var b2 := OnKeyDown(OnInput(b1.state, second), "Enter", false);
            && b1.state.loading
            && b2.snapshot.Some?
            && !OnSettle(b2.state, b1.snapshot.value, first).loading
            && OnSettle(OnSettle(b2.state, b1.snapshot.value, first), b2.snapshot.value, last).messages
                 == s.messages + [Turn(User, s.input)] + [Turn(User, second)] + [ReplyTurn(last)]
  {
    var b1 := OnSend(s);
    var typed := OnInput(b1.state, second);
    assert typed.loading && typed.input == second;
    var b2 := OnKeyDown(typed, "Enter", false);
    assert b2 == OnSend(typed);
    assert b2.snapshot.value == s.messages + [Turn(User, s.input)] + [Turn(User, second)];
  }

  /** If the second of two overlapping requests settles first, the first one's
      settlement then drops the second user turn and its reply. */
  lemma OverlappingSendsSettleReversed(s: State, second: string, first: Outcome, last: Outcome)
    requires !IsBlank(s.input) && !IsBlank(second)
    ensures var b1 := OnSend(s);
            var b2 := OnKeyDown(OnInput(b1.state, second), "Enter", false);
            && b2.snapshot.Some?
            && OnSettle(OnSettle(b2.state, b2.snapshot.value, last), b1.snapshot.value, first).messages
                 == s.messages + [Turn(User, s.input)] + [ReplyTurn(first)]
  {
    var b1 := OnSend(s);
    var typed := OnInput(b1.state, second);
    assert typed.input == second;
    var b2 := OnKeyDown(typed, "Enter", false);
    assert b2 == OnSend(typed);
    assert b1.snapshot.value == s.messages + [Turn(User, s.input)];
  }

  /** Any sequence of events the page can receive. `Settle(k, o)` is the k-th
      outstanding request (in issue order) settling with `o`. */
  datatype Event =
    | Type(text: string)
    | Click
    | KeyDown(key: string, shiftKey: bool)
    | Clear
    | SwitchLang
    | Settle(request: nat, outcome: Outcome)

  /** The page state together with the snapshots of the requests still outstanding. */
  datatype Machine = Machine(state: State, pending: seq<seq<Turn>>)

  function Issue(m: Machine, b: Begun): Machine {
    match b.snapshot
    case None => Machine(b.state, m.pending)
    case Some(snapshot) => Machine(b.state, m.pending + [snapshot])
  }

  function Step(m: Machine, e: Event): Machine {
    match e
    case Type(text) => Machine(OnInput(m.state, text), m.pending)
    case Click => Issue(m, OnClick(m.state))
    case KeyDown(key, shiftKey) => Issue(m, OnKeyDown(m.state, key, shiftKey))
    case Clear => Machine(OnClear(m.state), m.pending)
    case SwitchLang => Machine(OnToggle(m.state), m.pending)
    case Settle(k, outcome) =>
      if k < |m.pending| then
        Machine(OnSettle(m.state, m.pending[k], outcome), m.pending[..k] + m.pending[k + 1..])
      else m
  }

  function Run(m: Machine, events: seq<Event>): Machine
    decreases |events|
  {
    if events == [] then m else Run(Step(m, events[0]), events[1..])
  }

  /** What holds of every reachable machine: no system turn is ever stored, in the
      history or in a captured snapshot; every snapshot ends with the user turn that
      caused it; and the page never shows loading without a request outstanding. */
  ghost predicate Inv(m: Machine) {
    && NoSystemTurns(m.state.messages)
    && (m.state.loading ==> m.pending != [])
    && forall k :: 0 <= k < |m.pending| ==> WellFormedSnapshot(m.pending[k])
  }

  ghost predicate WellFormedSnapshot(snapshot: seq<Turn>) {
    snapshot != [] && snapshot[|snapshot| - 1].role == User && NoSystemTurns(snapshot)
  }

  lemma IssueKeepsInv(m: Machine, b: Begun)
    requires Inv(m)
    requires b.snapshot.None? ==> b.state.loading == m.state.loading
    requires b.snapshot.None? ==> NoSystemTurns(b.state.messages)
    requires b.snapshot.Some? ==> WellFormedSnapshot(b.snapshot.value) && NoSystemTurns(b.state.messages)
    ensures Inv(Issue(m, b))
  {
    if b.snapshot.Some? {
      var p := m.pending + [b.snapshot.value];
      assert forall k :: 0 <= k < |m.pending| ==> p[k] == m.pending[k];
    }
  }

  lemma StepKeepsInv(m: Machine, e: Event)
    requires Inv(m)
    ensures Inv(Step(m, e))
  {
    match e
    case Click =>
      IssueKeepsInv(m, OnClick(m.state));
    case KeyDown(key, shiftKey) =>
      IssueKeepsInv(m, OnKeyDown(m.state, key, shiftKey));
    case Settle(k, outcome) =>
      if k < |m.pending| {
        var rest := m.pending[..k] + m.pending[k + 1..];
        assert forall j :: 0 <= j < |rest| ==> rest[j] == m.pending[if j < k then j else j + 1];
      }
    case _ =>
  }

  lemma {:induction false} RunKeepsInv(m: Machine, events: seq<Event>)
    requires Inv(m)
    ensures Inv(Run(m, events))
    decreases |events|
  {
    if events != [] {
      StepKeepsInv(m, events[0]);
      RunKeepsInv(Step(m, events[0]), events[1..]);
    }
  }

  /** From the freshly loaded page, whatever happens, the history never holds a system
      turn, every outstanding request carries exactly one system turn and it is first,
      and loading implies an outstanding request. */
  lemma Reachable(events: seq<Event>)
    ensures var m := Run(Machine(Initial, []), events);
            && NoSystemTurns(m.state.messages)
            && (m.state.loading ==> m.pending != [])
            && forall k, i :: 0 <= k < |m.pending| && 0 <= i < |RequestFor(m.pending[k]).messages| ==>
                 (RequestFor(m.pending[k]).messages[i].role == System <==> i == 0)
  {
    RunKeepsInv(Machine(Initial, []), events);
  }

  /** The page component: its four state variables, changed in place by the
      handlers. */
  class ChatSession {
    var messages: seq<Turn>
    var input: string
    var loading: bool
    var lang: Lang

    function View(): State
      reads this
    {
      State(messages, input, loading, lang)
    }

    ghost predicate Valid()
      reads this
    {
      NoSystemTurns(messages)
    }

    constructor ()
      ensures Valid() && View() == Initial
    {
      messages, input, loading, lang := [], "", false, Ja;
    }

    /** The text area's change handler. */
    method SetInput(text: string)
      requires Valid()
      modifies this
      ensures Valid() && View() == OnInput(old(View()), text)
    {
      input := text;
    }

    /** The send handler up to the request: returns the captured history, or `None`
        when the input was blank and nothing happened. */
    method BeginSend() returns (snapshot: Option<seq<Turn>>)
      requires Valid()
      modifies this
      ensures Valid() && Begun(View(), snapshot) == OnSend(old(View()))
      ensures snapshot.Some? ==> WellFormedSnapshot(snapshot.value)
    {
      ghost var before := View();
      var blank := Trim(input) == [];
      assert blank == IsBlank(before.input);
      if blank {
        snapshot := None;
        assert OnSend(before) == Begun(before, None);
        return;
      }
      var newMessages := messages + [Turn(User, input)];
      assert OnSend(before) == Begun(State(newMessages, "", true, lang), Some(newMessages));
      messages := newMessages;
      input := "";
      loading := true;
      snapshot := Some(newMessages);
    }

    /** The send handler after the request settles: writes the snapshot plus one
        assistant turn and stops loading. */
    method Resolve(snapshot: seq<Turn>, outcome: Outcome)
      requires Valid() && NoSystemTurns(snapshot)
      modifies this
      ensures Valid() && View() == OnSettle(old(View()), snapshot, outcome)
    {
      messages := snapshot + [ReplyTurn(outcome)];
      loading := false;
    }

    /** The send button, disabled while loading. */
    method ClickSend() returns (snapshot: Option<seq<Turn>>)
      requires Valid()
      modifies this
      ensures Valid() && Begun(View(), snapshot) == OnClick(old(View()))
      ensures snapshot.Some? ==> WellFormedSnapshot(snapshot.value)
    {
      if loading {
        return None;
      }
      snapshot := BeginSend();
    }

    /** The text area's key handler: Enter without Shift sends, busy or not. */
    method KeyDown(key: string, shiftKey: bool) returns (snapshot: Option<seq<Turn>>)
      requires Valid()
      modifies this
      ensures Valid() && Begun(View(), snapshot) == OnKeyDown(old(View()), key, shiftKey)
      ensures snapshot.Some? ==> WellFormedSnapshot(snapshot.value)
    {
      if key == "Enter" && !shiftKey {
        snapshot := BeginSend();
      } else {
        snapshot := None;
      }
    }

    method Clear()
      requires Valid()
      modifies this
      ensures Valid() && View() == OnClear(old(View()))
    {
      messages := [];
    }

    method ToggleLang()
      requires Valid()
      modifies this
      ensures Valid() && View() == OnToggle(old(View()))
    {
      lang := Toggle(lang);
    }

    /** The whole send handler when nothing else happens before the request settles;
        `complete` stands for the completion service answering the request. */
    method HandleSend(complete: Request -> Outcome)
      requires Valid()
      modifies this
      ensures Valid()
      ensures IsBlank(old(input)) ==> View() == old(View())
      ensures !IsBlank(old(input)) ==>
                var snapshot := old(messages) + [Turn(User, old(input))];
                && messages == snapshot + [ReplyTurn(complete(RequestFor(snapshot)))]
                && input == "" && !loading && lang == old(lang)
    {
      var snapshot := BeginSend();
      if snapshot.Some? {
        var request := RequestFor(snapshot.value);
        Resolve(snapshot.value, complete(request));
      }
    }
  }
}
