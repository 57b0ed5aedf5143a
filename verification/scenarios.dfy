/** Runs of the page component from a fresh load, with the completion service's answer
    supplied by the caller. Each returns what the page shows at the end. */
module Scenarios {
  import opened Text
  import opened Transcript
  import opened Session

  /** "Hello" is sent and the service answers "Hi there". */
  method ReplyArrives() returns (history: seq<Turn>, busy: bool)
    ensures history == [Turn(User, "Hello"), Turn(Assistant, "Hi there")]
    ensures !busy
  {
    var page := new ChatSession();
    page.SetInput("Hello");
    assert !IsBlank(page.input) by { assert !IsWhitespace(page.input[0]); }
    var snapshot := page.ClickSend();
    assert page.messages == [Turn(User, "Hello")] && page.loading && page.input == "";
    page.Resolve(snapshot.value, Success("Hi there"));
    history, busy := page.messages, page.loading;
  }

  /** "Hello" is sent and the request fails: the fixed error text is shown. */
  method RequestFails(cause: FailureCause) returns (history: seq<Turn>, busy: bool)
    ensures history == [Turn(User, "Hello"), Turn(Assistant, ErrorMessage)]
    ensures !busy
  {
    var page := new ChatSession();
    page.SetInput("Hello");
    assert !IsBlank(page.input) by { assert !IsWhitespace(page.input[0]); }
    var snapshot := page.ClickSend();
    page.Resolve(snapshot.value, Failure(cause));
    history, busy := page.messages, page.loading;
  }

  /** Two spaces are sent: nothing happens, and the spaces stay in the input box. */
  method BlankIgnored() returns (history: seq<Turn>, busy: bool, input: string, issued: bool)
    ensures history == [] && !busy && input == "  " && !issued
  {
    var page := new ChatSession();
    page.SetInput("  ");
    assert IsBlank(page.input);
    var snapshot := page.ClickSend();
    history, busy, input, issued := page.messages, page.loading, page.input, snapshot.Some?;
  }

  /** "A" is sent, "B" is typed and the disabled button is clicked before the reply:
      only "A" and its reply are shown, and "B" waits in the input box. */
  method ClickWhileBusy() returns (history: seq<Turn>, input: string)
    ensures history == [Turn(User, "A"), Turn(Assistant, "R")]
    ensures input == "B"
  {
    var page := new ChatSession();
    page.SetInput("A");
    assert !IsBlank(page.input) by { assert !IsWhitespace(page.input[0]); }
    var first := page.ClickSend();
    assert first == Some([Turn(User, "A")]) && page.loading;
    page.SetInput("B");
    var second := page.ClickSend();
    assert second.None?;
    page.Resolve(first.value, Success("R"));
    history, input := page.messages, page.input;
  }

  /** "A" is sent and the history is cleared before the reply "R": the cleared user
      turn comes back with the reply. */
  method ClearBeforeReply() returns (cleared: seq<Turn>, history: seq<Turn>)
    ensures cleared == []
    ensures history == [Turn(User, "A"), Turn(Assistant, "R")]
  {
    var page := new ChatSession();
    page.SetInput("A");
    assert !IsBlank(page.input) by { assert !IsWhitespace(page.input[0]); }
    var snapshot := page.ClickSend();
    assert snapshot == Some([Turn(User, "A")]);
    page.Clear();
    cleared := page.messages;
    page.Resolve(snapshot.value, Success("R"));
    history := page.messages;
  }

  /** "A" is sent, then "B" with the Enter key before the reply: a second request is
      issued. "A"'s reply "R1" arrives first and stops loading although "B" is still
      outstanding; "B"'s reply "R2" then replaces the history, dropping "R1". */
  method EnterWhileBusy() returns (between: seq<Turn>, busyBetween: bool, history: seq<Turn>)
    ensures between == [Turn(User, "A"), Turn(Assistant, "R1")] && !busyBetween
    ensures history == [Turn(User, "A"), Turn(User, "B"), Turn(Assistant, "R2")]
  {
    var page := new ChatSession();
    page.SetInput("A");
    assert !IsBlank(page.input) by { assert !IsWhitespace(page.input[0]); }
    var first := page.KeyDown("Enter", false);
    assert first == Some([Turn(User, "A")]);
    page.SetInput("B");
    assert !IsBlank(page.input) by { assert !IsWhitespace(page.input[0]); }
    var second := page.KeyDown("Enter", false);
    assert second == Some([Turn(User, "A")] + [Turn(User, "B")]);
    page.Resolve(first.value, Success("R1"));
    between, busyBetween := page.messages, page.loading;
    page.Resolve(second.value, Success("R2"));
    history := page.messages;
  }
}
