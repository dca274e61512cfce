/** What the poll loop promises across cycles: duplicate suppression per
    slot, the shared error slot, escapes, the fixed window, and that no
    message is ever sent twice in a row. */
module PollProperties {
  import opened PyValues
  import opened ApiClient
  import RV = ResponseValidator
  import opened StatusFormatter
  import opened PollLoop

  lemma RunOne(s: PollState, input: CycleInput)
    ensures Run(s, [input]) == Step(s, input)
  {
    assert [input][1..] == [];
  }

  lemma RunFirst(s: PollState, input: CycleInput, rest: seq<CycleInput>)
    ensures Run(s, [input] + rest) ==
      if Step(s, input).fault.Some? then Step(s, input) else Run(Step(s, input).next, rest)
  {
    assert ([input] + rest)[1..] == rest;
  }

  /** A cycle whose fetch succeeds and whose record formats to a text. */
  predicate Formats(input: CycleInput)
  {
    TryBlock(input.reply).Fetched? && ParseStatus(TryBlock(input.reply).homework).Message?
  }

  function StatusOf(input: CycleInput): string
    requires Formats(input)
  {
    ParseStatus(TryBlock(input.reply).homework).text
  }

  /** A cycle whose `try` block ends in one of the two handlers. */
  predicate Reports(input: CycleInput)
  {
    TryBlock(input.reply).Handled?
  }

  function ErrorOf(input: CycleInput): string
    requires Reports(input)
  {
    TryBlock(input.reply).message
  }

  /** After a successful fetch, the status text is sent iff it differs from
      the status slot; a delivered send sets the slot to the text; the error
      slot is left alone. */
  lemma StatusCycle(s: PollState, input: CycleInput)
    requires Formats(input)
    ensures var r := Step(s, input); var m := StatusOf(input);
      r.next.savedError == s.savedError &&
      r.next.fetches == s.fetches + [s.timestamp] &&
      (m == s.savedStatus ==> r.fault == None && r.next.outbox == s.outbox && r.next.savedStatus == m) &&
      (m != s.savedStatus && input.delivered ==>
        r.fault == None && r.next.outbox == s.outbox + [m] && r.next.savedStatus == m) &&
      (m != s.savedStatus && !input.delivered ==>
        r.fault == Some(TelegramFault) && r.next.outbox == s.outbox && r.next.savedStatus == s.savedStatus)
  {
  }

  /** The same payload on two consecutive cycles is sent at most once, and
      the second cycle sends nothing. */
  lemma RepeatedStatusSentOnce(s: PollState, input: CycleInput)
    requires Formats(input) && input.delivered
    ensures var r := Run(s, [input, input]);
      r.fault == None &&
      r.next.outbox == s.outbox + (if StatusOf(input) == s.savedStatus then [] else [StatusOf(input)]) &&
      r.next.savedStatus == StatusOf(input)
  {
    var r1 := Step(s, input);
    StatusCycle(s, input);
    StatusCycle(r1.next, input);
    RunFirst(s, input, [input]);
    RunOne(r1.next, input);
  }

  /** Both handlers share one slot: the message is sent iff it differs from
      that slot, which then holds it; the status slot is left alone. */
  lemma ErrorCycle(s: PollState, input: CycleInput)
    requires Reports(input)
    ensures var r := Step(s, input); var m := ErrorOf(input);
      r.next.savedStatus == s.savedStatus &&
      r.next.fetches == s.fetches + [s.timestamp] &&
      (m == s.savedError ==> r.fault == None && r.next.outbox == s.outbox && r.next.savedError == m) &&
      (m != s.savedError && input.delivered ==>
        r.fault == None && r.next.outbox == s.outbox + [m] && r.next.savedError == m) &&
      (m != s.savedError && !input.delivered ==>
        r.fault == Some(TelegramFault) && r.next.outbox == s.outbox && r.next.savedError == s.savedError)
  {
  }

  /** The same error on two consecutive cycles is sent at most once, and the
      second cycle sends nothing. */
  lemma RepeatedErrorSentOnce(s: PollState, input: CycleInput)
    requires Reports(input) && input.delivered
    ensures var r := Run(s, [input, input]);
      r.fault == None &&
      r.next.outbox == s.outbox + (if ErrorOf(input) == s.savedError then [] else [ErrorOf(input)]) &&
      r.next.savedError == ErrorOf(input)
  {
    var r1 := Step(s, input);
    ErrorCycle(s, input);
    ErrorCycle(r1.next, input);
    RunFirst(s, input, [input]);
    RunOne(r1.next, input);
  }

  /** A successful status cycle in between does not reset the error slot:
      the same error after it is still suppressed. */
  lemma {:induction false} ErrorSuppressedAcrossSuccess(s: PollState, err: CycleInput, ok: CycleInput)
    requires Reports(err) && Formats(ok) && err.delivered && ok.delivered
    ensures var before := Run(s, [err, ok]);
      var after := Run(s, [err, ok, err]);
      before.fault == None && after.fault == None && after.next.outbox == before.next.outbox
  {
    var r1 := Step(s, err);
    ErrorCycle(s, err);
    var r2 := Step(r1.next, ok);
    StatusCycle(r1.next, ok);
    ErrorCycle(r2.next, err);
    RunFirst(s, err, [ok]);
    RunOne(r1.next, ok);
    RunFirst(s, err, [ok, err]);
    RunFirst(r1.next, ok, [err]);
    RunOne(r2.next, err);
  }

  /** Error A followed by a different error B sends B as well. */
  lemma DistinctErrorsBothSent(s: PollState, a: CycleInput, b: CycleInput)
    requires Reports(a) && Reports(b) && a.delivered && b.delivered
    requires ErrorOf(a) != ErrorOf(b)
    ensures var r := Run(s, [a, b]);
      r.fault == None &&
      r.next.outbox == s.outbox + (if ErrorOf(a) == s.savedError then [] else [ErrorOf(a)]) + [ErrorOf(b)] &&
      r.next.savedError == ErrorOf(b)
  {
    var r1 := Step(s, a);
    ErrorCycle(s, a);
    ErrorCycle(r1.next, b);
    RunFirst(s, a, [b]);
    RunOne(r1.next, b);
  }

  /** An exception that escapes a cycle leaves both slots and the outbox as
      they were: slots are written only after a send returns. */
  lemma EscapeChangesNothing(s: PollState, input: CycleInput)
    requires Step(s, input).fault.Some?
    ensures Step(s, input).next == s.(fetches := s.fetches + [s.timestamp])
    ensures Step(s, input).fault == Some(TelegramFault) ==> input.delivered == false
    ensures Step(s, input).fault.value.FormatFault? ==>
      TryBlock(input.reply).Fetched? && ParseStatus(TryBlock(input.reply).homework).Failed?
  {
  }

  /** A head record that `parse_status` rejects ends the loop: no handler of
      the cycle catches the formatter's exception, nothing is sent and no
      slot is written, whether or not the bot would deliver. */
  lemma FormatErrorEscapes(s: PollState, input: CycleInput, more: seq<CycleInput>)
    requires TryBlock(input.reply).Fetched? && ParseStatus(TryBlock(input.reply).homework).Failed?
    ensures Step(s, input) ==
      StepResult(s.(fetches := s.fetches + [s.timestamp]),
                 Some(FormatFault(ParseStatus(TryBlock(input.reply).homework).error)))
    ensures Run(s, [input] + more) == Step(s, input)
  {
    RunFirst(s, input, more);
  }

  /** Once a cycle escapes, the loop is over: later cycles never run. */
  lemma {:induction false} RunStopsAtFault(s: PollState, inputs: seq<CycleInput>, more: seq<CycleInput>)
    requires Run(s, inputs).fault.Some?
    ensures Run(s, inputs + more) == Run(s, inputs)
    decreases |inputs|
  {
    assert inputs != [];
    assert (inputs + more)[0] == inputs[0];
    var r := Step(s, inputs[0]);
    if r.fault == None {
      assert (inputs + more)[1..] == inputs[1..] + more;
      RunStopsAtFault(r.next, inputs[1..], more);
    }
  }

  /** Every fetch asks for the window fixed at start-up, one fetch per cycle run. */
  lemma {:induction false} RunKeepsWindow(s: PollState, inputs: seq<CycleInput>)
    requires forall k :: 0 <= k < |s.fetches| ==> s.fetches[k] == s.timestamp
    ensures var r := Run(s, inputs);
      r.next.timestamp == s.timestamp &&
      (forall k :: 0 <= k < |r.next.fetches| ==> r.next.fetches[k] == s.timestamp) &&
      (r.fault == None ==> |r.next.fetches| == |s.fetches| + |inputs|)
    decreases |inputs|
  {
    if inputs != [] {
      var r := Step(s, inputs[0]);
      assert r.next.fetches == s.fetches + [s.timestamp];
      if r.fault == None {
        RunKeepsWindow(r.next, inputs[1..]);
      }
    }
  }

  lemma AppendKeepsNoAdjacentDuplicates(q: seq<string>, m: string)
    requires NoAdjacentDuplicates(q) && |q| > 0 && m != q[|q| - 1]
    ensures NoAdjacentDuplicates(q + [m])
  {
    var q' := q + [m];
    forall k | 0 < k < |q'| ensures q'[k - 1] != q'[k] {
      if k < |q| {
        assert q'[k - 1] == q[k - 1] && q'[k] == q[k];
      }
    }
  }

  /** A fetch that sends nothing keeps the invariant. */
  lemma PolledKeepsInv(s: PollState)
    requires Inv(s)
    ensures Inv(s.(fetches := s.fetches + [s.timestamp]))
  {
  }

  /** Sending a new status text keeps the invariant. */
  lemma StatusSentKeepsInv(s: PollState, m: string)
    requires Inv(s) && IsStatusText(m) && m != s.savedStatus
    ensures Inv(s.(fetches := s.fetches + [s.timestamp], outbox := s.outbox + [m], savedStatus := m))
  {
    var last := s.outbox[|s.outbox| - 1];
    assert Greeting[0] != StatusLead[0];
    assert m != last;
    AppendKeepsNoAdjacentDuplicates(s.outbox, m);
  }

  /** Sending a new error text keeps the invariant. */
  lemma ErrorSentKeepsInv(s: PollState, m: string)
    requires Inv(s) && IsErrorText(m) && m != s.savedError
    ensures Inv(s.(fetches := s.fetches + [s.timestamp], outbox := s.outbox + [m], savedError := m))
  {
    var last := s.outbox[|s.outbox| - 1];
    assert Greeting[0] != NoDataLead[0] && Greeting[0] != FailureLead[0];
    assert StatusLead[0] != NoDataLead[0] && StatusLead[0] != FailureLead[0];
    assert m != last;
    AppendKeepsNoAdjacentDuplicates(s.outbox, m);
  }

  /** One cycle keeps the invariant and adds at most one message to the outbox. */
  lemma StepKeepsInv(s: PollState, input: CycleInput)
    requires Inv(s)
    ensures Inv(Step(s, input).next)
    ensures |s.outbox| <= |Step(s, input).next.outbox| <= |s.outbox| + 1
    ensures Step(s, input).next.outbox[..|s.outbox|] == s.outbox
  {
    var r := Step(s, input);
    PolledKeepsInv(s);
    match TryBlock(input.reply)
    case Handled(m) =>
      if m != s.savedError && input.delivered {
        ErrorSentKeepsInv(s, m);
      }
    case Fetched(h) =>
      if ParseStatus(h).Message? {
        var m := ParseStatus(h).text;
        assert IsStatusText(m);
        if m != s.savedStatus && input.delivered {
          StatusSentKeepsInv(s, m);
        }
      }
  }

  /** The invariant holds along every run. */
  lemma {:induction false} RunKeepsInv(s: PollState, inputs: seq<CycleInput>)
    requires Inv(s)
    ensures Inv(Run(s, inputs).next)
    ensures |Run(s, inputs).next.outbox| >= |s.outbox|
    ensures Run(s, inputs).next.outbox[..|s.outbox|] == s.outbox
    decreases |inputs|
  {
    if inputs != [] {
      var r := Step(s, inputs[0]);
      StepKeepsInv(s, inputs[0]);
      if r.fault == None {
        RunKeepsInv(r.next, inputs[1..]);
        var q := Run(r.next, inputs[1..]).next.outbox;
        assert q[..|r.next.outbox|][..|s.outbox|] == q[..|s.outbox|];
      }
    }
  }

  /** From start-up on, whatever the API and the bot do, the user never
      receives the same message twice in a row, the greeting comes first,
      and every fetch asks for the window fixed at start-up. */
  lemma NoMessageTwiceInARow(now: int, inputs: seq<CycleInput>)
    ensures var r := Run(Start(now), inputs);
      NoAdjacentDuplicates(r.next.outbox) &&
      |r.next.outbox| > 0 && r.next.outbox[0] == Greeting &&
      forall k :: 0 <= k < |r.next.fetches| ==> r.next.fetches[k] == now - RetryPeriod
  {
    RunKeepsInv(Start(now), inputs);
    RunKeepsWindow(Start(now), inputs);
  }

  /** End to end: the first answer about `hw1` sends its verdict, the same
      answer on the next cycle sends nothing. */
  lemma ScenarioSameAnswerTwice(now: int)
    ensures var hw1 := JObject(map["homework_name" := JStr("hw1"), "status" := JStr(Reviewing)]);
      var answer := CycleInput(Reply(200, Parsed(JObject(map["homeworks" := JList([hw1])]))), true);
      var r1 := Step(Start(now), answer);
      var r2 := Step(r1.next, answer);
      r1.fault == None && r2.fault == None &&
      r1.next.outbox == [Greeting, StatusLead + "hw1" + VerdictLead + "Работа взята на проверку ревьюером."] &&
      r2.next.outbox == r1.next.outbox
  {
    var hw1 := JObject(map["homework_name" := JStr("hw1"), "status" := JStr(Reviewing)]);
    var response := JObject(map["homeworks" := JList([hw1])]);
    assert RV.CheckResponse(response) == RV.Ok;
    assert RV.FirstHomework(response) == hw1.fields;
    assert ParseStatus(hw1.fields) == Message(StatusText("hw1", HomeworkVerdicts[Reviewing]));
  }

  /** End to end: an HTTP 500 reports the connection failure and the loop goes on. */
  lemma ScenarioServerError(now: int)
    ensures var r := Step(Start(now), CycleInput(Reply(500, Parsed(JNull)), true));
      r.fault == None && r.next.outbox == [Greeting, FailureLead + EndpointUnreachable]
  {
  }

  /** End to end: an empty homework list reports "not under review yet". */
  lemma ScenarioNoHomeworks(now: int)
    ensures var empty := CycleInput(Reply(200, Parsed(JObject(map["homeworks" := JList([])]))), true);
      var r := Step(Start(now), empty);
      r.fault == None && r.next.outbox == [Greeting, NoDataLead + RV.NoHomeworkData]
  {
  }
}
