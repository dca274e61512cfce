/** One cycle of `main`'s `while True` loop and finite runs of cycles.
    The state is the two "last sent" slots, the fixed poll window, the sent
    messages and the window each fetch asked for. `Step` and `Run` specify
    the cycle; `Poller` is the loop itself, updating its fields in place. */
module PollLoop {
  import opened PyValues
  import opened ApiClient
  import RV = ResponseValidator
  import opened StatusFormatter

  const RetryPeriod := 600
  // Written in two pieces only so that the verifier can look inside it.
  const Greeting := "Я буду инфорировать о статусе " + "проверки твоей домашки."
  const NoDataLead := "Работа пока не на проверке: "
  const FailureLead := "Сбой в работе программы: "

  /** How the `try` block of a cycle ends: one of the two `except` clauses
      turned the exception into a message, or the head record was fetched
      and the `else` branch runs. */
  datatype TryOutcome = Handled(message: string) | Fetched(homework: map<string, Json>)

  /** An exception no handler of the cycle catches; it ends `main`. */
  datatype Fault = FormatFault(error: FormatError) | TelegramFault

  /** Whether the bot delivers the message the cycle tries to send, if any. */
  datatype CycleInput = CycleInput(reply: HttpReply, delivered: bool)

  datatype PollState = PollState(
    timestamp: int,
    savedStatus: string,
    savedError: string,
    outbox: seq<string>,
    fetches: seq<int>)

  datatype StepResult = StepResult(next: PollState, fault: Option<Fault>)

  predicate IsStatusText(m: string) { |m| > 0 && m[0] == StatusLead[0] }

  predicate IsErrorText(m: string) { |m| > 0 && (m[0] == NoDataLead[0] || m[0] == FailureLead[0]) }

  /** The `try` block: fetch, validate, take the head record; the two
      handlers build their messages from the exception text. */
  function TryBlock(reply: HttpReply): (r: TryOutcome)
    // the else branch runs exactly on a 200 reply whose document passes validation
    ensures r.Fetched? <==>
      GetApiAnswer(reply).Answer? && RV.CheckResponse(GetApiAnswer(reply).response) == RV.Ok
    // the benign no-data message comes from the validator's no-data error and nothing else
    ensures r == Handled(NoDataLead + RV.NoHomeworkData) <==>
      GetApiAnswer(reply).Answer? && RV.CheckResponse(GetApiAnswer(reply).response).NoData?
    // every other handled exception is reported as a program failure
    ensures r.Handled? && r != Handled(NoDataLead + RV.NoHomeworkData) ==>
      |r.message| >= |FailureLead| && r.message[..|FailureLead|] == FailureLead
    ensures r.Handled? ==> IsErrorText(r.message)
    // the else branch receives the head of the homework list
    ensures r.Fetched? ==> r.homework == RV.FirstHomework(GetApiAnswer(reply).response)
    // each caught error becomes its handler's lead followed by the exception's text
    ensures GetApiAnswer(reply).ConnectionError? ==> r == Handled(FailureText(GetApiAnswer(reply).detail))
    ensures GetApiAnswer(reply).DecodeError? ==> r == Handled(FailureText(GetApiAnswer(reply).detail))
    ensures GetApiAnswer(reply).Answer? && RV.CheckResponse(GetApiAnswer(reply).response).TypeErr? ==>
      r == Handled(FailureText(RV.CheckResponse(GetApiAnswer(reply).response).detail))
    ensures GetApiAnswer(reply).Answer? && RV.CheckResponse(GetApiAnswer(reply).response).NoData? ==>
      r == Handled(NoDataLead + RV.CheckResponse(GetApiAnswer(reply).response).detail)
  {
    match GetApiAnswer(reply)
    case ConnectionError(detail) => Handled(FailureText(detail))
    case DecodeError(detail) => Handled(FailureText(detail))
    case Answer(response) =>
      match RV.CheckResponse(response)
      case NoData(detail) => Handled(NoDataLead + detail)
      case TypeErr(detail) => Handled(FailureText(detail))
      case Ok => Fetched(RV.FirstHomework(response))
  }

  /** The message of the catch-all handler. It can never be mistaken for a
      no-data message: the two leads differ in their first character. */
  function FailureText(detail: string): (m: string)
    ensures |m| >= |FailureLead| && m[..|FailureLead|] == FailureLead
    ensures m[0] != NoDataLead[0]
  {
    FailureLead + detail
  }

  /** The state when the loop is first entered: the window starts one retry
      period before `now`, both slots are empty, the greeting was sent. */
  function Start(now: int): PollState
  {
    PollState(now - RetryPeriod, "", "", [Greeting], [])
  }

  /** One cycle. A message is sent only when it differs from its slot; the
      slot is overwritten only after the send returns. */
  function Step(s: PollState, input: CycleInput): (r: StepResult)
    // every cycle fetches once, with the unchanged window
    ensures r.next.timestamp == s.timestamp && r.next.fetches == s.fetches + [s.timestamp]
    // at most one message is sent, after the earlier ones
    ensures |s.outbox| <= |r.next.outbox| <= |s.outbox| + 1 && r.next.outbox[..|s.outbox|] == s.outbox
    // a sent message is what its slot holds afterwards
    ensures |r.next.outbox| == |s.outbox| + 1 ==>
      r.fault == None &&
      (r.next.outbox[|s.outbox|] == r.next.savedStatus || r.next.outbox[|s.outbox|] == r.next.savedError)
    // an escaping cycle sends nothing and writes no slot
    ensures r.fault.Some? ==> r.next == s.(fetches := s.fetches + [s.timestamp])
    // a head record `parse_status` rejects escapes with the formatter's error
    ensures TryBlock(input.reply).Fetched? && ParseStatus(TryBlock(input.reply).homework).Failed? ==>
      r.fault == Some(FormatFault(ParseStatus(TryBlock(input.reply).homework).error))
    // only a formatter error or an undelivered send escapes
    ensures r.fault == Some(TelegramFault) ==> !input.delivered
  {
    var polled := s.(fetches := s.fetches + [s.timestamp]);
    match TryBlock(input.reply)
    case Handled(message) =>
      if message == s.savedError then StepResult(polled, None)
      else if !input.delivered then StepResult(polled, Some(TelegramFault))
      else StepResult(polled.(outbox := s.outbox + [message], savedError := message), None)
    case Fetched(homework) =>
      match ParseStatus(homework)
      case Failed(error) => StepResult(polled, Some(FormatFault(error)))
      case Message(message) =>
        if s.savedStatus == message then StepResult(polled, None)
        else if !input.delivered then StepResult(polled, Some(TelegramFault))
        else StepResult(polled.(outbox := s.outbox + [message], savedStatus := message), None)
  }

  /** Cycles in order until one raises an uncaught exception. */
  function Run(s: PollState, inputs: seq<CycleInput>): (r: StepResult)
    // the window never moves; messages and fetches are only ever appended
    ensures r.next.timestamp == s.timestamp
    ensures |s.outbox| <= |r.next.outbox| && r.next.outbox[..|s.outbox|] == s.outbox
    ensures |s.fetches| <= |r.next.fetches| && r.next.fetches[..|s.fetches|] == s.fetches
    // no cycle can add more than one message
    ensures |r.next.outbox| <= |s.outbox| + |inputs|
    decreases |inputs|
  {
    if inputs == [] then StepResult(s, None)
    else
      var r := Step(s, inputs[0]);
      if r.fault.Some? then r else Run(r.next, inputs[1..])
  }

  predicate NoAdjacentDuplicates(q: seq<string>)
  {
    forall k :: 0 < k < |q| ==> q[k - 1] != q[k]
  }

  /** What every reachable state satisfies: each slot is empty or holds a
      message of its own kind, the last message sent is the greeting or the
      content of a slot, no message was sent twice in a row, and every fetch
      asked for the same window. */
  predicate Inv(s: PollState)
  {
    |s.outbox| > 0 &&
    (s.savedStatus == "" || IsStatusText(s.savedStatus)) &&
    (s.savedError == "" || IsErrorText(s.savedError)) &&
    (var last := s.outbox[|s.outbox| - 1]; last == Greeting || last == s.savedStatus || last == s.savedError) &&
    NoAdjacentDuplicates(s.outbox) &&
    forall k :: 0 <= k < |s.fetches| ==> s.fetches[k] == s.timestamp
  }

  class Poller {
    const timestamp: int
    var savedHomeworkStatus: string
    var savedErrorMessage: string
    var outbox: seq<string>
    var fetches: seq<int>

    function State(): PollState
      reads this
    {
      PollState(timestamp, savedHomeworkStatus, savedErrorMessage, outbox, fetches)
    }

    /** `main` after a successful start-up: window fixed, greeting sent. */
    constructor (now: int)
      ensures State() == Start(now)
    {
      timestamp := now - RetryPeriod;
      savedHomeworkStatus := "";
      savedErrorMessage := "";
      outbox := [Greeting];
      fetches := [];
    }

    /** `send_message`: the text joins the outbox only when the bot delivers it. */
    method SendMessage(message: string, delivered: bool) returns (ok: bool)
      modifies this
      ensures ok == delivered
      ensures outbox == old(outbox) + (if delivered then [message] else [])
      ensures savedHomeworkStatus == old(savedHomeworkStatus)
      ensures savedErrorMessage == old(savedErrorMessage)
      ensures fetches == old(fetches)
    {
      ok := delivered;
      if delivered {
        outbox := outbox + [message];
      }
    }

    /** The body of `while True`. Returns the exception that escapes it, if any. */
    method Cycle(input: CycleInput) returns (fault: Option<Fault>)
      modifies this
      ensures StepResult(State(), fault) == Step(old(State()), input)
      // the window asked for never moves
      ensures fetches == old(fetches) + [timestamp]
    {
      fetches := fetches + [timestamp];
      fault := None;
      match TryBlock(input.reply)
      case Handled(message) =>
        if message != savedErrorMessage {
          var ok := SendMessage(message, input.delivered);
          if !ok {
            return Some(TelegramFault);
          }
          savedErrorMessage := message;
        }
      case Fetched(homework) =>
        var formatted := ParseStatus(homework);
        if formatted.Failed? {
          return Some(FormatFault(formatted.error));
        }
        var message := formatted.text;
        if savedHomeworkStatus != message {
          var ok := SendMessage(message, input.delivered);
          if !ok {
            return Some(TelegramFault);
          }
          savedHomeworkStatus := message;
        }
    }

    /** The loop over a finite sequence of cycles; stops at the first escape. */
    method Poll(inputs: seq<CycleInput>) returns (fault: Option<Fault>)
      modifies this
      ensures StepResult(State(), fault) == Run(old(State()), inputs)
    {
      var i := 0;
      while i < |inputs|
        invariant 0 <= i <= |inputs|
        invariant Run(old(State()), inputs) == Run(State(), inputs[i..])
      {
        assert inputs[i..][1..] == inputs[i + 1..];
        fault := Cycle(inputs[i]);
        if fault.Some? {
          return;
        }
        i := i + 1;
      }
      fault := None;
    }
  }
}
