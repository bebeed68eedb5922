/** The assistant's session (App.tsx, the App component): the event list, the
    chat log, the UI state record and the date of the last daily summary,
    changed by handling a command and by one tick of the summary timer.

    The interpreter is not called: its answer comes in as `reply`, and each
    operation gives back the request it would have sent (None when it sends
    none). The clock comes in as `hour`, `minute`, `today` (the local date
    string), `isToday` (whether an event starts on the current local day) and
    `dateLabel` (the long-form date the summary's lead-in names). */
module AppSession {
  import opened CalendarTypes
  import opened JsText
  import opened Shortcut
  import opened Summary

  /** The whole state one step reads and writes. */
  datatype Snapshot = Snapshot(
    events: seq<CalendarEvent>,
    messages: seq<Message>,
    appState: AppState,
    lastSummaryDate: Option<string>)

  const Greeting: string :=
    "Ciao! Sono Lucy, la tua assistente calendario intelligente. Come posso aiutarti a organizzare la tua giornata?"

  /** The settings at start-up: not loading, wake word "lucy", summary at
      08:00, not listening. */
  const InitialAppState: AppState := AppState(false, "lucy", "08:00", false)

  /** The state at start-up, around the initial event list: the greeting
      alone in the log and no summary given yet. */
  function InitialState(events: seq<CalendarEvent>): Snapshot
  {
    Snapshot(events, [Message(Assistant, Greeting)], InitialAppState, None)
  }

  /** The summary time the session starts with reads as 8 o'clock sharp. */
  lemma InitialSummaryAtEight()
    ensures ParseTime(InitialAppState.summaryTime) == ClockTarget(Some(8), Some(0))
  {
    assert InitialAppState.summaryTime == FormatTime(8, 0);
    ParseFormattedTime(8, 0);
  }

  const AckHead: string := "Provo ad aprire "
  const AckTail: string := "..."

  /** The acknowledgement of a launch request. */
  function LaunchAck(program: string): string
  {
    AckHead + program + AckTail
  }

  const ErrorHead: string := "Errore: "
  const FallbackError: string := "Ho riscontrato un problema. Riprova."

  /** The text a failed command call reports: the error's own message when
      an `Error` was thrown, a fixed text otherwise. */
  function ErrorText(thrown: Thrown): (text: string)
    ensures |text| >= |ErrorHead| && text[..|ErrorHead|] == ErrorHead
    ensures thrown.ErrorObject? ==> text[|ErrorHead|..] == thrown.message
    ensures thrown.OtherValue? ==> text[|ErrorHead|..] == FallbackError
  {
    ErrorHead + match thrown
                 case ErrorObject(message) => message
                 case OtherValue => FallbackError
  }

  /** The assistant's line after the interpreter answered a command. */
  function CommandReplyText(reply: Interpretation): string
  {
    match reply
    case Answer(responseText, _) => responseText
    case Failed(thrown) => ErrorText(thrown)
  }

  /** The event list after the interpreter answered a command: replaced
      wholesale when the answer carries a list, kept otherwise. */
  function EventsAfter(events: seq<CalendarEvent>, reply: Interpretation): seq<CalendarEvent>
  {
    if reply.Answer? && reply.updatedEvents.Some? then reply.updatedEvents.value else events
  }

  /** The interpreter request `handleCommand` sends: the command and the
      current events, on the interpreter route only. */
  function CommandRequest(s: Snapshot, command: string): Option<Request>
  {
    if Classify(command) == Interpret then Some(Request(command, s.events)) else None
  }

  /** The state after `handleCommand(command)` has run to its end. The empty
      command changes nothing; any other, white space alone included, first
      logs the command as the user's line and then exactly one assistant
      line, ends not loading, and leaves the settings and the summary date
      alone. Only the interpreter route can change the events. */
  function CommandStep(s: Snapshot, command: string, reply: Interpretation): (t: Snapshot)
    ensures command == "" ==> t == s
    ensures command != "" ==>
              |t.messages| == |s.messages| + 2 &&
              t.messages[..|s.messages|] == s.messages &&
              t.messages[|s.messages|] == Message(User, command) &&
              t.messages[|s.messages| + 1].sender == Assistant &&
              t.appState == s.appState.(isLoading := false)
    ensures t.lastSummaryDate == s.lastSummaryDate
    ensures Classify(command) != Interpret ==> t.events == s.events
  {
    match Classify(command)
    case Ignore => s
    case Launch(program) =>
      s.(messages := s.messages + [Message(User, command)] + [Message(Assistant, LaunchAck(program))],
         appState := s.appState.(isLoading := false))
    case Interpret =>
      s.(messages := s.messages + [Message(User, command)] + [Message(Assistant, CommandReplyText(reply))],
         events := EventsAfter(s.events, reply),
         appState := s.appState.(isLoading := false))
  }

  /** Whether a tick at this clock reading fires. */
  predicate TickFires(s: Snapshot, hour: int, minute: int, today: string)
  {
    ShouldFire(ParseTime(s.appState.summaryTime), hour, minute, today, s.lastSummaryDate)
  }

  /** The interpreter request a tick sends: the summary prompt and today's
      events, when it fires. */
  function TickRequest(s: Snapshot, hour: int, minute: int, today: string, isToday: CalendarEvent -> bool): Option<Request>
  {
    if TickFires(s, hour, minute, today) then Some(Request(SummaryPrompt(today), TodayEvents(s.events, isToday))) else None
  }

  /** The state after one tick of the summary timer has run to its end. A
      tick never touches the events or the settings; it adds one assistant
      line and records today's date when it fires, and nothing otherwise. */
  function TickStep(s: Snapshot, hour: int, minute: int, today: string, dateLabel: string, reply: Interpretation): (t: Snapshot)
    ensures t.events == s.events
    ensures t.appState.triggerWord == s.appState.triggerWord && t.appState.summaryTime == s.appState.summaryTime
    ensures |t.messages| >= |s.messages| && t.messages[..|s.messages|] == s.messages
    ensures TickFires(s, hour, minute, today) ==>
              |t.messages| == |s.messages| + 1 && t.messages[|s.messages|].sender == Assistant &&
              t.lastSummaryDate == Some(today)
    ensures !TickFires(s, hour, minute, today) ==> t == s
  {
    if TickFires(s, hour, minute, today) then
      s.(lastSummaryDate := Some(today),
         messages := s.messages + [Message(Assistant, SummaryText(dateLabel, reply))],
         appState := s.appState.(isLoading := false))
    else
      s
  }

  /** The state after the settings change the wake word and the summary time
      and the timer is set up again. */
  function ReconfigureStep(s: Snapshot, triggerWord: string, summaryTime: string): (t: Snapshot)
    ensures t.events == s.events && t.messages == s.messages && t.lastSummaryDate == s.lastSummaryDate
    ensures t.appState.isLoading == s.appState.isLoading && t.appState.isListening == s.appState.isListening
    ensures ParseTime(t.appState.summaryTime) == ParseTime(summaryTime)
  {
    s.(appState := s.appState.(triggerWord := triggerWord, summaryTime := summaryTime))
  }

  class Session {
    var events: seq<CalendarEvent>
    var messages: seq<Message>
    var appState: AppState
    var lastSummaryDate: Option<string>

    function State(): Snapshot
      reads this
    {
      Snapshot(events, messages, appState, lastSummaryDate)
    }

    constructor (initialEvents: seq<CalendarEvent>)
      ensures State() == InitialState(initialEvents)
    {
      events := initialEvents;
      messages := [Message(Assistant, Greeting)];
      appState := InitialAppState;
      lastSummaryDate := None;
    }

    /** Appends one line to the chat log and changes nothing else. */
    method AddMessage(sender: Sender, text: string)
      modifies this
      ensures messages == old(messages) + [Message(sender, text)]
      ensures events == old(events) && appState == old(appState) && lastSummaryDate == old(lastSummaryDate)
    {
      messages := messages + [Message(sender, text)];
    }

    /** `handleCommand`, run to its end with the interpreter's answer `reply`;
        gives back the request sent to the interpreter, if any. */
    method HandleCommand(command: string, reply: Interpretation) returns (request: Option<Request>)
      modifies this
      ensures request == CommandRequest(old(State()), command)
      ensures State() == CommandStep(old(State()), command, reply)
    {
      if command == "" {
        return None;
      }
      AddMessage(User, command);
      appState := appState.(isLoading := true);

      var programMatch := MatchLaunch(ToLower(command));
      if programMatch.Some? {
        var programName := Trim(programMatch.value);
        AddMessage(Assistant, LaunchAck(programName));
        appState := appState.(isLoading := false);
        return None;
      }

      request := Some(Request(command, events));
      match reply {
        case Answer(responseText, updatedEvents) =>
          AddMessage(Assistant, responseText);
          if updatedEvents.Some? {
            events := updatedEvents.value;
          }
        case Failed(thrown) =>
          AddMessage(Assistant, ErrorText(thrown));
      }
      appState := appState.(isLoading := false);
    }

    /** One run of the summary timer's body, with the interpreter's answer
        `reply`; gives back the request sent, if the tick fired. */
    method Tick(hour: int, minute: int, today: string, isToday: CalendarEvent -> bool, dateLabel: string, reply: Interpretation)
      returns (request: Option<Request>)
      modifies this
      ensures request == TickRequest(old(State()), hour, minute, today, isToday)
      ensures State() == TickStep(old(State()), hour, minute, today, dateLabel, reply)
    {
      var target := ParseTime(appState.summaryTime);
      var last := lastSummaryDate;
      if !ShouldFire(target, hour, minute, today, last) {
        return None;
      }
      lastSummaryDate := Some(today);
      appState := appState.(isLoading := true);

      var todayEvents := TodayEvents(events, isToday);
      request := Some(Request(SummaryPrompt(today), todayEvents));
      AddMessage(Assistant, SummaryText(dateLabel, reply));
      appState := appState.(isLoading := false);
    }

    /** New settings for the wake word and the summary time; the timer is set
        up again, and the date of the last summary is kept. */
    method Reconfigure(triggerWord: string, summaryTime: string)
      modifies this
      ensures State() == ReconfigureStep(old(State()), triggerWord, summaryTime)
    {
      appState := appState.(triggerWord := triggerWord, summaryTime := summaryTime);
    }
  }

  // ---- One command ----

  /** The empty command changes nothing and sends nothing. */
  lemma EmptyCommandChangesNothing(s: Snapshot, reply: Interpretation)
    ensures CommandStep(s, "", reply) == s
    ensures CommandRequest(s, "") == None
  {
  }

  /** The launch shortcut acknowledges with the program's name, keeps the
      events, and neither asks the interpreter nor depends on its answer. */
  lemma LaunchPath(s: Snapshot, command: string, program: string, reply: Interpretation, other: Interpretation)
    requires Classify(command) == Launch(program)
    ensures CommandStep(s, command, reply).messages ==
              s.messages + [Message(User, command), Message(Assistant, AckHead + program + AckTail)]
    ensures CommandStep(s, command, reply).events == s.events
    ensures CommandRequest(s, command) == None
    ensures CommandStep(s, command, reply) == CommandStep(s, command, other)
  {
  }

  /** On the interpreter route a successful answer adds its text as the
      assistant's line and makes its event list, if any, the new one with
      nothing merged; without a list the events stay. */
  lemma InterpreterSuccess(s: Snapshot, command: string, responseText: string, updated: Option<seq<CalendarEvent>>)
    requires Classify(command) == Interpret
    ensures var t := CommandStep(s, command, Answer(responseText, updated));
      t.messages == s.messages + [Message(User, command), Message(Assistant, responseText)] &&
      t.events == (if updated.Some? then updated.value else s.events)
    ensures CommandRequest(s, command) == Some(Request(command, s.events))
  {
  }

  /** On the interpreter route a failure keeps the events and adds one error
      line: "Errore: " and the error's message, or a fixed text when what was
      thrown is not an `Error`. */
  lemma InterpreterFailure(s: Snapshot, command: string, thrown: Thrown)
    requires Classify(command) == Interpret
    ensures var t := CommandStep(s, command, Failed(thrown));
      t.events == s.events &&
      t.messages == s.messages + [Message(User, command), Message(Assistant,
        ErrorHead + if thrown.ErrorObject? then thrown.message else FallbackError)]
  {
  }

  // ---- One tick ----

  /** A tick that does not fire changes nothing and sends nothing. */
  lemma QuietTick(s: Snapshot, hour: int, minute: int, today: string, isToday: CalendarEvent -> bool,
                  dateLabel: string, reply: Interpretation)
    requires !TickFires(s, hour, minute, today)
    ensures TickStep(s, hour, minute, today, dateLabel, reply) == s
    ensures TickRequest(s, hour, minute, today, isToday) == None
  {
  }

  /** With a summary time whose hour or minute is not a number, or that has
      no minute, no tick fires, so no tick changes anything. */
  lemma MalformedTimeTickIsQuiet(s: Snapshot, hour: int, minute: int, today: string,
                                 isToday: CalendarEvent -> bool, dateLabel: string, reply: Interpretation)
    requires ParseTime(s.appState.summaryTime).hour == None || ParseTime(s.appState.summaryTime).minute == None
    ensures TickStep(s, hour, minute, today, dateLabel, reply) == s
    ensures TickRequest(s, hour, minute, today, isToday) == None
  {
    MalformedTimeNeverFires(s.appState.summaryTime, hour, minute, today, s.lastSummaryDate);
  }

  /** A firing tick records today's date, shows the interpreter only today's
      events, never touches the events, adds exactly one assistant line and
      ends not loading. */
  lemma FiringTick(s: Snapshot, hour: int, minute: int, today: string, isToday: CalendarEvent -> bool,
                   dateLabel: string, reply: Interpretation)
    requires TickFires(s, hour, minute, today)
    ensures var t := TickStep(s, hour, minute, today, dateLabel, reply);
      t.lastSummaryDate == Some(today) &&
      t.events == s.events &&
      t.messages == s.messages + [Message(Assistant,
        if reply.Answer? then LeadIn + dateLabel + ":\n\n" + reply.responseText else SummaryFailure)] &&
      !t.appState.isLoading
    ensures var r := TickRequest(s, hour, minute, today, isToday);
      r.Some? && (forall e :: e in r.value.events <==> e in s.events && isToday(e))
  {
  }

  /** Once a tick has fired, no later tick on the same date fires, whatever
      the clock shows; a tick at the configured time on another date does. */
  lemma NoSecondSummarySameDay(s: Snapshot, hour: int, minute: int, today: string, dateLabel: string,
                               reply: Interpretation, hour2: int, minute2: int, tomorrow: string)
    requires TickFires(s, hour, minute, today)
    ensures !TickFires(TickStep(s, hour, minute, today, dateLabel, reply), hour2, minute2, today)
    ensures tomorrow != today ==> TickFires(TickStep(s, hour, minute, today, dateLabel, reply), hour, minute, tomorrow)
  {
  }

  /** Setting the timer up again keeps the date of the last summary, so a new
      summary time on the same date does not bring a second summary. */
  lemma ReconfigureKeepsSummaryDate(s: Snapshot, triggerWord: string, summaryTime: string, hour: int, minute: int)
    requires s.lastSummaryDate.Some?
    ensures ReconfigureStep(s, triggerWord, summaryTime).lastSummaryDate == s.lastSummaryDate
    ensures !TickFires(ReconfigureStep(s, triggerWord, summaryTime), hour, minute, s.lastSummaryDate.value)
  {
  }
}
