/** The pure parts of the daily-summary timer (App.tsx, scheduleSummary):
    reading the configured "HH:mm" time, deciding whether a tick fires,
    choosing today's events and wording the request and the reply. */
module Summary {
  import opened CalendarTypes
  import opened JsText

  /** The hour and the minute that `summaryTime.split(':').map(Number)`
      yields. None stands for a part that is not a number (NaN), that is no
      integer, or, for the minute, that is missing (`undefined`): none of
      these equals any clock reading. */
  datatype ClockTarget = ClockTarget(hour: Option<int>, minute: Option<int>)

  /** Without a colon the whole setting is the hour and the minute is
      missing (`undefined`), so an all-blank setting is hour 0 with no minute. */
  function ParseTime(summaryTime: string): (target: ClockTarget)
    ensures ':' !in summaryTime ==> target == ClockTarget(ParseNumber(summaryTime), None)
  {
    var parts := Split(summaryTime);
    SplitColonFree(summaryTime);
    ClockTarget(ParseNumber(parts[0]), if |parts| >= 2 then ParseNumber(parts[1]) else None)
  }

  /** The tick fires exactly when the clock shows the configured hour and
      minute and the summary has not yet been given on this date. */
  predicate ShouldFire(target: ClockTarget, hour: int, minute: int, today: string, lastSummaryDate: Option<string>)
    ensures ShouldFire(target, hour, minute, today, lastSummaryDate) ==> target.hour.Some? && target.minute.Some?
    ensures lastSummaryDate == Some(today) ==> !ShouldFire(target, hour, minute, today, lastSummaryDate)
  {
    target.hour == Some(hour) && target.minute == Some(minute) && lastSummaryDate != Some(today)
  }

  /** The events that `isToday` accepts, in their original order. */
  function TodayEvents(events: seq<CalendarEvent>, isToday: CalendarEvent -> bool): (todays: seq<CalendarEvent>)
    ensures |todays| <= |events|
    ensures forall i :: 0 <= i < |todays| ==> isToday(todays[i])
    ensures forall e :: e in todays <==> e in events && isToday(e)
  {
    if events == [] then
      []
    else
      var rest := TodayEvents(events[1..], isToday);
      assert forall e :: e in events <==> e == events[0] || e in events[1..];
      if isToday(events[0]) then [events[0]] + rest else rest
  }

  /** Filtering a concatenation filters each part: the order of the chosen
      events is the order they had. */
  lemma {:induction false} TodayEventsAppend(a: seq<CalendarEvent>, b: seq<CalendarEvent>, isToday: CalendarEvent -> bool)
    ensures TodayEvents(a + b, isToday) == TodayEvents(a, isToday) + TodayEvents(b, isToday)
    decreases |a|
  {
    if a == [] {
      assert a + b == b;
    } else {
      assert (a + b)[1..] == a[1..] + b;
      TodayEventsAppend(a[1..], b, isToday);
    }
  }

  /** When every event is today's, all are kept, in order. */
  lemma {:induction false} TodayEventsAll(events: seq<CalendarEvent>, isToday: CalendarEvent -> bool)
    requires forall i :: 0 <= i < |events| ==> isToday(events[i])
    ensures TodayEvents(events, isToday) == events
    decreases |events|
  {
    if events != [] {
      TodayEventsAll(events[1..], isToday);
    }
  }

  const PromptHead: string := "Fornisci un breve e amichevole riepilogo dei seguenti eventi per oggi, "
  const PromptTail: string := ". Se non ci sono eventi, dillo con allegria."
  const LeadIn: string := "Ecco il tuo riepilogo giornaliero per "

  /** The request text for the day's summary, naming today's date. */
  function SummaryPrompt(today: string): (prompt: string)
    ensures |prompt| == |PromptHead| + |today| + |PromptTail|
    ensures prompt[..|PromptHead|] == PromptHead && prompt[|prompt| - |PromptTail|..] == PromptTail
    ensures prompt[|PromptHead|..|PromptHead| + |today|] == today
  {
    PromptHead + today + PromptTail
  }

  const SummaryFailure: string := "Ho avuto problemi a generare il tuo riepilogo giornaliero. Controlla la connessione."

  /** The assistant line a fired tick adds: the lead-in with the long date
      and the reply, or the fixed connection-error text. Any replacement event
      list in the reply is not used. */
  function SummaryText(dateLabel: string, reply: Interpretation): (text: string)
    ensures reply.Answer? ==>
              |text| >= |LeadIn| + |reply.responseText| &&
              text[..|LeadIn|] == LeadIn && text[|text| - |reply.responseText|..] == reply.responseText
    ensures reply.Failed? ==> text == SummaryFailure
  {
    match reply
    case Answer(responseText, _) => LeadIn + dateLabel + ":\n\n" + responseText
    case Failed(_) => SummaryFailure
  }

  function DigitChar(d: int): char
    requires 0 <= d < 10
  {
    (d + '0' as int) as char
  }

  /** A clock field written with two digits, as in "08". */
  function TwoDigits(n: int): (s: string)
    requires 0 <= n < 100
    ensures |s| == 2 && AllDigits(s) && DecimalValue(s) == n
  {
    var s := [DigitChar(n / 10), DigitChar(n % 10)];
    assert s[..1] == [s[0]] && s[..1][..0] == [];
    assert DecimalValue(s[..1]) == n / 10;
    s
  }

  /** The "HH:mm" form the settings hold. */
  function FormatTime(hour: int, minute: int): (s: string)
    requires 0 <= hour < 24 && 0 <= minute < 60
  {
    TwoDigits(hour) + ":" + TwoDigits(minute)
  }

  lemma DigitsHaveNoColon(d: string)
    requires AllDigits(d)
    ensures ':' !in d
  {
    assert forall i :: 0 <= i < |d| ==> d[i] != ':';
  }

  /** Two numerals joined by a colon read as their two values. */
  lemma ParseTimeOfNumerals(h: string, m: string)
    requires h != [] && AllDigits(h) && m != [] && AllDigits(m)
    ensures ParseTime(h + ":" + m) == ClockTarget(Some(DecimalValue(h)), Some(DecimalValue(m)))
  {
    DigitsHaveNoColon(h);
    DigitsHaveNoColon(m);
    SplitAtFirstColon(h, m);
    SplitColonFree(m);
    var parts := Split(h + ":" + m);
    assert parts == [h, m];
    NumeralValue(h);
    NumeralValue(m);
  }

  /** Reading an "HH:mm" time gives back its hour and minute. */
  lemma ParseFormattedTime(hour: int, minute: int)
    requires 0 <= hour < 24 && 0 <= minute < 60
    ensures ParseTime(FormatTime(hour, minute)) == ClockTarget(Some(hour), Some(minute))
  {
    ParseTimeOfNumerals(TwoDigits(hour), TwoDigits(minute));
  }

  /** A part that is left empty reads as 0, so "08:" means 08:00, while a
      time with no colon has no minute and never fires. */
  lemma EmptyMinuteReadsAsZero(h: string)
    requires h != [] && AllDigits(h)
    ensures ParseTime(h + ":") == ClockTarget(Some(DecimalValue(h)), Some(0))
    ensures ParseTime(h).minute == None
  {
    DigitsHaveNoColon(h);
    SplitAtFirstColon(h, []);
    assert h + ":" == h + ":" + [];
    var parts := Split(h + ":");
    assert parts == [h, []];
    NumeralValue(h);
    assert AllJsSpace([]);
    SplitColonFree(h);
  }

  /** A numeral on its own reads as its value. */
  lemma NumeralValue(d: string)
    requires d != [] && AllDigits(d)
    ensures ParseNumber(d) == Some(DecimalValue(d))
  {
    ParseNumberOfDigits([], d, []);
    assert [] + d + [] == d;
  }

  /** A configured time whose hour or minute is not a number, or that has
      no minute at all, never fires. */
  lemma MalformedTimeNeverFires(summaryTime: string, hour: int, minute: int, today: string, last: Option<string>)
    requires ParseTime(summaryTime).hour == None || ParseTime(summaryTime).minute == None
    ensures !ShouldFire(ParseTime(summaryTime), hour, minute, today, last)
  {
  }
}
