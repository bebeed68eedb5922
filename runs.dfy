/** What holds over a whole session: any sequence of commands, timer ticks
    and changes of the settings, each run to its end before the next starts. */
module SessionRuns {
  import opened CalendarTypes
  import opened Shortcut
  import opened Summary
  import opened AppSession

  datatype Step =
    | Command(text: string, reply: Interpretation)
    | Tick(hour: int, minute: int, today: string, dateLabel: string, reply: Interpretation)
    | Reconfigure(triggerWord: string, summaryTime: string)

  function Apply(s: Snapshot, step: Step): Snapshot
  {
    match step
    case Command(text, reply) => CommandStep(s, text, reply)
    case Tick(hour, minute, today, dateLabel, reply) => TickStep(s, hour, minute, today, dateLabel, reply)
    case Reconfigure(triggerWord, summaryTime) => ReconfigureStep(s, triggerWord, summaryTime)
  }

  /** The state after the steps, first to last. */
  function Run(s: Snapshot, steps: seq<Step>): Snapshot
    decreases |steps|
  {
    if steps == [] then s else Run(Apply(s, steps[0]), steps[1..])
  }

  predicate Fires(s: Snapshot, step: Step)
  {
    step.Tick? && TickFires(s, step.hour, step.minute, step.today)
  }

  /** How many daily summaries the steps produce. */
  function SummaryCount(s: Snapshot, steps: seq<Step>): nat
    decreases |steps|
  {
    if steps == [] then 0
    else (if Fires(s, steps[0]) then 1 else 0) + SummaryCount(Apply(s, steps[0]), steps[1..])
  }

  /** How many of the steps are non-empty commands. */
  function HandledCommands(steps: seq<Step>): nat
  {
    if steps == [] then 0
    else (if steps[0].Command? && steps[0].text != "" then 1 else 0) + HandledCommands(steps[1..])
  }

  predicate AllTicksOn(steps: seq<Step>, day: string)
  {
    forall i :: 0 <= i < |steps| && steps[i].Tick? ==> steps[i].today == day
  }

  predicate NoReconfigure(steps: seq<Step>)
  {
    forall i :: 0 <= i < |steps| ==> !steps[i].Reconfigure?
  }

  /** Only a firing tick writes the date of the last summary, and it writes
      the tick's own date; commands and new settings leave it alone. */
  lemma SummaryDateOnlyByFiring(s: Snapshot, step: Step)
    ensures Apply(s, step).lastSummaryDate == if Fires(s, step) then Some(step.today) else s.lastSummaryDate
  {
  }

  /** However commands, ticks and new settings interleave, a day on which
      every tick falls gets at most one summary, and none once its summary
      was given. */
  lemma {:induction false} AtMostOneSummaryPerDay(s: Snapshot, steps: seq<Step>, day: string)
    requires AllTicksOn(steps, day)
    ensures SummaryCount(s, steps) <= 1
    ensures s.lastSummaryDate == Some(day) ==> SummaryCount(s, steps) == 0
    decreases |steps|
  {
    if steps != [] {
      var next := Apply(s, steps[0]);
      SummaryDateOnlyByFiring(s, steps[0]);
      assert AllTicksOn(steps[1..], day) by {
        forall i | 0 <= i < |steps[1..]| && steps[1..][i].Tick?
          ensures steps[1..][i].today == day
        {
          assert steps[1..][i] == steps[i + 1];
        }
      }
      AtMostOneSummaryPerDay(next, steps[1..], day);
      if Fires(s, steps[0]) {
        assert next.lastSummaryDate == Some(day);
      }
    }
  }

  /** The chat log only grows: each non-empty command adds two lines, each
      summary one, and nothing earlier is changed. */
  lemma {:induction false} LogOnlyGrows(s: Snapshot, steps: seq<Step>)
    ensures |Run(s, steps).messages| == |s.messages| + 2 * HandledCommands(steps) + SummaryCount(s, steps)
    ensures Run(s, steps).messages[..|s.messages|] == s.messages
    decreases |steps|
  {
    if steps != [] {
      var next := Apply(s, steps[0]);
      assert next.messages[..|s.messages|] == s.messages;
      LogOnlyGrows(next, steps[1..]);
      assert Run(s, steps).messages[..|s.messages|] == Run(s, steps).messages[..|next.messages|][..|s.messages|];
    }
  }

  /** A session that is not loading is not loading after any steps, and only a
      change of settings moves the wake word or the summary time. */
  lemma {:induction false} SettingsAndLoadingKept(s: Snapshot, steps: seq<Step>)
    ensures !s.appState.isLoading ==> !Run(s, steps).appState.isLoading
    ensures Run(s, steps).appState.isListening == s.appState.isListening
    ensures NoReconfigure(steps) ==>
              Run(s, steps).appState.triggerWord == s.appState.triggerWord &&
              Run(s, steps).appState.summaryTime == s.appState.summaryTime
    decreases |steps|
  {
    if steps != [] {
      SettingsAndLoadingKept(Apply(s, steps[0]), steps[1..]);
      if NoReconfigure(steps) {
        assert !steps[0].Reconfigure?;
        assert NoReconfigure(steps[1..]) by {
          forall i | 0 <= i < |steps[1..]| ensures !steps[1..][i].Reconfigure? {
            assert steps[1..][i] == steps[i + 1];
          }
        }
      }
    }
  }

  /** Replacing the events is the only change to them: the event list after
      the steps is the replacement list of the last command the interpreter
      answered with one, or the starting list if there is none. Summaries
      never change the events, even when their answer carries a list. */
  function LastReplacement(initial: seq<CalendarEvent>, steps: seq<Step>): seq<CalendarEvent>
    decreases |steps|
  {
    if steps == [] then initial
    else
      var last := steps[|steps| - 1];
      if last.Command? && Classify(last.text) == Interpret && last.reply.Answer? && last.reply.updatedEvents.Some? then
        last.reply.updatedEvents.value
      else
        LastReplacement(initial, steps[..|steps| - 1])
  }

  lemma {:induction false} RunAppend(s: Snapshot, steps: seq<Step>, step: Step)
    ensures Run(s, steps + [step]) == Apply(Run(s, steps), step)
    decreases |steps|
  {
    if steps != [] {
      assert (steps + [step])[1..] == steps[1..] + [step];
      RunAppend(Apply(s, steps[0]), steps[1..], step);
    }
  }

  lemma {:induction false} EventsLastWriterWins(s: Snapshot, steps: seq<Step>)
    ensures Run(s, steps).events == LastReplacement(s.events, steps)
    decreases |steps|
  {
    if steps != [] {
      var front := steps[..|steps| - 1];
      assert steps == front + [steps[|steps| - 1]];
      RunAppend(s, front, steps[|steps| - 1]);
      EventsLastWriterWins(s, front);
    }
  }

  /** The daily scenario: a tick at the configured time on a date without a
      summary gives the summary, a later tick on that date does not, whatever
      the clock shows, and a tick at the configured time on the next date
      gives it again. */
  lemma DailyScenario(s: Snapshot, hour: int, minute: int, hour2: int, minute2: int,
                      day: string, nextDay: string, longDate: string, reply: Interpretation)
    requires ParseTime(s.appState.summaryTime) == ClockTarget(Some(hour), Some(minute))
    requires s.lastSummaryDate != Some(day) && day != nextDay
    ensures SummaryCount(s, [Tick(hour, minute, day, longDate, reply), Tick(hour2, minute2, day, longDate, reply),
                             Tick(hour, minute, nextDay, longDate, reply)]) == 2
  {
    var s1 := TickStep(s, hour, minute, day, longDate, reply);
    NoSecondSummarySameDay(s, hour, minute, day, longDate, reply, hour2, minute2, nextDay);
    QuietTick(s1, hour2, minute2, day, e => true, longDate, reply);
    TwoOfThree(s, Tick(hour, minute, day, longDate, reply), Tick(hour2, minute2, day, longDate, reply),
               Tick(hour, minute, nextDay, longDate, reply));
  }

  lemma TwoOfThree(s: Snapshot, first: Step, again: Step, next: Step)
    requires Fires(s, first) && !Fires(Apply(s, first), again) && Fires(Apply(Apply(s, first), again), next)
    ensures SummaryCount(s, [first, again, next]) == 2
  {
    var s1 := Apply(s, first);
    LastTwo(s1, again, next);
    SummaryCountCons(s, first, [again, next]);
    assert [first] + [again, next] == [first, again, next];
  }

  lemma LastTwo(s: Snapshot, again: Step, next: Step)
    requires !Fires(s, again) && Fires(Apply(s, again), next)
    ensures SummaryCount(s, [again, next]) == 1
  {
    LastOne(Apply(s, again), next);
    SummaryCountCons(s, again, [next]);
    assert [again] + [next] == [again, next];
  }

  lemma LastOne(s: Snapshot, next: Step)
    requires Fires(s, next)
    ensures SummaryCount(s, [next]) == 1
  {
    assert [next][1..] == [];
  }

  lemma SummaryCountCons(s: Snapshot, step: Step, rest: seq<Step>)
    ensures SummaryCount(s, [step] + rest) == (if Fires(s, step) then 1 else 0) + SummaryCount(Apply(s, step), rest)
  {
    assert ([step] + rest)[1..] == rest;
  }

  /** The command scenario: an instruction the interpreter answers with
      "Fatto!" and a new list adds the user's line and "Fatto!", and the
      events become exactly that list. */
  lemma MoveLunchScenario(s: Snapshot, updated: seq<CalendarEvent>)
    ensures var t := Apply(s, Command("sposta il pranzo alle 15", Answer("Fatto!", Some(updated))));
      t.messages == s.messages + [Message(User, "sposta il pranzo alle 15"), Message(Assistant, "Fatto!")] &&
      t.events == updated && !t.appState.isLoading
  {
    NoLeadingAGoesToInterpreter("sposta il pranzo alle 15");
  }
}
