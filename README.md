# Lucy, the calendar assistant: command handling and the daily summary

This project models the logic of `App.tsx`, the main component of a voice and
chat calendar assistant called Lucy. The component holds four pieces of state:

- the event list;
- the chat log;
- a settings record (`isLoading`, the wake word, the `HH:mm` summary time, `isListening`);
- the date on which the daily summary was last given.

Two things change that state. `handleCommand` takes a typed or spoken command,
which goes one of three ways:

- the empty string is ignored;
- a command whose lower-cased text matches `^(?:apri|avvia)\s(.+)` ("open" and
  "start" in Italian) is acknowledged as a request to launch a program;
- anything else goes to the calendar interpreter. Its answer text is logged and
  its event list, if any, replaces the current one. An error is logged as
  `Errore: ` and a message.

A timer checks once a minute whether the clock shows the configured summary time
on a date that has not had its summary yet. When it does, it records the date,
sends today's events to the interpreter with a summary prompt and logs the reply.

Modules:

- `CalendarTypes` (`types.dfy`): the records (event, message, settings) and the
  interpreter's two outcomes, as values.
- `JsText` (`js_text.dfy`): the JavaScript string built-ins the component uses,
  on `seq<char>`. These are the `\s` class, the line terminators that `.`
  refuses, `toLowerCase`, `trim`, `split(':')` and `Number`.
- `Shortcut` (`shortcut.dfy`): routing a command. `Classify` gives `Ignore`,
  `Launch(name)` or `Interpret`.
- `Summary` (`summary.dfy`): reading the summary time, the firing condition,
  the filter for today's events and the texts of the summary request and reply.
- `AppSession` (`session.dfy`): the class `Session`, whose fields are the
  component's state and whose methods `HandleCommand`, `Tick` and `Reconfigure`
  change it step by step as the component does. Each method is proved against
  a step function on a `Snapshot` value (`CommandStep`, `TickStep`,
  `ReconfigureStep`), and the lemmas state what the source promises about those
  functions.
- `SessionRuns` (`runs.dfy`): properties of any sequence of commands, ticks and
  settings changes. Examples: at most one summary per date, the log only grows,
  and the last replacement list wins.

The interpreter (`analyzeAndManageCalendar`) is not part of this model. Its
outcome comes in as the parameter `reply`, and each method gives back the
request it would send, or `None` when it sends none. This makes "the interpreter
is not consulted" a checked statement. The clock comes in as parameters too:

- `hour` and `minute`;
- `today`, the local date string;
- `isToday`, whether an event starts on the current local day;
- `dateLabel`, the long date the summary names.

Only the empty string is ignored (`!command`). A command of white space alone
is logged and sent to the interpreter like any other
(`Shortcut.BlankCommandIsInterpreted`).

## Model

| member | source | states |
|---|---|---|
| `JsText.ToLower` | App.tsx:42 | in the model, lower-casing keeps the length of the command, so positions in the lower-cased text are positions in the command |
| `JsText.UpToLineBreakShape` | App.tsx:42 | a greedy `.+` run from the start is a prefix without line terminators that ends at the end of the text or just before its first line terminator |
| `JsText.TrimStartShape` | App.tsx:44 | dropping leading white space keeps a suffix that does not start with white space, and everything dropped is white space |
| `JsText.TrimEndShape` | App.tsx:44 | dropping trailing white space keeps a prefix that does not end with white space, and everything dropped is white space |
| `JsText.Trim` | App.tsx:44 | `trim` never lengthens; it gives the empty string exactly when the text is all white space, and otherwise a string that neither starts nor ends with white space |
| `JsText.TrimStartStrips` | App.tsx:44 | white space followed by text not starting with white space loses exactly the white space |
| `JsText.TrimEndStrips` | App.tsx:44 | text not ending with white space followed by white space loses exactly the white space |
| `JsText.TrimStrips` | App.tsx:44 | `trim` of white space, a core and white space is exactly the core, whatever the core is |
| `JsText.TrimIdempotent` | App.tsx:44 | trimming twice is trimming once |
| `JsText.Split` | App.tsx:84 | `split(':')` always gives at least one part |
| `JsText.SplitPartsColonFree` | App.tsx:84 | no part of `split(':')` holds a colon |
| `JsText.SplitColonFree` | App.tsx:84 | text without a colon splits into itself alone |
| `JsText.SplitAtFirstColon` | App.tsx:84 | splitting `p:t` with a colon-free `p` gives `p` followed by the parts of `t` |
| `JsText.SplitJoin` | App.tsx:84 | splitting colon-free parts joined by colons gives the parts back |
| `JsText.LeadingDigits` | App.tsx:84 | the length of the leading run of digits is at most the length of the text |
| `JsText.LeadingDigitsShape` | App.tsx:84 | the leading run consists of digits and stops at the end or at a non-digit |
| `JsText.ParseNumber` | App.tsx:84 | `Number` of an empty or all-blank part is 0 |
| `JsText.ParseUnsignedOfDigits` | App.tsx:84 | a string of digits reads as its decimal value |
| `JsText.ParseNumberOfDigits` | App.tsx:84 | a numeral with white space around it reads as its decimal value |
| `JsText.ParseUnsignedNumeral` | App.tsx:84 | an unsigned part reads as a number only when it is digits, optionally with a point and more digits, and at least one digit |
| `JsText.ParseNumberNumeral` | App.tsx:84 | a part reads as a number only when it is blank or, once trimmed, such a numeral with an optional `+` or `-` in front; any other text is NaN |
| `Shortcut.VerbsExclusive` | App.tsx:42 | no text can begin with both `apri` and `avvia` followed by a separator, so the two alternatives never compete |
| `Shortcut.CaptureFromShape` | App.tsx:42 | the group `(.+)` is the longest non-empty run without line terminators from its start |
| `Shortcut.MatchLaunch` | App.tsx:42 | the pattern matches exactly when a verb, one `\s` character and a non-line-terminator start the text, and the group is captured right after that verb's separator |
| `Shortcut.Classify` | App.tsx:37-44 | only `""` is ignored; the shortcut is taken exactly when the lower-cased command starts with a verb, a `\s` character and one more character `.` accepts; in the model, a launched name is shorter than the command |
| `Shortcut.UpToLineBreakStops` | App.tsx:42 | a run without line terminators followed by the end or a line terminator is captured exactly |
| `Shortcut.LaunchName` | App.tsx:42-45 | the launched name is the lower-cased text after the verb and its separator, up to the first line break, with the white space around it removed |
| `Shortcut.NoLeadingAGoesToInterpreter` | App.tsx:42-53 | a non-empty command whose first character is no `a` or `A` goes to the interpreter |
| `Shortcut.BlankCommandIsInterpreted` | App.tsx:37-53 | a command of white space alone is not ignored but goes to the interpreter |
| `Shortcut.VerbAloneIsInterpreted` | App.tsx:42 | `apri ` with nothing after the separator is no launch request |
| `Shortcut.LaunchSpotify` | App.tsx:42-45 | `apri spotify` launches `spotify` |
| `Shortcut.LaunchEmptyName` | App.tsx:42-45 | `apri` followed by two spaces launches a program with an empty name |
| `Summary.ParseTime` | App.tsx:84 | a summary time without a colon is all hour and has no minute |
| `Summary.ShouldFire` | App.tsx:89 | a tick fires only when both the hour and the minute are numbers, and never on the date that already had its summary |
| `Summary.TodayEvents` | App.tsx:94 | the filtered list is no longer than the events, holds only events on today's date, and holds exactly the events of the list that are on today's date |
| `Summary.TodayEventsAppend` | App.tsx:94 | filtering keeps the original order: filtering a concatenation concatenates the filtered parts |
| `Summary.TodayEventsAll` | App.tsx:94 | when every event is today's, all of them are kept, in order |
| `Summary.SummaryPrompt` | App.tsx:95 | the summary request is the fixed request for a short, friendly summary of today's events, naming today's date between its opening and its closing sentence |
| `Summary.SummaryText` | App.tsx:97-102 | the summary line starts with the lead-in and ends with the reply's text; a failure gives the fixed connection-error text |
| `Summary.TwoDigits` | types.ts:18 | a clock field written with two digits is two digits whose value is the field |
| `Summary.ParseTimeOfNumerals` | App.tsx:84 | two numerals joined by a colon read as their two values |
| `Summary.ParseFormattedTime` | App.tsx:84 | reading an `HH:mm` time gives back its hour and minute |
| `Summary.EmptyMinuteReadsAsZero` | App.tsx:84 | `HH:` reads as minute 0, since `Number("")` is 0, while `HH` alone has no minute |
| `Summary.MalformedTimeNeverFires` | App.tsx:84-89 | a time whose hour or minute is not a number, or that has no minute, never fires |
| `AppSession.InitialSummaryAtEight` | App.tsx:22-27 | the start-up summary time reads as 8:00 |
| `AppSession.ErrorText` | App.tsx:61-62 | the error line is `Errore: ` followed by the thrown `Error`'s message, or by the fixed fallback text for anything else thrown |
| `AppSession.CommandStep` | App.tsx:36-66 | the empty command changes nothing; any other appends the user's line with the command and then one assistant line, ends not loading with the other settings kept, never touches the summary date, and changes the events only on the interpreter route |
| `AppSession.TickStep` | App.tsx:82-106 | a tick never touches the events, the wake word or the summary time and only appends to the log; a firing tick adds one assistant line and records today's date, and any other tick changes nothing |
| `AppSession.ReconfigureStep` | App.tsx:111-119 | a settings change keeps the events, the log, the summary date, the loading and listening flags, and the timer then reads the new summary time |
| `AppSession.Session.constructor` | App.tsx:13-30 | the session starts with the given events, the greeting alone in the log, the start-up settings and no summary date |
| `AppSession.Session.AddMessage` | App.tsx:32-34 | one line is appended to the log and nothing else changes |
| `AppSession.Session.HandleCommand` | App.tsx:36-66 | the request sent and the new state are those of `CommandRequest` and `CommandStep` for the old state |
| `AppSession.Session.Tick` | App.tsx:82-106 | the request sent and the new state are those of `TickRequest` and `TickStep` for the old state |
| `AppSession.Session.Reconfigure` | App.tsx:111-119 | new settings change the wake word and the summary time and nothing else |
| `AppSession.EmptyCommandChangesNothing` | App.tsx:37 | the empty command changes nothing and sends nothing |
| `AppSession.LaunchPath` | App.tsx:42-49 | the shortcut logs `Provo ad aprire <name>...`, keeps the events, sends no request, and its result does not depend on the interpreter's answer |
| `AppSession.InterpreterSuccess` | App.tsx:52-58 | a success logs the answer text, replaces the events with its list when there is one and keeps them otherwise; the request carries the command and the current events |
| `AppSession.InterpreterFailure` | App.tsx:59-62 | a failure keeps the events and logs `Errore: ` with the error's message, or with the fixed fallback text when what was thrown is no `Error` |
| `AppSession.QuietTick` | App.tsx:89 | a tick that does not fire changes nothing and sends nothing |
| `AppSession.MalformedTimeTickIsQuiet` | App.tsx:84-89 | with a malformed summary time no tick changes anything or sends anything |
| `AppSession.FiringTick` | App.tsx:89-104 | a firing tick records today's date, keeps the events even when the reply carries a list, appends exactly one line (the lead-in with the reply, or the connection-error text), ends not loading, and sends exactly today's events |
| `AppSession.NoSecondSummarySameDay` | App.tsx:87-90 | after a tick fires, no tick on the same date fires, whatever the clock shows; a tick at the configured time on another date does |
| `AppSession.ReconfigureKeepsSummaryDate` | App.tsx:111-119 | setting the timer up again keeps the date of the last summary, so that date gets no second summary |
| `SessionRuns.SummaryDateOnlyByFiring` | App.tsx:87-90 | only a firing tick writes the summary date, and it writes its own date |
| `SessionRuns.AtMostOneSummaryPerDay` | App.tsx:87-90 | however commands, ticks and settings changes interleave, ticks that all fall on one date give at most one summary, and none once that date has had its summary |
| `SessionRuns.LogOnlyGrows` | App.tsx:32-34 | after any steps the earlier log is unchanged, with two lines added per non-empty command and one per summary |
| `SessionRuns.SettingsAndLoadingKept` | App.tsx:63-65 | a session that is not loading is not loading after any steps; the listening flag never changes, and without a settings change neither do the wake word and the summary time |
| `SessionRuns.RunAppend` | App.tsx:36-106 | running steps and then one more step is running the longer sequence |
| `SessionRuns.EventsLastWriterWins` | App.tsx:56-58 | the events after any steps are the list of the last interpreter answer that carried one, or the starting list |
| `SessionRuns.DailyScenario` | App.tsx:82-90 | a tick at the summary time on a new date, another tick that day and a tick at the summary time on the next date give exactly two summaries |
| `SessionRuns.TwoOfThree` | App.tsx:87-90 | three steps of which the first fires, the second does not and the third does give exactly two summaries |
| `SessionRuns.MoveLunchScenario` | App.tsx:52-58 | a command answered with `Fatto!` and a new list logs the command and `Fatto!`, and the events become that list |

## Left out

- The JSX (`MonthlyCalendar`, `SettingsPanel`, `ChatPanel`) and the selected date are UI only.
- The voice-recognition hook and the effect that mirrors `isListening` into the settings are not modelled. The hook's code is not part of this model, so the listening flag is treated as constant.
- Setting `window.location.href` to `<name>:` on the launch path is a browser side effect. The model states only that the launch path sends no request.
- `analyzeAndManageCalendar` is not part of this model. Its outcome is the input `reply`: an answer, or a thrown `Error` with its message, or another thrown value.
- `formatDate`, `isSameDay` and the `Intl` long-date formatting are not part of this model. They depend on locale and time zone, so they come in as the parameters `today`, `isToday` and `dateLabel`.
- The `setInterval`/`clearInterval` mechanics and the 60-second period are not modelled. A tick is one call of `Tick`, and re-scheduling is `Reconfigure`.
- Concurrency is left out: overlapping commands, a command that is still waiting while a tick fires, stale closures, no cancellation. Every command and tick runs to its end before the next starts. The intermediate `isLoading == true` is set in the methods but is never observed between steps.
- The message `id` (`Date.now()`) is left out, because it is not unique and nothing depends on it.
- `console` logging is left out.
- `constants.ts` (fixture events built from the current date) is not part of this model. The session starts from any given event list.
- `JsText.ToLower`, `Shortcut.Classify`: lower-casing maps only the ASCII letters. `toLowerCase` also maps other letters, such as accented capitals, so a launched name holding them keeps them capitalised here. It can also lengthen the text: `İ` (U+0130) becomes `i` followed by a combining dot. So the model's guarantees that lower-casing keeps the length and that a launched name is shorter than the command do not hold of the program; `apri İİİİİİ` launches a name longer than the command there. The routing decision itself is unaffected, since no letter outside ASCII lower-cases to a verb letter or to white space.
- `JsText.ParseNumber`, `JsText.ParseNumberNumeral`, `JsText.ParseUnsignedNumeral`: read only signed decimal numerals, with an optional fraction, and white space around them. JavaScript `Number` also accepts `0x`, `0o` and `0b` prefixes, exponents and `Infinity`. The model reads these as no number, so a summary time written that way never fires here.
- `JsText.ParseUnsigned`: a numeral is read exactly, not rounded to the nearest double. JavaScript rounds a numeral closer to an integer than double precision can resolve to that integer, up or down: `08.0000000000000001:00` fires at 8:00 there and `08.99999999999999999:00` at 9:00. The model reads a non-zero fraction as no number, so such a setting never fires here.
- `JsText.ParseUnsignedOfDigits`, `JsText.ParseNumberOfDigits`, `Summary.ParseTimeOfNumerals`: a numeral's value is its exact decimal value. JavaScript rounds numerals above 2^53 to the nearest double, so two different long numerals can read as the same number there. No hour or minute is that large, so the firing condition is unaffected.
