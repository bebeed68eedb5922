/** The records the assistant works on, and the shape of the language-model
    interpreter's answer, which the session receives as an input. */
module CalendarTypes {

  datatype Option<+T> = None | Some(value: T)

  /** A calendar entry; start and end are ISO 8601 date-time strings. */
  datatype CalendarEvent = CalendarEvent(id: string, title: string, startTime: string, endTime: string)

  datatype Sender = User | Assistant

  /** A chat line. The millisecond-clock id the component stamps on it is not modelled. */
  datatype Message = Message(sender: Sender, text: string)

  /** The shared UI state record. */
  datatype AppState = AppState(isLoading: bool, triggerWord: string, summaryTime: string, isListening: bool)

  /** What a failed interpreter call threw: an `Error` object carries a
      message; anything else thrown carries nothing usable. */
  datatype Thrown = ErrorObject(message: string) | OtherValue

  /** The outcome of one interpreter call: a reply text and, optionally, the
      complete event list that is to replace the current one; or a failure. */
  datatype Interpretation =
    | Answer(responseText: string, updatedEvents: Option<seq<CalendarEvent>>)
    | Failed(thrown: Thrown)

  /** A call to the interpreter: the free text and the events it is shown. */
  datatype Request = Request(text: string, events: seq<CalendarEvent>)
}
