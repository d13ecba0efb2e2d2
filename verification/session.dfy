/**
 The page over time: a sequence of user events, each handled to completion
 before the next (overlapping submissions are not modelled). Facts about
 every reachable state follow by induction over the sequence.
 */
module Session {
  import opened Workflow

  datatype Event =
    | Pick(file: Option<File>)  // the file input changed
    | Type(text: string)        // the prompt input changed
    | Press(reply: FetchResult) // the generate button was pressed; the request, if sent, settles with `reply`

  function Step(s: State, e: Event): State
  {
    match e
    case Pick(file) => HandleUpload(s, file)
    case Type(text) => EditPrompt(s, text)
    case Press(reply) => After(s, reply)
  }

  function Run(s: State, events: seq<Event>): State
    decreases |events|
  {
    if |events| == 0 then s else Run(Step(s, events[0]), events[1..])
  }

  /** The image URLs carried by successful replies to requests actually
      sent while handling `events` from `s`: a press that validation refuses
      sends nothing and receives nothing. */
  function Produced(s: State, events: seq<Event>): set<string>
    decreases |events|
  {
    if |events| == 0 then {}
    else
      var rest := Produced(Step(s, events[0]), events[1..]);
      match events[0]
      case Press(reply) =>
        if Validate(s).Accept? && Classify(reply).Generated? then {Classify(reply).url} + rest else rest
      case _ => rest
  }

  /** The files picked in `events`. */
  function Picked(events: seq<Event>): set<File>
    decreases |events|
  {
    if |events| == 0 then {}
    else
      var rest := Picked(events[1..]);
      match events[0]
      case Pick(file) => if file.Some? then {file.value} + rest else rest
      case _ => rest
  }

  /** Between events `loading` is never left set: starting idle, the page
      is idle after any sequence of events. */
  lemma {:induction false} LoadingNeverStuck(s: State, events: seq<Event>)
    requires !s.loading
    ensures !Run(s, events).loading
    decreases |events|
  {
    if |events| > 0 {
      LoadingNeverStuck(Step(s, events[0]), events[1..]);
    }
  }

  /** `output` only ever shows the starting value or a URL taken from a
      successful reply to a request that was sent. */
  lemma {:induction false} OutputComesFromSentReplies(s: State, events: seq<Event>)
    ensures Run(s, events).output == s.output
         || (Run(s, events).output.Some? && Run(s, events).output.value in Produced(s, events))
    decreases |events|
  {
    if |events| > 0 {
      OutputComesFromSentReplies(Step(s, events[0]), events[1..]);
    }
  }

  /** `image` only ever holds the starting value or a file the user picked. */
  lemma {:induction false} ImageComesFromPicks(s: State, events: seq<Event>)
    ensures Run(s, events).image == s.image
         || (Run(s, events).image.Some? && Run(s, events).image.value in Picked(events))
    decreases |events|
  {
    if |events| > 0 {
      ImageComesFromPicks(Step(s, events[0]), events[1..]);
    }
  }

  /** From the freshly mounted page, a result is on display only if the
      reply to some sent request produced it. */
  lemma InitialOutputFromReplies(events: seq<Event>)
    ensures Run(Initial, events).output.Some? ==> Run(Initial, events).output.value in Produced(Initial, events)
    ensures !Run(Initial, events).loading
  {
    OutputComesFromSentReplies(Initial, events);
    LoadingNeverStuck(Initial, events);
  }

  /** Picking a file and pressing the button with a non-empty prompt sends
      a request exactly when that file is at most 5 MiB, whatever image was
      held before. */
  lemma PickThenPress(s: State, f: File, reply: FetchResult)
    requires s.prompt != ""
    ensures Submit(HandleUpload(s, Some(f)), reply).Settled? <==> f.size <= MaxImageBytes
  {
  }

  /** Cancelling the file picker has no effect on a later submission. */
  lemma CancelledPickIsInvisible(s: State, events: seq<Event>)
    ensures Run(s, [Pick(None)] + events) == Run(s, events)
  {
  }
}
