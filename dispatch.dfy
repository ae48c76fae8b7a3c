/** The function registry of dategpt and its dispatch (src/dategpt/dategpt.py:15-21, 83-176).

    Three handlers are offered to a language model, each described by its name, a description
    and the JSON schema of its arguments.  The model either answers in text or asks for one
    function to be called with JSON arguments; the runner then calls the first registered
    handler of that name, which validates the arguments and converts them into a one-key
    result: a date, a duration or an interval.

    The model is an input here: `Oracle` maps the prompt and the offered metadata to its
    decision.  Decoding of the JSON text, and `datetime.strptime`, are inputs too: the arguments
    arrive as a decoded `Json` value (or as undecodable), and `strptime` is a partial function
    from text to a `DateTime`. */
module Dispatch {
  import opened Wrappers
  import Duration

  // ---------------------------------------------------------------------------
  // Values exchanged with the model and the libraries

  /** A `datetime`, as `strptime` with `%Y-%m-%dT%H:%M:%S` produces it. */
  datatype DateTime = DateTime(year: int, month: int, day: int, hour: int, minute: int, second: int)

  /** The part of a pydantic JSON schema the handlers publish: the model's title and the
      fields it requires. */
  datatype Schema = Schema(title: string, required: seq<string>)

  /** The dictionary `get_function_metadata` returns. */
  datatype FunctionMetadata = FunctionMetadata(name: string, description: string, parameters: Schema)

  /** A decoded JSON value, as far as the handlers look into it. */
  datatype Json = JString(s: string) | JObject(fields: map<string, Json>) | JOther

  /** The `arguments` text of a function call, after `json.loads`. */
  datatype Arguments = Decoded(value: Json) | Undecodable

  /** What a handler returns: a dictionary with a single key. */
  datatype Outcome =
    | DateResult(date: DateTime)
    | DurationResult(seconds: Duration.Seconds)
    | IntervalResult(startDate: DateTime, endDate: DateTime)
  {
    /** The one key of the result dictionary. */
    function Key(): string {
      match this
      case DateResult(_) => "date"
      case DurationResult(_) => "duration"
      case IntervalResult(_, _) => "interval"
    }
  }

  /** The exceptions a handler can raise. */
  datatype HandlerError =
    | DecodeError                                 // `json.loads` rejects the text
    | ArgumentsNotObject                          // `**` applied to something other than a dict
    | ValidationError(locations: seq<string>)    // pydantic: required fields missing or not strings
    | DateFormatError(text: string)               // `strptime` rejects the text
    | DurationFailed(error: Duration.DurationError) // `parse_iso8601_duration` rejects the text

  /** `strptime(text, "%Y-%m-%dT%H:%M:%S")`: the date, or `None` where it raises. */
  type DateParser = string -> Option<DateTime>

  /** The model's reply: `function_call` absent (a text answer), or a call with its arguments. */
  datatype Decision = TextReply(content: string) | FunctionCall(name: string, arguments: Arguments)

  /** `get_llm_output`: the reply to a prompt when offered the given functions. */
  type Oracle = (string, seq<FunctionMetadata>) -> Decision

  // ---------------------------------------------------------------------------
  // The handlers

  /** The string field `key` of a decoded object, when it is present and a string. */
  function StringField(fields: map<string, Json>, key: string): (r: Option<string>)
    ensures r.Some? <==> key in fields && fields[key].JString?
    ensures r.Some? ==> fields[key] == JString(r.value)
  {
    if key in fields && fields[key].JString? then Some(fields[key].s) else None
  }

  /** The locations pydantic reports for an `IntervalModel` built from `fields`. */
  function IntervalErrors(fields: map<string, Json>): (r: seq<string>)
    ensures r == [] <==> StringField(fields, "start_date").Some? && StringField(fields, "end_date").Some?
  {
    (if StringField(fields, "start_date").None? then ["interval.start_date"] else [])
    + (if StringField(fields, "end_date").None? then ["interval.end_date"] else [])
  }

  /** The descriptions the handlers give the model. */
  const IntervalDescription: string :=
    "Parses a date string and returns a interval. It should be use then the users asks for the start and end date of some event"
  const DurationDescription: string :=
    "Parses a date string and returns the duration. It should be used when the users asks for a duration. Not be used for intervals or specific dates."
  const DateDescription: string :=
    "Parses a date string and returns a specific date. Should not be used when the user asks for a duration or interval, only when the user asks for a specific date and time"

  /** `ParseIntervalLLMFunction`, `ParseDurationLLMFunction`, `ParseDateLLMFunction`. */
  datatype Handler = IntervalFunction | DurationFunction | DateFunction
  {
    /** `get_function_name`. */
    function Name(): string {
      match this
      case IntervalFunction => "parse_interval"
      case DurationFunction => "parse_duration"
      case DateFunction => "parse_date"
    }

    /** The one key of the dictionary `run_function` returns: the contract of `Run` states that
        it is the `Outcome.Key` of every successful result. */
    function ResultKey(): string {
      match this
      case IntervalFunction => "interval"
      case DurationFunction => "duration"
      case DateFunction => "date"
    }

    /** `get_function_metadata`: the name, the description and the schema of the arguments. */
    function Metadata(): (m: FunctionMetadata)
      ensures m.name == Name()
    {
      match this
      case IntervalFunction =>
        FunctionMetadata(Name(),
          IntervalDescription,
          Schema("ParseInterval", ["interval"]))
      case DurationFunction =>
        FunctionMetadata(Name(),
          DurationDescription,
          Schema("ParseDuration", ["duration"]))
      case DateFunction =>
        FunctionMetadata(Name(),
          DateDescription,
          Schema("ParseDate", ["date"]))
    }

    /** `run_function`: validate the decoded arguments against the handler's model and
        convert them. */
    function Run(arguments: Arguments, strptime: DateParser): (r: Result<Outcome, HandlerError>)
      ensures r.Success? ==> r.value.Key() == ResultKey()
    {
      match arguments
      case Undecodable => Failure(DecodeError)
      case Decoded(json) =>
        if !json.JObject? then Failure(ArgumentsNotObject)
        else
          var fields := json.fields;
          match this
          case DateFunction =>
            (match StringField(fields, "date")
             case None => Failure(ValidationError(["date"]))
             case Some(text) =>
               match strptime(text)
               case None => Failure(DateFormatError(text))
               case Some(date) => Success(DateResult(date)))
          case DurationFunction =>
            (match StringField(fields, "duration")
             case None => Failure(ValidationError(["duration"]))
             case Some(text) =>
               match Duration.Parse(text)
               case Failure(e) => Failure(DurationFailed(e))
               case Success(seconds) => Success(DurationResult(seconds)))
          case IntervalFunction =>
            if "interval" !in fields || !fields["interval"].JObject? then
              Failure(ValidationError(["interval"]))
            else
              var inner := fields["interval"].fields;
              var errors := IntervalErrors(inner);
              if errors != [] then Failure(ValidationError(errors))
              else
                var startText := StringField(inner, "start_date").value;
                var endText := StringField(inner, "end_date").value;
                match strptime(startText)
                case None => Failure(DateFormatError(startText))
                case Some(startDate) =>
                  match strptime(endText)
                  case None => Failure(DateFormatError(endText))
                  case Some(endDate) => Success(IntervalResult(startDate, endDate))
    }
  }

  /** The handlers `LLMRunner.__init__` registers, in order. */
  function Registry(): seq<Handler> {
    [IntervalFunction, DurationFunction, DateFunction]
  }

  /** The metadata of each handler, in order. */
  function MetadataOf(handlers: seq<Handler>): (r: seq<FunctionMetadata>)
    ensures |r| == |handlers|
    ensures forall i | 0 <= i < |handlers| :: r[i] == handlers[i].Metadata()
  {
    if handlers == [] then [] else [handlers[0].Metadata()] + MetadataOf(handlers[1..])
  }

  /** The position of the first handler called `name`, if any. */
  function FirstMatch(handlers: seq<Handler>, name: string): (r: Option<nat>)
    ensures r.Some? ==> r.value < |handlers| && handlers[r.value].Name() == name
    ensures r.Some? ==> forall j | 0 <= j < r.value :: handlers[j].Name() != name
    ensures r.None? ==> forall j | 0 <= j < |handlers| :: handlers[j].Name() != name
  {
    if handlers == [] then None
    else if handlers[0].Name() == name then Some(0)
    else
      match FirstMatch(handlers[1..], name)
      case None => None
      case Some(k) => Some(k + 1)
  }

  /** A handler called `name` with no such handler before it is the first match. */
  lemma FirstMatchAt(handlers: seq<Handler>, name: string, i: nat)
    requires i < |handlers| && handlers[i].Name() == name
    requires forall j | 0 <= j < i :: handlers[j].Name() != name
    ensures FirstMatch(handlers, name) == Some(i)
  {
  }

  /** What `run_prompt` returns for a decision: `None` for a text answer or an unknown name,
      otherwise the result (or the exception) of the first handler of that name. */
  function Respond(handlers: seq<Handler>, decision: Decision, strptime: DateParser): Result<Option<Outcome>, HandlerError> {
    match decision
    case TextReply(_) => Success(None)
    case FunctionCall(name, arguments) =>
      match FirstMatch(handlers, name)
      case None => Success(None)
      case Some(i) => Returned(handlers[i].Run(arguments, strptime))
  }

  /** First match wins: a call runs the first handler of the chosen name, with the call's
      arguments, and passes on its result. */
  lemma RunsFirstMatch(handlers: seq<Handler>, decision: Decision, i: nat, strptime: DateParser)
    requires decision.FunctionCall? && i < |handlers| && handlers[i].Name() == decision.name
    requires forall j | 0 <= j < i :: handlers[j].Name() != decision.name
    ensures Respond(handlers, decision, strptime) == Returned(handlers[i].Run(decision.arguments, strptime))
  {
    FirstMatchAt(handlers, decision.name, i);
  }

  /** A call of a name no handler has returns `None`, as the `for ... else` does. */
  lemma NoMatchReturnsNone(handlers: seq<Handler>, decision: Decision, strptime: DateParser)
    requires decision.FunctionCall?
    requires forall j | 0 <= j < |handlers| :: handlers[j].Name() != decision.name
    ensures Respond(handlers, decision, strptime) == Success(None)
  {
  }

  /** A handler's result as `run_prompt` passes it on: the dictionary, or the exception. */
  function Returned(result: Result<Outcome, HandlerError>): Result<Option<Outcome>, HandlerError> {
    match result
    case Failure(e) => Failure(e)
    case Success(outcome) => Success(Some(outcome))
  }

  /** The tail of `run_prompt`: nothing for a text answer; otherwise the `for ... else` over
      the handlers, which runs the first one of the chosen name and returns `None` when there
      is none. */
  method Dispatch(handlers: seq<Handler>, decision: Decision, strptime: DateParser)
    returns (r: Result<Option<Outcome>, HandlerError>)
    ensures r == Respond(handlers, decision, strptime)
  {
    if decision.TextReply? {
      return Success(None);
    }
    var target := decision.name;
    for i := 0 to |handlers|
      invariant forall j | 0 <= j < i :: handlers[j].Name() != target
    {
      if handlers[i].Name() == target {
        RunsFirstMatch(handlers, decision, i, strptime);
        return Returned(handlers[i].Run(decision.arguments, strptime));
      }
    }
    NoMatchReturnsNone(handlers, decision, strptime);
    r := Success(None);
  }

  // ---------------------------------------------------------------------------
  // The runner

  /** `LLMRunner`: the registered handlers and the last reply of the model. */
  class Runner {
    var functions: seq<Handler>
    /** `last_completion`; `None` until the first prompt has run. */
    var lastCompletion: Option<Decision>

    /** `__init__`: registers the interval, duration and date handlers, in that order. */
    constructor()
      ensures functions == Registry() && lastCompletion == None
    {
      functions := Registry();
      lastCompletion := None;
    }

    /** `get_functions`: the metadata of every registered handler, in registration order. */
    method GetFunctions() returns (metadata: seq<FunctionMetadata>)
      ensures metadata == MetadataOf(functions)
    {
      metadata := [];
      for i := 0 to |functions|
        invariant |metadata| == i
        invariant forall j | 0 <= j < i :: metadata[j] == functions[j].Metadata()
      {
        metadata := metadata + [functions[i].Metadata()];
      }
    }

    /** `run_prompt`: offer the functions to the model, record its reply, and run the first
        handler whose name it chose (the `for ... else` falls through to `None`). */
    method RunPrompt(prompt: string, oracle: Oracle, strptime: DateParser) returns (r: Result<Option<Outcome>, HandlerError>)
      modifies this`lastCompletion
      ensures lastCompletion == Some(oracle(prompt, MetadataOf(functions)))
      ensures r == Respond(functions, oracle(prompt, MetadataOf(functions)), strptime)
    {
      var chatgptFunctions := GetFunctions();
      var decision := oracle(prompt, chatgptFunctions);
      lastCompletion := Some(decision);
      r := Dispatch(functions, decision, strptime);
    }
  }

  // ---------------------------------------------------------------------------
  // `parse_date`

  /** The prompt `parse_date` sends: the user's text and the current time, formatted as
      `%Y-%m-%d %H:%M:%S`, between fixed phrases. */
  function Prompt(dateText: string, now: string): string {
    PromptHead + dateText + PromptMiddle + now + "."
  }

  const PromptHead: string := "parse date given by the user: "
  const PromptMiddle: string := ". Consider that today is "

  /** `parse_date`: a fresh runner answers the prompt built from the user's text. */
  method ParseDate(dateText: string, now: string, oracle: Oracle, strptime: DateParser)
    returns (r: Result<Option<Outcome>, HandlerError>)
    ensures r == Respond(Registry(), oracle(Prompt(dateText, now), MetadataOf(Registry())), strptime)
  {
    var runner := new Runner();
    r := runner.RunPrompt(Prompt(dateText, now), oracle, strptime);
  }

  // ---------------------------------------------------------------------------
  // What the registry and the handlers promise

  /** No registered handler shadows another: the name of each one leads to that very handler. */
  lemma EveryHandlerReachable(h: Handler)
    ensures FirstMatch(Registry(), h.Name()).Some?
    ensures Registry()[FirstMatch(Registry(), h.Name()).value] == h
  {
    var hs := Registry();
    match h
    case IntervalFunction => FirstMatchAt(hs, h.Name(), 0);
    case DurationFunction => FirstMatchAt(hs, h.Name(), 1);
    case DateFunction => FirstMatchAt(hs, h.Name(), 2);
  }

  /** The model is offered one entry per handler, in registration order, under the handler's name. */
  lemma OfferedFunctions()
    ensures |MetadataOf(Registry())| == 3
    ensures MetadataOf(Registry())[0].name == "parse_interval"
    ensures MetadataOf(Registry())[1].name == "parse_duration"
    ensures MetadataOf(Registry())[2].name == "parse_date"
  {
    var m := MetadataOf(Registry());
    assert m[0] == IntervalFunction.Metadata() && m[1] == DurationFunction.Metadata() && m[2] == DateFunction.Metadata();
  }

  /** A name that is not registered runs nothing. */
  lemma UnknownNameRunsNothing(name: string, arguments: Arguments, strptime: DateParser)
    requires name != "parse_interval" && name != "parse_duration" && name != "parse_date"
    ensures Respond(Registry(), FunctionCall(name, arguments), strptime) == Success(None)
  {
    var hs := Registry();
    assert forall j | 0 <= j < |hs| :: hs[j].Name() != name by {
      forall j | 0 <= j < |hs| ensures hs[j].Name() != name {
        assert hs[j] == IntervalFunction || hs[j] == DurationFunction || hs[j] == DateFunction;
      }
    }
    NoMatchReturnsNone(hs, FunctionCall(name, arguments), strptime);
  }

  /** Each handler's name announces the key of its result (`parse_date` gives `date`, and so
      on), which is also the one field its schema requires. */
  lemma NameAnnouncesResultKey(h: Handler)
    ensures h.Name() == "parse_" + h.ResultKey()
    ensures h.Metadata().parameters.required == [h.ResultKey()]
  {
    match h
    case IntervalFunction => assert "parse_" + "interval" == "parse_interval";
    case DurationFunction => assert "parse_" + "duration" == "parse_duration";
    case DateFunction => assert "parse_" + "date" == "parse_date";
  }

  /** Whatever `run_prompt` returns was asked for: a result comes only from a function call,
      and its key is the one the called name announces. */
  lemma ResultAnswersTheCall(decision: Decision, strptime: DateParser)
    requires Respond(Registry(), decision, strptime).Success?
    requires Respond(Registry(), decision, strptime).value.Some?
    ensures decision.FunctionCall?
    ensures decision.name == "parse_" + Respond(Registry(), decision, strptime).value.value.Key()
  {
    var i := FirstMatch(Registry(), decision.name).value;
    NameAnnouncesResultKey(Registry()[i]);
  }

  /** A handler succeeds only on an object holding every field its schema requires. */
  lemma RequiredFieldsPresent(h: Handler, json: Json, strptime: DateParser)
    requires h.Run(Decoded(json), strptime).Success?
    ensures json.JObject?
    ensures forall f | f in h.Metadata().parameters.required :: f in json.fields
  {
  }

  /** A missing required field is reported by name, whatever else the object holds. */
  lemma MissingFieldRejected(h: Handler, fields: map<string, Json>, strptime: DateParser)
    requires h.Metadata().parameters.required[0] !in fields
    ensures h.Run(Decoded(JObject(fields)), strptime) == Failure(ValidationError(h.Metadata().parameters.required))
  {
  }

  /** Fields the schema does not require are ignored. */
  lemma ExtraFieldsIgnored(h: Handler, fields: map<string, Json>, key: string, value: Json, strptime: DateParser)
    requires key !in h.Metadata().parameters.required
    ensures h.Run(Decoded(JObject(fields[key := value])), strptime) == h.Run(Decoded(JObject(fields)), strptime)
  {
    var required := h.Metadata().parameters.required[0];
    assert key != required;
    assert (required in fields[key := value]) == (required in fields);
    if required in fields {
      assert fields[key := value][required] == fields[required];
    }
  }

  /** The duration handler reports what `parse_iso8601_duration` makes of the payload string,
      and passes its error on. */
  lemma DurationHandlerUsesParser(fields: map<string, Json>, text: string, strptime: DateParser)
    requires "duration" in fields && fields["duration"] == JString(text)
    ensures Duration.Parse(text).Success? ==>
      DurationFunction.Run(Decoded(JObject(fields)), strptime) == Success(DurationResult(Duration.Parse(text).value))
    ensures Duration.Parse(text).Failure? ==>
      DurationFunction.Run(Decoded(JObject(fields)), strptime) == Failure(DurationFailed(Duration.InvalidFormat(text)))
  {
  }

  /** The date handler reports what `strptime` makes of the payload string. */
  lemma DateHandlerUsesStrptime(fields: map<string, Json>, text: string, strptime: DateParser)
    requires "date" in fields && fields["date"] == JString(text)
    ensures strptime(text).Some? ==> DateFunction.Run(Decoded(JObject(fields)), strptime) == Success(DateResult(strptime(text).value))
    ensures strptime(text).None? ==> DateFunction.Run(Decoded(JObject(fields)), strptime) == Failure(DateFormatError(text))
  {
  }

  /** The interval is returned as given: any two dates `strptime` accepts make an interval,
      with no check that the start comes first and no reordering. */
  lemma IntervalNotReordered(inner: map<string, Json>, startText: string, endText: string, strptime: DateParser)
    requires "start_date" in inner && inner["start_date"] == JString(startText)
    requires "end_date" in inner && inner["end_date"] == JString(endText)
    requires strptime(startText).Some? && strptime(endText).Some?
    ensures IntervalFunction.Run(Decoded(JObject(map["interval" := JObject(inner)])), strptime)
         == Success(IntervalResult(strptime(startText).value, strptime(endText).value))
  {
    assert IntervalErrors(inner) == [];
  }

  /** The start date is parsed first: a bad start is the error reported, whatever the end. */
  lemma IntervalStartParsedFirst(inner: map<string, Json>, startText: string, strptime: DateParser)
    requires "start_date" in inner && inner["start_date"] == JString(startText)
    requires "end_date" in inner && inner["end_date"].JString?
    requires strptime(startText).None?
    ensures IntervalFunction.Run(Decoded(JObject(map["interval" := JObject(inner)])), strptime)
         == Failure(DateFormatError(startText))
  {
    assert IntervalErrors(inner) == [];
  }

  /** The user's text appears verbatim in the prompt, right after the fixed opening. */
  lemma PromptQuotesUserText(dateText: string, now: string)
    ensures Prompt(dateText, now)[..|PromptHead|] == PromptHead
    ensures Prompt(dateText, now)[|PromptHead|..|PromptHead| + |dateText|] == dateText
  {
    var p := Prompt(dateText, now);
    assert p == PromptHead + (dateText + (PromptMiddle + now + "."));
  }

  /** Different user texts give different prompts at the same time: the prompt loses nothing. */
  lemma PromptInjective(a: string, b: string, now: string)
    requires Prompt(a, now) == Prompt(b, now)
    ensures a == b
  {
    assert |Prompt(a, now)| == |PromptHead| + |a| + |PromptMiddle| + |now| + 1;
    assert |Prompt(b, now)| == |PromptHead| + |b| + |PromptMiddle| + |now| + 1;
    PromptQuotesUserText(a, now);
    PromptQuotesUserText(b, now);
  }
}
