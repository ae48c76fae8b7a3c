# dategpt core in Dafny

dategpt turns a user's free-text date question into a date, a duration or an interval. It asks a
language model to choose one of three functions and to supply their arguments as JSON. This
project models the deterministic core of `src/dategpt/dategpt.py` and proves properties of it.
It has two modules:

- `Duration` (`duration.dfy`) models `parse_iso8601_duration`, the ISO-8601 duration parser.
  - The source's regular expression is replaced by a grammar and a scanner. The grammar is
    written as a generator: `Render` spells the text that a given choice of capture groups
    matches. The scanner is `Scan`.
  - The contract of `Scan`, together with the lemma `ScanComplete`, proves that the scanner
    accepts exactly the texts of the grammar and recovers their captures.
    `GroupTakenWhenPossible` shows that each optional group is taken exactly when it can match,
    as the regular expression's `(?:…)?` is.
  - On top of that, the model proves:
    - the value of a duration (years of 365 days, months of 30 days, extra days after `T`);
    - which texts are rejected;
    - how `M` is read before and after `T`.
  - A duration is its whole number of seconds.
- `Dispatch` (`dispatch.dfy`) models the three handlers, `LLMRunner` and the prompt of
  `parse_date`.
  - The three handlers are `ParseIntervalLLMFunction`, `ParseDurationLLMFunction` and
    `ParseDateLLMFunction`. Each has a name, metadata and `run_function`.
  - `LLMRunner` is a class with the fields `functions` and `lastCompletion`. It has:
    - `__init__`, which registers the handlers;
    - `get_functions`, a loop;
    - `run_prompt`, which records the model's reply and runs the `for … else` search.
  - The model's reply, JSON decoding and `strptime` are inputs of the model.

`wrappers.dfy` holds `Option` and `Result`.

Behaviours of the code that the model keeps as they are:

- `run_prompt` returns `None` for a text reply and for a call of an unknown function name, and
  raises nothing in either case. The model returns `Success(None)` in both cases.
- The pattern has a fourth group after `T`, extra days (`PT4D`), which adds to the days before
  the `T`. The grammar `Render` includes it.
- Arguments that `json.loads` cannot decode raise its exception before any validation. The
  model reports them as `DecodeError`.

## Model

| member | source | states |
|---|---|---|
| Duration.Token | src/dategpt/dategpt.py:53-60 | definition only: the text of one optional group, the digits and the designator or nothing; its properties are `Duration.GroupOfToken` and `Duration.GroupTakenWhenPossible` |
| Duration.TimeText | src/dategpt/dategpt.py:56-61 | definition only: the optional `T` part with its four groups in order; its properties are `Duration.TimeTextOfScan` and `Duration.ScanTimeComplete` |
| Duration.Render | src/dategpt/dategpt.py:51-62 | definition only: the text the pattern matches with given captures; it is tied to the scanner by `Duration.Scan` and `Duration.ScanComplete` |
| Duration.DecimalValue | src/dategpt/dategpt.py:69-75 | definition only: `int` of a run of ASCII digits; its property is `Duration.DecimalValueLeadingZero` |
| Duration.GroupValue | src/dategpt/dategpt.py:69-75 | definition only: `int(group or 0)`, zero for an absent group; used by `Duration.ParseValue` |
| Duration.TotalDays | src/dategpt/dategpt.py:79 | definition only: days + extra days + 365·years + 30·months; its property is `Duration.ParseValue` |
| Duration.IsDurationText | src/dategpt/dategpt.py:51-65 | definition only: the texts `pattern.fullmatch` accepts, those spelled by `Render` from valid captures; its property is `Duration.ParseAcceptsExactlyThePattern` |
| Duration.Scan | src/dategpt/dategpt.py:51-66 | a text the scanner accepts is spelled by the captures it reports: `Render(r) == s`, and every capture is a non-empty run of digits |
| Duration.Group | src/dategpt/dategpt.py:53-60 | one optional group `(?:(\d+)X)?` takes a digit run and its designator, or nothing; the text is the taken token followed by the rest |
| Duration.GroupTakenWhenPossible | src/dategpt/dategpt.py:53-60 | the group is taken if and only if the text starts with digits followed by the designator |
| Duration.ScanDate | src/dategpt/dategpt.py:53-55 | the years, months and days groups, in that order, spell the start of the text |
| Duration.ScanTime | src/dategpt/dategpt.py:56-61 | the hours, minutes, seconds and extra-days groups after `T` spell the whole rest of the text |
| Duration.ScanComplete | src/dategpt/dategpt.py:51-64 | every text of the grammar is accepted, and the scanner recovers exactly the captures that spell it |
| Duration.DigitRunLength | src/dategpt/dategpt.py:53 | `\d+` is greedy: the run is all digits and is followed by a non-digit or by the end of the text |
| Duration.DecimalValueLeadingZero | src/dategpt/dategpt.py:69-75 | leading zeros do not change a group's value, as with `int` |
| Duration.Parse | src/dategpt/dategpt.py:49-80 | the error is `InvalidFormat` carrying the text; a parsed duration is never negative |
| Duration.ParseAcceptsExactlyThePattern | src/dategpt/dategpt.py:51-66 | `Parse` succeeds if and only if the whole text matches the pattern |
| Duration.ParseValue | src/dategpt/dategpt.py:69-80 | seconds = 86400·(days + extra_days + 365·years + 30·months) + 3600·hours + 60·minutes + seconds, with absent groups counting 0 |
| Duration.ParseOfCaptures | src/dategpt/dategpt.py:66-80 | the same formula, for the captures the scanner reports on any accepted text |
| Duration.MonthsBeforeT | src/dategpt/dategpt.py:54 | in `PnM`, the `n` is captured as months |
| Duration.MinutesAfterT | src/dategpt/dategpt.py:58 | in `PTnM`, the `n` is captured as minutes |
| Duration.DaysAfterT | src/dategpt/dategpt.py:60 | in `PTnD`, the `n` is captured as extra days |
| Duration.BarePIsZero | src/dategpt/dategpt.py:69-75 | `P` alone is accepted and is a zero duration |
| Duration.BarePTIsZero | src/dategpt/dategpt.py:56-61 | `PT` alone is accepted and is a zero duration |
| Duration.RenderInAlphabet | src/dategpt/dategpt.py:51-62 | every text of the grammar starts with `P` and holds only ASCII digits and `P Y M D T H S` |
| Duration.AcceptedShape | src/dategpt/dategpt.py:51-66 | an accepted text starts with `P` and holds only digits and designators |
| Duration.ForeignCharacterRejected | src/dategpt/dategpt.py:64-66 | a text with any other character (a sign, a decimal point, `W`, a space) raises the format error carrying the text |
| Duration.EmptyRejected | src/dategpt/dategpt.py:64-66 | the empty string raises the format error |
| Duration.OutOfOrderRejected | src/dategpt/dategpt.py:52-55 | for any non-empty digit runs `d` and `y`, the text `"P" + d + "D" + y + "Y"` raises the format error carrying the text: a years group may not follow a days group |
| Dispatch.Handler.Name | src/dategpt/dategpt.py:85-86 | definition only: `parse_interval`, `parse_duration`, `parse_date` (also lines 104-105 and 125-126); its properties are `Dispatch.EveryHandlerReachable` and `Dispatch.NameAnnouncesResultKey` |
| Dispatch.Registry | src/dategpt/dategpt.py:152-156 | definition only: the interval, duration and date handlers, in that order; its properties are `Dispatch.OfferedFunctions` and `Dispatch.EveryHandlerReachable` |
| Dispatch.Returned | src/dategpt/dategpt.py:174 | definition only: `return function.run_function(...)` passes on the handler's dictionary, or its exception; used by `Dispatch.Respond` and `Dispatch.RunsFirstMatch` |
| Dispatch.Respond | src/dategpt/dategpt.py:167-176 | definition only: `None` for a text reply or an unknown name, otherwise the first matching handler's result or error; its properties are `Dispatch.RunsFirstMatch`, `Dispatch.NoMatchReturnsNone`, `Dispatch.UnknownNameRunsNothing` and `Dispatch.ResultAnswersTheCall` |
| Dispatch.Handler.ResultKey | src/dategpt/dategpt.py:98-100 | definition only: `date`, `duration`, `interval`, the one key of each handler's result dictionary (also lines 120-122 and 142-147); the contract of `Dispatch.Handler.Run` ties it to `Outcome.Key` |
| Dispatch.Prompt | src/dategpt/dategpt.py:19-21 | definition only: the fixed phrases around the user's text and the time; its properties are `Dispatch.PromptQuotesUserText` and `Dispatch.PromptInjective` |
| Dispatch.StringField | src/dategpt/dategpt.py:96 | a field is read only when present and a string (pydantic's `str` field) |
| Dispatch.IntervalErrors | src/dategpt/dategpt.py:137 | the nested model reports no error if and only if both `start_date` and `end_date` are strings |
| Dispatch.Handler.Metadata | src/dategpt/dategpt.py:88-93 | the metadata of each handler carries the handler's own name |
| Dispatch.Handler.Run | src/dategpt/dategpt.py:95-147 | a successful result has exactly the key of its handler: `date`, `duration` or `interval` |
| Dispatch.MetadataOf | src/dategpt/dategpt.py:158-162 | one metadata entry per handler, entry i being handler i's metadata |
| Dispatch.FirstMatch | src/dategpt/dategpt.py:171-172 | the first index whose handler has the name; when there is none, no handler has the name |
| Dispatch.FirstMatchAt | src/dategpt/dategpt.py:171-174 | a matching handler with no match before it is the first match |
| Dispatch.RunsFirstMatch | src/dategpt/dategpt.py:170-174 | a call runs the first handler of the chosen name with the call's arguments, and passes on its result |
| Dispatch.NoMatchReturnsNone | src/dategpt/dategpt.py:175-176 | when no handler has the name, the `else` branch returns `None` |
| Dispatch.Dispatch | src/dategpt/dategpt.py:167-176 | the `for … else` loop returns `Respond`: `None` for a text reply or an unknown name, otherwise the first matching handler's result |
| Dispatch.Runner.constructor | src/dategpt/dategpt.py:151-156 | the runner holds the interval, duration and date handlers, in that order |
| Dispatch.Runner.GetFunctions | src/dategpt/dategpt.py:158-162 | the metadata of every registered handler, in registration order; nothing changes |
| Dispatch.Runner.RunPrompt | src/dategpt/dategpt.py:164-176 | records the model's reply to the prompt and the offered metadata in `lastCompletion`, in every case, and returns `Respond` for that reply |
| Dispatch.ParseDate | src/dategpt/dategpt.py:15-21 | a fresh runner answers the prompt built from the user's text and the current time |
| Dispatch.EveryHandlerReachable | src/dategpt/dategpt.py:152-156 | each handler's name leads to that very handler: no registered name shadows another |
| Dispatch.OfferedFunctions | src/dategpt/dategpt.py:152-162 | the model is offered `parse_interval`, `parse_duration`, `parse_date`, in that order |
| Dispatch.UnknownNameRunsNothing | src/dategpt/dategpt.py:170-176 | a call of any other name returns `None` |
| Dispatch.NameAnnouncesResultKey | src/dategpt/dategpt.py:83-147 | each handler is named `parse_` + its result key, and its schema requires exactly that field |
| Dispatch.ResultAnswersTheCall | src/dategpt/dategpt.py:164-176 | a result comes only from a function call, and its key is the one the called name announces |
| Dispatch.RequiredFieldsPresent | src/dategpt/dategpt.py:95-137 | a handler succeeds only on an object holding every field its schema requires |
| Dispatch.MissingFieldRejected | src/dategpt/dategpt.py:95-137 | a missing required field gives a validation error naming that field |
| Dispatch.ExtraFieldsIgnored | src/dategpt/dategpt.py:95-137 | adding a field the schema does not require does not change the result |
| Dispatch.DurationHandlerUsesParser | src/dategpt/dategpt.py:114-122 | the duration handler returns `parse_iso8601_duration` of the payload string, or passes on its error |
| Dispatch.DateHandlerUsesStrptime | src/dategpt/dategpt.py:95-100 | the date handler returns `strptime` of the payload string, or a format error carrying it |
| Dispatch.IntervalNotReordered | src/dategpt/dategpt.py:135-147 | any two accepted dates make the interval (start, end) as given, with no ordering check and no swap |
| Dispatch.IntervalStartParsedFirst | src/dategpt/dategpt.py:139-140 | a bad start date is the error reported, whatever the end date |
| Dispatch.PromptQuotesUserText | src/dategpt/dategpt.py:19-21 | the prompt opens with the fixed phrase, followed by the user's text verbatim |
| Dispatch.PromptInjective | src/dategpt/dategpt.py:19-21 | at a fixed time, different user texts give different prompts |

## Left out

- `get_llm_output` is left out: the OpenAI client, the network call, the model name and the
  `CHATGPT_SECRET_API_KEY` environment variable. The model's reply is the `Oracle` function
  parameter, a deterministic function of the prompt and the offered metadata. The completion
  object is reduced to its first choice, modelled as `Decision`.
- `json.loads` is not modelled. Arguments arrive already decoded as `Json`, or as `Undecodable`.
- Pydantic is modelled only as far as the handlers rely on it:
  - a required `str` field must be present and be a JSON string (pydantic 2 does not coerce
    numbers to strings);
  - other keys are ignored;
  - error locations are written as dotted paths;
  - a schema is reduced to its title and its required fields. The field descriptions of
    `ParseDate`, `ParseDuration`, `ParseInterval` and `IntervalModel` (lines 36-47) and the
    rest of `.schema()` are not modelled.
- `datetime.strptime` with `%Y-%m-%dT%H:%M:%S` is the `DateParser` parameter. Its leniency on
  field widths and its calendar checks are not modelled.
- `datetime.now().strftime("%Y-%m-%d %H:%M:%S")` is the already formatted `now` parameter of
  `Dispatch.ParseDate`.
- Duration.Parse: a duration is an unbounded whole number of seconds. `timedelta`'s
  normalisation into days, seconds and microseconds is not modelled, and neither is its
  `OverflowError` beyond 999999999 days. Nor is the limit on the number of digits `int`
  converts (4300 by default since Python 3.11): on a group longer than that, such as
  `"P" + 4301 zeros + "Y"`, the source raises `ValueError` where `Parse` returns a value.
- Duration.IsDigit: `\d` is restricted to ASCII digits. Python's `\d` also matches other Unicode
  decimal digits, and `int` accepts them.
- The `print` calls (lines 115, 136, 168, 173, 176) are not modelled: they produce output only.
- The unused `llmassistant` parameter of `run_function` is dropped.
- The `last_completion` attribute is absent until the first `run_prompt`; the model represents
  that state as `None`.
- Nothing from `src/dategpt/cli.py` is part of this model: the command-line interface and its
  output formatting.
- The value of a literal example such as `P1Y2M10DT2H30M` is not stated lemma by lemma. It is the
  instance of `Duration.ParseValue` for the captures that spell it.
