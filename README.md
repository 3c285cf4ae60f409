# Weather chat route, modelled in Dafny

The backend of the weather chat widget has one endpoint, `POST /api/chat`. It takes a
`location` and answers whether the current weather is good for going outside. First it
asks a hosted assistant that has a `get_weather` tool. If the assistant path fails, it
asks the weather provider directly and applies a fixed four-part rule. All of this lives
in `backend/src/routes/chat.route.ts`. This project models that file's logic and proves
what the route promises.

The two external services become inputs:

- The weather provider is a `Provider`: a total function from the city and the optional
  country to either a `Reading` or an error message.
- The assistant service is a script. It gives how the session starts (`Setup`), what each
  successive submission of tool outputs returns (the next run, or an error), and what
  listing the thread's messages returns.
- The handler sees the assistant path as an `Assistant`: a function from the prompt it is
  sent to how the path settles.

Modules, one per part of the route:

- `Weather` (`weather.dfy`): the verdict rule `Verdict`. It checks felt temperature < 25,
  humidity < 80, condition not `"Rain"` and wind < 5, all strict. `Violations` is an
  independent statement of the same rule, one comparison at a time.
- `Location` (`location.dfy`): `Split` models JavaScript's `split(",")`. `City` is the
  first piece. `Country` is the second piece, or absent.
- `Lookup` (`lookup.dfy`): `GetWeather`, which makes one provider request for the
  location's city and country and then gives the verdict, or `{success: false}` with the
  error's message.
- `ToolOutputs` (`tool_outputs.dfy`): `CollectToolOutputs`, the `map` to an output or
  `undefined`, followed by the `filter` of `undefined`. `WeatherCalls` is an independent
  filter-first definition of the same selection.
- `RunStatus` (`run_status.dfy`):
  - `StatusStep` and `RequiredActionStep` say what one call of `handleRunStatus` and
    `handleRequiresAction` does before calling anything else.
  - `HandleRunStatus` is the whole dispatch. It consumes one scripted result per
    submission.
  - `ShouldGoOutside` adds the session start.
  - `Submitted` lists the batches of tool outputs that are sent.
- `ChatRoute` (`chat_route.dfy`): `HandlePost`, the handler's decision table.

The proofs show three behaviours of the route that are easy to miss:

- In `handleRequiresAction` the dispatch after a submission is returned from the `try`
  block without `await`. Its errors therefore reach the caller unwrapped. Only an error of
  the submission itself gets the prefix `"Could not handle required action: "`
  (`RunStatus.ThrownMessages`).
- A run can require action with tool calls where none is `get_weather`. This includes an
  empty `tool_calls` list, which is truthy in JavaScript. Then nothing is
  submitted and `handleRunStatus` is called again on the same run, so the recursion never
  ends. The model returns `Diverges` for this case, and `RunStatus.RecheckIff` says exactly
  when it happens. In a JavaScript engine, the stack eventually overflows. That error is
  not "No location provided", so `HandlePost` falls back to the direct lookup, as it does
  for any other assistant error.
- The handler's `catch` compares the message to `"No location provided"`. So if an
  assistant error has exactly that message, the reply is 500 and there is no fallback
  (`ChatRoute.AssistantErrorMistakenForMissingLocation`).

The condition is read at `weather.main`, as the code does. In the provider's reply
`weather` is a list, so in practice this is `undefined`, and an absent condition is never
`"Rain"` (`Weather.AbsentConditionIgnored`). The model follows the code rather
than the comment `// Rain 0` at `chat.route.ts:116`.

## Model

| member | source | states |
|---|---|---|
| `Weather.VerdictIffNoViolation` | backend/src/routes/chat.route.ts:118-128 | The verdict is good exactly when no comparison fails, and bad exactly when at least one fails. This is proved against an independent list of the failed comparisons. |
| `Weather.GoodWeatherIff` | backend/src/routes/chat.route.ts:119-128 | In the route's own numbers: good exactly when felt temperature < 25, humidity < 80, condition absent or not "Rain", and wind < 5. The verdict is always one of the two labels. |
| `Weather.LimitsAreExclusive` | backend/src/routes/chat.route.ts:120-123 | A reading exactly at 25, 80 or 5 is bad weather, because every comparison is strict. |
| `Weather.AnyViolationIsBad` | backend/src/routes/chat.route.ts:119-128 | One failed comparison is enough for bad weather, whatever the other fields say. |
| `Weather.MilderStaysGood` | backend/src/routes/chat.route.ts:119-125 | A reading no warmer, no more humid and no windier than a good one, and not rain, is also good. |
| `Weather.AbsentConditionIgnored` | backend/src/routes/chat.route.ts:122 | With the condition absent, only the three numeric limits decide the verdict. |
| `Weather.LabelTextIsKnown` | backend/src/routes/chat.route.ts:125-127 | The label text is "good_weather" or "bad_weather", and "good_weather" is exactly the good label. |
| `Location.Split` | backend/src/routes/chat.route.ts:106-107 | Splitting always gives at least one piece, so the city always exists. |
| `Location.SplitJoin` | backend/src/routes/chat.route.ts:106-107 | Joining the pieces with commas gives the location back, and no piece contains a comma. |
| `Location.SplitAfterComma` | backend/src/routes/chat.route.ts:106-107 | A comma-free prefix followed by a comma becomes the first piece. The remainder is split on its own. |
| `Location.SplitWithoutComma` | backend/src/routes/chat.route.ts:106-107 | Text with no comma is split into one piece, itself. |
| `Location.NoCommaIsCityOnly` | backend/src/routes/chat.route.ts:106-107 | With no comma, the city is the whole location and the country is absent. |
| `Location.FirstCommaSeparates` | backend/src/routes/chat.route.ts:106-107 | The city is the text before the first comma. The country is the text from there up to the second comma, untrimmed. |
| `Location.CountryAbsentIff` | backend/src/routes/chat.route.ts:107 | The country is absent exactly when the location has no comma. |
| `Location.CityIsPrefix` | backend/src/routes/chat.route.ts:106 | The city is a comma-free prefix of the location. When it is not the whole location, a comma follows it. |
| `Location.TailIgnored` | backend/src/routes/chat.route.ts:106-107 | A second comma and everything after it play no part in the city or the country. |
| `Location.LondonUK` | backend/src/routes/chat.route.test.ts:24 | "London, UK" gives city "London" and country " UK", with its leading space kept. |
| `Lookup.GetWeather` | backend/src/routes/chat.route.ts:104-133 | A successful lookup's message is one of the two verdict labels. |
| `Lookup.GetWeatherOutcome` | backend/src/routes/chat.route.ts:104-133 | A reading gives `{success: true}` with its verdict. A failed request gives `{success: false}` with the request's error message. The lookup never throws. |
| `Lookup.GetWeatherReadsCityAndCountry` | backend/src/routes/chat.route.ts:106-110 | The provider is asked only about the city and the country. Two locations that agree on both get the same result. |
| `Lookup.GetWeatherIgnoresTail` | backend/src/routes/chat.route.ts:106-110 | Text after a second comma never changes the lookup. |
| `ToolOutputs.MapCalls` | backend/src/routes/chat.route.ts:22-30 | The map gives one entry per tool call. |
| `ToolOutputs.Defined` | backend/src/routes/chat.route.ts:31 | The filter never adds entries. |
| `ToolOutputs.CollectToolOutputs` | backend/src/routes/chat.route.ts:21-31 | There are never more outputs than tool calls. |
| `ToolOutputs.WeatherCalls` | backend/src/routes/chat.route.ts:24 | The reference selection keeps only calls named "get_weather". |
| `ToolOutputs.CollectIsWeatherCallsAnswered` | backend/src/routes/chat.route.ts:21-31 | The outputs are exactly the get_weather calls, in order, each answered under its own call id with its own arguments. |
| `ToolOutputs.CollectAppend` | backend/src/routes/chat.route.ts:21-31 | Selection distributes over concatenation, so the outputs keep the order of the calls. |
| `ToolOutputs.CollectSingle` | backend/src/routes/chat.route.ts:23-30 | A single call gives its answer when it is named "get_weather", and nothing otherwise. |
| `ToolOutputs.CollectEmptyIff` | backend/src/routes/chat.route.ts:21-34 | Nothing is selected exactly when no call is named "get_weather". |
| `ToolOutputs.CollectMembers` | backend/src/routes/chat.route.ts:21-31 | An output is selected exactly when some get_weather call has that id and those arguments. |
| `RunStatus.HandleRunStatus` | backend/src/routes/chat.route.ts:51-65 | Thread messages are returned only as the result of listing them, which happens once the run is completed. |
| `RunStatus.CompletedListsMessages` | backend/src/routes/chat.route.ts:54-56 | A completed run settles on the listed messages, or throws the listing's own error. |
| `RunStatus.OtherStatusFails` | backend/src/routes/chat.route.ts:57-63 | Any status other than completed or requires_action throws "Run did not complete". |
| `RunStatus.MissingToolCallsIsUndefined` | backend/src/routes/chat.route.ts:15-19 | A requires_action run without tool calls settles on `undefined`, not on an error. |
| `RunStatus.RequiredActionSubmitsWeatherAnswers` | backend/src/routes/chat.route.ts:21-40 | A requires_action run submits exactly when some call is get_weather, and what it submits is the selection from its own calls. |
| `RunStatus.RecheckIff` | backend/src/routes/chat.route.ts:34-43 | The same run is dispatched again, with nothing submitted, exactly when it requires action and none of its calls is get_weather. |
| `RunStatus.ThrownMessages` | backend/src/routes/chat.route.ts:12-65 | Every error thrown is "Run did not complete", the listing's error, or a submission error after "Could not handle required action: ". |
| `RunStatus.ScriptExtension` | backend/src/routes/chat.route.ts:34-43 | Once a dispatch ends, extra scripted results change nothing. It uses exactly one scripted result per submitted batch: there are no more batches than results, and the first results, one per batch, already give the same end. |
| `RunStatus.SubmittedBatchesNonEmpty` | backend/src/routes/chat.route.ts:33-40 | No batch is ever submitted empty. The first batch is the selection from the first run's own calls. |
| `RunStatus.AssistantPathErrors` | backend/src/routes/chat.route.ts:68-100 | The assistant path throws only its start's error, "Assistant not found", or what the dispatch throws. |
| `ChatRoute.HandlePost` | backend/src/routes/chat.route.ts:136-158 | The reply status is 200 or 500. A 200 reply that carries a text carries a verdict label. |
| `ChatRoute.MissingLocationRejected` | backend/src/routes/chat.route.ts:139-148 | A missing or empty location gives 500 "No location provided", whatever the assistant and provider would say. |
| `ChatRoute.AssistantAnswerReturned` | backend/src/routes/chat.route.ts:142-144 | A settled assistant path gives 200 with its answer, and the provider is not consulted. |
| `ChatRoute.FallbackToLookup` | backend/src/routes/chat.route.ts:145-156 | Any other assistant error falls back to the lookup. A reading gives 200 with its verdict. A failed request gives 500 with "Internal server error: " before its message. |
| `ChatRoute.AssistantErrorMistakenForMissingLocation` | backend/src/routes/chat.route.ts:146-148 | An assistant error with the message "No location provided" gives 500 with that message, and there is no lookup. |
| `ChatRoute.StatusIff` | backend/src/routes/chat.route.ts:136-158 | The status is 200 exactly when the location is present and either the assistant settles, or it throws another error and the provider gives a reading. |
| `ChatRoute.LondonGetsVerdict` | backend/src/routes/chat.route.test.ts:20-28 | For "London, UK", when the assistant fails and the provider gives a reading, the reply is 200 with good_weather or bad_weather. |
| `ChatRoute.UnknownLocationFails` | backend/src/routes/chat.route.test.ts:30-52 | A location with no comma, where the provider answers 404, gives 500 "Internal server error: Request failed with status code 404". |

## Left out

- The network calls are not modelled: OpenAI client construction, assistant retrieval,
  thread and message creation, `createAndPoll`, `submitToolOutputsAndPoll`,
  `messages.list` and `axios.get`. They are foreign library calls. They appear only as
  their results (`Setup`, the scripted submission results and listing, `Provider`).
- The provider URL and its API key are not modelled. A missing country is written into the
  query as the text `undefined`. The model passes the absent country to `Provider`
  instead, so the provider decides what an absent country means.
- The value of a tool output's `output` is not modelled. `getWeather` is started without
  `await`, so the submitted value is an unresolved promise. `PendingLookup` records only
  the argument text the lookup was started on.
- The module-level `client` and `thread`, which every request overwrites, are not
  modelled. Interference between concurrent requests is outside this sequential model.
- A `location` that is present but not a string, such as a number or an object, is not
  modelled. The request's `location` is an optional string.
- A provider reply with missing fields is not modelled field by field. The `&&` chain at
  `chat.route.ts:120-123` stops at the first comparison that fails, so:
  - a reply without `main` always throws a `TypeError`, because `main` is read first;
  - a reply without `weather` throws only when `feels_like < 25` and `humidity < 80`, and
    otherwise gives `bad_weather`;
  - a reply without `wind` throws only when the first three comparisons hold, and otherwise
    gives `bad_weather`.

  `getWeather` catches the throw. The `Provider` oracle covers both outcomes: `FetchFailed`
  for a throw, and `Fetched` with a reading whose verdict is `bad_weather` for the rest.
- A dispatch that keeps recursing on the same run is reported as `Diverges`. The
  stack-overflow error a JavaScript engine would raise instead is not modelled.
- A scripted assistant service can run out of submission results. The model then reports
  `Unscripted`, which stands for no result. `RunStatus.ScriptExtension` shows that every
  other result does not depend on how long the script is.
- The server bootstrap, CORS and JSON middleware, router mounting, the Jest configuration
  and the React chat widget are not modelled. They are plumbing and UI, with no route
  logic.
- The HTTP status in the model is an integer field. Express's response object and JSON
  serialisation are not modelled. For example, `{message: undefined}` is sent as `{}`.
