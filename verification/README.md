# Weather/time demo agent: a Dafny model of its tool handlers

The demo agent offers two tools to a language-model runtime, `get_weather` and
`get_current_time`. Both take an argument record with one `city` field. Each
knows only New York, matched case-insensitively. Each reports success or
failure inside its result map and never through Go's error value. This project
models those two handlers as pure functions. It also models the fixed
configuration that registers them as data. It proves what the handlers promise:

- which branch each handler takes;
- that every unknown-city error message quotes the caller's city verbatim, in
  a form that can be read back, and that a zone-load failure message is a
  fixed prefix followed by the error text;
- that every result map has a `status` and exactly one payload key;
- that the time handler never looks at the time-zone database or the clock for
  an unknown city;
- that the tool names and their order are fixed.

Modules, one per file:

- `Wrappers` (`wrappers.dfy`): `Option`, which also stands for Go's nil or
  non-nil `error`.
- `Text` (`text.dfy`): prefix, containment and `Unwrap`. `Unwrap` reads back
  the text between a fixed prefix and suffix. It is the inverse of the
  `fmt.Sprintf` message templates.
- `CaseFold` (`case_fold.dfy`): `strings.EqualFold`, through `FoldKey`.
  `FoldKey` folds the two cases of each ASCII letter together. It also folds
  KELVIN SIGN (U+212A) with `k` and LATIN SMALL LETTER LONG S (U+017F) with
  `s`. These are the only non-ASCII runes whose simple case folding reaches an
  ASCII letter. So the model agrees with Go whenever one side is ASCII, and the
  handlers always compare against `"new york"`.
- `ToolResults` (`tool_result.dfy`): the `Success(report)` / `Error(message)`
  result, its wire map (`ToWire`) and a reader for that map (`FromWire`).
- `Handlers` (`handlers.dfy`): `GetWeather`, `GetCurrentTime` and their
  message builders and readers. The time handler's foreign inputs are
  parameters:
  - `tz: TzLoad` is the outcome of loading `America/New_York`;
  - `now: string` is the current instant, already rendered with the handler's
    layout.
- `Agent` (`agent.dfy`): the two tool descriptors and the root agent's name,
  description, instruction and tool list. `FindTool` stands in for the
  runtime's lookup of a tool by name.
- `Scenarios` (`scenarios.dfy`): calls to the two tools (New York in several
  casings, Paris, Tokyo), worked through the model.

## Model

| member | source | states |
|---|---|---|
| CaseFold.EqualFold | multi_tool_agent/agent.go:26 | two strings fold-equal only if they have the same number of runes |
| CaseFold.EqualFoldPointwise | multi_tool_agent/agent.go:26 | fold-equality holds iff the lengths agree and the runes at each position fold to the same key (both directions) |
| CaseFold.EqualFoldReflexive | multi_tool_agent/agent.go:26 | every city fold-equals itself |
| CaseFold.EqualFoldSymmetric | multi_tool_agent/agent.go:26 | swapping the arguments does not change fold-equality |
| CaseFold.EqualFoldTransitive | multi_tool_agent/agent.go:26 | fold-equality is transitive, so with the two lemmas above it is an equivalence, as case-insensitive matching must be |
| CaseFold.FoldKeyOfLower | multi_tool_agent/agent.go:26 | each lower-case letter of the target "new york" is its own fold key |
| CaseFold.FoldKeyPreimage | multi_tool_agent/agent.go:26 | exactly the two ASCII cases of a letter fold to it, plus KELVIN SIGN for k and LONG S for s |
| Handlers.KnownCitySpellings | multi_tool_agent/agent.go:26 | a city matches iff it has 8 runes and each folds to the matching rune of "new york" |
| Handlers.WeatherReportTemperatures | multi_tool_agent/agent.go:29 | the fixed New York report contains "25 degrees Celsius" and "77 degrees Fahrenheit" |
| Handlers.WeatherUnknown | multi_tool_agent/agent.go:35 | the weather error message contains the city verbatim, and reading between its fixed prefix and suffix gives back exactly the city |
| Handlers.GetWeather | multi_tool_agent/agent.go:25-37 | Go error always nil; success iff the city fold-equals "new york"; success carries the fixed report; an error message reads back to the supplied city and contains it |
| Handlers.TimeUnknown | multi_tool_agent/agent.go:43 | the unknown-city time message contains the city verbatim and reads back to exactly the city |
| Handlers.ZoneFailure | multi_tool_agent/agent.go:51 | the zone-load failure message starts with "Failed to load timezone data for America/New_York: " and the rest is the error text |
| Handlers.TimeReportParts | multi_tool_agent/agent.go:56 | a report that reads back gives a city of the known length and a time string, and rebuilding from them gives the report |
| Handlers.TimeReportRoundTrip | multi_tool_agent/agent.go:56 | the success report for an 8-rune city and a rendered time reads back to exactly that city and time |
| Handlers.GetCurrentTime | multi_tool_agent/agent.go:39-58 | Go error always nil; success iff the city matches and the zone loaded; an unknown city gives an error naming it; a failed load gives the load-failure message with the error text; success starts "The current time in <city as supplied> is " and reads back to (city, now) |
| Handlers.UnknownCityIgnoresClock | multi_tool_agent/agent.go:40-45 | for an unknown city the result is an error and does not depend on the zone load or the clock |
| Handlers.ZoneFailureIgnoresClock | multi_tool_agent/agent.go:47-53 | when the zone fails to load, the result is an error and does not depend on the clock |
| Handlers.HandlersWireStatus | multi_tool_agent/agent.go:27-57 | in the result map, the weather status is "success" iff the city fold-equals "new york", the time status is "success" iff the city matches and the zone loaded, and a status of "error" comes exactly with an "error_message" entry |
| Handlers.TimeErrorsDistinct | multi_tool_agent/agent.go:43-51 | an unknown-city message never starts like a zone-load failure, so the two error causes can be told apart |
| ToolResults.ToWire | multi_tool_agent/agent.go:27-57 | every result map has "status" equal to "success" or "error", "success" exactly for Success, "report" exactly on success, "error_message" exactly on error, never both, two entries in all |
| ToolResults.WireRoundTrip | multi_tool_agent/agent.go:27-57 | reading a result's map back gives the same result |
| ToolResults.WireUnique | multi_tool_agent/agent.go:27-57 | any map that reads as a result is exactly that result's map, so the two shapes are the only well-formed maps |
| Agent.FindTool | multi_tool_agent/agent.go:70-97 | looking a name up in a tool list gives the first listed tool of that name, or nothing exactly when no tool has that name |
| Agent.Invoke | multi_tool_agent/agent.go:75-86 | a tool's handler never returns a Go error and succeeds only for a city that fold-equals "new york" |
| Agent.RegisteredHandlers | multi_tool_agent/agent.go:70-97 | the tool registered as "get_weather" runs getWeather and the tool registered as "get_current_time" runs getCurrentTime, on every input |
| Agent.RootAgentTools | multi_tool_agent/agent.go:92-98 | the root agent is "weather_time_agent" and its tools are named get_weather then get_current_time |
| Agent.RootAgentLookup | multi_tool_agent/agent.go:70-97 | "get_weather" finds the weather tool, "get_current_time" the time tool, and no other name finds a tool |
| Scenarios.KnownCityCasings | multi_tool_agent/agent.go:26 | "New York", "NEW YORK" and "new york" all match |
| Scenarios.KelvinSignSpelling | multi_tool_agent/agent.go:26 | "new yor" followed by KELVIN SIGN matches, as under Go's folding |
| Scenarios.UnknownCities | multi_tool_agent/agent.go:26 | "Paris", "Tokyo" and "new york city" do not match |
| Scenarios.WeatherNewYork | multi_tool_agent/agent.go:26-30 | the weather for "New York" succeeds and the report mentions 25 degrees Celsius and 77 degrees Fahrenheit |
| Scenarios.WeatherParis | multi_tool_agent/agent.go:33-36 | the weather for "Paris" is an error whose message contains "Paris" |
| Scenarios.TimeTokyo | multi_tool_agent/agent.go:40-45 | the time for "Tokyo" is an error containing "Tokyo", whatever the zone load and clock give |
| Scenarios.TimeReportKeepsSpelling | multi_tool_agent/agent.go:55-57 | the time report for "NEW YORK" reads back to the city "NEW YORK" unchanged and the rendered time |

## Left out

- The bootstrap in `main` (multi_tool_agent/agent.go:60-111) is left out. That covers reading `LLM_MODEL` and `GOOGLE_API_KEY`, creating the Gemini model, `functiontool.New`, `llmagent.New`, the launcher and the fatal exits. All of it is I/O or a call into the external agent SDK. Only the names, descriptions, instruction and tool order are kept, as constants in `Agent`.
- Argument-schema derivation from `CityArgs` and the runtime's tool dispatch belong to the SDK. `Agent.FindTool` and `Agent.Invoke` are this model's stand-ins for "the runtime calls the handler registered under this name". They are not a model of the SDK's code.
- `time.LoadLocation` and `time.Now` are parameters. `LoadLocation` becomes `TzLoad`. `Now`, converted to the zone and rendered with the layout `2006-01-02 15:04:05 MST-0700`, becomes `now`. Date arithmetic, daylight-saving offsets and the layout itself are not modelled, because they depend on the time-zone database.
- The `%v` rendering of the load error is treated as an opaque string, `TzFailed.err`.
- CaseFold.EqualFold does not model Go's folding between two non-ASCII runes (for example é and É). The handlers only compare against the ASCII string "new york", where the model agrees with Go.
- Go strings are bytes; the model's strings are sequences of Unicode scalar values. Invalid UTF-8, which Go decodes to U+FFFD and which then never matches "new york", is not represented.
- Result-map values are `any` in Go. Every value the handlers store is a string, so the wire map is `map<string, string>`.
- The tool context parameter is unused by both handlers and is not modelled.
