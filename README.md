# AI Travel Planner: flight ranking and plan pipeline, in Dafny

This project models the core of a travel planner web page (`travelagent.py`).
A user enters a trip. The page fetches flight offers from a flight-search API,
ranks them, and then asks three language-model agents in turn for research,
hotels and an itinerary.

The model covers:

- **Ranking** (`extract_cheapest_flights`). The step reads the `best_flights`
  list of a response. A missing key, JSON null or an empty list gives `[]`.
  Otherwise the offers are stable-sorted by price, a missing price ranking
  above every present one (the `float("inf")` default), and the first three
  are kept. Modules `Offers` and `FlightRanker`.
- **Fetch outcome** (`fetch_flights`). The model gives the query parameters of
  the request. It also says how the outcome of the one GET becomes the mapping
  the ranking reads: a 200 reply gives its parsed body; any other status, or an
  exception, gives `{}` and an error message. Module `FlightQuery`.
- **Prompts**. The three agent prompts are f-strings, modelled as literal
  pieces with interpolated values. The planning prompt embeds the research
  answer, the hotel answer and the serialised ranked flights, in that order.
  Modules `Text` and `Prompts`.
- **One run**. Pressing the button is a pure function from the trip, the GET's
  outcome, the agents' answers and `json.dumps` to a plan plus the list of
  outside calls made. Module `TripPlan`.

Python's `sorted` (timsort) is modelled by a stable insertion sort,
`Offers.SortByPrice`. `Offers.StableSortCharacterised` proves that a sequence
is a stable sort of the input (sorted, and for each price the offers keep their
input order) exactly when it equals `SortByPrice` of the input. So any correct
stable sort returns the same list.

Prices are integers in `Option<int>`. `None` is a missing `price` field, and
its sort key is `Infinity`.

Outside inputs are parameters:

- the outcome of `requests.get`: an `HttpOutcome`;
- the `.content` an agent returns for a prompt: a function `(Agent, string) -> string`;
- `json.dumps`: a function `seq<Offer> -> string`.

Each is used once per run, so a parameter loses no generality.

`response.json()` runs inside the `try` (travelagent.py:134-137), so a 200
reply whose body is not JSON also yields `{}`, with the exception's message.
`FetchFlights` models this body as `NotJson`. The truthiness test at
travelagent.py:147 treats a JSON null under `best_flights` as empty, and so does
the model.

## Model

| member | source | states |
|---|---|---|
| `Offers.KeyOf` | travelagent.py:150 | an offer's sort key is its price when it has one, and infinity when the price is missing |
| `Offers.Less` | travelagent.py:150 | Python's `<` on keys: integer order on prices, every price below infinity, infinity below nothing, and never a key below itself |
| `Offers.Insert` | travelagent.py:150 | inserting one offer into the sorted list adds exactly one element |
| `Offers.InsertPermutes` | travelagent.py:150 | insertion adds exactly the inserted offer to the multiset |
| `Offers.InsertWithKey` | travelagent.py:150 | the inserted offer goes before every other offer with the same price key; the subsequences of other keys are untouched |
| `Offers.InsertSorted` | travelagent.py:150 | inserting into a price-sorted list keeps it sorted |
| `Offers.SortByPrice` | travelagent.py:150 | sorting keeps the number of offers |
| `Offers.SortByPricePermutes` | travelagent.py:150 | the sort is a permutation: no offer lost, invented or duplicated |
| `Offers.SortByPriceIsStableSort` | travelagent.py:150 | the sort is non-decreasing by key (a missing price ranks last), and for every key the offers with that key keep their input order |
| `Offers.StableSortUnique` | travelagent.py:150 | two sorted sequences with the same per-key subsequences are equal, so a stable sort's result is determined |
| `Offers.StableSortCharacterised` | travelagent.py:150 | a sequence is a stable sort of the input if and only if it equals `SortByPrice` of the input |
| `Offers.LessEqIsTotalOrder` | travelagent.py:150 | the key order (integers, then infinity) is reflexive, total, antisymmetric and transitive |
| `FlightRanker.ExtractCheapestFlights` | travelagent.py:145-151 | a missing `best_flights` key or a null value gives `[]`; the result always equals the ranking of the listed offers, so the early return for an empty list agrees with it |
| `FlightRanker.BestFlights` | travelagent.py:146 | the value read is the one stored under `best_flights`, or an empty list when the key is missing |
| `FlightRanker.Truthy` | travelagent.py:147 | a value is falsy exactly when it is null or the empty list |
| `FlightRanker.NothingListedRanksEmpty` | travelagent.py:146-148 | a missing key, null or an empty list ranks to the empty list |
| `FlightRanker.RankedLength` | travelagent.py:150 | the result has exactly min(3, n) offers; with at most 3 offers all of them are returned |
| `FlightRanker.Ranked` | travelagent.py:150 | the ranking is the first min(3, n) offers of the price-sorted list |
| `FlightRanker.RankedSorted` | travelagent.py:150 | the result is non-decreasing by price key |
| `FlightRanker.RankedPricedFirst` | travelagent.py:150 | the result's offer at position i is priced exactly when i is below the number of priced input offers, so unpriced offers come last and are kept only when fewer than 3 priced ones exist |
| `FlightRanker.SortedPricedFirst` | travelagent.py:150 | in a sorted list the unpriced offers are exactly the final block |
| `FlightRanker.RankedStable` | travelagent.py:150 | for every price, the kept offers with that price are the first ones of that price in input order |
| `FlightRanker.RankedFromInput` | travelagent.py:150 | the result is a prefix of a permutation of the input and a sub-multiset of it |
| `FlightRanker.RankedKeepsCheapest` | travelagent.py:150 | every dropped offer ranks at or above every kept offer |
| `FlightRanker.SortedSplit` | travelagent.py:150 | in a sorted list nothing after a cut ranks below anything before it |
| `FlightRanker.RankedExample` | travelagent.py:150 | offers priced 500, none, 100, 300, none rank as 100, 300, 500 |
| `FlightQuery.SearchParams` | travelagent.py:124-133 | the request carries exactly the eight query parameters |
| `FlightQuery.SearchParamsRoundTrip` | travelagent.py:124-133 | the route and dates can be read back from the parameters; the key is the caller's; engine, currency and language are the fixed `google_flights`, `INR`, `en` |
| `FlightQuery.FetchFlights` | travelagent.py:134-143 | there is no alert exactly when the reply is a 200 with a JSON body, and then the body comes back; otherwise the result is `{}`; a non-200 status gives a status alert with that status; an exception, and a 200 reply whose body fails to parse, give a failure alert with the exception's text |
| `FlightQuery.FailedFetchRanksEmpty` | travelagent.py:136-148 | a failed fetch ranks to the empty list, without an error |
| `FlightQuery.ErrorMessageIdentifiesAlert` | travelagent.py:139-142 | an error message is shown exactly when the fetch failed, and different alerts give different messages |
| `FlightQuery.ErrorMessage` | travelagent.py:138-142 | a message exists exactly when there is an alert; the status message is the fixed prefix followed by the status code in Python's canonical decimal form, which reads back to the code (so it is `str()` of the code, without padding); the failure message is the fixed prefix followed by the exception's text |
| `Text.Digits` | travelagent.py:139 | the decimal form of a number is a non-empty digit string with no leading zero, with two or more digits exactly for 10 and above |
| `Text.DigitsRoundTrip` | travelagent.py:139 | a number's digit string reads back to the number |
| `Text.DecimalRoundTrip` | travelagent.py:139 | `str()` of an integer reads back to the integer |
| `Text.Decimal` | travelagent.py:139 | `str()` of an integer is in Python's canonical form (a minus sign exactly for a negative number, then digits with no leading zero except in "0") |
| `Text.DecimalInjective` | travelagent.py:139 | two integers have the same `str()` exactly when they are equal |
| `Text.Lower` | travelagent.py:226 | lower-casing keeps the length and maps each character through the letter table |
| `Text.LowerProperties` | travelagent.py:226 | the lower-cased theme has no capital letter, only capital letters change, and lowering twice equals lowering once |
| `Text.AppearInOrderInSuffix` | travelagent.py:241-246 | parts found in order in a suffix of a text are found in order in the text |
| `Text.AppearInOrderDropFirst` | travelagent.py:241-246 | dropping the first part keeps the remaining parts in order |
| `Text.AppearInOrderPrepend` | travelagent.py:241-246 | putting text and one more part in front keeps the order of the parts |
| `Text.InterpolateKeepsOrder` | travelagent.py:224-246 | every value interpolated into an f-string occurs in the result, in order and without overlap |
| `Text.Interpolate` | travelagent.py:224-246 | an f-string: the literal pieces with the values between them; its properties are stated by `Text.InterpolateKeepsOrder`, `Text.InterpolateLength` and `Text.InterpolateOpening` |
| `Text.InterpolateLength` | travelagent.py:224-246 | an f-string's length is the summed length of its pieces and values, so it adds no text of its own |
| `Text.InterpolateOpening` | travelagent.py:224-246 | an f-string with values opens with its first literal piece followed by its first value |
| `Prompts.ResearchPrompt` | travelagent.py:224-228 | the research prompt opens with its instruction naming the destination |
| `Prompts.HotelPrompt` | travelagent.py:233-235 | the hotel prompt opens with its instruction naming the destination |
| `Prompts.PlanningPrompt` | travelagent.py:241-246 | the planning prompt opens with "Create a " followed by the trip length in decimal |
| `Prompts.ResearchPromptMentions` | travelagent.py:224-228 | the research prompt contains the destination, trip length, lower-cased theme, activities and budget, in that order |
| `Prompts.HotelPromptMentions` | travelagent.py:233-235 | the hotel prompt contains the destination, activities, budget and hotel rating, in that order |
| `Prompts.PlanningPromptMentions` | travelagent.py:241-246 | the planning prompt contains the trip length, destination, research content, hotel content and serialised flights, in that order |
| `Prompts.PlanningPromptEmbedsResults` | travelagent.py:241-246 | the planning prompt contains the research content, the hotel content and the serialised ranked flights, in that order |
| `TripPlan.AgentRuns` | travelagent.py:222-247 | the agent calls of a run are research, hotels and itinerary in that order, and the itinerary prompt embeds the research answer, the hotel answer and the serialised flights, in order |
| `TripPlan.GeneratePlan` | travelagent.py:215-247 | a run makes exactly one flight search with the trip's parameters, then the research, hotel and planner calls in that order; the flights are the ranking of the fetched data; the planner's prompt embeds both earlier answers and the serialised flights, in order |
| `TripPlan.FailedFetchStillPlans` | travelagent.py:217-247 | after a failed fetch the run goes on with an empty flight list and the alert, and the planning prompt still embeds both earlier answers |
| `TripPlan.AgentPromptsDescribeTrip` | travelagent.py:222-237 | the research and hotel prompts of a run contain the trip's own parameters, in order |

## Left out

- The Streamlit page is not modelled: page setup, styling, input widgets, sidebar, packing checklist, banner and result display (travelagent.py:16-118, 199-213, 249-266). It is presentation only.
- Loading the environment, the two key checks and `st.stop()` (travelagent.py:47-62) are not modelled: they are process I/O. The API key is a parameter.
- The HTTP GET itself (travelagent.py:135) is network I/O. Its outcome is the input `HttpOutcome`.
- Building the `agno` agents and their `.run` calls (travelagent.py:158-193, 229, 237, 247) are foreign calls. An agent's answer is the uninterpreted function `content`. An agent failure propagates uncaught in the source, and the model does not represent it.
- `json.dumps` is a parameter. `str(date)` is not modelled: `Route` holds the dates already formatted.
- `FlightRanker.Value`: every key of a response maps to a list of offers or JSON null, so a real reply's other entries (`search_metadata` holding an object, say) have no representation. The ranking reads only `best_flights`, so it loses nothing by this. Under `best_flights`, other JSON kinds (a number, a string, an object) are not modelled. Neither is a body that is not a JSON object (an array, null, a number, a string, a boolean), for which `.get` raises outside the `try`.
- `Offers.Offer`: prices are integers or missing. Float, null and string `price` values are not modelled.
- `Offers.SortByPrice`: insertion sort, not timsort. `Offers.StableSortCharacterised` shows both give the same result for a total order on keys.
- `Text.Lower`: only the letters A to Z are lowered. Python's `str.lower` lowers every Unicode letter. All theme options the form offers use only ASCII letters beside emoji.
- `Text.ParseDecimal` is not part of the source. It is the reading half of the `str()` round trip, added to state that `Decimal` loses nothing.
- `FlightQuery.FetchFlights`: the error is returned as an `Alert` value. When it is displayed relative to other output is not modelled.
