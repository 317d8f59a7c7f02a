/**
 What one press of "Generate Travel Plan" does: fetch and rank the flights,
 then ask the research agent, the hotel agent and the planning agent in turn,
 the planning prompt embedding the first two answers and the ranked flights.

 The outside world enters as parameters: the outcome of the single HTTP GET,
 the `content` an agent returns for a prompt, and `json.dumps`. Each is used
 once per run, so a function of its argument loses no generality.
 */
module TripPlan {
  import opened Text
  import opened Offers
  import opened FlightRanker
  import opened FlightQuery
  import opened Prompts

  /** What the form collects and the core uses. */
  datatype Trip = Trip(route: Route, numDays: int, theme: string, activities: string,
                       budget: string, hotelRating: string)

  datatype Agent = Researcher | HotelFinder | Planner

  /** A call to the outside world. */
  datatype Call = Search(params: map<string, string>) | Run(agent: Agent, prompt: string)

  /** What a run produces for display, and the calls it made, in order. */
  datatype Plan = Plan(flights: seq<Offer>, alert: Alert, hotels: string, itinerary: string,
                       calls: seq<Call>)

  /** The three agent calls of a run, given the serialised ranked flights:
      research, then hotels, then the itinerary, whose prompt embeds the
      first two answers and the flights, in that order. */
  function AgentRuns(trip: Trip, content: (Agent, string) -> string, flightsText: string): (runs: seq<Call>)
    ensures |runs| == 3 && runs[0].Run? && runs[1].Run? && runs[2].Run?
    ensures runs[0].agent == Researcher && runs[1].agent == HotelFinder && runs[2].agent == Planner
    ensures AppearInOrder(runs[2].prompt, [content(Researcher, runs[0].prompt),
                                           content(HotelFinder, runs[1].prompt), flightsText])
  {
    var destination := trip.route.destination;
    var researchPrompt := ResearchPrompt(destination, trip.numDays, trip.theme, trip.activities, trip.budget);
    var research := content(Researcher, researchPrompt);
    var hotelPrompt := HotelPrompt(destination, trip.activities, trip.budget, trip.hotelRating);
    var hotels := content(HotelFinder, hotelPrompt);
    PlanningPromptEmbedsResults(trip.numDays, destination, research, hotels, flightsText);
    [Run(Researcher, researchPrompt), Run(HotelFinder, hotelPrompt),
     Run(Planner, PlanningPrompt(trip.numDays, destination, research, hotels, flightsText))]
  }

  /** One run of the button handler. */
  function GeneratePlan(trip: Trip, apiKey: string, outcome: HttpOutcome,
                        content: (Agent, string) -> string, dumps: seq<Offer> -> string): (plan: Plan)
    ensures |plan.calls| == 4
    ensures plan.calls[0] == Search(SearchParams(trip.route, apiKey))
    ensures forall i :: 1 <= i < |plan.calls| ==> plan.calls[i].Run?
    ensures plan.calls[1].agent == Researcher && plan.calls[2].agent == HotelFinder
    ensures plan.calls[3].agent == Planner
    ensures plan.flights == ExtractCheapestFlights(FetchFlights(outcome).data)
    ensures plan.alert == FetchFlights(outcome).alert
    ensures plan.hotels == content(HotelFinder, plan.calls[2].prompt)
    ensures plan.itinerary == content(Planner, plan.calls[3].prompt)
    ensures AppearInOrder(plan.calls[3].prompt,
                          [content(Researcher, plan.calls[1].prompt), plan.hotels, dumps(plan.flights)])
  {
    var fetched := FetchFlights(outcome);
    var flights := ExtractCheapestFlights(fetched.data);
    var runs := AgentRuns(trip, content, dumps(flights));
    var calls := [Search(SearchParams(trip.route, apiKey))] + runs;
    assert calls[1..] == runs;
    Plan(flights, fetched.alert, content(HotelFinder, runs[1].prompt), content(Planner, runs[2].prompt), calls)
  }

  /** A failed fetch does not stop the run: the plan still gets all three
      agent answers, with an empty flight list and the alert, and the
      planning prompt still embeds the serialised empty list. */
  lemma FailedFetchStillPlans(trip: Trip, apiKey: string, outcome: HttpOutcome,
                              content: (Agent, string) -> string, dumps: seq<Offer> -> string)
    requires FetchFlights(outcome).alert != NoAlert
    ensures var plan := GeneratePlan(trip, apiKey, outcome, content, dumps);
            plan.flights == [] && plan.alert == FetchFlights(outcome).alert &&
            AppearInOrder(plan.calls[3].prompt, [content(Researcher, plan.calls[1].prompt), plan.hotels, dumps([])])
  {
    FailedFetchRanksEmpty(outcome);
  }

  /** The research and hotel prompts are those of the trip: the research
      prompt names the destination, trip length, theme, activities and
      budget; the hotel prompt the destination, activities, budget and
      rating. */
  lemma AgentPromptsDescribeTrip(trip: Trip, apiKey: string, outcome: HttpOutcome,
                                 content: (Agent, string) -> string, dumps: seq<Offer> -> string)
    ensures var plan := GeneratePlan(trip, apiKey, outcome, content, dumps);
            AppearInOrder(plan.calls[1].prompt, [trip.route.destination, Decimal(trip.numDays),
                                                 Lower(trip.theme), trip.activities, trip.budget]) &&
            AppearInOrder(plan.calls[2].prompt, [trip.route.destination, trip.activities, trip.budget,
                                                 trip.hotelRating])
  {
    ResearchPromptMentions(trip.route.destination, trip.numDays, trip.theme, trip.activities, trip.budget);
    HotelPromptMentions(trip.route.destination, trip.activities, trip.budget, trip.hotelRating);
  }
}
