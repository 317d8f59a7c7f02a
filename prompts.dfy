/**
 The three agent prompts, built as the source's f-strings build them: fixed
 text with the trip's parameters and earlier results interpolated.
 */
module Prompts {
  import opened Text

  /** The literal text of the three prompts, between the interpolated values. */
  const ResearchPieces := ["Research the best attractions and activities in ", " for a ", "-day ",
                           " trip. The traveler enjoys: ", ". Budget: ", "."]
  const HotelPieces := ["Find the best hotels and restaurants near attractions in ", ". Preferences: ",
                        ", Budget: ", ", Hotel Rating: ", "."]
  const PlanningPieces := ["Create a ", "-day itinerary for ", ". Attractions: ", ". Hotels: ",
                           ". Flight options: ", "."]

  /** The prompt of the research call. */
  function ResearchPrompt(destination: string, numDays: int, theme: string, activities: string,
                          budget: string): (r: string)
    ensures StartsWith(r, "Research the best attractions and activities in " + destination)
  {
    InterpolateOpening(ResearchPieces, [destination, Decimal(numDays), Lower(theme), activities, budget]);
    Interpolate(ResearchPieces, [destination, Decimal(numDays), Lower(theme), activities, budget])
  }

  /** The prompt of the hotel and restaurant call; it does not depend on the
      research call's result. */
  function HotelPrompt(destination: string, activities: string, budget: string, hotelRating: string): (r: string)
    ensures StartsWith(r, "Find the best hotels and restaurants near attractions in " + destination)
  {
    InterpolateOpening(HotelPieces, [destination, activities, budget, hotelRating]);
    Interpolate(HotelPieces, [destination, activities, budget, hotelRating])
  }

  /** The prompt of the itinerary call, which embeds the two earlier results
      and the serialised ranked flights. */
  function PlanningPrompt(numDays: int, destination: string, attractions: string, hotels: string,
                          flights: string): (r: string)
    ensures StartsWith(r, "Create a " + Decimal(numDays))
  {
    InterpolateOpening(PlanningPieces, [Decimal(numDays), destination, attractions, hotels, flights]);
    Interpolate(PlanningPieces, [Decimal(numDays), destination, attractions, hotels, flights])
  }

  /** The research prompt names the destination, the trip length, the
      lower-cased theme, the activities and the budget, in that order. */
  lemma ResearchPromptMentions(destination: string, numDays: int, theme: string, activities: string,
                               budget: string)
    ensures AppearInOrder(ResearchPrompt(destination, numDays, theme, activities, budget),
                          [destination, Decimal(numDays), Lower(theme), activities, budget])
  {
    InterpolateKeepsOrder(ResearchPieces,
                          [destination, Decimal(numDays), Lower(theme), activities, budget]);
  }

  /** The hotel prompt names the destination, the activities, the budget and
      the hotel rating, in that order. */
  lemma HotelPromptMentions(destination: string, activities: string, budget: string, hotelRating: string)
    ensures AppearInOrder(HotelPrompt(destination, activities, budget, hotelRating),
                          [destination, activities, budget, hotelRating])
  {
    InterpolateKeepsOrder(HotelPieces,
                          [destination, activities, budget, hotelRating]);
  }

  /** The itinerary prompt names the trip length, the destination, the
      research content, the hotel content and the serialised flights, in
      that order. */
  lemma PlanningPromptMentions(numDays: int, destination: string, attractions: string, hotels: string,
                               flights: string)
    ensures AppearInOrder(PlanningPrompt(numDays, destination, attractions, hotels, flights),
                          [Decimal(numDays), destination, attractions, hotels, flights])
  {
    InterpolateKeepsOrder(PlanningPieces,
                          [Decimal(numDays), destination, attractions, hotels, flights]);
  }

  /** In particular it contains the research content, the hotel content and
      the serialised flights, in that order. */
  lemma PlanningPromptEmbedsResults(numDays: int, destination: string, attractions: string, hotels: string,
                                    flights: string)
    ensures AppearInOrder(PlanningPrompt(numDays, destination, attractions, hotels, flights),
                          [attractions, hotels, flights])
  {
    var p := PlanningPrompt(numDays, destination, attractions, hotels, flights);
    var all := [Decimal(numDays), destination, attractions, hotels, flights];
    PlanningPromptMentions(numDays, destination, attractions, hotels, flights);
    AppearInOrderDropFirst(p, all);
    assert all[1..] == [destination, attractions, hotels, flights];
    AppearInOrderDropFirst(p, all[1..]);
    assert all[1..][1..] == [attractions, hotels, flights];
  }
}
