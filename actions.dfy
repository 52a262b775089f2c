/** The two server actions the navigator calls when the alarm rings: the
    mock briefing and the motivational quote with its fallbacks. */
module Actions {

  import opened Wrappers
  import opened Types
  import opened AddressLabel

  const WeatherFallback := "Anytown"
  const TrafficFallback := "Workville"

  /** The mock briefing for a home and a destination. Its labels come from
      the SECOND comma-separated part of each address. */
  function GetBriefingData(home: string, destination: string): (b: BriefingData)
    ensures b.weather.location == SegmentLabel(home, 1, WeatherFallback)
    ensures b.traffic.destination == SegmentLabel(destination, 1, TrafficFallback)
    ensures b.weather.location != "" && b.traffic.destination != ""
    ensures 0 <= b.traffic.delay <= b.traffic.commuteTime
    ensures |b.news| == 3
    ensures forall i, j :: 0 <= i < j < |b.news| ==> b.news[i].id != b.news[j].id
  {
    BriefingData(
      WeatherData(18, "Partly Cloudy", SegmentLabel(home, 1, WeatherFallback)),
      TrafficData(25, 5, SegmentLabel(destination, 1, TrafficFallback), None),
      CalendarEvent("Q2 Planning Session", "9:00 AM"),
      [ NewsHeadline("1", "Tech Giant Announces New AI Breakthrough", "Tech News"),
        NewsHeadline("2", "Global Markets React to Economic Data", "Finance Times"),
        NewsHeadline("3", "New Study on Coffee and Productivity Released", "Science Daily") ])
  }

  /** For addresses written "street, city, region" (as the form's defaults
      are) the mock briefing shows the two cities. */
  lemma BriefingShowsCities(home: string, destination: string, homeCity: string, workCity: string)
    requires exists street, region :: home == street + ", " + homeCity + "," + region && StreetCityRegion(street, homeCity, region)
    requires exists street, region :: destination == street + ", " + workCity + "," + region && StreetCityRegion(street, workCity, region)
    ensures GetBriefingData(home, destination).weather.location == homeCity
    ensures GetBriefingData(home, destination).traffic.destination == workCity
  {
    var street, region :| home == street + ", " + homeCity + "," + region && StreetCityRegion(street, homeCity, region);
    SecondPartLabel(street, homeCity, region, WeatherFallback);
    street, region :| destination == street + ", " + workCity + "," + region && StreetCityRegion(street, workCity, region);
    SecondPartLabel(street, workCity, region, TrafficFallback);
  }

  /** What the generated message is made of. */
  datatype GeneratedMessage = GeneratedMessage(quote: string, isPositive: bool)

  /** How the call to the message generator ended: it threw, or it resolved
      to an output that may be null. */
  datatype Generation = GenerationThrew | Generated(output: Option<GeneratedMessage>)

  const AssistantAuthor := "AI Assistant"

  const FallbackQuote := MotivationalQuote(
    "Every morning is a new beginning. Take a deep breath, smile, and start again.",
    "Sunrise Navigator")

  const ErrorQuote := MotivationalQuote("The secret of getting ahead is getting started.", "Mark Twain")

  predicate IsPositive(g: Generation) {
    g.Generated? && g.output.Some? && g.output.value.isPositive
  }

  /** The quote shown with the briefing: the generated one only when the
      generator flagged it positive, otherwise one of two fixed quotes. */
  function GetMotivationalQuote(g: Generation): (q: MotivationalQuote)
    ensures q.author in {AssistantAuthor, FallbackQuote.author, ErrorQuote.author}
    ensures q.author == AssistantAuthor <==> IsPositive(g)
    ensures IsPositive(g) ==> q.quote == g.output.value.quote
    ensures g.Generated? && !IsPositive(g) ==> q == FallbackQuote
    ensures g.GenerationThrew? ==> q == ErrorQuote
  {
    match g
    case GenerationThrew => ErrorQuote
    case Generated(output) =>
      if output.Some? && output.value.isPositive then
        MotivationalQuote(output.value.quote, AssistantAuthor)
      else
        FallbackQuote
  }

  /** A generated quote flagged non-positive never reaches the screen as
      the assistant's quote, whatever its text. */
  lemma NonPositiveNeverShown(quote: string)
    ensures GetMotivationalQuote(Generated(Some(GeneratedMessage(quote, false)))) == FallbackQuote
    ensures GetMotivationalQuote(Generated(Some(GeneratedMessage(quote, false)))).author != AssistantAuthor
  {
  }
}
