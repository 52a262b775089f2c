/** The records the briefing is made of. Their JavaScript numbers are `int`
    here, because the model only passes them through from an input or fills
    them from integer arithmetic on the random draws. */
module Types {

  import opened Wrappers

  datatype WeatherData = WeatherData(temperature: int, condition: string, location: string)

  datatype TrafficData = TrafficData(commuteTime: int, delay: int, destination: string, suggestion: Option<string>)

  datatype CalendarEvent = CalendarEvent(title: string, time: string)

  /** A headline; `id` is the article URL when it comes from NewsAPI. */
  datatype NewsHeadline = NewsHeadline(id: string, title: string, source: string)

  datatype MotivationalQuote = MotivationalQuote(quote: string, author: string)

  datatype BriefingData = BriefingData(weather: WeatherData, traffic: TrafficData, calendar: CalendarEvent, news: seq<NewsHeadline>)

  /** What the alarm form submits. */
  datatype AlarmSettings = AlarmSettings(time: string, home: string, destination: string, alarmSound: string, weatherLocation: string)

  /** One entry of a music search result. */
  datatype MusicTrack = MusicTrack(name: string, artist: string, url: string)

  /** The ids of a list of headlines. */
  function Ids(hs: seq<NewsHeadline>): set<string> {
    set h | h in hs :: h.id
  }
}
