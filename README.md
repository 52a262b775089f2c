# Sunrise Navigator in Dafny

Sunrise Navigator is a morning-alarm web app. The user fills in an alarm form with a wake time, a home address, a destination, an alarm sound and a weather location. When the alarm is simulated, the app shows a morning briefing (weather, commute, calendar and news) and a motivational quote. Around these screens sit server-side flows: a traffic and a weather flow that simulate provider data, a news lookup against NewsAPI, three music searches (Audius, Deezer, Last.fm) and an address check against the Google geocoder.

This project models the deterministic rules that sit around the network and LLM glue. Each network reply, model output and random draw becomes an explicit input. The modules are:

- `Wrappers`: `Option`, and `Result`, whose `Failure(message)` stands for a thrown `Error(message)`.
- `JsString`: the JavaScript string built-ins the code relies on. `split` on one character is specified by `join` and proved unique. `trim` removes ECMAScript white space and line terminators. `toLowerCase` handles ASCII. `includes` is characterised by an occurrence index. `length` counts UTF-16 code units.
- `JsMath`: `Math.random()` as an exact fraction num/den in [0, 1), with floor-of-a-multiple and round-half-up.
- `Types`: the briefing records.
- `AlarmSetup`: the alarm form's schema, its default values and the alarm-sound table.
- `AddressLabel`: the shared rule for address labels. It takes the k-th comma-separated part, trimmed, or a fallback when that part is missing or blank.
- `Actions`: the mock briefing and the motivational-quote fallbacks.
- `NewsFlow`: the headline lookup. `GetNewsTool` is a method whose local headline list grows by an append, as the source's does.
- `TrafficAnalyzerFlow` and `WeatherFlow`: the simulated figures and the label overrides.
- `AudiusSearchFlow`, `DeezerSearchFlow`, `LastFmSearchFlow` and `AddressValidatorFlow`: each client's interpretation of a reply.
- `SunriseNavigator`: the top-level screen as a class. It holds six fields and has one method per handler, plus a function for what the screen renders.

Behaviour of the code worth noting:

- The weather flow has no fallback reading. When the model gives no output, it throws.
- The news list is not deduplicated as a whole. Category results are not checked against each other, and the general batch is not checked against itself. `NewsFlow.RepeatedArticleKept` shows a repeated id surviving.
- The Last.fm search and the address check throw when their key is unset; they have no fallback.
- The code comments give the simulated commute ranges as 20–40 and 5–30 minutes. The code produces 20–39 and 5–29.

## Model

| member | source | states |
|---|---|---|
| AlarmSetup.TimeMatchesClockTimes | src/components/alarm-setup.tsx:58 | the wake-time pattern accepts s exactly when s spells a clock time h:m with h < 24 and m < 60, the hour in one or two digits and the minute in two |
| AlarmSetup.TimeExamples | src/components/alarm-setup.tsx:58 | 7:05, 07:00 and 23:59 are accepted; 24:00, 7:5 and 07:60 are rejected |
| AlarmSetup.MinLengthThree | src/components/alarm-setup.tsx:59-62 | text of three or more characters passes the minimum length of 3; text of fewer characters, all within the Basic Multilingual Plane, fails it |
| AlarmSetup.SchemaIssues | src/components/alarm-setup.tsx:57-63 | an issue with its field's message for exactly each failing field, at most four, in strictly increasing schema position, so at most one per field and in declaration order; no issues exactly when every field passes |
| AlarmSetup.IssuesOf | src/components/alarm-setup.tsx:57-63 | checking a list of fields reports no more issues than fields |
| AlarmSetup.IssuesOfFields | src/components/alarm-setup.tsx:57-63 | every reported issue names a checked, failing field with that field's message, and every checked failing field is reported |
| AlarmSetup.IssuesOfOrdered | src/components/alarm-setup.tsx:57-63 | fields checked in schema order give issues in strictly increasing schema position |
| AlarmSetup.SchemaFieldsChecked | src/components/alarm-setup.tsx:57-63 | checking the four declared fields reports exactly the failing ones, each with its message, in schema order, and nothing exactly when all pass |
| AlarmSetup.DefaultValuesAccepted | src/components/alarm-setup.tsx:75-81 | the default form values raise no schema issue |
| AlarmSetup.AlarmSoundUrlsDistinct | src/components/alarm-setup.tsx:49-55 | the five alarm-sound URLs, which the sound select uses as item keys, are pairwise distinct |
| AddressLabel.SegmentLabel | src/lib/actions.ts:20 | the label is the fallback when the k-th comma part is missing or blank; otherwise it is non-empty, trimmed and comma-free; it is never empty when the fallback is not |
| AddressLabel.LabelOfParts | src/lib/actions.ts:20 | for an address made of comma-free parts joined by commas, the label is the k-th part trimmed when it exists and is not blank, else the fallback |
| AddressLabel.SecondPartLabel | src/lib/actions.ts:20 | the label of part 1 of "street, city,region" is the city |
| AddressLabel.FirstPartLabel | src/ai/flows/traffic-analyzer-flow.ts:85 | the label of part 0 is the text before the first comma (all of it when there is none), trimmed, or the fallback when that text is blank |
| Actions.GetBriefingData | src/lib/actions.ts:9-39 | the weather label is part 1 of home with fallback Anytown, the traffic label part 1 of destination with fallback Workville, neither empty; delay ≤ commute time; three headlines with pairwise distinct ids |
| Actions.BriefingShowsCities | src/lib/actions.ts:20-25 | for addresses shaped "street, city,region" the briefing's two labels are the two cities |
| Actions.GetMotivationalQuote | src/lib/actions.ts:41-65 | the author is one of the three fixed values; it is the assistant exactly when the generator flagged its quote positive, whose text is then returned verbatim; a missing or non-positive result gives the Sunrise Navigator quote, a thrown error the Mark Twain quote |
| Actions.NonPositiveNeverShown | src/lib/actions.ts:47-55 | a generated quote flagged non-positive is replaced by the fixed fallback, whatever its text |
| NewsFlow.FetchHeadline | src/ai/flows/news-flow.ts:33-57 | a headline exactly when the request did not throw, the status is ok, the body parsed with status "ok" and the article list is non-empty; the headline is the first article with the URL as id |
| NewsFlow.Present | src/ai/flows/news-flow.ts:67 | the non-null results: no more than there were lookups, and exactly the values that were present |
| NewsFlow.PresentAppend | src/ai/flows/news-flow.ts:67 | dropping nulls distributes over concatenation, so the kept results stay in lookup order |
| NewsFlow.CategoryHeadlines | src/ai/flows/news-flow.ts:59-67 | the non-null lookup results in lookup order, one per successful lookup with duplicates kept, so at most one per category; a headline is there exactly when some lookup produced it |
| NewsFlow.Unseen | src/ai/flows/news-flow.ts:79-83 | the id filter over the general batch; no more headlines than batch articles, with its content given by UnseenKeepsNew and its order by UnseenAppend |
| NewsFlow.UnseenKeepsNew | src/ai/flows/news-flow.ts:79-83 | no kept headline has an id already present; every kept headline comes from the batch; every batch article whose URL is new is kept |
| NewsFlow.UnseenAppend | src/ai/flows/news-flow.ts:79-84 | the id filter distributes over concatenation, so appended headlines keep batch order |
| NewsFlow.RepeatedArticleKept | src/ai/flows/news-flow.ts:79-84 | a new article that appears twice in the general batch is kept twice |
| NewsFlow.GeneralBatch | src/ai/flows/news-flow.ts:74-86 | the second general fetch rejects exactly when it throws or an ok body fails to parse; an ok reply whose body has status "ok" and an article list yields exactly that list; any other reply yields nothing |
| NewsFlow.Take | src/ai/flows/news-flow.ts:90 | a prefix of the list of length min(n, length): the whole list when it is no longer than n, exactly its first n elements otherwise |
| NewsFlow.GetNewsTool | src/ai/flows/news-flow.ts:26-91 | with no key: an empty list and no requests; otherwise the three category requests, then one or two general requests for 5 − found (2 to 5) articles; rejects exactly when the probe lookup found a headline and the second fetch failed; the result has at most 5 items, starts with the category headlines in order, adds only ids not among them, and is the first five of category-then-fresh-general; it is just the category headlines when the probe found nothing or the batch added nothing |
| TrafficAnalyzerFlow.BaseTime | src/ai/flows/traffic-analyzer-flow.ts:38 | the base minutes lie in 20..39 and are 20 plus the whole part of 20 times the draw |
| TrafficAnalyzerFlow.TrafficDelay | src/ai/flows/traffic-analyzer-flow.ts:40 | the delay is 0 exactly when the chance draw does not exceed 2/5; otherwise it lies in 5..29 and is 5 plus the whole part of 25 times the length draw |
| TrafficAnalyzerFlow.GetCommuteDetails | src/ai/flows/traffic-analyzer-flow.ts:34-46 | commute time is base plus delay, so 0 ≤ delay ≤ commute time, commute minus delay is in 20..39 and the commute is at most 68 minutes |
| TrafficAnalyzerFlow.TrafficAnalyzer | src/ai/flows/traffic-analyzer-flow.ts:76-87 | fails with "Unable to get traffic analysis." exactly when the model gives no output; otherwise times and suggestion pass through and the destination is part 0 of the requested one with fallback Workville, never empty |
| TrafficAnalyzerFlow.DestinationLabel | src/ai/flows/traffic-analyzer-flow.ts:85 | the shown destination is the text before the first comma, trimmed, or Workville when it is blank, whatever the model answered |
| WeatherFlow.ClimateFor | src/ai/flows/weather-flow.ts:39-48 | always one of Cloudy/12, Light Rain/15, Sunny/22; Cloudy exactly when the lowercased location contains "york"; Light Rain exactly when it does not but contains "london" |
| WeatherFlow.ClimateIgnoresCase | src/ai/flows/weather-flow.ts:39-42 | lowercasing the location first changes nothing |
| WeatherFlow.YorkWins | src/ai/flows/weather-flow.ts:39-41 | a location containing "york" in any letter case is Cloudy, whatever else it contains, "london" included |
| WeatherFlow.Temperature | src/ai/flows/weather-flow.ts:49-53 | the temperature is the integer nearest the offset value (halves up), so it lies within base ± 2 |
| WeatherFlow.RoundedWithinTwo | src/ai/flows/weather-flow.ts:49-53 | rounding a value in [base − 2, base + 2) gives base − 2 .. base + 2 |
| WeatherFlow.GetWeatherDetails | src/ai/flows/weather-flow.ts:32-55 | the condition is the location's, one of the three; the temperature is its base offset and rounded, within 2 degrees of the base |
| WeatherFlow.Weather | src/ai/flows/weather-flow.ts:79-90 | fails with "Unable to get weather data." exactly when the model gives no output; otherwise temperature and condition pass through and the location is part 0 of the requested one with fallback Unknown, never empty |
| WeatherFlow.LocationLabel | src/ai/flows/weather-flow.ts:88 | the shown location is the text before the first comma, trimmed, or Unknown when it is blank |
| AudiusSearchFlow.StreamUrlInjective | src/ai/flows/audius-search-flow.ts:53 | equal stream URLs come from equal track ids |
| AudiusSearchFlow.SearchMusic | src/ai/flows/audius-search-flow.ts:35-59 | no results on an exception or a missing list; otherwise the first min(5, n) tracks in order, each with its title, its user's name and the stream URL of its id |
| AudiusSearchFlow.DistinctIdsDistinctUrls | src/ai/flows/audius-search-flow.ts:46-54 | tracks with pairwise distinct ids come back with pairwise distinct URLs |
| DeezerSearchFlow.WithPreviews | src/ai/flows/deezer-search-flow.ts:43-49 | the preview filter; no more entries than tracks, with its content given by WithPreviewsKeepsPreviews and its order by WithPreviewsAppend |
| DeezerSearchFlow.WithPreviewsKeepsPreviews | src/ai/flows/deezer-search-flow.ts:43-49 | every entry has a non-empty URL and comes from a track with that preview; every track with a preview is represented; as many entries as tracks when all have previews |
| DeezerSearchFlow.WithPreviewsAppend | src/ai/flows/deezer-search-flow.ts:43-49 | the preview filter distributes over concatenation, so results keep reply order |
| DeezerSearchFlow.SearchMusic | src/ai/flows/deezer-search-flow.ts:33-54 | no results on an exception or a missing list; otherwise the tracks with a preview, each URL non-empty |
| LastFmSearchFlow.SearchMusic | src/ai/flows/music-search-flow.ts:31-62 | rejects with the missing-key message exactly when the key is unset, whatever the reply; no results on an exception, an error field or a missing list; otherwise one entry per track, in order, with name, artist and URL copied |
| LastFmSearchFlow.TracksRecoverable | src/ai/flows/music-search-flow.ts:50-56 | the reply's track list can be rebuilt from the result |
| AddressValidatorFlow.ValidateAddress | src/ai/flows/address-validator-flow.ts:28-57 | rejects with the missing-key message exactly when the key is unset; valid exactly when the status is "OK" with a non-empty result list, with the first result's address; a formatted address is present exactly when valid |
| SunriseNavigator.Navigator.constructor | src/components/sunrise-navigator.tsx:14-19 | no settings, no briefing, no quote and every flag false |
| SunriseNavigator.Navigator.SetAlarm | src/components/sunrise-navigator.tsx:24-31 | stores the settings and marks the alarm set; nothing else changes |
| SunriseNavigator.Navigator.CancelAlarm | src/components/sunrise-navigator.tsx:33-40 | clears the settings and marks the alarm unset; ringing, briefing and quote are untouched |
| SunriseNavigator.Navigator.SimulateAlarm | src/components/sunrise-navigator.tsx:42-66 | with no settings nothing changes; on success the briefing for the stored addresses and the quote are stored and the alarm rings; on failure briefing, quote and ringing are unchanged; the settings are kept and the in-flight flag ends false |
| SunriseNavigator.Navigator.Reset | src/components/sunrise-navigator.tsx:68-74 | clears ringing, set, briefing, quote and settings and leaves the in-flight flag alone |
| SunriseNavigator.Navigator.CurrentScreen | src/components/sunrise-navigator.tsx:94-119 | the setup form shows exactly when the alarm is not ringing, with the stored wake time when there is one and none otherwise, and the current set and in-flight flags; the briefing shows the stored briefing and quote, greeting with the stored wake time or "" when none is stored, and in every reachable state it shows exactly when ringing |
| SunriseNavigator.SetThenRing | src/components/sunrise-navigator.tsx:94-101 | setting an alarm and then a successful simulation shows the briefing with the wake time that was set, the chosen quote and non-empty labels |
| SunriseNavigator.SimulateWithoutAlarm | src/components/sunrise-navigator.tsx:43 | simulating with no alarm set leaves the blank setup form as it was |
| SunriseNavigator.RingThenReset | src/components/sunrise-navigator.tsx:68-74 | resetting after the alarm rang shows the empty setup form |

## Left out

- Network access: every `fetch` and `json()` is an input datatype (threw, or a parsed body). URL assembly with `URLSearchParams` and `encodeURIComponent` is not modelled. `NewsFlow.GetNewsTool` logs each request as its parameters, without the key.
- Genkit and the LLM: the tool, prompt and flow wrappers, and all the model decides, are left out. The model's output is an `Option` input to the traffic and weather flows, and the message generator's result is one to the quote action. The traffic suggestion thresholds at 5 and 10 minutes are prompt text only, so nothing checks them. The motivational-message and YouTube flows are not part of this model.
- Floating point: `Math.random()` draws are exact fractions num/den, and `> 0.4` is compared as exactly 2/5. Rounding error of doubles is not modelled.
- Concurrency: `Promise.all` and the `await` points are one all-or-nothing outcome. `SunriseNavigator.Navigator.SimulateAlarm` runs atomically, so the in-flight state in which `isSimulating` is true between the handler's start and end is not observable. The `sleep` delays are timing only.
- Rendering, toasts, the background image and console logging carry no state and are left out.
- AlarmSetup.SchemaIssues: does not check that the alarm sound is a URL, because that check is library behaviour of the schema validator.
- `toLowerCase` is modelled for ASCII letters only; other letters are left as they are.
- Article, track and geocoding fields absent from a reply are left out. In the source, reading a missing nested field throws; inside a try this gives null, [] or invalid, and outside it, as in the second news fetch, it rejects. The model takes each field it reads to be present.
- The traffic tool's origin and destination are only logged, so they are not parameters of the simulated commute figures.
- An unset environment key is the empty string, which the source's falsy test treats the same as undefined.
