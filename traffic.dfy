/** The traffic flow: the simulated commute figures its tool returns, and
    the destination label the flow puts over the model's answer. */
module TrafficAnalyzerFlow {

  import opened Wrappers
  import opened Types
  import opened JsMath
  import opened JsString
  import opened AddressLabel

  /** What the commute tool returns. */
  datatype CommuteDetails = CommuteDetails(commuteTime: int, delay: int)

  /** The base minutes: 20 plus the whole part of 20 times the draw. */
  function BaseTime(d: RandomDraw): (t: nat)
    ensures 20 <= t <= 39
    ensures (t - 20) * d.den <= 20 * d.num < (t - 19) * d.den
  {
    FloorScaled(d, 20) + 20
  }

  /** The delay minutes: none unless the first draw exceeds 2/5, and then
      5 plus the whole part of 25 times the second draw. */
  function TrafficDelay(chance: RandomDraw, length: RandomDraw): (delay: nat)
    ensures delay == 0 <==> !Exceeds(chance, 2, 5)
    ensures Exceeds(chance, 2, 5) ==>
      5 <= delay <= 29 && (delay - 5) * length.den <= 25 * length.num < (delay - 4) * length.den
  {
    if Exceeds(chance, 2, 5) then FloorScaled(length, 25) + 5 else 0
  }

  /** `getCommuteDetailsTool` with its three `Math.random()` calls in order.
      The origin and destination are only logged. */
  function GetCommuteDetails(base: RandomDraw, chance: RandomDraw, length: RandomDraw): (c: CommuteDetails)
    ensures c.delay == TrafficDelay(chance, length)
    ensures c.commuteTime - c.delay == BaseTime(base)
    ensures 0 <= c.delay <= c.commuteTime
    ensures 20 <= c.commuteTime - c.delay <= 39
    ensures c.commuteTime <= 68
  {
    var delay := TrafficDelay(chance, length);
    CommuteDetails(BaseTime(base) + delay, delay)
  }

  const DestinationFallback := "Workville"
  const NoAnalysis := "Unable to get traffic analysis."

  /** `trafficAnalyzerFlow`: fails when the model gives no output; otherwise
      the model's figures and suggestion with the destination replaced by
      the first comma-separated part of the requested destination. */
  function TrafficAnalyzer(destination: string, output: Option<TrafficData>): (r: Result<TrafficData>)
    ensures r.Failure? <==> output.None?
    ensures r.Failure? ==> r.message == NoAnalysis
    ensures r.Success? ==>
      && r.value.commuteTime == output.value.commuteTime
      && r.value.delay == output.value.delay
      && r.value.suggestion == output.value.suggestion
      && r.value.destination == SegmentLabel(destination, 0, DestinationFallback)
      && r.value.destination != ""
  {
    match output
    case None => Failure(NoAnalysis)
    case Some(data) => Success(data.(destination := SegmentLabel(destination, 0, DestinationFallback)))
  }

  /** The displayed destination is the text before the first comma, trimmed,
      or "Workville" when that text is blank; the model's own value never shows. */
  lemma DestinationLabel(first: string, rest: string, data: TrafficData)
    requires ',' !in first
    ensures TrafficAnalyzer(first + "," + rest, Some(data)).value.destination ==
      if AllWhitespace(first) then DestinationFallback else Trim(first)
    ensures TrafficAnalyzer(first, Some(data)).value.destination ==
      if AllWhitespace(first) then DestinationFallback else Trim(first)
  {
    FirstPartLabel(first, rest, DestinationFallback);
  }
}
