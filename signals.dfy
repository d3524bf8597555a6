/** The two external signal fetchers (`fetchWebInfo`,
    `fetchUkCarbonIntensity`) and the `/api/realtime` result mapping. The
    HTTP request itself is not modelled: its outcome is a parameter. */
module Signals {
  import opened Wrappers
  import opened Text

  /** Longest prefix of the reference text that is kept. */
  const ReferenceLimit := 600

  const NoExternalInfo := "No external info available."
  const ExternalInfoFailed := "Could not fetch external info right now."
  const IntensityUnavailable := "Real-time grid carbon intensity data is temporarily unavailable."

  /** `fetchWebInfo`: the outcome of the request is the `extract` field
      of the reference summary (`None` when it is missing). */
  function WebInfo(response: Fetch<Option<string>>): (r: string)
    ensures r != []
    ensures |r| <= ReferenceLimit
    ensures response.Failed? ==> r == ExternalInfoFailed
    ensures response.Received? && (response.body.None? || response.body.value == []) ==> r == NoExternalInfo
    ensures response.Received? && response.body.Some? && response.body.value != [] ==>
      && r <= response.body.value
      && (|response.body.value| <= ReferenceLimit ==> r == response.body.value)
      && (|response.body.value| > ReferenceLimit ==> |r| == ReferenceLimit)
  {
    match response
    case Failed => ExternalInfoFailed
    case Received(extract) =>
      // `extract?.slice(0, 600)`, where a missing extract stays missing
      var sliced := if extract.Some? then extract.value[..Min(|extract.value|, ReferenceLimit)] else "";
      if sliced != "" then sliced else NoExternalInfo
  }

  /** The `intensity` object of a carbon-intensity period; every field may
      be missing. */
  datatype Reading = Reading(actual: Option<int>, forecast: Option<int>, index: Option<string>)

  /** One period of the carbon-intensity response. */
  datatype Period = Period(from: Option<string>, to: Option<string>, intensity: Option<Reading>)

  /** `resp.data?.data?.[0]`: the first period of the `data` array, when
      the array is present and not empty. */
  function CurrentPeriod(data: Option<seq<Period>>): Option<Period>
  {
    if data.Some? && |data.value| > 0 then Some(data.value[0]) else None
  }

  /** `current.intensity?.actual ?? current.intensity?.forecast`: the
      actual reading unless it is nullish (0 is kept), else the forecast. */
  function ReadingValue(p: Period): Option<int>
  {
    match p.intensity
    case None => None
    case Some(i) => if i.actual.Some? then i.actual else i.forecast
  }

  /** `current.intensity?.index` */
  function ReadingIndex(p: Period): Option<string>
  {
    match p.intensity
    case None => None
    case Some(i) => i.index
  }

  /** `${value ?? "unknown"}` for a numeric reading. */
  function ValueText(v: Option<int>): string
  {
    match v
    case Some(n) => DecimalText(n)
    case None => "unknown"
  }

  /** `index || "unknown"`: a missing or empty index reads "unknown". */
  function IndexText(index: Option<string>): string
  {
    if index.Some? && index.value != "" then index.value else "unknown"
  }

  function IntensitySentence(value: string, index: string): (s: string)
    ensures |s| > |IntensityUnavailable|
  {
    "Right now, the electricity grid carbon intensity in Great Britain is about "
      + value + " gCO₂/kWh (" + index + ")."
  }

  /** `fetchUkCarbonIntensity`: the fixed "temporarily unavailable"
      sentence exactly when the request failed or returned no first
      period; otherwise the reading sentence. */
  function IntensityNote(response: Fetch<Option<seq<Period>>>): (r: string)
    ensures r != []
    ensures r == IntensityUnavailable <==> response.Failed? || CurrentPeriod(response.body).None?
    // the value is the actual reading when present (0 included), else the
    // forecast, else "unknown"; the index is used unless missing or empty
    ensures response.Received? && CurrentPeriod(response.body).Some? ==>
      var i := CurrentPeriod(response.body).value.intensity;
      r == IntensitySentence(
        if i.Some? && i.value.actual.Some? then DecimalText(i.value.actual.value)
        else if i.Some? && i.value.forecast.Some? then DecimalText(i.value.forecast.value)
        else "unknown",
        if i.Some? && i.value.index.Some? && i.value.index.value != "" then i.value.index.value
        else "unknown")
  {
    match response
    case Failed => IntensityUnavailable
    case Received(data) =>
      match CurrentPeriod(data)
      case None => IntensityUnavailable
      case Some(current) =>
        IntensitySentence(ValueText(ReadingValue(current)), IndexText(ReadingIndex(current)))
  }

  /** The JSON object `/api/realtime` sends for a reading. */
  datatype RealtimeFields = RealtimeFields(
    from: Option<string>,
    to: Option<string>,
    intensity: Option<int>,
    forecast: Option<int>,
    index: Option<string>)

  /** A reply of `/api/realtime`: the fields, or an error status with its
      message. */
  datatype RealtimeReply = Served(fields: RealtimeFields) | ServerError(error: string)

  const NoRealtimeData := "No real-time data available"
  const RealtimeFetchFailed := "Failed to fetch real-time data"

  /** `/api/realtime`: an error reply when the request failed or returned
      no first period; otherwise the raw fields, `intensity` preferring the
      actual reading and `index` passed through with `??` (an empty index
      stays empty). */
  function RealtimeEndpoint(response: Fetch<Option<seq<Period>>>): (reply: RealtimeReply)
    ensures reply.ServerError? <==> response.Failed? || CurrentPeriod(response.body).None?
    ensures response.Failed? ==> reply == ServerError(RealtimeFetchFailed)
    ensures response.Received? && CurrentPeriod(response.body).None? ==> reply == ServerError(NoRealtimeData)
    ensures response.Received? && CurrentPeriod(response.body).Some? ==>
      var p := CurrentPeriod(response.body).value;
      && reply.fields.from == p.from
      && reply.fields.to == p.to
      && (p.intensity.None? ==>
            reply.fields.intensity.None? && reply.fields.forecast.None? && reply.fields.index.None?)
      && (p.intensity.Some? ==>
            && reply.fields.intensity == (if p.intensity.value.actual.Some? then p.intensity.value.actual
                                          else p.intensity.value.forecast)
            && reply.fields.forecast == p.intensity.value.forecast
            && reply.fields.index == p.intensity.value.index)
  {
    match response
    case Failed => ServerError(RealtimeFetchFailed)
    case Received(data) =>
      match CurrentPeriod(data)
      case None => ServerError(NoRealtimeData)
      case Some(current) =>
        Served(RealtimeFields(
          current.from,
          current.to,
          ReadingValue(current),
          if current.intensity.Some? then current.intensity.value.forecast else None,
          ReadingIndex(current)))
  }

  /** The chat's intensity sentence and the realtime endpoint describe the
      same reading: the sentence is the unavailable one exactly when the
      endpoint errs, and otherwise it is built from the served intensity
      and index. */
  lemma {:induction false} NoteMatchesEndpoint(response: Fetch<Option<seq<Period>>>)
    ensures RealtimeEndpoint(response).ServerError? <==> IntensityNote(response) == IntensityUnavailable
    ensures RealtimeEndpoint(response).Served? ==>
      var f := RealtimeEndpoint(response).fields;
      IntensityNote(response) == IntensitySentence(ValueText(f.intensity), IndexText(f.index))
  {
  }
}
