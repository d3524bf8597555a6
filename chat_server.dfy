/** `summarizeData` and the `/api/chat` route: the answer puts a summary of
    the records in view, the grid-intensity sentence and the reference text
    into a fixed template around the user's question. */
module ChatServer {
  import opened Wrappers
  import opened Records
  import opened Aggregation
  import opened Signals

  const NoDataSummary := "No data available for the current filters."

  /** The summary sentence around the formatted total and the top sector. */
  function SummarySentence(total: string, top: string): (s: string)
    ensures |s| > |NoDataSummary|
  {
    "Total emissions in this view are " + total + " MtCO₂e. The highest emitting sector is " + top + "."
  }

  /** The text `summarizeData` returns. The total is formatted by `fmt`,
      which stands for `toFixed(2)`. An empty dictionary has no top sector
      and reads "undefined"; that case needs empty data, which is answered
      earlier. */
  function Summary(data: seq<Record>, fmt: real -> string): (r: string)
    ensures r == NoDataSummary <==> data == []
  {
    if data == [] then NoDataSummary
    else
      var top := TopSector(SectorTotals(data));
      SummarySentence(fmt(Total(data)), if top.Some? then top.value else "undefined")
  }

  /** `summarizeData`: the no-data sentence exactly for empty data;
      otherwise the sentence naming the formatted total and a highest
      sector. */
  method SummarizeData(contextData: seq<Record>, fmt: real -> string) returns (summary: string)
    ensures summary == Summary(contextData, fmt)
    ensures summary == NoDataSummary <==> contextData == []
    ensures contextData != [] ==>
      exists top :: summary == SummarySentence(fmt(Total(contextData)), top) && HighestSector(contextData, top)
  {
    if |contextData| == 0 {
      return NoDataSummary;
    }
    var total := Total(contextData);
    var bySector := AggregateBySector(contextData);
    var topSector := TopSector(bySector);
    summary := SummarySentence(fmt(total), if topSector.Some? then topSector.value else "undefined");
    TopSectorOfData(contextData);
  }

  const Header := "\nBased on the dashboard data:\n"
  const Gap := "\n\n"
  const ReferenceHeader := "\n\nAdditional context from the internet about greenhouse gas emissions:\n"
  const QuestionHeader := "\n\nYour question was: "
  const Trailer := "\n    "

  /** The answer template, slots in the order summary, intensity sentence,
      reference text, question. */
  function ComposeAnswer(summary: string, note: string, reference: string, question: string): string
  {
    Header + summary + Gap + note + ReferenceHeader + reference + QuestionHeader + question + Trailer
  }

  /** `answer` is the template with the four slots at their offsets: each
      slot follows its fixed heading, and the answer ends with the
      template's trailing line. */
  predicate Slots(answer: string, summary: string, note: string, reference: string, question: string)
  {
    var p1 := |Header|;
    var p2 := p1 + |summary| + |Gap|;
    var p3 := p2 + |note| + |ReferenceHeader|;
    var p4 := p3 + |reference| + |QuestionHeader|;
    && |answer| == p4 + |question| + |Trailer|
    && answer[..p1] == Header
    && answer[p1..p1 + |summary|] == summary
    && answer[p1 + |summary|..p2] == Gap
    && answer[p2..p2 + |note|] == note
    && answer[p2 + |note|..p3] == ReferenceHeader
    && answer[p3..p3 + |reference|] == reference
    && answer[p3 + |reference|..p4] == QuestionHeader
    && answer[p4..p4 + |question|] == question
    && answer[p4 + |question|..] == Trailer
  }

  /** A prefix of `a` that is `front + piece` has `front` and `piece` at
      their offsets. */
  lemma {:induction false} Piece(a: string, front: string, piece: string)
    requires |front| + |piece| <= |a| && a[..|front| + |piece|] == front + piece
    ensures a[..|front|] == front
    ensures a[|front|..|front| + |piece|] == piece
  {
    assert a[..|front|] == a[..|front| + |piece|][..|front|];
    assert a[|front|..|front| + |piece|] == a[..|front| + |piece|][|front|..];
  }

  /** Reading the template back: every slot sits at its offset. */
  lemma {:induction false} AnswerSlots(summary: string, note: string, reference: string, question: string)
    ensures Slots(ComposeAnswer(summary, note, reference, question), summary, note, reference, question)
  {
    var a := ComposeAnswer(summary, note, reference, question);
    var s1 := Header + summary;
    var s2 := s1 + Gap;
    var s3 := s2 + note;
    var s4 := s3 + ReferenceHeader;
    var s5 := s4 + reference;
    var s6 := s5 + QuestionHeader;
    var s7 := s6 + question;
    assert a == s7 + Trailer;
    Piece(a, s7, Trailer);
    Piece(a, s6, question);
    Piece(a, s5, QuestionHeader);
    Piece(a, s4, reference);
    Piece(a, s3, ReferenceHeader);
    Piece(a, s2, note);
    Piece(a, s1, Gap);
    Piece(a, Header, summary);
    assert a[|s7|..] == Trailer;
  }

  /** `Array.isArray(contextData) && contextData.length > 0 ? contextData
      : emissions`; a body without an array is `None`. */
  function DataToUse(contextData: Option<seq<Record>>, corpus: seq<Record>): seq<Record>
  {
    if contextData.Some? && |contextData.value| > 0 then contextData.value else corpus
  }

  /** The answer `/api/chat` sends, for the outcomes of the two fetches. */
  function ChatAnswer(question: string, contextData: Option<seq<Record>>, corpus: seq<Record>,
                      fmt: real -> string, web: Fetch<Option<string>>,
                      intensity: Fetch<Option<seq<Period>>>): string
  {
    ComposeAnswer(Summary(DataToUse(contextData, corpus), fmt), IntensityNote(intensity), WebInfo(web), question)
  }

  /** `/api/chat`: summarise the records in view (the whole corpus when
      none are sent), fetch the reference text, then the intensity
      sentence, and fill the template. */
  method HandleChat(question: string, contextData: Option<seq<Record>>, corpus: seq<Record>,
                    fmt: real -> string, web: Fetch<Option<string>>,
                    intensity: Fetch<Option<seq<Period>>>) returns (answer: string)
    ensures answer == ChatAnswer(question, contextData, corpus, fmt, web, intensity)
  {
    var dataToUse := DataToUse(contextData, corpus);
    var dataSummary := SummarizeData(dataToUse, fmt);
    var webSummary := WebInfo(web);
    var realtimeNote := IntensityNote(intensity);
    answer := ComposeAnswer(dataSummary, realtimeNote, webSummary, question);
  }

  /** Every answer holds, in this order, the summary of the records used,
      the intensity sentence, the reference text and the question. */
  lemma {:induction false} ChatAnswerLayout(question: string, contextData: Option<seq<Record>>, corpus: seq<Record>,
                                            fmt: real -> string, web: Fetch<Option<string>>,
                                            intensity: Fetch<Option<seq<Period>>>)
    ensures Slots(ChatAnswer(question, contextData, corpus, fmt, web, intensity),
                  Summary(DataToUse(contextData, corpus), fmt), IntensityNote(intensity), WebInfo(web), question)
  {
    AnswerSlots(Summary(DataToUse(contextData, corpus), fmt), IntensityNote(intensity), WebInfo(web), question);
  }

  /** Sending no records, an empty list, or the whole corpus gives the same
      answer. */
  lemma {:induction false} ContextFallback(question: string, corpus: seq<Record>, fmt: real -> string,
                                           web: Fetch<Option<string>>, intensity: Fetch<Option<seq<Period>>>)
    ensures ChatAnswer(question, Some([]), corpus, fmt, web, intensity) == ChatAnswer(question, None, corpus, fmt, web, intensity)
    ensures ChatAnswer(question, Some(corpus), corpus, fmt, web, intensity) == ChatAnswer(question, None, corpus, fmt, web, intensity)
  {
  }

  /** With no records and both fetches failing the route still answers,
      with the three fallback sentences in their slots. */
  lemma {:induction false} DegradedAnswer(question: string, contextData: Option<seq<Record>>, fmt: real -> string)
    requires contextData.None? || contextData.value == []
    ensures Slots(ChatAnswer(question, contextData, [], fmt, Failed, Failed),
                  NoDataSummary, IntensityUnavailable, ExternalInfoFailed, question)
  {
    AnswerSlots(NoDataSummary, IntensityUnavailable, ExternalInfoFailed, question);
  }
}
