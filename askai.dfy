/**
 * The "Ask AI" screen's view model: a date range and a target assistant
 * app are chosen, the transactions of that range are exported as a PDF and
 * shared with the assistant. The PDF writer is a platform service; its
 * outcome is a parameter of the click handler.
 */
module AskAI {
  import opened Wrappers
  import opened Entities
  import opened Clock
  import opened Tables
  import opened Database
  import opened Repository

  /** The assistants the PDF can be shared with; the share intent targets the app's package. */
  datatype AIModel = CHATGPT | GEMINI | CLAUDE

  function PackageName(m: AIModel): (p: string)
    ensures p in {"com.openai.chatgpt", "com.google.android.apps.bard", "com.anthropic.claude"}
  {
    match m
    case CHATGPT => "com.openai.chatgpt"
    case GEMINI => "com.google.android.apps.bard"
    case CLAUDE => "com.anthropic.claude"
  }

  /** Each assistant is reached through its own package. */
  lemma PackageNamesDistinct(m: AIModel, n: AIModel)
    ensures PackageName(m) == PackageName(n) <==> m == n
  {
  }

  /** One-shot events the screen reacts to. */
  datatype AskAIEvent = SharePdf(uri: string, packageName: string) | ShowError(message: string)

  /** What the PDF export did: wrote a file, returned no file, or threw. */
  datatype PdfOutcome = Written(uri: string) | NoFile | Threw(message: string)

  const NoDatesMessage := "Please select both start and end dates."
  const ReversedRangeMessage := "Start date cannot be after end date."
  const NoTransactionsMessage := "No transactions found in this date range."
  const NoPdfMessage := "Failed to generate PDF."

  /** The last millisecond of the day that starts at `end`. */
  function AdjustedEnd(end: int): int { end + DayMillis - 1 }

  /**
   * For day starts `start` and `end`, the range `start .. AdjustedEnd(end)`
   * holds exactly the instants whose local day lies between the two days.
   */
  lemma WholeDaysRange(t: int, start: int, end: int, zoneOffset: int)
    requires (start + zoneOffset) % DayMillis == 0 && (end + zoneOffset) % DayMillis == 0
    ensures start <= t <= AdjustedEnd(end) <==> start <= StartOfDay(t, zoneOffset) <= end
  {
    var d := StartOfDay(t, zoneOffset);
    if start <= t && d < start {
      // both `d` and `start` are midnights within a day below `t`
      SameGridPoint(d + zoneOffset, start + zoneOffset, t + zoneOffset);
    }
    if t <= AdjustedEnd(end) && end < d {
      assert end <= t < end + DayMillis;
      SameGridPoint(d + zoneOffset, end + zoneOffset, t + zoneOffset);
    }
  }

  class AskAIViewModel {
    const repository: DataRepository
    const zoneOffset: int
    var startDate: Option<int>
    var endDate: Option<int>
    var selectedModel: AIModel
    var isLoading: bool
    /** Every event emitted so far, oldest first. */
    var events: seq<AskAIEvent>

    /** Stored dates are always local midnights. */
    predicate Valid()
      reads this
    {
      (startDate.Some? ==> StartOfDay(startDate.value, zoneOffset) == startDate.value) &&
      (endDate.Some? ==> StartOfDay(endDate.value, zoneOffset) == endDate.value)
    }

    constructor (repository: DataRepository, zoneOffset: int)
      ensures Valid()
      ensures this.repository == repository && this.zoneOffset == zoneOffset
      ensures startDate == None && endDate == None && selectedModel == CHATGPT
      ensures !isLoading && events == []
    {
      this.repository := repository;
      this.zoneOffset := zoneOffset;
      startDate := None;
      endDate := None;
      selectedModel := CHATGPT;
      isLoading := false;
      events := [];
    }

    /** `setStartDate`: normalizes to midnight and clears an end date that would now come first. */
    method SetStartDate(date: int)
      requires Valid()
      modifies this
      ensures Valid()
      ensures startDate == Some(StartOfDay(date, zoneOffset))
      ensures endDate == if old(endDate).Some? && old(endDate).value < StartOfDay(date, zoneOffset) then None else old(endDate)
      ensures endDate.Some? ==> startDate.value <= endDate.value
      ensures selectedModel == old(selectedModel) && isLoading == old(isLoading) && events == old(events)
    {
      var normalizedDate := StartOfDay(date, zoneOffset);
      StartOfDayIdempotent(date, zoneOffset);
      startDate := Some(normalizedDate);
      if endDate.Some? && endDate.value < normalizedDate {
        endDate := None;
      }
    }

    /** `setEndDate`: normalizes to midnight; the order of the range is checked only on click. */
    method SetEndDate(date: int)
      requires Valid()
      modifies this
      ensures Valid()
      ensures endDate == Some(StartOfDay(date, zoneOffset))
      ensures startDate == old(startDate) && selectedModel == old(selectedModel)
      ensures isLoading == old(isLoading) && events == old(events)
    {
      StartOfDayIdempotent(date, zoneOffset);
      endDate := Some(StartOfDay(date, zoneOffset));
    }

    method SetSelectedModel(model: AIModel)
      modifies this
      ensures selectedModel == model
      ensures startDate == old(startDate) && endDate == old(endDate)
      ensures isLoading == old(isLoading) && events == old(events)
    {
      selectedModel := model;
    }

    /**
     * `onAskAIClicked`: validates the range, reads the transactions of the
     * whole days it covers and emits exactly one event. `exported` is the
     * list handed to the PDF writer, empty when it is not called.
     */
    method OnAskAIClicked(pdf: PdfOutcome) returns (exported: seq<Transaction>)
      requires Valid()
      modifies this
      ensures Valid()
      ensures startDate == old(startDate) && endDate == old(endDate) && selectedModel == old(selectedModel)
      ensures |events| == |old(events)| + 1 && events[..|old(events)|] == old(events)
      ensures old(startDate).None? || old(endDate).None? ==>
                events[|old(events)|] == ShowError(NoDatesMessage) && exported == [] && isLoading == old(isLoading)
      ensures old(startDate).Some? && old(endDate).Some? && old(startDate).value > old(endDate).value ==>
                events[|old(events)|] == ShowError(ReversedRangeMessage) && exported == [] && isLoading == old(isLoading)
      ensures old(startDate).Some? && old(endDate).Some? && old(startDate).value <= old(endDate).value ==>
                var start, end := old(startDate).value, old(endDate).value;
                !isLoading &&
                IsListing(exported, Between(repository.db.Snapshot(), start, AdjustedEnd(end)), Date, true) &&
                (forall i | 0 <= i < |exported| :: start <= StartOfDay(exported[i].fields.date, zoneOffset) <= end) &&
                events[|old(events)|] ==
                  if exported == [] then ShowError(NoTransactionsMessage)
                  else match pdf
                    case Written(uri) => SharePdf(uri, PackageName(selectedModel))
                    case NoFile => ShowError(NoPdfMessage)
                    case Threw(message) => ShowError("Error: " + message)
    {
      exported := [];
      if startDate.None? || endDate.None? {
        events := events + [ShowError(NoDatesMessage)];
        return;
      }
      var start, end := startDate.value, endDate.value;
      if start > end {
        events := events + [ShowError(ReversedRangeMessage)];
        return;
      }
      isLoading := true;
      var transactions := repository.db.GetTransactionsBetweenDates(start, AdjustedEnd(end));
      forall i | 0 <= i < |transactions|
        ensures start <= StartOfDay(transactions[i].fields.date, zoneOffset) <= end
      {
        WholeDaysRange(transactions[i].fields.date, start, end, zoneOffset);
      }
      if transactions == [] {
        events := events + [ShowError(NoTransactionsMessage)];
        isLoading := false;
        return;
      }
      exported := transactions;
      match pdf {
        case Written(uri) => events := events + [SharePdf(uri, PackageName(selectedModel))];
        case NoFile => events := events + [ShowError(NoPdfMessage)];
        case Threw(message) => events := events + [ShowError("Error: " + message)];
      }
      isLoading := false;
    }
  }
}
