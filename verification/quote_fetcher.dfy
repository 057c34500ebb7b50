/** StockDataManager (stockdatamanager.cpp): polls the realtime quote of one
    stock every five seconds, loads its daily history on request, and keeps
    at most one network reply in flight.

    Qt's machinery is modelled explicitly: a network reply is a number
    (its index in `requests`, the URLs issued so far); `handlers` holds the
    `finished` connections still in place; `aborted` and `released` record
    QNetworkReply::abort and QObject::deleteLater; the signals the manager
    emits are appended to `events`. The outcome of a reply (its body, or the
    network error) is a parameter of the method Qt would call. */
module QuoteFetcher {
  import opened Text
  import opened Calendar
  import opened WireFormat

  type ReplyId = nat

  /** The slot a reply's `finished` signal is connected to. */
  datatype Handler = RealtimeHandler | HistoricalHandler

  /** What a finished reply holds: its body, or QNetworkReply::errorString. */
  datatype Outcome = NoError(body: string) | NetworkError(errorString: string)

  /** The errorOccurred messages, one constructor per message of the source. */
  datatype Message =
    | BadPrefixMessage
    | BadDigitsMessage
    | NetworkMessage(text: string)
    | RealtimeFormatMessage
    | EmptyHistoryMessage
    | HistoryMessage(fault: HistoricalFault)
    | RecordMessage(dayFault: DayFault)

  /** The signals of StockDataManager. */
  datatype Event =
    | ErrorOccurred(message: Message)
    | StockDataReceived(data: StockData)
    | HistoricalDataReceived

  const UPDATE_INTERVAL_MS: int := 5000

  function RealtimeUrl(code: string): string
  {
    "http://hq.sinajs.cn/list=" + code
  }

  /** QDateTime::toString("yyyy-MM-dd"); an invalid QDateTime gives "".
      Valid here means years 1 to 9999, the range a QDateEdit offers; Qt
      would also print a later year such as 10000-01-01, which this model
      turns into "". */
  function DateParam(t: Option<DateTime>): (s: string)
    ensures t.Some? && ValidDateTime(t.value) ==> ParseDate(s) == Some(t.value.date)
    ensures !(t.Some? && ValidDateTime(t.value)) ==> s == ""
  {
    if t.Some? && ValidDateTime(t.value) then
      ParseFormatDate(t.value.date);
      FormatDate(t.value.date)
    else ""
  }

  /** The history request URL, for a code without a '%' place marker (the
      source's chained QString::arg would substitute into one). */
  function HistoricalUrl(code: string, startTime: Option<DateTime>, endTime: Option<DateTime>): string
  {
    "http://web.ifzq.gtimg.cn/appstock/app/fqkline/get?param=" + code + ",day,"
      + DateParam(startTime) + "," + DateParam(endTime) + ",100,qfq"
  }

  /** The errorOccurred signals for rejected day records, in order. */
  function RecordEvents(faults: seq<DayFault>): (es: seq<Event>)
    ensures |es| == |faults|
    ensures forall k :: 0 <= k < |faults| ==> es[k] == ErrorOccurred(RecordMessage(faults[k]))
  {
    if faults == [] then []
    else RecordEvents(faults[..|faults| - 1]) + [ErrorOccurred(RecordMessage(faults[|faults| - 1]))]
  }

  function SlotSet(slot: Option<ReplyId>): set<ReplyId>
  {
    if slot.Some? then {slot.value} else {}
  }

  class StockDataManager {
    /** QString::toDouble(&ok) on the quote fields. */
    const toDouble: Conversion
    /** QJsonDocument::fromJson; a body that does not parse gives JNull. */
    const fromJson: string -> Json

    var currentStockCode: string
    var timerActive: bool
    var timerInterval: int
    var currentReply: Option<ReplyId>
    var handlers: map<ReplyId, Handler>
    var requests: seq<string>
    var aborted: set<ReplyId>
    var released: set<ReplyId>
    var historicalData: HistoricalData
    var latestData: Option<StockData>
    var events: seq<Event>

    /** Single flight: only the reply in the slot is connected, and a reply
        in the slot is connected and not yet handed to deleteLater. */
    ghost predicate Valid()
      reads this`handlers, this`currentReply, this`requests, this`released, this`historicalData
    {
      SingleFlight() && Aligned(historicalData)
    }

    /** The reply bookkeeping part of Valid. */
    ghost predicate SingleFlight()
      reads this`handlers, this`currentReply, this`requests, this`released
    {
      (forall id :: id in handlers ==> currentReply == Some(id))
      && (currentReply.Some? ==>
            currentReply.value in handlers && currentReply.value < |requests| && currentReply.value !in released)
      && (forall id :: id in released ==> id < |requests|)
    }

    constructor(toDouble: Conversion, fromJson: string -> Json)
      ensures Valid()
      ensures this.toDouble == toDouble && this.fromJson == fromJson
      ensures currentStockCode == "" && !timerActive && currentReply.None? && handlers == map[]
      ensures requests == [] && aborted == {} && released == {}
      ensures historicalData == EMPTY_HISTORY && latestData.None? && events == []
    {
      this.toDouble := toDouble;
      this.fromJson := fromJson;
      currentStockCode := "";
      timerActive := false;
      timerInterval := 0;
      currentReply := None;
      handlers := map[];
      requests := [];
      aborted := {};
      released := {};
      historicalData := EMPTY_HISTORY;
      latestData := None;
      events := [];
    }

    /** requestRealtimeData: a well-formed id becomes the polled stock and
        the timer starts at five seconds; any other id is reported and
        changes nothing else. */
    method RequestRealtimeData(stockCode: string)
      requires Valid()
      modifies this
      ensures Valid()
      ensures CheckStockCode(stockCode).None? ==>
        currentStockCode == stockCode && timerActive && timerInterval == UPDATE_INTERVAL_MS && events == old(events)
      ensures CheckStockCode(stockCode) == Some(BadPrefix) ==>
        events == old(events) + [ErrorOccurred(BadPrefixMessage)]
        && currentStockCode == old(currentStockCode) && timerActive == old(timerActive) && timerInterval == old(timerInterval)
      ensures CheckStockCode(stockCode) == Some(BadDigits) ==>
        events == old(events) + [ErrorOccurred(BadDigitsMessage)]
        && currentStockCode == old(currentStockCode) && timerActive == old(timerActive) && timerInterval == old(timerInterval)
      ensures unchanged(this`currentReply, this`handlers, this`requests, this`aborted, this`released)
      ensures unchanged(this`historicalData, this`latestData)
    {
      match CheckStockCode(stockCode)
      case Some(BadPrefix) =>
        events := events + [ErrorOccurred(BadPrefixMessage)];
      case Some(BadDigits) =>
        events := events + [ErrorOccurred(BadDigitsMessage)];
      case None =>
        currentStockCode := stockCode;
        timerActive := true;
        timerInterval := UPDATE_INTERVAL_MS;
    }

    /** cleanupReply: the reply in the slot, if any, is disconnected, aborted
        and handed to deleteLater, and the slot is emptied. */
    method CleanupReply()
      requires Valid()
      modifies this
      ensures Valid()
      ensures currentReply.None? && handlers == map[]
      ensures aborted == old(aborted) + SlotSet(old(currentReply))
      ensures released == old(released) + SlotSet(old(currentReply))
      ensures unchanged(this`currentStockCode, this`timerActive, this`timerInterval, this`requests)
      ensures unchanged(this`historicalData, this`latestData, this`events)
    {
      if currentReply.Some? {
        var id := currentReply.value;
        handlers := handlers - {id};
        aborted := aborted + {id};
        released := released + {id};
        currentReply := None;
      } else {
        handlers := map[];
      }
    }

    /** QObject::deleteLater on the reply in the slot, which also removes
        its connections, followed by emptying the slot. */
    method Release(id: ReplyId)
      requires Valid() && currentReply == Some(id)
      modifies this`released, this`handlers, this`currentReply
      ensures Valid()
      ensures currentReply.None? && handlers == map[] && released == old(released) + {id}
    {
      released := released + {id};
      handlers := map[];
      currentReply := None;
    }

    /** Issues a GET and connects its `finished` signal to `handler`. */
    method Get(url: string, handler: Handler) returns (id: ReplyId)
      requires Valid() && currentReply.None?
      modifies this`requests, this`currentReply, this`handlers
      ensures Valid()
      ensures id == |old(requests)| && requests == old(requests) + [url]
      ensures currentReply == Some(id) && handlers == map[id := handler]
    {
      id := |requests|;
      requests := requests + [url];
      currentReply := Some(id);
      handlers := map[id := handler];
    }

    /** requestHistoricalData: for a non-empty id, the history is emptied,
        any reply in flight is cancelled, and the Tencent daily-bar request
        for the period is issued. */
    method RequestHistoricalData(stockCode: string, startTime: Option<DateTime>, endTime: Option<DateTime>)
      requires Valid()
      modifies this
      ensures Valid()
      ensures stockCode == "" ==> unchanged(this)
      ensures stockCode != "" ==>
        historicalData == EMPTY_HISTORY
        && requests == old(requests) + [HistoricalUrl(stockCode, startTime, endTime)]
        && currentReply == Some(|old(requests)|) && handlers == map[|old(requests)| := HistoricalHandler]
        && aborted == old(aborted) + SlotSet(old(currentReply))
        && released == old(released) + SlotSet(old(currentReply))
      ensures unchanged(this`currentStockCode, this`timerActive, this`timerInterval, this`latestData, this`events)
    {
      if stockCode == "" {
        return;
      }
      historicalData := EMPTY_HISTORY;
      CleanupReply();
      var _ := Get(HistoricalUrl(stockCode, startTime, endTime), HistoricalHandler);
    }

    /** stopUpdates: the timer stops and any reply in flight is cancelled. */
    method StopUpdates()
      requires Valid()
      modifies this
      ensures Valid()
      ensures !timerActive && currentReply.None? && handlers == map[]
      ensures aborted == old(aborted) + SlotSet(old(currentReply))
      ensures released == old(released) + SlotSet(old(currentReply))
      ensures unchanged(this`currentStockCode, this`timerInterval, this`requests)
      ensures unchanged(this`historicalData, this`latestData, this`events)
    {
      timerActive := false;
      CleanupReply();
    }

    /** updateStockData, run on every timer tick: with a stock selected, the
        reply in flight (realtime or historical) is cancelled and a new
        realtime request is issued. */
    method UpdateStockData()
      requires Valid()
      modifies this
      ensures Valid()
      ensures currentStockCode == "" ==> unchanged(this)
      ensures currentStockCode != "" ==>
        requests == old(requests) + [RealtimeUrl(currentStockCode)]
        && currentReply == Some(|old(requests)|) && handlers == map[|old(requests)| := RealtimeHandler]
        && aborted == old(aborted) + SlotSet(old(currentReply))
        && released == old(released) + SlotSet(old(currentReply))
      ensures unchanged(this`currentStockCode, this`timerActive, this`timerInterval)
      ensures unchanged(this`historicalData, this`latestData, this`events)
    {
      if currentStockCode == "" {
        return;
      }
      CleanupReply();
      var _ := Get(RealtimeUrl(currentStockCode), RealtimeHandler);
    }

    /** processRealtimeData with the corrected segment extraction of
        ParseRealtime: a well-formed line becomes the latest quote and is
        announced; a line of fewer than 32 fields, and also a body without a
        double quote (where the source indexes past the split, see
        QuotedSegmentAsWritten), is reported as a format error. */
    method ProcessRealtimeData(data: string)
      requires Valid()
      modifies this`latestData, this`events
      ensures Valid()
      ensures ParseRealtime(data, toDouble).Success? ==>
        latestData == Some(ParseRealtime(data, toDouble).value)
        && events == old(events) + [StockDataReceived(ParseRealtime(data, toDouble).value)]
      ensures ParseRealtime(data, toDouble).Failure? ==>
        latestData == old(latestData) && events == old(events) + [ErrorOccurred(RealtimeFormatMessage)]
    {
      match ParseRealtime(data, toDouble)
      case Failure(_) =>
        events := events + [ErrorOccurred(RealtimeFormatMessage)];
      case Success(quote) =>
        latestData := Some(quote);
        events := events + [StockDataReceived(quote)];
    }

    /** onRealtimeDataReceived: with a reply in the slot, its body is parsed
        or its error reported, then it is handed to deleteLater and the slot
        is emptied. */
    method OnRealtimeDataReceived(outcome: Outcome)
      requires Valid()
      modifies this
      ensures Valid()
      ensures old(currentReply).None? ==> unchanged(this)
      ensures old(currentReply).Some? ==>
        currentReply.None? && handlers == map[] && released == old(released) + {old(currentReply).value}
      ensures old(currentReply).Some? && outcome.NetworkError? ==>
        latestData == old(latestData) && events == old(events) + [ErrorOccurred(NetworkMessage(outcome.errorString))]
      ensures old(currentReply).Some? && outcome.NoError? && ParseRealtime(outcome.body, toDouble).Success? ==>
        latestData == Some(ParseRealtime(outcome.body, toDouble).value)
        && events == old(events) + [StockDataReceived(ParseRealtime(outcome.body, toDouble).value)]
      ensures old(currentReply).Some? && outcome.NoError? && ParseRealtime(outcome.body, toDouble).Failure? ==>
        latestData == old(latestData) && events == old(events) + [ErrorOccurred(RealtimeFormatMessage)]
      ensures unchanged(this`currentStockCode, this`timerActive, this`timerInterval, this`requests, this`aborted)
      ensures unchanged(this`historicalData)
    {
      if currentReply.None? {
        return;
      }
      var id := currentReply.value;
      match outcome {
        case NoError(body) =>
          ProcessRealtimeData(body);
        case NetworkError(text) =>
          events := events + [ErrorOccurred(NetworkMessage(text))];
      }
      Release(id);
    }

    /** The message processHistoricalData reports for a body that does not
        lead to a non-empty day list; None for a body that does. */
    function HistoryFault(data: string): (r: Option<Message>)
      ensures r.None? <==> data != "" && LocateDays(fromJson(data)).Success?
      ensures data == "" ==> r == Some(EmptyHistoryMessage)
      ensures r.Some? && data != "" ==> r.value == HistoryMessage(LocateDays(fromJson(data)).error)
    {
      if data == "" then Some(EmptyHistoryMessage)
      else match LocateDays(fromJson(data))
        case Failure(fault) => Some(HistoryMessage(fault))
        case Success(_) => None
    }

    /** The day list of a body without a HistoryFault. */
    function Days(data: string): (days: seq<Json>)
      requires HistoryFault(data).None?
      ensures |days| > 0
    {
      LocateDays(fromJson(data)).value
    }

    /** processHistoricalData: a body without a usable day list is reported
        and leaves the history as it was; otherwise the history becomes the
        bars of the records that pass their checks, in order, each rejected
        record is reported, and historicalDataReceived is emitted. */
    method ProcessHistoricalData(data: string)
      requires Valid()
      modifies this`historicalData, this`events
      ensures Valid()
      ensures HistoryFault(data).Some? ==>
        historicalData == old(historicalData) && events == old(events) + [ErrorOccurred(HistoryFault(data).value)]
      ensures HistoryFault(data).None? ==>
        historicalData == FromBars(AcceptedBars(Days(data), toDouble))
        && events == old(events) + RecordEvents(DayFaults(Days(data), toDouble)) + [HistoricalDataReceived]
    {
      if data == "" {
        events := events + [ErrorOccurred(EmptyHistoryMessage)];
        return;
      }
      var located := LocateDays(fromJson(data));
      if located.Failure? {
        assert HistoryFault(data) == Some(HistoryMessage(located.error));
        events := events + [ErrorOccurred(HistoryMessage(located.error))];
      } else {
        assert HistoryFault(data).None? && Days(data) == located.value;
        LoadDays(located.value);
        events := events + [HistoricalDataReceived];
      }
    }

    /** The loop of processHistoricalData: the history is rebuilt from the
        records that pass their checks, and each rejected record is reported. */
    method LoadDays(days: seq<Json>)
      modifies this`historicalData, this`events
      ensures historicalData == FromBars(AcceptedBars(days, toDouble))
      ensures events == old(events) + RecordEvents(DayFaults(days, toDouble))
    {
      historicalData := EMPTY_HISTORY;
      var i := 0;
      while i < |days|
        invariant 0 <= i <= |days|
        invariant historicalData == FromBars(AcceptedBars(days[..i], toDouble))
        invariant events == old(events) + RecordEvents(DayFaults(days[..i], toDouble))
      {
        AcceptedStep(days, i, toDouble);
        var checked := CheckDay(days[i], toDouble);
        var faults := DayFaults(days[..i], toDouble);
        if checked.Failure? {
          RecordEventsStep(faults, checked.error);
          AppendAssoc(old(events), RecordEvents(faults), [ErrorOccurred(RecordMessage(checked.error))]);
          events := events + [ErrorOccurred(RecordMessage(checked.error))];
        } else {
          FromBarsStep(AcceptedBars(days[..i], toDouble), checked.value);
          historicalData := AppendBar(historicalData, checked.value);
        }
        i := i + 1;
      }
      assert days[..i] == days;
    }

    /** The part of onHistoricalDataReceived that reads the reply: its body
        is processed and historicalDataReceived emitted (a second time after
        a usable body), or its network error is reported. */
    method ReadHistoricalReply(outcome: Outcome)
      requires Valid()
      modifies this`historicalData, this`events
      ensures Valid()
      ensures outcome.NetworkError? ==>
        historicalData == old(historicalData) && events == old(events) + [ErrorOccurred(NetworkMessage(outcome.errorString))]
      ensures outcome.NoError? && HistoryFault(outcome.body).None? ==>
        historicalData == FromBars(AcceptedBars(Days(outcome.body), toDouble))
        && events == old(events) + RecordEvents(DayFaults(Days(outcome.body), toDouble))
          + [HistoricalDataReceived, HistoricalDataReceived]
      ensures outcome.NoError? && HistoryFault(outcome.body).Some? ==>
        historicalData == old(historicalData)
        && events == old(events) + [ErrorOccurred(HistoryFault(outcome.body).value), HistoricalDataReceived]
    {
      match outcome {
        case NoError(body) =>
          ProcessHistoricalData(body);
          events := events + [HistoricalDataReceived];
        case NetworkError(text) =>
          events := events + [ErrorOccurred(NetworkMessage(text))];
      }
    }

    /** onHistoricalDataReceived as the source has it: the reply is read
        exactly as by the corrected handler, then handed to deleteLater,
        which removes its connection, but it stays in the slot. */
    method OnHistoricalDataReceivedAsWritten(id: ReplyId, outcome: Outcome)
      requires Valid() && id in handlers
      modifies this`historicalData, this`events, this`released, this`handlers
      ensures currentReply == old(currentReply)
      ensures released == old(released) + {id}
      ensures handlers == map[]
      ensures outcome.NetworkError? ==>
        historicalData == old(historicalData) && events == old(events) + [ErrorOccurred(NetworkMessage(outcome.errorString))]
      ensures outcome.NoError? && HistoryFault(outcome.body).None? ==>
        historicalData == FromBars(AcceptedBars(Days(outcome.body), toDouble))
        && events == old(events) + RecordEvents(DayFaults(Days(outcome.body), toDouble))
          + [HistoricalDataReceived, HistoricalDataReceived]
      ensures outcome.NoError? && HistoryFault(outcome.body).Some? ==>
        historicalData == old(historicalData)
        && events == old(events) + [ErrorOccurred(HistoryFault(outcome.body).value), HistoricalDataReceived]
    {
      ReadHistoricalReply(outcome);
      released := released + {id};
      handlers := handlers - {id};
    }

    /** onHistoricalDataReceived with the slot emptied when the finished
        reply is the one in it: the reply is read, handed to deleteLater and
        the slot is emptied, so the manager stays single-flight. */
    method OnHistoricalDataReceived(id: ReplyId, outcome: Outcome)
      requires Valid() && id in handlers
      modifies this`historicalData, this`events, this`released, this`handlers, this`currentReply
      ensures Valid()
      ensures currentReply.None? && handlers == map[] && released == old(released) + {id}
      ensures outcome.NetworkError? ==>
        historicalData == old(historicalData) && events == old(events) + [ErrorOccurred(NetworkMessage(outcome.errorString))]
      ensures outcome.NoError? && HistoryFault(outcome.body).None? ==>
        historicalData == FromBars(AcceptedBars(Days(outcome.body), toDouble))
        && events == old(events) + RecordEvents(DayFaults(Days(outcome.body), toDouble))
          + [HistoricalDataReceived, HistoricalDataReceived]
      ensures outcome.NoError? && HistoryFault(outcome.body).Some? ==>
        historicalData == old(historicalData)
        && events == old(events) + [ErrorOccurred(HistoryFault(outcome.body).value), HistoricalDataReceived]
    {
      ReadHistoricalReply(outcome);
      Release(id);
    }

    /** Qt's event loop delivering the `finished` signal of reply `id`, in
        the corrected program: the connected slot runs, a history reply
        going to the corrected OnHistoricalDataReceived, so every handled
        reply leaves the slot empty (the source's history handler does not;
        see OnHistoricalDataReceivedAsWritten). A reply no longer connected
        (cancelled or already handled) reaches no slot. */
    method Finish(id: ReplyId, outcome: Outcome)
      requires Valid()
      modifies this
      ensures Valid()
      ensures id !in old(handlers) ==> unchanged(this)
      ensures id in old(handlers) ==> currentReply.None? && handlers == map[] && released == old(released) + {id}
      ensures unchanged(this`currentStockCode, this`timerActive, this`timerInterval, this`requests, this`aborted)
      ensures id in old(handlers) && old(handlers)[id].RealtimeHandler? ==>
        && historicalData == old(historicalData)
        && (outcome.NetworkError? ==>
              latestData == old(latestData) && events == old(events) + [ErrorOccurred(NetworkMessage(outcome.errorString))])
        && (outcome.NoError? && ParseRealtime(outcome.body, toDouble).Success? ==>
              latestData == Some(ParseRealtime(outcome.body, toDouble).value)
              && events == old(events) + [StockDataReceived(ParseRealtime(outcome.body, toDouble).value)])
        && (outcome.NoError? && ParseRealtime(outcome.body, toDouble).Failure? ==>
              latestData == old(latestData) && events == old(events) + [ErrorOccurred(RealtimeFormatMessage)])
      ensures id in old(handlers) && old(handlers)[id].HistoricalHandler? ==>
        && latestData == old(latestData)
        && (outcome.NetworkError? ==>
              historicalData == old(historicalData)
              && events == old(events) + [ErrorOccurred(NetworkMessage(outcome.errorString))])
        && (outcome.NoError? && HistoryFault(outcome.body).None? ==>
              historicalData == FromBars(AcceptedBars(Days(outcome.body), toDouble))
              && events == old(events) + RecordEvents(DayFaults(Days(outcome.body), toDouble))
                + [HistoricalDataReceived, HistoricalDataReceived])
        && (outcome.NoError? && HistoryFault(outcome.body).Some? ==>
              historicalData == old(historicalData)
              && events == old(events) + [ErrorOccurred(HistoryFault(outcome.body).value), HistoricalDataReceived])
    {
      if id !in handlers {
        return;
      }
      match handlers[id]
      case RealtimeHandler =>
        OnRealtimeDataReceived(outcome);
      case HistoricalHandler =>
        OnHistoricalDataReceived(id, outcome);
    }
  }

  lemma RecordEventsStep(faults: seq<DayFault>, fault: DayFault)
    ensures RecordEvents(faults + [fault]) == RecordEvents(faults) + [ErrorOccurred(RecordMessage(fault))]
  {
    assert (faults + [fault])[..|faults|] == faults;
  }

  /** With the source's handler, a finished history request leaves the slot
      holding a reply already handed to deleteLater, so the next
      cleanupReply (the next timer tick, or stopUpdates) would disconnect,
      abort and delete a destroyed object. */
  method HistoryLeavesDanglingSlot() returns (m: StockDataManager)
    ensures m.currentReply.Some? && m.currentReply.value in m.released
    ensures !m.Valid()
  {
    m := new StockDataManager(s => None, s => JNull);
    m.RequestHistoricalData("sh600000", None, None);
    var id := m.currentReply.value;
    m.OnHistoricalDataReceivedAsWritten(id, NetworkError("Connection refused"));
  }

  /** With the corrected handler the same sequence leaves the slot empty, so
      the next tick only issues its own request. */
  method HistoryThenTick() returns (m: StockDataManager)
    ensures m.Valid() && m.aborted == {} && m.released == {0}
    ensures m.requests == [HistoricalUrl("sh600000", None, None), RealtimeUrl("sh600000")]
    ensures m.currentReply == Some(1)
  {
    m := new StockDataManager(s => None, s => JNull);
    ShanghaiIdAccepted();
    m.RequestRealtimeData("sh600000");
    m.RequestHistoricalData("sh600000", None, None);
    m.Finish(0, NetworkError("Connection refused"));
    m.UpdateStockData();
  }

  /** A timer tick while a history request is in flight cancels it: the
      history reply is aborted and its `finished` reaches no slot. */
  method TickCancelsHistory() returns (m: StockDataManager)
    ensures m.Valid() && m.aborted == {0} && m.historicalData == EMPTY_HISTORY
    ensures m.events == []
  {
    m := new StockDataManager(s => None, s => JNull);
    ShanghaiIdAccepted();
    m.RequestRealtimeData("sh600000");
    m.RequestHistoricalData("sh600000", None, None);
    m.UpdateStockData();
    m.Finish(0, NoError("{}"));
  }
}
