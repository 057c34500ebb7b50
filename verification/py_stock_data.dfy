/** The Python StockDataManager (StockApp/stock_data_manager.py): an id
    check, historical download and realtime quote like the Qt manager's,
    but every problem is raised as an exception and nothing is polled. The
    id checks differ on all-zero and signed suffixes, and a bad history
    record fails the whole download where the Qt manager skips it.

    requests.get / raise_for_status are given as their outcome (a failure
    is a RequestException). response.json() is given as the parsed tree.
    float(), pd.to_datetime and datetime.strptime are conversions passed
    in; None stands for the ValueError they raise. */
module PyStockData {
  import opened Text
  import opened Calendar
  import WireFormat

  /** What a ValueError reports. */
  datatype Reason =
    | WrongPrefix      // not "sh" / "sz"
    | NotSixDigits     // the rest is not six digits
    | MissingDataKey   // no "data" member
    | MissingCodeKey   // data[code] raised KeyError
    | MissingQfqday    // no "qfqday" member
    | EmptyHistory     // qfqday is falsy
    | BadRecord        // a date or price of a record did not convert
    | RecordNotList    // item[0] on an object record raised KeyError
    | NoQuote          // text.split('"')[1] raised IndexError
    | EmptyQuote       // the quoted segment is empty
    | ShortQuote       // fewer than 32 fields
    | BadNumber        // a price field did not convert
    | BadTimestamp     // strptime failed

  /** The exceptions request_stock_data lets out. TypeError stands for the
      exceptions of a container of the wrong JSON type. */
  datatype PyError = ValueError(reason: Reason) | ConnectionError | IndexError | TypeError

  /** The outcome of requests.get followed by raise_for_status. */
  datatype Response<T> = RequestFailed | Received(body: T)

  /** A row of historical_data: the date index and the four prices. */
  datatype PyBar = PyBar(date: Date, open: real, close: real, high: real, low: real)

  /** latest_data. */
  datatype Quote = Quote(
    name: string,
    currentPrice: real,
    openPrice: real,
    highPrice: real,
    lowPrice: real,
    closePrice: real,
    timestamp: DateTime)

  const MIN_QUOTE_FIELDS: nat := 32

  // ---------------------------------------------------------------------------
  // Id check

  /** The checks of request_stock_data: the market prefix, then six digits
      (str.isdigit, restricted to ASCII digits). */
  function ValidateId(code: string): (r: Option<PyError>)
    ensures r.None? <==> WireFormat.HasMarketPrefix(code) && |code| == 8 && AllDigits(code[2..])
    ensures r == Some(ValueError(WrongPrefix)) <==> !WireFormat.HasMarketPrefix(code)
    ensures r.Some? ==> r.value.ValueError?
  {
    if !(StartsWith(code, "sh") || StartsWith(code, "sz")) then Some(ValueError(WrongPrefix))
    else
      var digits := code[2..];
      if |digits| != 6 || !AllDigits(digits) then Some(ValueError(NotSixDigits)) else None
  }

  /** "sh000000" passes here but not the Qt check, which converts the digits
      and refuses zero. */
  lemma AllZeroIdAcceptedOnlyHere()
    ensures ValidateId("sh000000").None?
    ensures WireFormat.CheckStockCode("sh000000").Some?
  {
    assert "sh000000"[..2] == "sh";
    assert "sh000000"[2..] == "000000";
    WireFormat.AllZeroIdRefused();
  }

  /** "sh+12345" fails here but passes the Qt check, whose integer
      conversion accepts a sign. */
  lemma SignedIdRefusedOnlyHere()
    ensures ValidateId("sh+12345") == Some(ValueError(NotSixDigits))
    ensures WireFormat.CheckStockCode("sh+12345").None?
  {
    assert "sh+12345"[..2] == "sh";
    assert "sh+12345"[2..][0] == '+';
    WireFormat.SignedSuffixAccepted();
  }

  /** On six digits that are not all zero, the two checks agree. */
  lemma ChecksAgreeOnNonZeroDigits(code: string)
    requires WireFormat.HasMarketPrefix(code) && |code| == 8 && AllDigits(code[2..])
    requires exists i :: 2 <= i < 8 && code[i] != '0'
    ensures ValidateId(code).None? && WireFormat.CheckStockCode(code).None?
  {
    WireFormat.AcceptsPrefixedDigits(code);
  }

  // ---------------------------------------------------------------------------
  // Historical data

  /** A parsed JSON object as a Python dict: a repeated key keeps its last
      value. */
  function DictGet(members: seq<(string, WireFormat.Json)>, key: string): (r: Option<WireFormat.Json>)
    ensures r.Some? <==> exists i :: 0 <= i < |members| && members[i].0 == key
    ensures r.Some? ==> exists i :: 0 <= i < |members| && members[i] == (key, r.value)
  {
    if members == [] then None
    else
      var last := members[|members| - 1];
      var init := members[..|members| - 1];
      assert forall i :: 0 <= i < |init| ==> init[i] == members[i];
      if last.0 == key then Some(last.1) else DictGet(init, key)
  }

  /** Python truth value of a JSON value. */
  predicate Truthy(v: WireFormat.Json)
  {
    match v
    case JNull => false
    case JBool(b) => b
    case JNumber(n) => n != 0.0
    case JString(s) => s != ""
    case JArray(items) => items != []
    case JObject(members) => members != []
  }

  /** The path data["data"][code]["qfqday"] with its checks, in order. */
  function LocateDaily(doc: WireFormat.Json, code: string): (r: Result<seq<WireFormat.Json>, PyError>)
    ensures r.Success? ==> r.value != []
    ensures doc.JObject? ==> (r == Failure(ValueError(MissingDataKey)) <==> DictGet(doc.members, "data").None?)
    ensures doc.JObject? && DictGet(doc.members, "data").Some? && DictGet(doc.members, "data").value.JObject? ==>
      var stock := DictGet(DictGet(doc.members, "data").value.members, code);
      (r == Failure(ValueError(MissingCodeKey)) <==> stock.None?)
      && (stock.Some? && stock.value.JObject? ==>
        var daily := DictGet(stock.value.members, "qfqday");
        (r == Failure(ValueError(MissingQfqday)) <==> daily.None?)
        && (r == Failure(ValueError(EmptyHistory)) <==> daily.Some? && !Truthy(daily.value))
        && (r.Success? <==> daily.Some? && Truthy(daily.value) && daily.value.JArray?)
        && (r.Success? ==> r.value == daily.value.items))
  {
    if !doc.JObject? then Failure(TypeError)
    else match DictGet(doc.members, "data")
      case None => Failure(ValueError(MissingDataKey))
      case Some(data) =>
        if !data.JObject? then Failure(TypeError)
        else match DictGet(data.members, code)
          case None => Failure(ValueError(MissingCodeKey))
          case Some(stock) =>
            if !stock.JObject? then Failure(TypeError)
            else match DictGet(stock.members, "qfqday")
              case None => Failure(ValueError(MissingQfqday))
              case Some(daily) =>
                if !Truthy(daily) then Failure(ValueError(EmptyHistory))
                else if !daily.JArray? then Failure(TypeError)
                else Success(daily.items)
  }

  /** One record: item[0] to a date, items 1 to 4 to open, close, high and
      low, in that order; a missing index raises IndexError (which the
      handler does not catch), a failed conversion ValueError. An object
      record has no key 0, and the KeyError is re-raised as ValueError;
      indexing a number, a boolean or null raises TypeError. */
  function ParseItem(item: WireFormat.Json, toDatetime: WireFormat.Json -> Option<Date>, toFloat: WireFormat.Json -> Option<real>): (r: Result<PyBar, PyError>)
    ensures r.Success? ==>
              && item.JArray? && |item.items| >= 5
              && toDatetime(item.items[0]) == Some(r.value.date)
              && toFloat(item.items[1]) == Some(r.value.open) && toFloat(item.items[2]) == Some(r.value.close)
              && toFloat(item.items[3]) == Some(r.value.high) && toFloat(item.items[4]) == Some(r.value.low)
    ensures r == Failure(ValueError(RecordNotList)) <==> item.JObject?
    ensures r.Success? <==> item.JArray? && Leading(item.items, 0, toDatetime, toFloat) == RECORD_ITEMS
    ensures r == Failure(IndexError) <==>
      item.JArray? && Leading(item.items, 0, toDatetime, toFloat) < RECORD_ITEMS && Leading(item.items, 0, toDatetime, toFloat) == |item.items|
    ensures r == Failure(ValueError(BadRecord)) <==>
      item.JArray? && Leading(item.items, 0, toDatetime, toFloat) < RECORD_ITEMS && Leading(item.items, 0, toDatetime, toFloat) < |item.items|
  {
    if item.JObject? then Failure(ValueError(RecordNotList))
    else if !item.JArray? then Failure(TypeError)
    else
      var xs := item.items;
      if |xs| < 1 then Failure(IndexError)
      else match toDatetime(xs[0])
        case None => Failure(ValueError(BadRecord))
        case Some(date) =>
          if |xs| < 2 then Failure(IndexError)
          else match toFloat(xs[1])
            case None => Failure(ValueError(BadRecord))
            case Some(open) =>
              if |xs| < 3 then Failure(IndexError)
              else match toFloat(xs[2])
                case None => Failure(ValueError(BadRecord))
                case Some(close) =>
                  if |xs| < 4 then Failure(IndexError)
                  else match toFloat(xs[3])
                    case None => Failure(ValueError(BadRecord))
                    case Some(high) =>
                      if |xs| < 5 then Failure(IndexError)
                      else match toFloat(xs[4])
                        case None => Failure(ValueError(BadRecord))
                        case Some(low) => Success(PyBar(date, open, close, high, low))
  }

  /** Item k of a record converts: item 0 to a date, items 1 to 4 to
      prices. */
  predicate ItemConverts(xs: seq<WireFormat.Json>, k: nat, toDatetime: WireFormat.Json -> Option<Date>, toFloat: WireFormat.Json -> Option<real>)
    requires k < |xs|
  {
    if k == 0 then toDatetime(xs[0]).Some? else toFloat(xs[k]).Some?
  }

  const RECORD_ITEMS: nat := 5

  /** How many of the first five items, from k on, exist and convert:
      where a record's reading stops. */
  function Leading(xs: seq<WireFormat.Json>, k: nat, toDatetime: WireFormat.Json -> Option<Date>, toFloat: WireFormat.Json -> Option<real>): (n: nat)
    requires k <= RECORD_ITEMS
    ensures k <= n <= RECORD_ITEMS
    ensures n <= |xs| || n == k
    ensures forall j :: k <= j < n ==> ItemConverts(xs, j, toDatetime, toFloat)
    ensures n < RECORD_ITEMS && n < |xs| ==> !ItemConverts(xs, n, toDatetime, toFloat)
    decreases RECORD_ITEMS - k
  {
    if k == RECORD_ITEMS || k >= |xs| || !ItemConverts(xs, k, toDatetime, toFloat) then k
    else Leading(xs, k + 1, toDatetime, toFloat)
  }

  /** The records in order; the first one that fails fails the batch. */
  function ParseItems(items: seq<WireFormat.Json>, toDatetime: WireFormat.Json -> Option<Date>, toFloat: WireFormat.Json -> Option<real>): Result<seq<PyBar>, PyError>
  {
    if items == [] then Success([])
    else
      match ParseItems(items[..|items| - 1], toDatetime, toFloat)
      case Failure(e) => Failure(e)
      case Success(bars) =>
        match ParseItem(items[|items| - 1], toDatetime, toFloat)
        case Failure(e) => Failure(e)
        case Success(bar) => Success(bars + [bar])
  }

  /** _get_historical_data as a whole. */
  function History(response: Response<WireFormat.Json>, code: string, toDatetime: WireFormat.Json -> Option<Date>, toFloat: WireFormat.Json -> Option<real>): Result<seq<PyBar>, PyError>
  {
    match response
    case RequestFailed => Failure(ConnectionError)
    case Received(doc) =>
      match LocateDaily(doc, code)
      case Failure(e) => Failure(e)
      case Success(items) => ParseItems(items, toDatetime, toFloat)
  }

  /** A successful batch has one row per record, in input order, each the
      parse of its record. */
  lemma {:induction false} ParsedInOrder(items: seq<WireFormat.Json>, toDatetime: WireFormat.Json -> Option<Date>, toFloat: WireFormat.Json -> Option<real>)
    requires ParseItems(items, toDatetime, toFloat).Success?
    ensures var bars := ParseItems(items, toDatetime, toFloat).value;
      |bars| == |items| && forall i :: 0 <= i < |items| ==> ParseItem(items[i], toDatetime, toFloat) == Success(bars[i])
  {
    if items != [] {
      var init := items[..|items| - 1];
      ParsedInOrder(init, toDatetime, toFloat);
      assert forall i :: 0 <= i < |init| ==> items[i] == init[i];
    }
  }

  /** One bad record fails the whole batch with the error of the first bad
      record. */
  lemma {:induction false} BadRecordFailsBatch(items: seq<WireFormat.Json>, k: nat, toDatetime: WireFormat.Json -> Option<Date>, toFloat: WireFormat.Json -> Option<real>)
    requires k < |items| && ParseItem(items[k], toDatetime, toFloat).Failure?
    requires forall i :: 0 <= i < k ==> ParseItem(items[i], toDatetime, toFloat).Success?
    ensures ParseItems(items, toDatetime, toFloat) == Failure(ParseItem(items[k], toDatetime, toFloat).error)
  {
    var init := items[..|items| - 1];
    if k < |items| - 1 {
      assert init[k] == items[k];
      assert forall i :: 0 <= i < k ==> init[i] == items[i];
      BadRecordFailsBatch(init, k, toDatetime, toFloat);
    } else {
      AllGoodParse(init, toDatetime, toFloat);
    }
  }

  lemma {:induction false} AllGoodParse(items: seq<WireFormat.Json>, toDatetime: WireFormat.Json -> Option<Date>, toFloat: WireFormat.Json -> Option<real>)
    requires forall i :: 0 <= i < |items| ==> ParseItem(items[i], toDatetime, toFloat).Success?
    ensures ParseItems(items, toDatetime, toFloat).Success?
  {
    if items != [] {
      var init := items[..|items| - 1];
      assert forall i :: 0 <= i < |init| ==> init[i] == items[i];
      AllGoodParse(init, toDatetime, toFloat);
    }
  }

  // ---------------------------------------------------------------------------
  // Realtime quote

  /** _get_realtime_data's parse: the segment after the first double quote,
      split at commas, read at the same positions as the Qt manager, with
      every conversion failure raised. */
  function ParseQuote(text: string, toFloat: WireFormat.Conversion, strptime: string -> Option<DateTime>): (r: Result<Quote, PyError>)
    ensures r.Failure? ==> r.error.ValueError?
    ensures r == Failure(ValueError(NoQuote)) <==> '"' !in text
    ensures r == Failure(ValueError(EmptyQuote)) <==> WireFormat.QuotedSegment(text) == Some("")
    ensures r == Failure(ValueError(ShortQuote)) <==>
      '"' in text && WireFormat.QuotedSegment(text).value != ""
      && |Split(WireFormat.QuotedSegment(text).value, ',')| < MIN_QUOTE_FIELDS
    ensures r.Success? ==> '"' in text && ReadsFields(Split(WireFormat.QuotedSegment(text).value, ','), toFloat, strptime, r.value)
    ensures r.Success? <==>
      '"' in text && WireFormat.QuotedSegment(text).value != ""
      && PricesConvert(Split(WireFormat.QuotedSegment(text).value, ','), toFloat)
      && TimestampConverts(Split(WireFormat.QuotedSegment(text).value, ','), strptime)
    ensures r == Failure(ValueError(BadNumber)) <==>
      '"' in text && WireFormat.QuotedSegment(text).value != ""
      && |Split(WireFormat.QuotedSegment(text).value, ',')| >= MIN_QUOTE_FIELDS
      && !PricesConvert(Split(WireFormat.QuotedSegment(text).value, ','), toFloat)
    ensures r == Failure(ValueError(BadTimestamp)) <==>
      '"' in text && WireFormat.QuotedSegment(text).value != ""
      && PricesConvert(Split(WireFormat.QuotedSegment(text).value, ','), toFloat)
      && !TimestampConverts(Split(WireFormat.QuotedSegment(text).value, ','), strptime)
  {
    var parts := Split(text, '"');
    if |parts| < 2 then
      assert Count(text, '"') == 0;
      WireFormat.NoCountNotIn(text, '"');
      Failure(ValueError(NoQuote))
    else
      WireFormat.CountInPositive(text, '"');
      var dataStr := parts[1];
      if dataStr == "" then Failure(ValueError(EmptyQuote))
      else
        var fields := Split(dataStr, ',');
        if |fields| < MIN_QUOTE_FIELDS then Failure(ValueError(ShortQuote))
        else match (toFloat(fields[3]), toFloat(fields[1]), toFloat(fields[4]), toFloat(fields[5]), toFloat(fields[2]))
          case (Some(current), Some(open), Some(high), Some(low), Some(close)) =>
            (match strptime(fields[30] + " " + fields[31])
             case None => Failure(ValueError(BadTimestamp))
             case Some(ts) => Success(Quote(fields[0], current, open, high, low, close, ts)))
          case _ => Failure(ValueError(BadNumber))
  }

  /** The line is long enough and float() takes the five price fields. */
  predicate PricesConvert(fields: seq<string>, toFloat: WireFormat.Conversion)
  {
    |fields| >= MIN_QUOTE_FIELDS
    && toFloat(fields[3]).Some? && toFloat(fields[1]).Some? && toFloat(fields[4]).Some?
    && toFloat(fields[5]).Some? && toFloat(fields[2]).Some?
  }

  /** The line is long enough and strptime takes its date and time fields. */
  predicate TimestampConverts(fields: seq<string>, strptime: string -> Option<DateTime>)
  {
    |fields| >= MIN_QUOTE_FIELDS && strptime(fields[30] + " " + fields[31]).Some?
  }

  /** The quote q is read from the fields at the Qt positions: name from
      field 0, current/open/high/low/previous close from 3/1/4/5/2, the
      timestamp from fields 30 and 31. */
  predicate ReadsFields(fields: seq<string>, toFloat: WireFormat.Conversion, strptime: string -> Option<DateTime>, q: Quote)
  {
    |fields| >= MIN_QUOTE_FIELDS && q.name == fields[0]
    && toFloat(fields[3]) == Some(q.currentPrice) && toFloat(fields[1]) == Some(q.openPrice)
    && toFloat(fields[4]) == Some(q.highPrice) && toFloat(fields[5]) == Some(q.lowPrice)
    && toFloat(fields[2]) == Some(q.closePrice)
    && strptime(fields[30] + " " + fields[31]) == Some(q.timestamp)
  }

  /** A quote the Python manager accepts is accepted by the Qt parser too,
      with the same name and the same five prices. */
  lemma QuoteAgreesWithQt(text: string, toFloat: WireFormat.Conversion, strptime: string -> Option<DateTime>)
    requires ParseQuote(text, toFloat, strptime).Success?
    ensures var q := ParseQuote(text, toFloat, strptime).value;
      var d := WireFormat.ParseRealtime(text, toFloat);
      d.Success? && d.value.name == q.name && d.value.currentPrice == q.currentPrice
      && d.value.openPrice == q.openPrice && d.value.highPrice == q.highPrice
      && d.value.lowPrice == q.lowPrice && d.value.closePrice == q.closePrice
  {
    var seg := WireFormat.QuotedSegment(text).value;
    assert |Split(seg, ',')| >= MIN_QUOTE_FIELDS;
  }

  /** The refusals of the two parsers line up: no quote in both; an empty
      segment is one field to the Qt parser, so both refuse it, as both
      refuse a segment of fewer than 32 fields. */
  lemma QuoteRefusalsAgree(text: string, toFloat: WireFormat.Conversion, strptime: string -> Option<DateTime>)
    ensures ParseQuote(text, toFloat, strptime) == Failure(ValueError(NoQuote))
      <==> WireFormat.ParseRealtime(text, toFloat) == Failure(WireFormat.NoQuotedSegment)
    ensures ParseQuote(text, toFloat, strptime) == Failure(ValueError(EmptyQuote))
      ==> WireFormat.ParseRealtime(text, toFloat) == Failure(WireFormat.TooFewFields(1))
    ensures ParseQuote(text, toFloat, strptime) == Failure(ValueError(ShortQuote))
      ==> WireFormat.ParseRealtime(text, toFloat).Failure?
  {
    assert |Split("", ',')| == 1;
  }

  /** Where the Qt manager reads an unconvertible current price as 0.0, the
      Python manager raises ValueError. */
  lemma NonNumericPriceRaisesHere(text: string, toFloat: WireFormat.Conversion, strptime: string -> Option<DateTime>)
    requires |Split(text, '"')| >= 2
    requires var fields := Split(Split(text, '"')[1], ','); |fields| >= MIN_QUOTE_FIELDS && toFloat(fields[3]).None?
    ensures ParseQuote(text, toFloat, strptime) == Failure(ValueError(BadNumber))
    ensures WireFormat.ParseRealtime(text, toFloat).Success?
    ensures WireFormat.ParseRealtime(text, toFloat).value.currentPrice == 0.0
  {
    var seg := Split(text, '"')[1];
    assert WireFormat.QuotedSegment(text) == Some(seg);
    assert |Split("", ',')| == 1;
  }

  /** _get_realtime_data as a whole: a failed request raises
      ConnectionError, otherwise the quote is parsed. */
  function Realtime(response: Response<string>, toFloat: WireFormat.Conversion, strptime: string -> Option<DateTime>): (r: Result<Quote, PyError>)
    ensures r == Failure(ConnectionError) <==> response.RequestFailed?
  {
    match response
    case RequestFailed => Failure(ConnectionError)
    case Received(text) => ParseQuote(text, toFloat, strptime)
  }

  // ---------------------------------------------------------------------------
  // The manager

  class PyStockDataManager {
    const toDatetime: WireFormat.Json -> Option<Date>
    const jsonFloat: WireFormat.Json -> Option<real>
    const toFloat: WireFormat.Conversion
    const strptime: string -> Option<DateTime>

    var currentStockCode: string
    var historicalData: seq<PyBar>
    /** latest_data: None while it is the empty dict. */
    var latestData: Option<Quote>

    constructor(toDatetime: WireFormat.Json -> Option<Date>, jsonFloat: WireFormat.Json -> Option<real>,
                toFloat: WireFormat.Conversion, strptime: string -> Option<DateTime>)
      ensures this.toDatetime == toDatetime && this.jsonFloat == jsonFloat
      ensures this.toFloat == toFloat && this.strptime == strptime
      ensures currentStockCode == "" && historicalData == [] && latestData.None?
    {
      this.toDatetime := toDatetime;
      this.jsonFloat := jsonFloat;
      this.toFloat := toFloat;
      this.strptime := strptime;
      currentStockCode := "";
      historicalData := [];
      latestData := None;
    }

    /** _get_historical_data: historical_data is replaced by the parsed
        rows only when the whole batch parses; otherwise the error is
        raised and historical_data is left as it was. */
    method GetHistoricalData(response: Response<WireFormat.Json>) returns (error: Option<PyError>)
      modifies this`historicalData
      ensures var h := History(response, currentStockCode, toDatetime, jsonFloat);
        (h.Success? ==> error.None? && historicalData == h.value)
        && (h.Failure? ==> error == Some(h.error) && historicalData == old(historicalData))
    {
      if response.RequestFailed? {
        return Some(ConnectionError);
      }
      var located := LocateDaily(response.body, currentStockCode);
      if located.Failure? {
        return Some(located.error);
      }
      var items := located.value;
      var rows: seq<PyBar> := [];
      var i := 0;
      while i < |items|
        invariant 0 <= i <= |items|
        invariant ParseItems(items[..i], toDatetime, jsonFloat) == Success(rows)
      {
        assert items[..i + 1][..i] == items[..i];
        var row := ParseItem(items[i], toDatetime, jsonFloat);
        if row.Failure? {
          FailureStaysFailure(items, i + 1, toDatetime, jsonFloat);
          return Some(row.error);
        }
        rows := rows + [row.value];
        i := i + 1;
      }
      assert items[..i] == items;
      historicalData := rows;
      error := None;
    }

    /** _get_realtime_data: latest_data is replaced by the parsed quote, or
        the error is raised and latest_data is left as it was. */
    method GetRealtimeData(response: Response<string>) returns (error: Option<PyError>)
      modifies this`latestData
      ensures match Realtime(response, toFloat, strptime) {
        case Success(q) => error.None? && latestData == Some(q)
        case Failure(e) => error == Some(e) && latestData == old(latestData)
      }
    {
      if response.RequestFailed? {
        return Some(ConnectionError);
      }
      var parsed := ParseQuote(response.body, toFloat, strptime);
      if parsed.Failure? {
        return Some(parsed.error);
      }
      latestData := Some(parsed.value);
      error := None;
    }

    /** request_stock_data: a rejected id raises ValueError and changes
        nothing; an accepted id becomes current_stock_code before the
        downloads, then the history is fetched and, only if that succeeds,
        the quote. */
    method RequestStockData(stockCode: string, history: Response<WireFormat.Json>, realtime: Response<string>)
      returns (error: Option<PyError>)
      modifies this`currentStockCode, this`historicalData, this`latestData
      ensures ValidateId(stockCode).Some? ==> error == ValidateId(stockCode) && unchanged(this)
      ensures ValidateId(stockCode).None? ==> currentStockCode == stockCode
      ensures ValidateId(stockCode).None? ==>
        var h := History(history, stockCode, toDatetime, jsonFloat);
        (h.Failure? ==> error == Some(h.error) && historicalData == old(historicalData) && latestData == old(latestData))
        && (h.Success? ==> historicalData == h.value)
      ensures ValidateId(stockCode).None? && History(history, stockCode, toDatetime, jsonFloat).Success? ==>
        match Realtime(realtime, toFloat, strptime) {
          case Success(q) => error.None? && latestData == Some(q)
          case Failure(e) => error == Some(e) && latestData == old(latestData)
        }
    {
      var invalid := ValidateId(stockCode);
      if invalid.Some? {
        return invalid;
      }
      currentStockCode := stockCode;
      error := GetHistoricalData(history);
      if error.Some? {
        return;
      }
      error := GetRealtimeData(realtime);
    }
  }

  /** A failure among the first records fails every longer batch. */
  lemma {:induction false} FailureStaysFailure(items: seq<WireFormat.Json>, n: nat, toDatetime: WireFormat.Json -> Option<Date>, toFloat: WireFormat.Json -> Option<real>)
    requires 0 < n <= |items|
    requires ParseItems(items[..n - 1], toDatetime, toFloat).Success?
    requires ParseItem(items[n - 1], toDatetime, toFloat).Failure?
    ensures ParseItems(items, toDatetime, toFloat) == Failure(ParseItem(items[n - 1], toDatetime, toFloat).error)
  {
    var prefix := items[..n];
    assert prefix[..n - 1] == items[..n - 1];
    ParsedInOrder(items[..n - 1], toDatetime, toFloat);
    forall i | 0 <= i < n - 1
      ensures ParseItem(items[i], toDatetime, toFloat).Success?
    {
      assert items[..n - 1][i] == items[i];
    }
    BadRecordFailsBatch(items, n - 1, toDatetime, toFloat);
  }
}
