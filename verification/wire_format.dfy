/** The two quote wire formats read by StockDataManager (stockdatamanager.cpp):
    the Sina realtime line `var hq_str_<id>="f0,f1,...";` and the Tencent
    historical tree {"data": {<id>: {"qfqday": [[date, open, close, high, low, ...], ...]}}},
    together with the stock-id check applied before polling starts. */
module WireFormat {
  import opened Text
  import opened Calendar

  /** QString::toDouble(&ok): an abstract conversion; None when `ok` is false. */
  type Conversion = string -> Option<real>

  /** QString::toDouble() without the flag: 0.0 when the conversion fails. */
  function ToDoubleOrZero(toDouble: Conversion, s: string): real
  {
    match toDouble(s)
    case Some(v) => v
    case None => 0.0
  }

  // ---------------------------------------------------------------------------
  // Stock id check (requestRealtimeData)

  datatype IdError = BadPrefix | BadDigits

  predicate HasMarketPrefix(code: string)
  {
    StartsWith(code, "sh") || StartsWith(code, "sz")
  }

  /** The id check of requestRealtimeData: None when the id is accepted,
      otherwise the error it reports first. */
  function CheckStockCode(code: string): (r: Option<IdError>)
    ensures r.None? ==> |code| == 8 && HasMarketPrefix(code)
    ensures r == Some(BadPrefix) <==> !HasMarketPrefix(code)
    ensures r.None? <==> HasMarketPrefix(code) && |code| == 8 && QtToIntOrZero(code[2..]) != 0
  {
    if !HasMarketPrefix(code) then Some(BadPrefix)
    else
      var digits := code[2..];
      if |digits| != 6 || QtToIntOrZero(digits) == 0 then Some(BadDigits) else None
  }

  /** Every market-prefixed id whose six-character rest is a digit run other
      than "000000" is accepted. */
  lemma AcceptsPrefixedDigits(code: string)
    requires HasMarketPrefix(code) && |code| == 8 && AllDigits(code[2..])
    requires exists i :: 2 <= i < 8 && code[i] != '0'
    ensures CheckStockCode(code).None?
  {
    var digits := code[2..];
    DigitsValueZero(digits);
    var i :| 2 <= i < 8 && code[i] != '0';
    assert digits[i - 2] != '0';
    DigitsBound(digits);
    assert Pow10(6) == 1000000;
  }

  function Pow10(n: nat): nat
  {
    if n == 0 then 1 else 10 * Pow10(n - 1)
  }

  /** A run of n digits is worth less than 10^n. */
  lemma {:induction false} DigitsBound(s: string)
    requires AllDigits(s)
    ensures DigitsValue(s) < Pow10(|s|)
  {
    if s != [] {
      var init := s[..|s| - 1];
      assert AllDigits(init);
      DigitsBound(init);
    }
  }

  /** A listed Shanghai id is accepted. */
  lemma ShanghaiIdAccepted()
    ensures CheckStockCode("sh600000").None?
  {
    assert "sh600000"[2] != '0';
    AcceptsPrefixedDigits("sh600000");
  }

  /** The all-zero suffix converts to 0 and is refused. */
  lemma AllZeroIdRefused()
    ensures CheckStockCode("sh000000") == Some(BadDigits)
  {
    assert "sh000000"[2..] == "000000";
    DigitsValueZero("000000");
  }

  /** A five-digit suffix is refused. */
  lemma ShortIdRefused()
    ensures CheckStockCode("sh12345") == Some(BadDigits)
  {
    assert "sh12345"[2..] == "12345";
  }

  /** An id outside the two markets is refused before its digits are read. */
  lemma UnknownMarketRefused()
    ensures CheckStockCode("xx123456") == Some(BadPrefix)
  {
    assert "xx123456"[0] == 'x';
  }

  /** QString::toInt accepts a sign, so a signed five-digit suffix passes the
      check although it is not six digits. */
  lemma SignedSuffixAccepted()
    ensures CheckStockCode("sh+12345").None?
  {
    var d := "+12345";
    assert "sh+12345"[2..] == d;
    assert d[1..] == "12345";
    assert AllDigits("12345");
    assert DigitsValue("12345") == 12345 by {
      assert "12345"[..4] == "1234" && "1234"[..3] == "123" && "123"[..2] == "12" && "12"[..1] == "1";
    }
  }

  // ---------------------------------------------------------------------------
  // Realtime line (processRealtimeData)

  /** StockDataManager::StockData; an invalid QDateTime is None. */
  datatype StockData = StockData(
    name: string,
    currentPrice: real,
    openPrice: real,
    highPrice: real,
    lowPrice: real,
    closePrice: real,
    timestamp: Option<DateTime>)

  const MIN_REALTIME_FIELDS: nat := 32

  datatype RealtimeError = NoQuotedSegment | TooFewFields(count: nat)

  /** `data.split('"')[1]` as written: QList's operator[] demands that index 1
      exists, i.e. that `data` holds a double quote. */
  function QuotedSegmentAsWritten(data: string): (seg: string)
    requires |Split(data, '"')| >= 2
    ensures '"' !in seg
  {
    Split(data, '"')[1]
  }

  /** A reply body without any double quote (an empty body, say) has a
      one-element split, so the parser indexes past its end. */
  lemma UnquotedBodyHasNoSegment(data: string)
    requires '"' !in data
    ensures |Split(data, '"')| < 2
  {
    SplitNoDelimiter(data, '"');
  }

  /** The corrected extraction: the text after the first double quote, up to
      the next one or the end; None when there is no double quote. */
  function QuotedSegment(data: string): (r: Option<string>)
    ensures r.None? <==> '"' !in data
    ensures r.Some? ==> '"' !in r.value
    ensures |Split(data, '"')| >= 2 ==> r == Some(QuotedSegmentAsWritten(data))
  {
    var parts := Split(data, '"');
    if |parts| < 2 then
      assert Count(data, '"') == 0;
      NoCountNotIn(data, '"');
      None
    else
      CountInPositive(data, '"');
      Some(parts[1])
  }

  lemma {:induction false} NoCountNotIn(s: string, c: char)
    requires Count(s, c) == 0
    ensures c !in s
  {
    if s != [] { NoCountNotIn(s[1..], c); }
  }

  lemma {:induction false} CountInPositive(s: string, c: char)
    requires Count(s, c) > 0
    ensures c in s
  {
    if s != [] && s[0] != c { CountInPositive(s[1..], c); }
  }

  /** The segment between the first two quotes is what the extraction finds. */
  lemma QuotedSegmentOf(prefix: string, body: string, suffix: string)
    requires '"' !in prefix && '"' !in body
    ensures QuotedSegment(prefix + "\"" + body + "\"" + suffix) == Some(body)
  {
    var data := prefix + "\"" + body + "\"" + suffix;
    assert data == prefix + ['"'] + (body + ['"'] + suffix);
    SplitAfterPiece(prefix, body + ['"'] + suffix, '"');
    SplitAfterPiece(body, suffix, '"');
  }

  /** processRealtimeData: the comma fields of the quoted segment, read at
      fixed positions once there are at least 32 of them. */
  function ParseRealtime(data: string, toDouble: Conversion): (r: Result<StockData, RealtimeError>)
    ensures r == Failure(NoQuotedSegment) <==> '"' !in data
    ensures r.Failure? <==> '"' !in data || Count(QuotedSegment(data).value, ',') < MIN_REALTIME_FIELDS - 1
  {
    match QuotedSegment(data)
    case None => Failure(NoQuotedSegment)
    case Some(seg) =>
      var fields := Split(seg, ',');
      if |fields| < MIN_REALTIME_FIELDS then Failure(TooFewFields(|fields|))
      else Success(StockData(
        name := fields[0],
        currentPrice := ToDoubleOrZero(toDouble, fields[3]),
        openPrice := ToDoubleOrZero(toDouble, fields[1]),
        highPrice := ToDoubleOrZero(toDouble, fields[4]),
        lowPrice := ToDoubleOrZero(toDouble, fields[5]),
        closePrice := ToDoubleOrZero(toDouble, fields[2]),
        timestamp := ParseDateTime(fields[30] + " " + fields[31])))
  }

  /** The line the Sina endpoint sends for `id` with the given fields. */
  function RealtimeLine(id: string, fields: seq<string>): string
    requires |fields| >= 1
  {
    LinePrefix(id) + "\"" + Join(fields, ',') + "\"" + ";"
  }

  /** The variable assignment that opens a realtime line. */
  function LinePrefix(id: string): (p: string)
    ensures '"' !in id ==> '"' !in p
  {
    var p := "var hq_str_" + id + "=";
    assert forall i :: 0 <= i < |p| && p[i] == '"' ==> 11 <= i < 11 + |id| && id[i - 11] == '"';
    p
  }

  predicate PlainField(f: string)
  {
    ',' !in f && '"' !in f
  }

  /** Parsing a line built from 32 or more plain fields reads name from field
      0, open from 1, previous close from 2, current from 3, high from 4, low
      from 5 and the timestamp from fields 30 and 31. */
  lemma ParseRealtimeLine(id: string, fields: seq<string>, toDouble: Conversion)
    requires '"' !in id && |fields| >= MIN_REALTIME_FIELDS
    requires forall k :: 0 <= k < |fields| ==> PlainField(fields[k])
    ensures ParseRealtime(RealtimeLine(id, fields), toDouble) == Success(StockData(
      fields[0],
      ToDoubleOrZero(toDouble, fields[3]),
      ToDoubleOrZero(toDouble, fields[1]),
      ToDoubleOrZero(toDouble, fields[4]),
      ToDoubleOrZero(toDouble, fields[5]),
      ToDoubleOrZero(toDouble, fields[2]),
      ParseDateTime(fields[30] + " " + fields[31])))
  {
    QuoteFreeLine(id, fields);
    SplitJoin(fields, ',');
  }

  /** A line built from fewer than 32 plain fields is refused with their count. */
  lemma ShortRealtimeLine(id: string, fields: seq<string>, toDouble: Conversion)
    requires '"' !in id && 1 <= |fields| < MIN_REALTIME_FIELDS
    requires forall k :: 0 <= k < |fields| ==> PlainField(fields[k])
    ensures ParseRealtime(RealtimeLine(id, fields), toDouble) == Failure(TooFewFields(|fields|))
  {
    QuoteFreeLine(id, fields);
    SplitJoin(fields, ',');
  }

  lemma QuoteFreeLine(id: string, fields: seq<string>)
    requires '"' !in id && |fields| >= 1
    requires forall k :: 0 <= k < |fields| ==> PlainField(fields[k])
    ensures QuotedSegment(RealtimeLine(id, fields)) == Some(Join(fields, ','))
  {
    JoinQuoteFree(fields);
    QuotedSegmentOf(LinePrefix(id), Join(fields, ','), ";");
  }

  lemma {:induction false} JoinQuoteFree(fields: seq<string>)
    requires |fields| >= 1
    requires forall k :: 0 <= k < |fields| ==> PlainField(fields[k])
    ensures '"' !in Join(fields, ',')
  {
    if |fields| > 1 {
      JoinQuoteFree(fields[1..]);
      assert PlainField(fields[0]);
    }
  }

  // ---------------------------------------------------------------------------
  // Historical tree (processHistoricalData)

  /** A parsed JSON value. An object lists its members, and the two readers
      of this project read that list differently: Lookup, for the Qt
      manager, takes it in QJsonObject::keys() order (sorted, no repeats) and
      stops at the first match; PyStockData.DictGet, for the Python manager,
      takes it in document order and keeps the last repeated key, as
      json.loads does. */
  datatype Json =
    | JNull
    | JBool(b: bool)
    | JNumber(n: real)
    | JString(str: string)
    | JArray(items: seq<Json>)
    | JObject(members: seq<(string, Json)>)

  /** QJsonObject::contains / operator[]: the value stored under `key`. */
  function Lookup(members: seq<(string, Json)>, key: string): (r: Option<Json>)
    ensures r.Some? <==> exists i :: 0 <= i < |members| && members[i].0 == key
  {
    if members == [] then None
    else if members[0].0 == key then Some(members[0].1)
    else
      var r := Lookup(members[1..], key);
      assert forall i :: 1 <= i < |members| ==> members[i] == members[1..][i - 1];
      r
  }

  /** QJsonValue::toObject(): the members of an object, none otherwise. */
  function ToObject(v: Json): seq<(string, Json)>
  {
    if v.JObject? then v.members else []
  }

  /** QJsonValue::toArray(): the items of an array, none otherwise. */
  function ToArray(v: Json): seq<Json>
  {
    if v.JArray? then v.items else []
  }

  /** QJsonValue::toString(): the text of a string, "" otherwise. */
  function ToText(v: Json): string
  {
    if v.JString? then v.str else ""
  }

  /** QJsonValue::operator[](i): item i of an array, undefined otherwise. */
  function At(v: Json, i: nat): Json
  {
    if v.JArray? && i < |v.items| then v.items[i] else JNull
  }

  datatype HistoricalFault = NotAnObject | MissingData | EmptyData | MissingQfqday | EmptyQfqday

  /** The structural walk of processHistoricalData down to the day list:
      root object, "data" (a non-empty object), its first stock entry in
      keys() order, "qfqday", a non-empty array. Each step that fails has
      its own fault. */
  function LocateDays(doc: Json): (r: Result<seq<Json>, HistoricalFault>)
    ensures r.Success? ==> |r.value| > 0 && doc.JObject?
    ensures r == Failure(NotAnObject) <==> !doc.JObject?
    ensures r == Failure(MissingData) <==> doc.JObject? && Lookup(doc.members, "data").None?
  {
    if !doc.JObject? then Failure(NotAnObject)
    else match Lookup(doc.members, "data")
      case None => Failure(MissingData)
      case Some(dataValue) =>
        var dataObj := ToObject(dataValue);
        if dataObj == [] then Failure(EmptyData)
        else
          var stockData := ToObject(dataObj[0].1);
          match Lookup(stockData, "qfqday")
          case None => Failure(MissingQfqday)
          case Some(days) =>
            var dayData := ToArray(days);
            if dayData == [] then Failure(EmptyQfqday) else Success(dayData)
  }

  /** Each step of the walk fails with its own fault: "data" that is not
      an object or is empty gives EmptyData; past it, a first stock entry
      without "qfqday" gives MissingQfqday, a "qfqday" that is not a
      non-empty array gives EmptyQfqday, and otherwise the walk returns that
      array's items. */
  lemma LocateDaysFaults(doc: Json)
    ensures LocateDays(doc) == Failure(EmptyData) <==>
      doc.JObject? && Lookup(doc.members, "data").Some? && ToObject(Lookup(doc.members, "data").value) == []
    ensures doc.JObject? && Lookup(doc.members, "data").Some? && ToObject(Lookup(doc.members, "data").value) != [] ==>
      var qfqday := Lookup(ToObject(ToObject(Lookup(doc.members, "data").value)[0].1), "qfqday");
      (LocateDays(doc) == Failure(MissingQfqday) <==> qfqday.None?)
      && (LocateDays(doc) == Failure(EmptyQfqday) <==> qfqday.Some? && ToArray(qfqday.value) == [])
      && (LocateDays(doc).Success? <==> qfqday.Some? && ToArray(qfqday.value) != [])
      && (LocateDays(doc).Success? ==> LocateDays(doc).value == ToArray(qfqday.value))
  {
  }

  /** The tree the Tencent endpoint returns for one stock. */
  function DayTree(id: string, days: seq<Json>): Json
  {
    JObject([("data", JObject([(id, JObject([("qfqday", JArray(days))]))]))])
  }

  /** The day list is found in the tree built for it exactly when it is not
      empty. */
  lemma LocateDayTree(id: string, days: seq<Json>)
    ensures LocateDays(DayTree(id, days)) == if days == [] then Failure(EmptyQfqday) else Success(days)
  {
  }

  /** One validated day: StockDataManager::HistoricalData holds these five
      values per day. */
  datatype Bar = Bar(date: Date, open: real, close: real, high: real, low: real)

  datatype DayFault = BadTimestamp | BadOpen | BadClose | BadHigh | BadLow

  /** Item `i` of a day record converted with toDouble(&ok) and checked > 0. */
  function PositivePrice(toDouble: Conversion, day: Json, i: nat): (r: Option<real>)
    ensures r.Some? ==> r.value > 0.0
    ensures r.Some? <==> toDouble(ToText(At(day, i))).Some? && toDouble(ToText(At(day, i))).value > 0.0
  {
    match toDouble(ToText(At(day, i)))
    case Some(p) => if p > 0.0 then Some(p) else None
    case None => None
  }

  /** The per-day checks, in source order: date, open, close, high, low. */
  function CheckDay(day: Json, toDouble: Conversion): (r: Result<Bar, DayFault>)
    ensures r.Success? <==> (ParseDate(ToText(At(day, 0))).Some?
      && PositivePrice(toDouble, day, 1).Some? && PositivePrice(toDouble, day, 2).Some?
      && PositivePrice(toDouble, day, 3).Some? && PositivePrice(toDouble, day, 4).Some?)
    ensures r.Success? ==> (ValidDate(r.value.date) && r.value.open > 0.0 && r.value.close > 0.0
      && r.value.high > 0.0 && r.value.low > 0.0)
    ensures r == Failure(BadTimestamp) <==> ParseDate(ToText(At(day, 0))).None?
  {
    match ParseDate(ToText(At(day, 0)))
    case None => Failure(BadTimestamp)
    case Some(date) =>
      match PositivePrice(toDouble, day, 1)
      case None => Failure(BadOpen)
      case Some(open) =>
        match PositivePrice(toDouble, day, 2)
        case None => Failure(BadClose)
        case Some(close) =>
          match PositivePrice(toDouble, day, 3)
          case None => Failure(BadHigh)
          case Some(high) =>
            match PositivePrice(toDouble, day, 4)
            case None => Failure(BadLow)
            case Some(low) => Success(Bar(date, open, close, high, low))
  }

  /** The outcome of the checks of each record, in input order. */
  function CheckDays(days: seq<Json>, toDouble: Conversion): (rs: seq<Result<Bar, DayFault>>)
    ensures |rs| == |days|
    ensures forall k :: 0 <= k < |days| ==> rs[k] == CheckDay(days[k], toDouble)
  {
    if days == [] then [] else CheckDays(days[..|days| - 1], toDouble) + [CheckDay(days[|days| - 1], toDouble)]
  }

  /** The bars of the records that pass CheckDay, in input order. */
  function AcceptedBars(days: seq<Json>, toDouble: Conversion): seq<Bar>
  {
    Successes(CheckDays(days, toDouble))
  }

  /** The faults of the records that fail CheckDay, in input order. */
  function DayFaults(days: seq<Json>, toDouble: Conversion): seq<DayFault>
  {
    Failures(CheckDays(days, toDouble))
  }

  /** The values a bar may hold once its record has passed the checks. */
  predicate SoundBar(bar: Bar)
  {
    ValidDate(bar.date) && bar.open > 0.0 && bar.close > 0.0 && bar.high > 0.0 && bar.low > 0.0
  }

  /** Every accepted bar has a valid date and four positive prices. */
  lemma AcceptedBarsSound(days: seq<Json>, toDouble: Conversion)
    ensures forall j :: 0 <= j < |AcceptedBars(days, toDouble)| ==> SoundBar(AcceptedBars(days, toDouble)[j])
  {
    SuccessesAll(CheckDays(days, toDouble), SoundBar);
  }

  /** Every record yields exactly one bar or one fault, and a batch of
      records that all pass yields a bar for each. */
  lemma AcceptedOrFault(days: seq<Json>, toDouble: Conversion)
    ensures |AcceptedBars(days, toDouble)| + |DayFaults(days, toDouble)| == |days|
    ensures (forall k :: 0 <= k < |days| ==> CheckDay(days[k], toDouble).Success?) ==> |AcceptedBars(days, toDouble)| == |days|
  {
    SuccessesCount(CheckDays(days, toDouble));
  }

  /** A record that fails its checks is skipped: it adds no bar, and its
      fault is reported in its place among the others. */
  lemma FailingRecordSkipped(before: seq<Json>, bad: Json, after: seq<Json>, toDouble: Conversion)
    requires CheckDay(bad, toDouble).Failure?
    ensures AcceptedBars(before + [bad] + after, toDouble) == AcceptedBars(before, toDouble) + AcceptedBars(after, toDouble)
    ensures DayFaults(before + [bad] + after, toDouble)
      == DayFaults(before, toDouble) + [CheckDay(bad, toDouble).error] + DayFaults(after, toDouble)
  {
    CheckDaysSplice(before, bad, after, toDouble);
    FailureSkipped(CheckDays(before, toDouble), CheckDay(bad, toDouble), CheckDays(after, toDouble));
  }

  lemma CheckDaysSplice(before: seq<Json>, day: Json, after: seq<Json>, toDouble: Conversion)
    ensures CheckDays(before + [day] + after, toDouble)
      == CheckDays(before, toDouble) + [CheckDay(day, toDouble)] + CheckDays(after, toDouble)
  {
    CheckDaysAppend(before, [day], toDouble);
    CheckDaysAppend(before + [day], after, toDouble);
  }

  lemma {:induction false} CheckDaysAppend(front: seq<Json>, back: seq<Json>, toDouble: Conversion)
    ensures CheckDays(front + back, toDouble) == CheckDays(front, toDouble) + CheckDays(back, toDouble)
    decreases |back|
  {
    if back == [] {
      assert front + back == front;
    } else {
      var n := |back| - 1;
      var init := back[..n];
      CheckDaysAppend(front, init, toDouble);
      assert (front + back)[..|front + back| - 1] == front + init;
      assert (front + back)[|front + back| - 1] == back[n];
      AppendAssoc(CheckDays(front, toDouble), CheckDays(init, toDouble), [CheckDay(back[n], toDouble)]);
    }
  }

  /** One more record processed: its bar or its fault joins the others. */
  lemma AcceptedStep(days: seq<Json>, i: nat, toDouble: Conversion)
    requires i < |days|
    ensures CheckDay(days[i], toDouble).Success? ==>
      AcceptedBars(days[..i + 1], toDouble) == AcceptedBars(days[..i], toDouble) + [CheckDay(days[i], toDouble).value]
      && DayFaults(days[..i + 1], toDouble) == DayFaults(days[..i], toDouble)
    ensures CheckDay(days[i], toDouble).Failure? ==>
      AcceptedBars(days[..i + 1], toDouble) == AcceptedBars(days[..i], toDouble)
      && DayFaults(days[..i + 1], toDouble) == DayFaults(days[..i], toDouble) + [CheckDay(days[i], toDouble).error]
  {
    var rs, r := CheckDays(days[..i], toDouble), CheckDay(days[i], toDouble);
    assert days[..i + 1][..i] == days[..i];
    assert CheckDays(days[..i + 1], toDouble) == rs + [r];
    assert (rs + [r])[..|rs|] == rs;
    assert Successes(rs) + [] == Successes(rs) && Failures(rs) + [] == Failures(rs);
  }

  /** StockDataManager::HistoricalData: five parallel vectors. */
  datatype HistoricalData = HistoricalData(
    openPrices: seq<real>,
    highPrices: seq<real>,
    lowPrices: seq<real>,
    closePrices: seq<real>,
    timestamps: seq<Date>)

  const EMPTY_HISTORY := HistoricalData([], [], [], [], [])

  predicate Aligned(h: HistoricalData)
  {
    |h.openPrices| == |h.timestamps| && |h.highPrices| == |h.timestamps|
    && |h.lowPrices| == |h.timestamps| && |h.closePrices| == |h.timestamps|
  }

  /** The five appends that follow a record's checks. */
  function AppendBar(h: HistoricalData, bar: Bar): HistoricalData
  {
    HistoricalData(h.openPrices + [bar.open], h.highPrices + [bar.high], h.lowPrices + [bar.low],
      h.closePrices + [bar.close], h.timestamps + [bar.date])
  }

  /** The vectors after appending `bars` to empty ones. */
  function FromBars(bars: seq<Bar>): (h: HistoricalData)
    ensures Aligned(h) && |h.timestamps| == |bars|
    ensures forall i :: 0 <= i < |bars| ==>
      h.timestamps[i] == bars[i].date && h.openPrices[i] == bars[i].open
      && h.closePrices[i] == bars[i].close && h.highPrices[i] == bars[i].high
      && h.lowPrices[i] == bars[i].low
  {
    if bars == [] then EMPTY_HISTORY else AppendBar(FromBars(bars[..|bars| - 1]), bars[|bars| - 1])
  }

  lemma FromBarsStep(bars: seq<Bar>, bar: Bar)
    ensures FromBars(bars + [bar]) == AppendBar(FromBars(bars), bar)
  {
    assert (bars + [bar])[..|bars|] == bars;
  }
}
