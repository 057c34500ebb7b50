# Stock monitor, snake game and quote tools: a Dafny model

This project models the working core of the DirkAiProject repository:

- **StockApp, Qt side**
  - The `StockDataManager` checks a stock id, polls the Sina realtime quote every five seconds and loads the Tencent daily history. It keeps at most one network reply in flight.
  - The `ChartManager` keeps a sliding window of 50 price samples and a candlestick list. It draws either a time-series line or candles and fits both axes to the data.
  - The `StockCodeMap` holds code→name and name→code maps loaded from MySQL and answers fuzzy searches.
- **StockApp, Python side**
  - The Python `StockDataManager` has a similar id check (the two differ on all-zero and signed suffixes) and the same downloads, but raises exceptions, and a bad history record fails the whole download.
  - The `TradingStrategy.backtest` loop runs an all-in / all-out trade simulation; the RSI strategy supplies a signal rule.
  - `convert_stock_code` adds the market prefix to a bare exchange code.
- **SnakeGame**: a 30×20 snake game driven by a 100 ms timer and the arrow keys.
- **NetWorkTest**: a console logger that fetches a quote eleven times and records the current price of every quote line with its round number.

The modules follow the program:

| module | file | models |
|---|---|---|
| `Text` | text.dfy | QString/std::string operations: split, join, find, rfind, contains, toLower, toInt |
| `Calendar` | calendar.dfy | `QDateTime::fromString` with `yyyy-MM-dd` and `yyyy-MM-dd hh:mm:ss` |
| `WireFormat` | wire_format.dfy | the id check, the realtime line parser, the JSON history walk and per-day checks |
| `QuoteFetcher` | quote_fetcher.dfy | class `StockDataManager` (C++) |
| `Chart` | chart.dfy | class `ChartManager` |
| `CodeMap` | code_map.dfy | class `StockCodeMap` over a QMap modelled as a sorted entry list |
| `SnakeGame` | snake.dfy | class `Snake` |
| `QuoteLog` | quote_log.dfy | `getStockInfo` and `main` of NetWorkTest/Stock.cpp |
| `PyStockData` | py_stock_data.dfy | class `PyStockDataManager` (Python) |
| `Backtest` | backtest.dfy | `backtest` and the `rsi_strategy` signal rule |
| `StockCodes` | stock_codes.dfy | `convert_stock_code` |

Objects whose fields the source updates are classes with `modifies` clauses. Each method is tied to a specification function on values, and the properties are proved about those functions.

Things outside the program become parameters:
- a network reply is its outcome (a body or an error string);
- a database query is its rows;
- the random food draws are a sequence of cells;
- string-to-number, JSON and time-zone conversions are function parameters.

Signals emitted by the Qt manager are appended to an `events` list, so every error message is part of the state.

Where the behaviour described for the program and its code disagree, the model follows the code:
- After a history load of more than 50 days, the realtime window keeps all of those samples. It only drops one per new quote, because the drop is guarded by the sample count, not by a length limit. `Chart.LongHistoryThenQuote` shows this.
- A successful historical reply emits `historicalDataReceived` twice: once inside `processHistoricalData` and once in `onHistoricalDataReceived`.
- The Qt id check converts the six characters with `QString::toInt`. So it accepts a signed suffix such as `sh+12345` and refuses `sh000000`. The Python check does the opposite on both.
- A candle added by a realtime quote uses the quote's previous close (`closePrice`, field 2) as its close price.

## Model

| member | source | states |
|---|---|---|
| `Text.Split` | StockApp/stockdatamanager.cpp:199-200 | QString::split yields one more piece than there are separators, and no piece holds the separator |
| `Text.JoinSplit` | StockApp/stockdatamanager.cpp:199-200 | joining the pieces of a split with the separator gives the text back |
| `Text.SplitJoin` | StockApp/stockdatamanager.cpp:199-200 | splitting a join of separator-free pieces gives the pieces back |
| `Text.SplitNoDelimiter` | NetWorkTest/Stock.cpp:74 | text without the separator is one field |
| `Text.SplitAfterPiece` | NetWorkTest/Stock.cpp:70-73 | a separator-free piece followed by the separator is the first field |
| `Text.Contains` | StockApp/stockcodemap.cpp:60-61 | QString::contains holds exactly when the keyword occurs at some position |
| `Text.OccurrenceShift` | StockApp/stockcodemap.cpp:60-61 | when the text does not start with the keyword, an occurrence exists iff one exists in the rest |
| `Text.FindFirst` | NetWorkTest/Stock.cpp:64 | find: npos exactly when the character is absent, otherwise the first position holding it |
| `Text.FindLast` | NetWorkTest/Stock.cpp:65 | rfind: npos exactly when absent, otherwise the last position holding it |
| `Text.ToLower` | StockApp/stockcodemap.cpp:56 | toLower keeps the length and lowers every character |
| `Text.DigitsValueZero` | StockApp/stockdatamanager.cpp:69 | a digit string has value 0 exactly when every digit is '0' |
| `Text.QtToInt` | StockApp/stockdatamanager.cpp:69 | toInt yields a 32-bit value, and a digit string in range converts to its decimal value |
| `Text.SuccessesCount` | StockApp/stockdatamanager.cpp:279-319 | every record is either accepted or rejected, and all-good input is accepted entirely |
| `Text.SuccessesAppend` | StockApp/stockdatamanager.cpp:279-319 | accepted and rejected records of a concatenation are the concatenations |
| `Text.FailureSkipped` | StockApp/stockdatamanager.cpp:279-319 | a rejected record contributes nothing to the accepted list and its fault to the fault list |
| `Text.SuccessesAll` | StockApp/stockdatamanager.cpp:313-318 | a property of every accepted outcome holds for every kept value |
| `Calendar.ParseDate` | StockApp/stockdatamanager.cpp:281-285 | fromString("yyyy-MM-dd") is valid exactly for the ten-character shape naming a real calendar day, and formatting the date gives the text back |
| `Calendar.ParseDateTime` | StockApp/stockdatamanager.cpp:214 | fromString("yyyy-MM-dd hh:mm:ss") is valid exactly for that shape with a real day and time, and formatting gives the text back |
| `Calendar.FormatDate` | StockApp/stockdatamanager.cpp:86-87 | toString("yyyy-MM-dd") of a valid date is ten characters |
| `Calendar.FormatDateTime` | StockApp/stockdatamanager.cpp:214 | the date-time text is nineteen characters |
| `Calendar.FormattedDateFields` | StockApp/stockdatamanager.cpp:86-87 | a text starting with a formatted date has the date shape and that date's fields |
| `Calendar.ParseFormatDate` | StockApp/stockdatamanager.cpp:86-87 | every valid date formatted as yyyy-MM-dd parses back to itself |
| `Calendar.ParseFormatDateTime` | StockApp/stockdatamanager.cpp:214 | every valid date-time formatted parses back to itself |
| `Calendar.FormatDateFields` | StockApp/stockdatamanager.cpp:281 | a well-shaped valid date text is reproduced by formatting its fields |
| `Calendar.FormatDateTimeFields` | StockApp/stockdatamanager.cpp:214 | the same for date-time text |
| `Calendar.SampleTimestamp` | StockApp/stockdatamanager.cpp:195 | the timestamp fields of the sample quote line parse to 2023-11-24 15:00:03 |
| `Calendar.LeapDayAccepted` | StockApp/stockdatamanager.cpp:281-285 | 2024-02-29 is accepted |
| `Calendar.NonLeapDayRefused` | StockApp/stockdatamanager.cpp:281-285 | 2023-02-29 is refused |
| `Calendar.CenturyLeapDayRefused` | StockApp/stockdatamanager.cpp:281-285 | 1900-02-29 is refused |
| `Calendar.ThirtyFirstOfAprilRefused` | StockApp/stockdatamanager.cpp:281-285 | 2023-04-31 is refused |
| `Calendar.MalformedDatesRefused` | StockApp/stockdatamanager.cpp:281-285 | texts of the wrong shape are refused |
| `WireFormat.CheckStockCode` | StockApp/stockdatamanager.cpp:63-72 | an id is accepted iff it starts with sh/sz, has eight characters and its last six convert to a non-zero integer; a bad prefix is reported first |
| `WireFormat.AcceptsPrefixedDigits` | StockApp/stockdatamanager.cpp:68-72 | sh/sz followed by six ASCII digits not all zero is accepted |
| `WireFormat.DigitsBound` | StockApp/stockdatamanager.cpp:69 | n digits have a value below 10^n, so six digits never overflow toInt |
| `WireFormat.ShanghaiIdAccepted` | StockApp/stockdatamanager.cpp:63-72 | sh600000 is accepted |
| `WireFormat.AllZeroIdRefused` | StockApp/stockdatamanager.cpp:69-71 | sh000000 is refused as bad digits |
| `WireFormat.ShortIdRefused` | StockApp/stockdatamanager.cpp:69-71 | a five-digit suffix is refused |
| `WireFormat.UnknownMarketRefused` | StockApp/stockdatamanager.cpp:63-66 | an id without a known market prefix is refused for its prefix |
| `WireFormat.SignedSuffixAccepted` | StockApp/stockdatamanager.cpp:68-72 | sh+12345 is accepted, since toInt accepts the sign |
| `WireFormat.QuotedSegmentAsWritten` | StockApp/stockdatamanager.cpp:199 | as written, element 1 of the split on '"' is quote-free, and it exists only when the split has two parts |
| `WireFormat.UnquotedBodyHasNoSegment` | StockApp/stockdatamanager.cpp:199 | a body without a double quote splits into fewer than two parts, so element 1 does not exist |
| `WireFormat.QuotedSegment` | StockApp/stockdatamanager.cpp:199 | the segment is missing exactly when the body has no double quote, and otherwise agrees with the as-written indexing |
| `WireFormat.NoCountNotIn` | StockApp/stockdatamanager.cpp:199 | no separator counted means none present |
| `WireFormat.CountInPositive` | StockApp/stockdatamanager.cpp:199 | a counted separator is present |
| `WireFormat.QuotedSegmentOf` | StockApp/stockdatamanager.cpp:199 | the text between the first two quotes is the segment |
| `WireFormat.ParseRealtime` | StockApp/stockdatamanager.cpp:197-214 | parsing fails exactly when there is no quote or fewer than 32 fields |
| `WireFormat.ParseRealtimeLine` | StockApp/stockdatamanager.cpp:199-214 | a well-formed quote line maps field 0 to the name, 3/1/4/5/2 to current/open/high/low/previous close and 30+31 to the timestamp |
| `WireFormat.ShortRealtimeLine` | StockApp/stockdatamanager.cpp:200-205 | a line with fewer than 32 fields is refused with its field count |
| `WireFormat.QuoteFreeLine` | StockApp/stockdatamanager.cpp:199 | the quoted segment of a generated line is the joined fields |
| `WireFormat.JoinQuoteFree` | StockApp/stockdatamanager.cpp:199 | joining quote-free fields gives quote-free text |
| `WireFormat.LinePrefix` | StockApp/stockdatamanager.cpp:195 | the line prefix of a quote-free id is quote-free |
| `WireFormat.Lookup` | StockApp/stockdatamanager.cpp:243 | contains/operator[] finds a value exactly when some member has the key |
| `WireFormat.LocateDays` | StockApp/stockdatamanager.cpp:236-271 | the walk root → data → first stock → qfqday yields a non-empty day list; NotAnObject iff the root is not an object; MissingData iff it is one without data |
| `WireFormat.LocateDaysFaults` | StockApp/stockdatamanager.cpp:242-271 | EmptyData iff data is present but yields no members; then MissingQfqday iff the first stock has no qfqday, EmptyQfqday iff it is an empty array, and otherwise success with qfqday's array |
| `WireFormat.LocateDayTree` | StockApp/stockdatamanager.cpp:242-271 | the tree built for one stock yields its day list iff that list is non-empty |
| `WireFormat.PositivePrice` | StockApp/stockdatamanager.cpp:288-311 | a price is kept iff toDouble succeeds and the value is positive |
| `WireFormat.CheckDay` | StockApp/stockdatamanager.cpp:279-311 | a day is accepted iff its date and four prices pass, then it holds a valid date and positive prices; a bad date is reported first |
| `WireFormat.CheckDays` | StockApp/stockdatamanager.cpp:279-319 | one outcome per record, in order, each the record's own check |
| `WireFormat.AcceptedBarsSound` | StockApp/stockdatamanager.cpp:313-318 | every kept day has a valid date and positive prices |
| `WireFormat.AcceptedOrFault` | StockApp/stockdatamanager.cpp:279-319 | kept days plus faults number the records, and all-good input keeps every day |
| `WireFormat.FailingRecordSkipped` | StockApp/stockdatamanager.cpp:282-311 | a bad record is skipped without disturbing its neighbours, and its fault is reported in place |
| `WireFormat.CheckDaysSplice` | StockApp/stockdatamanager.cpp:279-319 | checking is per record, so it distributes over concatenation |
| `WireFormat.CheckDaysAppend` | StockApp/stockdatamanager.cpp:279-319 | checking a concatenation of records checks each part in turn |
| `WireFormat.AcceptedStep` | StockApp/stockdatamanager.cpp:279-319 | one loop iteration appends the day or the fault |
| `WireFormat.FromBars` | StockApp/stockdatamanager.cpp:313-318 | the five vectors stay the same length and position i holds day i's values |
| `WireFormat.FromBarsStep` | StockApp/stockdatamanager.cpp:314-318 | appending one day appends to each vector |
| `QuoteFetcher.DateParam` | StockApp/stockdatamanager.cpp:86-87 | a valid time formats to a date text that parses back to its date; an invalid one formats to "" |
| `QuoteFetcher.RecordEvents` | StockApp/stockdatamanager.cpp:283-310 | one errorOccurred per rejected record, in order, carrying that record's fault |
| `QuoteFetcher.RecordEventsStep` | StockApp/stockdatamanager.cpp:283-310 | a new fault appends one error event |
| `QuoteFetcher.StockDataManager.constructor` | StockApp/stockdatamanager.cpp:23-30 | no stock, no timer, no reply in flight, empty data and no signals |
| `QuoteFetcher.StockDataManager.RequestRealtimeData` | StockApp/stockdatamanager.cpp:60-76 | an accepted id becomes current and starts the 5000 ms timer; a rejected one emits its message and changes nothing else |
| `QuoteFetcher.StockDataManager.CleanupReply` | StockApp/stockdatamanager.cpp:113-122 | the reply in the slot, if any, is disconnected, aborted and released, and the slot is emptied |
| `QuoteFetcher.StockDataManager.Release` | StockApp/stockdatamanager.cpp:162-163 | the finished reply is released and the slot emptied |
| `QuoteFetcher.StockDataManager.Get` | StockApp/stockdatamanager.cpp:139-140 | a new reply for the URL fills the empty slot, connected to its handler |
| `QuoteFetcher.StockDataManager.RequestHistoricalData` | StockApp/stockdatamanager.cpp:78-94 | an empty id does nothing; otherwise the history is cleared, the old reply cancelled and a history request for the date range put in the slot |
| `QuoteFetcher.StockDataManager.StopUpdates` | StockApp/stockdatamanager.cpp:101-105 | the timer stops and the reply in flight is cancelled |
| `QuoteFetcher.StockDataManager.UpdateStockData` | StockApp/stockdatamanager.cpp:130-141 | with a current stock, the reply in flight is cancelled and a realtime request takes the slot; with none, nothing happens |
| `QuoteFetcher.StockDataManager.ProcessRealtimeData` | StockApp/stockdatamanager.cpp:197-218 | with the corrected segment extraction: a parsed quote becomes latestData and is signalled; a body without a double quote or a short one emits the format error and keeps latestData |
| `QuoteFetcher.StockDataManager.OnRealtimeDataReceived` | StockApp/stockdatamanager.cpp:149-164 | with a reply in the slot: its body is processed or its error emitted, and it is released; with none, nothing happens |
| `QuoteFetcher.StockDataManager.HistoryFault` | StockApp/stockdatamanager.cpp:228-271 | the body is usable iff non-empty and the walk finds days; otherwise the matching message |
| `QuoteFetcher.StockDataManager.Days` | StockApp/stockdatamanager.cpp:267-271 | a usable body has at least one day |
| `QuoteFetcher.StockDataManager.ProcessHistoricalData` | StockApp/stockdatamanager.cpp:228-322 | a structural fault emits one error and keeps the history; otherwise the history is exactly the accepted days, with one error per rejected day, then historicalDataReceived |
| `QuoteFetcher.StockDataManager.LoadDays` | StockApp/stockdatamanager.cpp:273-319 | the loop keeps exactly the accepted days, in order, and reports each rejected one |
| `QuoteFetcher.StockDataManager.ReadHistoricalReply` | StockApp/stockdatamanager.cpp:177-185 | a network error is emitted; a body is processed and historicalDataReceived is emitted once more |
| `QuoteFetcher.StockDataManager.OnHistoricalDataReceivedAsWritten` | StockApp/stockdatamanager.cpp:172-187 | a network error is emitted, a usable body loads the history and emits historicalDataReceived twice, a faulty one emits its error and keeps the history; the reply is released but the slot still names it |
| `QuoteFetcher.StockDataManager.OnHistoricalDataReceived` | StockApp/stockdatamanager.cpp:172-187 | the reply is read as written, released, and the slot emptied, so the single-flight invariant holds |
| `QuoteFetcher.StockDataManager.Finish` | StockApp/stockdatamanager.cpp:149-187 | with the corrected handlers (history replies go to the corrected OnHistoricalDataReceived): a finished reply still connected runs its handler and empties the slot; a disconnected one changes nothing. A realtime reply leaves the history alone and sets latestData and the events as OnRealtimeDataReceived does for each outcome; a history reply leaves latestData alone and sets the history and the events as ReadHistoricalReply does |
| `QuoteFetcher.HistoryLeavesDanglingSlot` | StockApp/stockdatamanager.cpp:186 | after a history reply completes as written, the slot names a released reply and the invariant is broken |
| `QuoteFetcher.HistoryThenTick` | StockApp/stockdatamanager.cpp:130-141 | with the corrected handler, a tick after a completed history aborts nothing and owns the slot |
| `QuoteFetcher.TickCancelsHistory` | StockApp/stockdatamanager.cpp:138 | a timer tick while the history is in flight aborts it, and no history signal is emitted |
| `Chart.SlideLength` | StockApp/chartmanager.cpp:132-146 | a full window keeps its length and a short one grows by one; the new sample is last; a window of at most 50 stays so |
| `Chart.SlideSuffix` | StockApp/chartmanager.cpp:132-146 | the window is always a suffix of every sample ever received |
| `Chart.LongWindowKeepsLength` | StockApp/chartmanager.cpp:132-134 | a window of 50 or more keeps its length over any number of quotes |
| `Chart.ShortWindowStaysBounded` | StockApp/chartmanager.cpp:132-146 | a window of at most 50 grows to min(50, length + quotes) |
| `Chart.Zip` | StockApp/chartmanager.cpp:218-220 | one line point per sample |
| `Chart.ZipStep` | StockApp/chartmanager.cpp:219-220 | appending one (time, price) pair appends one point |
| `Chart.SeqMin` | StockApp/chartmanager.cpp:282 | min_element: a member of the list no larger than any member |
| `Chart.SeqMax` | StockApp/chartmanager.cpp:283 | max_element: a member of the list no smaller than any member |
| `Chart.MarginRange` | StockApp/chartmanager.cpp:284-285 | the axis spans 1.2 × (max − min), contains [min, max] when min ≤ max, and is ordered iff min ≤ max |
| `Chart.PriceRangeCovers` | StockApp/chartmanager.cpp:281-285 | every price lies within the Y axis |
| `Chart.VisibleWindow` | StockApp/chartmanager.cpp:239-241 | the visible candles are the last min(20, n), starting at 0 for at most 20 |
| `Chart.VisibleWindowExamples` | StockApp/chartmanager.cpp:239-241 | 5 candles show from 0, 37 show the last 20 from 17 |
| `Chart.Lows` | StockApp/chartmanager.cpp:250-254 | one low per visible candle |
| `Chart.Highs` | StockApp/chartmanager.cpp:250-254 | one high per visible candle |
| `Chart.CandleRangeCovers` | StockApp/chartmanager.cpp:250-261 | when the visible lows do not exceed the highs, every visible candle lies within the Y axis, and the axis is ordered exactly then |
| `Chart.InvertedCandleAxis` | StockApp/chartmanager.cpp:258-261 | a candle whose low exceeds its high gives an inverted Y axis |
| `Chart.IndexedCandles` | StockApp/chartmanager.cpp:181-187 | one candle per day |
| `Chart.TimedCandles` | StockApp/chartmanager.cpp:188-193 | one series candle per day |
| `Chart.DayTimes` | StockApp/chartmanager.cpp:196 | one time per day |
| `Chart.ChartManager.constructor` | StockApp/chartmanager.cpp:18-27 | empty data, time-series type, line shown and candles hidden, axes unset |
| `Chart.ChartManager.ClearData` | StockApp/chartmanager.cpp:109-118 | samples, count, line and candles are empty |
| `Chart.ChartManager.UpdateAxisRange` | StockApp/chartmanager.cpp:272-286 | no samples: axes untouched; otherwise X spans first to last time and Y is the price range with margin |
| `Chart.ChartManager.RebuildLine` | StockApp/chartmanager.cpp:218-221 | the line holds one point per sample, in order |
| `Chart.ChartManager.UpdateTimeSeriesChart` | StockApp/chartmanager.cpp:216-224 | the line is rebuilt and the axes fitted to the samples |
| `Chart.ChartManager.UpdateCandlestickChart` | StockApp/chartmanager.cpp:235-262 | no candles: nothing; otherwise X spans the visible series candles, Y the visible lows and highs with margin, at most 10 ticks |
| `Chart.ChartManager.UpdateView` | StockApp/chartmanager.cpp:200-204 | time series: the line is redrawn, the axes fitted when there are samples and kept otherwise, the tick count untouched; candles: the line untouched, the axes and a tick count of min(visible, 10) set when there are candles, and all three kept otherwise |
| `Chart.ChartManager.SwitchChartType` | StockApp/chartmanager.cpp:85-98 | the same type changes nothing; another sets visibility and refreshes that view, with the line, axes and tick count as UpdateView leaves them |
| `Chart.ChartManager.AddSample` | StockApp/chartmanager.cpp:132-146 | prices and times slide by one sample in step; in candle view the line points are untouched |
| `Chart.ChartManager.UpdateRealtimeData` | StockApp/chartmanager.cpp:130-165 | the window slides; a time series is redrawn from the window and fitted, the tick count untouched; in candle view the line is untouched, one candle tagged with the sample count and one with the quote time are appended, the axes refitted and the tick count is the visible count capped at 10 |
| `Chart.ChartManager.LoadHistory` | StockApp/chartmanager.cpp:181-198 | every day appends its close, its time, one indexed and one timed candle |
| `Chart.ChartManager.Reload` | StockApp/chartmanager.cpp:177-198 | the chart is cleared and then holds exactly the history's closes, day times and candles, with no line drawn yet |
| `Chart.ChartManager.UpdateHistoricalData` | StockApp/chartmanager.cpp:177-205 | the chart holds exactly the history's closes, times and candles; a time series is redrawn with the tick count untouched; in candle view the line is empty and the tick count is min(visible, 10); with no data the axes are kept |
| `Chart.LongHistoryThenQuote` | StockApp/chartmanager.cpp:132-134 | after a history of more than 50 days, a quote drops only the oldest close and the window keeps its length |
| `SnakeGame.Step` | SnakeGame/snake.cpp:103-116 | a move changes the head by exactly one cell |
| `SnakeGame.StepBack` | SnakeGame/snake.cpp:72-86 | a second move undoes the first exactly when it goes the opposite way |
| `SnakeGame.FirstFree` | SnakeGame/snake.cpp:140-154 | the food is the first draw not on the snake, so it is a draw, off the snake and on the board |
| `SnakeGame.FirstFreeSkip` | SnakeGame/snake.cpp:146-152 | an occupied draw is skipped |
| `SnakeGame.Snake.constructor` | SnakeGame/snake.cpp:3-12 | a new game is set up |
| `SnakeGame.Snake.InitGame` | SnakeGame/snake.cpp:14-34 | three cells from the centre heading right, score 0, food on a free cell, timer running every 100 ms |
| `SnakeGame.Snake.Occupied` | SnakeGame/snake.cpp:146-151 | true exactly when the cell is on the snake |
| `SnakeGame.Snake.LocateFood` | SnakeGame/snake.cpp:135-155 | the food is the first free draw, on the board and off the snake |
| `SnakeGame.FullBoardHasNoFreeDraw` | SnakeGame/snake.cpp:140-152 | on a board the snake fills, no draw is free, so the do-while has nothing to stop on |
| `SnakeGame.Snake.CheckCollision` | SnakeGame/snake.cpp:157-177 | a head off the board or on the body ends the game and stops the timer; otherwise nothing changes |
| `SnakeGame.Snake.MoveSnake` | SnakeGame/snake.cpp:95-133 | over: nothing; food eaten: grow and score 10 and relocate; otherwise shift; the game ends iff the new body collides; an allowed direction never runs into the neck |
| `SnakeGame.Snake.KeyPressAsWritten` | SnakeGame/snake.cpp:72-93 | an arrow refuses only the reverse of the pending direction; space restarts a finished game |
| `SnakeGame.Snake.KeyPress` | SnakeGame/snake.cpp:72-93 | an arrow refuses the reverse of the last move, so the snake stays steerable |
| `SnakeGame.NewHeadKeepsBody` | SnakeGame/snake.cpp:119-129 | a move that does not collide keeps the body on the board and free of repeats |
| `SnakeGame.QuickTurnEndsGameAsWritten` | SnakeGame/snake.cpp:72-86 | Up then Left within one tick ends a fresh game with score 0 |
| `SnakeGame.QuickTurnIgnored` | SnakeGame/snake.cpp:95-116 | with the corrected keys the same presses move the snake up and the game goes on |
| `CodeMap.StrLessIrreflexive` | StockApp/stockcodemap.h:69-70 | no key precedes itself |
| `CodeMap.StrLessTotal` | StockApp/stockcodemap.h:69-70 | any two different keys are ordered |
| `CodeMap.StrLessTrans` | StockApp/stockcodemap.h:69-70 | key order is transitive |
| `CodeMap.Get` | StockApp/stockcodemap.cpp:71 | a value is found iff an entry has the key, and it is that entry's value |
| `CodeMap.PutGet` | StockApp/stockcodemap.cpp:47-48 | after assignment the key maps to the new value and every other key is unchanged |
| `CodeMap.PutEntries` | StockApp/stockcodemap.cpp:47-48 | assignment adds only the new entry and grows the map only for a new key |
| `CodeMap.SortedTail` | StockApp/stockcodemap.h:69-70 | the rest of a sorted map is sorted |
| `CodeMap.PutSorted` | StockApp/stockcodemap.cpp:47-48 | assignment keeps the map in key order |
| `CodeMap.IndexSorted` | StockApp/stockcodemap.cpp:44-50 | loading rows keeps the map in key order |
| `CodeMap.IndexLookup` | StockApp/stockcodemap.cpp:44-50 | after loading, a key maps to its last row's value, or keeps its old value |
| `CodeMap.CodePairs` | StockApp/stockcodemap.cpp:45-48 | one code→name pair per row |
| `CodeMap.NamePairs` | StockApp/stockcodemap.cpp:45-48 | one name→code pair per row |
| `CodeMap.Lines` | StockApp/stockcodemap.cpp:62 | one "code - name" line per hit |
| `CodeMap.MatchingExactly` | StockApp/stockcodemap.cpp:59-64 | an entry is a hit iff it is in the map and its code contains the lowered keyword or its name contains the keyword |
| `CodeMap.MatchingSorted` | StockApp/stockcodemap.cpp:59-64 | hits come in key order |
| `CodeMap.EmptyKeywordMatchesAll` | StockApp/stockcodemap.cpp:56-61 | an empty keyword matches every entry |
| `CodeMap.StockCodeMap.constructor` | StockApp/stockcodemap.cpp:11-15 | connected: both maps hold the rows; not connected: both are empty |
| `CodeMap.StockCodeMap.Initialize` | StockApp/stockcodemap.cpp:17-22 | a connection loads the rows; none leaves the maps alone |
| `CodeMap.StockCodeMap.FetchStockData` | StockApp/stockcodemap.cpp:41-51 | every row is assigned into both maps, in row order |
| `CodeMap.StockCodeMap.Search` | StockApp/stockcodemap.cpp:53-67 | the results are the lines of the hits, in key order |
| `CodeMap.StockCodeMap.GetStockName` | StockApp/stockcodemap.cpp:69-72 | the name stored under the lowered code when there is one, else "" |
| `CodeMap.StockCodeMap.GetStockCode` | StockApp/stockcodemap.cpp:74-77 | the code stored under the name when there is one, else "" |
| `CodeMap.LastRowWins` | StockApp/stockcodemap.cpp:44-50 | a repeated code or name keeps its last row's value |
| `CodeMap.SearchHitsAreOrdered` | StockApp/stockcodemap.cpp:59-66 | hits are ordered, no more than the entries, and each is a matching entry |
| `CodeMap.MatchingLength` | StockApp/stockcodemap.cpp:59-64 | there are no more hits than entries |
| `CodeMap.UppercaseCodeFound` | StockApp/stockcodemap.cpp:71 | an upper-case code is looked up in lower case |
| `QuoteLog.ExtractPayload` | NetWorkTest/Stock.cpp:64-67 | the payload exists iff the line has two quotes at different positions |
| `QuoteLog.PayloadOf` | NetWorkTest/Stock.cpp:64-67 | the payload is the text between the first and the last quote |
| `QuoteLog.FindFrom` | NetWorkTest/Stock.cpp:70 | find(",", start): npos iff no comma from start, else the first one |
| `QuoteLog.Repeat` | NetWorkTest/Stock.cpp:78 | n copies of the round number |
| `QuoteLog.SplitStep` | NetWorkTest/Stock.cpp:70-73 | cutting at the next comma peels off the first field |
| `QuoteLog.SplitFields` | NetWorkTest/Stock.cpp:68-74 | the loop's fields are the split of the payload at commas |
| `QuoteLog.SplitFieldsFacts` | NetWorkTest/Stock.cpp:68-74 | one more field than commas, no field holds a comma, and joining gives the payload back |
| `QuoteLog.QuoteLog.constructor` | NetWorkTest/Stock.cpp:13-14 | both vectors start empty |
| `QuoteLog.QuoteLog.GetStockInfo` | NetWorkTest/Stock.cpp:33-85 | one round appends the price of every line with more than three fields, each with the round number; a failed exchange appends nothing |
| `QuoteLog.QuoteLog.RecordLine` | NetWorkTest/Stock.cpp:59-80 | a line appends field 3 and the round exactly when its payload has more than three fields |
| `QuoteLog.QuoteLog.Run` | NetWorkTest/Stock.cpp:87-113 | eleven rounds record every value of every round in order, with round numbers 0 to 10, never decreasing |
| `QuoteLog.SampleOfQuoteLine` | NetWorkTest/Stock.cpp:64-79 | a quote line records field 3 iff it has more than three fields |
| `PyStockData.ValidateId` | StockApp/stock_data_manager.py:16-21 | accepted iff sh/sz then exactly six digits; a bad prefix is reported first |
| `PyStockData.AllZeroIdAcceptedOnlyHere` | StockApp/stock_data_manager.py:19-21 | sh000000 passes here and fails the Qt check |
| `PyStockData.SignedIdRefusedOnlyHere` | StockApp/stock_data_manager.py:19-21 | sh+12345 fails here and passes the Qt check |
| `PyStockData.ChecksAgreeOnNonZeroDigits` | StockApp/stock_data_manager.py:16-21 | six digits not all zero pass both checks |
| `PyStockData.DictGet` | StockApp/stock_data_manager.py:40-47 | a key is found iff some member has it, with that member's value |
| `PyStockData.LocateDaily` | StockApp/stock_data_manager.py:40-50 | on an object: a ValueError (the re-raised KeyError) iff data is absent, then iff the code is absent, then iff qfqday is absent; the empty-history error iff qfqday is falsy; success iff it is a truthy array, giving its items |
| `PyStockData.ParseItem` | StockApp/stock_data_manager.py:57-62 | an object record fails with ValueError (KeyError re-raised); an array parses iff its first five items convert, with its date and four prices; IndexError iff it has fewer than five items and all of them convert; ValueError iff one of its first five items fails to convert |
| `PyStockData.Leading` | StockApp/stock_data_manager.py:58-62 | the number of leading items that convert, stopping at the first failure or at five |
| `PyStockData.ParsedInOrder` | StockApp/stock_data_manager.py:57-65 | a parsed batch has one row per record, in order, each that record's parse |
| `PyStockData.BadRecordFailsBatch` | StockApp/stock_data_manager.py:57-62 | the first bad record fails the whole batch with its error |
| `PyStockData.AllGoodParse` | StockApp/stock_data_manager.py:57-62 | a batch of good records parses |
| `PyStockData.FailureStaysFailure` | StockApp/stock_data_manager.py:57-62 | a failure among the first records fails the whole batch |
| `PyStockData.ParseQuote` | StockApp/stock_data_manager.py:85-101 | every failure is a ValueError: the re-raised IndexError iff the body has no double quote, empty iff the quoted segment is empty, short iff it has fewer than 32 fields, a bad number iff one of the five prices does not convert, a bad timestamp iff only the timestamp fails; success iff the segment is non-empty, long enough and all six conversions succeed, and a parsed quote takes name, prices and timestamp from fields 0, 3, 1, 4, 5, 2 and 30–31 |
| `PyStockData.QuoteAgreesWithQt` | StockApp/stock_data_manager.py:85-101 | a quote Python parses is parsed by the Qt parser too, with the same name and five prices |
| `PyStockData.QuoteRefusalsAgree` | StockApp/stock_data_manager.py:85-92 | no double quote fails both parsers; an empty or short segment fails the Qt parser too |
| `PyStockData.Realtime` | StockApp/stock_data_manager.py:80-107 | ConnectionError exactly when the request failed, never from a received body |
| `PyStockData.NonNumericPriceRaisesHere` | StockApp/stock_data_manager.py:96-101 | a non-numeric current price raises ValueError here while the Qt parser reads 0.0 |
| `PyStockData.PyStockDataManager.constructor` | StockApp/stock_data_manager.py:8-11 | no stock, empty history, no quote |
| `PyStockData.PyStockDataManager.GetHistoricalData` | StockApp/stock_data_manager.py:27-70 | the history is replaced by the parsed rows only on full success; otherwise the error is raised and the history kept |
| `PyStockData.PyStockDataManager.GetRealtimeData` | StockApp/stock_data_manager.py:72-107 | a failed request raises ConnectionError and keeps latest_data; otherwise the parsed quote replaces latest_data, or its ValueError is raised and latest_data kept |
| `PyStockData.PyStockDataManager.RequestStockData` | StockApp/stock_data_manager.py:13-25 | a bad id raises and changes nothing; a good one becomes current, then the history and, only after it, the quote are fetched; after a good history a failed quote raises its own error and keeps latest_data |
| `StockCodes.MarketPrefix` | StockApp/fetch_a_stock_codes.py:11-16 | sh iff the code starts with 6, sz iff it starts with 0 or 3, bj otherwise |
| `StockCodes.ConvertStockCode` | StockApp/fetch_a_stock_codes.py:10-17 | two prefix letters followed by the unchanged code |
| `StockCodes.ConvertInjective` | StockApp/fetch_a_stock_codes.py:10-17 | different codes convert to different ids |
| `StockCodes.ConvertedIdAccepted` | StockApp/fetch_a_stock_codes.py:10-17 | a six-digit 6/0/3 code not all zero converts to an id both quote managers accept |
| `StockCodes.ZeroCodeSplitsTheChecks` | StockApp/fetch_a_stock_codes.py:13-14 | 000000 converts to sz000000, which the Python check accepts and the Qt check refuses |
| `StockCodes.BeijingIdRefused` | StockApp/fetch_a_stock_codes.py:15-16 | a bj id is refused by both quote managers for its prefix |
| `Backtest.SignalOf` | StockApp/trading_strategy.py:93-96 | the position column when present, else the signal column |
| `Backtest.Truncate` | StockApp/trading_strategy.py:100 | int() truncates toward zero |
| `Backtest.RunBacktest` | StockApp/trading_strategy.py:87-149 | the loop ends in the book of the row-by-row run; the report gives the initial cash, the last valuation, the trade count equal to the trades, and the values |
| `Backtest.ActOnSignal` | StockApp/trading_strategy.py:98-122 | the loop body trades exactly as one row of the run |
| `Backtest.FailureSticks` | StockApp/trading_strategy.py:92-128 | an exception on one row ends the run with that exception |
| `Backtest.ValueIsLastValuation` | StockApp/trading_strategy.py:125-128 | the last portfolio value is cash plus shares at the last close |
| `Backtest.ValuationIsMark` | StockApp/trading_strategy.py:92-128 | the value of every row i is the book after the run on rows 0..i valued at row i's close and dated as row i |
| `Backtest.ValuationIsHoldingsAtClose` | StockApp/trading_strategy.py:125-128 | every row's value is the cash after that row plus its shares times that row's close |
| `Backtest.LastValuationIsMark` | StockApp/trading_strategy.py:125-128 | the last value is the final book valued at the last close |
| `Backtest.RunExtends` | StockApp/trading_strategy.py:92-128 | a run that succeeds extends the run without its last row, keeping its values |
| `Backtest.StepTrades` | StockApp/trading_strategy.py:98-128 | a trade is recorded iff a buy or sale executes; otherwise cash and position are untouched; one valuation is added |
| `Backtest.BuyEffect` | StockApp/trading_strategy.py:98-110 | a buy takes floor(cash / close) shares, leaves 0 ≤ cash < close, and records the trade even for zero shares |
| `Backtest.BuyRemainder` | StockApp/trading_strategy.py:100-102 | whole shares at the close leave less than one share's price |
| `Backtest.MulBounds` | StockApp/trading_strategy.py:100-102 | a fraction of the close is below the close |
| `Backtest.SellEffect` | StockApp/trading_strategy.py:111-122 | a sale turns every share into cash at the close and zeroes the position |
| `Backtest.TradeKeepsValue` | StockApp/trading_strategy.py:98-127 | trading at the close leaves the value at that close unchanged |
| `Backtest.ZeroShareBuyRecorded` | StockApp/trading_strategy.py:99-110 | 50 cash at a close of 100 records a zero-share buy |
| `Backtest.RunShape` | StockApp/trading_strategy.py:92-128 | one valuation per row, dated as the row, and no more trades than rows |
| `Backtest.RunStaysSolvent` | StockApp/trading_strategy.py:98-122 | with positive closes and non-negative starting cash, cash never goes negative and the position never goes short |
| `Backtest.FirstValuationIsCash` | StockApp/trading_strategy.py:87-128 | without a buy on the first row, the first value is the starting cash |
| `Backtest.RsiSignal` | StockApp/trading_strategy.py:69-73 | -1 iff above overbought; 1 iff below oversold and not above overbought; 0 otherwise or for NaN |
| `Backtest.RsiSignals` | StockApp/trading_strategy.py:69-73 | one signal per RSI value |
| `Backtest.OrderedThresholds` | StockApp/trading_strategy.py:69-73 | with oversold ≤ overbought the rule is the plain three-way split |
| `Backtest.CrossedThresholdsSell` | StockApp/trading_strategy.py:71-73 | with crossed thresholds the later sell assignment wins |
| `Backtest.OversoldRowBuys` | StockApp/trading_strategy.py:69-73 | an oversold row with cash and a positive close executes a buy |

## Left out

- Networking: Qt's QNetworkAccessManager, boost::asio in NetWorkTest/Stock.cpp and `requests` are not modelled. A reply is given as its outcome. A body that is not JSON counts as a failed request in the Python model: requests' JSON error is a RequestException there, so the manager raises ConnectionError.
- Text decoding: `fromLocal8Bit`, `toUtf8` and `gbk_to_utf8` are the identity on `seq<char>`.
- Number and time conversions are abstract function parameters:
  - `toDouble`, `atof`, `float()`, `pd.to_datetime`, `strptime`;
  - `toMSecsSinceEpoch`, which depends on the time zone.
- `Text.ToLower`: ASCII only. QString::toLower and `str.isdigit` also handle non-ASCII letters and digits.
- `PyStockData.ValidateId`: digits are ASCII `0`–`9` only. `str.isdigit` also accepts other Unicode digits, such as full-width or superscript digits, which the model refuses.
- `QuoteFetcher.DateParam`: years outside 1–9999 give "", where Qt prints them (for example 10000-01-01). A QDateEdit never holds such a date.
- `Text.QtToInt`: does not model leading or trailing whitespace.
- Drawing: painting, chart titles and colours are not modelled. So are QChart::update, QWidget::update, matplotlib plotting and the five-second sleep in NetWorkTest.
- The mutex in StockDataManager: the model is sequential, so the lock is not modelled.
- Object lifetime: `deleteLater` and `abort` are recorded in the `released` and `aborted` sets; memory is not modelled.
- The QCandlestickSet objects that `clearData` leaves allocated are not modelled.
- StockDataManager's destructor, ChartManager's destructor and `initChart`'s axis objects are not modelled. The constructors state the resulting initial state.
- `connectToMySQL` and the SQL query are replaced by a flag and the rows.
- `fetch_a_stock_codes`, `save_stock_codes_to_database` and akshare are not modelled. Only `convert_stock_code` is.
- `calculate_ma`, `calculate_macd` and `calculate_rsi` (rolling means, EWMs) are not modelled; the RSI values enter the signal rule as inputs.
- `ma_cross_strategy` and `macd_strategy` are not modelled.
- The backtest statistics built from pct_change, mean, std, sqrt and cummax (annual return, volatility, Sharpe ratio, maximum drawdown, total return) are not modelled; the report keeps initial capital, final capital, trade count, trades and values.
- `Backtest.RunBacktest`: the portfolio values are a sequence, one per row. Python returns `portfolio_df.to_dict()['value']`, keyed by date, so rows with a repeated date collapse to the last one.
- Floating point: prices, cash and margins are exact reals. Rounding, NaN and infinities are not modelled. A NaN signal behaves as any value other than ±1, and a NaN RSI is `None`.
- A buy at a close of 0 divides by zero in Python. A float close raises ZeroDivisionError; a numpy close gives an infinite quotient that `int()` refuses. The model reports either as `ZeroPriceBuy` with the row number.
- `PyStockData.LocateDaily`: a container of the wrong JSON type is reported as TypeError. Python would sometimes answer differently: `in` on a list tests membership, and iterating a dict walks its keys.
- `PyStockData.ParseItem`: a record that is a string (indexed by character in Python) or a number, boolean or null is reported as TypeError. `float(None)` raises TypeError, not ValueError; the model reports every failed conversion as ValueError.
- Snake food placement: `QRandomGenerator` is replaced by a sequence of draws. The caller supplies draws that include a free cell, which the do-while loop needs in order to end.
- `SnakeGame.Snake.LocateFood`, `SnakeGame.Snake.MoveSnake`: require a free draw, so they do not model the full board. A 599-cell snake that eats the last free cell leaves no free cell, and the do-while in `locateFood` never ends (`SnakeGame.FullBoardHasNoFreeDraw`).
- `Chart.Zip`, `Chart.Lows`, `Chart.Highs`, `Chart.IndexedCandles`, `Chart.TimedCandles`, `Chart.DayTimes`: their own contracts state only the length. Their contents are fixed by the comprehensions and used by the methods that call them.
- Timers: a timer is a flag and an interval, in StockDataManager and in Snake. Its ticks are calls of `UpdateStockData` and `MoveSnake`.
- `QuoteFetcher.StockDataManager.RequestHistoricalData`: the URL is stated as a concatenation. The source fills it with chained `QString::arg`, and each `arg` replaces the lowest-numbered place marker anywhere in the string so far, including text that an earlier `arg` put there. A typed code holding a marker, such as `sh%1`, therefore gives a different URL in the source (`param=sh<start>,day,<end>,%3,100,qfq`). Codes without `%` are built the same way in both.
- `CodeMap.Lines`, `CodeMap.StockCodeMap.Search`: each line is stated as `code + " - " + name`. The source's `QString("%1 - %2").arg(code).arg(name)` substitutes the name into a marker inside the code, so a code `a%1` gives `a<name> - %2`. Codes without `%` give the same line in both.

## Findings

| source | as written | input that shows it | evidently intended | confidence | as-written member | corrected member |
|---|---|---|---|---|---|---|
| StockApp/stockdatamanager.cpp:199 | `data.split('"')[1]` is read without checking that a quote exists | a realtime body with no double quote (an error page, an empty body) | report a format error like a short line | not executed | `WireFormat.QuotedSegmentAsWritten` | `WireFormat.QuotedSegment` |
| StockApp/stockdatamanager.cpp:172-187 | the history handler calls deleteLater on the reply but leaves `currentReply` pointing at it, so the next cleanupReply disconnects and aborts a released object | requestHistoricalData, its reply finishes, then a timer tick | empty the slot, as onRealtimeDataReceived does | not executed | `QuoteFetcher.StockDataManager.OnHistoricalDataReceivedAsWritten` | `QuoteFetcher.StockDataManager.OnHistoricalDataReceived` |
| SnakeGame/snake.cpp:72-86 | an arrow key is refused only when it reverses the pending direction, not the direction the snake last moved | a fresh game heading right, Up then Left before the next tick | refuse any key that reverses the last move | not executed | `SnakeGame.QuickTurnEndsGameAsWritten` | `SnakeGame.QuickTurnIgnored` |
