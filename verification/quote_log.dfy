/** The console quote logger (NetWorkTest/Stock.cpp): eleven rounds, each
    fetching one realtime quote line set for a stock id and recording the
    current price (field 3 of the quoted payload) with the round number.

    The global `prices` and `times` vectors are the fields of a QuoteLog.
    Each round's HTTP exchange is given as its outcome: None when the
    connection or the request throws (nothing is recorded), or the body
    lines after the headers, already converted from GBK. atof is a
    conversion given at construction. Plotting and sleeping are not
    modelled. */
module QuoteLog {
  import opened Text

  /** main stops after the round numbered ROUNDS - 1. */
  const ROUNDS: nat := 11
  const PRICE_FIELD: nat := 3

  /** The line holds a double quote at two different positions. */
  predicate TwoQuotes(line: string)
  {
    exists i, j :: 0 <= i < j < |line| && line[i] == '"' && line[j] == '"'
  }

  /** The text strictly between the first and the last double quote, when
      the last one comes after the first. */
  function ExtractPayload(line: string): (r: Option<string>)
    ensures r.Some? <==> TwoQuotes(line)
  {
    match (FindFirst(line, '"'), FindLast(line, '"'))
    case (Some(pos1), Some(pos2)) =>
      if pos2 > pos1 then Some(line[pos1 + 1..pos2])
      else
        assert forall k :: 0 <= k < pos1 ==> line[k] == line[..pos1][k];
        assert forall k :: pos2 < k < |line| ==> line[k] == line[pos2 + 1..][k - pos2 - 1];
        None
    case _ => None
  }

  /** A line with quote-free text around a quoted body yields that body,
      whatever quotes the body itself holds. */
  lemma PayloadOf(pre: string, body: string, post: string)
    requires '"' !in pre && '"' !in post
    ensures ExtractPayload(pre + ['"'] + body + ['"'] + post) == Some(body)
  {
    var line := pre + ['"'] + body + ['"'] + post;
    var q1, q2 := |pre|, |pre| + 1 + |body|;
    assert line[q1] == '"' && line[..q1] == pre;
    assert line[q2] == '"' && line[q2 + 1..] == post;
    assert line[q1 + 1..q2] == body;
    assert FindFirst(line, '"') == Some(q1);
    assert FindLast(line, '"') == Some(q2);
  }

  /** One more line of a response adds that line's value, if any. */
  lemma SamplesStep(lines: seq<string>, i: nat, atof: string -> real)
    requires i < |lines|
    ensures Samples(lines[..i + 1], atof) == Samples(lines[..i], atof) + AsSeq(SampleOf(lines[i], atof))
  {
    assert lines[..i + 1][..i] == lines[..i];
  }

  lemma RepeatAppend(x: int, m: nat, n: nat)
    ensures Repeat(x, m) + Repeat(x, n) == Repeat(x, m + n)
  {
  }

  /** The first c at or after position start. */
  function FindFrom(s: string, c: char, start: nat): (r: Option<nat>)
    requires start <= |s|
    ensures r.None? <==> c !in s[start..]
    ensures r.Some? ==> start <= r.value < |s| && s[r.value] == c && c !in s[start..r.value]
  {
    match FindFirst(s[start..], c)
    case None => None
    case Some(k) =>
      assert s[start..][..k] == s[start..start + k];
      Some(start + k)
  }

  /** The value recorded for a line, if any: field 3 of its payload when
      the payload has more than three fields. */
  function SampleOf(line: string, atof: string -> real): Option<real>
  {
    match ExtractPayload(line)
    case None => None
    case Some(data) =>
      var fields := Split(data, ',');
      if |fields| > PRICE_FIELD then Some(atof(fields[PRICE_FIELD])) else None
  }

  /** The values recorded for the lines of one response, in order. */
  function Samples(lines: seq<string>, atof: string -> real): seq<real>
  {
    if lines == [] then []
    else Samples(lines[..|lines| - 1], atof) + AsSeq(SampleOf(lines[|lines| - 1], atof))
  }

  function AsSeq<T>(o: Option<T>): seq<T>
  {
    match o
    case Some(v) => [v]
    case None => []
  }

  /** n copies of the round number x. */
  function Repeat(x: int, n: nat): (r: seq<int>)
    ensures |r| == n && forall k :: 0 <= k < n ==> r[k] == x
  {
    seq(n, _ => x)
  }

  function ResponseSamples(response: Option<seq<string>>, atof: string -> real): seq<real>
  {
    match response
    case None => []
    case Some(lines) => Samples(lines, atof)
  }

  /** The values recorded over a run of rounds. */
  function AllSamples(responses: seq<Option<seq<string>>>, atof: string -> real): seq<real>
  {
    if responses == [] then []
    else AllSamples(responses[..|responses| - 1], atof) + ResponseSamples(responses[|responses| - 1], atof)
  }

  /** The round numbers recorded over a run of rounds: round k once per
      value it recorded. */
  function AllTimes(responses: seq<Option<seq<string>>>, atof: string -> real): seq<int>
  {
    if responses == [] then []
    else
      var k := |responses| - 1;
      AllTimes(responses[..k], atof) + Repeat(k, |ResponseSamples(responses[k], atof)|)
  }

  predicate NonDecreasing(ts: seq<int>)
  {
    forall i, j :: 0 <= i < j < |ts| ==> ts[i] <= ts[j]
  }

  /** A comma at e, the first at or after start, ends the first field of
      the rest of the text. */
  lemma SplitStep(data: string, start: nat, e: nat)
    requires start <= e < |data| && data[e] == ',' && ',' !in data[start..e]
    ensures Split(data[start..], ',') == [data[start..e]] + Split(data[e + 1..], ',')
  {
    var piece, tail := data[start..e], data[e + 1..];
    assert data[e..] == [','] + tail;
    assert data[start..] == piece + data[e..];
    AppendAssoc(piece, [','], tail);
    SplitAfterPiece(piece, tail, ',');
  }

  /** The split loop: cut the payload at each comma, left to right. */
  method SplitFields(data: string) returns (fields: seq<string>)
    ensures fields == Split(data, ',')
  {
    fields := [];
    var start := 0;
    var end := FindFrom(data, ',', start);
    while end.Some?
      invariant 0 <= start <= |data|
      invariant end == FindFrom(data, ',', start)
      invariant fields + Split(data[start..], ',') == Split(data, ',')
      decreases |data| - start
    {
      var e := end.value;
      var piece := data[start..e];
      SplitStep(data, start, e);
      AppendAssoc(fields, [piece], Split(data[e + 1..], ','));
      fields := fields + [piece];
      start := e + 1;
      end := FindFrom(data, ',', start);
    }
    SplitNoDelimiter(data[start..], ',');
    fields := fields + [data[start..]];
  }

  /** The split yields one more field than the payload has commas, no field
      holds a comma, and joining the fields with commas gives the payload
      back. */
  lemma SplitFieldsFacts(data: string)
    ensures |Split(data, ',')| == Count(data, ',') + 1
    ensures forall k :: 0 <= k < |Split(data, ',')| ==> ',' !in Split(data, ',')[k]
    ensures Join(Split(data, ','), ',') == data
  {
    JoinSplit(data, ',');
  }

  class QuoteLog {
    const atof: string -> real
    var prices: seq<real>
    var times: seq<int>

    /** prices and times are pushed together, and round numbers only grow. */
    ghost predicate Valid()
      reads this
    {
      |prices| == |times| && NonDecreasing(times)
    }

    constructor(atof: string -> real)
      ensures Valid() && this.atof == atof && prices == [] && times == []
    {
      this.atof := atof;
      prices := [];
      times := [];
    }

    /** getStockInfo for round `count`: every body line whose payload has
        more than three fields records field 3 as a price with the round
        number; a failed exchange records nothing. */
    method GetStockInfo(response: Option<seq<string>>, count: int)
      requires Valid() && forall i :: 0 <= i < |times| ==> times[i] <= count
      modifies this
      ensures Valid() && forall i :: 0 <= i < |times| ==> times[i] <= count
      ensures prices == old(prices) + ResponseSamples(response, atof)
      ensures times == old(times) + Repeat(count, |ResponseSamples(response, atof)|)
    {
      if response.None? {
        assert Repeat(count, 0) == [];
        return;
      }
      var lines := response.value;
      var i := 0;
      while i < |lines|
        invariant 0 <= i <= |lines|
        invariant Valid() && forall k :: 0 <= k < |times| ==> times[k] <= count
        invariant prices == old(prices) + Samples(lines[..i], atof)
        invariant times == old(times) + Repeat(count, |Samples(lines[..i], atof)|)
      {
        ghost var before := Samples(lines[..i], atof);
        ghost var added := AsSeq(SampleOf(lines[i], atof));
        SamplesStep(lines, i, atof);
        RecordLine(lines[i], count);
        AppendAssoc(old(prices), before, added);
        RepeatAppend(count, |before|, |added|);
        AppendAssoc(old(times), Repeat(count, |before|), Repeat(count, |added|));
        i := i + 1;
      }
      assert lines[..i] == lines;
    }

    /** The body of the line loop of getStockInfo: a line whose payload has
        more than three fields records field 3 and the round number. */
    method RecordLine(line: string, count: int)
      requires Valid() && forall k :: 0 <= k < |times| ==> times[k] <= count
      modifies this`prices, this`times
      ensures Valid() && forall k :: 0 <= k < |times| ==> times[k] <= count
      ensures prices == old(prices) + AsSeq(SampleOf(line, atof))
      ensures times == old(times) + Repeat(count, |AsSeq(SampleOf(line, atof))|)
    {
      var payload := ExtractPayload(line);
      if payload.Some? {
        var fields := SplitFields(payload.value);
        if |fields| > PRICE_FIELD {
          prices := prices + [atof(fields[PRICE_FIELD])];
          times := times + [count];
        }
      }
    }

    /** main: rounds 0 to 10, one response each; afterwards the log holds,
        in order, every value of every round with its round number. */
    method Run(responses: seq<Option<seq<string>>>)
      requires |responses| == ROUNDS
      requires prices == [] && times == []
      modifies this
      ensures Valid()
      ensures prices == AllSamples(responses, atof) && times == AllTimes(responses, atof)
      ensures forall i :: 0 <= i < |times| ==> 0 <= times[i] < ROUNDS
    {
      var count := 0;
      while true
        invariant 0 <= count < ROUNDS
        invariant Valid()
        invariant forall i :: 0 <= i < |times| ==> 0 <= times[i] <= count
        invariant prices == AllSamples(responses[..count], atof)
        invariant times == AllTimes(responses[..count], atof)
        decreases ROUNDS - count
      {
        assert responses[..count + 1][..count] == responses[..count];
        GetStockInfo(responses[count], count);
        if count == ROUNDS - 1 {
          assert responses[..count + 1] == responses;
          break;
        }
        count := count + 1;
      }
    }
  }

  /** A line with quote-free text around a quoted, comma-joined list of
      comma-free fields records field 3 exactly when there are more than
      three fields. */
  lemma SampleOfQuoteLine(pre: string, fields: seq<string>, post: string, atof: string -> real)
    requires '"' !in pre && '"' !in post && |fields| >= 1
    requires forall k :: 0 <= k < |fields| ==> ',' !in fields[k]
    ensures SampleOf(pre + ['"'] + Join(fields, ',') + ['"'] + post, atof)
      == if |fields| > PRICE_FIELD then Some(atof(fields[PRICE_FIELD])) else None
  {
    PayloadOf(pre, Join(fields, ','), post);
    SplitJoin(fields, ',');
  }
}
