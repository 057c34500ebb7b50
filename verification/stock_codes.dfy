/** The code conversion of the stock-list import
    (StockApp/fetch_a_stock_codes.py): a bare exchange code from the stock
    list gets the market prefix the quote services expect. The list itself
    and the database it is written to are not modelled. */
module StockCodes {
  import opened Text
  import WireFormat
  import PyStockData

  /** The prefix chosen from the first character of the code: Shanghai for
      '6', Shenzhen for '0' and '3', Beijing for anything else (the empty
      code included). */
  function MarketPrefix(code: string): (p: string)
    ensures |p| == 2
    ensures p == "sh" <==> StartsWith(code, "6")
    ensures p == "sz" <==> StartsWith(code, "0") || StartsWith(code, "3")
    ensures p == "bj" <==> !(StartsWith(code, "6") || StartsWith(code, "0") || StartsWith(code, "3"))
  {
    if StartsWith(code, "6") then "sh"
    else if StartsWith(code, "0") || StartsWith(code, "3") then "sz"
    else "bj"
  }

  /** convert_stock_code: the market prefix followed by the code, unchanged. */
  function ConvertStockCode(code: string): (r: string)
    ensures |r| == |code| + 2
    ensures r[2..] == code
    ensures r[..2] == MarketPrefix(code)
  {
    MarketPrefix(code) + code
  }

  /** Removing the two prefix letters gives the input back, so different
      codes never convert to the same id. */
  lemma ConvertInjective(a: string, b: string)
    requires ConvertStockCode(a) == ConvertStockCode(b)
    ensures a == b
  {
    assert a == ConvertStockCode(a)[2..];
    assert b == ConvertStockCode(b)[2..];
  }

  /** A six-digit Shanghai or Shenzhen code that is not all zero converts to
      an id that both quote managers accept. */
  lemma ConvertedIdAccepted(code: string)
    requires |code| == 6 && AllDigits(code)
    requires code[0] == '6' || code[0] == '0' || code[0] == '3'
    requires exists i :: 0 <= i < 6 && code[i] != '0'
    ensures WireFormat.CheckStockCode(ConvertStockCode(code)).None?
    ensures PyStockData.ValidateId(ConvertStockCode(code)).None?
  {
    var id := ConvertStockCode(code);
    assert code[..1] == [code[0]];
    assert id[..2] == "sh" || id[..2] == "sz";
    var i :| 0 <= i < 6 && code[i] != '0';
    assert id[i + 2] == code[i];
    WireFormat.AcceptsPrefixedDigits(id);
  }

  /** "000000" converts to "sz000000": the Python check accepts it, the Qt
      check does not. */
  lemma ZeroCodeSplitsTheChecks()
    ensures ConvertStockCode("000000") == "sz000000"
    ensures PyStockData.ValidateId("sz000000").None?
    ensures WireFormat.CheckStockCode("sz000000") == Some(WireFormat.BadDigits)
  {
    assert "000000"[..1] == "0";
    assert "sz000000"[..2] == "sz";
    assert "sz000000"[2..] == "000000";
    DigitsValueZero("000000");
  }

  /** A Beijing id is refused by both quote managers for its prefix. */
  lemma BeijingIdRefused(code: string)
    requires MarketPrefix(code) == "bj"
    ensures WireFormat.CheckStockCode(ConvertStockCode(code)) == Some(WireFormat.BadPrefix)
    ensures PyStockData.ValidateId(ConvertStockCode(code)) == Some(PyStockData.ValueError(PyStockData.WrongPrefix))
  {
    var id := ConvertStockCode(code);
    assert id[..2] == "bj";
  }
}
