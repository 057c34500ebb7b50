/** StockCodeMap (stockcodemap.cpp): two lookup tables, code to name and
    name to code, filled from the rows of the stock_code table, with a
    substring search over codes and names.

    A QMap<QString, QString> is modelled as its entries in iteration order:
    a sequence strictly sorted by key, character by character. QString
    compares UTF-16 code units, while a Dafny char is a Unicode scalar
    value; the two orders agree on text inside the Basic Multilingual
    Plane, where stock codes and names lie. Connecting to MySQL and running
    the query are left to the caller, who passes whether the connection
    opened and the rows read. */
module CodeMap {
  import opened Text

  datatype Entry = Entry(key: string, value: string)

  /** One row of `SELECT code, name FROM stock_code`. */
  datatype Row = Row(code: string, name: string)

  // ---------------------------------------------------------------------------
  // QString ordering

  /** a sorts before b: at the first differing position a has the smaller
      character, or a is a proper prefix of b. */
  predicate StrLess(a: string, b: string)
    decreases |a|
  {
    |b| > 0 && (|a| == 0 || a[0] < b[0] || (a[0] == b[0] && StrLess(a[1..], b[1..])))
  }

  lemma {:induction false} StrLessIrreflexive(a: string)
    ensures !StrLess(a, a)
    decreases |a|
  {
    if |a| > 0 {
      StrLessIrreflexive(a[1..]);
    }
  }

  lemma {:induction false} StrLessTotal(a: string, b: string)
    ensures a == b || StrLess(a, b) || StrLess(b, a)
    decreases |a|
  {
    if |a| > 0 && |b| > 0 && a[0] == b[0] {
      StrLessTotal(a[1..], b[1..]);
      if a[1..] == b[1..] {
        assert a == [a[0]] + a[1..] && b == [b[0]] + b[1..];
      }
    }
  }

  lemma {:induction false} StrLessTrans(a: string, b: string, c: string)
    requires StrLess(a, b) && StrLess(b, c)
    ensures StrLess(a, c)
    decreases |a|
  {
    if |a| > 0 && a[0] == b[0] && b[0] == c[0] {
      StrLessTrans(a[1..], b[1..], c[1..]);
    }
  }

  // ---------------------------------------------------------------------------
  // QMap<QString, QString>

  /** Keys strictly ascending: iteration order, no key twice. */
  predicate Sorted(m: seq<Entry>)
  {
    forall i, j :: 0 <= i < j < |m| ==> StrLess(m[i].key, m[j].key)
  }

  /** QMap lookup. */
  function Get(m: seq<Entry>, k: string): (r: Option<string>)
    ensures r.Some? <==> exists i :: 0 <= i < |m| && m[i].key == k
    ensures r.Some? ==> exists i :: 0 <= i < |m| && m[i] == Entry(k, r.value)
  {
    if m == [] then None
    else if m[0].key == k then Some(m[0].value)
    else
      var r := Get(m[1..], k);
      assert forall i :: 1 <= i < |m| ==> m[i] == m[1..][i - 1];
      assert r.Some? ==> exists i :: 0 <= i < |m[1..]| && m[1..][i] == Entry(k, r.value);
      r
  }

  /** QMap::value: the stored value, or the empty string for a missing key. */
  function ValueOf(m: seq<Entry>, k: string): string
  {
    match Get(m, k)
    case Some(v) => v
    case None => ""
  }

  /** QMap's operator[] assignment. */
  function Put(m: seq<Entry>, k: string, v: string): seq<Entry>
  {
    if m == [] then [Entry(k, v)]
    else if m[0].key == k then [Entry(k, v)] + m[1..]
    else if StrLess(k, m[0].key) then [Entry(k, v)] + m
    else [m[0]] + Put(m[1..], k, v)
  }

  /** After a Put, k maps to v and every other key keeps its value. */
  lemma {:induction false} PutGet(m: seq<Entry>, k: string, v: string, k': string)
    ensures Get(Put(m, k, v), k') == if k' == k then Some(v) else Get(m, k')
  {
    var r := Put(m, k, v);
    if m != [] && m[0].key != k && !StrLess(k, m[0].key) {
      PutGet(m[1..], k, v, k');
      assert r[1..] == Put(m[1..], k, v);
    } else if m != [] && m[0].key == k {
      assert r[1..] == m[1..];
    } else if m != [] {
      assert r[1..] == m;
    }
  }

  /** Every entry after a Put is the new one or an old one; only a new key
      adds an entry. */
  lemma {:induction false} PutEntries(m: seq<Entry>, k: string, v: string)
    ensures forall i :: 0 <= i < |Put(m, k, v)| ==> Put(m, k, v)[i] == Entry(k, v) || Put(m, k, v)[i] in m
    ensures Sorted(m) ==> |Put(m, k, v)| == if Get(m, k).Some? then |m| else |m| + 1
  {
    var r := Put(m, k, v);
    if m == [] {
    } else if m[0].key == k {
      assert forall i :: 1 <= i < |r| ==> r[i] == m[i];
    } else if StrLess(k, m[0].key) {
      assert r[1..] == m;
      if Sorted(m) && Get(m, k).Some? {
        var i :| 0 <= i < |m| && m[i].key == k;
        StrLessTrans(k, m[0].key, m[i].key);
        StrLessIrreflexive(k);
      }
    } else {
      PutEntries(m[1..], k, v);
      var rest := Put(m[1..], k, v);
      assert r[1..] == rest;
      assert Get(m, k) == Get(m[1..], k);
      if Sorted(m) { SortedTail(m); }
      forall i | 0 <= i < |r|
        ensures r[i] == Entry(k, v) || r[i] in m
      {
        if i > 0 && rest[i - 1] != Entry(k, v) {
          assert rest[i - 1] in m[1..];
        }
      }
    }
  }

  lemma SortedTail(m: seq<Entry>)
    requires Sorted(m) && m != []
    ensures Sorted(m[1..])
  {
    forall i, j | 0 <= i < j < |m[1..]|
      ensures StrLess(m[1..][i].key, m[1..][j].key)
    {
      assert m[1..][i] == m[i + 1] && m[1..][j] == m[j + 1];
    }
  }

  /** A Put keeps the table sorted. */
  lemma {:induction false} PutSorted(m: seq<Entry>, k: string, v: string)
    requires Sorted(m)
    ensures Sorted(Put(m, k, v))
  {
    var r := Put(m, k, v);
    if m == [] {
    } else if m[0].key == k {
      forall i, j | 0 <= i < j < |r|
        ensures StrLess(r[i].key, r[j].key)
      {
        assert r[j] == m[j];
        if i > 0 { assert r[i] == m[i]; }
      }
    } else if StrLess(k, m[0].key) {
      forall i, j | 0 <= i < j < |r|
        ensures StrLess(r[i].key, r[j].key)
      {
        assert r[j] == m[j - 1];
        if i == 0 && j > 1 {
          StrLessTrans(k, m[0].key, m[j - 1].key);
        } else if i > 0 {
          assert r[i] == m[i - 1];
        }
      }
    } else {
      StrLessTotal(k, m[0].key);
      SortedTail(m);
      PutSorted(m[1..], k, v);
      PutEntries(m[1..], k, v);
      var rest := Put(m[1..], k, v);
      assert r[1..] == rest;
      forall i, j | 0 <= i < j < |r|
        ensures StrLess(r[i].key, r[j].key)
      {
        if i == 0 {
          var e := rest[j - 1];
          if e != Entry(k, v) {
            assert e in m[1..];
            var t :| 0 <= t < |m[1..]| && m[1..][t] == e;
            assert m[t + 1] == e;
          }
        } else {
          assert r[i] == rest[i - 1] && r[j] == rest[j - 1];
        }
      }
    }
  }

  /** The table filled from a run of (key, value) pairs, one Put each. */
  function Index(m: seq<Entry>, pairs: seq<Entry>): seq<Entry>
  {
    if pairs == [] then m
    else
      var last := pairs[|pairs| - 1];
      Put(Index(m, pairs[..|pairs| - 1]), last.key, last.value)
  }

  /** The value of the last pair with key k. */
  function LastFor(pairs: seq<Entry>, k: string): Option<string>
  {
    if pairs == [] then None
    else if pairs[|pairs| - 1].key == k then Some(pairs[|pairs| - 1].value)
    else LastFor(pairs[..|pairs| - 1], k)
  }

  /** Filling keeps the table sorted. */
  lemma {:induction false} IndexSorted(m: seq<Entry>, pairs: seq<Entry>)
    requires Sorted(m)
    ensures Sorted(Index(m, pairs))
  {
    if pairs != [] {
      IndexSorted(m, pairs[..|pairs| - 1]);
      PutSorted(Index(m, pairs[..|pairs| - 1]), pairs[|pairs| - 1].key, pairs[|pairs| - 1].value);
    }
  }

  /** After filling, a key holds the value of its last pair; a key no pair
      names keeps its earlier value. */
  lemma {:induction false} IndexLookup(m: seq<Entry>, pairs: seq<Entry>, k: string)
    ensures Get(Index(m, pairs), k) == if LastFor(pairs, k).Some? then LastFor(pairs, k) else Get(m, k)
  {
    if pairs != [] {
      IndexLookup(m, pairs[..|pairs| - 1], k);
      PutGet(Index(m, pairs[..|pairs| - 1]), pairs[|pairs| - 1].key, pairs[|pairs| - 1].value, k);
    }
  }

  function CodePairs(rows: seq<Row>): (pairs: seq<Entry>)
    ensures |pairs| == |rows|
  {
    seq(|rows|, i requires 0 <= i < |rows| => Entry(rows[i].code, rows[i].name))
  }

  function NamePairs(rows: seq<Row>): (pairs: seq<Entry>)
    ensures |pairs| == |rows|
  {
    seq(|rows|, i requires 0 <= i < |rows| => Entry(rows[i].name, rows[i].code))
  }

  // ---------------------------------------------------------------------------
  // Search

  /** A search hit: the code contains the lowercased keyword, or the name
      contains the keyword as typed. */
  predicate Matches(e: Entry, keyword: string)
  {
    Contains(e.key, ToLower(keyword)) || Contains(e.value, keyword)
  }

  /** The entries that match, in table order. */
  function Matching(m: seq<Entry>, keyword: string): seq<Entry>
  {
    if m == [] then []
    else
      var init := Matching(m[..|m| - 1], keyword);
      if Matches(m[|m| - 1], keyword) then init + [m[|m| - 1]] else init
  }

  /** A result line: "code - name", as QString("%1 - %2").arg(code).arg(name)
      gives for a code without a '%' place marker. */
  function Line(e: Entry): string
  {
    e.key + " - " + e.value
  }

  function Lines(es: seq<Entry>): (lines: seq<string>)
    ensures |lines| == |es|
  {
    seq(|es|, i requires 0 <= i < |es| => Line(es[i]))
  }

  /** An entry is a hit exactly when it is in the table and matches. */
  lemma {:induction false} MatchingExactly(m: seq<Entry>, keyword: string, e: Entry)
    ensures e in Matching(m, keyword) <==> e in m && Matches(e, keyword)
  {
    if m != [] {
      MatchingExactly(m[..|m| - 1], keyword, e);
      assert m == m[..|m| - 1] + [m[|m| - 1]];
    }
  }

  /** Hits keep the table order: ascending codes, none twice. */
  lemma {:induction false} MatchingSorted(m: seq<Entry>, keyword: string)
    requires Sorted(m)
    ensures Sorted(Matching(m, keyword))
  {
    if m != [] {
      var init := m[..|m| - 1];
      MatchingSorted(init, keyword);
      var hits := Matching(init, keyword);
      if Matches(m[|m| - 1], keyword) {
        forall i | 0 <= i < |hits|
          ensures StrLess(hits[i].key, m[|m| - 1].key)
        {
          MatchingExactly(init, keyword, hits[i]);
          var t :| 0 <= t < |init| && init[t] == hits[i];
          assert m[t] == hits[i];
        }
        var r := hits + [m[|m| - 1]];
        forall i, j | 0 <= i < j < |r|
          ensures StrLess(r[i].key, r[j].key)
        {
          if j < |hits| {
            assert r[i] == hits[i] && r[j] == hits[j];
          }
        }
      }
    }
  }

  /** An empty keyword matches every entry. */
  lemma {:induction false} EmptyKeywordMatchesAll(m: seq<Entry>)
    ensures Matching(m, "") == m
  {
    if m != [] {
      EmptyKeywordMatchesAll(m[..|m| - 1]);
      assert OccursAt(m[|m| - 1].key, ToLower(""), 0);
      assert m[..|m| - 1] + [m[|m| - 1]] == m;
    }
  }

  class StockCodeMap {
    var codeToName: seq<Entry>
    var nameToCode: seq<Entry>

    /** Both tables are QMaps: sorted by key. */
    ghost predicate Valid()
      reads this
    {
      Sorted(codeToName) && Sorted(nameToCode)
    }

    /** The constructor runs initialize: the tables are filled from the rows
        when the database connection opened, and stay empty otherwise. */
    constructor(connected: bool, rows: seq<Row>)
      ensures Valid()
      ensures connected ==> codeToName == Index([], CodePairs(rows)) && nameToCode == Index([], NamePairs(rows))
      ensures !connected ==> codeToName == [] && nameToCode == []
    {
      codeToName := [];
      nameToCode := [];
      new;
      Initialize(connected, rows);
    }

    /** initialize: fetch the rows only when the connection opened. */
    method Initialize(connected: bool, rows: seq<Row>)
      requires Valid()
      modifies this
      ensures Valid()
      ensures connected ==>
        codeToName == Index(old(codeToName), CodePairs(rows)) && nameToCode == Index(old(nameToCode), NamePairs(rows))
      ensures !connected ==> unchanged(this)
    {
      if connected {
        FetchStockData(rows);
      }
    }

    /** fetchStockData: each row maps its name to its code and its code to
        its name; a later row with the same code or name overwrites. */
    method FetchStockData(rows: seq<Row>)
      requires Valid()
      modifies this
      ensures Valid()
      ensures codeToName == Index(old(codeToName), CodePairs(rows))
      ensures nameToCode == Index(old(nameToCode), NamePairs(rows))
    {
      var i := 0;
      while i < |rows|
        invariant 0 <= i <= |rows|
        invariant Valid()
        invariant codeToName == Index(old(codeToName), CodePairs(rows)[..i])
        invariant nameToCode == Index(old(nameToCode), NamePairs(rows)[..i])
      {
        var code := rows[i].code;
        var name := rows[i].name;
        assert CodePairs(rows)[..i + 1][..i] == CodePairs(rows)[..i];
        assert NamePairs(rows)[..i + 1][..i] == NamePairs(rows)[..i];
        PutSorted(nameToCode, name, code);
        PutSorted(codeToName, code, name);
        nameToCode := Put(nameToCode, name, code);
        codeToName := Put(codeToName, code, name);
        i := i + 1;
      }
      assert CodePairs(rows)[..i] == CodePairs(rows);
      assert NamePairs(rows)[..i] == NamePairs(rows);
    }

    /** search: one "code - name" line per entry whose code contains the
        lowercased keyword or whose name contains the keyword, in ascending
        code order. */
    method Search(keyword: string) returns (results: seq<string>)
      ensures results == Lines(Matching(codeToName, keyword))
    {
      results := [];
      var loweredKeyword := ToLower(keyword);
      var i := 0;
      while i < |codeToName|
        invariant 0 <= i <= |codeToName|
        invariant results == Lines(Matching(codeToName[..i], keyword))
      {
        var e := codeToName[i];
        assert codeToName[..i + 1][..i] == codeToName[..i];
        if Contains(e.key, loweredKeyword) || Contains(e.value, keyword) {
          results := results + [Line(e)];
        }
        i := i + 1;
      }
      assert codeToName[..i] == codeToName;
    }

    /** getStockName: the name stored under the lowercased code, or the
        empty string. */
    function GetStockName(code: string): (name: string)
      reads this
      ensures Get(codeToName, ToLower(code)).None? ==> name == ""
      ensures Get(codeToName, ToLower(code)).Some? ==> name == Get(codeToName, ToLower(code)).value
      ensures name != "" ==> exists i :: 0 <= i < |codeToName| && codeToName[i] == Entry(ToLower(code), name)
    {
      ValueOf(codeToName, ToLower(code))
    }

    /** getStockCode: the code stored under exactly this name, or the empty
        string. */
    function GetStockCode(name: string): (code: string)
      reads this
      ensures Get(nameToCode, name).None? ==> code == ""
      ensures Get(nameToCode, name).Some? ==> code == Get(nameToCode, name).value
      ensures code != "" ==> exists i :: 0 <= i < |nameToCode| && nameToCode[i] == Entry(name, code)
    {
      ValueOf(nameToCode, name)
    }
  }

  /** After filling from rows, a lowercase code names the last row with that
      code, and a name gives the last row with that name; codes and names
      no row carries give the empty string. */
  lemma LastRowWins(rows: seq<Row>, code: string, name: string)
    ensures ValueOf(Index([], CodePairs(rows)), code) == match LastFor(CodePairs(rows), code) { case Some(v) => v case None => "" }
    ensures ValueOf(Index([], NamePairs(rows)), name) == match LastFor(NamePairs(rows), name) { case Some(v) => v case None => "" }
  {
    IndexLookup([], CodePairs(rows), code);
    IndexLookup([], NamePairs(rows), name);
  }

  /** A search from a filled map yields each matching row's line once, in
      ascending code order. */
  lemma SearchHitsAreOrdered(m: seq<Entry>, keyword: string)
    requires Sorted(m)
    ensures var hits := Matching(m, keyword);
      Sorted(hits) && |hits| <= |m| && forall i :: 0 <= i < |hits| ==> hits[i] in m && Matches(hits[i], keyword)
  {
    MatchingSorted(m, keyword);
    var hits := Matching(m, keyword);
    forall i | 0 <= i < |hits|
      ensures hits[i] in m && Matches(hits[i], keyword)
    {
      MatchingExactly(m, keyword, hits[i]);
    }
    MatchingLength(m, keyword);
  }

  lemma {:induction false} MatchingLength(m: seq<Entry>, keyword: string)
    ensures |Matching(m, keyword)| <= |m|
  {
    if m != [] {
      MatchingLength(m[..|m| - 1], keyword);
    }
  }

  /** The code lookup is case-insensitive in the code typed: "SH600000"
      finds what is stored under "sh600000". */
  lemma UppercaseCodeFound()
    ensures ToLower("SH600000") == "sh600000"
  {
  }
}
