/** The email search page (`/platform/:platform`): a list of keyword fields,
    a target count, a local credit balance, the request to `/email-find`,
    and two serialisations of the results (a CSV download and a clipboard
    string). */
module PlatformEmails {
  import opened Basics
  import opened Text
  import opened Backend

  /** One entry of `results`. `emails` is None when the entry's `emails`
      is not an array; `name` and `link` are None when missing. */
  datatype ResultItem = ResultItem(name: Option<string>, link: Option<string>, emails: Option<seq<string>>)

  /** The JSON body posted to `/email-find`. */
  datatype EmailFindRequest = EmailFindRequest(baseQuery: string, userQueriesInput: string, targetEmailCount: int)

  /** Why `handleRequest` stopped without sending anything (each is only
      logged to the console). */
  datatype RequestError = NoAccessToken | NoKeywords | CountOutOfRange | NotEnoughCredits

  const DEFAULT_COUNT: int := 10
  const MIN_COUNT: int := 1
  const MAX_COUNT: int := 50

  // ---------------------------------------------------------------------
  // Request validation

  /** `xs.map(f)` */
  function Map(f: string -> string, xs: seq<string>): (r: seq<string>)
    ensures |r| == |xs|
  {
    seq(|xs|, i requires 0 <= i < |xs| => f(xs[i]))
  }

  lemma MapAppend(f: string -> string, xs: seq<string>, ys: seq<string>)
    ensures Map(f, xs + ys) == Map(f, xs) + Map(f, ys)
  {
    var l, r := Map(f, xs + ys), Map(f, xs) + Map(f, ys);
    forall i | 0 <= i < |l| ensures l[i] == r[i] {
      if i < |xs| {
        assert (xs + ys)[i] == xs[i];
      } else {
        assert (xs + ys)[i] == ys[i - |xs|];
      }
    }
  }

  /** `.filter(q => q.length > 0)` */
  function NonEmpty(xs: seq<string>): (r: seq<string>)
    ensures |r| <= |xs|
    ensures forall i :: 0 <= i < |r| ==> r[i] != ""
  {
    if xs == [] then []
    else (if xs[0] == "" then [] else [xs[0]]) + NonEmpty(xs[1..])
  }

  /** `queries.map(q => q.trim()).filter(q => q.length > 0)` */
  function Keywords(queries: seq<string>): (r: seq<string>)
    ensures |r| <= |queries|
    ensures forall i :: 0 <= i < |r| ==> r[i] != ""
  {
    NonEmpty(Map(Trim, queries))
  }

  /** `queries.every(q => q.trim() === '')`, the test the fetch button uses. */
  predicate AllBlank(queries: seq<string>) {
    forall i :: 0 <= i < |queries| ==> Trim(queries[i]) == ""
  }

  lemma {:induction false} NonEmptyNone(xs: seq<string>)
    ensures NonEmpty(xs) == [] <==> forall i :: 0 <= i < |xs| ==> xs[i] == ""
  {
    if xs != [] {
      NonEmptyNone(xs[1..]);
      assert forall i :: 1 <= i < |xs| ==> xs[i] == xs[1..][i - 1];
    }
  }

  lemma {:induction false} NonEmptyAppend(xs: seq<string>, ys: seq<string>)
    ensures NonEmpty(xs + ys) == NonEmpty(xs) + NonEmpty(ys)
  {
    if xs != [] {
      assert (xs + ys)[0] == xs[0] && (xs + ys)[1..] == xs[1..] + ys;
      NonEmptyAppend(xs[1..], ys);
    } else {
      assert xs + ys == ys;
    }
  }

  /** The filtered keyword list is empty exactly when every field is blank,
      so the button's test and the handler's test agree. */
  lemma KeywordsEmptyIffAllBlank(queries: seq<string>)
    ensures Keywords(queries) == [] <==> AllBlank(queries)
  {
    var t := Map(Trim, queries);
    NonEmptyNone(t);
    assert forall i :: 0 <= i < |queries| ==> t[i] == Trim(queries[i]);
  }

  /** Filtering keeps the original order: the keywords of two runs of
      fields are the keywords of the first run followed by those of the second. */
  lemma KeywordsAppend(a: seq<string>, b: seq<string>)
    ensures Keywords(a + b) == Keywords(a) + Keywords(b)
  {
    var ta, tb := Map(Trim, a), Map(Trim, b);
    MapAppend(Trim, a, b);
    NonEmptyAppend(ta, tb);
  }

  /** `targetEmailCount === '' ? 10 : targetEmailCount` */
  function EffectiveCount(countInput: Option<int>): int {
    if countInput.None? then DEFAULT_COUNT else countInput.value
  }

  /** `site:${platform}.com/` */
  function BaseQuery(platform: string): string {
    "site:" + platform + ".com/"
  }

  /** The guards of `handleRequest` in their order, and the body it posts
      when all of them pass. */
  function CheckRequest(accessToken: Option<string>, platform: string, queries: seq<string>,
                        countInput: Option<int>, credits: Option<int>): (r: Result<EmailFindRequest, RequestError>)
    ensures r.Success? <==>
      && Truthy(accessToken)
      && Keywords(queries) != []
      && MIN_COUNT <= EffectiveCount(countInput) <= MAX_COUNT
      && (credits.None? || EffectiveCount(countInput) <= credits.value)
    ensures r.Success? ==>
      && r.value.baseQuery == BaseQuery(platform)
      && r.value.userQueriesInput == Join(Keywords(queries), ",")
      && r.value.targetEmailCount == EffectiveCount(countInput)
    ensures r.Success? ==> r.value.targetEmailCount <= MAX_COUNT
    ensures r == Failure(NoKeywords) ==> AllBlank(queries)
  {
    KeywordsEmptyIffAllBlank(queries);
    var n := EffectiveCount(countInput);
    if !Truthy(accessToken) then Failure(NoAccessToken)
    else if Keywords(queries) == [] then Failure(NoKeywords)
    else if n < MIN_COUNT || n > MAX_COUNT then Failure(CountOutOfRange)
    else if credits.Some? && n > credits.value then Failure(NotEnoughCredits)
    else Success(EmailFindRequest(BaseQuery(platform), Join(Keywords(queries), ","), n))
  }

  /** A character absent from every entry is absent from every kept entry. */
  lemma {:induction false} NonEmptyAvoids(xs: seq<string>, c: char)
    requires forall i :: 0 <= i < |xs| ==> c !in xs[i]
    ensures forall i :: 0 <= i < |NonEmpty(xs)| ==> c !in NonEmpty(xs)[i]
  {
    if xs != [] {
      NonEmptyAvoids(xs[1..], c);
    }
  }

  /** Trimming only removes characters. */
  lemma TrimAvoids(s: string, c: char)
    requires c !in s
    ensures c !in Trim(s)
  {
  }

  /** The keyword string the request carries reads back, cut at ',', as
      the keyword list, provided no field holds a comma. */
  lemma KeywordsRoundTrip(accessToken: Option<string>, platform: string, queries: seq<string>,
                          countInput: Option<int>, credits: Option<int>)
    requires forall i :: 0 <= i < |queries| ==> ',' !in queries[i]
    requires CheckRequest(accessToken, platform, queries, countInput, credits).Success?
    ensures SplitOn(CheckRequest(accessToken, platform, queries, countInput, credits).value.userQueriesInput, ',')
         == Keywords(queries)
  {
    var t := Map(Trim, queries);
    forall i | 0 <= i < |t| ensures ',' !in t[i] {
      TrimAvoids(queries[i], ',');
    }
    NonEmptyAvoids(t, ',');
    SplitOnJoin(Keywords(queries), ',');
  }

  /** Nothing escapes commas, so one field holding "a,b" posts the same
      keyword string as two fields "a" and "b". */
  lemma KeywordCommaAmbiguity()
    ensures Keywords(["a,b"]) != Keywords(["a", "b"])
    ensures Join(Keywords(["a,b"]), ",") == Join(Keywords(["a", "b"]), ",")
  {
    assert ContentStart("a,b", 0) == 0;
    assert ContentEnd("a,b", 0, 3) == 3;
    assert Trim("a,b") == "a,b";
    assert ContentStart("a", 0) == 0 && ContentEnd("a", 0, 1) == 1;
    assert ContentStart("b", 0) == 0 && ContentEnd("b", 0, 1) == 1;
    assert Trim("a") == "a" && Trim("b") == "b";
    assert Map(Trim, ["a,b"]) == ["a,b"];
    assert Map(Trim, ["a", "b"]) == ["a", "b"];
    assert Keywords(["a,b"]) == ["a,b"];
    assert NonEmpty(["b"]) == ["b"];
    assert Keywords(["a", "b"]) == ["a", "b"];
  }

  /** `disableFetch`, written as the page writes it: it looks for a
      non-blank field, where the handler looks for a keyword. */
  function FetchDisabled(loading: bool, accessToken: Option<string>, queries: seq<string>,
                         countInput: Option<int>, credits: Option<int>): (r: bool)
    ensures r <==>
      || loading
      || !Truthy(accessToken)
      || Keywords(queries) == []
      || !(MIN_COUNT <= EffectiveCount(countInput) <= MAX_COUNT)
      || (credits.Some? && EffectiveCount(countInput) > credits.value)
  {
    KeywordsEmptyIffAllBlank(queries);
    var n := EffectiveCount(countInput);
    || loading
    || !Truthy(accessToken)
    || AllBlank(queries)
    || n < MIN_COUNT || n > MAX_COUNT
    || (credits.Some? && n > credits.value)
  }

  /** The button is disabled exactly when a request is in flight or the
      handler's own guards would turn the current inputs down. */
  lemma FetchDisabledMatchesGuards(loading: bool, accessToken: Option<string>, platform: string,
                                   queries: seq<string>, countInput: Option<int>, credits: Option<int>)
    ensures FetchDisabled(loading, accessToken, queries, countInput, credits)
        <==> loading || CheckRequest(accessToken, platform, queries, countInput, credits).Failure?
  {
  }

  // ---------------------------------------------------------------------
  // CSV export

  const CSV_HEADERS: seq<string> := ["Name", "Link", "Emails"]

  /** `Array.isArray(item.emails) ? item.emails.join(';') : ''` */
  function EmailCell(item: ResultItem): string {
    if item.emails.Some? then Join(item.emails.value, ";") else ""
  }

  /** The three cells of one row, each with `value || ''` applied. */
  function CsvCells(item: ResultItem): seq<string> {
    [OrEmpty(item.name), OrEmpty(item.link), EmailCell(item)]
  }

  /** A cell wrapped in double quotes. Quotes inside the value are NOT
      doubled (section 2, rule 7 of RFC 4180 asks for that). */
  function Quote(v: string): string {
    "\"" + v + "\""
  }

  function CsvLine(cells: seq<string>): string {
    Join(seq(|cells|, i requires 0 <= i < |cells| => Quote(cells[i])), ",")
  }

  function CsvLines(items: seq<ResultItem>): seq<string> {
    [CsvLine(CSV_HEADERS)] + seq(|items|, i requires 0 <= i < |items| => CsvLine(CsvCells(items[i])))
  }

  /** The text `handleDownloadCSV` puts in the file; None when there are no
      results (the handler returns before building anything). */
  function Csv(items: seq<ResultItem>): (r: Option<string>)
    ensures r.None? <==> items == []
    ensures r.Some? ==> r.value == CsvLine(CSV_HEADERS) + "\n" + Join(CsvLines(items)[1..], "\n")
    ensures r.Some? ==> r.value == "\"Name\",\"Link\",\"Emails\"\n" + Join(CsvLines(items)[1..], "\n")
  {
    QuotedLine("Name", "Link", "Emails");
    if items == [] then None else Some(Join(CsvLines(items), "\n"))
  }

  /** A reader for the lines `Csv` writes: cutting `"a","b","c"` at every
      quote mark yields ["", a, ",", b, ",", c, ""]. */
  function ReadCsvLine(line: string): Option<seq<string>> {
    var pieces := SplitOn(line, '"');
    if |pieces| == 7 && pieces[0] == "" && pieces[2] == "," && pieces[4] == "," && pieces[6] == ""
    then Some([pieces[1], pieces[3], pieces[5]])
    else None
  }

  function ReadCsv(text: string): seq<Option<seq<string>>> {
    var lines := SplitOn(text, '\n');
    seq(|lines|, i requires 0 <= i < |lines| => ReadCsvLine(lines[i]))
  }

  /** A cell the unescaped format can carry: no quote mark, no line break. */
  predicate CsvSafe(v: string) {
    '"' !in v && '\n' !in v
  }

  /** A character that is in no part and not in the separator is not in the join. */
  lemma {:induction false} JoinAvoids(parts: seq<string>, sep: string, c: char)
    requires c !in sep
    requires forall i :: 0 <= i < |parts| ==> c !in parts[i]
    ensures c !in Join(parts, sep)
  {
    if |parts| > 1 {
      JoinAvoids(parts[1..], sep, c);
    }
  }

  /** A three-cell line is the three quoted cells joined by commas. */
  lemma QuotedCells(a: string, b: string, c: string)
    ensures CsvLine([a, b, c]) == Quote(a) + "," + (Quote(b) + "," + Quote(c))
  {
    var q := seq(3, i requires 0 <= i < 3 => Quote([a, b, c][i]));
    assert q == [Quote(a), Quote(b), Quote(c)];
    assert Join(q[2..], ",") == Quote(c);
    assert Join(q[1..], ",") == Quote(b) + "," + Quote(c);
  }

  /** The pieces of a three-cell line between its quote marks, joined back. */
  lemma QuotePieces(a: string, b: string, c: string)
    ensures Join(["", a, ",", b, ",", c, ""], "\"") == "\"" + (a + "\"" + ("," + "\"" + (b + "\"" + ("," + "\"" + (c + "\"")))))
  {
    var parts: seq<string> := ["", a, ",", b, ",", c, ""];
    var s := "\"";
    assert Join(parts[6..], s) == "";
    assert Join(parts[5..], s) == c + s + "";
    assert c + s + "" == c + s;
    assert Join(parts[4..], s) == "," + s + (c + s);
    assert Join(parts[3..], s) == b + s + ("," + s + (c + s));
    assert Join(parts[2..], s) == "," + s + (b + s + ("," + s + (c + s)));
    assert Join(parts[1..], s) == a + s + ("," + s + (b + s + ("," + s + (c + s))));
  }

  /** A three-cell line, cut at its quote marks. */
  lemma QuotedLine(a: string, b: string, c: string)
    ensures CsvLine([a, b, c]) == Join(["", a, ",", b, ",", c, ""], "\"")
    ensures CsvLine([a, b, c]) == "\"" + a + "\",\"" + b + "\",\"" + c + "\""
  {
    QuotedCells(a, b, c);
    QuotePieces(a, b, c);
    var q := "\"";
    var flat := q + a + "\",\"" + b + "\",\"" + c + q;
    var nested := q + (a + q + ("," + q + (b + q + ("," + q + (c + q)))));
    var quoted := Quote(a) + "," + (Quote(b) + "," + Quote(c));
    assert |flat| == |nested| == |quoted|;
    forall k | 0 <= k < |flat| ensures flat[k] == nested[k] == quoted[k] {
      var la := |a| + 1;
      var lb := la + 3 + |b|;
      if k == 0 {
      } else if k < la {
        assert flat[k] == a[k - 1] && nested[k] == a[k - 1] && quoted[k] == a[k - 1];
      } else if k < la + 3 {
      } else if k < lb {
        assert flat[k] == b[k - la - 3] && nested[k] == b[k - la - 3] && quoted[k] == b[k - la - 3];
      } else if k < lb + 3 {
      } else if k < lb + 3 + |c| {
        assert flat[k] == c[k - lb - 3] && nested[k] == c[k - lb - 3] && quoted[k] == c[k - lb - 3];
      } else {
      }
    }
  }

  /** Every line written for three safe cells reads back as those cells,
      and holds no line break. */
  lemma CsvLineRoundTrip(a: string, b: string, c: string)
    requires CsvSafe(a) && CsvSafe(b) && CsvSafe(c)
    ensures ReadCsvLine(CsvLine([a, b, c])) == Some([a, b, c])
    ensures '\n' !in CsvLine([a, b, c])
  {
    var parts: seq<string> := ["", a, ",", b, ",", c, ""];
    QuotedLine(a, b, c);
    SplitOnJoin(parts, '"');
    JoinAvoids(parts, "\"", '\n');
  }

  /** One result's line reads back as its cells and holds no line break. */
  lemma CsvRowRoundTrip(item: ResultItem)
    requires CsvSafe(OrEmpty(item.name)) && CsvSafe(OrEmpty(item.link))
    requires item.emails.Some? ==> forall j :: 0 <= j < |item.emails.value| ==> CsvSafe(item.emails.value[j])
    ensures ReadCsvLine(CsvLine(CsvCells(item))) == Some(CsvCells(item))
    ensures '\n' !in CsvLine(CsvCells(item))
  {
    if item.emails.Some? {
      JoinAvoids(item.emails.value, ";", '"');
      JoinAvoids(item.emails.value, ";", '\n');
    }
    CsvLineRoundTrip(OrEmpty(item.name), OrEmpty(item.link), EmailCell(item));
  }

  /** The CSV file reads back as the header and then, in order, the cells
      of every result, provided no cell holds a quote mark or a line break. */
  lemma CsvRoundTrip(items: seq<ResultItem>)
    requires items != []
    requires forall i :: 0 <= i < |items| ==> CsvSafe(OrEmpty(items[i].name)) && CsvSafe(OrEmpty(items[i].link))
    requires forall i, j :: 0 <= i < |items| && items[i].emails.Some? && 0 <= j < |items[i].emails.value| ==>
               CsvSafe(items[i].emails.value[j])
    ensures Csv(items).Some?
    ensures |ReadCsv(Csv(items).value)| == |items| + 1
    ensures ReadCsv(Csv(items).value)[0] == Some(CSV_HEADERS)
    ensures forall i :: 0 <= i < |items| ==> ReadCsv(Csv(items).value)[i + 1] == Some(CsvCells(items[i]))
  {
    var lines := CsvLines(items);
    CsvLineRoundTrip("Name", "Link", "Emails");
    forall k | 0 <= k < |lines|
      ensures '\n' !in lines[k]
      ensures k > 0 ==> ReadCsvLine(lines[k]) == Some(CsvCells(items[k - 1]))
    {
      if k > 0 {
        CsvRowRoundTrip(items[k - 1]);
      }
    }
    SplitOnJoin(lines, '\n');
  }

  /** The emails cell reads back, cut at ';', as the item's emails when
      there is at least one and none holds a ';'. */
  lemma EmailCellRoundTrip(item: ResultItem)
    requires item.emails.Some? && item.emails.value != []
    requires forall j :: 0 <= j < |item.emails.value| ==> ';' !in item.emails.value[j]
    ensures SplitOn(EmailCell(item), ';') == item.emails.value
  {
    SplitOnJoin(item.emails.value, ';');
  }

  /** Because quotes are not doubled, two different result lists can give
      the same file: a name holding `","` is read as two cells. */
  lemma CsvQuoteAmbiguity()
    ensures var one := [ResultItem(Some("a\",\"b"), Some("c"), None)];
            var two := [ResultItem(Some("a"), Some("b\",\"c"), None)];
            one != two && Csv(one) == Csv(two)
  {
    var one := [ResultItem(Some("a\",\"b"), Some("c"), None)];
    var two := [ResultItem(Some("a"), Some("b\",\"c"), None)];
    assert one[0].name != two[0].name;
    QuotedLine("a\",\"b", "c", "");
    QuotedLine("a", "b\",\"c", "");
    assert CsvLine(CsvCells(one[0])) == "\"a\",\"b\",\"c\",\"\"";
    assert CsvLine(CsvCells(two[0])) == "\"a\",\"b\",\"c\",\"\"";
    assert CsvLines(one) == CsvLines(two);
  }

  // ---------------------------------------------------------------------
  // Clipboard text

  /** `emails.flatMap(item => Array.isArray(item.emails) ? item.emails : [])` */
  function AllEmails(items: seq<ResultItem>): seq<string> {
    if items == [] then []
    else (if items[0].emails.Some? then items[0].emails.value else []) + AllEmails(items[1..])
  }

  /** The string `handleCopyEmails` writes to the clipboard; None when there
      are no results. */
  function CopyText(items: seq<ResultItem>): (r: Option<string>)
    ensures r.None? <==> items == []
    ensures r.Some? && AllEmails(items) == [] ==> r.value == ""
    ensures r.Some? && |AllEmails(items)| == 1 ==> r.value == AllEmails(items)[0]
  {
    if items == [] then None else Some(Join(AllEmails(items), ", "))
  }

  /** Collecting keeps the order of the results. */
  lemma {:induction false} AllEmailsAppend(a: seq<ResultItem>, b: seq<ResultItem>)
    ensures AllEmails(a + b) == AllEmails(a) + AllEmails(b)
  {
    if a != [] {
      assert (a + b)[0] == a[0] && (a + b)[1..] == a[1..] + b;
      AllEmailsAppend(a[1..], b);
    } else {
      assert a + b == b;
    }
  }

  /** An email is copied exactly when some result whose `emails` is an
      array lists it; results whose `emails` is not an array add nothing. */
  lemma {:induction false} AllEmailsMembers(items: seq<ResultItem>, e: string)
    ensures e in AllEmails(items) <==>
      exists i :: 0 <= i < |items| && items[i].emails.Some? && e in items[i].emails.value
  {
    if items != [] {
      AllEmailsMembers(items[1..], e);
      if e in AllEmails(items[1..]) {
        var i :| 0 <= i < |items[1..]| && items[1..][i].emails.Some? && e in items[1..][i].emails.value;
        assert items[i + 1] == items[1..][i];
      }
      if exists i :: 0 <= i < |items| && items[i].emails.Some? && e in items[i].emails.value {
        var i :| 0 <= i < |items| && items[i].emails.Some? && e in items[i].emails.value;
        if i > 0 {
          assert items[1..][i - 1] == items[i];
        }
      }
    }
  }

  function DropLeadingSpace(s: string): string {
    if s != [] && s[0] == ' ' then s[1..] else s
  }

  /** A reader for the clipboard text: cut at ',' and drop the space that
      follows each comma. */
  function ReadCopyText(text: string): seq<string> {
    var pieces := SplitOn(text, ',');
    [pieces[0]] + seq(|pieces| - 1, i requires 0 <= i < |pieces| - 1 => DropLeadingSpace(pieces[i + 1]))
  }

  function Spaced(parts: seq<string>): (r: seq<string>)
    ensures |r| == |parts|
  {
    seq(|parts|, i requires 0 <= i < |parts| => " " + parts[i])
  }

  lemma {:induction false} JoinCommaSpaceShift(parts: seq<string>)
    requires |parts| >= 1
    ensures " " + Join(parts, ", ") == Join(Spaced(parts), ",")
  {
    if |parts| > 1 {
      JoinCommaSpaceShift(parts[1..]);
      assert Spaced(parts)[1..] == Spaced(parts[1..]);
    }
  }

  lemma CommaSpace(a: string, x: string)
    ensures a + ", " + x == a + "," + (" " + x)
  {
    var l := a + ", " + x;
    var r := a + "," + (" " + x);
    assert |l| == |r|;
    forall k | 0 <= k < |l| ensures l[k] == r[k] {
      if k < |a| {
        assert l[k] == a[k] && r[k] == a[k];
      } else if k == |a| {
      } else if k == |a| + 1 {
      } else {
        assert l[k] == x[k - |a| - 2] && r[k] == x[k - |a| - 2];
      }
    }
  }

  lemma JoinCommaSpace(parts: seq<string>)
    requires |parts| >= 1
    ensures Join(parts, ", ") == Join([parts[0]] + Spaced(parts[1..]), ",")
  {
    var r := [parts[0]] + Spaced(parts[1..]);
    if |parts| > 1 {
      var x := Join(parts[1..], ", ");
      JoinCommaSpaceShift(parts[1..]);
      assert r[0] == parts[0] && r[1..] == Spaced(parts[1..]);
      assert Join(r, ",") == parts[0] + "," + (" " + x);
      assert Join(parts, ", ") == parts[0] + ", " + x;
      CommaSpace(parts[0], x);
    } else {
      assert r == [parts[0]];
    }
  }

  /** The clipboard text reads back as every email, in order, when there is
      at least one and none holds a comma. */
  lemma CopyTextRoundTrip(items: seq<ResultItem>)
    requires AllEmails(items) != []
    requires forall k :: 0 <= k < |AllEmails(items)| ==> ',' !in AllEmails(items)[k]
    ensures CopyText(items).Some?
    ensures ReadCopyText(CopyText(items).value) == AllEmails(items)
  {
    var es := AllEmails(items);
    assert items != [];
    var parts := [es[0]] + Spaced(es[1..]);
    JoinCommaSpace(es);
    assert forall k :: 0 <= k < |parts| ==> ',' !in parts[k] by {
      forall k | 0 <= k < |parts| ensures ',' !in parts[k] {
        if k > 0 {
          assert parts[k] == " " + es[k];
        }
      }
    }
    SplitOnJoin(parts, ',');
    var back := ReadCopyText(CopyText(items).value);
    assert |back| == |es|;
    forall k | 0 <= k < |es| ensures back[k] == es[k] {
      if k > 0 {
        assert parts[k] == " " + es[k];
        assert DropLeadingSpace(parts[k]) == es[k];
      }
    }
  }

  // ---------------------------------------------------------------------
  // The page state

  /** The React state of one `PlatformEmails` page; `platform` (from the
      URL) and `accessToken` (from the auth context) are fixed inputs. */
  class EmailSearchPage {
    const platform: string
    const accessToken: Option<string>
    var queries: seq<string>
    var countInput: Option<int>
    var creditsRemaining: Option<int>
    var emails: seq<ResultItem>
    var loading: bool

    /** The initial state: one empty keyword field, a blank count, unknown
        credits, no results. */
    constructor (platform: string, accessToken: Option<string>)
      ensures this.platform == platform && this.accessToken == accessToken
      ensures queries == [""] && countInput == None && creditsRemaining == None
      ensures emails == [] && !loading
    {
      this.platform := platform;
      this.accessToken := accessToken;
      queries := [""];
      countInput := None;
      creditsRemaining := None;
      emails := [];
      loading := false;
    }

    /** `handleAddQueryField`: one more, empty, keyword field. */
    method AddQueryField()
      modifies this
      ensures queries == old(queries) + [""]
      ensures |queries| == |old(queries)| + 1
      ensures forall i :: 0 <= i < |old(queries)| ==> queries[i] == old(queries)[i]
      ensures countInput == old(countInput) && creditsRemaining == old(creditsRemaining)
      ensures emails == old(emails) && loading == old(loading)
    {
      queries := queries + [""];
    }

    /** `handleQueryChange(index, value)`: only field `index` changes. The
        page calls it only for a rendered field, so `index` is in range. */
    method ChangeQuery(index: nat, value: string)
      requires index < |queries|
      modifies this
      ensures |queries| == |old(queries)|
      ensures queries[index] == value
      ensures forall i :: 0 <= i < |queries| && i != index ==> queries[i] == old(queries)[i]
      ensures countInput == old(countInput) && creditsRemaining == old(creditsRemaining)
      ensures emails == old(emails) && loading == old(loading)
    {
      var updated := queries;
      updated := updated[index := value];
      queries := updated;
    }

    /** The count field's `onChange`: blank input is stored as None. */
    method ChangeCount(input: Option<int>)
      modifies this
      ensures countInput == input
      ensures queries == old(queries) && creditsRemaining == old(creditsRemaining)
      ensures emails == old(emails) && loading == old(loading)
    {
      countInput := input;
    }

    /** `handleRequest`, given what `/email-find` answered (used only when a
        request is sent). Returns the request body it posted, if any. */
    method Request(response: Response<Option<seq<ResultItem>>>) returns (sent: Option<EmailFindRequest>)
      modifies this
      ensures var check := CheckRequest(accessToken, platform, old(queries), old(countInput), old(creditsRemaining));
              sent == (if check.Success? then Some(check.value) else None)
      ensures queries == old(queries) && countInput == old(countInput)
      ensures sent.None? ==>
        loading == old(loading) && emails == old(emails) && creditsRemaining == old(creditsRemaining)
      ensures sent.Some? ==> !loading
      ensures sent.Some? && response.Ok? ==>
        var results := if response.body.Some? then response.body.value else [];
        && emails == results
        && creditsRemaining == (if old(creditsRemaining).Some? && |results| > 0
                                then Some(old(creditsRemaining).value - |results|)
                                else old(creditsRemaining))
      ensures sent.Some? && !response.Ok? ==>
        emails == old(emails) && creditsRemaining == old(creditsRemaining)
      ensures !old(loading) ==> (old(FetchButtonDisabled()) <==> sent.None?)
    {
      FetchDisabledMatchesGuards(loading, accessToken, platform, queries, countInput, creditsRemaining);
      sent := None;
      if !Truthy(accessToken) {
        return;
      }
      var filtered := Keywords(queries);
      if |filtered| == 0 {
        return;
      }
      var emailCount := if countInput.None? then DEFAULT_COUNT else countInput.value;
      if emailCount < MIN_COUNT || emailCount > MAX_COUNT {
        return;
      }
      if creditsRemaining.Some? && emailCount > creditsRemaining.value {
        return;
      }
      loading := true;
      sent := Some(EmailFindRequest(BaseQuery(platform), Join(filtered, ","), emailCount));
      if response.Ok? {
        var results := if response.body.Some? then response.body.value else [];
        emails := results;
        var emailsFound := |results|;
        if creditsRemaining.Some? && emailsFound > 0 {
          creditsRemaining := Some(creditsRemaining.value - emailsFound);
        }
      }
      loading := false;
    }

    /** Whether the fetch button is disabled in the current state. */
    predicate FetchButtonDisabled()
      reads this
    {
      FetchDisabled(loading, accessToken, queries, countInput, creditsRemaining)
    }
  }
}
