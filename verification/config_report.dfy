/**
 * The text report `fetch_config` writes for the hosts a `/get-config`
 * request selects: per host a banner of 50 '=' around
 * "Configuration for {host}", then either one failure line or a line-count
 * header, a rule of 30 '-' and the running configuration line by line.
 *
 * The report is defined here as a list of lines (each written with a
 * trailing '\n'); a parser reads that list back, and the round-trip lemma
 * shows that the report keeps every host, in order, with its failure text
 * or exactly its configuration lines.
 */
module ConfigReport {
  import opened Options
  import opened Text

  /** A host's `napalm_get` result: failed with an exception, or the running config text. */
  datatype HostResult = Failed(exception: string) | Ok(running: string)

  /** One item of the aggregated result: the host's inventory name and its result. */
  datatype Entry = Entry(host: string, result: HostResult)

  /** `'=' * 50` */
  const Banner := Repeat('=', 50)
  /** `"-" * 30` */
  const Rule := Repeat('-', 30)
  const HostPrefix := "Configuration for "
  const CountPrefix := "Running Configuration ("
  const CountSuffix := " lines):"

  function HostLine(host: string): string {
    HostPrefix + host
  }

  function FailurePrefix(host: string): string {
    "Failed to get config from " + host + ": "
  }

  function CountLine(n: nat): string {
    CountPrefix + Decimal(n) + CountSuffix
  }

  lemma RuleWidths()
    ensures |Banner| == 50 && forall i :: 0 <= i < 50 ==> Banner[i] == '='
    ensures |Rule| == 30 && forall i :: 0 <= i < 30 ==> Rule[i] == '-'
  {
  }

  /** An empty line, the banner, the host line and the banner again. */
  function HeaderLines(host: string): seq<string> {
    ["", Banner, HostLine(host), Banner]
  }

  /** The lines after the header: the failure line, or the count line, the rule and the config. */
  function BodyLines(e: Entry): seq<string> {
    match e.result
    case Failed(exception) => [FailurePrefix(e.host) + exception]
    case Ok(running) =>
      var lines := SplitLines(running);
      [CountLine(|lines|), Rule] + lines
  }

  function SectionLines(e: Entry): seq<string> {
    HeaderLines(e.host) + BodyLines(e)
  }

  function ReportLines(es: seq<Entry>): seq<string> {
    if es == [] then [] else SectionLines(es[0]) + ReportLines(es[1..])
  }

  function Report(es: seq<Entry>): string {
    JoinLines(ReportLines(es))
  }

  /** What a reader of the report can tell about one host. */
  datatype Section = FailedWith(exception: string) | ConfigLines(lines: seq<string>)

  datatype Summary = Summary(host: string, section: Section)

  function Summarize(e: Entry): (s: Summary)
    ensures s.host == e.host
    ensures e.result.Failed? <==> s.section.FailedWith?
  {
    match e.result
    case Failed(exception) => Summary(e.host, FailedWith(exception))
    case Ok(running) => Summary(e.host, ConfigLines(SplitLines(running)))
  }

  function Summaries(es: seq<Entry>): (r: seq<Summary>)
    ensures |r| == |es|
    ensures forall i :: 0 <= i < |es| ==> r[i] == Summarize(es[i])
  {
    seq(|es|, i requires 0 <= i < |es| => Summarize(es[i]))
  }

  /** The number in a line-count header, if the line is one. */
  function ParseCount(line: string): Option<nat> {
    if |line| < |CountPrefix| + |CountSuffix| || !HasPrefix(line, CountPrefix)
       || line[|line| - |CountSuffix|..] != CountSuffix
    then None
    else ParseDecimal(line[|CountPrefix|..|line| - |CountSuffix|])
  }

  /**
   * Reads a report back, section by section; the count header says how
   * many configuration lines follow, so the parse is unambiguous.
   */
  function ParseReport(ls: seq<string>): Option<seq<Summary>>
    decreases |ls|
  {
    if ls == [] then Some([])
    else if |ls| < 5 || ls[0] != "" || ls[1] != Banner || ls[3] != Banner
            || !HasPrefix(ls[2], HostPrefix) then None
    else
      var host := ls[2][|HostPrefix|..];
      var fp := FailurePrefix(host);
      if HasPrefix(ls[4], fp) then
        match ParseReport(ls[5..])
        case None => None
        case Some(rest) => Some([Summary(host, FailedWith(ls[4][|fp|..]))] + rest)
      else
        match ParseCount(ls[4])
        case None => None
        case Some(n) =>
          if |ls| < 6 + n || ls[5] != Rule then None
          else match ParseReport(ls[6 + n..])
            case None => None
            case Some(rest) => Some([Summary(host, ConfigLines(ls[6..6 + n]))] + rest)
  }

  lemma CountLineRoundTrip(n: nat)
    ensures ParseCount(CountLine(n)) == Some(n)
  {
    var line := CountLine(n);
    assert line[..|CountPrefix|] == CountPrefix;
    assert line[|line| - |CountSuffix|..] == CountSuffix;
    assert line[|CountPrefix|..|line| - |CountSuffix|] == Decimal(n);
    DecimalRoundTrip(n);
  }

  lemma {:induction false} ReportLinesAppend(a: seq<Entry>, b: seq<Entry>)
    ensures ReportLines(a + b) == ReportLines(a) + ReportLines(b)
  {
    if a == [] {
      assert a + b == b;
    } else {
      var ab := a + b;
      assert ab[0] == a[0];
      assert ab[1..] == a[1..] + b;
      ReportLinesAppend(a[1..], b);
      var s := SectionLines(a[0]);
      calc {
        ReportLines(ab);
        s + ReportLines(a[1..] + b);
        s + (ReportLines(a[1..]) + ReportLines(b));
        (s + ReportLines(a[1..])) + ReportLines(b);
      }
    }
  }

  /**
   * Hosts are reported independently: the report of a list of results is
   * the report of its first part followed by that of the rest, so a failed
   * host neither stops nor alters the sections of the hosts after it.
   */
  lemma ReportAppend(a: seq<Entry>, b: seq<Entry>)
    ensures Report(a + b) == Report(a) + Report(b)
  {
    ReportLinesAppend(a, b);
    JoinLinesAppend(ReportLines(a), ReportLines(b));
  }

  lemma ReportLinesSnoc(es: seq<Entry>, i: nat)
    requires i < |es|
    ensures ReportLines(es[..i + 1]) == ReportLines(es[..i]) + SectionLines(es[i])
  {
    assert es[..i + 1] == es[..i] + [es[i]];
    ReportLinesAppend(es[..i], [es[i]]);
    assert ReportLines([es[i]]) == SectionLines(es[i]) + ReportLines([]);
  }

  /** One section read back from the front of a list of lines. */
  lemma SectionRoundTrip(e: Entry, tail: seq<string>)
    ensures ParseReport(SectionLines(e) + tail) ==
            match ParseReport(tail)
            case None => None
            case Some(rest) => Some([Summarize(e)] + rest)
  {
    var ls := SectionLines(e) + tail;
    var host := e.host;
    assert ls[0] == "" && ls[1] == Banner && ls[2] == HostLine(host) && ls[3] == Banner;
    assert ls[2][..|HostPrefix|] == HostPrefix;
    assert ls[2][|HostPrefix|..] == host;
    var fp := FailurePrefix(host);
    match e.result
    case Failed(exception) =>
      assert ls[4] == fp + exception;
      assert ls[4][..|fp|] == fp;
      assert ls[4][|fp|..] == exception;
      assert ls[5..] == tail;
    case Ok(running) =>
      var lines := SplitLines(running);
      var n := |lines|;
      assert ls[4] == CountLine(n);
      assert ls[4][0] == 'R' && fp[0] == 'F';
      assert !HasPrefix(ls[4], fp);
      CountLineRoundTrip(n);
      assert ls[5] == Rule;
      assert ls[6..6 + n] == lines;
      assert ls[6 + n..] == tail;
  }

  /** The report keeps every host, in order, with its failure text or exactly its lines. */
  lemma {:induction false} ReportLinesRoundTrip(es: seq<Entry>)
    ensures ParseReport(ReportLines(es)) == Some(Summaries(es))
  {
    if es != [] {
      ReportLinesRoundTrip(es[1..]);
      SectionRoundTrip(es[0], ReportLines(es[1..]));
      assert Summaries(es) == [Summarize(es[0])] + Summaries(es[1..]);
    }
  }

  /** Host names and failure texts without line breaks keep every report line whole. */
  predicate Readable(es: seq<Entry>) {
    forall i :: 0 <= i < |es| ==>
      '\n' !in es[i].host && (es[i].result.Failed? ==> '\n' !in es[i].result.exception)
  }

  lemma DecimalUnbroken(n: nat)
    ensures '\n' !in Decimal(n)
  {
  }

  /** No line of the list holds a line break. */
  predicate Unbroken(ls: seq<string>) {
    forall j :: 0 <= j < |ls| ==> '\n' !in ls[j]
  }

  lemma BannerUnbroken()
    ensures '\n' !in Banner && '\n' !in Rule
  {
    RuleWidths();
  }

  lemma HeaderLinesUnbroken(host: string)
    requires '\n' !in host
    ensures Unbroken(HeaderLines(host))
  {
    BannerUnbroken();
    assert '\n' !in HostLine(host);
  }

  lemma CountLineUnbroken(n: nat)
    ensures '\n' !in CountLine(n)
  {
    DecimalUnbroken(n);
    assert '\n' !in CountPrefix && '\n' !in CountSuffix;
  }

  lemma FailureLineUnbroken(host: string, exception: string)
    requires '\n' !in host && '\n' !in exception
    ensures '\n' !in FailurePrefix(host) + exception
  {
  }

  lemma UnbrokenAppend(a: seq<string>, b: seq<string>)
    requires Unbroken(a) && Unbroken(b)
    ensures Unbroken(a + b)
  {
    forall j | 0 <= j < |a + b|
      ensures '\n' !in (a + b)[j]
    {
      if j < |a| { assert (a + b)[j] == a[j]; } else { assert (a + b)[j] == b[j - |a|]; }
    }
  }

  lemma BodyLinesUnbroken(e: Entry)
    requires '\n' !in e.host && (e.result.Failed? ==> '\n' !in e.result.exception)
    ensures Unbroken(BodyLines(e))
  {
    match e.result
    case Failed(exception) =>
      FailureLineUnbroken(e.host, exception);
    case Ok(running) =>
      var lines := SplitLines(running);
      CountLineUnbroken(|lines|);
      BannerUnbroken();
      UnbrokenAppend([CountLine(|lines|), Rule], lines);
  }

  lemma SectionLinesUnbroken(e: Entry)
    requires '\n' !in e.host && (e.result.Failed? ==> '\n' !in e.result.exception)
    ensures Unbroken(SectionLines(e))
  {
    HeaderLinesUnbroken(e.host);
    BodyLinesUnbroken(e);
    UnbrokenAppend(HeaderLines(e.host), BodyLines(e));
  }

  lemma {:induction false} ReportLinesUnbroken(es: seq<Entry>)
    requires Readable(es)
    ensures Unbroken(ReportLines(es))
  {
    if es != [] {
      SectionLinesUnbroken(es[0]);
      assert Readable(es[1..]) by {
        forall i | 0 <= i < |es[1..]|
          ensures '\n' !in es[1..][i].host
          ensures es[1..][i].result.Failed? ==> '\n' !in es[1..][i].result.exception
        {
          assert es[1..][i] == es[i + 1];
        }
      }
      ReportLinesUnbroken(es[1..]);
    }
  }

  /** The report text, split at its line breaks, reads back to the same hosts and sections. */
  lemma ReportRoundTrip(es: seq<Entry>)
    requires Readable(es)
    ensures ParseReport(SplitLines(Report(es))) == Some(Summaries(es))
  {
    ReportLinesUnbroken(es);
    SplitJoin(ReportLines(es));
    ReportLinesRoundTrip(es);
  }

  /** Every host of the result list gets its "Configuration for" line. */
  lemma {:induction false} HostLineReported(es: seq<Entry>, k: nat)
    requires k < |es|
    ensures HostLine(es[k].host) in ReportLines(es)
  {
    assert SectionLines(es[0])[2] == HostLine(es[0].host);
    if k > 0 {
      HostLineReported(es[1..], k - 1);
    }
  }
}
