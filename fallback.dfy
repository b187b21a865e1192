/** `generateFallbackAnalysis` of src/lib/llm.ts: the local plain-text report
    built when no model produced an analysis. `FallbackReport` is the text as a
    function of the scan; the method builds it by appending, as the source does. */
module Fallback {
  import opened Wrappers
  import opened Text
  import opened Scanner

  const TITLE: string := "Security Analysis for "
  /** The three notice lines after the title. */
  const NOTICE: string :=
    "\U{26A0}\U{FE0F}  Note: AI-powered analysis is currently unavailable due to API quota limits.\n"
    + "Please wait a few minutes for the quota to reset, or upgrade your Gemini API plan.\n"
    + "Showing local summary based on ZAP scan results:\n\n"
  const NO_VULNERABILITIES: string := "\U{2713} No vulnerabilities were found during the scan. Good job!"
  /** `n` hyphens. */
  function Hyphens(n: nat): (s: string)
    ensures |s| == n && forall k :: 0 <= k < n ==> s[k] == '-'
  {
    if n == 0 then "" else Hyphens(n - 1) + "-"
  }

  /** The rule closing each block: fifty hyphens. */
  const SEPARATOR: string := Hyphens(50)

  /** How a template literal renders an alert text; an absent one prints as "undefined". */
  function Render(field: Field): string {
    match field
    case Some(s) => s
    case None => "undefined"
  }

  /** The title line and the notice. */
  function Header(url: string): string {
    TITLE + url + "\n\n" + NOTICE
  }

  function CountLine(n: nat): string {
    "Found " + DecimalString(n) + " potential security issue(s):\n\n"
  }

  /** The numbered title line of a block. */
  function TitleLine(number: nat, a: ScanAlert): string {
    DecimalString(number) + ". " + a.alert + " (" + a.risk + " Risk)\n"
  }

  function DescriptionPart(a: ScanAlert): string {
    "\n   Description:\n   " + Render(a.description) + "\n"
  }

  function SolutionPart(a: ScanAlert): string {
    "\n   Solution:\n   " + Render(a.solution) + "\n"
  }

  const RULE: string := "\n" + SEPARATOR + "\n\n"

  /** The block for the alert numbered `number` (1-based): the four appends of one iteration. */
  function Block(number: nat, a: ScanAlert): string {
    TitleLine(number, a) + DescriptionPart(a) + SolutionPart(a) + RULE
  }

  /** The texts `block(first, alerts[0])`, `block(first + 1, alerts[1])`, …
      laid end to end. */
  function Joined(alerts: seq<ScanAlert>, first: nat, block: (nat, ScanAlert) -> string): string {
    if alerts == [] then "" else block(first, alerts[0]) + Joined(alerts[1..], first + 1, block)
  }

  /** The blocks of `alerts`, numbered from `first` on, in input order. */
  function Blocks(alerts: seq<ScanAlert>, first: nat): string {
    Joined(alerts, first, Block)
  }

  /** What follows the header: the "no vulnerabilities" line, or the count
      line and one block per alert. */
  function Body(alerts: seq<ScanAlert>): string {
    if |alerts| == 0 then NO_VULNERABILITIES else CountLine(|alerts|) + Blocks(alerts, 1)
  }

  /** The whole local report. */
  function FallbackReport(scan: ScanResult): string {
    Header(scan.url) + Body(scan.alerts)
  }

  /** Joining two runs joins each, the second numbered on from the first. */
  lemma {:induction false} JoinedAppend(s: seq<ScanAlert>, t: seq<ScanAlert>, first: nat,
                                        block: (nat, ScanAlert) -> string)
    ensures Joined(s + t, first, block) == Joined(s, first, block) + Joined(t, first + |s|, block)
    decreases |s|
  {
    if s == [] {
      assert s + t == t;
    } else {
      assert (s + t)[0] == s[0];
      assert (s + t)[1..] == s[1..] + t;
      JoinedAppend(s[1..], t, first + 1, block);
      AppendAssoc(block(first, s[0]), Joined(s[1..], first + 1, block), Joined(t, first + |s|, block));
    }
  }

  /** The blocks of two runs of alerts are the blocks of each, the second run
      numbered on from the first. */
  lemma BlocksAppend(s: seq<ScanAlert>, t: seq<ScanAlert>, first: nat)
    ensures Blocks(s + t, first) == Blocks(s, first) + Blocks(t, first + |s|)
  {
    JoinedAppend(s, t, first, Block);
  }

  /** Appending one alert adds its block, numbered after the ones before it. */
  lemma BlocksSnoc(alerts: seq<ScanAlert>, a: ScanAlert, first: nat)
    ensures Blocks(alerts + [a], first) == Blocks(alerts, first) + Block(first + |alerts|, a)
  {
    var number := first + |alerts|;
    BlocksAppend(alerts, [a], first);
    assert [a][1..] == [];
    assert Joined([a], number, Block) == Block(number, a) + Joined([], number + 1, Block);
    assert Block(number, a) + "" == Block(number, a);
  }

  /** The blocks split around any one alert: the block of alert `i` is numbered
      `first + i` and stands between the blocks of the alerts before and after it. */
  lemma BlocksSplit(alerts: seq<ScanAlert>, first: nat, i: nat)
    requires i < |alerts|
    ensures Blocks(alerts, first)
            == Blocks(alerts[..i], first) + Block(first + i, alerts[i]) + Blocks(alerts[i + 1..], first + i + 1)
  {
    var pre, post := alerts[..i], alerts[i + 1..];
    var rest := [alerts[i]] + post;
    assert alerts == pre + rest;
    BlocksAppend(pre, rest, first);
    assert rest[0] == alerts[i] && rest[1..] == post;
    assert Blocks(rest, first + i) == Block(first + i, alerts[i]) + Blocks(post, first + i + 1);
    AppendAssoc(Blocks(pre, first), Block(first + i, alerts[i]), Blocks(post, first + i + 1));
  }

  /** `generateFallbackAnalysis(scanResult)`: the header, then either the
      "no vulnerabilities" line or the count line and the blocks. */
  method GenerateFallbackAnalysis(scan: ScanResult) returns (analysis: string)
    ensures analysis == FallbackReport(scan)
  {
    analysis := TITLE + scan.url + "\n\n";
    analysis := analysis + NOTICE;
    if |scan.alerts| == 0 {
      analysis := analysis + NO_VULNERABILITIES;
      return;
    }
    analysis := analysis + CountLine(|scan.alerts|);
    analysis := AppendBlocks(analysis, scan.alerts);
    AppendAssoc(Header(scan.url), CountLine(|scan.alerts|), Blocks(scan.alerts, 1));
  }

  /** The `forEach` of `generateFallbackAnalysis`: four appends per alert, in
      input order, numbering from 1. */
  method AppendBlocks(start: string, alerts: seq<ScanAlert>) returns (analysis: string)
    ensures analysis == start + Blocks(alerts, 1)
  {
    analysis := start;
    assert alerts[..0] == [];
    for index := 0 to |alerts|
      invariant analysis == start + Blocks(alerts[..index], 1)
    {
      var alert := alerts[index];
      ghost var before := analysis;
      analysis := analysis + TitleLine(index + 1, alert);
      analysis := analysis + DescriptionPart(alert);
      analysis := analysis + SolutionPart(alert);
      analysis := analysis + RULE;
      BlockAppended(before, index + 1, alert);
      TakeOneMore(alerts, index);
      BlocksSnoc(alerts[..index], alert, 1);
      AppendAssoc(start, Blocks(alerts[..index], 1), Block(index + 1, alert));
    }
    assert alerts[..|alerts|] == alerts;
  }

  /** The four appends of one iteration add one block. */
  lemma BlockAppended(s: string, number: nat, a: ScanAlert)
    ensures s + TitleLine(number, a) + DescriptionPart(a) + SolutionPart(a) + RULE == s + Block(number, a)
  {
    var t, d, o := TitleLine(number, a), DescriptionPart(a), SolutionPart(a);
    AppendAssoc(s, t, d);
    AppendAssoc(s, t + d, o);
    AppendAssoc(s, t + d + o, RULE);
  }

  /** The report always opens with "Security Analysis for <url>". */
  lemma ReportStartsWithUrl(scan: ScanResult)
    ensures TITLE + scan.url <= FallbackReport(scan)
  {
    var front := TITLE + scan.url;
    var header := front + "\n\n" + NOTICE;
    PrefixOfAppend(front, "\n\n");
    PrefixOfAppend(front + "\n\n", NOTICE);
    PrefixOfAppend(header, Body(scan.alerts));
  }

  /** With no alerts the report is the header followed by the
      "no vulnerabilities" line, and ends with it. */
  lemma ReportWithoutAlerts(scan: ScanResult)
    requires |scan.alerts| == 0
    ensures var r := FallbackReport(scan);
            && |r| >= |NO_VULNERABILITIES|
            && r[|r| - |NO_VULNERABILITIES|..] == NO_VULNERABILITIES
            && r[..|r| - |NO_VULNERABILITIES|] == Header(scan.url)
  {
  }

  /** With alerts, the report states their number and then holds, for each
      index i in input order, the block numbered i + 1 with that alert's name,
      risk and full texts: everything before it is the header, the count line
      and the blocks of the earlier alerts. */
  lemma ReportBlockAt(scan: ScanResult, i: nat)
    requires i < |scan.alerts|
    ensures var n := |scan.alerts|;
            FallbackReport(scan)
            == Header(scan.url) + CountLine(n) + Blocks(scan.alerts[..i], 1)
               + Block(i + 1, scan.alerts[i]) + Blocks(scan.alerts[i + 1..], i + 2)
  {
    var n := |scan.alerts|;
    var pre, post := Blocks(scan.alerts[..i], 1), Blocks(scan.alerts[i + 1..], i + 2);
    var block := Block(i + 1, scan.alerts[i]);
    BlocksSplit(scan.alerts, 1, i);
    assert Body(scan.alerts) == CountLine(n) + (pre + block + post);
    AppendAssoc(CountLine(n), pre + block, post);
    AppendAssoc(CountLine(n), pre, block);
    AppendAssoc(Header(scan.url), CountLine(n) + pre + block, post);
    AppendAssoc(Header(scan.url), CountLine(n) + pre, block);
    AppendAssoc(Header(scan.url), CountLine(n), pre);
  }

  /** A prefix one longer is the prefix with the next element appended. */
  lemma TakeOneMore<T>(s: seq<T>, i: nat)
    requires i < |s|
    ensures s[..i + 1] == s[..i] + [s[i]]
  {
  }
}
