/** The alert summariser of src/lib/llm.ts (`summarizeAlerts`): a bounded,
    severity-partitioned projection of a scan's alerts that is embedded in the
    prompt. The JSON text it is serialised to is not modelled; the summary is
    the sequence of entries that text encodes. */
module Summary {
  import opened Wrappers
  import opened Scanner

  /** At most this many High/Medium alerts are kept. */
  const PRIORITY_LIMIT: nat := 10
  /** At most this many Low/Informational alerts are kept. */
  const LOW_LIMIT: nat := 5
  /** Descriptions and solutions are cut to this many characters. */
  const TEXT_LIMIT: nat := 200

  /** The two risk classes the summariser keeps. */
  datatype Group = Priority | Background

  /** Exact, case-sensitive comparison with the scanner's risk strings. */
  predicate InGroup(risk: string, g: Group) {
    match g
    case Priority => risk == "High" || risk == "Medium"
    case Background => risk == "Low" || risk == "Informational"
  }

  /** One summary record: name and risk copied, texts truncated. */
  datatype SummaryEntry = SummaryEntry(alert: string, risk: string, description: string, solution: string)

  function Min(a: nat, b: nat): nat {
    if a <= b then a else b
  }

  /** `alerts.filter(...)` on the group's risk strings. */
  function Filter(alerts: seq<ScanAlert>, g: Group): (r: seq<ScanAlert>)
    ensures |r| <= |alerts|
    ensures forall j :: 0 <= j < |r| ==> InGroup(r[j].risk, g)
  {
    if alerts == [] then []
    else (if InGroup(alerts[0].risk, g) then [alerts[0]] else []) + Filter(alerts[1..], g)
  }

  /** `field?.substring(0, 200) || ""`. */
  function Truncate(field: Field): (r: string)
    ensures |r| <= TEXT_LIMIT
    ensures field.None? ==> r == ""
    ensures field.Some? ==> r <= field.value
    ensures field.Some? && |field.value| <= TEXT_LIMIT ==> r == field.value
    ensures field.Some? && |field.value| > TEXT_LIMIT ==> |r| == TEXT_LIMIT
  {
    match field
    case None => ""
    case Some(s) => s[..Min(TEXT_LIMIT, |s|)]
  }

  /** The record the summariser makes of one alert. */
  function Project(a: ScanAlert): SummaryEntry {
    SummaryEntry(a.alert, a.risk, Truncate(a.description), Truncate(a.solution))
  }

  function ProjectAll(alerts: seq<ScanAlert>): (r: seq<SummaryEntry>)
    ensures |r| == |alerts|
    ensures forall j :: 0 <= j < |r| ==> r[j] == Project(alerts[j])
  {
    seq(|alerts|, j requires 0 <= j < |alerts| => Project(alerts[j]))
  }

  /** The kept High/Medium alerts: a prefix of that class's subsequence. */
  function PriorityAlerts(alerts: seq<ScanAlert>): seq<ScanAlert> {
    var p := Filter(alerts, Priority);
    p[..Min(PRIORITY_LIMIT, |p|)]
  }

  /** The kept Low/Informational alerts: a prefix of that class's subsequence. */
  function LowAlerts(alerts: seq<ScanAlert>): seq<ScanAlert> {
    var l := Filter(alerts, Background);
    l[..Min(LOW_LIMIT, |l|)]
  }

  /** `summarizeAlerts` up to serialisation. */
  function SummarizeAlerts(scan: ScanResult): (r: seq<SummaryEntry>)
    ensures |r| <= PRIORITY_LIMIT + LOW_LIMIT
    ensures forall j :: 0 <= j < |r| ==> InGroup(r[j].risk, Priority) || InGroup(r[j].risk, Background)
    ensures forall j :: 0 <= j < |r| ==> |r[j].description| <= TEXT_LIMIT && |r[j].solution| <= TEXT_LIMIT
  {
    ProjectAll(PriorityAlerts(scan.alerts) + LowAlerts(scan.alerts))
  }

  /** Every position shifted one place to the right. */
  function Shift(s: seq<nat>): (r: seq<nat>)
    ensures |r| == |s|
    ensures forall j :: 0 <= j < |s| ==> r[j] == s[j] + 1
  {
    seq(|s|, j requires 0 <= j < |s| => s[j] + 1)
  }

  /** The input positions whose risk is in the group, in increasing order. */
  function Positions(alerts: seq<ScanAlert>, g: Group): seq<nat> {
    if alerts == [] then []
    else (if InGroup(alerts[0].risk, g) then [0] else []) + Shift(Positions(alerts[1..], g))
  }

  /** The filter's j-th alert is the input alert at the j-th group position. */
  lemma {:induction false} FilterAtPositions(alerts: seq<ScanAlert>, g: Group)
    ensures |Positions(alerts, g)| == |Filter(alerts, g)|
    ensures forall j :: 0 <= j < |Positions(alerts, g)| ==>
              Positions(alerts, g)[j] < |alerts| && alerts[Positions(alerts, g)[j]] == Filter(alerts, g)[j]
  {
    if alerts != [] {
      FilterAtPositions(alerts[1..], g);
      var rest := Positions(alerts[1..], g);
      var head: seq<nat> := if InGroup(alerts[0].risk, g) then [0] else [];
      assert Positions(alerts, g) == head + Shift(rest);
      assert Filter(alerts, g) == (if InGroup(alerts[0].risk, g) then [alerts[0]] else []) + Filter(alerts[1..], g);
    }
  }

  /** The group positions are strictly increasing, so the filter keeps the input order. */
  lemma {:induction false} PositionsIncreasing(alerts: seq<ScanAlert>, g: Group)
    ensures forall j :: 0 <= j < |Positions(alerts, g)| ==> Positions(alerts, g)[j] < |alerts|
    ensures forall j, k :: 0 <= j < k < |Positions(alerts, g)| ==> Positions(alerts, g)[j] < Positions(alerts, g)[k]
  {
    if alerts != [] {
      PositionsIncreasing(alerts[1..], g);
    }
  }

  /** A position is listed exactly when the alert there belongs to the group. */
  lemma {:induction false} PositionsComplete(alerts: seq<ScanAlert>, g: Group)
    ensures forall i :: 0 <= i < |alerts| ==> (i in Positions(alerts, g) <==> InGroup(alerts[i].risk, g))
  {
    if alerts != [] {
      PositionsComplete(alerts[1..], g);
      PositionsIncreasing(alerts[1..], g);
      var rest := Positions(alerts[1..], g);
      var head: seq<nat> := if InGroup(alerts[0].risk, g) then [0] else [];
      assert Positions(alerts, g) == head + Shift(rest);
      forall i | 0 <= i < |alerts|
        ensures i in Positions(alerts, g) <==> InGroup(alerts[i].risk, g)
      {
        if i > 0 {
          assert alerts[1..][i - 1] == alerts[i];
          if i - 1 in rest {
            var j :| 0 <= j < |rest| && rest[j] == i - 1;
            assert Shift(rest)[j] == i;
          }
          assert i in Shift(rest) ==> i - 1 in rest;
        }
      }
    }
  }

  /** The filter is exactly the group's subsequence: it picks, in increasing
      order, precisely the positions whose risk is in the group. */
  lemma FilterKeepsOrder(alerts: seq<ScanAlert>, g: Group) returns (idx: seq<nat>)
    ensures |idx| == |Filter(alerts, g)|
    ensures forall j :: 0 <= j < |idx| ==> idx[j] < |alerts| && alerts[idx[j]] == Filter(alerts, g)[j]
    ensures forall j, k :: 0 <= j < k < |idx| ==> idx[j] < idx[k]
    ensures forall i :: 0 <= i < |alerts| ==> (i in idx <==> InGroup(alerts[i].risk, g))
  {
    idx := Positions(alerts, g);
    FilterAtPositions(alerts, g);
    PositionsIncreasing(alerts, g);
    PositionsComplete(alerts, g);
  }

  /** An alert is kept by the filter exactly when it occurs in the input and
      its risk is in the group. */
  lemma FilterMembership(alerts: seq<ScanAlert>, g: Group, a: ScanAlert)
    ensures a in Filter(alerts, g) <==> a in alerts && InGroup(a.risk, g)
  {
    var idx := FilterKeepsOrder(alerts, g);
    var f := Filter(alerts, g);
    if a in f {
      var j :| 0 <= j < |f| && f[j] == a;
      assert alerts[idx[j]] == a;
    }
    if a in alerts && InGroup(a.risk, g) {
      var i :| 0 <= i < |alerts| && alerts[i] == a;
      assert i in idx;
      var j :| 0 <= j < |idx| && idx[j] == i;
      assert f[j] == a;
    }
  }

  /** Every High/Medium entry precedes every Low/Informational entry, the
      first group is the first min(10, #High/Medium) of its class in input
      order and the second the first min(5, #Low/Informational) of its class,
      each entry being the projection of its alert. */
  lemma SummaryLayout(scan: ScanResult)
    ensures var r := SummarizeAlerts(scan);
            var p := Filter(scan.alerts, Priority);
            var l := Filter(scan.alerts, Background);
            var k := Min(PRIORITY_LIMIT, |p|);
            && |r| == k + Min(LOW_LIMIT, |l|)
            && (forall j :: 0 <= j < k ==> r[j] == Project(p[j]) && InGroup(r[j].risk, Priority))
            && (forall j :: k <= j < |r| ==> r[j] == Project(l[j - k]) && InGroup(r[j].risk, Background))
  {
    var r := SummarizeAlerts(scan);
    var p := Filter(scan.alerts, Priority);
    var l := Filter(scan.alerts, Background);
    var kept := PriorityAlerts(scan.alerts);
    var low := LowAlerts(scan.alerts);
    var k := |kept|;
    assert |r| == k + |low|;
    forall j | 0 <= j < k
      ensures r[j] == Project(p[j]) && InGroup(r[j].risk, Priority)
    {
      assert (kept + low)[j] == kept[j] == p[j];
    }
    forall j | k <= j < |r|
      ensures r[j] == Project(l[j - k]) && InGroup(r[j].risk, Background)
    {
      assert (kept + low)[j] == low[j - k] == l[j - k];
    }
  }

  /** The input positions of the summarised alerts: the kept High/Medium
      positions, then the kept Low/Informational ones. */
  function SourcePositions(alerts: seq<ScanAlert>): seq<nat> {
    var p := Positions(alerts, Priority);
    var l := Positions(alerts, Background);
    p[..Min(PRIORITY_LIMIT, |p|)] + l[..Min(LOW_LIMIT, |l|)]
  }

  /** Each entry is the projection of the input alert at its source position. */
  lemma SummaryFromSources(scan: ScanResult)
    ensures var r := SummarizeAlerts(scan);
            var idx := SourcePositions(scan.alerts);
            && |idx| == |r|
            && forall j :: 0 <= j < |r| ==> idx[j] < |scan.alerts| && r[j] == Project(scan.alerts[idx[j]])
  {
    var alerts := scan.alerts;
    var p, l := Positions(alerts, Priority), Positions(alerts, Background);
    var k := Min(PRIORITY_LIMIT, |p|);
    FilterAtPositions(alerts, Priority);
    FilterAtPositions(alerts, Background);
    SummaryLayout(scan);
    var r := SummarizeAlerts(scan);
    var idx := SourcePositions(alerts);
    forall j | 0 <= j < |r|
      ensures idx[j] < |alerts| && r[j] == Project(alerts[idx[j]])
    {
      if j < k {
        assert idx[j] == p[j];
      } else {
        assert idx[j] == l[j - k];
      }
    }
  }

  /** Two increasing sequences, each cut to a prefix and joined: each part
      stays increasing and draws from its own sequence. */
  lemma JoinedPrefixes(p: seq<nat>, l: seq<nat>, k: nat, m: nat)
    requires k <= |p| && m <= |l|
    requires forall j, j' :: 0 <= j < j' < |p| ==> p[j] < p[j']
    requires forall j, j' :: 0 <= j < j' < |l| ==> l[j] < l[j']
    ensures var idx := p[..k] + l[..m];
            && |idx| == k + m
            && (forall j, j' :: 0 <= j < j' < k ==> idx[j] < idx[j'])
            && (forall j, j' :: k <= j < j' < |idx| ==> idx[j] < idx[j'])
            && (forall j :: 0 <= j < k ==> idx[j] in p)
            && (forall j :: k <= j < |idx| ==> idx[j] in l)
  {
    var idx := p[..k] + l[..m];
    forall j | 0 <= j < k
      ensures idx[j] == p[j]
    {
    }
    forall j | k <= j < |idx|
      ensures idx[j] == l[j - k]
    {
    }
  }

  /** Within each group the source positions increase, so the summary keeps
      the input order of each group, and every position holds an alert of
      the entry's group. */
  lemma SourcesInOrder(scan: ScanResult)
    ensures var idx := SourcePositions(scan.alerts);
            var k := Min(PRIORITY_LIMIT, |Filter(scan.alerts, Priority)|);
            && k <= |idx|
            && (forall j, j' :: 0 <= j < j' < k ==> idx[j] < idx[j'])
            && (forall j, j' :: k <= j < j' < |idx| ==> idx[j] < idx[j'])
            && (forall j :: 0 <= j < k ==> idx[j] in Positions(scan.alerts, Priority))
            && (forall j :: k <= j < |idx| ==> idx[j] in Positions(scan.alerts, Background))
  {
    var alerts := scan.alerts;
    var p, l := Positions(alerts, Priority), Positions(alerts, Background);
    FilterAtPositions(alerts, Priority);
    PositionsIncreasing(alerts, Priority);
    PositionsIncreasing(alerts, Background);
    JoinedPrefixes(p, l, Min(PRIORITY_LIMIT, |p|), Min(LOW_LIMIT, |l|));
  }

  /** Each entry copies its alert's name and risk and holds the leading
      min(len, 200) characters of its texts ("" when a text is absent). */
  lemma EntryFields(a: ScanAlert)
    ensures Project(a).alert == a.alert && Project(a).risk == a.risk
    ensures a.description.None? ==> Project(a).description == ""
    ensures a.description.Some? ==>
              Project(a).description == a.description.value[..Min(TEXT_LIMIT, |a.description.value|)]
    ensures a.solution.None? ==> Project(a).solution == ""
    ensures a.solution.Some? ==>
              Project(a).solution == a.solution.value[..Min(TEXT_LIMIT, |a.solution.value|)]
  {
  }
}
