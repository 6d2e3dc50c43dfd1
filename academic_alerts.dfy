/** The "Alertas Académicas" panel: the unresolved alerts of the selected
    period, most severe first, at most five. */
module AcademicAlerts {
  import opened Wrappers
  import opened Seqs
  import opened Sorting
  import opened Data
  import opened Store

  /** `severityOrder`: critical 0, high 1, medium 2, low 3. */
  function SeverityRank(s: Severity): (r: int)
    ensures 0 <= r <= 3
  {
    match s
    case Critical => 0
    case High => 1
    case Medium => 2
    case Low => 3
  }

  /** The four severities get four different ranks. */
  lemma SeverityRankInjective(s: Severity, t: Severity)
    ensures SeverityRank(s) == SeverityRank(t) ==> s == t
  {
  }

  function AlertRank(a: StudentRiskAlert): int {
    SeverityRank(a.severity)
  }

  /** An alert the panel may show: in the selected period and not resolved. */
  predicate OpenAlert(a: StudentRiskAlert, selected: Option<string>) {
    SamePeriod(a.periodId, selected) && !a.resolved
  }

  function OpenAlerts(alerts: seq<StudentRiskAlert>, selected: Option<string>): seq<StudentRiskAlert> {
    Filter(alerts, a => OpenAlert(a, selected))
  }

  /** `activeAlerts`: filter, stable sort by severity rank, first five. */
  function ActiveAlerts(alerts: seq<StudentRiskAlert>, selected: Option<string>): (r: seq<StudentRiskAlert>)
    ensures |r| <= 5
  {
    Take(SortByKey(OpenAlerts(alerts, selected), AlertRank), 5)
  }

  /** Every alert shown is a pending alert of the store, each shown at most
      as often as it is stored. */
  lemma ActiveAlertsAreOpen(alerts: seq<StudentRiskAlert>, selected: Option<string>)
    ensures forall i :: 0 <= i < |ActiveAlerts(alerts, selected)| ==> OpenAlert(ActiveAlerts(alerts, selected)[i], selected)
    ensures multiset(ActiveAlerts(alerts, selected)) <= multiset(alerts)
  {
    var q := OpenAlerts(alerts, selected);
    var r := ActiveAlerts(alerts, selected);
    TopByKey(q, AlertRank, 5);
    forall i | 0 <= i < |r|
      ensures OpenAlert(r[i], selected)
    {
      assert r[i] in multiset(q);
    }
  }

  /** The panel lists the critical pending alerts, then the high, medium and
      low ones, each group in stored order, cut after five. */
  lemma ActiveAlertsByRank(alerts: seq<StudentRiskAlert>, selected: Option<string>)
    ensures var q := OpenAlerts(alerts, selected);
      ActiveAlerts(alerts, selected)
      == Take(KeyBucket(q, AlertRank, 0) + KeyBucket(q, AlertRank, 1)
              + KeyBucket(q, AlertRank, 2) + KeyBucket(q, AlertRank, 3), 5)
  {
    var q := OpenAlerts(alerts, selected);
    SortIsBuckets(q, AlertRank, 0, 3);
    FourBuckets(q);
  }

  lemma FourBuckets(q: seq<StudentRiskAlert>)
    ensures Buckets(q, AlertRank, 0, 3)
         == KeyBucket(q, AlertRank, 0) + KeyBucket(q, AlertRank, 1)
            + KeyBucket(q, AlertRank, 2) + KeyBucket(q, AlertRank, 3)
  {
    var b0, b1, b2, b3 := KeyBucket(q, AlertRank, 0), KeyBucket(q, AlertRank, 1),
      KeyBucket(q, AlertRank, 2), KeyBucket(q, AlertRank, 3);
    assert Buckets(q, AlertRank, 4, 3) == [];
    assert Buckets(q, AlertRank, 3, 3) == b3;
    assert Buckets(q, AlertRank, 0, 3) == b0 + (b1 + (b2 + b3));
  }

  /** Most severe first; alerts of one severity keep their stored order (the
      shown ones of each severity are the first ones of that severity); and
      no pending alert left out is strictly more severe than one shown. */
  lemma ActiveAlertsOrder(alerts: seq<StudentRiskAlert>, selected: Option<string>, k: int)
    ensures SortedByKey(ActiveAlerts(alerts, selected), AlertRank)
    ensures KeyBucket(ActiveAlerts(alerts, selected), AlertRank, k)
         <= KeyBucket(OpenAlerts(alerts, selected), AlertRank, k)
    ensures forall i :: (0 <= i < |alerts| && OpenAlert(alerts[i], selected)
              && alerts[i] !in ActiveAlerts(alerts, selected)) ==>
              forall j :: 0 <= j < |ActiveAlerts(alerts, selected)| ==>
                AlertRank(ActiveAlerts(alerts, selected)[j]) <= AlertRank(alerts[i])
  {
    ActiveAlertsSorted(alerts, selected);
    ActiveAlertsStable(alerts, selected, k);
    ActiveAlertsCutoff(alerts, selected);
  }

  lemma ActiveAlertsSorted(alerts: seq<StudentRiskAlert>, selected: Option<string>)
    ensures SortedByKey(ActiveAlerts(alerts, selected), AlertRank)
  {
    TopByKey(OpenAlerts(alerts, selected), AlertRank, 5);
  }

  lemma ActiveAlertsStable(alerts: seq<StudentRiskAlert>, selected: Option<string>, k: int)
    ensures KeyBucket(ActiveAlerts(alerts, selected), AlertRank, k)
         <= KeyBucket(OpenAlerts(alerts, selected), AlertRank, k)
  {
    var q := OpenAlerts(alerts, selected);
    var sorted := SortByKey(q, AlertRank);
    BucketOfPrefix(sorted, |ActiveAlerts(alerts, selected)|, AlertRank, k);
    SortIsStable(q, AlertRank, k);
  }

  lemma ActiveAlertsCutoff(alerts: seq<StudentRiskAlert>, selected: Option<string>)
    ensures forall i :: (0 <= i < |alerts| && OpenAlert(alerts[i], selected)
              && alerts[i] !in ActiveAlerts(alerts, selected)) ==>
              forall j :: 0 <= j < |ActiveAlerts(alerts, selected)| ==>
                AlertRank(ActiveAlerts(alerts, selected)[j]) <= AlertRank(alerts[i])
  {
    var q := OpenAlerts(alerts, selected);
    var r := ActiveAlerts(alerts, selected);
    TopByKey(q, AlertRank, 5);
    forall i | 0 <= i < |alerts| && OpenAlert(alerts[i], selected) && alerts[i] !in r
      ensures forall j :: 0 <= j < |r| ==> AlertRank(r[j]) <= AlertRank(alerts[i])
    {
      var m :| 0 <= m < |q| && q[m] == alerts[i];
    }
  }

  /** With no period selected the panel is empty. */
  lemma NoPeriodNoAlerts(alerts: seq<StudentRiskAlert>)
    ensures ActiveAlerts(alerts, None) == []
  {
    FilterDropsAll(alerts, a => OpenAlert(a, None));
  }

  /** Once the store holds a resolved copy under an id, no alert with that id
      is left on the panel. */
  lemma ResolvedAlertLeavesPanel(alerts: seq<StudentRiskAlert>, id: string, u: StudentRiskAlert,
                                 selected: Option<string>)
    requires u.resolved
    ensures forall i :: 0 <= i < |ActiveAlerts(Replaced(alerts, StudentRiskAlertId, id, Success(u)), selected)| ==>
              ActiveAlerts(Replaced(alerts, StudentRiskAlertId, id, Success(u)), selected)[i].id != id
  {
    var stored := Replaced(alerts, StudentRiskAlertId, id, Success(u));
    var r := ActiveAlerts(stored, selected);
    forall i | 0 <= i < |r|
      ensures r[i].id != id
    {
      assert r[i] in multiset(stored);
      var m :| 0 <= m < |stored| && stored[m] == r[i];
    }
  }

  /** `getSeverityBadge`. */
  function SeverityBadge(s: Severity): (r: string)
    ensures r == "Crítico" <==> s == Severity.Critical
    ensures r == "Alto" <==> s == Severity.High
    ensures r == "Medio" <==> s == Severity.Medium
    ensures r == "Bajo" <==> s == Severity.Low
  {
    match s
    case Critical => "Crítico"
    case High => "Alto"
    case Medium => "Medio"
    case Low => "Bajo"
  }

  /** `getTypeBadge`: behaviour alerts have no label of their own. */
  function AlertTypeBadge(t: AlertType): (r: string)
    ensures r == "Asistencia" <==> t == AttendanceAlert
    ensures r == "Calificaciones" <==> t == GradesAlert
    ensures r == "Abandono" <==> t == DropoutRiskAlert
    ensures r == "Otro" <==> t == BehaviorAlert
  {
    match t
    case AttendanceAlert => "Asistencia"
    case GradesAlert => "Calificaciones"
    case DropoutRiskAlert => "Abandono"
    case BehaviorAlert => "Otro"
  }
}
