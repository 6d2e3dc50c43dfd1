/** The "Resumen de Abandonos" card: the selected period's withdrawals, the
    four most frequent reasons, and the first three records with a badge. */
module WithdrawalSummary {
  import opened Wrappers
  import opened Seqs
  import opened Tally
  import opened Data
  import opened Store

  /** `periodWithdrawals`. */
  function PeriodWithdrawals(withdrawals: seq<Withdrawal>, selected: Option<string>): (r: seq<Withdrawal>)
    ensures forall i :: 0 <= i < |r| ==> SamePeriod(r[i].periodId, selected)
    ensures forall i :: 0 <= i < |withdrawals| && SamePeriod(withdrawals[i].periodId, selected) ==> withdrawals[i] in r
    ensures selected == None ==> r == []
  {
    var r := Filter(withdrawals, (w: Withdrawal) => SamePeriod(w.periodId, selected));
    if selected == None then FilterDropsAll(withdrawals, (w: Withdrawal) => SamePeriod(w.periodId, selected)); r else r
  }

  function ReasonOf(w: Withdrawal): WithdrawalReason {
    w.reason
  }

  /** The reason of every period withdrawal, in stored order. */
  function PeriodReasons(withdrawals: seq<Withdrawal>, selected: Option<string>): seq<WithdrawalReason> {
    Map(PeriodWithdrawals(withdrawals, selected), ReasonOf)
  }

  /** The `forEach` loop that fills `reasonCounts`. */
  method ReasonCounts(withdrawals: seq<Withdrawal>, selected: Option<string>)
    returns (counts: map<WithdrawalReason, nat>, order: seq<WithdrawalReason>)
    ensures counts == TallyOf(PeriodReasons(withdrawals, selected))
    ensures order == Distinct(PeriodReasons(withdrawals, selected))
  {
    counts, order := CountBy(PeriodReasons(withdrawals, selected));
  }

  /** The number of period withdrawals given for one reason. */
  function WithdrawalsFor(withdrawals: seq<Withdrawal>, selected: Option<string>, reason: WithdrawalReason): nat {
    Count(PeriodWithdrawals(withdrawals, selected), (w: Withdrawal) => w.reason == reason)
  }

  /** Each reason's count is the number of period withdrawals given for it. */
  lemma ReasonOccurrences(withdrawals: seq<Withdrawal>, selected: Option<string>, reason: WithdrawalReason)
    ensures Occurrences(PeriodReasons(withdrawals, selected), reason) == WithdrawalsFor(withdrawals, selected, reason)
  {
    OccurrencesOfMap(PeriodWithdrawals(withdrawals, selected), ReasonOf, reason,
                     (w: Withdrawal) => w.reason == reason);
  }

  /** The entries of `reasonCounts` name each reason once, with a count of at
      least one, and the counts add up to the number of period withdrawals. */
  lemma ReasonCountsSum(withdrawals: seq<Withdrawal>, selected: Option<string>)
    ensures var es := Entries(PeriodReasons(withdrawals, selected));
      DistinctKeys(es) && (forall i :: 0 <= i < |es| ==> es[i].1 >= 1)
      && SumCounts(es) == |PeriodWithdrawals(withdrawals, selected)|
  {
    EntriesAreTally(PeriodReasons(withdrawals, selected));
    EntriesSum(PeriodReasons(withdrawals, selected));
  }

  /** One tile of "Principales causas". */
  datatype ReasonRow = ReasonRow(reason: WithdrawalReason, reasonLabel: string, count: nat)

  function RowOf(e: (WithdrawalReason, nat)): ReasonRow {
    ReasonRow(e.0, ReasonLabel(e.0), e.1)
  }

  /** `topReasons`: the four most frequent reasons, with their labels. */
  function TopReasons(withdrawals: seq<Withdrawal>, selected: Option<string>): (rows: seq<ReasonRow>)
    ensures |rows| == Min(4, |Distinct(PeriodReasons(withdrawals, selected))|)
    ensures forall i :: 0 <= i < |rows| ==> rows[i].reasonLabel == ReasonLabel(rows[i].reason)
  {
    RankingOfTally(PeriodReasons(withdrawals, selected), 4);
    Map(TopByCount(Entries(PeriodReasons(withdrawals, selected)), 4), RowOf)
  }

  /** Different reasons, each with its true count (at least one), counts
      non-increasing. */
  lemma TopReasonsFacts(withdrawals: seq<Withdrawal>, selected: Option<string>)
    ensures var rows := TopReasons(withdrawals, selected);
      (forall i, j :: 0 <= i < j < |rows| ==> rows[i].reason != rows[j].reason && rows[i].count >= rows[j].count)
      && (forall i :: 0 <= i < |rows| ==>
            rows[i].count >= 1 && rows[i].count == WithdrawalsFor(withdrawals, selected, rows[i].reason))
  {
    var rows := TopReasons(withdrawals, selected);
    var reasons := PeriodReasons(withdrawals, selected);
    RankingOfTally(reasons, 4);
    forall i | 0 <= i < |rows|
      ensures rows[i].count == WithdrawalsFor(withdrawals, selected, rows[i].reason)
    {
      ReasonOccurrences(withdrawals, selected, rows[i].reason);
    }
  }

  /** No reason left out is more frequent than any reason shown. */
  lemma TopReasonsCutoff(withdrawals: seq<Withdrawal>, selected: Option<string>, reason: WithdrawalReason)
    requires WithdrawalsFor(withdrawals, selected, reason) >= 1
    requires forall i :: 0 <= i < |TopReasons(withdrawals, selected)| ==> TopReasons(withdrawals, selected)[i].reason != reason
    ensures forall j :: 0 <= j < |TopReasons(withdrawals, selected)| ==>
              WithdrawalsFor(withdrawals, selected, reason) <= TopReasons(withdrawals, selected)[j].count
  {
    var reasons := PeriodReasons(withdrawals, selected);
    var top := TopByCount(Entries(reasons), 4);
    var rows := TopReasons(withdrawals, selected);
    assert rows == Map(top, RowOf);
    forall i | 0 <= i < |top|
      ensures top[i].0 != reason
    {
      assert rows[i] == RowOf(top[i]);
    }
    ReasonOccurrences(withdrawals, selected, reason);
    assert reason in reasons;
    RankingOmitsNoLarger(reasons, 4, reason);
    forall j | 0 <= j < |rows|
      ensures WithdrawalsFor(withdrawals, selected, reason) <= rows[j].count
    {
      assert rows[j] == RowOf(top[j]);
    }
  }

  /** `recentWithdrawals`: the first three period withdrawals in stored
      order; there is no sort by date. */
  function RecentWithdrawals(withdrawals: seq<Withdrawal>, selected: Option<string>): (r: seq<Withdrawal>)
    ensures |r| == if |PeriodWithdrawals(withdrawals, selected)| < 3 then |PeriodWithdrawals(withdrawals, selected)| else 3
    ensures r == PeriodWithdrawals(withdrawals, selected)[..|r|]
  {
    Take(PeriodWithdrawals(withdrawals, selected), 3)
  }

  datatype BadgeVariant = Destructive | Secondary

  /** The badge of a recent withdrawal: "Temporal" only for temporary ones,
      "Definitiva" for every other type; destructive only for high risk. */
  function Badge(w: Withdrawal): (b: (string, BadgeVariant))
    ensures b.0 == "Temporal" <==> w.withdrawalType == Temporary
    ensures b.0 == "Definitiva" <==> w.withdrawalType != Temporary
    ensures b.1 == Destructive <==> w.riskLevel == RiskLevel.High
  {
    (if w.withdrawalType == Temporary then "Temporal" else "Definitiva",
     if w.riskLevel == RiskLevel.High then Destructive else Secondary)
  }

  datatype ReasonIcon = DollarSign | TrendingDownIcon | Heart | Briefcase | BookX | HelpCircle

  /** `getReasonIcon`: five reasons have an icon; the rest fall back to the
      help icon. */
  function IconFor(r: WithdrawalReason): (icon: ReasonIcon)
    ensures icon == HelpCircle <==> r in {Family, Relocation, ScheduleConflict, Other}
  {
    match r
    case Economic => DollarSign
    case AcademicPerformance => TrendingDownIcon
    case Health => Heart
    case Work => Briefcase
    case LackOfInterest => BookX
    case _ => HelpCircle
  }
}
