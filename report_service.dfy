/**
 * The nightly report job: for every admin, in the order the admin table
 * lists them, fold the issues of that admin's channels into fresh counters
 * and append one daily report.
 */
module ReportService {
  import opened Wrappers
  import opened Store

  /** A `dailyReport` row. */
  datatype DailyReport = DailyReport(adminId: string, solved: nat, unsolved: nat, waterLost: real, avgSolveTime: real)

  /** The report for `adminId` computed from the channels fetched for that admin. */
  function ReportOf(adminId: string, channels: seq<Channel>): (d: DailyReport)
    ensures d.adminId == adminId
    ensures d.solved + d.unsolved == |Flatten(channels)|
    ensures d.solved == 0 ==> d.avgSolveTime == 0.0
  {
    var t := Fold(Flatten(channels));
    DailyReport(adminId, t.solved, t.unsolved, t.waterLost, Average(t.solveWholeHours as real, t.solved))
  }

  /** The report the job writes for one admin over the channel table. */
  function ReportFor(adminId: string, table: seq<Channel>): DailyReport
  {
    ReportOf(adminId, OwnedBy(table, adminId))
  }

  /** The reports for a list of admins, one each, in the same order. */
  function ReportsFor(admins: seq<Admin>, table: seq<Channel>): (rs: seq<DailyReport>)
    ensures |rs| == |admins|
    ensures forall k :: 0 <= k < |admins| ==> rs[k] == ReportFor(admins[k].id, table)
  {
    if admins == [] then []
    else ReportsFor(admins[..|admins| - 1], table) + [ReportFor(admins[|admins| - 1].id, table)]
  }

  /**
   * The counters are reset for each admin: channels of other admins, added
   * before or after in the table, do not change an admin's report.
   */
  lemma ReportIgnoresOtherAdmins(adminId: string, table: seq<Channel>, before: seq<Channel>, after: seq<Channel>)
    requires forall c :: c in before + after ==> c.adminId != adminId
    ensures ReportFor(adminId, before + table + after) == ReportFor(adminId, table)
  {
    OwnedByAppend(before + table, after, adminId);
    OwnedByAppend(before, table, adminId);
    OwnedByNone(before, adminId);
    OwnedByNone(after, adminId);
    assert OwnedBy(before + table + after, adminId) == OwnedBy(table, adminId);
  }

  /** The two nested loops for one admin: counters start at zero and run over every issue of every channel. */
  method CountAdmin(adminId: string, channels: seq<Channel>) returns (d: DailyReport)
    ensures d == ReportOf(adminId, channels)
    ensures d.solved + d.unsolved == |Flatten(channels)|
  {
    var solved, unsolved, totalWaterLost, totalSolveTime, resolvedIssues := 0, 0, 0.0, 0, 0;
    for i := 0 to |channels|
      invariant var t := Fold(Flatten(channels[..i]));
        t.solved == solved && t.unsolved == unsolved && t.waterLost == totalWaterLost &&
        t.solveWholeHours == totalSolveTime
      invariant resolvedIssues == solved
    {
      var channel := channels[i];
      ghost var solved0, unsolved0, waterLost0, solveTime0 := solved, unsolved, totalWaterLost, totalSolveTime;
      for j := 0 to |channel.issues|
        invariant var ct := Fold(channel.issues[..j]);
          solved == solved0 + ct.solved && unsolved == unsolved0 + ct.unsolved &&
          totalWaterLost == waterLost0 + ct.waterLost && totalSolveTime == solveTime0 + ct.solveWholeHours
        invariant resolvedIssues == solved
      {
        var issue := channel.issues[j];
        FoldSnoc(channel.issues[..j], issue);
        assert channel.issues[..j + 1] == channel.issues[..j] + [issue];
        if issue.status == Solved {
          solved := solved + 1;
          var timeTaken := WholeHours(issue.elapsedMs);
          totalSolveTime := totalSolveTime + timeTaken;
          resolvedIssues := resolvedIssues + 1;
        } else {
          unsolved := unsolved + 1;
        }
        totalWaterLost := totalWaterLost + issue.waterLost;
      }
      assert channel.issues[..|channel.issues|] == channel.issues;
      assert channels[..i + 1][..i] == channels[..i];
      FoldAppend(Flatten(channels[..i]), channel.issues);
    }
    assert channels[..|channels|] == channels;

    var avgSolveTime := Average(totalSolveTime as real, resolvedIssues);
    d := DailyReport(adminId, solved, unsolved, totalWaterLost, avgSolveTime);
  }

  /** How many admins get a report when the store fails at admin `failAt`. */
  function Completed(admins: seq<Admin>, failAt: Option<nat>): (n: nat)
    ensures n <= |admins|
    ensures failAt.None? ==> n == |admins|
    ensures failAt.Some? && failAt.value < |admins| ==> n == failAt.value
    ensures failAt.Some? && failAt.value >= |admins| ==> n == |admins|
  {
    if failAt.Some? && failAt.value < |admins| then failAt.value else |admins|
  }

  /** The `dailyReport` table, which the job only appends to. */
  class ReportStore {
    var dailyReports: seq<DailyReport>

    constructor ()
      ensures dailyReports == []
    {
      dailyReports := [];
    }

    /**
     * `generateDailyReport` over the admin and channel tables. `failAt` is
     * the index of the admin at which a store call throws, if any: the
     * catch only logs, so the remaining admins get no report, while the
     * reports already appended stay.
     */
    method GenerateDailyReport(admins: seq<Admin>, table: seq<Channel>, failAt: Option<nat>)
      modifies this
      ensures dailyReports == old(dailyReports) + ReportsFor(admins[..Completed(admins, failAt)], table)
    {
      for i := 0 to |admins|
        invariant dailyReports == old(dailyReports) + ReportsFor(admins[..i], table)
        invariant failAt.Some? ==> failAt.value >= i
      {
        if failAt == Some(i) {
          assert Completed(admins, failAt) == i;
          return;
        }
        var admin := admins[i];
        var channels := OwnedBy(table, admin.id);
        var report := CountAdmin(admin.id, channels);
        dailyReports := dailyReports + [report];
        assert admins[..i + 1][..i] == admins[..i];
        assert ReportsFor(admins[..i + 1], table) == ReportsFor(admins[..i], table) + [ReportFor(admin.id, table)];
      }
      assert admins[..|admins|] == admins;
    }
  }
}
