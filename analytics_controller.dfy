/**
 * The admin analytics handler: a nested pass over the admin's channels and
 * their issues that keeps global counters and per-channel counters side by side.
 */
module AnalyticsController {
  import opened Store

  /** One entry of `channelData`. */
  datatype ChannelStats = ChannelStats(
    channelName: string,
    solved: nat,
    unsolved: nat,
    waterLost: real,
    avgSolveTime: real)

  /** The body of a successful `GET /api/analytics`. */
  datatype AdminAnalytics = AdminAnalytics(
    totalIssues: nat,
    solvedIssues: nat,
    unsolvedIssues: nat,
    totalWaterLost: real,
    avgSolveTime: real,
    channelData: seq<ChannelStats>)

  /** The entry of `channelData` for one channel, from the fold of its own issues. */
  function StatsOf(c: Channel): (s: ChannelStats)
    ensures s.solved + s.unsolved == |c.issues|
    ensures s.solved == 0 ==> s.avgSolveTime == 0.0
  {
    var t := Fold(c.issues);
    ChannelStats(c.name, t.solved, t.unsolved, t.waterLost, Average(t.solveHours, t.solved))
  }

  /** `channels.map(StatsOf)`: one entry per channel, in order. */
  function StatsAll(channels: seq<Channel>): (data: seq<ChannelStats>)
    ensures |data| == |channels|
    ensures forall k :: 0 <= k < |channels| ==> data[k] == StatsOf(channels[k])
  {
    if channels == [] then [] else StatsAll(channels[..|channels| - 1]) + [StatsOf(channels[|channels| - 1])]
  }

  /**
   * `channel.issues.forEach(...)`: the callback bumps the global counters it
   * closes over (passed in and returned here) and the channel's own counters,
   * which start at zero.
   */
  method ForEachIssue(issues: seq<Issue>, totalIssues0: nat, solvedIssues0: nat, unsolvedIssues0: nat,
                      totalWaterLost0: real, totalSolveTime0: real, resolvedCount0: nat)
    returns (totalIssues: nat, solvedIssues: nat, unsolvedIssues: nat, totalWaterLost: real, totalSolveTime: real,
             resolvedCount: nat, channelSolved: nat, channelUnsolved: nat, channelWaterLost: real,
             channelSolveTime: real, channelResolvedCount: nat)
    ensures var t := Fold(issues);
      && channelSolved == t.solved && channelUnsolved == t.unsolved
      && channelWaterLost == t.waterLost && channelSolveTime == t.solveHours
      && channelResolvedCount == channelSolved
    ensures totalIssues == totalIssues0 + |issues|
    ensures solvedIssues == solvedIssues0 + channelSolved && unsolvedIssues == unsolvedIssues0 + channelUnsolved
    ensures totalWaterLost == totalWaterLost0 + channelWaterLost && totalSolveTime == totalSolveTime0 + channelSolveTime
    ensures resolvedCount == resolvedCount0 + channelResolvedCount
  {
    totalIssues, solvedIssues, unsolvedIssues, totalWaterLost, totalSolveTime, resolvedCount :=
      totalIssues0, solvedIssues0, unsolvedIssues0, totalWaterLost0, totalSolveTime0, resolvedCount0;
    channelSolved, channelUnsolved, channelWaterLost, channelSolveTime, channelResolvedCount := 0, 0, 0.0, 0.0, 0;
    for j := 0 to |issues|
      invariant var ct := Fold(issues[..j]);
        ct.solved == channelSolved && ct.unsolved == channelUnsolved &&
        ct.waterLost == channelWaterLost && ct.solveHours == channelSolveTime
      invariant channelResolvedCount == channelSolved
      invariant totalIssues == totalIssues0 + j
      invariant solvedIssues == solvedIssues0 + channelSolved && unsolvedIssues == unsolvedIssues0 + channelUnsolved
      invariant totalWaterLost == totalWaterLost0 + channelWaterLost && totalSolveTime == totalSolveTime0 + channelSolveTime
      invariant resolvedCount == resolvedCount0 + channelResolvedCount
    {
      var issue := issues[j];
      FoldSnoc(issues[..j], issue);
      assert issues[..j + 1] == issues[..j] + [issue];
      totalIssues := totalIssues + 1;
      if issue.status == Solved {
        solvedIssues := solvedIssues + 1;
        channelSolved := channelSolved + 1;
        var timeTaken := Hours(issue.elapsedMs);
        totalSolveTime := totalSolveTime + timeTaken;
        channelSolveTime := channelSolveTime + timeTaken;
        resolvedCount := resolvedCount + 1;
        channelResolvedCount := channelResolvedCount + 1;
      } else {
        unsolvedIssues := unsolvedIssues + 1;
        channelUnsolved := channelUnsolved + 1;
      }
      totalWaterLost := totalWaterLost + issue.waterLost;
      channelWaterLost := channelWaterLost + issue.waterLost;
    }
    assert issues[..|issues|] == issues;
  }

  /** `getAnalytics` for the admin `adminId` over the channel table. */
  method GetAnalytics(table: seq<Channel>, adminId: string) returns (r: AdminAnalytics)
    ensures var channels := OwnedBy(table, adminId);
      r.channelData == StatsAll(channels)
    ensures var t := Fold(Flatten(OwnedBy(table, adminId)));
      && r.totalIssues == r.solvedIssues + r.unsolvedIssues
      && r.totalIssues == |Flatten(OwnedBy(table, adminId))|
      && r.solvedIssues == t.solved
      && r.unsolvedIssues == t.unsolved
      && r.totalWaterLost == t.waterLost
      && r.avgSolveTime == Average(t.solveHours, t.solved)
  {
    var channels := OwnedBy(table, adminId);

    var totalWaterLost, totalIssues, solvedIssues, unsolvedIssues, totalSolveTime, resolvedCount := 0.0, 0, 0, 0, 0.0, 0;
    var channelData: seq<ChannelStats> := [];
    for i := 0 to |channels|
      invariant var t := Fold(Flatten(channels[..i]));
        t.issues == totalIssues && t.solved == solvedIssues && t.unsolved == unsolvedIssues &&
        t.waterLost == totalWaterLost && t.solveHours == totalSolveTime
      invariant resolvedCount == solvedIssues
      invariant channelData == StatsAll(channels[..i])
    {
      var channel := channels[i];
      var channelSolved, channelUnsolved, channelWaterLost, channelSolveTime, channelResolvedCount;
      totalIssues, solvedIssues, unsolvedIssues, totalWaterLost, totalSolveTime, resolvedCount,
        channelSolved, channelUnsolved, channelWaterLost, channelSolveTime, channelResolvedCount :=
        ForEachIssue(channel.issues, totalIssues, solvedIssues, unsolvedIssues, totalWaterLost, totalSolveTime,
                     resolvedCount);
      assert channels[..i + 1][..i] == channels[..i];
      FoldAppend(Flatten(channels[..i]), channel.issues);
      var stats := ChannelStats(channel.name, channelSolved, channelUnsolved, channelWaterLost,
        Average(channelSolveTime, channelResolvedCount));
      channelData := channelData + [stats];
    }
    assert channels[..|channels|] == channels;

    var avgSolveTime := Average(totalSolveTime, resolvedCount);
    r := AdminAnalytics(totalIssues, solvedIssues, unsolvedIssues, totalWaterLost, avgSolveTime, channelData);
  }

  /** Per-channel solved counts added up. */
  function SumSolved(data: seq<ChannelStats>): nat
  {
    if data == [] then 0 else SumSolved(data[..|data| - 1]) + data[|data| - 1].solved
  }

  /** Per-channel unsolved counts added up. */
  function SumUnsolved(data: seq<ChannelStats>): nat
  {
    if data == [] then 0 else SumUnsolved(data[..|data| - 1]) + data[|data| - 1].unsolved
  }

  /** Per-channel water lost added up. */
  function SumWaterLost(data: seq<ChannelStats>): real
  {
    if data == [] then 0.0 else SumWaterLost(data[..|data| - 1]) + data[|data| - 1].waterLost
  }

  /**
   * The global counters are the per-channel counters added up: solved,
   * unsolved and waterLost over all issues are the sums over `channelData`.
   */
  lemma {:induction false} ChannelsAddUp(channels: seq<Channel>)
    ensures var t := Fold(Flatten(channels));
      && SumSolved(StatsAll(channels)) == t.solved
      && SumUnsolved(StatsAll(channels)) == t.unsolved
      && SumWaterLost(StatsAll(channels)) == t.waterLost
  {
    if channels != [] {
      var init, last := channels[..|channels| - 1], channels[|channels| - 1];
      ChannelsAddUp(init);
      var data := StatsAll(channels);
      assert data[..|data| - 1] == StatsAll(init);
      FoldAppend(Flatten(init), last.issues);
    }
  }

  /** So the reply's global counters equal the sums of its own `channelData`. */
  lemma ReplyAddsUp(table: seq<Channel>, adminId: string, r: AdminAnalytics)
    requires r.channelData == StatsAll(OwnedBy(table, adminId))
    requires var t := Fold(Flatten(OwnedBy(table, adminId)));
      r.solvedIssues == t.solved && r.unsolvedIssues == t.unsolved && r.totalWaterLost == t.waterLost
    ensures r.solvedIssues == SumSolved(r.channelData)
    ensures r.unsolvedIssues == SumUnsolved(r.channelData)
    ensures r.totalWaterLost == SumWaterLost(r.channelData)
  {
    ChannelsAddUp(OwnedBy(table, adminId));
  }
}
