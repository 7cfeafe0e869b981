/**
 * The manager's paginated reads: `getAnalytics`, which folds one page of the
 * manager's channels into counters, a total and an average, and
 * `getPlumbers`, which pages through the manager's plumbers.
 */
module ManagerController {
  import opened Wrappers
  import opened Store
  import opened Pagination

  /** A 200 reply with its body, or the 500 reply of the handler's catch. */
  datatype Response<T> = Ok(body: T) | ServerError(message: string)

  /** The `pagination` object of a paginated reply. */
  datatype PageInfo = PageInfo(page: int, limit: int, totalPages: Option<int>, totalItems: nat)

  /** One entry of `channelData`. */
  datatype ChannelRow = ChannelRow(
    channelId: string,
    channelName: string,
    location: string,
    status: string,
    waterLost: real,
    solveTime: real,
    stationCount: int,
    plumber: Option<PlumberRef>)

  /** The body of a successful `GET /api/manager/analytics`. */
  datatype Analytics = Analytics(
    totalChannels: nat,
    solvedChannels: nat,
    unsolvedChannels: nat,
    totalWaterLost: real,
    avgSolveTime: real,
    channelData: seq<ChannelRow>,
    pagination: PageInfo)

  /** `value || 0` on a nullable number. */
  function OrZero(v: Option<real>): real
  {
    if v.Some? then v.value else 0.0
  }

  /** The object the `map` callback returns for one channel. */
  function RowOf(c: Channel): ChannelRow
  {
    ChannelRow(c.channelId, c.name, c.location, c.status, OrZero(c.waterLost), OrZero(c.solveTime),
               c.stationCount, c.plumber)
  }

  /** The accumulators of the `map` callback. */
  datatype PageTotals = PageTotals(solved: nat, unsolved: nat, waterLost: real, solveTime: real)

  /** The callback's update of the accumulators for one channel. */
  function Step(t: PageTotals, c: Channel): PageTotals
  {
    if c.status == Solved then
      PageTotals(t.solved + 1, t.unsolved, t.waterLost + OrZero(c.waterLost), t.solveTime + OrZero(c.solveTime))
    else
      PageTotals(t.solved, t.unsolved + 1, t.waterLost + OrZero(c.waterLost), t.solveTime)
  }

  /** The accumulators after the callback has run over `cs` in order. */
  function Tally(cs: seq<Channel>): (t: PageTotals)
    ensures t.solved + t.unsolved == |cs|
  {
    if cs == [] then PageTotals(0, 0, 0.0, 0.0) else Step(Tally(cs[..|cs| - 1]), cs[|cs| - 1])
  }

  /** One more channel of the page is one more step. */
  lemma TallySnoc(cs: seq<Channel>, i: nat)
    requires i < |cs|
    ensures Tally(cs[..i + 1]) == Step(Tally(cs[..i]), cs[i])
  {
    assert cs[..i + 1][..i] == cs[..i];
  }

  /** What of a channel the accumulators look at. */
  function Key(c: Channel): (bool, real, real)
  {
    (c.status == Solved, OrZero(c.waterLost), if c.status == Solved then OrZero(c.solveTime) else 0.0)
  }

  /** Pages whose channels agree on Key have the same accumulators. */
  lemma {:induction false} TallyByKey(a: seq<Channel>, b: seq<Channel>)
    requires |a| == |b|
    requires forall k :: 0 <= k < |a| ==> Key(a[k]) == Key(b[k])
    ensures Tally(a) == Tally(b)
  {
    if a != [] {
      TallyByKey(a[..|a| - 1], b[..|b| - 1]);
    }
  }

  /** A channel counts as solved exactly when its status is "solved"; every other status is unsolved. */
  lemma {:induction false} SolvedIffStatus(cs: seq<Channel>)
    ensures Tally(cs).solved == |Where(cs, (c: Channel) => c.status == Solved)|
    ensures Tally(cs).unsolved == |Where(cs, (c: Channel) => c.status != Solved)|
  {
    if cs != [] {
      var init, last := cs[..|cs| - 1], cs[|cs| - 1];
      SolvedIffStatus(init);
      assert cs == init + [last];
      WhereAppend(init, [last], (c: Channel) => c.status == Solved);
      WhereAppend(init, [last], (c: Channel) => c.status != Solved);
    }
  }

  /** A missing waterLost counts as 0. */
  lemma MissingWaterLostIsZero(cs: seq<Channel>, k: nat)
    requires k < |cs| && cs[k].waterLost == None
    ensures Tally(cs[k := cs[k].(waterLost := Some(0.0))]) == Tally(cs)
  {
    TallyByKey(cs[k := cs[k].(waterLost := Some(0.0))], cs);
  }

  /** The solveTime of a channel that is not solved does not reach the totals. */
  lemma UnsolvedSolveTimeIgnored(cs: seq<Channel>, k: nat, v: Option<real>)
    requires k < |cs| && cs[k].status != Solved
    ensures Tally(cs[k := cs[k].(solveTime := v)]) == Tally(cs)
  {
    TallyByKey(cs[k := cs[k].(solveTime := v)], cs);
  }

  /** The page of the manager's channels that the handler fetches, or None when the store refuses the window. */
  function FetchedChannels(table: seq<Channel>, managerId: string, page: Option<int>, limit: Option<int>): Option<seq<Channel>>
  {
    Slice(ManagedBy(table, managerId), PageWindow(ParamOr(page, DefaultPage), ParamOr(limit, DefaultLimit)))
  }

  /**
   * The `channels.map` callback run over the fetched page: it updates the
   * accumulators and returns one row per channel.
   */
  method MapChannels(channels: seq<Channel>)
    returns (solvedChannels: nat, unsolvedChannels: nat, totalWaterLost: real, totalSolveTime: real,
             resolvedCount: nat, channelData: seq<ChannelRow>)
    ensures Tally(channels) == PageTotals(solvedChannels, unsolvedChannels, totalWaterLost, totalSolveTime)
    ensures resolvedCount == solvedChannels
    ensures |channelData| == |channels|
    ensures forall k :: 0 <= k < |channels| ==> channelData[k] == RowOf(channels[k])
  {
    totalWaterLost, solvedChannels, unsolvedChannels, totalSolveTime, resolvedCount := 0.0, 0, 0, 0.0, 0;
    channelData := [];
    for i := 0 to |channels|
      invariant Tally(channels[..i]) == PageTotals(solvedChannels, unsolvedChannels, totalWaterLost, totalSolveTime)
      invariant resolvedCount == solvedChannels
      invariant |channelData| == i
      invariant forall k :: 0 <= k < i ==> channelData[k] == RowOf(channels[k])
    {
      var channel := channels[i];
      TallySnoc(channels, i);
      var isSolved := channel.status == Solved;
      var waterLost := OrZero(channel.waterLost);
      var solveTime := OrZero(channel.solveTime);
      if isSolved {
        solvedChannels := solvedChannels + 1;
        totalSolveTime := totalSolveTime + solveTime;
        resolvedCount := resolvedCount + 1;
      } else {
        unsolvedChannels := unsolvedChannels + 1;
      }
      totalWaterLost := totalWaterLost + waterLost;
      channelData := channelData + [ChannelRow(channel.channelId, channel.name, channel.location, channel.status,
                                               waterLost, solveTime, channel.stationCount, channel.plumber)];
    }
    assert channels[..|channels|] == channels;
  }

  /** `getAnalytics` for the manager `managerId` over the channel table. */
  method GetAnalytics(table: seq<Channel>, managerId: string, page: Option<int>, limit: Option<int>)
    returns (r: Response<Analytics>)
    ensures r.Ok? <==> FetchedChannels(table, managerId, page, limit).Some?
    ensures r.Ok? ==>
      var channels := FetchedChannels(table, managerId, page, limit).value;
      var t := Tally(channels);
      && r.body.solvedChannels + r.body.unsolvedChannels == |channels|
      && r.body.solvedChannels == t.solved
      && r.body.totalWaterLost == t.waterLost
      && r.body.avgSolveTime == Average(t.solveTime, t.solved)
      && |r.body.channelData| == |channels|
      && (forall k :: 0 <= k < |channels| ==> r.body.channelData[k] == RowOf(channels[k]))
    ensures r.Ok? ==>
      var total := |ManagedBy(table, managerId)|;
      var l := ParamOr(limit, DefaultLimit);
      && r.body.totalChannels == total
      && r.body.pagination == PageInfo(ParamOr(page, DefaultPage), l, TotalPages(total, l), total)
    ensures r.ServerError? ==> r.message == "Failed to fetch analytics"
  {
    var p := ParamOr(page, DefaultPage);
    var l := ParamOr(limit, DefaultLimit);
    var fetched := Slice(ManagedBy(table, managerId), PageWindow(p, l));
    if fetched.None? {
      return ServerError("Failed to fetch analytics");
    }
    var channels := fetched.value;
    var totalChannels := |ManagedBy(table, managerId)|;

    var solvedChannels, unsolvedChannels, totalWaterLost, totalSolveTime, resolvedCount, channelData :=
      MapChannels(channels);
    var avgSolveTime := Average(totalSolveTime, resolvedCount);
    r := Ok(Analytics(totalChannels, solvedChannels, unsolvedChannels, totalWaterLost, avgSolveTime, channelData,
                      PageInfo(p, l, TotalPages(totalChannels, l), totalChannels)));
  }

  /** The `assignedChannels: { select: { channelId, name, status } }` part of a plumber. */
  datatype ChannelBrief = ChannelBrief(channelId: string, name: string, status: string)

  /** The selected fields of a plumber; the password is not among them. */
  datatype PlumberView = PlumberView(
    id: string,
    name: string,
    email: string,
    phone: Option<string>,
    createdAt: string,
    assignedChannels: seq<ChannelBrief>)

  /** The body of a successful `GET /api/manager/plumbers`. */
  datatype PlumberPage = PlumberPage(plumbers: seq<PlumberView>, pagination: PageInfo)

  /** The channels a plumber is assigned to, in table order. */
  function AssignedTo(channels: seq<Channel>, plumberId: string): (r: seq<ChannelBrief>)
    ensures |r| <= |channels|
  {
    if channels == [] then []
    else
      var c := channels[0];
      (if c.plumber.Some? && c.plumber.value.id == plumberId then [ChannelBrief(c.channelId, c.name, c.status)] else [])
      + AssignedTo(channels[1..], plumberId)
  }

  /** The `select` of `getPlumbers` applied to one plumber. */
  function ViewOf(p: Plumber, channels: seq<Channel>): PlumberView
  {
    PlumberView(p.id, p.name, p.email, p.phone, p.createdAt, AssignedTo(channels, p.id))
  }

  /** `prisma.plumber.findMany({ where: { managerId } })`. */
  function PlumbersOf(plumbers: seq<Plumber>, managerId: string): seq<Plumber>
  {
    Where(plumbers, (p: Plumber) => p.managerId == Some(managerId))
  }

  function ViewAll(ps: seq<Plumber>, channels: seq<Channel>): (vs: seq<PlumberView>)
    ensures |vs| == |ps|
    ensures forall k :: 0 <= k < |ps| ==> vs[k] == ViewOf(ps[k], channels)
  {
    if ps == [] then [] else [ViewOf(ps[0], channels)] + ViewAll(ps[1..], channels)
  }

  /** `getPlumbers` for the manager `managerId`. */
  function GetPlumbers(plumbers: seq<Plumber>, channels: seq<Channel>, managerId: string,
                       page: Option<int>, limit: Option<int>): (r: Response<PlumberPage>)
    ensures var mine := PlumbersOf(plumbers, managerId);
      var p, l := ParamOr(page, DefaultPage), ParamOr(limit, DefaultLimit);
      var w := PageWindow(p, l);
      && (r.Ok? <==> w.skip >= 0 && w.take >= 0)
      && (r.Ok? ==>
            && r.body.pagination == PageInfo(p, l, TotalPages(|mine|, l), |mine|)
            && |r.body.plumbers| <= l
            && (|r.body.plumbers| < l ==> w.skip + |r.body.plumbers| >= |mine|)
            && forall k :: 0 <= k < |r.body.plumbers| ==>
                 w.skip + k < |mine| && r.body.plumbers[k] == ViewOf(mine[w.skip + k], channels))
    ensures r.ServerError? ==> r.message == "Failed to fetch plumbers"
  {
    var mine := PlumbersOf(plumbers, managerId);
    var p, l := ParamOr(page, DefaultPage), ParamOr(limit, DefaultLimit);
    var fetched := Slice(mine, PageWindow(p, l));
    if fetched.None? then ServerError("Failed to fetch plumbers")
    else Ok(PlumberPage(ViewAll(fetched.value, channels), PageInfo(p, l, TotalPages(|mine|, l), |mine|)))
  }
}
