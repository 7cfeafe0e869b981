/**
 * The database rows the core reads and writes, the `where` filter of a
 * `findMany`, and the per-issue tally shared by the admin analytics handler
 * and the nightly report job.
 */
module Store {
  import opened Wrappers

  /** The one status value that counts as solved; every other status is unsolved. */
  const Solved: string := "solved"

  /** Milliseconds in an hour: the divisor of `(solvedAt - createdAt) / (1000 * 60 * 60)`. */
  const MsPerHour: int := 1000 * 60 * 60

  /** A leak incident of a channel; `elapsedMs` is `solvedAt - createdAt`. */
  datatype Issue = Issue(status: string, waterLost: real, elapsedMs: int)

  /** The `plumber: { select: { id, name } }` part of a channel query. */
  datatype PlumberRef = PlumberRef(id: string, name: string)

  /** A channel row with the relations the handlers include. */
  datatype Channel = Channel(
    id: string,
    channelId: string,
    name: string,
    location: string,
    stationCount: int,
    managerId: string,
    adminId: string,
    plumber: Option<PlumberRef>,
    status: string,
    waterLost: Option<real>,
    solveTime: Option<real>,
    issues: seq<Issue>)

  /** An admin row; `password` holds what was stored at registration. */
  datatype Admin = Admin(id: string, name: string, email: string, password: string)

  /** A plumber row; `password` holds what was stored at registration. */
  datatype Plumber = Plumber(
    id: string,
    name: string,
    email: string,
    password: string,
    phone: Option<string>,
    managerId: Option<string>,
    createdAt: string)

  /** A manager row, created by an admin. */
  datatype Manager = Manager(
    id: string,
    name: string,
    email: string,
    passwordHash: string,
    companyName: string,
    createdAt: string)

  /** The rows of `s` that satisfy `keep`, in order: `findMany({ where })`. */
  function Where<T>(s: seq<T>, keep: T -> bool): (r: seq<T>)
    ensures |r| <= |s|
  {
    if s == [] then [] else (if keep(s[0]) then [s[0]] else []) + Where(s[1..], keep)
  }

  /** A row is selected exactly when it is in the table and satisfies the filter. */
  lemma {:induction false} WhereMembers<T>(s: seq<T>, keep: T -> bool)
    ensures forall x :: x in Where(s, keep) <==> x in s && keep(x)
  {
    if s != [] {
      WhereMembers(s[1..], keep);
      assert s == [s[0]] + s[1..];
    }
  }

  /** Filtering distributes over concatenation, so it keeps the table's order. */
  lemma {:induction false} WhereAppend<T>(a: seq<T>, b: seq<T>, keep: T -> bool)
    ensures Where(a + b, keep) == Where(a, keep) + Where(b, keep)
  {
    if a != [] {
      WhereAppend(a[1..], b, keep);
      assert (a + b)[1..] == a[1..] + b;
    } else {
      assert a + b == b;
    }
  }

  /** A filter that rejects every row selects nothing. */
  lemma {:induction false} WhereNone<T>(s: seq<T>, keep: T -> bool)
    requires forall x :: x in s ==> !keep(x)
    ensures Where(s, keep) == []
  {
    if s != [] {
      WhereNone(s[1..], keep);
    }
  }

  /** The first row of `s` that satisfies `matches`: `findUnique` on a unique column. */
  function FindFirst<T>(s: seq<T>, matches: T -> bool): (r: Option<T>)
    ensures r.Some? ==> r.value in s && matches(r.value)
    ensures r.None? <==> forall x :: x in s ==> !matches(x)
  {
    if s == [] then None
    else if matches(s[0]) then Some(s[0])
    else FindFirst(s[1..], matches)
  }

  /** A row appended to a table is found only when no earlier row matches. */
  lemma {:induction false} FindFirstAppend<T>(s: seq<T>, x: T, matches: T -> bool)
    ensures FindFirst(s + [x], matches) ==
      if FindFirst(s, matches).Some? then FindFirst(s, matches)
      else if matches(x) then Some(x) else None
  {
    if s != [] {
      FindFirstAppend(s[1..], x, matches);
      assert (s + [x])[1..] == s[1..] + [x];
    }
  }

  /** `prisma.channel.findMany({ where: { managerId } })`. */
  function ManagedBy(table: seq<Channel>, managerId: string): seq<Channel>
  {
    Where(table, (c: Channel) => c.managerId == managerId)
  }

  /** A manager's channels are exactly the channels of the table that name that manager. */
  lemma ManagedByMembers(table: seq<Channel>, managerId: string)
    ensures forall c :: c in ManagedBy(table, managerId) <==> c in table && c.managerId == managerId
  {
    WhereMembers(table, (c: Channel) => c.managerId == managerId);
  }

  /** `prisma.channel.findMany({ where: { adminId }, include: { issues: true } })`. */
  function OwnedBy(table: seq<Channel>, adminId: string): seq<Channel>
  {
    Where(table, (c: Channel) => c.adminId == adminId)
  }

  /** The channels of an admin in a concatenated table are that admin's channels of each part. */
  lemma OwnedByAppend(a: seq<Channel>, b: seq<Channel>, adminId: string)
    ensures OwnedBy(a + b, adminId) == OwnedBy(a, adminId) + OwnedBy(b, adminId)
  {
    WhereAppend(a, b, (c: Channel) => c.adminId == adminId);
  }

  /** A table holding no channel of the admin yields none. */
  lemma OwnedByNone(table: seq<Channel>, adminId: string)
    requires forall c :: c in table ==> c.adminId != adminId
    ensures OwnedBy(table, adminId) == []
  {
    WhereNone(table, (c: Channel) => c.adminId == adminId);
  }

  /** Fractional hours, as the analytics handler computes them. */
  function Hours(ms: int): real
  {
    ms as real / MsPerHour as real
  }

  /**
   * The fractional hours give the elapsed time back, and they lie within one
   * hour of the whole hours the report job truncates to.
   */
  lemma HoursBracketWholeHours(ms: int)
    ensures Hours(ms) * MsPerHour as real == ms as real
    ensures ms >= 0 ==> WholeHours(ms) as real <= Hours(ms) < WholeHours(ms) as real + 1.0
    ensures ms < 0 ==> WholeHours(ms) as real - 1.0 < Hours(ms) <= WholeHours(ms) as real
  {
    var w, m := WholeHours(ms), MsPerHour as real;
    assert (w * MsPerHour) as real == w as real * m;
    assert ((w + 1) * MsPerHour) as real == (w as real + 1.0) * m;
    assert ((w - 1) * MsPerHour) as real == (w as real - 1.0) * m;
  }

  /** `moment(solvedAt).diff(moment(createdAt), "hours")`: whole hours, truncated toward zero. */
  function WholeHours(ms: int): (h: int)
    ensures ms >= 0 ==> 0 <= h && h * MsPerHour <= ms < (h + 1) * MsPerHour
    ensures ms < 0 ==> h <= 0 && (h - 1) * MsPerHour < ms <= h * MsPerHour
  {
    if ms >= 0 then ms / MsPerHour else -((-ms) / MsPerHour)
  }

  /**
   * The counters of one pass over issues. `solveHours` is the fractional sum
   * the analytics handler keeps, `solveWholeHours` the truncated sum the
   * report job keeps; both add up solved issues only.
   */
  datatype Totals = Totals(
    issues: nat,
    solved: nat,
    unsolved: nat,
    waterLost: real,
    solveHours: real,
    solveWholeHours: int)

  const Zero: Totals := Totals(0, 0, 0, 0.0, 0.0, 0)

  /** The body of the inner loop: count one issue. */
  function Count(t: Totals, i: Issue): Totals
  {
    if i.status == Solved then
      t.(issues := t.issues + 1, solved := t.solved + 1, waterLost := t.waterLost + i.waterLost,
         solveHours := t.solveHours + Hours(i.elapsedMs),
         solveWholeHours := t.solveWholeHours + WholeHours(i.elapsedMs))
    else
      t.(issues := t.issues + 1, unsolved := t.unsolved + 1, waterLost := t.waterLost + i.waterLost)
  }

  /** The counters after a left-to-right pass over `issues` from zero. */
  function Fold(issues: seq<Issue>): (t: Totals)
    ensures t.issues == |issues|
    ensures t.solved + t.unsolved == t.issues
  {
    if issues == [] then Zero else Count(Fold(issues[..|issues| - 1]), issues[|issues| - 1])
  }

  /** Counters of two passes, added field by field. */
  function Add(a: Totals, b: Totals): Totals
  {
    Totals(a.issues + b.issues, a.solved + b.solved, a.unsolved + b.unsolved,
           a.waterLost + b.waterLost, a.solveHours + b.solveHours,
           a.solveWholeHours + b.solveWholeHours)
  }

  /** Counting one more issue commutes with adding counters from before. */
  lemma CountAdd(p: Totals, q: Totals, i: Issue)
    ensures Count(Add(p, q), i) == Add(p, Count(q, i))
  {
  }

  /** Folding one more issue is counting it. */
  lemma FoldSnoc(s: seq<Issue>, x: Issue)
    ensures Fold(s + [x]) == Count(Fold(s), x)
  {
    assert (s + [x])[..|s|] == s;
  }

  /** Folding a concatenation is adding the folds of its parts. */
  lemma {:induction false} FoldAppend(a: seq<Issue>, b: seq<Issue>)
    ensures Fold(a + b) == Add(Fold(a), Fold(b))
  {
    if b == [] {
      assert a + b == a;
    } else {
      var b', x := b[..|b| - 1], b[|b| - 1];
      assert b == b' + [x];
      assert a + b == (a + b') + [x];
      calc {
        Fold(a + b);
        { FoldSnoc(a + b', x); }
        Count(Fold(a + b'), x);
        { FoldAppend(a, b'); }
        Count(Add(Fold(a), Fold(b')), x);
        { CountAdd(Fold(a), Fold(b'), x); }
        Add(Fold(a), Count(Fold(b'), x));
        { FoldSnoc(b', x); }
        Add(Fold(a), Fold(b));
      }
    }
  }

  /** An issue counts as solved exactly when its status is "solved". */
  lemma {:induction false} SolvedAreStatusSolved(issues: seq<Issue>)
    ensures Fold(issues).solved == |Where(issues, (i: Issue) => i.status == Solved)|
    ensures Fold(issues).unsolved == |Where(issues, (i: Issue) => i.status != Solved)|
  {
    if issues != [] {
      var init, last := issues[..|issues| - 1], issues[|issues| - 1];
      SolvedAreStatusSolved(init);
      assert issues == init + [last];
      WhereAppend(init, [last], (i: Issue) => i.status == Solved);
      WhereAppend(init, [last], (i: Issue) => i.status != Solved);
    }
  }

  /** The issues of all channels, channel after channel. */
  function Flatten(channels: seq<Channel>): (issues: seq<Issue>)
  {
    if channels == [] then []
    else Flatten(channels[..|channels| - 1]) + channels[|channels| - 1].issues
  }

  /** `resolved > 0 ? total / resolved : 0`. */
  function Average(total: real, count: nat): (avg: real)
    ensures count == 0 ==> avg == 0.0
    ensures count > 0 ==> avg * count as real == total
  {
    if count > 0 then total / count as real else 0.0
  }
}
