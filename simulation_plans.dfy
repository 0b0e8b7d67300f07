/**
 * The pure parts of the simulation driver: the clamping of arrival ages, the
 * cumulative attendance table, the layout of the group servers that
 * `generate_servers` creates, and the order in which `run` lets everything act.
 */
module SimulationPlans {
  import opened Rounding

  // ---------------------------------------------------------------------------
  // Arrival ages

  /** `get_arr_age`: a drawn age inside [0.5, 2.5] is kept; one below becomes 0.25
      and one above becomes 2.5. */
  function ArrivalAge(draw: real): (age: real)
    ensures 0.25 <= age <= 2.5
    ensures 0.5 <= draw <= 2.5 ==> age == draw
    ensures draw < 0.5 ==> age == 0.25
    ensures draw > 2.5 ==> age == 2.5
  {
    if 0.5 <= draw && draw <= 2.5 then draw
    else if draw < 0.5 then 0.25
    else 2.5
  }

  /** An age never falls strictly between 0.25 and 0.5: young draws are not clamped
      to the lower edge of the kept window but below it. */
  lemma ArrivalAgeGap(draw: real)
    ensures ArrivalAge(draw) == 0.25 || 0.5 <= ArrivalAge(draw)
  {
  }

  /** Clamping is monotone: an older draw never yields a younger arrival. */
  lemma ArrivalAgeMonotone(x: real, y: real)
    requires x <= y
    ensures ArrivalAge(x) <= ArrivalAge(y)
  {
  }

  // ---------------------------------------------------------------------------
  // Attendance table

  /** `row[0] + ... + row[j]`: entry `j` of a row of the cumulative attendance table. */
  function RunningSum(row: seq<real>, j: nat): real
    requires j < |row|
  {
    if j == 0 then row[0] else RunningSum(row, j - 1) + row[j]
  }

  /** With non-negative probabilities the cumulative row is non-negative and
      non-decreasing: a later threshold is never below an earlier one. */
  lemma {:induction false} RunningSumMonotone(row: seq<real>, i: nat, j: nat)
    requires i <= j < |row|
    requires forall k | 0 <= k < |row| :: row[k] >= 0.0
    ensures 0.0 <= RunningSum(row, i) <= RunningSum(row, j)
    decreases j
  {
    if i < j {
      RunningSumMonotone(row, i, j - 1);
    } else if i > 0 {
      RunningSumMonotone(row, i - 1, i - 1);
    }
  }

  /** The cumulative row determines the probabilities: consecutive differences give
      them back. */
  lemma RunningSumDifferences(row: seq<real>, j: nat)
    requires 0 < j < |row|
    ensures RunningSum(row, j) - RunningSum(row, j - 1) == row[j]
    ensures RunningSum(row, 0) == row[0]
  {
  }

  // ---------------------------------------------------------------------------
  // Group server layout

  /** One group server to be created: `GroupServer(path, pathLen, size, effect, wl, dl)`. */
  datatype GroupSpec = GroupSpec(path: nat, pathLen: int, size: nat, effect: real)

  /** The configuration the group servers are generated from. */
  datatype GroupPlan = GroupPlan(
    nGroupServers: seq<int>, // per pathway, how many group servers to spread over the sizes
    props: seq<real>,        // per group size 1, 2, ..., the share of those servers
    effects: seq<real>,      // per group size, the effect on the number of appointments
    pathways: seq<int>       // per pathway, its nominal appointment count
  )

  /** The vectors indexed together are long enough. */
  predicate WellFormed(plan: GroupPlan)
  {
    |plan.nGroupServers| <= |plan.pathways| && |plan.props| <= |plan.effects|
  }

  /** `rint(n_group_servers[i] * group_size_props[j])`: how many servers of size
      `j + 1` pathway `i` gets (none when this is not positive). */
  function GroupCount(plan: GroupPlan, i: nat, j: nat): int
    requires i < |plan.nGroupServers| && j < |plan.props|
  {
    Rint(plan.nGroupServers[i] as real * plan.props[j])
  }

  /** The server created for pathway `i` and size `j + 1`. */
  function SpecFor(plan: GroupPlan, i: nat, j: nat): GroupSpec
    requires WellFormed(plan) && i < |plan.nGroupServers| && j < |plan.props|
  {
    GroupSpec(i, plan.pathways[i], j + 1, plan.effects[j])
  }

  function Max0(n: int): nat
  {
    if n < 0 then 0 else n
  }

  /** `n` copies of `g`: the innermost loop of `generate_servers`. */
  function Copies(g: GroupSpec, n: int): (r: seq<GroupSpec>)
    ensures |r| == Max0(n)
    ensures forall k | 0 <= k < |r| :: r[k] == g
  {
    if n <= 0 then [] else Copies(g, n - 1) + [g]
  }

  /** How many times `g` occurs in `s`. */
  function Occurrences(s: seq<GroupSpec>, g: GroupSpec): nat
  {
    if s == [] then 0
    else Occurrences(s[..|s| - 1], g) + (if s[|s| - 1] == g then 1 else 0)
  }

  /** Counting distributes over concatenation. */
  lemma {:induction false} OccurrencesAppend(a: seq<GroupSpec>, b: seq<GroupSpec>, g: GroupSpec)
    ensures Occurrences(a + b, g) == Occurrences(a, g) + Occurrences(b, g)
    decreases |b|
  {
    if b == [] {
      assert a + b == a;
    } else {
      OccurrencesAppend(a, b[..|b| - 1], g);
      assert (a + b)[..|a + b| - 1] == a + b[..|b| - 1];
    }
  }

  /** A run of copies of `g` holds `g` exactly `n` times (none when `n` is not
      positive) and no other server. */
  lemma {:induction false} CopiesOccurrences(g: GroupSpec, n: int, h: GroupSpec)
    ensures Occurrences(Copies(g, n), h) == if h == g then Max0(n) else 0
  {
    if n > 0 {
      CopiesOccurrences(g, n - 1, h);
      assert Copies(g, n)[..Max0(n) - 1] == Copies(g, n - 1);
    }
  }

  /** The servers of pathway `i` for sizes `1 .. m`, size by size: the middle loop. */
  function PathwayLayout(plan: GroupPlan, i: nat, m: nat): seq<GroupSpec>
    requires WellFormed(plan) && i < |plan.nGroupServers| && m <= |plan.props|
  {
    if m == 0 then []
    else PathwayLayout(plan, i, m - 1) + Copies(SpecFor(plan, i, m - 1), GroupCount(plan, i, m - 1))
  }

  /** All group servers of pathways `0 .. n - 1`, pathway by pathway: the outer loop. */
  function Layout(plan: GroupPlan, n: nat): seq<GroupSpec>
    requires WellFormed(plan) && n <= |plan.nGroupServers|
  {
    if n == 0 then []
    else Layout(plan, n - 1) + PathwayLayout(plan, n - 1, |plan.props|)
  }

  /** `x` is created no later than `y`: by pathway, then by size. */
  predicate Before(x: GroupSpec, y: GroupSpec)
  {
    x.path < y.path || (x.path == y.path && x.size <= y.size)
  }

  /** Every server of one pathway's block is that pathway's server of some size up
      to `m`. */
  lemma {:induction false} PathwayLayoutEntries(plan: GroupPlan, i: nat, m: nat)
    requires WellFormed(plan) && i < |plan.nGroupServers| && m <= |plan.props|
    ensures forall k | 0 <= k < |PathwayLayout(plan, i, m)| ::
              var g := PathwayLayout(plan, i, m)[k];
              g.path == i && 1 <= g.size <= m && g == SpecFor(plan, i, g.size - 1)
  {
    if m > 0 {
      PathwayLayoutEntries(plan, i, m - 1);
      var prev := PathwayLayout(plan, i, m - 1);
      var more := Copies(SpecFor(plan, i, m - 1), GroupCount(plan, i, m - 1));
      var b := PathwayLayout(plan, i, m);
      assert b == prev + more;
      forall k | 0 <= k < |b|
        ensures b[k].path == i && 1 <= b[k].size <= m && b[k] == SpecFor(plan, i, b[k].size - 1)
      {
        if k < |prev| { assert b[k] == prev[k]; } else { assert b[k] == more[k - |prev|]; }
      }
    }
  }

  /** One pathway's block goes by non-decreasing size. */
  lemma {:induction false} PathwayLayoutSorted(plan: GroupPlan, i: nat, m: nat)
    requires WellFormed(plan) && i < |plan.nGroupServers| && m <= |plan.props|
    ensures forall x, y | 0 <= x < y < |PathwayLayout(plan, i, m)| ::
              PathwayLayout(plan, i, m)[x].size <= PathwayLayout(plan, i, m)[y].size
  {
    if m > 0 {
      PathwayLayoutSorted(plan, i, m - 1);
      PathwayLayoutEntries(plan, i, m - 1);
      var prev := PathwayLayout(plan, i, m - 1);
      var more := Copies(SpecFor(plan, i, m - 1), GroupCount(plan, i, m - 1));
      var b := PathwayLayout(plan, i, m);
      assert b == prev + more;
      forall x, y | 0 <= x < y < |b| ensures b[x].size <= b[y].size {
        if x >= |prev| {
          assert b[x] == more[x - |prev|] && b[y] == more[y - |prev|];
        } else if y >= |prev| {
          assert b[x] == prev[x] && b[y] == more[y - |prev|];
        } else {
          assert b[x] == prev[x] && b[y] == prev[y];
        }
      }
    }
  }

  /** Every generated server is the server of its pathway and size. */
  lemma {:induction false} LayoutEntries(plan: GroupPlan, n: nat)
    requires WellFormed(plan) && n <= |plan.nGroupServers|
    ensures forall k | 0 <= k < |Layout(plan, n)| ::
              var g := Layout(plan, n)[k];
              g.path < n && 1 <= g.size <= |plan.props| && g == SpecFor(plan, g.path, g.size - 1)
  {
    if n > 0 {
      LayoutEntries(plan, n - 1);
      PathwayLayoutEntries(plan, n - 1, |plan.props|);
      var prev := Layout(plan, n - 1);
      var block := PathwayLayout(plan, n - 1, |plan.props|);
      var s := Layout(plan, n);
      assert s == prev + block;
      forall k | 0 <= k < |s|
        ensures s[k].path < n && 1 <= s[k].size <= |plan.props|
                && s[k] == SpecFor(plan, s[k].path, s[k].size - 1)
      {
        if k < |prev| { assert s[k] == prev[k]; } else { assert s[k] == block[k - |prev|]; }
      }
    }
  }

  /** Servers are created pathway by pathway in index order, and within a pathway by
      non-decreasing size. */
  lemma {:induction false} LayoutSorted(plan: GroupPlan, n: nat)
    requires WellFormed(plan) && n <= |plan.nGroupServers|
    ensures forall x, y | 0 <= x < y < |Layout(plan, n)| ::
              Before(Layout(plan, n)[x], Layout(plan, n)[y])
  {
    if n > 0 {
      LayoutSorted(plan, n - 1);
      LayoutEntries(plan, n - 1);
      PathwayLayoutEntries(plan, n - 1, |plan.props|);
      PathwayLayoutSorted(plan, n - 1, |plan.props|);
      var prev := Layout(plan, n - 1);
      var block := PathwayLayout(plan, n - 1, |plan.props|);
      var s := Layout(plan, n);
      assert s == prev + block;
      forall x, y | 0 <= x < y < |s| ensures Before(s[x], s[y]) {
        if x >= |prev| {
          assert s[x] == block[x - |prev|] && s[y] == block[y - |prev|];
        } else if y >= |prev| {
          assert s[x] == prev[x] && s[y] == block[y - |prev|];
        } else {
          assert s[x] == prev[x] && s[y] == prev[y];
        }
      }
    }
  }

  /** One pathway's block holds no server of another pathway. */
  lemma {:induction false} PathwayLayoutOthers(plan: GroupPlan, i: nat, m: nat, h: GroupSpec)
    requires WellFormed(plan) && i < |plan.nGroupServers| && m <= |plan.props| && h.path != i
    ensures Occurrences(PathwayLayout(plan, i, m), h) == 0
  {
    if m > 0 {
      PathwayLayoutOthers(plan, i, m - 1, h);
      var g := SpecFor(plan, i, m - 1);
      OccurrencesAppend(PathwayLayout(plan, i, m - 1), Copies(g, GroupCount(plan, i, m - 1)), h);
      CopiesOccurrences(g, GroupCount(plan, i, m - 1), h);
    }
  }

  /** One pathway's block holds its server of size `j + 1` exactly as many times as
      the rounded count says when `j < m`, and not at all otherwise. */
  lemma {:induction false} PathwayLayoutMultiplicity(plan: GroupPlan, i: nat, m: nat, j: nat)
    requires WellFormed(plan) && i < |plan.nGroupServers| && m <= |plan.props| && j < |plan.props|
    ensures Occurrences(PathwayLayout(plan, i, m), SpecFor(plan, i, j))
              == if j < m then Max0(GroupCount(plan, i, j)) else 0
  {
    if m > 0 {
      PathwayLayoutMultiplicity(plan, i, m - 1, j);
      var g := SpecFor(plan, i, m - 1);
      var more := Copies(g, GroupCount(plan, i, m - 1));
      OccurrencesAppend(PathwayLayout(plan, i, m - 1), more, SpecFor(plan, i, j));
      CopiesOccurrences(g, GroupCount(plan, i, m - 1), SpecFor(plan, i, j));
    }
  }

  /** The whole layout holds the server of pathway `i` and size `j + 1` exactly
      `rint(n_group_servers[i] * group_size_props[j])` times when that is positive,
      and not at all otherwise. */
  lemma {:induction false} LayoutMultiplicity(plan: GroupPlan, n: nat, i: nat, j: nat)
    requires WellFormed(plan) && n <= |plan.nGroupServers|
    requires i < |plan.nGroupServers| && j < |plan.props|
    ensures Occurrences(Layout(plan, n), SpecFor(plan, i, j))
              == if i < n then Max0(GroupCount(plan, i, j)) else 0
  {
    if n > 0 {
      LayoutMultiplicity(plan, n - 1, i, j);
      var block := PathwayLayout(plan, n - 1, |plan.props|);
      var h := SpecFor(plan, i, j);
      assert Layout(plan, n) == Layout(plan, n - 1) + block;
      OccurrencesAppend(Layout(plan, n - 1), block, h);
      if i == n - 1 {
        PathwayLayoutMultiplicity(plan, i, |plan.props|, j);
      } else {
        PathwayLayoutOthers(plan, n - 1, |plan.props|, h);
      }
    }
  }

  // ---------------------------------------------------------------------------
  // The order of events in `run`

  /** One action of the simulation loop. */
  datatype Event =
    | Arrivals(epoch: int)                  // generate_arrivals(epoch)
    | ServeIndividual(epoch: int, index: nat) // servers[index].process_epoch(epoch)
    | ServeGroup(epoch: int, index: nat)    // group_servers[index].process_epoch(epoch)
    | Sample(epoch: int)                    // stream_waitlist(epoch)

  function ServerEvents(e: int, n: nat): (r: seq<Event>)
    ensures |r| == n
    ensures forall i | 0 <= i < n :: r[i] == ServeIndividual(e, i)
  {
    seq(n, i requires 0 <= i < n => ServeIndividual(e, i))
  }

  function GroupEvents(e: int, n: nat): (r: seq<Event>)
    ensures |r| == n
    ensures forall i | 0 <= i < n :: r[i] == ServeGroup(e, i)
  {
    seq(n, i requires 0 <= i < n => ServeGroup(e, i))
  }

  /** One more plain server's turn extends the plain-server events. */
  lemma ServerEventsSnoc(e: int, n: nat)
    ensures ServerEvents(e, n + 1) == ServerEvents(e, n) + [ServeIndividual(e, n)]
  {
    assert ServerEvents(e, n + 1)[..n] == ServerEvents(e, n);
  }

  /** One more group server's turn extends the group-server events. */
  lemma GroupEventsSnoc(e: int, n: nat)
    ensures GroupEvents(e, n + 1) == GroupEvents(e, n) + [ServeGroup(e, n)]
  {
    assert GroupEvents(e, n + 1)[..n] == GroupEvents(e, n);
  }

  /** Everything that happens in epoch `e`. */
  function EpochEvents(e: int, nServers: nat, nGroups: nat, logging: bool): seq<Event>
  {
    [Arrivals(e)] + ServerEvents(e, nServers) + GroupEvents(e, nGroups)
    + (if logging then [Sample(e)] else [])
  }

  /** Everything that happens in epochs `0 .. n - 1`. */
  function Schedule(n: int, nServers: nat, nGroups: nat, logging: bool): seq<Event>
    decreases n
  {
    if n <= 0 then []
    else Schedule(n - 1, nServers, nGroups, logging) + EpochEvents(n - 1, nServers, nGroups, logging)
  }

  function Phase(ev: Event): nat
  {
    match ev
    case Arrivals(_) => 0
    case ServeIndividual(_, _) => 1
    case ServeGroup(_, _) => 2
    case Sample(_) => 3
  }

  function Index(ev: Event): nat
  {
    match ev
    case ServeIndividual(_, i) => i
    case ServeGroup(_, i) => i
    case _ => 0
  }

  /** `x` strictly precedes `y`: earlier epoch; within an epoch arrivals, then the
      individual servers, then the group servers, each by index, then the sample. */
  predicate Precedes(x: Event, y: Event)
  {
    x.epoch < y.epoch
    || (x.epoch == y.epoch && (Phase(x) < Phase(y) || (Phase(x) == Phase(y) && Index(x) < Index(y))))
  }

  /** `ev` belongs to a run of `n` epochs over `nServers` individual and `nGroups`
      group servers. */
  predicate Scheduled(ev: Event, n: int, nServers: nat, nGroups: nat, logging: bool)
  {
    && 0 <= ev.epoch < n
    && (ev.ServeIndividual? ==> ev.index < nServers)
    && (ev.ServeGroup? ==> ev.index < nGroups)
    && (ev.Sample? ==> logging)
  }

  /** Epoch `e` holds only its own events, in strictly increasing order, and all of
      them. */
  lemma EpochEventsSpec(e: nat, nServers: nat, nGroups: nat, logging: bool)
    ensures forall k | 0 <= k < |EpochEvents(e, nServers, nGroups, logging)| ::
              var ev := EpochEvents(e, nServers, nGroups, logging)[k];
              ev.epoch == e && Scheduled(ev, e + 1, nServers, nGroups, logging)
    ensures forall x, y | 0 <= x < y < |EpochEvents(e, nServers, nGroups, logging)| ::
              Precedes(EpochEvents(e, nServers, nGroups, logging)[x],
                       EpochEvents(e, nServers, nGroups, logging)[y])
    ensures forall ev | Scheduled(ev, e + 1, nServers, nGroups, logging) && ev.epoch == e ::
              ev in EpochEvents(e, nServers, nGroups, logging)
  {
    var s := EpochEvents(e, nServers, nGroups, logging);
    var sv, gv := ServerEvents(e, nServers), GroupEvents(e, nGroups);
    var tail: seq<Event> := if logging then [Sample(e)] else [];
    assert s == [Arrivals(e)] + sv + gv + tail;
    forall k | 0 <= k < |s|
      ensures s[k].epoch == e && Scheduled(s[k], e + 1, nServers, nGroups, logging)
    {
      if k == 0 {
      } else if k <= nServers {
        assert s[k] == sv[k - 1];
      } else if k <= nServers + nGroups {
        assert s[k] == gv[k - 1 - nServers];
      } else {
        assert s[k] == tail[0];
      }
    }
    forall x, y | 0 <= x < y < |s| ensures Precedes(s[x], s[y]) {
      if x == 0 {
        if y <= nServers { assert s[y] == sv[y - 1]; }
        else if y <= nServers + nGroups { assert s[y] == gv[y - 1 - nServers]; }
        else { assert s[y] == tail[0]; }
      } else if x <= nServers {
        assert s[x] == sv[x - 1];
        if y <= nServers { assert s[y] == sv[y - 1]; }
        else if y <= nServers + nGroups { assert s[y] == gv[y - 1 - nServers]; }
        else { assert s[y] == tail[0]; }
      } else if x <= nServers + nGroups {
        assert s[x] == gv[x - 1 - nServers];
        if y <= nServers + nGroups { assert s[y] == gv[y - 1 - nServers]; }
        else { assert s[y] == tail[0]; }
      }
    }
    forall ev | Scheduled(ev, e + 1, nServers, nGroups, logging) && ev.epoch == e
      ensures ev in s
    {
      match ev
      case Arrivals(_) => assert s[0] == ev;
      case ServeIndividual(_, i) => assert s[1 + i] == sv[i];
      case ServeGroup(_, i) => assert s[1 + nServers + i] == gv[i];
      case Sample(_) => assert s[|s| - 1] == ev;
    }
  }

  /** Every event `run` performs over `n` epochs belongs to an epoch below `n` and
      to an existing server, and samples occur only when logging is on. */
  lemma {:induction false} ScheduleEntries(n: int, nServers: nat, nGroups: nat, logging: bool)
    ensures forall k | 0 <= k < |Schedule(n, nServers, nGroups, logging)| ::
              Scheduled(Schedule(n, nServers, nGroups, logging)[k], n, nServers, nGroups, logging)
    decreases n
  {
    if n > 0 {
      ScheduleEntries(n - 1, nServers, nGroups, logging);
      EpochEventsSpec(n - 1, nServers, nGroups, logging);
      var prev := Schedule(n - 1, nServers, nGroups, logging);
      var last := EpochEvents(n - 1, nServers, nGroups, logging);
      var s := Schedule(n, nServers, nGroups, logging);
      assert s == prev + last;
      forall k | 0 <= k < |s| ensures Scheduled(s[k], n, nServers, nGroups, logging) {
        if k < |prev| {
          assert s[k] == prev[k] && Scheduled(prev[k], n - 1, nServers, nGroups, logging);
        } else {
          assert s[k] == last[k - |prev|];
        }
      }
    }
  }

  /** `run` performs its events in strictly increasing order, so none twice. */
  lemma {:induction false} ScheduleSorted(n: int, nServers: nat, nGroups: nat, logging: bool)
    ensures forall x, y | 0 <= x < y < |Schedule(n, nServers, nGroups, logging)| ::
              Precedes(Schedule(n, nServers, nGroups, logging)[x],
                       Schedule(n, nServers, nGroups, logging)[y])
    decreases n
  {
    if n > 0 {
      ScheduleSorted(n - 1, nServers, nGroups, logging);
      ScheduleEntries(n - 1, nServers, nGroups, logging);
      EpochEventsSpec(n - 1, nServers, nGroups, logging);
      var prev := Schedule(n - 1, nServers, nGroups, logging);
      var last := EpochEvents(n - 1, nServers, nGroups, logging);
      var s := Schedule(n, nServers, nGroups, logging);
      assert s == prev + last;
      forall x, y | 0 <= x < y < |s| ensures Precedes(s[x], s[y]) {
        if y < |prev| {
          assert s[x] == prev[x] && s[y] == prev[y];
        } else if x < |prev| {
          assert s[x] == prev[x] && s[y] == last[y - |prev|];
          assert Scheduled(prev[x], n - 1, nServers, nGroups, logging);
        } else {
          assert s[x] == last[x - |prev|] && s[y] == last[y - |prev|];
        }
      }
    }
  }

  /** Every event of the first `n` epochs does occur. */
  lemma {:induction false} ScheduleComplete(n: int, nServers: nat, nGroups: nat, logging: bool)
    ensures forall ev | Scheduled(ev, n, nServers, nGroups, logging) ::
              ev in Schedule(n, nServers, nGroups, logging)
    decreases n
  {
    if n > 0 {
      ScheduleComplete(n - 1, nServers, nGroups, logging);
      EpochEventsSpec(n - 1, nServers, nGroups, logging);
      var prev := Schedule(n - 1, nServers, nGroups, logging);
      var last := EpochEvents(n - 1, nServers, nGroups, logging);
      assert Schedule(n, nServers, nGroups, logging) == prev + last;
      forall ev | Scheduled(ev, n, nServers, nGroups, logging)
        ensures ev in Schedule(n, nServers, nGroups, logging)
      {
        if ev.epoch < n - 1 {
          assert Scheduled(ev, n - 1, nServers, nGroups, logging);
          assert ev in prev;
        } else {
          assert ev in last;
        }
      }
    }
  }
}
