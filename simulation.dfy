/**
 * The simulation driver: it owns the configuration, builds the servers, feeds
 * arrivals into the shared waitlist and advances every server once per epoch.
 * Random draws (arrival counts, classes, ages) are supplied by the caller; the
 * number of arrivals in an epoch is the number of draws given for it.
 */
module Simulations {
  import opened Patients
  import opened Registers
  import opened Servers
  import opened GroupServers
  import opened SimulationPlans

  /** The random draws for one arriving patient: its class and its raw age. */
  datatype Draw = Draw(cls: nat, age: real)

  /** Positions `a` and `b` of `gs` hold different servers. */
  ghost predicate Differ<T>(gs: seq<T>, a: nat, b: nat)
    requires a < |gs| && b < |gs|
  {
    gs[a] != gs[b]
  }

  /** No server occurs twice in `gs`. */
  ghost predicate Distinct<T>(gs: seq<T>)
  {
    forall a, b | 0 <= a < |gs| && 0 <= b < |gs| && a != b :: Differ(gs, a, b)
  }

  /** Appending a server not yet in the list keeps it free of repetitions. */
  lemma DistinctSnoc<T>(gs: seq<T>, s: T)
    requires Distinct(gs) && s !in gs
    ensures Distinct(gs + [s])
  {
    var hs := gs + [s];
    forall a, b | 0 <= a < |hs| && 0 <= b < |hs| && a != b
      ensures Differ(hs, a, b)
    {
      if a < |gs| && b < |gs| {
        assert Differ(gs, a, b);
      } else if a < |gs| {
        assert hs[a] == gs[a];
      } else {
        assert hs[b] == gs[b];
      }
    }
  }

  /** The log `s` holds `n` samples, numbered `0 .. n - 1` by their epoch. */
  ghost predicate Logged(s: seq<(int, nat)>, n: nat)
  {
    |s| == n && forall k | 0 <= k < |s| :: s[k].0 == k
  }

  /** The sum of a sequence of sizes. */
  function SumOf(s: seq<nat>): nat
  {
    if s == [] then 0 else SumOf(s[..|s| - 1]) + s[|s| - 1]
  }

  /** Replacing one size changes the sum by the difference. */
  lemma {:induction false} SumOfUpdate(s: seq<nat>, i: nat, v: nat)
    requires i < |s|
    ensures SumOf(s[i := v]) == SumOf(s) - s[i] + v
    decreases |s|
  {
    var last := |s| - 1;
    assert s[i := v][..last] == if i == last then s[..last] else s[..last][i := v];
    if i < last {
      SumOfUpdate(s[..last], i, v);
    }
  }

  /** The length of each caseload, in order. */
  function Lengths(cs: seq<seq<Patient>>): seq<nat>
  {
    seq(|cs|, k requires 0 <= k < |cs| => |cs[k]|)
  }

  /** Arrivals drawn over the first `n` epochs. */
  function ArrivalCount(arrivals: seq<seq<Draw>>, n: nat): nat
    requires n <= |arrivals|
  {
    if n == 0 then 0 else ArrivalCount(arrivals, n - 1) + |arrivals[n - 1]|
  }

  class Simulation {
    const nEpochs: int
    const nServers: int
    const nGroupServers: seq<int>
    const groupSizeProps: seq<real>
    const groupSizeEffects: seq<real>
    const maxCaseload: int
    const pathways: seq<int>
    const waitEffects: seq<real>
    const modalityEffects: seq<real>
    const modalityPolicies: seq<real>
    const nClasses: nat
    const waitlistLogging: bool
    const attProbs: array2<real> // cumulative attendance table, one row per modality
    const wl: Waitlist
    const dl: DischargeList

    var servers: seq<Server>
    var groupServers: seq<GroupServer>
    var nAdmitted: int
    ghost var arrived: seq<Patient>  // every patient `generate_arrivals` created, in order
    ghost const dischargedAtStart: seq<Patient> // the discharge list as the simulation was built

    /** The waitlist keeps its invariant; the plain servers and the group servers are
        each free of repetitions, share this simulation's registers and keep their
        own invariants; the admission count is the number of arrivals; and the
        discharge list only grew since construction, every patient added to it
        carrying a discharge time. */
    ghost predicate Valid()
      reads this`servers, this`groupServers, this`nAdmitted, this`arrived, wl, dl, servers, groupServers
    {
      && wl.Valid()
      && (forall k | 0 <= k < |servers| ::
            servers[k].wl == wl && servers[k].dl == dl && servers[k].Valid())
      && (forall k | 0 <= k < |groupServers| ::
            groupServers[k].wl == wl && groupServers[k].dl == dl && groupServers[k].Valid())
      && Distinct(servers) && Distinct(groupServers)
      && nAdmitted == |arrived|
      && dischargedAtStart <= dl.patients
      && StampedFrom(dl.patients, |dischargedAtStart|)
    }

    /** The caseload of each plain server, in order. */
    ghost function Caseloads(): seq<seq<Patient>>
      reads this`servers, servers
    {
      var ss := servers;
      seq(|ss|, k requires 0 <= k < |ss| reads ss => ss[k].caseload)
    }

    /** The configuration and state of each group server, in order. */
    ghost function Slots(): seq<Slot>
      reads this`groupServers, groupServers
    {
      var gs := groupServers;
      seq(|gs|, k requires 0 <= k < |gs| reads gs => gs[k].AsSlot())
    }

    /** The group servers and the two registers, as one value. */
    ghost function Now(): Floor
      reads this`groupServers, groupServers, wl, dl
    {
      Floor(Slots(), wl.lanes, dl.patients)
    }

    /** Patients in service: in a plain caseload or in a group caseload. */
    ghost function InService(): nat
      reads this`servers, this`groupServers, servers, groupServers
    {
      SumOf(Lengths(Caseloads())) + Occupancy(Slots())
    }

    /** Patients held by the waitlist, the caseloads and the discharge list. */
    ghost function Held(): int
      reads this`servers, this`groupServers, wl, dl, servers, groupServers
    {
      wl.Len() + InService() + dl.NPatients()
    }

    /** The configuration `generate_servers` lays the group servers out from. */
    function Plan(): GroupPlan
    {
      GroupPlan(nGroupServers, groupSizeProps, groupSizeEffects, pathways)
    }

    constructor (nEpochs: int, nServers: int, nGroupServers: seq<int>, groupSizeProps: seq<real>,
                 groupSizeEffects: seq<real>, maxCaseload: int, pathways: seq<int>,
                 waitEffects: seq<real>, modalityEffects: seq<real>, modalityPolicies: seq<real>,
                 attProbs: seq<seq<real>>, waitlistLogging: bool,
                 dl: DischargeList, wl: Waitlist)
      requires |attProbs| == 2 && forall i | 0 <= i < 2 :: |attProbs[i]| == 4
      requires wl.Valid()
      ensures Valid()
      ensures arrived == [] && dischargedAtStart == dl.patients
      ensures this.nEpochs == nEpochs && this.nServers == nServers
      ensures this.nGroupServers == nGroupServers && this.groupSizeProps == groupSizeProps
      ensures this.groupSizeEffects == groupSizeEffects && this.maxCaseload == maxCaseload
      ensures this.pathways == pathways && this.nClasses == |pathways|
      ensures this.waitEffects == waitEffects && this.modalityEffects == modalityEffects
      ensures this.modalityPolicies == modalityPolicies && this.waitlistLogging == waitlistLogging
      ensures this.wl == wl && this.dl == dl
      ensures servers == [] && groupServers == [] && nAdmitted == 0
      ensures fresh(this.attProbs) && this.attProbs.Length0 == 2 && this.attProbs.Length1 == 4
      ensures forall i, j | 0 <= i < 2 && 0 <= j < 4 :: this.attProbs[i, j] == RunningSum(attProbs[i], j)
    {
      this.nEpochs := nEpochs;
      this.nServers := nServers;
      this.nGroupServers := nGroupServers;
      this.groupSizeProps := groupSizeProps;
      this.groupSizeEffects := groupSizeEffects;
      this.maxCaseload := maxCaseload;
      this.pathways := pathways;
      this.waitEffects := waitEffects;
      this.modalityEffects := modalityEffects;
      this.modalityPolicies := modalityPolicies;
      this.nClasses := |pathways|;
      this.waitlistLogging := waitlistLogging;
      this.attProbs := new real[2, 4];
      this.wl := wl;
      this.dl := dl;
      servers := [];
      groupServers := [];
      nAdmitted := 0;
      arrived := [];
      dischargedAtStart := dl.patients;
      new;
      SetAttProbs(attProbs);
    }

    /** `set_att_probs(p)`: each row of the table becomes the running sums of the
        corresponding row of `p`. */
    method SetAttProbs(p: seq<seq<real>>)
      requires |p| == 2 && forall i | 0 <= i < 2 :: |p[i]| == 4
      requires attProbs.Length0 == 2 && attProbs.Length1 == 4
      modifies attProbs
      ensures forall i, j | 0 <= i < 2 && 0 <= j < 4 :: attProbs[i, j] == RunningSum(p[i], j)
    {
      var i := 0;
      while i < 2
        invariant 0 <= i <= 2
        invariant forall a, b | 0 <= a < i && 0 <= b < 4 :: attProbs[a, b] == RunningSum(p[a], b)
      {
        var sum := 0.0;
        var j := 0;
        while j < 4
          invariant 0 <= j <= 4
          invariant sum == if j == 0 then 0.0 else RunningSum(p[i], j - 1)
          invariant forall b | 0 <= b < j :: attProbs[i, b] == RunningSum(p[i], b)
          invariant forall a, b | 0 <= a < i && 0 <= b < 4 :: attProbs[a, b] == RunningSum(p[a], b)
        {
          sum := sum + p[i][j];
          attProbs[i, j] := sum;
          j := j + 1;
        }
        i := i + 1;
      }
    }

    /** `get_arr_age` applied to a supplied draw. */
    function ArrivalAgeOf(d: Draw): real
    {
      ArrivalAge(d.age)
    }

    /** A class draw the configuration vectors and the waitlist can index. */
    predicate DrawOk(d: Draw)
    {
      d.cls < |pathways| && d.cls < |waitEffects| && d.cls < |modalityEffects|
      && d.cls < |modalityPolicies| && d.cls < wl.nClasses
    }

    /** The patient created at `epoch` from draw `d`. */
    function NewPatient(epoch: int, d: Draw): (p: Patient)
      requires DrawOk(d)
      ensures p.arrival == epoch && p.pathway == d.cls && p.pathLen == pathways[d.cls]
      ensures 0.25 <= p.age <= 2.5 && p.advanced == [] && p.discharge == None
    {
      Arriving(epoch, ArrivalAgeOf(d), d.cls, pathways[d.cls],
               waitEffects[d.cls], modalityEffects[d.cls], modalityPolicies[d.cls])
    }

    /** The patients created at `epoch` from `draws`, in order. */
    function ArrivingPatients(epoch: int, draws: seq<Draw>): (ps: seq<Patient>)
      requires forall k | 0 <= k < |draws| :: DrawOk(draws[k])
      ensures |ps| == |draws|
      ensures forall k | 0 <= k < |draws| :: ps[k] == NewPatient(epoch, draws[k])
    {
      seq(|draws|, k requires 0 <= k < |draws| => NewPatient(epoch, draws[k]))
    }

    /** The loop shared by `generate_arrivals` and `prefill_waitlist`: one patient per
        draw, each added to the waitlist in draw order. */
    method Enlist(epoch: int, draws: seq<Draw>)
      requires wl.Valid()
      requires forall k | 0 <= k < |draws| :: DrawOk(draws[k])
      modifies wl
      ensures wl.Valid()
      ensures wl.lanes == EnqueueAll(old(wl.lanes), ArrivingPatients(epoch, draws))
      ensures wl.Len() == old(wl.Len()) + |draws|
      ensures forall path | 0 <= path < wl.nClasses ::
                wl.lanes[path] == old(wl.lanes[path]) + OfPathway(ArrivingPatients(epoch, draws), path)
    {
      var i := 0;
      while i < |draws|
        invariant 0 <= i <= |draws|
        invariant wl.Valid()
        invariant wl.lanes == EnqueueAll(old(wl.lanes), ArrivingPatients(epoch, draws[..i]))
      {
        var d := draws[i];
        var pat := NewPatient(epoch, d);
        assert ArrivingPatients(epoch, draws[..i + 1]) == ArrivingPatients(epoch, draws[..i]) + [pat];
        wl.AddPatient(pat, epoch);
        i := i + 1;
      }
      assert draws[..i] == draws;
      EnqueueAllSpec(old(wl.lanes), ArrivingPatients(epoch, draws));
    }

    /** The patients created over the first `n` epochs from `arrivals`, epoch by
        epoch; every one of them arrived in one of those epochs. */
    function Arrived(arrivals: seq<seq<Draw>>, n: nat): (ps: seq<Patient>)
      requires n <= |arrivals|
      requires forall e, k | 0 <= e < n && 0 <= k < |arrivals[e]| :: DrawOk(arrivals[e][k])
      ensures |ps| == ArrivalCount(arrivals, n)
      ensures forall k | 0 <= k < |ps| :: 0 <= ps[k].arrival < n
    {
      if n == 0 then [] else Arrived(arrivals, n - 1) + ArrivingPatients(n - 1, arrivals[n - 1])
    }

    /** One more epoch's arrivals extend the arrivals so far. */
    lemma ArrivedSnoc(arrivals: seq<seq<Draw>>, n: nat)
      requires n < |arrivals|
      requires forall e, k | 0 <= e <= n && 0 <= k < |arrivals[e]| :: DrawOk(arrivals[e][k])
      ensures Arrived(arrivals, n + 1) == Arrived(arrivals, n) + ArrivingPatients(n, arrivals[n])
    {
    }

    /** `generate_arrivals(epoch)`: the drawn patients join the waitlist and are
        counted as admitted. */
    method GenerateArrivals(epoch: int, draws: seq<Draw>)
      requires Valid()
      requires forall k | 0 <= k < |draws| :: DrawOk(draws[k])
      modifies this`nAdmitted, this`arrived, wl
      ensures Valid()
      ensures nAdmitted == old(nAdmitted) + |draws|
      ensures arrived == old(arrived) + ArrivingPatients(epoch, draws)
      ensures wl.lanes == EnqueueAll(old(wl.lanes), ArrivingPatients(epoch, draws))
      ensures wl.Len() == old(wl.Len()) + |draws|
      ensures Held() == old(Held()) + |draws|
      ensures Slots() == old(Slots()) && Caseloads() == old(Caseloads())
    {
      ghost var cs, slots := Caseloads(), Slots();
      var nPatients := |draws|;
      nAdmitted := nAdmitted + nPatients;
      arrived := arrived + ArrivingPatients(epoch, draws);
      Enlist(epoch, draws);
      assert Caseloads() == cs && Slots() == slots;
    }

    /** `prefill_waitlist(n_patients)`: `n_patients` patients join the waitlist at
        epoch 0 without being counted as admitted. */
    method PrefillWaitlist(nPatients: int, draws: seq<Draw>)
      requires wl.Valid()
      requires nPatients <= |draws|
      requires forall k | 0 <= k < |draws| :: DrawOk(draws[k])
      modifies wl
      ensures wl.Valid()
      ensures wl.lanes == EnqueueAll(old(wl.lanes), ArrivingPatients(0, draws[..Max0(nPatients)]))
      ensures wl.Len() == old(wl.Len()) + Max0(nPatients)
      ensures nAdmitted == old(nAdmitted)
      ensures old(Valid()) ==> Valid()
      ensures Held() == old(Held()) + Max0(nPatients)
    {
      Enlist(0, draws[..Max0(nPatients)]);
    }

    /** A group server as `GroupServer(path, path_len, size, effect, wl, dl)` leaves
        it: built for `g` on this simulation's registers, and empty. */
    ghost predicate Built(s: GroupServer, g: GroupSpec)
      reads s
    {
      && s.path == g.path && s.maxCaseload == g.size
      && s.pathLen == Sessions(g.pathLen, g.effect)
      && s.nAppts == g.pathLen
      && s.caseload == [] && s.wl == wl && s.dl == dl
    }

    /** The servers from position `from` on are built for `specs`, one by one. */
    ghost predicate BuiltFrom(gs: seq<GroupServer>, from: nat, specs: seq<GroupSpec>)
      reads gs
    {
      from + |specs| == |gs| && forall k | 0 <= k < |specs| :: Built(gs[from + k], specs[k])
    }

    /** `generate_servers()`: `n_servers` plain servers, then the group servers of
        `Layout`, pathway by pathway and size by size, all fresh and on this
        simulation's registers; what existed before is kept. */
    method GenerateServers()
      requires Valid() && WellFormed(Plan())
      modifies this`servers, this`groupServers
      ensures Valid()
      ensures |servers| == |old(servers)| + Max0(nServers)
      ensures servers[..|old(servers)|] == old(servers)
      ensures forall k | |old(servers)| <= k < |servers| ::
                fresh(servers[k]) && servers[k].maxCaseload == maxCaseload && servers[k].caseload == []
                && servers[k].wl == wl && servers[k].dl == dl
      ensures BuiltFrom(groupServers, |old(groupServers)|, Layout(Plan(), |nGroupServers|))
      ensures groupServers[..|old(groupServers)|] == old(groupServers)
      ensures forall k | |old(groupServers)| <= k < |groupServers| :: fresh(groupServers[k])
    {
      AddServers();
      assert groupServers == old(groupServers);
      ghost var g0, plain := |groupServers|, servers;
      var i := 0;
      while i < |nGroupServers|
        invariant 0 <= i <= |nGroupServers|
        invariant servers == plain
        invariant forall k | |old(servers)| <= k < |servers| :: servers[k].caseload == []
        invariant Valid()
        invariant BuiltFrom(groupServers, g0, Layout(Plan(), i))
        invariant groupServers[..g0] == old(groupServers)
        invariant forall k | g0 <= k < |groupServers| :: fresh(groupServers[k])
      {
        ghost var before := groupServers;
        AddPathway(i);
        ExtendBuilt(before, g0, Layout(Plan(), i), groupServers, PathwayLayout(Plan(), i, |groupSizeProps|));
        i := i + 1;
      }
      assert i == |nGroupServers|;
    }

    /** The plain-server loop of `generate_servers`. */
    method AddServers()
      requires Valid()
      modifies this`servers
      ensures Valid()
      ensures |servers| == |old(servers)| + Max0(nServers)
      ensures servers[..|old(servers)|] == old(servers)
      ensures forall k | |old(servers)| <= k < |servers| ::
                fresh(servers[k]) && servers[k].maxCaseload == maxCaseload && servers[k].caseload == []
                && servers[k].wl == wl && servers[k].dl == dl
    {
      var i := 0;
      while i < nServers
        invariant 0 <= i <= Max0(nServers)
        invariant Valid()
        invariant |servers| == |old(servers)| + i
        invariant servers[..|old(servers)|] == old(servers)
        invariant forall k | |old(servers)| <= k < |servers| ::
                    fresh(servers[k]) && servers[k].maxCaseload == maxCaseload && servers[k].caseload == []
                    && servers[k].wl == wl && servers[k].dl == dl
      {
        var s := new Server(maxCaseload, wl, dl);
        assert s !in servers;
        DistinctSnoc(servers, s);
        servers := servers + [s];
        i := i + 1;
      }
    }

    /** One pass of the size loop of `generate_servers`: the group servers of
        pathway `i`, size by size. */
    method AddPathway(i: nat)
      requires Valid() && WellFormed(Plan()) && i < |nGroupServers|
      modifies this`groupServers
      ensures Valid()
      ensures BuiltFrom(groupServers, |old(groupServers)|, PathwayLayout(Plan(), i, |groupSizeProps|))
      ensures groupServers[..|old(groupServers)|] == old(groupServers)
      ensures forall k | |old(groupServers)| <= k < |groupServers| :: fresh(groupServers[k])
    {
      ghost var g0 := |groupServers|;
      var j := 0;
      while j < |groupSizeProps|
        invariant 0 <= j <= |groupSizeProps|
        invariant Valid()
        invariant BuiltFrom(groupServers, g0, PathwayLayout(Plan(), i, j))
        invariant groupServers[..g0] == old(groupServers)
        invariant forall k | g0 <= k < |groupServers| :: fresh(groupServers[k])
      {
        ghost var before := groupServers;
        AddCopies(i, j);
        ExtendBuilt(before, g0, PathwayLayout(Plan(), i, j), groupServers,
                    Copies(SpecFor(Plan(), i, j), GroupCount(Plan(), i, j)));
        j := j + 1;
      }
    }

    /** The innermost loop of `generate_servers`: `rint(n_group_servers[i] *
        group_size_props[j])` servers of size `j + 1` for pathway `i`. */
    method AddCopies(i: nat, j: nat)
      requires Valid() && WellFormed(Plan()) && i < |nGroupServers| && j < |groupSizeProps|
      modifies this`groupServers
      ensures Valid()
      ensures BuiltFrom(groupServers, |old(groupServers)|,
                        Copies(SpecFor(Plan(), i, j), GroupCount(Plan(), i, j)))
      ensures groupServers[..|old(groupServers)|] == old(groupServers)
      ensures forall k | |old(groupServers)| <= k < |groupServers| :: fresh(groupServers[k])
    {
      var count := GroupCount(Plan(), i, j);
      ghost var g := SpecFor(Plan(), i, j);
      assert g == GroupSpec(i, pathways[i], j + 1, groupSizeEffects[j]);
      ghost var g0 := |groupServers|;
      var k := 0;
      while k < count
        invariant 0 <= k <= Max0(count)
        invariant Valid()
        invariant BuiltFrom(groupServers, g0, Copies(g, k))
        invariant groupServers[..g0] == old(groupServers)
        invariant forall n | g0 <= n < |groupServers| :: fresh(groupServers[n])
      {
        ghost var before := groupServers;
        ghost var s := AppendServer(i, pathways[i], j + 1, groupSizeEffects[j]);
        AppendCopy(before, g0, g, k, s);
        k := k + 1;
      }
      assert k == Max0(count);
      assert Copies(g, k) == Copies(g, count);
    }

    /** Servers built for `more` after those built for `specs` extend the range. */
    lemma ExtendBuilt(gs: seq<GroupServer>, from: nat, specs: seq<GroupSpec>,
                      gs2: seq<GroupServer>, more: seq<GroupSpec>)
      requires BuiltFrom(gs, from, specs) && |gs| <= |gs2| && gs2[..|gs|] == gs
      requires BuiltFrom(gs2, |gs|, more)
      ensures BuiltFrom(gs2, from, specs + more)
      ensures gs2[..from] == gs[..from]
    {
      forall k | 0 <= k < |specs + more|
        ensures Built(gs2[from + k], (specs + more)[k])
      {
        if k < |specs| {
          assert gs2[from + k] == gs[from + k];
        } else {
          assert (specs + more)[k] == more[k - |specs|];
        }
      }
    }

    /** `group_servers.emplace_back(path, path_len, size, effect, wl, dl)`: one new
        server, built for that spec and empty, joins the end of the list. */
    method AppendServer(path: nat, pathLen: int, size: nat, effect: real) returns (ghost s: GroupServer)
      requires Valid()
      modifies this`groupServers
      ensures Valid()
      ensures groupServers == old(groupServers) + [s]
      ensures fresh(s) && Built(s, GroupSpec(path, pathLen, size, effect))
    {
      var server := new GroupServer(path, pathLen, size, effect, wl, dl);
      assert server !in groupServers;
      DistinctSnoc(groupServers, server);
      groupServers := groupServers + [server];
      s := server;
    }

    /** Appending one more server built for `g` extends a run of copies of `g`. */
    lemma AppendCopy(gs: seq<GroupServer>, from: nat, g: GroupSpec, k: nat, s: GroupServer)
      requires BuiltFrom(gs, from, Copies(g, k)) && Built(s, g)
      ensures BuiltFrom(gs + [s], from, Copies(g, k + 1))
    {
      assert forall n | 0 <= n < |gs| :: (gs + [s])[n] == gs[n];
    }

    /** `stream_waitlist(epoch)`: one log row, the epoch and the waitlist length. */
    method StreamWaitlist(epoch: int) returns (row: (int, nat))
      ensures row == (epoch, wl.Len())
    {
      row := (epoch, wl.Len());
    }

    /** `servers[i].process_epoch(epoch)` with that server's choice `t`: only its
        caseload changes among the servers, it keeps what `t` says of its caseload,
        its leaving members are appended to the discharge list, and no patient is
        created or lost. */
    method ProcessPlainServer(i: nat, epoch: int, t: Choice)
      requires Valid() && i < |servers|
      modifies wl, dl, servers[i]
      ensures Valid()
      ensures Slots() == old(Slots())
      ensures Caseloads() == old(Caseloads())[i := servers[i].caseload]
      ensures Retains(old(Caseloads())[i], t, Caseloads()[i])
      ensures Turned(old(Caseloads())[i], t, old(wl.lanes), Caseloads()[i], wl.lanes)
      ensures dl.patients == old(dl.patients) + StampAll(Leaving(old(Caseloads())[i], t.leaving), epoch)
      ensures Held() == old(Held())
    {
      var s := servers[i];
      ghost var cs, d := Caseloads(), dl.patients;
      forall k | 0 <= k < |servers| && k != i ensures servers[k] != s {
        assert Differ(servers, k, i);
      }
      s.ProcessEpoch(epoch, t);
      StampedFromGrow(d, |dischargedAtStart|, dl.patients);
      assert Caseloads() == cs[i := s.caseload];
      assert Lengths(Caseloads()) == Lengths(cs)[i := |s.caseload|];
      SumOfUpdate(Lengths(cs), i, |s.caseload|);
    }

    /** The plain-server loop of one epoch of `run`: every server takes its turn
        with its own choice, in index order. Each keeps what its choice says of the
        caseload it had, the discharge list gains exactly their leaving members,
        server by server, and no patient is created or lost. */
    method ServePlainServers(epoch: int, choices: seq<Choice>)
      returns (ghost trace: seq<Event>, ghost mids: seq<seq<seq<Patient>>>)
      requires Valid() && |choices| == |servers|
      modifies wl, dl, servers
      ensures Valid()
      ensures Slots() == old(Slots())
      ensures forall k | 0 <= k < |servers| :: Retains(old(Caseloads())[k], choices[k], Caseloads()[k])
      ensures |mids| == |servers| + 1 && mids[0] == old(wl.lanes) && mids[|servers|] == wl.lanes
      ensures Took(mids, old(Caseloads()), choices, Caseloads(), |servers|)
      ensures dl.patients == old(dl.patients) + Released(old(Caseloads()), choices, epoch)
      ensures Held() == old(Held())
      ensures trace == ServerEvents(epoch, |servers|)
    {
      ghost var c0, s0, h0, d0 := Caseloads(), Slots(), Held(), dl.patients;
      trace, mids := [], [wl.lanes];
      var i := 0;
      while i < |servers|
        invariant 0 <= i <= |servers| == |c0|
        invariant Valid()
        invariant Slots() == s0
        invariant Held() == h0
        invariant |Caseloads()| == |c0|
        invariant forall k | i <= k < |c0| :: Caseloads()[k] == c0[k]
        invariant forall k | 0 <= k < i :: Retains(c0[k], choices[k], Caseloads()[k])
        invariant |mids| == i + 1 && mids[0] == old(wl.lanes) && mids[i] == wl.lanes
        invariant Took(mids, c0, choices, Caseloads(), i)
        invariant dl.patients == d0 + Released(c0[..i], choices[..i], epoch)
        invariant trace == ServerEvents(epoch, i)
      {
        ghost var r := Released(c0[..i], choices[..i], epoch);
        ghost var x := StampAll(Leaving(c0[i], choices[i].leaving), epoch);
        ghost var cs := Caseloads();
        ProcessPlainServer(i, epoch, choices[i]);
        assert TookAt(mids + [wl.lanes], c0, choices, Caseloads(), i);
        TookSnoc(mids, c0, choices, cs, Caseloads(), i, wl.lanes);
        mids := mids + [wl.lanes];
        ReleasedSnoc(c0, choices, i, epoch);
        AppendAssoc(d0, r, x);
        ServerEventsSnoc(epoch, i);
        trace := trace + [ServeIndividual(epoch, i)];
        i := i + 1;
      }
      assert c0[..i] == c0 && choices[..i] == choices;
    }

    /** `group_servers[i].process_epoch(epoch)` as the simulation sees it: server
        `i` and the registers take the state `Step` gives, on the registers as they
        stand; no other server changes. */
    method ProcessGroupServer(i: nat, epoch: int)
      requires Valid() && i < |groupServers|
      modifies wl, dl, groupServers[i]
      ensures Valid()
      ensures Now() == Turn(old(Now()), i, epoch)
      ensures Caseloads() == old(Caseloads())
    {
      var g := groupServers[i];
      ghost var f := Now();
      forall k | 0 <= k < |groupServers| && k != i ensures groupServers[k] != g {
        assert Differ(groupServers, k, i);
      }
      g.ProcessEpoch(epoch);
      assert Slots() == f.slots[i := g.AsSlot()];
      TurnConserves(f, i, epoch);
      StampedFromGrow(f.discharged, |dischargedAtStart|, dl.patients);
    }

    /** The group-server loop of one epoch of `run`: every group server processes
        the epoch, in index order, each on the registers the previous one left; no
        patient is created or lost and the discharge list only grows. */
    method ServeGroupServers(epoch: int) returns (ghost trace: seq<Event>)
      requires Valid()
      modifies wl, dl, groupServers
      ensures Valid()
      ensures Swept(old(Now()), epoch, Now())
      ensures Caseloads() == old(Caseloads())
      ensures Held() == old(Held())
      ensures old(dl.patients) <= dl.patients
      ensures trace == GroupEvents(epoch, |groupServers|)
    {
      ghost var f0 := Now();
      trace := [];
      var i := 0;
      while i < |groupServers|
        invariant 0 <= i <= |groupServers|
        invariant Valid() && Caseloads() == old(Caseloads())
        invariant Now() == Sweep(f0, i, epoch)
        invariant trace == GroupEvents(epoch, i)
      {
        ProcessGroupServer(i, epoch);
        GroupEventsSnoc(epoch, i);
        trace := trace + [ServeGroup(epoch, i)];
        i := i + 1;
      }
      SweepConserves(f0, i, epoch);
      SweepDischarges(f0, i, epoch);
      assert |f0.slots| == i;
    }

    /** The state `run()` leaves after its first `epoch` passes, from a start with
        arrivals `a0`, `h0` patients held, discharge list `d0` and group servers
        `slots0`: the arrivals are those drawn in these epochs and are all still
        held somewhere, nobody left the discharge list, and `floors[e]` is the state
        in which epoch `e`'s group sweep began, the group servers being what the
        chain of sweeps left. */
    ghost predicate Served(arrivals: seq<seq<Draw>>, epoch: nat, floors: seq<Floor>,
                           a0: seq<Patient>, h0: int, d0: seq<Patient>, slots0: seq<Slot>)
      requires epoch <= |arrivals|
      requires forall e, k | 0 <= e < epoch && 0 <= k < |arrivals[e]| :: DrawOk(arrivals[e][k])
      reads this`servers, this`groupServers, this`nAdmitted, this`arrived
      reads wl, dl, servers, groupServers
    {
      && Valid()
      && arrived == a0 + Arrived(arrivals, epoch)
      && Held() == h0 + ArrivalCount(arrivals, epoch)
      && d0 <= dl.patients
      && |floors| == epoch && Chained(floors, slots0, Slots())
    }

    /** `RanForAt` after `epoch` passes, as a one-point quantifier: the verifier
        unfolds it only where `RanForAt` is named. */
    ghost predicate RanFor(arrivals: seq<seq<Draw>>, epoch: nat, events: seq<Event>, floors: seq<Floor>,
                           log: seq<(int, nat)>, a0: seq<Patient>, h0: int, d0: seq<Patient>,
                           slots0: seq<Slot>)
      requires epoch <= |arrivals|
      requires forall e, k | 0 <= e < epoch && 0 <= k < |arrivals[e]| :: DrawOk(arrivals[e][k])
      reads this`servers, this`groupServers, this`nAdmitted, this`arrived
      reads wl, dl, servers, groupServers
    {
      forall n: nat | n == epoch :: RanForAt(arrivals, n, events, floors, log, a0, h0, d0, slots0)
    }

    /** What `run()` has done after its first `epoch` passes: the state is as
        `Served` says, the passes happened in schedule order, and (when logging)
        the rows written to the waitlist stream are one per pass, numbered by its
        epoch. */
    ghost predicate RanForAt(arrivals: seq<seq<Draw>>, epoch: nat, events: seq<Event>, floors: seq<Floor>,
                             log: seq<(int, nat)>, a0: seq<Patient>, h0: int, d0: seq<Patient>,
                             slots0: seq<Slot>)
      requires epoch <= |arrivals|
      requires forall e, k | 0 <= e < epoch && 0 <= k < |arrivals[e]| :: DrawOk(arrivals[e][k])
      reads this`servers, this`groupServers, this`nAdmitted, this`arrived
      reads wl, dl, servers, groupServers
    {
      && Served(arrivals, epoch, floors, a0, h0, d0, slots0)
      && events == Schedule(epoch, |servers|, |groupServers|, waitlistLogging)
      && Logged(log, if waitlistLogging then epoch else 0)
    }

    /** `run()`: epoch by epoch, arrivals, then every plain server, then every group
        server, then (when logging) a waitlist row. The draws for epoch `e` are
        `arrivals[e]` and the plain servers' choices `turns[e]`; `log` holds the rows
        written to the waitlist stream, `events` records what was done, in order,
        and `floors` the state each epoch's group sweep began in. Every patient
        admitted during the run is waiting, in service or discharged: the three
        counts grow by exactly the number admitted. */
    method Run(arrivals: seq<seq<Draw>>, turns: seq<seq<Choice>>)
      returns (log: seq<(int, nat)>, ghost events: seq<Event>, ghost floors: seq<Floor>)
      requires Valid()
      requires Max0(nEpochs) <= |arrivals| && Max0(nEpochs) <= |turns|
      requires forall e, k | 0 <= e < |arrivals| && 0 <= k < |arrivals[e]| :: DrawOk(arrivals[e][k])
      requires forall e | 0 <= e < |turns| :: |turns[e]| == |servers|
      modifies this`nAdmitted, this`arrived, wl, dl, servers, groupServers
      ensures RanFor(arrivals, Max0(nEpochs), events, floors, log,
                     old(arrived), old(Held()), old(dl.patients), old(Slots()))
      ensures Valid()
      ensures NAdmitted() == old(NAdmitted()) + ArrivalCount(arrivals, Max0(nEpochs))
      ensures NWaitlist() + InService() + NDischarged()
              == old(NWaitlist() + InService() + NDischarged()) + ArrivalCount(arrivals, Max0(nEpochs))
    {
      ghost var a0, h0, d0, slots0 := arrived, Held(), dl.patients, Slots();
      log, events, floors := [], [], [];
      var epoch := 0;
      assert RanForAt(arrivals, epoch, events, floors, log, a0, h0, d0, slots0);
      while epoch < nEpochs
        invariant 0 <= epoch <= Max0(nEpochs)
        invariant RanFor(arrivals, epoch, events, floors, log, a0, h0, d0, slots0)
      {
        log, events, floors := RunEpoch(arrivals, turns, epoch, log, events, floors, a0, h0, d0, slots0);
        epoch := epoch + 1;
      }
      assert epoch == Max0(nEpochs);
      assert RanForAt(arrivals, epoch, events, floors, log, a0, h0, d0, slots0);
    }

    /** One pass of the loop in `run()`, for epoch `epoch` with `arrivals[epoch]` as
        its draws and `turns[epoch]` as the plain servers' choices: the state after
        `epoch` passes becomes the state after `epoch + 1`, `log` gains this
        epoch's row when logging, `events` grows by this epoch's events and
        `floors` by the state its group sweep began in. */
    method RunEpoch(arrivals: seq<seq<Draw>>, turns: seq<seq<Choice>>, epoch: nat, written: seq<(int, nat)>,
                    ghost done: seq<Event>, ghost doneFloors: seq<Floor>,
                    ghost a0: seq<Patient>, ghost h0: int, ghost d0: seq<Patient>, ghost slots0: seq<Slot>)
      returns (log: seq<(int, nat)>, ghost events: seq<Event>, ghost floors: seq<Floor>)
      requires epoch < |arrivals| && epoch < |turns| && |turns[epoch]| == |servers|
      requires forall e, k | 0 <= e <= epoch && 0 <= k < |arrivals[e]| :: DrawOk(arrivals[e][k])
      requires RanFor(arrivals, epoch, done, doneFloors, written, a0, h0, d0, slots0)
      modifies this`nAdmitted, this`arrived, wl, dl, servers, groupServers
      ensures RanFor(arrivals, epoch + 1, events, floors, log, a0, h0, d0, slots0)
      ensures log == written + (if waitlistLogging then [(epoch, wl.Len())] else [])
      ensures events == done + EpochEvents(epoch, |servers|, |groupServers|, waitlistLogging)
      ensures |floors| == epoch + 1 && floors[..epoch] == doneFloors
    {
      assert RanForAt(arrivals, epoch, done, doneFloors, written, a0, h0, d0, slots0);
      ghost var trace, start := ServeEpochOf(arrivals, turns, epoch, doneFloors, a0, h0, d0, slots0);
      floors := doneFloors + [start];
      assert floors[..epoch] == doneFloors;
      log := written;
      ghost var sampled: seq<Event> := [];
      if waitlistLogging {
        var row := StreamWaitlist(epoch);
        log := log + [row];
        sampled := [Sample(epoch)];
      }
      trace := trace + sampled;
      events := done + trace;
      RanForSnoc(arrivals, epoch, done, written, events, floors, log, a0, h0, d0, slots0);
    }

    /** `ServeEpoch` for epoch `epoch` of a run, with `arrivals[epoch]` as its draws
        and `turns[epoch]` as the plain servers' choices: the state after `epoch`
        passes becomes the state after `epoch + 1`, its sweep having begun in
        `start`. */
    method ServeEpochOf(arrivals: seq<seq<Draw>>, turns: seq<seq<Choice>>, epoch: nat,
                        ghost doneFloors: seq<Floor>, ghost a0: seq<Patient>, ghost h0: int,
                        ghost d0: seq<Patient>, ghost slots0: seq<Slot>)
      returns (ghost trace: seq<Event>, ghost start: Floor)
      requires epoch < |arrivals| && epoch < |turns| && |turns[epoch]| == |servers|
      requires forall e, k | 0 <= e <= epoch && 0 <= k < |arrivals[e]| :: DrawOk(arrivals[e][k])
      requires Served(arrivals, epoch, doneFloors, a0, h0, d0, slots0)
      modifies this`nAdmitted, this`arrived, wl, dl, servers, groupServers
      ensures Served(arrivals, epoch + 1, doneFloors + [start], a0, h0, d0, slots0)
      ensures trace == [Arrivals(epoch)] + ServerEvents(epoch, |servers|) + GroupEvents(epoch, |groupServers|)
    {
      ghost var a, h, d := arrived, Held(), dl.patients;
      ghost var mids;
      trace, start, mids := ServeEpoch(epoch, arrivals[epoch], turns[epoch]);
      ServedSnoc(arrivals, epoch, doneFloors, a0, h0, d0, slots0, a, h, d, start);
    }

    /** One more pass of `run()`, with its events and its log row, extends what
        `RanFor` says about the earlier passes. */
    lemma RanForSnoc(arrivals: seq<seq<Draw>>, epoch: nat, done: seq<Event>, written: seq<(int, nat)>,
                     events: seq<Event>, floors: seq<Floor>, log: seq<(int, nat)>,
                     a0: seq<Patient>, h0: int, d0: seq<Patient>, slots0: seq<Slot>)
      requires epoch < |arrivals|
      requires forall e, k | 0 <= e <= epoch && 0 <= k < |arrivals[e]| :: DrawOk(arrivals[e][k])
      requires Served(arrivals, epoch + 1, floors, a0, h0, d0, slots0)
      requires done == Schedule(epoch, |servers|, |groupServers|, waitlistLogging)
      requires Logged(written, if waitlistLogging then epoch else 0)
      requires events == done + EpochEvents(epoch, |servers|, |groupServers|, waitlistLogging)
      requires log == written + (if waitlistLogging then [(epoch, wl.Len())] else [])
      ensures RanFor(arrivals, epoch + 1, events, floors, log, a0, h0, d0, slots0)
    {
      assert RanForAt(arrivals, epoch + 1, events, floors, log, a0, h0, d0, slots0);
    }

    /** One more pass of `run()` extends the state `Served` describes: the epoch's
        arrivals join those of the earlier passes, they are held somewhere, and the
        sweep that began in `start` extends the chain. */
    lemma ServedSnoc(arrivals: seq<seq<Draw>>, epoch: nat, floors: seq<Floor>,
                     a0: seq<Patient>, h0: int, d0: seq<Patient>, slots0: seq<Slot>,
                     a: seq<Patient>, h: int, d: seq<Patient>, start: Floor)
      requires epoch < |arrivals|
      requires forall e, k | 0 <= e <= epoch && 0 <= k < |arrivals[e]| :: DrawOk(arrivals[e][k])
      requires a == a0 + Arrived(arrivals, epoch) && h == h0 + ArrivalCount(arrivals, epoch) && d0 <= d
      requires |floors| == epoch && Chained(floors, slots0, start.slots)
      requires Valid()
      requires arrived == a + ArrivingPatients(epoch, arrivals[epoch])
      requires Held() == h + |arrivals[epoch]| && d <= dl.patients
      requires Swept(start, epoch, Now())
      ensures Served(arrivals, epoch + 1, floors + [start], a0, h0, d0, slots0)
    {
      ChainedSnoc(floors, slots0, start, Now());
      ArrivedSnoc(arrivals, epoch);
      AppendAssoc(a0, Arrived(arrivals, epoch), ArrivingPatients(epoch, arrivals[epoch]));
    }

    /** `PreparedAt` for epoch `epoch`, as a one-point quantifier: the verifier
        unfolds it only where `PreparedAt` is named. */
    ghost predicate Prepared(epoch: int, draws: seq<Draw>, choices: seq<Choice>,
                             lanes0: seq<seq<Patient>>, d0: seq<Patient>, cs0: seq<seq<Patient>>,
                             cs: seq<seq<Patient>>, mids: seq<seq<seq<Patient>>>, start: Floor)
      requires forall k | 0 <= k < |draws| :: DrawOk(draws[k])
    {
      forall e: int | e == epoch :: PreparedAt(e, draws, choices, lanes0, d0, cs0, cs, mids, start)
    }

    /** The registers epoch `epoch`'s group sweep began with, when the epoch began
        with waitlist `lanes0`, discharge list `d0` and plain caseloads `cs0`, and
        the plain servers ended with caseloads `cs`: the epoch's arrivals joined the
        waitlist first; then the plain servers took their turns in index order, each
        taking the next patients of the waitlist the previous one left (`mids[0]`
        before the first, after the arrivals); the sweep began on the waitlist the
        last one left, and on `d0` followed by what the plain servers released. */
    ghost predicate PreparedAt(epoch: int, draws: seq<Draw>, choices: seq<Choice>,
                               lanes0: seq<seq<Patient>>, d0: seq<Patient>, cs0: seq<seq<Patient>>,
                               cs: seq<seq<Patient>>, mids: seq<seq<seq<Patient>>>, start: Floor)
      requires forall k | 0 <= k < |draws| :: DrawOk(draws[k])
    {
      && |cs0| == |choices| == |cs| && |mids| == |cs| + 1
      && (forall k | 0 <= k < |draws| :: draws[k].cls < |lanes0|)
      && mids[0] == EnqueueAll(lanes0, ArrivingPatients(epoch, draws))
      && Took(mids, cs0, choices, cs, |cs|)
      && start.lanes == mids[|cs|]
      && start.discharged == d0 + Released(cs0, choices, epoch)
    }

    /** The steps of one pass of `run()` before the waitlist sample: the epoch's
        arrivals join the waitlist and are counted, the plain servers take their
        turns with `choices`, then the group servers sweep the epoch, starting from
        the state `start`. Every arrival is then held somewhere, and the discharge
        list only grew. */
    method ServeEpoch(epoch: int, draws: seq<Draw>, choices: seq<Choice>)
      returns (ghost trace: seq<Event>, ghost start: Floor, ghost mids: seq<seq<seq<Patient>>>)
      requires Valid()
      requires forall k | 0 <= k < |draws| :: DrawOk(draws[k])
      requires |choices| == |servers|
      modifies this`nAdmitted, this`arrived, wl, dl, servers, groupServers
      ensures Valid()
      ensures arrived == old(arrived) + ArrivingPatients(epoch, draws)
      ensures Held() == old(Held()) + |draws|
      ensures old(dl.patients) <= dl.patients
      ensures forall k | 0 <= k < |servers| :: Retains(old(Caseloads())[k], choices[k], Caseloads()[k])
      ensures Prepared(epoch, draws, choices, old(wl.lanes), old(dl.patients), old(Caseloads()),
                       Caseloads(), mids, start)
      ensures start.slots == old(Slots()) && Swept(start, epoch, Now())
      ensures trace == [Arrivals(epoch)] + ServerEvents(epoch, |servers|) + GroupEvents(epoch, |groupServers|)
    {
      GenerateArrivals(epoch, draws);
      trace := [Arrivals(epoch)];
      ghost var served;
      served, mids := ServePlainServers(epoch, choices);
      trace := trace + served;
      start := Now();
      assert PreparedAt(epoch, draws, choices, old(wl.lanes), old(dl.patients), old(Caseloads()),
                        Caseloads(), mids, start);
      ghost var swept := ServeGroupServers(epoch);
      trace := trace + swept;
    }

    /** `get_n_admitted()`: the number of patients `generate_arrivals` created. */
    function NAdmitted(): (n: int)
      requires Valid()
      reads this, wl, dl, servers, groupServers
      ensures n == |arrived|
    {
      nAdmitted
    }

    /** `get_n_discharged()`: the length of the shared discharge list; it only grew
        since construction, and every patient added since carries a discharge time. */
    function NDischarged(): (n: nat)
      requires Valid()
      reads this, wl, dl, servers, groupServers
      ensures n == |dl.patients|
      ensures |dischargedAtStart| <= n
      ensures forall k | |dischargedAtStart| <= k < n :: dl.patients[k].discharge.Some?
    {
      StampedFromElim(dl.patients, |dischargedAtStart|);
      dl.NPatients()
    }

    /** `get_n_waitlist()`: the number of waiting patients, zero exactly when every
        lane is empty. */
    function NWaitlist(): (n: nat)
      reads wl
      ensures n == Total(wl.lanes)
      ensures n == 0 <==> forall k | 0 <= k < |wl.lanes| :: wl.lanes[k] == []
    {
      TotalZero(wl.lanes);
      wl.Len()
    }
  }
}
