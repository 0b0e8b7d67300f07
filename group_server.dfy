/**
 * A group-therapy slot: it serves one cohort of at most `max_caseload` patients of
 * one pathway, advances every member once per epoch, and discharges the whole
 * cohort together when its session countdown reaches zero.
 *
 * `Step` is the specification of one `process_epoch` call on the slot together with
 * the two shared registers; the class `GroupServer` is the in-place implementation
 * and is proved to perform exactly `Step`. The lemmas state the slot's promises
 * about `Step` and about runs of several epochs.
 */
module GroupServers {
  import opened Patients
  import opened Registers
  import opened Rounding

  /** `caseload.size() < max_caseload` compares against the int converted to a
      64-bit size_t, so a negative capacity becomes a huge one. */
  function SizeBound(maxCaseload: int): nat
  {
    if maxCaseload < 0 then maxCaseload % 0x1_0000_0000_0000_0000 else maxCaseload
  }

  /** The session count a slot stores: the nominal pathway length stretched by the
      group-size effect and rounded to the nearest integer, ties to even. */
  function Sessions(pathLen: int, effect: real): int
  {
    Rint(pathLen as real * (1.0 + effect))
  }

  /** The admission loop: while the cohort is below `bound` and the waitlist reports
      a patient of pathway `path`, take the waitlist's next patient. */
  function Admit(path: int, bound: nat, cohort: seq<Patient>, lanes: seq<seq<Patient>>)
    : (seq<Patient>, seq<seq<Patient>>)
    decreases bound - |cohort|
  {
    if |cohort| < bound && Available(lanes, path) then
      AvailableNonEmpty(lanes, path);
      Admit(path, bound, cohort + [Front(lanes)], Dequeue(lanes))
    else
      (cohort, lanes)
  }

  /** Admission only appends to the cohort, stops at the bound or when the pathway has
      nobody available, and moves patients from the waitlist without losing any. */
  lemma {:induction false} AdmitSpec(path: int, bound: nat, cohort: seq<Patient>, lanes: seq<seq<Patient>>)
    ensures var (c, l) := Admit(path, bound, cohort, lanes);
      && |c| >= |cohort| && c[..|cohort|] == cohort
      && (|cohort| <= bound ==> |c| <= bound)
      && (|c| >= bound || !Available(l, path))
      && |l| == |lanes|
      && Total(l) + |c| == Total(lanes) + |cohort|
    decreases bound - |cohort|
  {
    if |cohort| < bound && Available(lanes, path) {
      AvailableNonEmpty(lanes, path);
      var next := cohort + [Front(lanes)];
      AdmitSpec(path, bound, next, Dequeue(lanes));
      var (c, l) := Admit(path, bound, next, Dequeue(lanes));
      assert c[..|cohort|] == c[..|next|][..|cohort|];
    }
  }

  /** The slot and the two registers, as one value. */
  datatype Snapshot = Snapshot(
    caseload: seq<Patient>,
    nAppts: int,
    lanes: seq<seq<Patient>>,
    discharged: seq<Patient>)

  /** The slot after the admission part of `process_epoch`: an empty slot takes a new
      cohort from the waitlist and resets its countdown to the stored session count;
      an occupied slot is left as it is. */
  function AfterAdmission(path: int, pathLen: int, maxCaseload: int, s: Snapshot): Snapshot
  {
    if s.caseload == [] then
      var (c, l) := Admit(path, SizeBound(maxCaseload), [], s.lanes);
      Snapshot(c, pathLen, l, s.discharged)
    else s
  }

  /** The rest of `process_epoch`: advance every member once, count the session down,
      and discharge the whole cohort when the countdown reaches zero. */
  function Serve(a: Snapshot, epoch: int): Snapshot
  {
    var members := AdvanceAll(a.caseload, epoch);
    if a.nAppts - 1 == 0 then Snapshot([], 0, a.lanes, a.discharged + StampAll(members, epoch))
    else Snapshot(members, a.nAppts - 1, a.lanes, a.discharged)
  }

  /** One `process_epoch(epoch)` on a slot with pathway `path`, stored session count
      `pathLen` and capacity `maxCaseload`. */
  function Step(path: int, pathLen: int, maxCaseload: int, s: Snapshot, epoch: int): Snapshot
  {
    Serve(AfterAdmission(path, pathLen, maxCaseload, s), epoch)
  }

  /** The members served in this epoch: a freshly admitted cohort when the slot
      starts empty, the current caseload otherwise. */
  function Cohort(path: int, maxCaseload: int, s: Snapshot): seq<Patient>
  {
    if s.caseload == [] then Admit(path, SizeBound(maxCaseload), [], s.lanes).0 else s.caseload
  }

  /** `k` consecutive epochs `e, e + 1, ..., e + k - 1` of one slot. */
  function StepsFrom(path: int, pathLen: int, maxCaseload: int, s: Snapshot, e: int, k: nat): Snapshot
    decreases k
  {
    if k == 0 then s else Step(path, pathLen, maxCaseload, StepsFrom(path, pathLen, maxCaseload, s, e, k - 1), e + k - 1)
  }

  /** Admission happens only into an empty slot; it never exceeds the capacity, and it
      stops only at capacity or when no patient of the pathway is available. */
  lemma StepAdmission(path: int, pathLen: int, maxCaseload: int, s: Snapshot, epoch: int)
    requires |s.caseload| <= SizeBound(maxCaseload)
    ensures var r := Step(path, pathLen, maxCaseload, s, epoch);
            var c := Cohort(path, maxCaseload, s);
      && |c| <= SizeBound(maxCaseload)
      && (maxCaseload >= 0 ==> |c| <= maxCaseload && |r.caseload| <= maxCaseload)
      && (s.caseload == [] ==> |c| == SizeBound(maxCaseload) || !Available(r.lanes, path))
      && (s.caseload != [] ==> c == s.caseload && r.lanes == s.lanes)
      && |r.lanes| == |s.lanes|
  {
    AdmitSpec(path, SizeBound(maxCaseload), [], s.lanes);
  }

  /** The countdown is reset to the stored session count whenever the slot starts the
      epoch empty, even if nobody is admitted, and drops by exactly one per epoch. */
  lemma StepCountdown(path: int, pathLen: int, maxCaseload: int, s: Snapshot, epoch: int)
    ensures var r := Step(path, pathLen, maxCaseload, s, epoch);
      && (s.caseload == [] ==> r.nAppts == pathLen - 1)
      && (s.caseload != [] ==> r.nAppts == s.nAppts - 1)
  {
  }

  /** Every member is advanced exactly once, in caseload order. While the countdown has
      not reached zero nobody leaves; when it reaches zero everybody leaves, in
      caseload order, stamped with the current epoch. */
  lemma StepMembers(path: int, pathLen: int, maxCaseload: int, s: Snapshot, epoch: int)
    ensures var r := Step(path, pathLen, maxCaseload, s, epoch);
            var c := Cohort(path, maxCaseload, s);
      && (r.nAppts != 0 ==> r.caseload == AdvanceAll(c, epoch) && r.discharged == s.discharged)
      && (r.nAppts == 0 ==> r.caseload == [] && r.discharged == s.discharged + StampAll(AdvanceAll(c, epoch), epoch))
      && (forall i | |s.discharged| <= i < |r.discharged| :: r.discharged[i].discharge == Some(epoch))
  {
  }

  /** Membership is frozen mid-countdown: an occupied slot whose countdown does not hit
      zero keeps the same patients in the same order and touches neither register. */
  lemma StepFrozen(path: int, pathLen: int, maxCaseload: int, s: Snapshot, epoch: int)
    requires s.caseload != [] && s.nAppts != 1
    ensures var r := Step(path, pathLen, maxCaseload, s, epoch);
      && |r.caseload| == |s.caseload|
      && (forall i | 0 <= i < |s.caseload| :: r.caseload[i] == Advance(s.caseload[i], epoch))
      && r.lanes == s.lanes && r.discharged == s.discharged
  {
  }

  /** No patient is created or lost: waiting, in service and discharged add up to the
      same number before and after an epoch. */
  lemma StepConserves(path: int, pathLen: int, maxCaseload: int, s: Snapshot, epoch: int)
    ensures var r := Step(path, pathLen, maxCaseload, s, epoch);
      Total(r.lanes) + |r.caseload| + |r.discharged| == Total(s.lanes) + |s.caseload| + |s.discharged|
  {
    AdmitSpec(path, SizeBound(maxCaseload), [], s.lanes);
  }

  /** The countdown value set at construction is never observed: an empty slot resets
      it before using it. */
  lemma InitialCountdownIgnored(path: int, pathLen: int, maxCaseload: int, s: Snapshot, epoch: int, a: int)
    requires s.caseload == []
    ensures Step(path, pathLen, maxCaseload, s.(nAppts := a), epoch) == Step(path, pathLen, maxCaseload, s, epoch)
  {
  }

  /** The epoch that forms a non-empty cohort advances it once and leaves it in the
      slot, unless the countdown already reaches zero. */
  lemma FormingEpoch(path: int, L: int, maxCaseload: int, s: Snapshot, e: int)
    requires s.caseload == []
    requires L != 1
    ensures var (c, l) := Admit(path, SizeBound(maxCaseload), [], s.lanes);
      Step(path, L, maxCaseload, s, e) == Snapshot(AdvancedFor(c, e, 1), L - 1, l, s.discharged)
  {
    var (c, l) := Admit(path, SizeBound(maxCaseload), [], s.lanes);
    AdvancedForZero(c, e);
    AdvanceAdvancedFor(c, e, 0);
    assert AfterAdmission(path, L, maxCaseload, s) == Snapshot(c, L, l, s.discharged);
  }

  /** The epoch that forms a non-empty cohort with a stored session count of one
      discharges it at once. */
  lemma FormingEpochDischarges(path: int, maxCaseload: int, s: Snapshot, e: int)
    requires s.caseload == []
    ensures var (c, l) := Admit(path, SizeBound(maxCaseload), [], s.lanes);
      Step(path, 1, maxCaseload, s, e) == Snapshot([], 0, l, s.discharged + StampAll(AdvancedFor(c, e, 1), e))
  {
    var (c, l) := Admit(path, SizeBound(maxCaseload), [], s.lanes);
    AdvancedForZero(c, e);
    AdvanceAdvancedFor(c, e, 0);
    assert AfterAdmission(path, 1, maxCaseload, s) == Snapshot(c, 1, l, s.discharged);
  }

  /** The `k`-th epoch of a cohort in service, before its last session: one more
      lock-step advance and one session fewer. */
  lemma ServingEpoch(path: int, L: int, maxCaseload: int, c: seq<Patient>, l: seq<seq<Patient>>,
                     d: seq<Patient>, e: int, k: nat)
    requires c != [] && 1 <= k && L != k
    ensures Step(path, L, maxCaseload, Snapshot(AdvancedFor(c, e, k - 1), L - (k - 1), l, d), e + k - 1)
         == Snapshot(AdvancedFor(c, e, k), L - k, l, d)
  {
    var now := Snapshot(AdvancedFor(c, e, k - 1), L - (k - 1), l, d);
    assert AfterAdmission(path, L, maxCaseload, now) == now;
    AdvanceAdvancedFor(c, e, k - 1);
  }

  /** The epoch of a cohort's last session, its `L`-th: one more advance, then the
      whole cohort is discharged at that epoch and the slot is empty. */
  lemma LastSession(path: int, L: int, maxCaseload: int, c: seq<Patient>, l: seq<seq<Patient>>,
                    d: seq<Patient>, e: int)
    requires c != [] && 1 <= L
    ensures Step(path, L, maxCaseload, Snapshot(AdvancedFor(c, e, L - 1), L - (L - 1), l, d), e + L - 1)
         == Snapshot([], 0, l, d + StampAll(AdvancedFor(c, e, L), e + L - 1))
  {
    var now := Snapshot(AdvancedFor(c, e, L - 1), L - (L - 1), l, d);
    assert AfterAdmission(path, L, maxCaseload, now) == now;
    AdvanceAdvancedFor(c, e, L - 1);
  }

  /** A non-empty cohort formed at epoch `e` in a slot with stored session count `L`:
      after `k` epochs, while the countdown has not hit zero (`k < L`, or always when
      `L <= 0`), the slot holds the same members, each advanced once at every epoch
      `e .. e + k - 1`, with `L - k` sessions left, and the registers are as they
      were right after admission. */
  lemma {:induction false} CohortInService(path: int, L: int, maxCaseload: int, s: Snapshot, e: int, k: nat,
                                           c: seq<Patient>, l: seq<seq<Patient>>)
    requires s.caseload == [] && Admit(path, SizeBound(maxCaseload), [], s.lanes) == (c, l) && c != []
    requires 1 <= k && (L <= 0 || k < L)
    ensures StepsFrom(path, L, maxCaseload, s, e, k) == Snapshot(AdvancedFor(c, e, k), L - k, l, s.discharged)
    decreases k
  {
    if k == 1 {
      FormingEpoch(path, L, maxCaseload, s, e);
    } else {
      CohortInService(path, L, maxCaseload, s, e, k - 1, c, l);
      ServingEpoch(path, L, maxCaseload, c, l, s.discharged, e, k);
    }
  }

  /** The cohort lifecycle: with stored session count `L >= 1`, a non-empty cohort
      formed at epoch `e` is discharged at epoch `e + L - 1`, all of it and nobody
      else, each member advanced exactly once at every epoch `e .. e + L - 1`, and
      the slot is empty again. */
  lemma {:induction false} CohortLifecycle(path: int, L: int, maxCaseload: int, s: Snapshot, e: int,
                                           c: seq<Patient>, l: seq<seq<Patient>>)
    requires s.caseload == [] && Admit(path, SizeBound(maxCaseload), [], s.lanes) == (c, l) && c != []
    requires L >= 1
    ensures StepsFrom(path, L, maxCaseload, s, e, L)
         == Snapshot([], 0, l, s.discharged + StampAll(AdvancedFor(c, e, L), e + L - 1))
  {
    if L == 1 {
      FormingEpochDischarges(path, maxCaseload, s, e);
    } else {
      CohortInService(path, L, maxCaseload, s, e, L - 1, c, l);
      LastSession(path, L, maxCaseload, c, l, s.discharged, e);
    }
  }

  /** With a stored session count of zero or less the countdown passes zero before it
      is tested and keeps falling: a cohort, once formed, is never discharged. */
  lemma CohortNeverDischarged(path: int, L: int, maxCaseload: int, s: Snapshot, e: int, k: nat,
                              c: seq<Patient>, l: seq<seq<Patient>>)
    requires s.caseload == [] && Admit(path, SizeBound(maxCaseload), [], s.lanes) == (c, l) && c != []
    requires L <= 0 && k >= 1
    ensures var r := StepsFrom(path, L, maxCaseload, s, e, k);
      |r.caseload| == |c| && r.discharged == s.discharged && r.nAppts < 0
  {
    CohortInService(path, L, maxCaseload, s, e, k, c, l);
  }

  /** One turn of the advance loop: the front member, advanced, goes to the back. */
  lemma RotateOne(c: seq<Patient>, j: nat, epoch: int)
    requires j < |c|
    ensures var q := c[j..] + AdvanceAll(c[..j], epoch);
      q[0] == c[j] && q[1..] + [Advance(q[0], epoch)] == c[j + 1..] + AdvanceAll(c[..j + 1], epoch)
  {
    assert c[..j + 1] == c[..j] + [c[j]];
    AdvanceAllSnoc(c[..j], c[j], epoch);
    assert (c[j..] + AdvanceAll(c[..j], epoch))[1..] == c[j + 1..] + AdvanceAll(c[..j], epoch);
  }

  // ---------------------------------------------------------------------------
  // Every group slot of a simulation, one epoch

  /** A slot's configuration and state, as one value. */
  datatype Slot = Slot(path: int, pathLen: int, maxCaseload: int, caseload: seq<Patient>, nAppts: int)

  /** All group slots and the two shared registers, as one value. */
  datatype Floor = Floor(slots: seq<Slot>, lanes: seq<seq<Patient>>, discharged: seq<Patient>)

  /** Slot `k` performs `process_epoch(epoch)` on the registers as they stand: it
      and the registers take the state `Step` gives, and no other slot changes. */
  function Turn(f: Floor, k: nat, epoch: int): (r: Floor)
    requires k < |f.slots|
    ensures |r.slots| == |f.slots|
  {
    var s := f.slots[k];
    var t := Step(s.path, s.pathLen, s.maxCaseload, Snapshot(s.caseload, s.nAppts, f.lanes, f.discharged), epoch);
    Floor(f.slots[k := s.(caseload := t.caseload, nAppts := t.nAppts)], t.lanes, t.discharged)
  }

  /** Slots `0 .. n - 1` take their turns at epoch `epoch` one after the other, in
      index order, each on the registers the previous one left. */
  function Sweep(f: Floor, n: nat, epoch: int): (r: Floor)
    requires n <= |f.slots|
    ensures |r.slots| == |f.slots|
    decreases n
  {
    if n == 0 then f else Turn(Sweep(f, n - 1, epoch), n - 1, epoch)
  }

  /** The patients in service over all slots. */
  function Occupancy(slots: seq<Slot>): nat
  {
    if slots == [] then 0 else Occupancy(slots[..|slots| - 1]) + |slots[|slots| - 1].caseload|
  }

  /** Replacing one slot changes the occupancy by the difference in its caseload. */
  lemma {:induction false} OccupancyUpdate(slots: seq<Slot>, k: nat, s: Slot)
    requires k < |slots|
    ensures Occupancy(slots[k := s]) == Occupancy(slots) - |slots[k].caseload| + |s.caseload|
    decreases |slots|
  {
    var last := |slots| - 1;
    assert slots[k := s][..last] == if k == last then slots[..last] else slots[..last][k := s];
    if k < last {
      OccupancyUpdate(slots[..last], k, s);
    }
  }

  /** The patients the floor accounts for: waiting, in service or discharged. */
  function Census(f: Floor): nat
  {
    Total(f.lanes) + Occupancy(f.slots) + |f.discharged|
  }

  /** One turn creates and loses no patient; the discharge list only grows, and
      every patient it gains carries the epoch as discharge time. */
  lemma TurnConserves(f: Floor, k: nat, epoch: int)
    requires k < |f.slots|
    ensures var r := Turn(f, k, epoch);
      && Census(r) == Census(f)
      && f.discharged <= r.discharged
      && (forall i | |f.discharged| <= i < |r.discharged| :: r.discharged[i].discharge == Some(epoch))
  {
    var s := f.slots[k];
    var before := Snapshot(s.caseload, s.nAppts, f.lanes, f.discharged);
    StepConserves(s.path, s.pathLen, s.maxCaseload, before, epoch);
    StepMembers(s.path, s.pathLen, s.maxCaseload, before, epoch);
    var t := Step(s.path, s.pathLen, s.maxCaseload, before, epoch);
    OccupancyUpdate(f.slots, k, s.(caseload := t.caseload, nAppts := t.nAppts));
  }

  /** A sweep creates and loses no patient. */
  lemma {:induction false} SweepConserves(f: Floor, n: nat, epoch: int)
    requires n <= |f.slots|
    ensures Census(Sweep(f, n, epoch)) == Census(f)
    decreases n
  {
    if n > 0 {
      var g := Sweep(f, n - 1, epoch);
      assert Sweep(f, n, epoch) == Turn(g, n - 1, epoch);
      SweepConserves(f, n - 1, epoch);
      TurnConserves(g, n - 1, epoch);
    }
  }

  /** In a sweep the discharge list only grows, and every patient it gains carries
      the epoch as discharge time. */
  lemma {:induction false} SweepDischarges(f: Floor, n: nat, epoch: int)
    requires n <= |f.slots|
    ensures f.discharged <= Sweep(f, n, epoch).discharged
    ensures Stamped(f.discharged) ==> Stamped(Sweep(f, n, epoch).discharged)
    decreases n
  {
    if n > 0 {
      var g := Sweep(f, n - 1, epoch);
      assert Sweep(f, n, epoch) == Turn(g, n - 1, epoch);
      SweepDischarges(f, n - 1, epoch);
      TurnConserves(g, n - 1, epoch);
    }
  }

  /** A slot the sweep has not reached yet is as it was. */
  lemma {:induction false} SweepPending(f: Floor, n: nat, j: nat, epoch: int)
    requires n <= j < |f.slots|
    ensures Sweep(f, n, epoch).slots[j] == f.slots[j]
    decreases n
  {
    if n > 0 {
      SweepPending(f, n - 1, j, epoch);
    }
  }

  /** Each slot `k` the sweep has passed took exactly one turn: from its own state
      before the sweep, on the registers the slots before it left, it performed
      `Step` once; its configuration is unchanged. */
  lemma {:induction false} SweepSlot(f: Floor, n: nat, k: nat, epoch: int)
    requires k < n <= |f.slots|
    ensures var before, s := Sweep(f, k, epoch), f.slots[k];
      var t := Step(s.path, s.pathLen, s.maxCaseload,
                    Snapshot(s.caseload, s.nAppts, before.lanes, before.discharged), epoch);
      Sweep(f, n, epoch).slots[k] == s.(caseload := t.caseload, nAppts := t.nAppts)
    decreases n
  {
    if n == k + 1 {
      SweepPending(f, k, k, epoch);
    } else {
      SweepSlot(f, n - 1, k, epoch);
    }
  }

  /** `g` is the floor that sweeping every slot of `f` at epoch `epoch` leaves. (It
      is stated for the slot count `n`, so that the sweep is unfolded only where a
      proof names it.) */
  predicate Swept(f: Floor, epoch: int, g: Floor)
  {
    forall n | n == |f.slots| :: Sweep(f, n, epoch) == g
  }

  /** `floors[e]` is the floor as epoch `e`'s sweep began: the first sweep starts
      from the slots `slots0`, each later one from the slots the sweep before it
      left, and `slots` are what the last sweep left. */
  predicate Chained(floors: seq<Floor>, slots0: seq<Slot>, slots: seq<Slot>)
    decreases |floors|
  {
    if floors == [] then slots == slots0
    else
      var e := |floors| - 1;
      Chained(floors[..e], slots0, floors[e].slots)
      && forall n | n == |floors[e].slots| :: Sweep(floors[e], n, e).slots == slots
  }

  /** One more epoch's sweep, starting where the chain left the slots, extends it. */
  lemma ChainedSnoc(floors: seq<Floor>, slots0: seq<Slot>, f: Floor, g: Floor)
    requires Chained(floors, slots0, f.slots) && Swept(f, |floors|, g)
    ensures Chained(floors + [f], slots0, g.slots)
  {
    assert (floors + [f])[..|floors|] == floors;
    assert Sweep(f, |f.slots|, |floors|) == g;
  }

  class GroupServer {
    // Fixed at construction (the source's private setters are only called from
    // the constructor).
    const path: int
    const pathLen: int      // stored session count, rint(nominal * (1 + effect))
    const maxCaseload: int  // cohort capacity
    const wl: Waitlist      // shared with every server
    const dl: DischargeList // shared with every server

    var caseload: seq<Patient>
    var nPatients: int
    var nAppts: int         // sessions left for the current cohort

    /** Occupancy equals the caseload length and stays within the capacity. */
    ghost predicate Valid()
      reads this
    {
      nPatients == |caseload| && |caseload| <= SizeBound(maxCaseload)
    }

    /** The slot's configuration and state, as a value. */
    function AsSlot(): Slot
      reads this
    {
      Slot(path, pathLen, maxCaseload, caseload, nAppts)
    }

    ghost function Snap(): Snapshot
      reads this, wl, dl
    {
      Snapshot(caseload, nAppts, wl.lanes, dl.patients)
    }

    constructor (path: int, pathLen: int, maxCaseload: int, groupSizeEffect: real,
                 wl: Waitlist, dl: DischargeList)
      ensures this.path == path && this.maxCaseload == maxCaseload
      ensures this.pathLen == Sessions(pathLen, groupSizeEffect)
      ensures nAppts == pathLen
      ensures caseload == [] && this.wl == wl && this.dl == dl
      ensures Valid()
    {
      this.path := path;
      this.pathLen := Sessions(pathLen, groupSizeEffect);
      this.maxCaseload := maxCaseload;
      this.wl := wl;
      this.dl := dl;
      caseload := [];
      nPatients := 0;
      nAppts := pathLen;
    }

    /** `reset_n_appts`. */
    method ResetNAppts()
      modifies this`nAppts
      ensures nAppts == pathLen
    {
      nAppts := pathLen;
    }

    /** `decrement_n_appts`. */
    method DecrementNAppts()
      modifies this`nAppts
      ensures nAppts == old(nAppts) - 1
    {
      nAppts := nAppts - 1;
    }

    /** `Server::add_from_waitlist`, inherited: take the waitlist's next patient onto
        the back of the caseload. */
    method AddFromWaitlist(epoch: int)
      requires wl.Valid() && wl.Len() > 0
      modifies this`caseload, this`nPatients, wl
      ensures wl.Valid()
      ensures caseload == old(caseload) + [Front(old(wl.lanes))]
      ensures wl.lanes == Dequeue(old(wl.lanes))
      ensures nPatients == old(nPatients) + 1
    {
      var p := wl.Pop(epoch);
      caseload := caseload + [p];
      nPatients := nPatients + 1;
    }

    /** `discharge_patients(epoch)`: move every member, front first, to the discharge
        list with discharge time `epoch`. */
    method DischargePatients(epoch: int)
      modifies this`caseload, this`nPatients, dl
      ensures caseload == []
      ensures nPatients == old(nPatients) - |old(caseload)|
      ensures dl.patients == old(dl.patients) + StampAll(old(caseload), epoch)
    {
      ghost var c0 := caseload;
      while |caseload| > 0
        invariant |caseload| <= |c0| && caseload == c0[|c0| - |caseload|..]
        invariant nPatients == old(nPatients) - (|c0| - |caseload|)
        invariant dl.patients == old(dl.patients) + StampAll(c0[..|c0| - |caseload|], epoch)
      {
        ghost var done := c0[..|c0| - |caseload|];
        var p := caseload[0];
        caseload := caseload[1..];
        p := SetDischargeTime(p, epoch);
        dl.AddPatient(p);
        nPatients := nPatients - 1;
        assert c0[..|c0| - |caseload|] == done + [c0[|done|]];
        assert StampAll(done + [c0[|done|]], epoch) == StampAll(done, epoch) + [SetDischargeTime(c0[|done|], epoch)];
      }
    }

    /** The first part of `process_epoch(epoch)`: an empty slot admits a new cohort
        and resets its countdown. */
    method AdmitBatch(epoch: int)
      requires Valid() && wl.Valid()
      modifies this`caseload, this`nPatients, this`nAppts, wl
      ensures Valid() && wl.Valid()
      ensures Snap() == AfterAdmission(path, pathLen, maxCaseload, old(Snap()))
    {
      ghost var s := Snap();
      if nPatients == 0 {
        while |caseload| < SizeBound(maxCaseload) && wl.IsAvailable(path, epoch)
          invariant Valid() && wl.Valid()
          invariant Admit(path, SizeBound(maxCaseload), caseload, wl.lanes)
                 == Admit(path, SizeBound(maxCaseload), [], s.lanes)
          invariant nAppts == s.nAppts
          decreases SizeBound(maxCaseload) - |caseload|
        {
          AvailableNonEmpty(wl.lanes, path);
          AddFromWaitlist(epoch);
        }
        ResetNAppts();
      }
    }

    /** The rotation loop of `process_epoch`: each member in turn is taken from the
        front, advanced by one session and put at the back, so that once every member
        has had its turn the caseload is in its old order, every member advanced. */
    method AdvanceMembers(epoch: int)
      requires nPatients == |caseload|
      modifies this`caseload
      ensures caseload == AdvanceAll(old(caseload), epoch)
    {
      ghost var c0 := caseload;
      var capacity := nPatients;
      while capacity > 0
        invariant 0 <= capacity <= |c0|
        invariant caseload == c0[|c0| - capacity..] + AdvanceAll(c0[..|c0| - capacity], epoch)
      {
        RotateOne(c0, |c0| - capacity, epoch);
        var p := caseload[0];
        caseload := caseload[1..];
        p := Advance(p, epoch);
        capacity := capacity - 1;
        caseload := caseload + [p];
      }
      assert c0[..|c0|] == c0;
    }

    /** `process_epoch(epoch)`. */
    method ProcessEpoch(epoch: int)
      requires Valid() && wl.Valid()
      modifies this`caseload, this`nPatients, this`nAppts, wl, dl
      ensures Valid() && wl.Valid()
      ensures Snap() == Step(path, pathLen, maxCaseload, old(Snap()), epoch)
      ensures wl.Len() + nPatients + dl.NPatients() == old(wl.Len() + nPatients + dl.NPatients())
    {
      ghost var s := Snap();
      AdmitBatch(epoch);
      ghost var a := Snap();
      AdvanceMembers(epoch);
      DecrementNAppts();
      if nAppts == 0 {
        DischargePatients(epoch);
      }
      assert Snap() == Serve(a, epoch);
      StepConserves(path, pathLen, maxCaseload, s, epoch);
      StepAdmission(path, pathLen, maxCaseload, s, epoch);
    }
  }
}
