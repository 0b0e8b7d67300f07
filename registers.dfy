/**
 * The two shared registers the servers talk to. Their source is not part of this
 * model, so each is given the smallest contract the engine relies on:
 *  - the waitlist keeps one FIFO lane per pathway, answers an availability query
 *    per pathway, and hands out the front patient of the first non-empty lane;
 *  - the discharge list is an append-only record of discharged patients.
 */
module Registers {
  import opened Patients

  /** Number of patients waiting over all lanes (`len_waitlist`). */
  function Total(lanes: seq<seq<Patient>>): (n: nat)
    ensures lanes == [] ==> n == 0
  {
    if lanes == [] then 0 else Total(lanes[..|lanes| - 1]) + |lanes[|lanes| - 1]|
  }

  /** Replacing one lane changes the total by the difference in that lane's length. */
  lemma {:induction false} TotalUpdate(lanes: seq<seq<Patient>>, i: nat, lane: seq<Patient>)
    requires i < |lanes|
    ensures Total(lanes[i := lane]) == Total(lanes) - |lanes[i]| + |lane|
  {
    var last := |lanes| - 1;
    if i < last {
      assert lanes[i := lane][..last] == lanes[..last][i := lane];
      TotalUpdate(lanes[..last], i, lane);
    } else {
      assert lanes[i := lane][..last] == lanes[..last];
    }
  }

  /** The total is zero exactly when every lane is empty. */
  lemma {:induction false} TotalZero(lanes: seq<seq<Patient>>)
    ensures Total(lanes) == 0 <==> forall k | 0 <= k < |lanes| :: lanes[k] == []
  {
    if lanes != [] {
      var last := |lanes| - 1;
      TotalZero(lanes[..last]);
      assert forall k | 0 <= k < last :: lanes[..last][k] == lanes[k];
    }
  }

  /** `check_class_availability(path, epoch)`: some patient of pathway `path` waits. */
  predicate Available(lanes: seq<seq<Patient>>, path: int)
  {
    0 <= path < |lanes| && lanes[path] != []
  }

  /** Availability for one pathway means the waitlist as a whole is not empty. */
  lemma AvailableNonEmpty(lanes: seq<seq<Patient>>, path: int)
    requires Available(lanes, path)
    ensures Total(lanes) > 0
  {
    TotalZero(lanes);
  }

  /** Index of the first non-empty lane: where the next patient is taken from. */
  function FirstNonEmpty(lanes: seq<seq<Patient>>): (i: nat)
    requires Total(lanes) > 0
    ensures i < |lanes| && lanes[i] != []
    ensures forall k | 0 <= k < i :: lanes[k] == []
  {
    TotalZero(lanes);
    if lanes[0] != [] then 0
    else
      assert Total(lanes[1..]) > 0 by {
        TotalZero(lanes[1..]);
        assert exists k | 0 <= k < |lanes| :: lanes[k] != [];
        var k :| 0 <= k < |lanes| && lanes[k] != [];
        assert lanes[1..][k - 1] == lanes[k];
      }
      1 + FirstNonEmpty(lanes[1..])
  }

  /** The patient the waitlist hands out next. */
  function Front(lanes: seq<seq<Patient>>): Patient
    requires Total(lanes) > 0
  {
    lanes[FirstNonEmpty(lanes)][0]
  }

  /** The lanes once `Front(lanes)` has been handed out. */
  function Dequeue(lanes: seq<seq<Patient>>): (r: seq<seq<Patient>>)
    requires Total(lanes) > 0
    ensures |r| == |lanes|
    ensures Total(r) == Total(lanes) - 1
    ensures [Front(lanes)] + r[FirstNonEmpty(lanes)] == lanes[FirstNonEmpty(lanes)]
    ensures forall k | 0 <= k < |lanes| && k != FirstNonEmpty(lanes) :: r[k] == lanes[k]
  {
    var i := FirstNonEmpty(lanes);
    TotalUpdate(lanes, i, lanes[i][1..]);
    lanes[i := lanes[i][1..]]
  }

  /** The lanes once the next `n` patients have been handed out, one after the other. */
  function DequeueN(lanes: seq<seq<Patient>>, n: nat): (r: seq<seq<Patient>>)
    requires n <= Total(lanes)
    ensures |r| == |lanes| && Total(r) == Total(lanes) - n
    decreases n
  {
    if n == 0 then lanes else DequeueN(Dequeue(lanes), n - 1)
  }

  /** The next `n` patients the waitlist hands out, in the order it hands them out. */
  function Fronts(lanes: seq<seq<Patient>>, n: nat): (ps: seq<Patient>)
    requires n <= Total(lanes)
    ensures |ps| == n
    decreases n
  {
    if n == 0 then [] else [Front(lanes)] + Fronts(Dequeue(lanes), n - 1)
  }

  /** Handing out `n + 1` patients hands out the `n` patients that handing out `n`
      does, then the front of the lanes those `n` leave, and leaves those lanes
      dequeued once. */
  lemma {:induction false} FrontsSnoc(lanes: seq<seq<Patient>>, n: nat)
    requires n < Total(lanes)
    ensures DequeueN(lanes, n + 1) == Dequeue(DequeueN(lanes, n))
    ensures Fronts(lanes, n + 1) == Fronts(lanes, n) + [Front(DequeueN(lanes, n))]
    decreases n
  {
    if n > 0 {
      var rest := Dequeue(lanes);
      FrontsSnoc(rest, n - 1);
      AppendAssoc([Front(lanes)], Fronts(rest, n - 1), [Front(DequeueN(rest, n - 1))]);
    }
  }

  /** The lanes once patient `p` has been added to the back of its pathway's lane. */
  function Enqueue(lanes: seq<seq<Patient>>, p: Patient): (r: seq<seq<Patient>>)
    requires p.pathway < |lanes|
    ensures |r| == |lanes|
    ensures Total(r) == Total(lanes) + 1
    ensures r[p.pathway] == lanes[p.pathway] + [p]
    ensures forall k | 0 <= k < |lanes| && k != p.pathway :: r[k] == lanes[k]
  {
    TotalUpdate(lanes, p.pathway, lanes[p.pathway] + [p]);
    lanes[p.pathway := lanes[p.pathway] + [p]]
  }

  /** Patients `ps` added one after the other, in order. */
  function EnqueueAll(lanes: seq<seq<Patient>>, ps: seq<Patient>): (r: seq<seq<Patient>>)
    requires forall k | 0 <= k < |ps| :: ps[k].pathway < |lanes|
    ensures |r| == |lanes|
  {
    if ps == [] then lanes
    else Enqueue(EnqueueAll(lanes, ps[..|ps| - 1]), ps[|ps| - 1])
  }

  /** The members of `ps` that belong to pathway `path`, in order. */
  function OfPathway(ps: seq<Patient>, path: nat): (r: seq<Patient>)
    ensures |r| <= |ps|
  {
    if ps == [] then []
    else OfPathway(ps[..|ps| - 1], path)
         + (if ps[|ps| - 1].pathway == path then [ps[|ps| - 1]] else [])
  }

  /** Adding a batch grows the waitlist by the batch size, and each lane receives
      exactly the batch's patients of its pathway, at its back, in batch order. */
  lemma {:induction false} EnqueueAllSpec(lanes: seq<seq<Patient>>, ps: seq<Patient>)
    requires forall k | 0 <= k < |ps| :: ps[k].pathway < |lanes|
    ensures Total(EnqueueAll(lanes, ps)) == Total(lanes) + |ps|
    ensures forall path | 0 <= path < |lanes| ::
              EnqueueAll(lanes, ps)[path] == lanes[path] + OfPathway(ps, path)
  {
    if ps != [] {
      var init, last := ps[..|ps| - 1], ps[|ps| - 1];
      EnqueueAllSpec(lanes, init);
      var prev := EnqueueAll(lanes, init);
      assert EnqueueAll(lanes, ps) == Enqueue(prev, last);
      forall path | 0 <= path < |lanes|
        ensures EnqueueAll(lanes, ps)[path] == lanes[path] + OfPathway(ps, path)
      {
        if last.pathway == path {
          assert OfPathway(ps, path) == OfPathway(init, path) + [last];
          assert EnqueueAll(lanes, ps)[path] == (lanes[path] + OfPathway(init, path)) + [last];
        } else {
          assert OfPathway(ps, path) == OfPathway(init, path) + [];
          assert EnqueueAll(lanes, ps)[path] == prev[path];
        }
      }
    }
  }

  class Waitlist {
    const nClasses: nat
    var lanes: seq<seq<Patient>>

    ghost predicate Valid()
      reads this
    {
      |lanes| == nClasses
    }

    constructor (nClasses: nat)
      ensures this.nClasses == nClasses
      ensures Valid() && Len() == 0
    {
      this.nClasses := nClasses;
      lanes := seq(nClasses, _ => []);
      new;
      TotalZero(lanes);
    }

    /** `len_waitlist()`. */
    function Len(): nat
      reads this
    {
      Total(lanes)
    }

    /** `check_class_availability(path, epoch)`; eligibility by epoch is not modelled. */
    function IsAvailable(path: int, epoch: int): bool
      reads this
    {
      Available(lanes, path)
    }

    /** `add_patient(patient, epoch)`. */
    method AddPatient(p: Patient, epoch: int)
      requires Valid() && p.pathway < nClasses
      modifies this
      ensures Valid()
      ensures lanes == Enqueue(old(lanes), p)
      ensures Len() == old(Len()) + 1
    {
      lanes := Enqueue(lanes, p);
    }

    /** Hands out the next patient; takes no pathway. */
    method Pop(epoch: int) returns (p: Patient)
      requires Valid() && Len() > 0
      modifies this
      ensures Valid()
      ensures p == Front(old(lanes)) && lanes == Dequeue(old(lanes))
      ensures Len() == old(Len()) - 1
    {
      p := Front(lanes);
      lanes := Dequeue(lanes);
    }
  }

  class DischargeList {
    var patients: seq<Patient>

    constructor ()
      ensures patients == []
    {
      patients := [];
    }

    /** `get_n_patients()`. */
    function NPatients(): nat
      reads this
    {
      |patients|
    }

    /** `add_patient(patient)`: append only. */
    method AddPatient(p: Patient)
      modifies this
      ensures patients == old(patients) + [p]
    {
      patients := patients + [p];
    }
  }
}
