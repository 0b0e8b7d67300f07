/**
 * A patient as the service engine sees it. The patient's own stochastic outcome
 * model (attendance, extensions) is a collaborator whose source is not part of this
 * model: a patient here is a record of the attributes fixed at arrival, the epochs
 * at which it was advanced, and its discharge time once it has one.
 */
module Patients {

  datatype Option<T> = None | Some(value: T)

  datatype Patient = Patient(
    arrival: int,          // epoch at which the patient joined the waitlist
    age: real,             // age at arrival, already clamped
    pathway: nat,          // class index; selects the waitlist lane
    pathLen: int,          // nominal appointment count of the pathway
    waitEffect: real,
    modalityEffect: real,
    modalityPolicy: real,
    advanced: seq<int>,    // epochs of every appointment step taken so far
    discharge: Option<int> // discharge time, set when leaving a caseload
  )

  /** A patient as it is created on arrival: not yet advanced, not discharged. */
  function Arriving(arrival: int, age: real, pathway: nat, pathLen: int,
                    waitEffect: real, modalityEffect: real, modalityPolicy: real): Patient
  {
    Patient(arrival, age, pathway, pathLen, waitEffect, modalityEffect, modalityPolicy, [], None)
  }

  /** Stand-in for `process_patient(epoch)`: one appointment step at `epoch`. */
  function Advance(p: Patient, epoch: int): Patient
  {
    p.(advanced := p.advanced + [epoch])
  }

  /** Stand-in for `set_discharge_time(epoch)`. */
  function SetDischargeTime(p: Patient, epoch: int): Patient
  {
    p.(discharge := Some(epoch))
  }

  /** Every member of a caseload advanced once at `epoch`, order kept. */
  function AdvanceAll(c: seq<Patient>, epoch: int): (r: seq<Patient>)
    ensures |r| == |c|
    ensures forall i | 0 <= i < |c| :: r[i] == Advance(c[i], epoch)
  {
    seq(|c|, i requires 0 <= i < |c| => Advance(c[i], epoch))
  }

  /** Advancing a caseload one member longer. */
  lemma AdvanceAllSnoc(c: seq<Patient>, x: Patient, epoch: int)
    ensures AdvanceAll(c + [x], epoch) == AdvanceAll(c, epoch) + [Advance(x, epoch)]
  {
  }

  /** Every member of a caseload stamped with discharge time `epoch`, order kept. */
  function StampAll(c: seq<Patient>, epoch: int): (r: seq<Patient>)
    ensures |r| == |c|
    ensures forall i | 0 <= i < |c| :: r[i] == SetDischargeTime(c[i], epoch)
  {
    seq(|c|, i requires 0 <= i < |c| => SetDischargeTime(c[i], epoch))
  }

  /** Stamping a caseload one member longer. */
  lemma StampAllSnoc(c: seq<Patient>, x: Patient, epoch: int)
    ensures StampAll(c + [x], epoch) == StampAll(c, epoch) + [SetDischargeTime(x, epoch)]
  {
  }

  /** Every patient of `ps` carries a discharge time. */
  predicate Stamped(ps: seq<Patient>)
  {
    forall k | 0 <= k < |ps| :: ps[k].discharge.Some?
  }

  /** Position `k` of `ps` holds a patient with a discharge time. */
  ghost predicate StampedAt(ps: seq<Patient>, k: nat)
    requires k < |ps|
  {
    ps[k].discharge.Some?
  }

  /** Every patient of `ps` from position `n` on carries a discharge time. */
  ghost predicate StampedFrom(ps: seq<Patient>, n: nat)
  {
    forall k | n <= k < |ps| :: StampedAt(ps, k)
  }

  /** Extending `ps` by patients that carry a discharge time keeps it stamped from `n`. */
  lemma StampedFromGrow(ps: seq<Patient>, n: nat, qs: seq<Patient>)
    requires |ps| <= |qs| && qs[..|ps|] == ps && StampedFrom(ps, n)
    requires forall k | |ps| <= k < |qs| :: qs[k].discharge.Some?
    ensures StampedFrom(qs, n)
  {
    forall k | n <= k < |qs|
      ensures StampedAt(qs, k)
    {
      if k < |ps| {
        assert StampedAt(ps, k);
        assert qs[k] == qs[..|ps|][k];
      }
    }
  }

  /** Stamped from `n` on, position by position. */
  lemma StampedFromElim(ps: seq<Patient>, n: nat)
    requires StampedFrom(ps, n)
    ensures forall k | n <= k < |ps| :: ps[k].discharge.Some?
  {
    forall k | n <= k < |ps|
      ensures ps[k].discharge.Some?
    {
      assert StampedAt(ps, k);
    }
  }

  /** The consecutive epochs `e, e + 1, ..., e + k - 1`. */
  function Epochs(e: int, k: nat): (r: seq<int>)
    ensures |r| == k
    ensures forall j | 0 <= j < k :: r[j] == e + j
  {
    seq(k, j requires 0 <= j < k => e + j)
  }

  /** Each member of `c` after `k` further steps at epochs `e .. e + k - 1`. */
  function AdvancedFor(c: seq<Patient>, e: int, k: nat): (r: seq<Patient>)
    ensures |r| == |c|
    ensures forall i | 0 <= i < |c| :: r[i] == c[i].(advanced := c[i].advanced + Epochs(e, k))
  {
    seq(|c|, i requires 0 <= i < |c| => c[i].(advanced := c[i].advanced + Epochs(e, k)))
  }

  /** No further steps leave a cohort as it is. */
  lemma AdvancedForZero(c: seq<Patient>, e: int)
    ensures AdvancedFor(c, e, 0) == c
  {
    forall i | 0 <= i < |c| ensures AdvancedFor(c, e, 0)[i] == c[i] {
      assert c[i].advanced + Epochs(e, 0) == c[i].advanced;
    }
  }

  /** One more lock-step advance of a cohort extends every member's history by the next epoch. */
  lemma AdvanceAdvancedFor(c: seq<Patient>, e: int, k: nat)
    ensures AdvanceAll(AdvancedFor(c, e, k), e + k) == AdvancedFor(c, e, k + 1)
  {
    assert Epochs(e, k) + [e + k] == Epochs(e, k + 1);
    var lhs, rhs := AdvanceAll(AdvancedFor(c, e, k), e + k), AdvancedFor(c, e, k + 1);
    forall i | 0 <= i < |c| ensures lhs[i] == rhs[i] {
      assert c[i].advanced + Epochs(e, k) + [e + k] == c[i].advanced + Epochs(e, k + 1);
    }
  }

  /** Concatenation is associative. */
  lemma AppendAssoc<T>(x: seq<T>, y: seq<T>, z: seq<T>)
    ensures (x + y) + z == x + (y + z)
  {
  }
}
