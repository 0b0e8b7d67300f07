/**
 * A plain, individually serving server. Its own admission and discharge policy
 * (`Server::process_epoch`) is not part of this model: a turn is driven by the
 * caller's choices (which members leave, how many patients to take on), and what
 * is stated about it is what the simulation relies on — only this server and the
 * two shared registers change, no patient is created or lost, the discharge list
 * only grows, and the server never fills beyond its capacity.
 */
module Servers {
  import opened Patients
  import opened Registers

  /** One turn's choices: the caseload positions that leave, and how many patients
      the server may take from the waitlist afterwards. */
  datatype Choice = Choice(leaving: set<nat>, admit: nat)

  /** The members of `c` whose positions are in `leaving`, in caseload order. */
  function Leaving(c: seq<Patient>, leaving: set<nat>): seq<Patient>
  {
    if c == [] then []
    else Leaving(c[..|c| - 1], leaving) + (if |c| - 1 in leaving then [c[|c| - 1]] else [])
  }

  /** The members of `c` whose positions are not in `leaving`, in caseload order. */
  function Staying(c: seq<Patient>, leaving: set<nat>): seq<Patient>
  {
    if c == [] then []
    else Staying(c[..|c| - 1], leaving) + (if |c| - 1 in leaving then [] else [c[|c| - 1]])
  }

  /** Every member either leaves or stays, and none does both: the two parts
      together are the caseload, as a multiset. */
  lemma {:induction false} LeavingStaying(c: seq<Patient>, leaving: set<nat>)
    ensures multiset(Leaving(c, leaving)) + multiset(Staying(c, leaving)) == multiset(c)
    ensures |Leaving(c, leaving)| + |Staying(c, leaving)| == |c|
  {
    if c != [] {
      var init, last := c[..|c| - 1], c[|c| - 1];
      LeavingStaying(init, leaving);
      assert c == init + [last];
    }
  }

  /** `c` is what a turn under `t` leaves of the caseload `c0`: the members that
      stay, in their order, followed by at most `t.admit` newcomers. */
  predicate Retains(c0: seq<Patient>, t: Choice, c: seq<Patient>)
  {
    var kept := Staying(c0, t.leaving);
    |kept| <= |c| <= |kept| + t.admit && c[..|kept|] == kept
  }

  /** What a row of servers with caseloads `cs` sends to the discharge list in one
      epoch under `choices`: each server's leaving members, stamped with the epoch,
      server by server. Every one of them carries a discharge time. */
  function Released(cs: seq<seq<Patient>>, choices: seq<Choice>, epoch: int): (r: seq<Patient>)
    requires |cs| == |choices|
    ensures Stamped(r)
  {
    if cs == [] then []
    else
      var n := |cs| - 1;
      Released(cs[..n], choices[..n], epoch) + StampAll(Leaving(cs[n], choices[n].leaving), epoch)
  }

  /** Releasing one more server's leaving members extends what was released. */
  lemma ReleasedSnoc(cs: seq<seq<Patient>>, choices: seq<Choice>, i: nat, epoch: int)
    requires i < |cs| == |choices|
    ensures Released(cs[..i + 1], choices[..i + 1], epoch)
            == Released(cs[..i], choices[..i], epoch) + StampAll(Leaving(cs[i], choices[i].leaving), epoch)
  {
    assert cs[..i + 1][..i] == cs[..i] && choices[..i + 1][..i] == choices[..i];
  }

  /** After the first `kept` members, the caseload `c` holds exactly the next
      patients the waitlist `lanes0` handed out, and the waitlist is left as `lanes`. */
  predicate TookFrom(kept: nat, c: seq<Patient>, lanes0: seq<seq<Patient>>, lanes: seq<seq<Patient>>)
  {
    && kept <= |c| && |c| - kept <= Total(lanes0)
    && c[kept..] == Fronts(lanes0, |c| - kept)
    && lanes == DequeueN(lanes0, |c| - kept)
  }

  /** A turn under `t` took the caseload from `c0` to `c` and the waitlist from
      `lanes0` to `lanes`: after the members that stayed come exactly the next
      patients the waitlist handed out. Stated as a one-point quantifier over the
      number that stayed, so that the verifier unfolds `TookFrom` only where it is
      named. */
  predicate Turned(c0: seq<Patient>, t: Choice, lanes0: seq<seq<Patient>>, c: seq<Patient>,
                   lanes: seq<seq<Patient>>)
  {
    forall kept: nat | kept == |Staying(c0, t.leaving)| :: TookFrom(kept, c, lanes0, lanes)
  }

  /** Server `k` of a row took its turn under `choices[k]` on the waitlist
      `mids[k]`, and left it as `mids[k + 1]`. */
  predicate TookAt(mids: seq<seq<seq<Patient>>>, cs0: seq<seq<Patient>>, choices: seq<Choice>,
                   cs: seq<seq<Patient>>, k: nat)
    requires k < |cs0| && k < |choices| && k < |cs| && k + 1 < |mids|
  {
    Turned(cs0[k], choices[k], mids[k], cs[k], mids[k + 1])
  }

  /** The first `n` servers of a row took their turns one after the other, each on
      the waitlist the previous one left: `mids[0]` before the first, `mids[n]`
      after the last. */
  predicate Took(mids: seq<seq<seq<Patient>>>, cs0: seq<seq<Patient>>, choices: seq<Choice>,
                 cs: seq<seq<Patient>>, n: nat)
  {
    && n <= |cs0| && n <= |choices| && n <= |cs| && n < |mids|
    && forall k | 0 <= k < n :: TookAt(mids, cs0, choices, cs, k)
  }

  /** One more turn extends the row's turns, when the earlier servers' caseloads and
      the waitlists they saw are left as they were. */
  lemma TookSnoc(mids: seq<seq<seq<Patient>>>, cs0: seq<seq<Patient>>, choices: seq<Choice>,
                 cs: seq<seq<Patient>>, cs2: seq<seq<Patient>>, n: nat, lanes: seq<seq<Patient>>)
    requires Took(mids, cs0, choices, cs, n) && |mids| == n + 1
    requires n < |cs0| && n < |choices| && n < |cs| == |cs2| && forall k | 0 <= k < n :: cs2[k] == cs[k]
    requires TookAt(mids + [lanes], cs0, choices, cs2, n)
    ensures Took(mids + [lanes], cs0, choices, cs2, n + 1)
  {
    forall k | 0 <= k < n + 1
      ensures TookAt(mids + [lanes], cs0, choices, cs2, k)
    {
      if k < n {
        assert TookAt(mids, cs0, choices, cs, k);
        assert (mids + [lanes])[k] == mids[k] && (mids + [lanes])[k + 1] == mids[k + 1];
      }
    }
  }

  class Server {
    const maxCaseload: int
    const wl: Waitlist
    const dl: DischargeList
    var caseload: seq<Patient>
    var nPatients: int

    /** Occupancy equals the caseload length, and a non-empty caseload is within
        the capacity. */
    ghost predicate Valid()
      reads this
    {
      nPatients == |caseload| && (caseload == [] || |caseload| <= maxCaseload)
    }

    /** `Server(max_caseload, wl, dl)`: an empty server of the given capacity. */
    constructor (maxCaseload: int, wl: Waitlist, dl: DischargeList)
      ensures this.maxCaseload == maxCaseload && this.wl == wl && this.dl == dl
      ensures caseload == [] && nPatients == 0
      ensures Valid()
    {
      this.maxCaseload := maxCaseload;
      this.wl := wl;
      this.dl := dl;
      caseload := [];
      nPatients := 0;
    }

    /** `process_epoch(epoch)` with the policy replaced by the choice `t`: the
        members at positions `t.leaving` go to the discharge list with discharge
        time `epoch`, in caseload order; the others stay, in order; then at most
        `t.admit` patients are taken from the waitlist, while the server is below
        its capacity and the waitlist is not empty. */
    method ProcessEpoch(epoch: int, t: Choice)
      requires Valid() && wl.Valid()
      modifies this`caseload, this`nPatients, wl, dl
      ensures Valid() && wl.Valid()
      ensures dl.patients == old(dl.patients) + StampAll(Leaving(old(caseload), t.leaving), epoch)
      ensures Retains(old(caseload), t, caseload)
      ensures Turned(old(caseload), t, old(wl.lanes), caseload, wl.lanes)
      ensures wl.Len() + |caseload| + dl.NPatients() == old(wl.Len() + |caseload| + dl.NPatients())
    {
      Release(epoch, t.leaving);
      ghost var kept := caseload;
      TakeOn(epoch, t.admit);
      assert caseload[|kept|..] == Fronts(old(wl.lanes), |caseload| - |kept|);
      assert TookFrom(|kept|, caseload, old(wl.lanes), wl.lanes);
    }

    /** The discharge part of a turn: the members at positions `leaving` go to the
        discharge list, stamped with `epoch`, and the rest stay in order. */
    method Release(epoch: int, leaving: set<nat>)
      requires Valid()
      modifies this`caseload, this`nPatients, dl
      ensures Valid()
      ensures caseload == Staying(old(caseload), leaving)
      ensures dl.patients == old(dl.patients) + StampAll(Leaving(old(caseload), leaving), epoch)
      ensures |caseload| + dl.NPatients() == old(|caseload| + dl.NPatients())
    {
      ghost var c0, d0 := caseload, dl.patients;
      var kept: seq<Patient> := [];
      var j := 0;
      while j < |caseload|
        invariant 0 <= j <= |c0| && caseload == c0
        invariant kept == Staying(c0[..j], leaving)
        invariant dl.patients == d0 + StampAll(Leaving(c0[..j], leaving), epoch)
      {
        assert c0[..j + 1][..j] == c0[..j];
        if j in leaving {
          ghost var out := StampAll(Leaving(c0[..j], leaving), epoch);
          StampAllSnoc(Leaving(c0[..j], leaving), c0[j], epoch);
          dl.AddPatient(SetDischargeTime(caseload[j], epoch));
          AppendAssoc(d0, out, [SetDischargeTime(c0[j], epoch)]);
        } else {
          kept := kept + [caseload[j]];
        }
        j := j + 1;
      }
      assert c0[..j] == c0;
      LeavingStaying(c0, leaving);
      caseload := kept;
      nPatients := |kept|;
    }

    /** The admission part of a turn: the next patients the waitlist hands out
        join the back of the caseload, one at a time, until `admit` have joined,
        the server is at its capacity, or the waitlist is empty. */
    method TakeOn(epoch: int, admit: nat)
      requires Valid() && wl.Valid()
      modifies this`caseload, this`nPatients, wl
      ensures Valid() && wl.Valid()
      ensures |old(caseload)| <= |caseload| <= |old(caseload)| + admit
      ensures |caseload| - |old(caseload)| <= old(wl.Len())
      ensures caseload == old(caseload) + Fronts(old(wl.lanes), |caseload| - |old(caseload)|)
      ensures wl.lanes == DequeueN(old(wl.lanes), |caseload| - |old(caseload)|)
      ensures |caseload| == |old(caseload)| + admit || |caseload| >= maxCaseload || wl.Len() == 0
    {
      ghost var c0, l0 := caseload, wl.lanes;
      var taken := 0;
      while taken < admit && |caseload| < maxCaseload && wl.Len() > 0
        invariant wl.Valid() && Valid()
        invariant taken <= admit && taken <= Total(l0) && |caseload| == |c0| + taken
        invariant caseload == c0 + Fronts(l0, taken)
        invariant wl.lanes == DequeueN(l0, taken)
        decreases admit - taken
      {
        FrontsSnoc(l0, taken);
        var p := wl.Pop(epoch);
        AppendAssoc(c0, Fronts(l0, taken), [p]);
        caseload := caseload + [p];
        nPatients := nPatients + 1;
        taken := taken + 1;
      }
    }
  }
}
