// A host's pacer and the set of them as objects. The ghost field state is the record the
// pipeline's state machine steps with, and it only ever changes by that machine's
// transitions: Enqueue, Close and Take make one each, Run makes one per operation of its
// loop.
module Pacing {
  import opened Model
  import opened Pipeline

  // What happens to a pacer in one round of its loop: the jobs that arrived and whether it
  // was told to stop before it took the lock, whether the context had ended by then, and
  // how the wait for a token and the send end.
  datatype Round = Round(arrivals: seq<Job>, closes: bool, cancelled: bool, granted: bool, sends: bool)

  datatype Exit = Looping | Drained | ContextEnded | TokenRefused | SendRefused

  function Arrived(rounds: seq<Round>): seq<Job> {
    if rounds == [] then [] else Arrived(rounds[..|rounds| - 1]) + rounds[|rounds| - 1].arrivals
  }

  class HostPacer {
    var q: seq<Job>
    var done: bool
    ghost var state: Pacer

    ghost predicate Valid()
      reads this
    {
      state.q == q && state.done == done
    }

    constructor ()
      ensures Valid() && state == NewPacer()
    {
      q, done, state := [], false, NewPacer();
    }

    method Enqueue(job: Job)
      requires Valid()
      modifies this
      ensures Valid() && state == Enqueued(old(state), job)
    {
      q := q + [job];
      state := Enqueued(state, job);
    }

    method Close()
      requires Valid()
      modifies this
      ensures Valid() && state == old(state).(done := true)
    {
      done := true;
      state := state.(done := true);
    }

    // The locked part of a round, once the loop guard is false: leave, or take the next job.
    method Take(cancelled: bool) returns (job: Option<Job>)
      requires Valid() && state.pc.Guarded? && (q != [] || done || cancelled)
      modifies this
      ensures Valid() && state == PacerNext(old(state), cancelled)
      ensures state.pc.Exited? || state.pc.Acquiring?
      ensures job == if state.pc.Exited? then None else Some(state.pc.job)
      ensures if cancelled || old(q) == [] then job == None && q == old(q) else job == Some(old(q)[0]) && q == old(q)[1..]
      ensures done == old(done) && state.released == old(state.released)
    {
      state := PacerNext(state, cancelled);
      if cancelled {
        return None;
      }
      if |q| == 0 && done {
        return None;
      }
      job := Some(q[0]);
      q := q[1..];
    }

    method Meet(r: Round)
      requires Valid()
      modifies this
      ensures Valid() && q == old(q) + r.arrivals && done == (old(done) || r.closes)
      ensures state == old(state).(q := q, done := done, accepted := old(state.accepted) + r.arrivals)
    {
      for k := 0 to |r.arrivals|
        invariant Valid() && q == old(q) + r.arrivals[..k] && done == old(done)
        invariant state == old(state).(q := q, accepted := old(state.accepted) + r.arrivals[..k])
      {
        Enqueue(r.arrivals[k]);
      }
      assert r.arrivals[..|r.arrivals|] == r.arrivals;
      if r.closes { Close(); }
    }

    // The pacer's loop, for as many rounds as are given. What it sends is what it was given,
    // in order; at most one job is dropped on the way out, and none on a clean exit.
    method Run(rounds: seq<Round>) returns (out: seq<Job>, lost: seq<Job>, exit: Exit, ghost used: nat)
      requires Valid() && state.pc.Starting?
      modifies this
      ensures used <= |rounds|
      ensures out + lost + q == old(q) + Arrived(rounds[..used])
      ensures Valid() && state.released == old(state.released) + out
      ensures state.pc.Exited? <==> !exit.Looping?
      ensures exit.Looping? ==> used == |rounds| && lost == []
      ensures exit.Drained? ==> lost == [] && q == [] && done
      ensures exit.ContextEnded? ==> lost == [] && used > 0 && rounds[used - 1].cancelled
      ensures exit.TokenRefused? ==> |lost| == 1 && state.lost == lost && used > 0 && !rounds[used - 1].granted
      ensures exit.SendRefused? ==>
        |lost| == 1 && state.lost == lost && used > 0 && rounds[used - 1].granted && !rounds[used - 1].sends
    {
      hide Arrived, Enqueued, Woken, PacerNext, Dropped;
      out, lost, used := [], [], 0;
      NothingArrived(rounds);
      Begin();
      for n := 0 to |rounds|
        invariant used == n && lost == [] && Valid() && state.released == old(state.released) + out
        invariant state.pc.WantLock? || state.pc.Waiting?
        invariant out + q == old(q) + Arrived(rounds[..n])
      {
        var r := rounds[n];
        MoreArrived(old(q), rounds, n, out, q);
        Meet(r);
        used := n + 1;
        Lock(r.cancelled);
        if |q| == 0 && !done && !r.cancelled {
          // cond.Wait: the next round begins with a wakeup.
          continue;
        }
        ghost var held := q;
        var job := Take(r.cancelled);
        if job.None? {
          return out, [], if r.cancelled then ContextEnded else Drained, used;
        }
        HeadMoves(out, held);
        if !r.granted {
          Drop(false, r.cancelled);
          return out, [job.value], TokenRefused, used;
        }
        if !r.sends {
          Drop(true, r.cancelled);
          return out, [job.value], SendRefused, used;
        }
        Release(r.cancelled);
        out := out + [job.value];
      }
      exit := Looping;
      assert rounds[..|rounds|] == rounds;
    }

    ghost method Begin()
      requires Valid() && state.pc.Starting?
      modifies this`state
      ensures Valid() && state == old(state).(pc := WantLock)
    {
      state := PacerNext(state, false);
    }

    // Waking if asleep, taking the lock, and the loop guard: on to a job, or to sleep.
    ghost method Lock(cancelled: bool)
      requires Valid() && (state.pc.WantLock? || state.pc.Waiting?)
      modifies this`state
      ensures Valid() && state == old(state).(pc := if q == [] && !done && !cancelled then Waiting else Guarded)
    {
      state := PacerNext(PacerNext(Woken(state), cancelled), cancelled);
      if state.pc.Entering? { state := PacerNext(state, cancelled); }
    }

    // Leaving with a job in hand, before or after its token was granted.
    ghost method Drop(granted: bool, cancelled: bool)
      requires Valid() && state.pc.Acquiring?
      modifies this`state
      ensures Valid() && state == old(state).(pc := Exited, lost := [old(state.pc.job)])
    {
      state := Dropped(if granted then PacerNext(state, cancelled) else state);
    }

    // The token and the send.
    ghost method Release(cancelled: bool)
      requires Valid() && state.pc.Acquiring?
      modifies this`state
      ensures Valid() && state == old(state).(pc := WantLock, released := old(state.released) + [old(state.pc.job)])
    {
      state := PacerNext(PacerNext(state, cancelled), cancelled);
    }
  }

  lemma NothingArrived(rounds: seq<Round>)
    ensures Arrived(rounds[..0]) == []
  {
  }

  lemma MoreArrived(before: seq<Job>, rounds: seq<Round>, n: nat, out: seq<Job>, q: seq<Job>)
    requires n < |rounds| && out + q == before + Arrived(rounds[..n])
    ensures out + (q + rounds[n].arrivals) == before + Arrived(rounds[..n + 1])
  {
    assert rounds[..n + 1][..n] == rounds[..n];
    assert out + (q + rounds[n].arrivals) == (out + q) + rounds[n].arrivals;
  }

  lemma HeadMoves(out: seq<Job>, q: seq<Job>)
    requires q != []
    ensures (out + [q[0]]) + q[1..] == out + q
  {
  }

  class PacerSet {
    var pacers: map<Host, HostPacer>

    // Every host has a pacer of its own.
    ghost predicate Apart()
      reads this
    {
      forall h, k :: h in pacers && k in pacers && h != k ==> pacers[h] != pacers[k]
    }

    ghost predicate Valid()
      reads this, pacers.Values
    {
      Apart() && forall h :: h in pacers ==> pacers[h].Valid()
    }

    constructor ()
      ensures Valid() && pacers == map[]
    {
      pacers := map[];
    }

    // A host's first job creates its pacer; no other host's pacer is touched.
    method Dispatch(job: Job)
      requires Valid()
      modifies this, pacers.Values
      ensures Valid()
      ensures pacers.Keys == old(pacers).Keys + {job.host}
      ensures forall h :: h in old(pacers) ==> pacers[h] == old(pacers)[h]
      ensures pacers[job.host].state == Enqueued(if job.host in old(pacers) then old(pacers[job.host].state) else NewPacer(), job)
      ensures forall h :: h in old(pacers) && h != job.host ==> pacers[h].state == old(pacers[h].state)
    {
      hide Enqueued;
      var p;
      if job.host in pacers {
        p := pacers[job.host];
      } else {
        p := new HostPacer();
        pacers := pacers[job.host := p];
      }
      p.Enqueue(job);
    }

    // Tells every pacer to stop; their exits are awaited elsewhere.
    method CloseAll()
      requires Valid()
      modifies pacers.Values
      ensures Valid()
      ensures forall h :: h in pacers ==> pacers[h].state == old(pacers[h].state).(done := true)
    {
      var rest := pacers.Keys;
      while rest != {}
        invariant rest <= pacers.Keys
        invariant forall h :: h in pacers ==> pacers[h].Valid()
        invariant forall h :: h in rest ==> pacers[h].state == old(pacers[h].state)
        invariant forall h :: h in pacers && h !in rest ==> pacers[h].state == old(pacers[h].state).(done := true)
        decreases |rest|
      {
        var h :| h in rest;
        rest := rest - {h};
        CloseOne(h);
      }
    }

    method CloseOne(h: Host)
      requires Apart() && h in pacers && pacers[h].Valid()
      modifies pacers[h]
      ensures pacers[h].Valid() && pacers[h].state == old(pacers[h].state).(done := true)
      ensures forall k :: k in pacers && k != h ==> pacers[k].state == old(pacers[k].state)
      ensures forall k :: k in pacers && k != h && old(pacers[k].Valid()) ==> pacers[k].Valid()
    {
      pacers[h].Close();
    }
  }
}
