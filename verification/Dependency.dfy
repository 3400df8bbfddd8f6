/** The order a batch of tool calls has to respect, stated without queues. */
module Dependency {

  // A later call waits for every earlier call whose claims clash with its own.
  // The scheduler is proved to implement exactly this rule.

  datatype Mode = Shared | Exclusive

  datatype Claim = Claim(key: string, mode: Mode)

  // A call that passed preflight: its place in the batch and its claims.
  datatype Prepared = Prepared(batchIndex: nat, claims: seq<Claim>)

  predicate Clash(a: Claim, b: Claim) {
    a.key == b.key && (a.mode.Exclusive? || b.mode.Exclusive?)
  }

  ghost predicate Conflict(ps: seq<Prepared>, i: nat, j: nat)
    requires i < |ps| && j < |ps|
  {
    exists a, b | a in ps[i].claims && b in ps[j].claims :: Clash(a, b)
  }

  lemma ConflictSymmetric(ps: seq<Prepared>, i: nat, j: nat)
    requires i < |ps| && j < |ps|
    ensures Conflict(ps, i, j) <==> Conflict(ps, j, i)
  {
    if Conflict(ps, i, j) {
      var a, b :| a in ps[i].claims && b in ps[j].claims && Clash(a, b);
      assert Clash(b, a);
    }
    if Conflict(ps, j, i) {
      var a, b :| a in ps[j].claims && b in ps[i].claims && Clash(a, b);
      assert Clash(b, a);
    }
  }

  ghost predicate DistinctKeys(claims: seq<Claim>) {
    forall x, y | 0 <= x < y < |claims| :: claims[x].key != claims[y].key
  }

  // What preflight hands to the scheduler: normalized claims, source order.
  ghost predicate WellFormed(ps: seq<Prepared>) {
    && (forall i | 0 <= i < |ps| :: DistinctKeys(ps[i].claims))
    && (forall i, j | 0 <= i < j < |ps| :: ps[i].batchIndex < ps[j].batchIndex)
  }

  // Which calls have been started and which have completed.
  datatype Progress = Progress(started: set<nat>, completed: set<nat>)

  ghost predicate CanStart(ps: seq<Prepared>, s: Progress, j: nat) {
    && j < |ps|
    && j !in s.started
    && (forall i | 0 <= i < j && Conflict(ps, i, j) :: i in s.completed)
  }

  /** Two claims clash exactly when they name the same key and one of them is
      exclusive: calls that only share a key do not wait for each other. */
  lemma CanStartIff(ps: seq<Prepared>, s: Progress, j: nat)
    ensures CanStart(ps, s, j) <==>
              && j < |ps| && j !in s.started
              && forall i, a, b | 0 <= i < j && a in ps[i].claims && b in ps[j].claims
                                  && a.key == b.key && (a.mode.Exclusive? || b.mode.Exclusive?) :: i in s.completed
  {
    if CanStart(ps, s, j) {
      forall i, a, b | 0 <= i < j && a in ps[i].claims && b in ps[j].claims && a.key == b.key && (a.mode.Exclusive? || b.mode.Exclusive?)
        ensures i in s.completed
      {
        assert Clash(a, b);
        assert Conflict(ps, i, j);
      }
    }
  }

  ghost predicate Init(s: Progress) {
    s == Progress({}, {})
  }

  ghost predicate StartStep(ps: seq<Prepared>, s: Progress, t: Progress, j: nat) {
    CanStart(ps, s, j) && t == s.(started := s.started + {j})
  }

  ghost predicate CompleteStep(s: Progress, t: Progress, j: nat) {
    j in s.started && j !in s.completed && t == s.(completed := s.completed + {j})
  }

  // What every reachable state satisfies.
  ghost predicate Inv(ps: seq<Prepared>, s: Progress) {
    && s.completed <= s.started
    && (forall j | j in s.started :: j < |ps|)
    && (forall i, j | 0 <= i < j && j in s.started && Conflict(ps, i, j) :: i in s.completed)
  }

  lemma StepKeepsInv(ps: seq<Prepared>, s: Progress, t: Progress, j: nat)
    requires Inv(ps, s)
    requires StartStep(ps, s, t, j) || CompleteStep(s, t, j)
    ensures Inv(ps, t)
  {
  }

  ghost predicate Running(s: Progress, j: nat) {
    j in s.started && j !in s.completed
  }

  /** Two calls that run at the same time never hold clashing claims. */
  lemma RunningCallsDoNotConflict(ps: seq<Prepared>, s: Progress, i: nat, j: nat)
    requires Inv(ps, s) && Running(s, i) && Running(s, j) && i != j
    ensures i < |ps| && j < |ps| && !Conflict(ps, i, j)
  {
    ConflictSymmetric(ps, i, j);
  }

  /** A batch with an uncompleted call is never stuck: the first uncompleted
      call is running or may start. */
  lemma {:induction false} NeverStuck(ps: seq<Prepared>, s: Progress, j: nat)
    requires Inv(ps, s)
    requires j < |ps| && j !in s.completed
    ensures exists i: nat | i <= j :: Running(s, i) || CanStart(ps, s, i)
    decreases j
  {
    if i: nat :| i < j && i !in s.completed {
      NeverStuck(ps, s, i);
    } else {
      assert Running(s, j) || CanStart(ps, s, j);
    }
  }
}
