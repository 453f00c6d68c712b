/** What a commit that reported an error leaves behind. */
module FailedCommits {
  import opened Events
  import opened Protocol
  import opened AppendSafety
  import opened DispatchSafety
  import opened Continuations

  /** Another claim than d has published and marked the row. */
  ghost predicate MarkedByAnother(sessions: seq<Session>, d: nat, id: nat) {
    exists e, j :: 0 <= e < |sessions| && e != d && sessions[e].marked &&
                   0 <= j < sessions[e].published && j < |sessions[e].ids| && sessions[e].ids[j] == id
  }

  /** Once claim d has ended on both sides, a row that it published is dispatched exactly if its own marks took
      effect or another claim marked the row; otherwise it is pending, and claimable unless another claim
      holds it. */
  lemma EndedClaim<E>(s: State<E>, d: nat, j: nat)
    requires DispatchInv(s) && d < |s.sessions| && !s.sessions[d].Open()
    requires j < s.sessions[d].published && j < |s.sessions[d].ids|
    ensures var id := s.sessions[d].ids[j];
      && (id in s.dispatched <==> s.sessions[d].marked || MarkedByAnother(s.sessions, d, id))
      && (id !in s.dispatched <==> Claimable(s, id) || Locked(s, id))
  {
    var id := s.sessions[d].ids[j];
    assert SessionOk(s.outbox, s.dispatched, s.sessions[d]);
    if id in s.dispatched {
      assert MarkedBy(s.sessions, id);
    }
    if MarkedByAnother(s.sessions, d, id) {
      var e, k :| 0 <= e < |s.sessions| && e != d && s.sessions[e].marked &&
                  0 <= k < s.sessions[e].published && k < |s.sessions[e].ids| && s.sessions[e].ids[k] == id;
      assert SessionOk(s.outbox, s.dispatched, s.sessions[e]);
    }
    if Locked(s, id) {
      LockedIsPending(s, id);
    }
  }

  /** Right after a commit that reported an error: what the claim published is pending if and only if no other claim
      has marked it; while the transaction is still open, none can have. */
  lemma AfterFailedCommit<E>(s: State<E>, d: nat, j: nat)
    requires DispatchInv(s) && Enabled(s, CommitClaimError(d))
    requires j < s.sessions[d].published && j < |s.sessions[d].ids|
    ensures var s', id := After(s, Step<E>.CommitClaimError(d)), s.sessions[d].ids[j];
      && (id !in s'.dispatched <==> !MarkedByAnother(s'.sessions, d, id))
      && (s.sessions[d].live ==> id !in s'.dispatched)
  {
    var s', id := After(s, Step<E>.CommitClaimError(d)), s.sessions[d].ids[j];
    assert SessionOk(s.outbox, s.dispatched, s.sessions[d]);
    if id in s.dispatched {
      assert MarkedBy(s.sessions, id);
      var e, k :| 0 <= e < |s.sessions| && s.sessions[e].marked &&
                  0 <= k < s.sessions[e].published && k < |s.sessions[e].ids| && s.sessions[e].ids[k] == id;
      assert e != d && s'.sessions[e] == s.sessions[e];
    }
    if MarkedByAnother(s'.sessions, d, id) {
      var e, k :| 0 <= e < |s'.sessions| && e != d && s'.sessions[e].marked &&
                  0 <= k < s'.sessions[e].published && k < |s'.sessions[e].ids| && s'.sessions[e].ids[k] == id;
      assert s'.sessions[e] == s.sessions[e] && SessionOk(s.outbox, s.dispatched, s.sessions[e]);
    }
  }

  /** In the state that the steps lead to, what claim d published is pending unless another claim marked it. */
  ghost predicate StillPending<E>(s: State<E>, steps: seq<Step<E>>, d: nat) {
    && From(s, steps).Some?
    && var s' := From(s, steps).value;
    && d < |s'.sessions|
    && forall j | 0 <= j < s'.sessions[d].published && j < |s'.sessions[d].ids| ::
         s'.sessions[d].ids[j] in s'.dispatched ==> MarkedByAnother(s'.sessions, d, s'.sessions[d].ids[j])
  }

  /** A claim that has ended on both sides is left alone by every step. */
  lemma EndedStays<E>(s: State<E>, step: Step<E>, d: nat)
    requires Enabled(s, step) && d < |s.sessions| && !s.sessions[d].Open()
    ensures d < |After(s, step).sessions| && After(s, step).sessions[d] == s.sessions[d]
  {
  }

  lemma {:induction false} EndedStaysFrom<E>(s: State<E>, steps: seq<Step<E>>, d: nat)
    requires From(s, steps).Some? && d < |s.sessions| && !s.sessions[d].Open()
    ensures d < |From(s, steps).value.sessions| && From(s, steps).value.sessions[d] == s.sessions[d]
  {
    if steps != [] {
      EndedStaysFrom(s, steps[..|steps| - 1], d);
      EndedStays(From(s, steps[..|steps| - 1]).value, steps[|steps| - 1], d);
    }
  }

  /** The server applies the commit after all. */
  lemma ServerMayMark<E>(s: State<E>, d: nat) returns (steps: seq<Step<E>>)
    requires DispatchInv(s) && d < |s.sessions| && s.sessions[d].live && s.sessions[d].sent
    requires 0 < s.sessions[d].published <= |s.sessions[d].ids|
    ensures From(s, steps).Some? && !StillPending(s, steps, d)
  {
    var x := s.sessions[d];
    var id := x.ids[0];
    steps := FromExtends(s, [], s, ServerMark(d));
    var s' := After(s, Step<E>.ServerMark(d));
    assert x.ids[..x.published][0] == id && id in s'.dispatched;
    assert SessionOk(s.outbox, s.dispatched, x);
    forall e, k | 0 <= e < |s'.sessions| && e != d && s'.sessions[e].marked &&
                  0 <= k < s'.sessions[e].published && k < |s'.sessions[e].ids|
      ensures s'.sessions[e].ids[k] != id
    {
      assert s'.sessions[e] == s.sessions[e] && SessionOk(s.outbox, s.dispatched, s.sessions[e]);
    }
    assert s'.sessions[d].ids[0] == id && !MarkedByAnother(s'.sessions, d, id);
    assert From(s, steps) == Some(s');
  }

  /** The comment on a failed commit says that its rows are still pending. That is so, whatever happens next, if and
      only if the transaction was already gone when the commit was sent. */
  lemma FailedCommitCondition<E>(s: State<E>, d: nat)
    requires AppendInv(s) && DispatchInv(s) && Enabled(s, CommitClaimError(d)) && s.sessions[d].published > 0
    ensures var s' := After(s, Step<E>.CommitClaimError(d));
      !s.sessions[d].live <==> forall steps | From(s', steps).Some? :: StillPending(s', steps, d)
  {
    var fail: Step<E> := CommitClaimError(d);
    var s' := After(s, fail);
    StepKeepsAppendInv(s, fail);
    StepKeepsDispatchInv(s, fail);
    assert SessionOk(s.outbox, s.dispatched, s.sessions[d]);
    if s.sessions[d].live {
      var steps := ServerMayMark(s', d);
      assert !StillPending(s', steps, d);
    } else {
      forall steps | From(s', steps).Some? ensures StillPending(s', steps, d) {
        NeverMarked(s', steps, d);
      }
    }
  }

  lemma NeverMarked<E>(s: State<E>, steps: seq<Step<E>>, d: nat)
    requires AppendInv(s) && DispatchInv(s) && From(s, steps).Some?
    requires d < |s.sessions| && !s.sessions[d].Open() && !s.sessions[d].marked
    ensures StillPending(s, steps, d)
  {
    var s' := From(s, steps).value;
    FromKeepsInv(s, steps);
    EndedStaysFrom(s, steps, d);
    forall j | 0 <= j < s'.sessions[d].published && j < |s'.sessions[d].ids|
      ensures s'.sessions[d].ids[j] in s'.dispatched ==> MarkedByAnother(s'.sessions, d, s'.sessions[d].ids[j])
    {
      EndedClaim(s', d, j);
    }
  }
}
