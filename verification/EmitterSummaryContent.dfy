/** What the summary says of the conversation: whether it needs someone, for what, and whether its
    last task ended unseen. */
module EmitterSummaryContent {
  import opened Options
  import opened Conversation
  import opened Tasks
  import opened TaskOutcomes
  import opened Replication
  import opened EmitterSummary
  import opened EmitterStatus
  import Spec = EmitterSpec
  import Ops = EmitterOps

  // ---- The requests ----

  function Waiting(requests: seq<RequestState>): set<int> {
    set i | 0 <= i < |requests| && requests[i].pending
  }

  /** Request i waits, and no other has waited longer; of those that came at once it is listed first. */
  ghost predicate WaitsLongest(requests: seq<RequestState>, i: int) {
    && 0 <= i < |requests| && requests[i].pending
    && forall j :: 0 <= j < |requests| && requests[j].pending && j != i ==>
      requests[i].createdAt < requests[j].createdAt || (requests[i].createdAt == requests[j].createdAt && i < j)
  }

  lemma {:induction false} PendingCounts(requests: seq<RequestState>)
    ensures Spec.Pending(requests) == |Waiting(requests)|
  {
    if |requests| > 0 {
      var n := |requests| - 1;
      PendingCounts(requests[..n]);
      assert Waiting(requests) == Waiting(requests[..n]) + if requests[n].pending then {n} else {};
    } else {
      assert Waiting(requests) == {};
    }
  }

  lemma {:induction false} OldestWaits(requests: seq<RequestState>) returns (i: int)
    ensures NonePending(requests) ==> Oldest(requests).None?
    ensures !NonePending(requests) ==> WaitsLongest(requests, i) && Oldest(requests) == Some(requests[i])
  {
    i := -1;
    if |requests| > 0 {
      var n := |requests| - 1;
      var front := requests[..n];
      i := OldestWaits(front);
      assert NonePending(requests) <==> NonePending(front) && !requests[n].pending;
      if !NonePending(front) {
        StillLongest(requests, i);
      }
      if requests[n].pending && (NonePending(front) || requests[n].createdAt < front[i].createdAt) {
        i := n;
      }
    }
  }

  lemma StillLongest(requests: seq<RequestState>, i: int)
    requires |requests| > 0 && WaitsLongest(requests[..|requests| - 1], i)
    ensures var n := |requests| - 1;
      if requests[n].pending && requests[n].createdAt < requests[i].createdAt then WaitsLongest(requests, n)
      else WaitsLongest(requests, i)
  {
    var n := |requests| - 1;
    var front := requests[..n];
    assert forall j :: 0 <= j < n ==> front[j] == requests[j];
    if requests[n].pending && requests[n].createdAt < requests[i].createdAt {
      forall j | 0 <= j < n && requests[j].pending ensures requests[n].createdAt < requests[j].createdAt {
        assert front[j].pending;
      }
    } else {
      forall j | 0 <= j < |requests| && requests[j].pending && j != i
        ensures requests[i].createdAt < requests[j].createdAt
          || (requests[i].createdAt == requests[j].createdAt && i < j)
      {
        if j < n {
          assert front[j].pending;
        }
      }
    }
  }

  /** The summary counts the requests that wait, and shows the one that has waited longest. */
  lemma ShowsRequests(s: Spec.State, x: Extra) returns (i: int)
    ensures var said := SummaryOf(s, x);
      && said.pending == |Waiting(s.c.requests)|
      && (NonePending(s.c.requests) ==> said.request.None?)
      && (!NonePending(s.c.requests) ==>
            WaitsLongest(s.c.requests, i) && said.request == Some(s.c.requests[i]))
  {
    hide Spec.Pending, Oldest, WaitsLongest, NonePending;
    PendingCounts(s.c.requests);
    i := OldestWaits(s.c.requests);
  }

  // ---- Who the conversation waits for ----

  /** A conversation asks while a request waits, whatever else; else it is at its limit while a turn is
      stopped at one; else its agent is gone once it exited or failed; and else it needs nobody. */
  lemma NeedsSomeone(s: Spec.State, x: Extra)
    ensures var a := SummaryOf(s, x).attention;
      && (a == Asks <==> !NonePending(s.c.requests))
      && (a == AtLimit <==> NonePending(s.c.requests) && s.limitStop.Some?)
      && (a == EmitterSummary.Gone <==>
            NonePending(s.c.requests) && s.limitStop.None? && TaskOutcomes.Gone(Spec.StatusOf(s)))
      && (a == NoAttention <==>
            NonePending(s.c.requests) && s.limitStop.None? && !TaskOutcomes.Gone(Spec.StatusOf(s)))
  {
    hide Spec.Pending, Oldest, NonePending;
    PendingIs(s.c.requests);
  }

  // ---- The last task ----

  /** It shows the task that came last; it is unread exactly when it ended since a client looked. */
  lemma ShowsTask(s: Spec.State, x: Extra)
    ensures var said := SummaryOf(s, x);
      && said.tasks == |s.c.tasks| && (said.task.None? <==> s.c.tasks == [])
      && (s.c.tasks != [] ==> said.task == Some(s.c.tasks[|s.c.tasks| - 1]))
      && (said.unread <==> said.task.Some? && match said.task.value.endedAt
                             case None => false
                             case Some(at) => x.seenAt < at)
  {
  }

  /** An agent that works on the last task says so until the conversation is stable: then the task is
      over, and unread unless a client looks after that; with no limit the conversation needs nobody. */
  lemma DoneIsUnread(s: Spec.State, x: Extra, status: Ops.ConversationStatus, now: int)
    requires Spec.Sound(s) && Informed(s) && s.t.Ok() && !s.held && s.t.status.agent == Working
    requires s.t.open == |s.c.tasks| - 1 >= 0 && NonePending(s.c.requests)
    ensures var said := SummaryOf(Ops.EmitStatus(s, status, now).0, x);
      && (said.unread <==> status == Ops.Stable && x.seenAt < now)
      && said.task.Some? && said.task.value.id == s.c.tasks[|s.c.tasks| - 1].id
      && (said.task.value.Final() <==> status == Ops.Stable)
      && (s.limitStop.None? ==> said.attention == NoAttention)
  {
    StableLeaves(s, status, now);
    hide *;
    var r := Ops.EmitStatus(s, status, now).0;
    ShowsTask(r, x);
    NeedsSomeone(r, x);
  }

  lemma StableLeaves(s: Spec.State, status: Ops.ConversationStatus, now: int)
    requires Spec.Sound(s) && Informed(s) && s.t.Ok() && !s.held && s.t.status.agent == Working
    requires s.t.open == |s.c.tasks| - 1 >= 0 && NonePending(s.c.requests)
    ensures var r := Ops.EmitStatus(s, status, now).0;
      && NonePending(r.c.requests) && r.limitStop == s.limitStop && !TaskOutcomes.Gone(Spec.StatusOf(r))
      && |r.c.tasks| == |s.c.tasks|
    ensures var was, task := s.c.tasks[|s.c.tasks| - 1], Ops.EmitStatus(s, status, now).0.c.tasks[|s.c.tasks| - 1];
      task.id == was.id && (task.Final() <==> status == Ops.Stable)
        && task.endedAt == if status == Ops.Stable then Some(now) else None
  {
    SoundLast(s);
    hide Spec.Sound, Ops.EmitStatus, NonePending, Informed, Leaves, Spec.StatusOf;
    StableEnds(s, status, now);
    StatusFrame(s, status, now);
    var r := Ops.EmitStatus(s, status, now).0;
    LeavesLast(s, r, status == Ops.Stable, now);
    NotGone(r);
  }

  lemma NotGone(r: Spec.State)
    requires r.lifecycle == r.reported && (r.reported == Ready || r.reported == Starting || r.reported == Busy)
    ensures !TaskOutcomes.Gone(Spec.StatusOf(r))
  {
  }

  lemma LeavesLast(s: Spec.State, r: Spec.State, ends: bool, now: int)
    requires Leaves(s, r, ends, now) && s.t.open == |s.c.tasks| - 1 >= 0
    requires var task := s.c.tasks[|s.c.tasks| - 1]; !task.Final() && task.endedAt.None?
    ensures |r.c.tasks| == |s.c.tasks|
    ensures var was, task := s.c.tasks[|s.c.tasks| - 1], r.c.tasks[|s.c.tasks| - 1];
      task.id == was.id && (task.Final() <==> ends) && task.endedAt == if ends then Some(now) else None
  {
  }

  lemma SoundLast(s: Spec.State)
    requires Spec.Sound(s) && s.t.open == |s.c.tasks| - 1 >= 0
    ensures var task := s.c.tasks[|s.c.tasks| - 1]; !task.Final() && task.endedAt.None?
  {
  }
}
