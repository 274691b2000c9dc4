/** The tracker as the emitter calls it: its fields change in place, and each
    call leaves what Tasks says it does. */
module TaskTracking {
  import opened Options
  import opened Conversation
  import opened Tasks
  import opened TaskFacts
  import opened TaskTheorems
  import opened TaskRuns

  /** Works out where each message is, from position from on. */
  method Locate(msgs: seq<Message>, from: nat) returns (at: map<int, int>)
    requires from <= |msgs|
    ensures at == PositionsFrom(msgs, from)
  {
    at := map[];
    var i := from;
    while i < |msgs|
      invariant from <= i <= |msgs|
      invariant at == PositionsFrom(msgs[..i], from)
    {
      at := at[msgs[i].id := i];
      assert msgs[..i + 1][..i] == msgs[..i];
      i := i + 1;
    }
    assert msgs[..i] == msgs;
  }

  /** Takes out of ids those that at doesn't have. */
  method DeleteMissing(ids: seq<int>, at: map<int, int>) returns (kept: seq<int>)
    ensures kept == KeepIds(ids, at)
  {
    kept := [];
    var i := 0;
    while i < |ids|
      invariant 0 <= i <= |ids|
      invariant kept + KeepIds(ids[i..], at) == KeepIds(ids, at)
    {
      KeepIdsNext(ids, at, i, kept);
      if ids[i] in at {
        kept := kept + [ids[i]];
      }
      i := i + 1;
    }
  }

  lemma KeepIdsNext(ids: seq<int>, at: map<int, int>, i: int, kept: seq<int>)
    requires 0 <= i < |ids|
    ensures kept + KeepIds(ids[i..], at) == (if ids[i] in at then kept + [ids[i]] else kept) + KeepIds(ids[i + 1..], at)
  {
    assert ids[i..][0] == ids[i] && ids[i..][1..] == ids[i + 1..];
    var rest := KeepIds(ids[i + 1..], at);
    assert kept + ([ids[i]] + rest) == kept + [ids[i]] + rest;
    assert kept + ([] + rest) == kept + rest;
  }

  method LookBack(msgs: seq<Message>, n: int, id: int) returns (j: int)
    requires 0 <= n <= |msgs|
    ensures j == FindBack(msgs, n, id)
  {
    j := n - 1;
    while j >= 0 && msgs[j].id != id
      invariant -1 <= j < n
      invariant FindBack(msgs, j + 1, id) == FindBack(msgs, n, id)
    {
      j := j - 1;
    }
  }

  /** Takes the restored tasks whose message is still there. */
  method DeleteUnmatched(restored: seq<Task>, msgs: seq<Message>, at: map<int, int>) returns (kept: seq<Task>)
    requires PositionsOk(at, msgs)
    ensures kept == Matching(restored, msgs, at)
  {
    kept := [];
    var i := 0;
    while i < |restored|
      invariant 0 <= i <= |restored|
      invariant kept == Matching(restored[..i], msgs, at)
    {
      assert restored[..i + 1][..i] == restored[..i];
      var task := restored[i];
      if task.id in at && msgs[at[task.id]].role == User && msgs[at[task.id]].time == task.startedAt {
        kept := kept + [task];
      }
      i := i + 1;
    }
    assert restored[..i] == restored;
  }

  class TaskTracker {
    var tasks: seq<Task>
    var owners: map<int, int>
    var ids: seq<int>
    var inOrder: bool
    var rederive: bool
    var open: int
    var ran: bool
    var since: int
    var status: Status
    /** The messages last taken. */
    ghost var last: seq<Message>

    ghost function View(): (t: Tracker)
      reads this
    {
      Tracker(tasks, owners, ids, inOrder, rederive, open, ran, since, status)
    }

    /** What holds between the calls. */
    ghost predicate Valid()
      reads this
    {
      Tidy(View(), last)
    }

    constructor (since: int)
      ensures Valid() && View() == New(since) && last == []
    {
      tasks, owners, ids, inOrder, rederive := [], map[], [], true, false;
      open, ran := -1, false;
      this.since, status := since, Status(Unknown, Starting, 0, None, None);
      last := [];
      new;
      NewTidy(since);
    }

    method StartOver(now: int)
      requires Valid()
      modifies this
      ensures Valid() && View() == Reset(old(View()), now) && last == []
    {
      NextKeepsTidy(View(), last, Step.StartOver(now));
      tasks, open, ran, since := [], -1, false, now;
      ids, inOrder, rederive := [], true, false;
      owners := map[];
      last := [];
    }

    /** Ends the task at position i, with the outcome its turn had. */
    method EndTask(i: int, now: int)
      requires View().Ok() && 0 <= i < |tasks|
      modifies this`tasks, this`open, this`ran
      ensures View() == End(old(View()), i, now)
    {
      var task := tasks[i];
      task := task.(endedAt := Some(now));
      if status.limit.Some? && status.limit.value.stoppedAt >= task.startedAt {
        task := task.(status := Limited, limit := status.limit);
      } else if status.retry.Some? && status.retry.value.stoppedAt >= task.startedAt {
        task := task.(status := TaskStatus.Failed, errors := task.errors + [status.retry.value.message]);
      } else if |task.errors| > 0 {
        task := task.(status := TaskStatus.Failed);
      } else {
        task := task.(status := Completed);
      }
      tasks := tasks[i := task];
      if open == i {
        open, ran := -1, false;
      }
    }

    method Report(next: Status, now: int) returns (changed: seq<int>, confirm: bool)
      requires Valid()
      modifies this`tasks, this`open, this`ran, this`status
      ensures Valid() && (View(), changed, confirm) == StatusChanged(old(View()), next, now)
    {
      ReportKeepsTidy(View(), last, next, now);
      var previous := status;
      status := next;
      changed, confirm := [], false;
      if open < 0 {
        return;
      }
      var i := open;
      if next.lifecycle == Exited || next.lifecycle == Lifecycle.Failed {
        var why := if next.lifecycle == Exited then "the agent exited" else "the agent failed";
        tasks := tasks[i := tasks[i].(errors := tasks[i].errors + [why])];
        EndTask(i, now);
        changed := [i];
      } else if next.agent == Working {
        ran := true;
      } else if ran && status.Idle() {
        if previous.agent == Working {
          EndTask(i, now);
          changed := [i];
        } else {
          confirm := true;
        }
      }
    }

    method EndAfterGrace(now: int) returns (changed: seq<int>)
      requires Valid()
      modifies this`tasks, this`open, this`ran
      ensures Valid() && (View(), changed) == EndIfIdle(old(View()), now)
    {
      GraceKeepsTidy(View(), last, now);
      if open < 0 || !ran || !status.Idle() {
        return [];
      }
      changed := [open];
      EndTask(open, now);
    }

    method NoteError(isError: bool, message: string) returns (changed: seq<int>)
      requires Valid()
      modifies this`tasks
      ensures Valid() && (View(), changed) == AgentError(old(View()), isError, message)
    {
      FailKeepsTidy(View(), last, isError, message);
      if open < 0 || !isError {
        return [];
      }
      tasks := tasks[open := tasks[open].(errors := tasks[open].errors + [message])];
      changed := [open];
    }

    method AddTask(task: Task)
      requires View().Ok()
      modifies this`tasks, this`owners, this`inOrder
      ensures View() == Add(old(View()), task)
    {
      var n := |tasks|;
      if n > 0 && tasks[n - 1].id >= task.id {
        inOrder := false;
      }
      owners := owners[task.id := n];
      tasks := tasks + [task];
    }

    /** Gives one message, if it is the user's and no task holds it, its own task or the running one. */
    method OwnMessage(msg: Message, before: seq<int>) returns (changed: seq<int>)
      requires View().Ok()
      modifies this`tasks, this`owners, this`inOrder, this`open, this`ran
      ensures (View(), changed) == OwnOne(old(View()), msg, before)
    {
      changed := before;
      if msg.role != User || msg.id in owners {
        return;
      }
      if msg.time < since {
        changed := changed + [|tasks|];
        AddTask(HistoryTask(msg));
        return;
      }
      if open >= 0 && ran && status.Idle() {
        changed := AppendOnce(changed, open);
        EndTask(open, msg.time);
      }
      if open >= 0 {
        tasks := tasks[open := tasks[open].(steered := tasks[open].steered + [msg.id])];
        owners := owners[msg.id := open];
        changed := AppendOnce(changed, open);
        return;
      }
      AddTask(RunningTask(msg));
      open := |tasks| - 1;
      ran := status.agent == Working;
      changed := changed + [open];
    }

    method OwnMessages(msgs: seq<Message>, before: seq<int>) returns (changed: seq<int>)
      requires View().Ok()
      modifies this`tasks, this`owners, this`inOrder, this`open, this`ran
      ensures View().Ok() && (View(), changed) == Own(old(View()), msgs, before)
    {
      changed := before;
      var i := 0;
      while i < |msgs|
        invariant 0 <= i <= |msgs| && View().Ok()
        invariant Own(View(), msgs[i..], changed) == old(Own(View(), msgs, before))
      {
        assert msgs[i..][0] == msgs[i] && msgs[i..][1..] == msgs[i + 1..];
        changed := OwnMessage(msgs[i], changed);
        i := i + 1;
      }
    }

    /** Updates the reply of task i. */
    method UpdateReply(msgs: seq<Message>, i: int, at: map<int, int>, before: seq<int>) returns (changed: seq<int>)
      requires 0 <= i < |tasks| && PositionsOk(at, msgs)
      modifies this`tasks
      ensures (View(), changed) == ReplyOne(old(View()), msgs, i, at, before)
    {
      changed := before;
      if tasks[i].id !in at {
        return;
      }
      var from := at[tasks[i].id];
      var next := |msgs|;
      if i + 1 < |tasks| && tasks[i + 1].id in at {
        next := at[tasks[i + 1].id];
      }
      var reply := -1;
      var j := from + 1;
      while j < next
        invariant from + 1 <= j
        invariant j <= next || j == from + 1
        invariant reply == LastReply(msgs, from + 1, if j <= next then j else next)
      {
        if msgs[j].role == Agent && msgs[j].text != [] {
          reply := j;
        }
        j := j + 1;
      }
      if reply < 0 || tasks[i].replyId == Some(msgs[reply].id) {
        return;
      }
      var task := tasks[i].(replyId := Some(msgs[reply].id));
      if task.status == Completed && task.startedAt < since {
        task := task.(endedAt := Some(msgs[reply].time));
      }
      tasks := tasks[i := task];
      changed := AppendOnce(changed, i);
    }

    method UpdateReplies(msgs: seq<Message>, k: int, at: map<int, int>, before: seq<int>) returns (changed: seq<int>)
      requires 0 <= k <= |tasks| && PositionsOk(at, msgs)
      modifies this`tasks
      ensures |tasks| == old(|tasks|) && (View(), changed) == Replies(old(View()), msgs, k, at, before)
    {
      changed := before;
      var i := k;
      while i < |tasks|
        invariant k <= i <= |tasks| == old(|tasks|)
        invariant Replies(View(), msgs, i, at, changed) == old(Replies(View(), msgs, k, at, before))
      {
        changed := UpdateReply(msgs, i, at, changed);
        i := i + 1;
      }
    }

    /** The task at position i owns the messages it holds. */
    method IndexTask(i: int)
      requires 0 <= i < |tasks|
      modifies this`owners
      ensures owners == OwnAll(old(owners)[tasks[i].id := i], tasks[i].steered, i)
    {
      owners := owners[tasks[i].id := i];
      ghost var base := owners;
      var steered := tasks[i].steered;
      var j := 0;
      while j < |steered|
        invariant 0 <= j <= |steered|
        invariant OwnAll(owners, steered[j..], i) == OwnAll(base, steered, i)
      {
        assert steered[j..][1..] == steered[j + 1..];
        owners := owners[steered[j] := i];
        j := j + 1;
      }
    }

    /** Takes the task at position i in, after those before it. */
    method IndexNext(i: int)
      requires 0 <= i < |tasks| && owners == OwnersOf(tasks[..i]) && inOrder == TasksInOrder(tasks[..i])
      modifies this`owners, this`inOrder
      ensures owners == OwnersOf(tasks[..i + 1]) && inOrder == TasksInOrder(tasks[..i + 1])
    {
      ghost var before := tasks[..i];
      OwnersOfMore(before, tasks[i]);
      assert tasks[..i + 1] == before + [tasks[i]];
      if i > 0 && tasks[i - 1].id >= tasks[i].id {
        inOrder := false;
      }
      InOrderMore(before, tasks[i]);
      IndexTask(i);
    }

    /** Works out owners, and whether the tasks are in order, from the tasks. */
    method Index()
      modifies this`owners, this`inOrder
      ensures owners == OwnersOf(tasks) && inOrder == TasksInOrder(tasks)
    {
      owners, inOrder := map[], true;
      var i := 0;
      while i < |tasks|
        invariant 0 <= i <= |tasks|
        invariant owners == OwnersOf(tasks[..i])
        invariant inOrder == TasksInOrder(tasks[..i])
      {
        IndexNext(i);
        i := i + 1;
      }
      assert tasks[..i] == tasks;
    }

    /** Drops the tasks whose message is gone, and the messages taken back of the others. */
    method Prune(msgs: seq<Message>, at: map<int, int>) returns (kept: seq<Task>, changed: seq<int>)
      requires PositionsOk(at, msgs)
      ensures (kept, changed) == Keep(tasks, msgs, at)
    {
      kept, changed := [], [];
      var i := 0;
      while i < |tasks|
        invariant 0 <= i <= |tasks|
        invariant (kept, changed) == Keep(tasks[..i], msgs, at)
      {
        assert tasks[..i + 1][..i] == tasks[..i];
        var task := tasks[i];
        if task.id in at && msgs[at[task.id]].role == User && msgs[at[task.id]].time == task.startedAt {
          var left := DeleteMissing(task.steered, at);
          if |left| != |task.steered| {
            changed := changed + [|kept|];
          }
          kept := kept + [task.(steered := left)];
        }
        i := i + 1;
      }
      assert tasks[..i] == tasks;
    }

    /** Takes the IDs of msgs; they may not be in order. */
    method TakeIds(msgs: seq<Message>)
      modifies this`ids, this`inOrder
      ensures ids == Ids(msgs) && inOrder == (old(inOrder) && InOrder(msgs))
    {
      ids := [];
      var i := 0;
      while i < |msgs|
        invariant 0 <= i <= |msgs|
        invariant ids == Ids(msgs)[..i]
        invariant inOrder == (old(inOrder) && InOrder(msgs[..i]))
      {
        assert msgs[..i + 1] == msgs[..i] + [msgs[i]];
        if i > 0 && msgs[i].id <= msgs[i - 1].id {
          inOrder := false;
        }
        MessagesInOrderMore(msgs[..i], msgs[i]);
        ids := ids + [msgs[i].id];
        i := i + 1;
      }
      assert msgs[..i] == msgs;
    }

    /** Drops the tasks whose message is gone; the running one may be among them. */
    method DropTasks(msgs: seq<Message>, at: map<int, int>) returns (changed: seq<int>)
      requires PositionsOk(at, msgs)
      modifies this`tasks, this`open
      ensures (tasks, changed) == Keep(old(tasks), msgs, at)
      ensures open == if |tasks| != old(|tasks|) then LastOpen(tasks) else old(open)
    {
      var kept;
      kept, changed := Prune(msgs, at);
      if |kept| != |tasks| {
        open := LastOpen(kept);
      }
      tasks := kept;
    }

    /** Drops the tasks whose message is gone, and takes the messages' IDs. */
    method PruneAll(msgs: seq<Message>, at: map<int, int>) returns (changed: seq<int>)
      requires View().Ok() && at == Positions(msgs)
      modifies this`tasks, this`owners, this`ids, this`inOrder, this`rederive, this`open
      ensures View().Ok() && (View(), changed) == Pruned(old(View()), msgs)
    {
      hide Keep, OwnersOf, LastOpen;
      changed := DropTasks(msgs, at);
      Index();
      TakeIds(msgs);
      rederive := false;
    }

    /** Goes through all the messages. */
    method DeriveAll(msgs: seq<Message>) returns (changed: seq<int>)
      requires View().Ok()
      modifies this`tasks, this`owners, this`ids, this`inOrder, this`rederive, this`open, this`ran
      ensures View().Ok() && (View(), changed) == Derive(old(View()), msgs)
    {
      var at := Locate(msgs, 0);
      assert at == Positions(msgs);
      changed := PruneAll(msgs, at);
      changed := OwnMessages(msgs, changed);
      changed := UpdateReplies(msgs, 0, at, changed);
    }

    /** The change added messages in order, and left the user's messages that started tasks. */
    method CanPass(msgs: seq<Message>, from: int) returns (pass: bool)
      requires View().Ok() && 0 <= from <= |ids|
      ensures pass == Passable(View(), msgs, from)
    {
      if |msgs| < |ids| {
        return false;
      }
      var i := from;
      while i < |msgs|
        invariant from <= i <= |msgs|
        invariant forall j :: from <= j < i ==> PassableAt(View(), msgs, j)
      {
        var id := msgs[i].id;
        if (i < |ids| && id != ids[i]) || (i >= |ids| && i > 0 && id <= msgs[i - 1].id) {
          assert !PassableAt(View(), msgs, i);
          return false;
        }
        if id in owners && tasks[owners[id]].id == id
          && (msgs[i].role != User || msgs[i].time != tasks[owners[id]].startedAt) {
          assert !PassableAt(View(), msgs, i);
          return false;
        }
        assert PassableAt(View(), msgs, i);
        i := i + 1;
      }
      return true;
    }

    /** How many tasks are left without those after the ID last. */
    method CountBefore(last: int) returns (k: int)
      ensures k == Before(tasks, last)
    {
      k := |tasks|;
      while k > 0 && tasks[k - 1].id > last
        invariant 0 <= k <= |tasks|
        invariant Before(tasks[..k], last) == Before(tasks, last)
      {
        assert tasks[..k][..k - 1] == tasks[..k - 1];
        k := k - 1;
      }
    }

    method Incremental(msgs: seq<Message>, from: int, first: int, at: map<int, int>) returns (changed: seq<int>)
      requires View().Ok() && 0 <= from <= |ids| <= |msgs| && 0 <= first <= |tasks| && PositionsOk(at, msgs)
      modifies this`tasks, this`owners, this`ids, this`inOrder, this`open, this`ran
      ensures View().Ok() && (View(), changed) == Tasks.Incremental(old(View()), msgs, from, first, at)
    {
      changed := OwnMessages(msgs[from..], []);
      changed := UpdateReplies(msgs, first, at, changed);
      AppendIds(msgs);
    }

    /** Goes through the messages from position from on; k tasks started before. */
    method TakeAfter(msgs: seq<Message>, from: int, k: int) returns (changed: seq<int>)
      requires View().Ok() && 0 <= from <= |ids| <= |msgs| && 0 <= k <= |tasks|
      modifies this`tasks, this`owners, this`ids, this`inOrder, this`rederive, this`open, this`ran
      ensures View().Ok() && (View(), changed) == FastAfter(old(View()), msgs, from, k)
    {
      var at := Locate(msgs, from);
      if k == 0 {
        changed := Incremental(msgs, from, 0, at);
        return;
      }
      var j := LookBack(msgs, from, tasks[k - 1].id);
      if j < 0 {
        changed := DeriveAll(msgs);
        return;
      }
      changed := Incremental(msgs, from, k - 1, at[tasks[k - 1].id := j]);
    }

    method TakeFrom(msgs: seq<Message>, from: int) returns (changed: seq<int>)
      requires View().Ok() && 0 <= from <= |ids| <= |msgs|
      modifies this`tasks, this`owners, this`ids, this`inOrder, this`rederive, this`open, this`ran
      ensures View().Ok() && (View(), changed) == Fast(old(View()), msgs, from)
    {
      var k := CountBefore(if from > 0 then msgs[from - 1].id else MinInt);
      changed := TakeAfter(msgs, from, k);
    }

    method AppendIds(msgs: seq<Message>)
      requires |ids| <= |msgs|
      modifies this`ids
      ensures ids == old(ids) + Ids(msgs)[|old(ids)|..]
    {
      ghost var n := |ids|;
      var i := |ids|;
      while i < |msgs|
        invariant n <= i <= |msgs|
        invariant ids == old(ids) + Ids(msgs)[n..i]
      {
        ids := ids + [msgs[i].id];
        i := i + 1;
      }
      assert Ids(msgs)[n..i] == Ids(msgs)[n..];
    }

    /** Takes the conversation's messages after a change, the first of which is at
        position from. Whatever way it goes, it leaves what deriving all tasks would. */
    method Take(msgs: seq<Message>, from: nat) returns (changed: seq<int>)
      requires Valid() && Agree(last, msgs, from)
      modifies this
      ensures Valid() && last == msgs
      ensures (View(), changed) == Derive(old(View()), msgs)
    {
      MessagesIsDerive(View(), last, msgs, from);
      DeriveKeepsTidy(View(), last, msgs);
      last := msgs;
      if rederive || !inOrder {
        changed := DeriveAll(msgs);
        return;
      }
      var first := Min(from, Min(|ids|, |msgs|));
      if first == |msgs| && first == |ids| {
        return [];
      }
      var pass := CanPass(msgs, first);
      if !pass {
        changed := DeriveAll(msgs);
      } else {
        changed := TakeFrom(msgs, first);
      }
    }

    /** Takes back the tasks of a restored conversation whose message is still there; those that ran are over. */
    method TakeBack(restored: seq<Task>, msgs: seq<Message>, now: int) returns (changed: seq<int>)
      modifies this
      ensures (View(), changed) == Restore(old(View()), restored, msgs, now)
      ensures last == msgs && (Proper([], Reload(restored, msgs, now)) ==> Valid())
    {
      ghost var before := View();
      TakeMatched(restored, msgs);
      assert View() == Restored(before, restored, msgs);
      changed := EndAllRunning(now);
      last := msgs;
      if Proper([], Reload(restored, msgs, now)) {
        RestoreKeeps(before, restored, msgs, now);
      }
    }

    method TakeMatched(restored: seq<Task>, msgs: seq<Message>)
      modifies this`tasks, this`owners, this`ids, this`inOrder, this`rederive, this`open, this`ran
      ensures View() == Restored(old(View()), restored, msgs)
    {
      var at := Locate(msgs, 0);
      assert at == Positions(msgs);
      tasks := DeleteUnmatched(restored, msgs, at);
      open, ran := -1, false;
      ids, rederive := [], true;
      Index();
    }

    method EndAllRunning(now: int) returns (changed: seq<int>)
      requires View().Ok()
      modifies this`tasks, this`open, this`ran
      ensures View().Ok() && (View(), changed) == EndRunning(old(View()), 0, now, [])
    {
      changed := [];
      var i := 0;
      while i < |tasks|
        invariant 0 <= i <= |tasks| && View().Ok()
        invariant EndRunning(View(), i, now, changed) == old(EndRunning(View(), 0, now, []))
      {
        if !tasks[i].Final() {
          EndTask(i, now);
          changed := changed + [i];
        }
        i := i + 1;
      }
    }

    /** The ID of the task a rich message sent at time at belongs to: the running
        one, else the latest that started by then. */
    method TaskAt(at: int) returns (id: Option<int>)
      requires View().Ok()
      ensures id == Tasks.TaskAt(View(), at)
    {
      if open >= 0 {
        return Some(tasks[open].id);
      }
      var i := |tasks| - 1;
      assert tasks[..|tasks|] == tasks;
      while i >= 0
        invariant -1 <= i < |tasks|
        invariant LatestBy(tasks[..i + 1], at) == LatestBy(tasks, at)
      {
        if tasks[i].startedAt <= at {
          return Some(tasks[i].id);
        }
        assert tasks[..i + 1][..i] == tasks[..i];
        i := i - 1;
      }
      return None;
    }
  }

  lemma MessagesInOrderMore(msgs: seq<Message>, msg: Message)
    ensures InOrder(msgs + [msg]) <==> InOrder(msgs) && (|msgs| > 0 ==> msgs[|msgs| - 1].id < msg.id)
  {
    var all := msgs + [msg];
    var n := |msgs|;
    assert forall i :: 0 <= i < n ==> all[i] == msgs[i];
    assert all[n] == msg;
    if InOrder(msgs) && (n > 0 ==> msgs[n - 1].id < msg.id) {
      assert forall i :: 0 <= i < n ==> msgs[i].id <= msgs[n - 1].id;
    }
  }

  lemma OwnersOfMore(tasks: seq<Task>, task: Task)
    ensures OwnersOf(tasks + [task]) == OwnAll(OwnersOf(tasks)[task.id := |tasks|], task.steered, |tasks|)
  {
    assert (tasks + [task])[..|tasks|] == tasks;
  }

  lemma InOrderMore(tasks: seq<Task>, task: Task)
    ensures TasksInOrder(tasks + [task]) <==> TasksInOrder(tasks) && (|tasks| > 0 ==> tasks[|tasks| - 1].id < task.id)
  {
    var all := tasks + [task];
    var n := |tasks|;
    assert forall i :: 0 <= i < n ==> all[i] == tasks[i];
    assert all[n] == task;
    if TasksInOrder(tasks) && (n > 0 ==> tasks[n - 1].id < task.id) {
      assert forall i :: 0 <= i < n ==> tasks[i].id <= tasks[n - 1].id;
    }
  }
}
