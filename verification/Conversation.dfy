/** The conversation's messages and the agent's status, as the tracker of
    tasks and the emitter take them. Times are nanoseconds; texts are bytes. */
module Conversation {
  import opened Options

  type byte = b: int | 0 <= b < 256

  datatype Role = User | Agent

  /** A message; its ID is its position, which nothing here relies on unless it says so. */
  datatype Message = Message(id: int, text: seq<byte>, role: Role, time: int)

  /** Unknown is before the agent first reports. */
  datatype AgentStatus = Unknown | Working | Stable

  datatype Lifecycle = Starting | Ready | Busy | Restarting | Exited | Failed

  /** Why and when a turn stopped: a usage limit, or a failure that is tried again. */
  datatype Stop = Stop(message: string, stoppedAt: int)

  /** The part of the agent's status that decides when a task ends. */
  datatype Status = Status(
    agent: AgentStatus, lifecycle: Lifecycle, pending: nat, limit: Option<Stop>, retry: Option<Stop>)
  {
    /** The agent neither works nor waits on an answer. */
    predicate Idle() {
      agent == Stable && pending == 0
    }
  }

  function Ids(msgs: seq<Message>): (ids: seq<int>)
    ensures |ids| == |msgs| && forall i :: 0 <= i < |msgs| ==> ids[i] == msgs[i].id
  {
    seq(|msgs|, i requires 0 <= i < |msgs| => msgs[i].id)
  }

  /** The IDs increase. */
  predicate InOrder(msgs: seq<Message>) {
    forall i, j :: 0 <= i < j < |msgs| ==> msgs[i].id < msgs[j].id
  }

  ghost predicate Distinct(msgs: seq<Message>) {
    forall i, j :: 0 <= i < j < |msgs| ==> msgs[i].id != msgs[j].id
  }

  /** Where each message is, by its ID; the last of those that share one. */
  function Positions(msgs: seq<Message>): (at: map<int, int>)
    ensures forall id :: id in at ==> 0 <= at[id] < |msgs|
  {
    if |msgs| == 0 then map[]
    else
      var n := |msgs| - 1;
      Positions(msgs[..n])[msgs[n].id := n]
  }

  lemma {:induction false} PositionFound(msgs: seq<Message>, id: int)
    requires id in Positions(msgs)
    ensures msgs[Positions(msgs)[id]].id == id
  {
    var n := |msgs| - 1;
    if msgs[n].id != id {
      PositionFound(msgs[..n], id);
    }
  }

  lemma {:induction false} PositionHas(msgs: seq<Message>, i: int)
    requires 0 <= i < |msgs|
    ensures msgs[i].id in Positions(msgs) && i <= Positions(msgs)[msgs[i].id]
    decreases |msgs|
  {
    var n := |msgs| - 1;
    if i < n {
      PositionHas(msgs[..n], i);
    }
  }

  lemma PositionsDistinct(msgs: seq<Message>, i: int)
    requires Distinct(msgs) && 0 <= i < |msgs|
    ensures msgs[i].id in Positions(msgs) && Positions(msgs)[msgs[i].id] == i
  {
    PositionHas(msgs, i);
    var p := Positions(msgs)[msgs[i].id];
    PositionFound(msgs, msgs[i].id);
  }
}
