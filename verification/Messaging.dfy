/** The Redis lists and the pub/sub channels. */
module Messaging {
  import opened Domain

  class RedisQueue {
    var items: seq<TaskId>

    constructor ()
      ensures items == []
    {
      items := [];
    }

    /** RPUSH: at the end of the list. */
    method Push(id: TaskId)
      modifies this
      ensures items == old(items) + [id]
    {
      items := items + [id];
    }

    /** BLPOP: from the front; None stands for a pop that is still blocked. */
    method Pop() returns (id: Option<TaskId>)
      modifies this
      ensures if old(items) == [] then id == None && items == []
              else id == Some(old(items)[0]) && items == old(items)[1..]
    {
      if items == [] {
        id := None;
      } else {
        id, items := Some(items[0]), items[1..];
      }
    }
  }

  class EventBus {
    var completed: seq<Event>
    var terminated: seq<Event>

    constructor ()
      ensures completed == [] && terminated == []
    {
      completed, terminated := [], [];
    }

    method PublishTaskCompleted(event: Event)
      modifies this`completed
      ensures completed == old(completed) + [event]
    {
      completed := completed + [event];
    }

    method PublishTaskTerminated(event: Event)
      modifies this`terminated
      ensures terminated == old(terminated) + [event]
    {
      terminated := terminated + [event];
    }

    /** What one of the two subscriptions hands over next, if anything. */
    method Receive(fromCompleted: bool) returns (event: Option<Event>)
      modifies this
      ensures var before := if fromCompleted then old(completed) else old(terminated);
              if before == [] then event == None && completed == old(completed) && terminated == old(terminated)
              else event == Some(before[0])
                   && completed == (if fromCompleted then before[1..] else old(completed))
                   && terminated == (if fromCompleted then old(terminated) else before[1..])
    {
      event := None;
      if fromCompleted && completed != [] {
        event, completed := Some(completed[0]), completed[1..];
      } else if !fromCompleted && terminated != [] {
        event, terminated := Some(terminated[0]), terminated[1..];
      }
    }
  }
}
