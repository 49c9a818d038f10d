/** The queue of messages waiting to be injected into a run. */
module AgentQueue {
  import opened AgentEvents

  datatype QueueMode = DrainAll | OneAtATime

  /** What a drain takes from the waiting messages, and what it leaves. */
  function DrainedBy(mode: QueueMode, waiting: seq<AgentMessage>): (r: (seq<AgentMessage>, seq<AgentMessage>))
    ensures r.0 + r.1 == waiting && (r.0 == [] <==> waiting == [])
    ensures match mode case DrainAll => r.1 == [] case OneAtATime => |r.0| <= 1
  {
    if mode == DrainAll then (waiting, [])
    else if waiting == [] then ([], [])
    else (waiting[..1], waiting[1..])
  }

  class PendingMessageQueue {
    var mode: QueueMode
    var messages: seq<AgentMessage>
    /** Everything ever enqueued, and everything that has left the queue, both in order. */
    ghost var received: seq<AgentMessage>
    ghost var taken: seq<AgentMessage>

    /** First in, first out: what was enqueued is what has left followed by what is waiting. */
    ghost predicate Valid()
      reads this
    {
      received == taken + messages
    }

    constructor (mode: QueueMode)
      ensures Valid() && this.mode == mode && messages == [] && received == [] && taken == []
    {
      this.mode := mode;
      messages, received, taken := [], [], [];
    }

    method Enqueue(message: AgentMessage)
      requires Valid()
      modifies this
      ensures Valid() && messages == old(messages) + [message] && received == old(received) + [message]
      ensures mode == old(mode) && taken == old(taken)
    {
      messages := messages + [message];
      received := received + [message];
    }

    method SetMode(mode: QueueMode)
      modifies this`mode
      ensures this.mode == mode
    {
      this.mode := mode;
    }

    method DrainNow() returns (batch: seq<AgentMessage>)
      requires Valid()
      modifies this
      ensures Valid() && batch + messages == old(messages) && taken == old(taken) + batch
      ensures mode == old(mode) && received == old(received)
      ensures mode == DrainAll ==> messages == []
      ensures mode == OneAtATime ==> |batch| <= 1
      ensures batch == [] <==> old(messages) == []
      ensures (batch, messages) == DrainedBy(mode, old(messages))
    {
      if mode == DrainAll {
        batch := messages;
        messages := [];
      } else if messages == [] {
        batch := [];
      } else {
        batch := messages[..1];
        messages := messages[1..];
      }
      taken := taken + batch;
    }

    method HasItems() returns (has: bool)
      ensures has <==> messages != []
    {
      has := messages != [];
    }

    method Clear()
      requires Valid()
      modifies this
      ensures Valid() && messages == [] && received == old(received) && mode == old(mode)
    {
      taken := taken + messages;
      messages := [];
    }
  }
}
