/** The agent's state, its event reducer and its message queues: packages/agent/src/agent.ts. */
module Agents {
  import opened Common
  import opened AgentEvents

  datatype QueueMode = All | OneAtATime

  class PendingMessageQueue {
    var messages: seq<Message>
    var mode: QueueMode
    ghost var enqueued: seq<Message>
    ghost var drained: seq<Message>

    /** What went in came out, in order, or is still here. */
    ghost predicate Conserved()
      reads this
    {
      enqueued == drained + messages
    }

    constructor (mode: QueueMode)
      ensures Conserved() && messages == [] && this.mode == mode && drained == []
    {
      messages, this.mode := [], mode;
      enqueued, drained := [], [];
    }

    method Enqueue(message: Message)
      requires Conserved()
      modifies this
      ensures Conserved() && messages == old(messages) + [message] && mode == old(mode) && drained == old(drained)
    {
      messages := messages + [message];
      enqueued := enqueued + [message];
    }

    predicate HasItems()
      reads this
    {
      |messages| > 0
    }

    method Drain() returns (out: seq<Message>)
      requires Conserved()
      modifies this
      ensures Conserved() && enqueued == old(enqueued) && drained == old(drained) + out && mode == old(mode)
      ensures out + messages == old(messages)
      ensures if mode == All then messages == [] else |out| == if old(messages) == [] then 0 else 1
    {
      if mode == All {
        out := messages;
        messages := [];
      } else if messages == [] {
        out := [];
      } else {
        out := [messages[0]];
        messages := messages[1..];
      }
      drained := drained + out;
    }
  }

  class Agent {
    var messages: seq<Message>
    var isStreaming: bool
    var streamingMessage: Option<Message>
    var pendingToolCalls: set<string>
    var errorMessage: string
    var active: bool
    var aborted: bool
    const steeringQueue: PendingMessageQueue
    const followUpQueue: PendingMessageQueue
    /** The events of the current run, and the transcript before it. */
    ghost var trace: seq<Event>
    ghost var history: seq<Message>

    /** The state is what the events say. */
    ghost predicate Reduced()
      reads this
    {
      Shows(ViewOf(trace))
    }

    ghost predicate Shows(v: View)
      reads this
    {
      messages == history + v.said && streamingMessage == v.streaming && pendingToolCalls == v.open
        && errorMessage == v.lastError
    }

    /** Since then these events were emitted, and nothing else happened but perhaps an abort. */
    twostate predicate Emits(events: seq<Event>)
      reads this
    {
      && Reduced() && trace == old(trace) + events
      && history == old(history) && active == old(active) && isStreaming == old(isStreaming)
        && (old(aborted) ==> aborted)
    }

    constructor (messages: seq<Message>, steeringMode: QueueMode, followUpMode: QueueMode)
      ensures Reduced() && trace == [] && this.messages == messages && !active
      ensures fresh(steeringQueue) && fresh(followUpQueue) && steeringQueue != followUpQueue
      ensures steeringQueue.Conserved() && followUpQueue.Conserved()
    {
      this.messages, isStreaming, streamingMessage, pendingToolCalls := messages, false, None, {};
      errorMessage, active, aborted := "", false, false;
      steeringQueue := new PendingMessageQueue(steeringMode);
      followUpQueue := new PendingMessageQueue(followUpMode);
      trace, history := [], messages;
    }

    method ProcessEvents(event: Event)
      requires Reduced()
      modifies this`messages, this`streamingMessage, this`pendingToolCalls, this`errorMessage, this`trace
      ensures Reduced() && trace == old(trace) + [event]
      ensures ViewOf(trace) == Look(old(ViewOf(trace)), event)
    {
      Emitted(START, trace, event);
      Reduce(event, ViewOf(trace));
      trace := trace + [event];
    }

    method Reduce(event: Event, ghost v: View)
      requires Shows(v)
      modifies this`messages, this`streamingMessage, this`pendingToolCalls, this`errorMessage
      ensures Shows(Look(v, event))
    {
      match event {
        case MessageStart(message) => streamingMessage := Some(message);
        case MessageUpdate(message) => streamingMessage := Some(message);
        case MessageEnd(message) =>
          streamingMessage := None;
          messages := messages + [message];
        case ToolStart(id) => pendingToolCalls := pendingToolCalls + {id};
        case ToolEnd(id, _, _) => pendingToolCalls := pendingToolCalls - {id};
        case TurnEnd(message, _) =>
          if message.Assistant? && message.errorMessage != "" { errorMessage := message.errorMessage; }
        case AgentEnd(_) => streamingMessage := None;
        case _ =>
      }
    }

    /** While the run waits anyone may abort it. */
    method Await()
      modifies this`aborted
      ensures old(aborted) ==> aborted
    {
      if * { aborted := true; }
    }
  }
}
