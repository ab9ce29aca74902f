/** The per-channel audio chunk queue of `AudioStreamer`
    (backend/python/VACT.py:40-88) and the lockstep send loop of `main`
    (lines 164-170). */
module Audio {
  import opened Text

  /** One captured block, `indata.copy().tobytes()`; its contents are opaque. */
  type Chunk = seq<bv8>

  /** An `AudioStreamer`: its label and its `audio_queue`. The ghost fields
      record every chunk the capture callback put and every chunk the
      generator took, in order. */
  class AudioStreamer {
    const speaker: Channel
    var queue: seq<Chunk>
    ghost var captured: seq<Chunk>
    ghost var taken: seq<Chunk>

    /** FIFO: the chunks taken so far followed by the queued ones are exactly
        the chunks captured, in capture order. */
    ghost predicate Valid()
      reads this
    {
      taken + queue == captured
    }

    /** `AudioStreamer(device, label)`: an empty `queue.Queue()` (line 44). */
    constructor (speaker: Channel)
      ensures Valid()
      ensures this.speaker == speaker
      ensures queue == [] && captured == [] && taken == []
    {
      this.speaker := speaker;
      queue := [];
      captured := [];
      taken := [];
    }

    /** `_audio_callback`: put the block at the tail (line 78). */
    method AudioCallback(block: Chunk)
      requires Valid()
      modifies this
      ensures Valid()
      ensures queue == old(queue) + [block]
      ensures captured == old(captured) + [block] && taken == old(taken)
    {
      queue := queue + [block];
      captured := captured + [block];
    }

    /** One pass of the generator's loop (lines 85-88): when the queue is not
        empty, remove and yield its head; otherwise yield nothing and leave
        the queue alone (the generator then sleeps and polls again). */
    method Poll() returns (c: Option<Chunk>)
      requires Valid()
      modifies this
      ensures Valid()
      ensures captured == old(captured)
      ensures old(queue) == [] ==> c == None && queue == [] && taken == old(taken)
      ensures old(queue) != [] ==>
        c == Some(old(queue)[0]) && queue == old(queue)[1..] && taken == old(taken) + [old(queue)[0]]
    {
      if queue == [] {
        c := None;
      } else {
        c := Some(queue[0]);
        taken := taken + [queue[0]];
        queue := queue[1..];
      }
    }
  }

  /** A Deepgram live connection, seen only through the chunks sent on it. */
  class Connection {
    const speaker: Channel
    var sent: seq<Chunk>

    constructor (speaker: Channel)
      ensures this.speaker == speaker && sent == []
    {
      this.speaker := speaker;
      sent := [];
    }

    /** `connection.send(chunk)` */
    method Send(c: Chunk)
      modifies this
      ensures sent == old(sent) + [c]
    {
      sent := sent + [c];
    }
  }

  /** The two streams and two connections `main` drives. */
  class DualStream {
    const agent: AudioStreamer
    const customer: AudioStreamer
    const agentConnection: Connection
    const customerConnection: Connection

    /** Each connection has received exactly the chunks its own stream has
        yielded, in order, and the two have received equally many. */
    ghost predicate Valid()
      reads this, agent, customer, agentConnection, customerConnection
    {
      agent != customer && agentConnection != customerConnection
      && agent.speaker == Agent && customer.speaker == Customer
      && agentConnection.speaker == Agent && customerConnection.speaker == Customer
      && agent.Valid() && customer.Valid()
      && agentConnection.sent == agent.taken
      && customerConnection.sent == customer.taken
      && |agentConnection.sent| == |customerConnection.sent|
    }

    /** Lines 112-113 and 118-119: two fresh streams and two fresh
        connections, nothing captured or sent yet. */
    constructor ()
      ensures Valid()
      ensures fresh(agent) && fresh(customer) && fresh(agentConnection) && fresh(customerConnection)
      ensures agent.captured == [] && customer.captured == []
      ensures agentConnection.sent == [] && customerConnection.sent == []
    {
      agent := new AudioStreamer(Agent);
      customer := new AudioStreamer(Customer);
      agentConnection := new Connection(Agent);
      customerConnection := new Connection(Customer);
    }

    /** One iteration of the `while True` loop (lines 165-170): once both
        queues hold a chunk, take the head of each and send the agent's chunk
        to the agent connection and the customer's to the customer
        connection. While either queue is empty the gathered reads are still
        waiting and nothing is sent. */
    method Iteration() returns (progressed: bool)
      requires Valid()
      modifies agent, customer, agentConnection, customerConnection
      ensures Valid()
      ensures agent.captured == old(agent.captured) && customer.captured == old(customer.captured)
      ensures progressed <==> old(agent.queue) != [] && old(customer.queue) != []
      ensures progressed ==>
        agentConnection.sent == old(agentConnection.sent) + [old(agent.queue)[0]]
        && customerConnection.sent == old(customerConnection.sent) + [old(customer.queue)[0]]
        && agent.queue == old(agent.queue)[1..] && customer.queue == old(customer.queue)[1..]
      ensures !progressed ==>
        agentConnection.sent == old(agentConnection.sent) && customerConnection.sent == old(customerConnection.sent)
        && agent.queue == old(agent.queue) && customer.queue == old(customer.queue)
    {
      progressed := agent.queue != [] && customer.queue != [];
      if progressed {
        var a := agent.Poll();
        var c := customer.Poll();
        agentConnection.Send(a.value);
        customerConnection.Send(c.value);
      }
    }

    /** The send loop run for at most `rounds` iterations without new
        captures: it sends as many pairs as both queues can supply, pairing
        the i-th agent chunk with the i-th customer chunk, and stops where
        the source would wait for the next capture. */
    method Run(rounds: nat) returns (done: nat)
      requires Valid()
      modifies agent, customer, agentConnection, customerConnection
      ensures Valid()
      ensures done <= rounds && done <= |old(agent.queue)| && done <= |old(customer.queue)|
      ensures done == rounds || done == |old(agent.queue)| || done == |old(customer.queue)|
      ensures agentConnection.sent == old(agentConnection.sent) + old(agent.queue)[..done]
      ensures customerConnection.sent == old(customerConnection.sent) + old(customer.queue)[..done]
      ensures agent.queue == old(agent.queue)[done..] && customer.queue == old(customer.queue)[done..]
    {
      done := 0;
      while done < rounds && agent.queue != [] && customer.queue != []
        invariant Valid()
        invariant done <= rounds && done <= |old(agent.queue)| && done <= |old(customer.queue)|
        invariant agent.queue == old(agent.queue)[done..] && customer.queue == old(customer.queue)[done..]
        invariant agentConnection.sent == old(agentConnection.sent) + old(agent.queue)[..done]
        invariant customerConnection.sent == old(customerConnection.sent) + old(customer.queue)[..done]
        decreases rounds - done
      {
        var progressed := Iteration();
        assert old(agent.queue)[..done + 1] == old(agent.queue)[..done] + [old(agent.queue)[done]];
        assert old(customer.queue)[..done + 1] == old(customer.queue)[..done] + [old(customer.queue)[done]];
        done := done + 1;
      }
    }
  }
}
