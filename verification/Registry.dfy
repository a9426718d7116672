/** The registry of connected agents, and the greedy placement of jobs on them. */
module Registry {
  import opened Messages
  import opened Loads

  type int32 = x: int | -0x8000_0000 <= x < 0x8000_0000

  /** One connected agent, with the id and the capacity it registered. */
  class AgentConn {
    const agentID: string
    const capacity: int32
    var active: int32

    constructor (agentID: string, capacity: int32)
      ensures this.agentID == agentID && this.capacity == capacity && active == 0
    {
      this.agentID, this.capacity, active := agentID, capacity, 0;
    }

    function Now(): Load
      reads this
    {
      Load(active, capacity)
    }
  }

  class Registry {
    var agents: map<string, AgentConn>

    /** Every connection stands under its own id, and every count is within its bounds. */
    ghost predicate Valid()
      reads this, agents.Values
    {
      && (forall id :: id in agents ==> agents[id].agentID == id)
      && Bounded(Contents())
    }

    function Contents(): (s: Agents<string>)
      reads this, agents.Values
      ensures s.Keys == agents.Keys
    {
      map id | id in agents :: agents[id].Now()
    }

    constructor ()
      ensures Valid() && Contents() == map[]
    {
      agents := map[];
    }

    /** The half of Register before it blocks; an agent already connected under the id is forgotten. */
    method Connect(id: string, capacity: int32)
      requires Valid()
      modifies this
      ensures Valid() && Contents() == Apply(old(Contents()), Register(id, capacity))
      ensures Contents() == old(Contents())[id := Load(0, capacity)]
    {
      var conn := new AgentConn(id, capacity);
      agents := agents[id := conn];
    }

    /** The half of Register after the stream has ended. */
    method Disconnect(id: string)
      requires Valid()
      modifies this
      ensures Valid() && Contents() == Apply(old(Contents()), Op.Disconnect(id))
      ensures agents == old(agents) - {id} && Contents() == old(Contents()) - {id}
    {
      agents := agents - {id};
    }

    /** Scans the agents in no particular order and keeps the first with the smallest count. */
    method LeastLoadedAgent() returns (best: Option<string>)
      requires Valid()
      ensures best == None ==> NoRoom(Contents())
      ensures best.Some? ==> LeastLoaded(Contents(), best.value)
    {
      best := None;
      var left := agents.Keys;
      while left != {}
        invariant left <= agents.Keys
        invariant best == None ==> forall b :: b in agents && b !in left ==> Full(agents[b].Now())
        invariant best.Some? ==> best.value in agents && !Full(agents[best.value].Now())
        invariant best.Some? ==> forall b :: b in agents && b !in left && !Full(agents[b].Now()) ==>
                    agents[best.value].active <= agents[b].active
        decreases left
      {
        var id :| id in left;
        left := left - {id};
        var a := agents[id];
        if a.active >= a.capacity {
          continue;
        }
        if best == None || a.active < agents[best.value].active {
          best := Some(id);
        }
      }
    }

    /** Sends to a least loaded agent and counts the job if the send on its stream succeeds. */
    method Dispatch(sendOk: string -> bool) returns (o: Outcome<string>)
      requires Valid()
      modifies agents.Values
      ensures Valid() && agents == old(agents)
      ensures Possible(old(Contents()), o) && Contents() == Placed(old(Contents()), o)
      ensures o.Sent? ==> sendOk(o.agent) && o.agent in agents
      ensures o.Sent? ==> Contents() == old(Contents())[o.agent := Load(old(agents[o.agent].active) + 1, agents[o.agent].capacity)]
      ensures !o.Sent? ==> Contents() == old(Contents())
      ensures o.NoAgents? <==> forall id :: id in agents ==> old(agents[id].active) >= agents[id].capacity
      ensures o.SendFailed? ==> !sendOk(o.agent)
    {
      var best := LeastLoadedAgent();
      if best == None {
        return NoAgents;
      }
      var agent := agents[best.value];
      if !sendOk(best.value) {
        return SendFailed(best.value);
      }
      agent.active := agent.active + 1;
      return Sent(best.value);
    }

    method JobDone(agentID: string)
      requires Valid()
      modifies agents.Values
      ensures Valid() && agents == old(agents)
      ensures Contents() == Released(old(Contents()), agentID)
      ensures forall id :: id in agents ==>
                agents[id].active == old(agents[id].active) - if id == agentID && old(agents[id].active) > 0 then 1 else 0
    {
      if agentID in agents && agents[agentID].active > 0 {
        var a := agents[agentID];
        a.active := a.active - 1;
      }
    }
  }
}
