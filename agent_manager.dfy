/** The orchestrator's agent registry: an append-only list of names that refuses
    a name it already holds. */
module AgentManagement {
  import opened Base
  import opened PyValue

  /** No name occurs twice. */
  predicate NoDuplicates(names: seq<string>) {
    forall i, j :: 0 <= i < j < |names| ==> names[i] != names[j]
  }

  /** The error `register` raises for a name that is already there. */
  function AlreadyRegistered(): Exc {
    PyExc("Agent already registered.")
  }

  /** What `register(agentName)` makes of the list `names`: the list with the name
      appended, or the ValueError when the name is already in it. */
  function Registered(names: seq<string>, agentName: string): (r: Result<seq<string>, Exc>)
    ensures r.Err? <==> agentName in names
    ensures r.Err? ==> r.error == AlreadyRegistered()
    ensures r.Ok? ==> |r.value| == |names| + 1 && r.value[..|names|] == names && r.value[|names|] == agentName
  {
    if agentName in names then Err(AlreadyRegistered()) else Ok(names + [agentName])
  }

  /** A successful registration keeps a duplicate-free list duplicate-free. */
  lemma RegisteredKeepsNoDuplicates(names: seq<string>, agentName: string)
    requires NoDuplicates(names)
    ensures Registered(names, agentName).Ok? ==> NoDuplicates(Registered(names, agentName).value)
  {
  }

  /** The list after calling `register` on each of `agentNames` in turn, the calls
      that raise leaving it as it was. */
  function RegisterAll(names: seq<string>, agentNames: seq<string>): seq<string>
    decreases |agentNames|
  {
    if |agentNames| == 0 then names
    else
      var before := RegisterAll(names, agentNames[..|agentNames| - 1]);
      match Registered(before, agentNames[|agentNames| - 1])
      case Ok(after) => after
      case Err(_) => before
  }

  /** Whatever the sequence of calls, the earlier entries stay in place, nothing
      is registered twice, and the registry holds exactly the names it started
      with and the names that were offered. */
  lemma {:induction false} RegisterAllSpec(names: seq<string>, agentNames: seq<string>)
    requires NoDuplicates(names)
    ensures |names| <= |RegisterAll(names, agentNames)| <= |names| + |agentNames|
    ensures RegisterAll(names, agentNames)[..|names|] == names
    ensures NoDuplicates(RegisterAll(names, agentNames))
    ensures forall y :: y in RegisterAll(names, agentNames) <==> y in names || y in agentNames
    decreases |agentNames|
  {
    if |agentNames| > 0 {
      var init := agentNames[..|agentNames| - 1];
      var last := agentNames[|agentNames| - 1];
      RegisterAllSpec(names, init);
      var before := RegisterAll(names, init);
      RegisteredKeepsNoDuplicates(before, last);
      assert agentNames == init + [last];
      if last !in before {
        assert (before + [last])[..|names|] == before[..|names|];
      }
    }
  }

  /** A Python list of names. It is an object of its own because `get_agents`
      hands out the registry's list itself, not a copy. */
  class NameList {
    var items: seq<string>

    constructor ()
      ensures items == []
    {
      items := [];
    }
  }

  /** `AgentManager`: the registry of agent names, in registration order. */
  class AgentManager {
    const registeredAgents: NameList

    /** A new manager starts with an empty list of its own. */
    constructor ()
      ensures fresh(registeredAgents) && registeredAgents.items == []
    {
      registeredAgents := new NameList();
    }

    /** `register(agentName)`: appends an absent name; raises ValueError and
        leaves the list as it was for a name already there. A list without
        duplicates stays without duplicates. */
    method Register(agentName: string) returns (r: Outcome<Exc>)
      modifies registeredAgents
      ensures match Registered(old(registeredAgents.items), agentName)
              case Ok(after) => r == Pass && registeredAgents.items == after
              case Err(e) => r == Fail(e) && registeredAgents.items == old(registeredAgents.items)
      ensures NoDuplicates(old(registeredAgents.items)) ==> NoDuplicates(registeredAgents.items)
    {
      if agentName in registeredAgents.items {
        r := Fail(AlreadyRegistered());
        return;
      }
      registeredAgents.items := registeredAgents.items + [agentName];
      r := Pass;
    }

    /** `get_agents()`: the live list, so later registrations show through it. */
    method GetAgents() returns (agents: NameList)
      ensures agents == registeredAgents
    {
      agents := registeredAgents;
    }
  }
}
