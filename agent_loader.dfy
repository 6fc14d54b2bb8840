/** Loading the agent definitions: the parsed `agents` list is turned into a
    dictionary keyed by each entry's `id`, and one entry is turned into the
    settings an agent is created with, missing keys taking their defaults. */
module AgentLoader {
  import opened Wrappers
  import opened PyData

  type Config = map<string, Value>

  /** What loading can raise. */
  datatype LoadError =
    | FileNotFound(message: string)
    | AttributeError(typeName: string)   // `x.get` on something that is not a dict
    | TypeError(message: string)         // `len` of a scalar, or an unhashable id

  /** `agent_config.get('id')` of one list entry; `None` when the entry is not
      a dict (the call itself then raises, see `Step`). */
  function IdOf(entry: Value): Value {
    if entry.PyDict? then Get(entry.entries, "id", PyNone) else PyNone
  }

  /** One pass of the indexing loop: entries whose id is falsy are skipped,
      others are stored under their id, replacing an earlier entry with the
      same id. */
  function Step(acc: map<Value, Config>, entry: Value): Result<map<Value, Config>, LoadError> {
    if !entry.PyDict? then Failure(AttributeError(TypeName(entry)))
    else
      var id := IdOf(entry);
      if !Truthy(id) then Success(acc)
      else if !IsScalar(id) then Failure(TypeError("unhashable type: '" + TypeName(id) + "'"))
      else Success(acc[id := entry.entries])
  }

  /** The dictionary the loop has built after the given entries, or what the
      first bad entry raised. */
  function Indexed(entries: seq<Value>): Result<map<Value, Config>, LoadError>
    decreases |entries|
  {
    if entries == [] then Success(map[])
    else
      match Indexed(entries[..|entries| - 1])
      case Failure(e) => Failure(e)
      case Success(acc) => Step(acc, entries[|entries| - 1])
  }

  /** The loop of `load_agents_from_yaml` over the `agents` list. */
  method IndexAgents(entries: seq<Value>) returns (r: Result<map<Value, Config>, LoadError>)
    ensures r == Indexed(entries)
  {
    var agentsDict: map<Value, Config> := map[];
    var i := 0;
    while i < |entries|
      invariant 0 <= i <= |entries|
      invariant Indexed(entries[..i]) == Success(agentsDict)
    {
      var entry := entries[i];
      assert entries[..i + 1][..i] == entries[..i];
      if !entry.PyDict? {
        r := Failure(AttributeError(TypeName(entry)));
        IndexedStopsAtFailure(entries, i + 1);
        return;
      }
      var id := IdOf(entry);
      if Truthy(id) {
        if !IsScalar(id) {
          r := Failure(TypeError("unhashable type: '" + TypeName(id) + "'"));
          IndexedStopsAtFailure(entries, i + 1);
          return;
        }
        agentsDict := agentsDict[id := entry.entries];
      }
      i := i + 1;
    }
    assert entries[..|entries|] == entries;
    r := Success(agentsDict);
  }

  /** Once a prefix fails, the whole list fails the same way. */
  lemma {:induction false} IndexedStopsAtFailure(entries: seq<Value>, n: nat)
    requires n <= |entries| && Indexed(entries[..n]).Failure?
    ensures Indexed(entries) == Indexed(entries[..n])
    decreases |entries| - n
  {
    if n < |entries| {
      assert entries[..n + 1][..n] == entries[..n];
      IndexedStopsAtFailure(entries, n + 1);
    } else {
      assert entries[..n] == entries;
    }
  }

  /** Indexing succeeds exactly when every entry is a dict and every truthy id
      can be a dictionary key. */
  predicate WellFormed(entries: seq<Value>) {
    forall i :: 0 <= i < |entries| ==>
      entries[i].PyDict? && (Truthy(IdOf(entries[i])) ==> IsScalar(IdOf(entries[i])))
  }

  lemma {:induction false} IndexedSucceedsIff(entries: seq<Value>)
    ensures Indexed(entries).Success? <==> WellFormed(entries)
    decreases |entries|
  {
    if entries != [] {
      var init := entries[..|entries| - 1];
      IndexedSucceedsIff(init);
      assert forall i :: 0 <= i < |init| ==> init[i] == entries[i];
    }
  }

  /** The result's keys are exactly the truthy ids of the entries. */
  lemma {:induction false} IndexedKeys(entries: seq<Value>)
    requires Indexed(entries).Success?
    ensures Indexed(entries).value.Keys
            == set i | 0 <= i < |entries| && Truthy(IdOf(entries[i])) :: IdOf(entries[i])
    decreases |entries|
  {
    if entries != [] {
      var init := entries[..|entries| - 1];
      var last := entries[|entries| - 1];
      IndexedKeys(init);
      assert forall i :: 0 <= i < |init| ==> init[i] == entries[i];
      var ids := set i | 0 <= i < |entries| && Truthy(IdOf(entries[i])) :: IdOf(entries[i]);
      var initIds := set i | 0 <= i < |init| && Truthy(IdOf(init[i])) :: IdOf(init[i]);
      if Truthy(IdOf(last)) {
        assert ids == initIds + {IdOf(last)};
      } else {
        assert ids == initIds;
      }
    }
  }

  /** Each stored value is an entry of the list, unmodified: the last entry
      carrying that id, since a later duplicate replaces an earlier one. */
  lemma {:induction false} IndexedLastWins(entries: seq<Value>, id: Value) returns (i: nat)
    requires Indexed(entries).Success? && id in Indexed(entries).value
    ensures i < |entries| && IdOf(entries[i]) == id
    ensures entries[i] == PyDict(Indexed(entries).value[id])
    ensures forall j :: i < j < |entries| ==> IdOf(entries[j]) != id
    decreases |entries|
  {
    var init := entries[..|entries| - 1];
    var last := entries[|entries| - 1];
    IndexedKeys(entries);
    assert Truthy(id);
    if IdOf(last) == id {
      i := |entries| - 1;
    } else {
      i := IndexedLastWins(init, id);
    }
  }

  /** `load_agents_from_yaml` given whether the file exists and, if so, the
      document `yaml.safe_load` parsed from it. */
  function LoadAgents(path: string, fileExists: bool, document: Value): (r: Result<map<Value, Config>, LoadError>)
    ensures !fileExists ==> r == Failure(FileNotFound("Agent configuration file not found: " + path))
    ensures fileExists && document.PyDict? && "agents" !in document.entries ==> r == Success(map[])
    ensures fileExists && document.PyDict? && "agents" in document.entries
            && document.entries["agents"].PyList? ==>
              r == Indexed(document.entries["agents"].items)
  {
    if !fileExists then Failure(FileNotFound("Agent configuration file not found: " + path))
    else if !document.PyDict? then Failure(AttributeError(TypeName(document)))
    else
      match Get(document.entries, "agents", PyList([]))
      case PyList(items) => Indexed(items)
      // `len` works on a string or a dict, and iterating an empty one does nothing;
      // a non-empty one yields strings, which have no `get`.
      case PyStr(s) => if s == [] then Success(map[]) else Failure(AttributeError("str"))
      case PyDict(m) => if m == map[] then Success(map[]) else Failure(AttributeError("str"))
      case other => Failure(TypeError("object of type '" + TypeName(other) + "' has no len()"))
  }

  /** The keyword arguments `create_agent_from_config` passes to the agent. */
  datatype AgentSettings = AgentSettings(
    role: Value, goal: Value, backstory: Value, tools: seq<string>,
    allowDelegation: Value, verbose: Value, maxIter: Value, maxExecutionTime: Value, memory: Value)

  /** `create_agent_from_config`: each setting is the entry's value when its
      key is present (even a stored `None`), and the key's default when it is
      missing; `tools or []`. */
  function AgentFromConfig(config: Config, tools: Option<seq<string>>): (a: AgentSettings)
    ensures "role" in config ==> a.role == config["role"]
    ensures "role" !in config ==> a.role == PyStr("")
    ensures "goal" in config ==> a.goal == config["goal"]
    ensures "goal" !in config ==> a.goal == PyStr("")
    ensures "backstory" in config ==> a.backstory == config["backstory"]
    ensures "backstory" !in config ==> a.backstory == PyStr("")
    ensures "delegation" in config ==> a.allowDelegation == config["delegation"]
    ensures "delegation" !in config ==> a.allowDelegation == PyBool(false)
    ensures "verbose" in config ==> a.verbose == config["verbose"]
    ensures "verbose" !in config ==> a.verbose == PyBool(true)
    ensures "max_iter" in config ==> a.maxIter == config["max_iter"]
    ensures "max_iter" !in config ==> a.maxIter == PyInt(12)
    ensures "max_execution_time" in config ==> a.maxExecutionTime == config["max_execution_time"]
    ensures "max_execution_time" !in config ==> a.maxExecutionTime == PyInt(300)
    ensures "memory" in config ==> a.memory == config["memory"]
    ensures "memory" !in config ==> a.memory == PyBool(true)
    ensures tools.None? ==> a.tools == []
    ensures tools.Some? ==> a.tools == tools.value
  {
    AgentSettings(
      Get(config, "role", PyStr("")),
      Get(config, "goal", PyStr("")),
      Get(config, "backstory", PyStr("")),
      match tools case Some(ts) => ts case None => [],
      Get(config, "delegation", PyBool(false)),
      Get(config, "verbose", PyBool(true)),
      Get(config, "max_iter", PyInt(12)),
      Get(config, "max_execution_time", PyInt(300)),
      Get(config, "memory", PyBool(true)))
  }

  /** With none of the keys present, every setting takes its default. */
  lemma MissingKeysDefault(config: Config)
    requires forall k :: k in config ==> k !in {"role", "goal", "backstory", "delegation", "verbose",
                                              "max_iter", "max_execution_time", "memory"}
    ensures AgentFromConfig(config, None)
            == AgentSettings(PyStr(""), PyStr(""), PyStr(""), [], PyBool(false), PyBool(true),
                             PyInt(12), PyInt(300), PyBool(true))
  {
  }
}
