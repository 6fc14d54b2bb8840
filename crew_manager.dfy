/** The backend's crew manager: it builds a one-agent crew from the loaded
    agent definitions, answers a chat message by running the crew and handing
    the answer out one character at a time, and reports its status. */
module CrewManager {
  import opened Wrappers
  import opened PyData
  import opened AgentLoader
  import Decimal

  /** The tools the orchestrator agent is given, by name. */
  const OrchestratorTools: seq<string> :=
    ["workflow_state_manager", "task_scheduler", "exception_handler", "notification_system"]

  const OrchestratorId: string := "onboarding_orchestrator"
  const MissingOrchestratorError: string := "onboarding_orchestrator configuration not found"
  /** Stands for the agent library's validation error, whose text is not modelled. */
  const AgentSettingsError: string := "invalid agent settings"
  const ApologyPrefix: string := "I apologize, but I encountered an error: "

  /** An agent as the crew holds it; `role` and `goal` are its text fields. */
  datatype Agent = Agent(role: string, goal: string, settings: AgentSettings)

  /** A crew: its agents, its current tasks, and `str(process)`. */
  datatype Crew = Crew(agents: seq<Agent>, tasks: seq<Task>, process: string)

  /** Whether the agent library accepts `v` for a yes/no setting
      (`allow_delegation`, `verbose`): a bool, or the int 0 or 1. */
  predicate FlagValue(v: Value) {
    v.PyBool? || (v.PyInt? && 0 <= v.i <= 1)
  }

  /** Whether the agent library accepts `v` for a count (`max_iter`): an int,
      or a bool, which is one. */
  predicate CountValue(v: Value) {
    v.PyInt? || v.PyBool?
  }

  /** Whether the agent library builds an agent from these settings: text for
      role, goal and backstory, flags for delegation and verbosity, and a
      count for the iteration limit. A `None` left by an empty YAML value fails
      every one of these tests. */
  predicate Constructible(a: AgentSettings) {
    && a.role.PyStr? && a.goal.PyStr? && a.backstory.PyStr?
    && FlagValue(a.allowDelegation) && FlagValue(a.verbose) && CountValue(a.maxIter)
  }

  /** The crew `_initialize_crew` builds: one orchestrator agent with the four
      orchestrator tools, no tasks yet, sequential process. It fails when the
      orchestrator's entry is missing or empty (falsy), and when the agent
      library refuses the entry's settings. */
  function InitialCrew(agentsConfig: map<Value, Config>, processName: string): (r: Result<Crew, string>)
    ensures (PyStr(OrchestratorId) !in agentsConfig || agentsConfig[PyStr(OrchestratorId)] == map[]) ==>
              r == Failure(MissingOrchestratorError)
    ensures r.Success? <==>
              && PyStr(OrchestratorId) in agentsConfig && agentsConfig[PyStr(OrchestratorId)] != map[]
              && Constructible(AgentFromConfig(agentsConfig[PyStr(OrchestratorId)], None))
    ensures PyStr(OrchestratorId) in agentsConfig && agentsConfig[PyStr(OrchestratorId)] != map[]
            && !Constructible(AgentFromConfig(agentsConfig[PyStr(OrchestratorId)], None)) ==>
              r == Failure(AgentSettingsError)
    ensures r.Success? ==> |r.value.agents| == 1 && r.value.tasks == [] && r.value.process == processName
    ensures r.Success? ==> r.value.agents[0].settings
                           == AgentFromConfig(agentsConfig[PyStr(OrchestratorId)], Some(OrchestratorTools))
  {
    var key := PyStr(OrchestratorId);
    if key !in agentsConfig || agentsConfig[key] == map[] then Failure(MissingOrchestratorError)
    else
      var settings := AgentFromConfig(agentsConfig[key], Some(OrchestratorTools));
      if !Constructible(settings) then Failure(AgentSettingsError)
      else Success(Crew([Agent(settings.role.s, settings.goal.s, settings)], [], processName))
  }

  /** `employee_id or 'Not provided'` and the same for the workflow id. */
  function OrNotProvided(v: Option<string>): (r: string)
    ensures v.None? || v.value == [] ==> r == "Not provided"
    ensures v.Some? && v.value != [] ==> r == v.value
    ensures r != []
  {
    if v.None? || v.value == [] then "Not provided" else v.value
  }

  /** What fills the three holes of the task description for a chat
      message: the message, and the employee and workflow ids or
      "Not provided". */
  datatype TaskPrompt = TaskPrompt(message: string, employee: string, workflow: string)

  /** The task description the orchestrator is given: the template with
      its holes filled. */
  function Description(p: TaskPrompt): string {
    "\n        Respond to the following user message about employee onboarding:\n        \n"
    + "        User Message: " + p.message + "\n        \n"
    + "        Context:\n"
    + "        - Employee ID: " + p.employee + "\n"
    + "        - Workflow ID: " + p.workflow + "\n        \n"
    + "        Provide a helpful, professional response about the onboarding process.\n"
    + "        If the user is asking about specific tasks (documents, IT access, training),\n"
    + "        acknowledge their request and explain what will happen next.\n        "
  }

  /** A task of the crew: its description (given by its prompt), the agent
      that runs it, and the output expected of it. */
  datatype Task = Task(prompt: TaskPrompt, agent: Agent, expectedOutput: string)

  /** The one task a chat message gives the crew, assigned to its first
      (orchestrator) agent. */
  function TaskFor(c: Crew, message: string, employeeId: Option<string>, workflowId: Option<string>): (t: Task)
    requires c.agents != []
    ensures t.agent == c.agents[0] && t.prompt.message == message
    ensures employeeId.Some? && employeeId.value != [] ==> t.prompt.employee == employeeId.value
    ensures employeeId.None? || employeeId.value == [] ==> t.prompt.employee == "Not provided"
    ensures workflowId.Some? && workflowId.value != [] ==> t.prompt.workflow == workflowId.value
    ensures workflowId.None? || workflowId.value == [] ==> t.prompt.workflow == "Not provided"
  {
    Task(TaskPrompt(message, OrNotProvided(employeeId), OrNotProvided(workflowId)), c.agents[0],
         "A helpful response about the onboarding process")
  }

  /** The text handed out for one run of the crew: the crew's answer, or an
      apology carrying the error's message when the run raised. */
  function ResponseText(kickoff: Result<string, string>): string {
    match kickoff
    case Success(answer) => answer
    case Failure(e) => ApologyPrefix + e
  }

  /** The crew's answer is handed out unchanged; a failed run's text is the
      apology followed by exactly the error's message. */
  lemma ResponseTextCarries(kickoff: Result<string, string>)
    ensures kickoff.Success? ==> ResponseText(kickoff) == kickoff.value
    ensures kickoff.Failure? ==> var r := ResponseText(kickoff);
              |r| == |ApologyPrefix| + |kickoff.error|
              && r[..|ApologyPrefix|] == ApologyPrefix && r[|ApologyPrefix|..] == kickoff.error
  {
  }

  /** The one-character pieces of `text`, in order. */
  function Characters(text: string): (r: seq<string>)
    ensures |r| == |text|
    ensures forall i :: 0 <= i < |r| ==> r[i] == [text[i]]
  {
    seq(|text|, i requires 0 <= i < |text| => [text[i]])
  }

  /** Joining pieces back together, as a reader of the stream does. */
  function Concat(pieces: seq<string>): string {
    if pieces == [] then [] else Concat(pieces[..|pieces| - 1]) + pieces[|pieces| - 1]
  }

  /** Joining the characters of a text gives the text back. */
  lemma {:induction false} ConcatCharacters(text: string)
    ensures Concat(Characters(text)) == text
  {
    if text != [] {
      var init := text[..|text| - 1];
      assert Characters(text)[..|text| - 1] == Characters(init);
      ConcatCharacters(init);
      assert init + [text[|text| - 1]] == text;
    }
  }

  /** The `for char in response_text: yield char` loop. */
  method CharChunks(text: string) returns (chunks: seq<string>)
    ensures chunks == Characters(text)
    ensures Concat(chunks) == text
  {
    chunks := [];
    var i := 0;
    while i < |text|
      invariant 0 <= i <= |text|
      invariant chunks == Characters(text[..i])
    {
      assert Characters(text[..i + 1]) == Characters(text[..i]) + [[text[i]]];
      chunks := chunks + [[text[i]]];
      i := i + 1;
    }
    assert text[..|text|] == text;
    ConcatCharacters(text);
  }

  /** What `get_agent_status` reports for one agent. */
  datatype AgentSummary = AgentSummary(role: string, goal: string)

  datatype StatusReport = StatusReport(
    crewInitialized: bool, agentCount: nat, agents: seq<AgentSummary>, process: Option<string>)

  /** A goal longer than 100 characters is cut to its first 100 and marked
      with "..."; a shorter one is reported whole. */
  function ShortGoal(goal: string): (r: string)
    ensures |goal| <= 100 ==> r == goal
    ensures |goal| > 100 ==> |r| == 103 && r[..100] == goal[..100] && r[100..] == "..."
  {
    if |goal| > 100 then goal[..100] + "..." else goal
  }

  /** `get_agent_status` of a manager whose crew is `crew`. */
  function AgentStatus(crew: Option<Crew>): (r: StatusReport)
    ensures r.crewInitialized <==> crew.Some?
    ensures r.agentCount == |r.agents|
    ensures crew.None? ==> r.agentCount == 0 && r.process == None
    ensures crew.Some? ==> r.agentCount == |crew.value.agents| && r.process == Some(crew.value.process)
    ensures crew.Some? ==> forall i :: 0 <= i < |r.agents| ==>
              r.agents[i] == AgentSummary(crew.value.agents[i].role, ShortGoal(crew.value.agents[i].goal))
  {
    match crew
    case None => StatusReport(false, 0, [], None)
    case Some(c) =>
      StatusReport(true, |c.agents|,
                   seq(|c.agents|, i requires 0 <= i < |c.agents| =>
                         AgentSummary(c.agents[i].role, ShortGoal(c.agents[i].goal))),
                   Some(c.process))
  }

  /** `initiate_onboarding`: "workflow-" and the employee id, or
      "workflow-unknown" without one. */
  function InitiateOnboarding(employeeData: map<string, Value>): (r: string)
    requires "employee_id" in employeeData ==> IsScalar(employeeData["employee_id"])
    ensures |r| >= 9 && r[..9] == "workflow-"
    ensures "employee_id" !in employeeData ==> r == "workflow-unknown"
    ensures "employee_id" in employeeData ==> r == "workflow-" + Str(employeeData["employee_id"])
  {
    "workflow-" + Str(Get(employeeData, "employee_id", PyStr("unknown")))
  }

  /** Employees with different numeric ids get different workflow ids. */
  lemma WorkflowIdsDiffer(a: int, b: int)
    ensures a != b ==>
              InitiateOnboarding(map["employee_id" := PyInt(a)])
              != InitiateOnboarding(map["employee_id" := PyInt(b)])
  {
    var ra := InitiateOnboarding(map["employee_id" := PyInt(a)]);
    var rb := InitiateOnboarding(map["employee_id" := PyInt(b)]);
    Decimal.ShowIntInjective(a, b);
    if ra == rb {
      assert ra[9..] == rb[9..];
    }
  }

  datatype WorkflowStatus = WorkflowStatus(workflowId: string, status: string, note: string)

  /** `get_workflow_status`: echoes the id with status "unknown". */
  function GetWorkflowStatus(workflowId: string): (r: WorkflowStatus)
    ensures r.workflowId == workflowId && r.status == "unknown"
  {
    WorkflowStatus(workflowId, "unknown", "Stub - database implementation pending")
  }

  class OnboardingCrewManager {
    const agentsConfig: map<Value, Config>
    var crew: Option<Crew>

    /** The state every constructed manager is in: a crew with an agent. */
    predicate Valid()
      reads this
    {
      crew.Some? && crew.value.agents != []
    }

    /** The first half of `__init__`: configuration loaded, no crew yet. */
    constructor (agentsConfig: map<Value, Config>)
      ensures this.agentsConfig == agentsConfig && crew == None
    {
      this.agentsConfig := agentsConfig;
      crew := None;
    }

    /** `_initialize_crew`: sets the crew, or reports the error it raises. */
    method InitializeCrew(processName: string) returns (err: Option<string>)
      modifies this
      ensures err.None? <==> InitialCrew(agentsConfig, processName).Success?
      ensures err.Some? ==> err.value == InitialCrew(agentsConfig, processName).error && crew == old(crew)
      ensures err.None? ==> crew == Some(InitialCrew(agentsConfig, processName).value) && Valid()
    {
      match InitialCrew(agentsConfig, processName)
      case Failure(e) =>
        err := Some(e);
      case Success(c) =>
        crew := Some(c);
        err := None;
    }

    /** `process_chat_message`: the crew's task list becomes the one task for
        this message, and the pieces handed out are the characters of the
        answer, or of the apology when running the crew raised. `kickoff` is
        what running the crew produced. */
    method ProcessChatMessage(message: string, employeeId: Option<string>, workflowId: Option<string>,
                              kickoff: Result<string, string>) returns (chunks: seq<string>)
      requires Valid()
      modifies this
      ensures Valid()
      ensures crew == Some(old(crew.value).(tasks := [TaskFor(old(crew.value), message, employeeId, workflowId)]))
      ensures chunks == Characters(ResponseText(kickoff))
      ensures Concat(chunks) == ResponseText(kickoff)
    {
      var c := crew.value;
      crew := Some(c.(tasks := [TaskFor(c, message, employeeId, workflowId)]));
      chunks := CharChunks(ResponseText(kickoff));
    }

    /** `get_agent_status`; a manager in its constructed state reports an
        initialised crew with at least one agent. */
    function GetAgentStatus(): (r: StatusReport)
      reads this
      ensures r.crewInitialized <==> crew.Some?
      ensures Valid() ==> r.crewInitialized && r.agentCount >= 1
    {
      AgentStatus(crew)
    }
  }

  /** `OnboardingCrewManager()`: construction either yields a manager with a
      crew or fails with the error `_initialize_crew` raised. */
  method NewManager(agentsConfig: map<Value, Config>, processName: string)
    returns (r: Result<OnboardingCrewManager, string>)
    ensures r.Success? <==> InitialCrew(agentsConfig, processName).Success?
    ensures r.Success? ==> fresh(r.value) && r.value.Valid()
                           && r.value.crew == Some(InitialCrew(agentsConfig, processName).value)
    ensures r.Failure? ==> r.error == InitialCrew(agentsConfig, processName).error
  {
    var m := new OnboardingCrewManager(agentsConfig);
    var err := m.InitializeCrew(processName);
    if err.Some? {
      return Failure(err.value);
    }
    return Success(m);
  }
}
