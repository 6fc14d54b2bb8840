/** The placeholder tools the agents can call. Each one builds its answer
    record from its arguments and never fails. */
module StubTools {
  import opened Wrappers
  import opened PyData
  import Decimal

  datatype WorkflowState = WorkflowState(
    workflowId: string, state: string, metadata: map<string, Value>, status: string, note: string)

  /** `workflow_state_manager`: echoes the id and state; `metadata or {}`. */
  function WorkflowStateManager(workflowId: string, state: string, metadata: Option<map<string, Value>>): (r: WorkflowState)
    ensures r.workflowId == workflowId && r.state == state && r.status == "success"
    ensures metadata.None? ==> r.metadata == map[]
    ensures metadata.Some? ==> r.metadata == metadata.value
  {
    WorkflowState(workflowId, state, metadata.GetOr(map[]), "success",
                  "MVP stub - database implementation pending")
  }

  datatype ScheduledTask = ScheduledTask(
    taskId: string, taskType: string, dependencies: seq<string>, status: string, note: string)

  /** `task_scheduler`: `dependencies or []`, status "scheduled". */
  function TaskScheduler(taskId: string, taskType: string, dependencies: Option<seq<string>>): (r: ScheduledTask)
    ensures r.taskId == taskId && r.taskType == taskType && r.status == "scheduled"
    ensures dependencies.None? ==> r.dependencies == []
    ensures dependencies.Some? ==> r.dependencies == dependencies.value
  {
    ScheduledTask(taskId, taskType, dependencies.GetOr([]), "scheduled",
                  "MVP stub - real scheduling pending")
  }

  datatype HandledException = HandledException(
    errorType: string, errorMessage: string, workflowId: string, handled: bool, escalated: bool, note: string)

  /** `exception_handler`: always handled; escalated only for a permanent error. */
  function ExceptionHandler(errorType: string, errorMessage: string, workflowId: string): (r: HandledException)
    ensures r.handled
    ensures r.escalated <==> errorType == "permanent"
    ensures r.errorType == errorType && r.errorMessage == errorMessage && r.workflowId == workflowId
  {
    HandledException(errorType, errorMessage, workflowId, true, errorType == "permanent",
                     "MVP stub - real exception handling pending")
  }

  datatype I9Result = I9Result(documentId: Value, verified: bool, complianceFlags: seq<string>, note: string)

  /** `i9_verifier`: reports `document_data.get("id")`, which is `None` when the
      key is missing, and always verifies. */
  function I9Verifier(documentData: map<string, Value>): (r: I9Result)
    ensures r.verified && r.complianceFlags == []
    ensures "id" in documentData ==> r.documentId == documentData["id"]
    ensures "id" !in documentData ==> r.documentId == PyNone
  {
    I9Result(Get(documentData, "id", PyNone), true, [], "MVP stub - E-Verify integration pending")
  }

  datatype ComplianceResult = ComplianceResult(documentsChecked: nat, compliant: bool, flags: seq<string>, note: string)

  /** `compliance_checker`: counts the documents, finds everything compliant. */
  function ComplianceChecker(documents: seq<map<string, Value>>): (r: ComplianceResult)
    ensures r.documentsChecked == |documents| && r.compliant && r.flags == []
  {
    ComplianceResult(|documents|, true, [], "MVP stub - real compliance checking pending")
  }

  /** The id of the `n`-th ticket (counting from 1) for an employee. */
  function TicketId(employeeId: string, n: nat): string {
    "SN-" + employeeId + "-" + Decimal.Show(n)
  }

  datatype TicketBatch = TicketBatch(
    employeeId: string, ticketIds: seq<string>, accessRequirements: seq<string>, status: string, note: string)

  /** `it_ticket_system`: one ticket per access requirement, numbered from 1. */
  function ItTicketSystem(employeeId: string, accessRequirements: seq<string>): (r: TicketBatch)
    ensures |r.ticketIds| == |accessRequirements|
    ensures forall i :: 0 <= i < |r.ticketIds| ==> r.ticketIds[i] == TicketId(employeeId, i + 1)
    ensures r.employeeId == employeeId && r.accessRequirements == accessRequirements
    ensures r.status == "tickets_created"
  {
    TicketBatch(employeeId, seq(|accessRequirements|, i requires 0 <= i => TicketId(employeeId, i + 1)),
                accessRequirements, "tickets_created", "MVP stub - ServiceNow/Jira integration pending")
  }

  /** No two tickets of a batch share an id. */
  lemma TicketIdsDistinct(employeeId: string, accessRequirements: seq<string>, i: nat, j: nat)
    requires i < j < |accessRequirements|
    ensures ItTicketSystem(employeeId, accessRequirements).ticketIds[i]
            != ItTicketSystem(employeeId, accessRequirements).ticketIds[j]
  {
    var prefix := "SN-" + employeeId + "-";
    assert TicketId(employeeId, i + 1)[|prefix|..] == Decimal.Show(i + 1);
    assert TicketId(employeeId, j + 1)[|prefix|..] == Decimal.Show(j + 1);
    Decimal.ShowInjective(i + 1, j + 1);
  }

  datatype TrainingModule = TrainingModule(moduleId: string, name: string, required: bool, durationMinutes: nat)

  /** `training_catalog`: the same two required modules for every role and
      department. */
  function TrainingCatalog(role: string, department: string): (r: seq<TrainingModule>)
    ensures |r| == 2 && r[0].required && r[1].required
    ensures r[0].moduleId == "security-101" && r[1].moduleId == "company-culture"
  {
    [TrainingModule("security-101", "Security Awareness Training", true, 30),
     TrainingModule("company-culture", "Company Culture & Values", true, 45)]
  }

  /** Neither the role nor the department changes the catalog. */
  lemma TrainingCatalogIgnoresInputs(role1: string, department1: string, role2: string, department2: string)
    ensures TrainingCatalog(role1, department1) == TrainingCatalog(role2, department2)
  {
  }
}
