/**
 * The calls the desktop clients make into the remote agent service. Each
 * operation of the model records, in order, the calls it issued; what a
 * call returns is an input of the model.
 */
module Remote {

  /** A tool attached to an agent at creation. */
  datatype Tool = FileSearch(vectorStoreIds: seq<string>)

  /** One remote call, with the arguments that matter to the model. */
  datatype Call =
    | CreateStore(name: string)
    | UploadFile(path: string)
    | AttachFile(storeId: string, fileId: string)
    | UploadBatch(storeId: string, paths: seq<string>)
    | CreateAgent(model: string, instructions: string, tools: seq<Tool>)
    | CreateThread
    | DeleteAgent(agentId: string)
    | DeleteStore(storeId: string)
    | DeleteThread(threadId: string)
    | CloseClient
    | CloseCredential
    | PostMessage(threadId: string, content: string)
    | CreateRun(threadId: string, agentId: string)
    | GetRun(threadId: string, runId: string)
    | ListMessages(threadId: string)

  /** The name both clients give the knowledge-base vector store. */
  const StoreName: string := "knowledge-base-support-ti"

  /** The two sequences of steps whose order the clients keep. */
  datatype Order = Connecting | TearingDown

  /**
   * The step a call belongs to. Connecting: building the knowledge base,
   * then creating the agent, then opening the thread. Tearing down: agent,
   * vector store, thread, client, credential.
   */
  function Phase(order: Order, c: Call): nat
  {
    match order
    case Connecting =>
      (match c
       case CreateAgent(_, _, _) => 1
       case CreateThread => 2
       case _ => 0)
    case TearingDown =>
      (match c
       case DeleteAgent(_) => 0
       case DeleteStore(_) => 1
       case DeleteThread(_) => 2
       case CloseClient => 3
       case _ => 4)
  }

  /** The calls are issued step by step, never returning to an earlier one. */
  predicate InPhaseOrder(calls: seq<Call>, order: Order)
  {
    forall i, j :: 0 <= i < j < |calls| ==> Phase(order, calls[i]) <= Phase(order, calls[j])
  }

  /** Every call builds the knowledge base: none creates an agent or a thread. */
  predicate KnowledgePhaseOnly(calls: seq<Call>)
  {
    forall i :: 0 <= i < |calls| ==> Phase(Connecting, calls[i]) == 0
  }

  /** Two runs of calls in order, the first never past step `k` and the second never before it, stay in order when joined. */
  lemma PhasesConcat(a: seq<Call>, b: seq<Call>, order: Order, k: nat)
    requires InPhaseOrder(a, order) && InPhaseOrder(b, order)
    requires forall i :: 0 <= i < |a| ==> Phase(order, a[i]) <= k
    requires forall j :: 0 <= j < |b| ==> k <= Phase(order, b[j])
    ensures InPhaseOrder(a + b, order)
  {
    forall i, j | 0 <= i < j < |a + b| ensures Phase(order, (a + b)[i]) <= Phase(order, (a + b)[j]) {
      if j < |a| {
        assert (a + b)[i] == a[i] && (a + b)[j] == a[j];
      } else if i < |a| {
        assert (a + b)[i] == a[i] && (a + b)[j] == b[j - |a|];
      } else {
        assert (a + b)[i] == b[i - |a|] && (a + b)[j] == b[j - |a|];
      }
    }
  }
}
