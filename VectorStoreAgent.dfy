/**
 * The second desktop client, which sends the whole knowledge base to the
 * vector store in one batch upload, attaches that store to the agent's
 * file-search tool, lets every failure of connect and teardown propagate,
 * and reads replies only from text parts that carry a value.
 */
module VectorStoreAgent {
  import opened Wrappers
  import Instructions
  import opened KnowledgeBase
  import opened Remote
  import opened Runs
  import opened Agent

  // ----------------------------------------------------------- vector store

  /** What the service and the file system do while the knowledge base is built. */
  datatype BatchEnv = BatchEnv(
    newStore: Attempt<string>,  // creating the vector store: its id, or the error raised
    folder: Folder,             // the knowledge-base folder
    batch: Outcome)             // the one batch upload of every selected file

  /**
   * The outcome of the store step: a store, `None` (returned), or the
   * error it raised; the uploaded-files field afterwards; the calls issued.
   */
  datatype BatchBuild = BatchBuild(result: Attempt<Option<string>>, uploadedFiles: seq<string>, calls: seq<Call>)

  /**
   * `create_vector_store_with_files` of the batch client: create the store,
   * select the documents of the folder and upload them in one call. Nothing
   * is caught: a failing creation, listing or upload raises. A missing
   * folder or one without documents gives `None`, although the store has
   * already been created.
   */
  function BuildBatchStore(hasClient: bool, path: string, previous: seq<string>, env: BatchEnv): BatchBuild
  {
    if !hasClient then BatchBuild(Raised(NoAttribute("vector_stores")), previous, [])
    else
      var created := [CreateStore(StoreName)];
      match env.newStore
      case Raised(e) => BatchBuild(Raised(e), previous, created)
      case Done(id) =>
        match env.folder
        case Missing => BatchBuild(Done(None), previous, created)
        case Unlistable(e) => BatchBuild(Raised(e), previous, created)
        case Listed(names) =>
          var files := Selected(path, names);
          if files == [] then BatchBuild(Done(None), previous, created)
          else
            var calls := created + [UploadBatch(id, files)];
            match env.batch
            case Failed(e) => BatchBuild(Raised(e), previous, calls)
            case Ok => BatchBuild(Done(Some(id)), files, calls)
  }

  /**
   * A store comes back exactly when it was created, the folder lists at
   * least one document and the batch upload succeeded; the uploaded files
   * are then exactly the selected paths, sent in one call after the
   * creation. Otherwise the uploaded files are unchanged.
   */
  lemma BuildStoreOutcome(path: string, previous: seq<string>, env: BatchEnv)
    ensures var b := BuildBatchStore(true, path, previous, env);
            && (b.result.Done? && b.result.value.Some? <==>
                  env.newStore.Done? && env.folder.Listed? && Selected(path, env.folder.names) != [] && env.batch.Ok?)
            && (b.result.Done? && b.result.value.Some? ==>
                  b.result.value.value == env.newStore.value
                  && b.uploadedFiles == Selected(path, env.folder.names)
                  && b.calls == [CreateStore(StoreName), UploadBatch(env.newStore.value, b.uploadedFiles)])
            && (!(b.result.Done? && b.result.value.Some?) ==> b.uploadedFiles == previous)
            && b.calls[0] == CreateStore(StoreName)
            && KnowledgePhaseOnly(b.calls)
  {
  }

  /**
   * `None` is returned only for a missing folder or a folder without
   * documents, and in both cases the store has been created already.
   */
  lemma EmptyFolderGivesNoStore(path: string, previous: seq<string>, env: BatchEnv)
    ensures var b := BuildBatchStore(true, path, previous, env);
            b.result == Done(None) <==>
              env.newStore.Done? && (env.folder.Missing? || (env.folder.Listed? && Selected(path, env.folder.names) == []))
    ensures BuildBatchStore(true, path, previous, env).result == Done(None) ==>
              BuildBatchStore(true, path, previous, env).calls == [CreateStore(StoreName)]
  {
  }

  // ---------------------------------------------------------------- connect

  /** What the environment and the service do during a connect. */
  datatype BatchConnectEnv = BatchConnectEnv(
    endpoint: Option<string>,          // the project endpoint variable
    model: Option<string>,             // the model deployment variable
    instructionsFile: Option<string>,  // the instructions file, `None` when it cannot be read
    knowledge: BatchEnv,
    newAgent: Attempt<string>,         // creating the agent
    newThread: Attempt<string>)        // creating the thread

  /** The agent, with the file-search tool over the store `storeId`, then the thread. */
  function AgentOverStore(f: Fields, model: string, instructions: string, storeId: string, env: BatchConnectEnv): ConnectResult
  {
    var calls := [CreateAgent(model, instructions, [FileSearch([storeId])])];
    match env.newAgent
    case Raised(e) => ConnectResult(f, calls, ConnectFailed(e))
    case Done(a) => OpenThread(f.(agent := Some(a)), calls, env.newThread)
  }

  /**
   * `_connect_async` of the batch client, given the text
   * `read_instructions` returns: check the configuration, build
   * credential and client, build the knowledge base, then create the
   * agent and the thread. A raised error leaves the field being assigned
   * as it was.
   */
  function BatchConnectEffect(f: Fields, env: BatchConnectEnv, instructions: string): ConnectResult
  {
    if !IsSet(env.endpoint) || !IsSet(env.model) then ConnectResult(f, [], NotConfigured)
    else
      var f1 := f.(credential := true, client := Some(env.endpoint.value));
      var b := BuildBatchStore(true, KnowledgeBasePath, f.uploadedFiles, env.knowledge);
      match b.result
      case Raised(e) => ConnectResult(f1, b.calls, ConnectFailed(e))
      case Done(None) => ConnectResult(f1.(vectorStore := None), b.calls, NoVectorStore)
      case Done(Some(id)) =>
        var r := AgentOverStore(f1.(vectorStore := Some(id), uploadedFiles := b.uploadedFiles),
                                env.model.value, instructions, id, env);
        ConnectResult(r.fields, b.calls + r.calls, r.outcome)
  }

  /**
   * A missing endpoint or model returns before credential or client are
   * built: no call, no field changed, not connected.
   */
  lemma ConnectNeedsConfiguration(f: Fields, env: BatchConnectEnv, instructions: string)
    requires !IsSet(env.endpoint) || !IsSet(env.model)
    ensures var r := BatchConnectEffect(f, env, instructions);
            r.fields == f && r.calls == [] && r.outcome == NotConfigured
  {
  }

  /**
   * Store, then agent, then thread, the store created first; an agent is
   * requested only over the store just filled, with that store as the
   * only vector store of its file-search tool.
   */
  lemma ConnectCallOrder(f: Fields, env: BatchConnectEnv, instructions: string)
    requires IsSet(env.endpoint) && IsSet(env.model)
    ensures var r := BatchConnectEffect(f, env, instructions);
            var b := BuildBatchStore(true, KnowledgeBasePath, f.uploadedFiles, env.knowledge);
            && InPhaseOrder(r.calls, Connecting)
            && r.calls[0] == CreateStore(StoreName)
            && (!(b.result.Done? && b.result.value.Some?) ==> r.calls == b.calls && KnowledgePhaseOnly(r.calls))
            && (b.result.Done? && b.result.value.Some? ==>
                  env.knowledge.newStore.Done?
                  && r.calls[2] == CreateAgent(env.model.value, instructions, [FileSearch([env.knowledge.newStore.value])]))
  {
    var b := BuildBatchStore(true, KnowledgeBasePath, f.uploadedFiles, env.knowledge);
    BuildStoreOutcome(KnowledgeBasePath, f.uploadedFiles, env.knowledge);
    if b.result.Done? && b.result.value.Some? {
      var id := b.result.value.value;
      var f2 := f.(credential := true, client := Some(env.endpoint.value), vectorStore := Some(id), uploadedFiles := b.uploadedFiles);
      var r := AgentOverStore(f2, env.model.value, instructions, id, env);
      assert forall i :: 0 <= i < |r.calls| ==> Phase(Connecting, r.calls[i]) >= 1;
      PhasesConcat(b.calls, r.calls, Connecting, 0);
    }
  }

  /**
   * The client counts as connected exactly when the configuration is set,
   * the store was created and filled in one batch, and agent and thread
   * were created; it then holds that store and the uploaded paths.
   * Otherwise the flag keeps its old value.
   */
  lemma ConnectedOnlyWithFilledStore(f: Fields, env: BatchConnectEnv, instructions: string)
    ensures var r := BatchConnectEffect(f, env, instructions);
            var k := env.knowledge;
            && (r.outcome == Connected <==>
                  IsSet(env.endpoint) && IsSet(env.model) && k.newStore.Done? && k.folder.Listed?
                  && Selected(KnowledgeBasePath, k.folder.names) != [] && k.batch.Ok?
                  && env.newAgent.Done? && env.newThread.Done?)
            && (r.outcome == Connected ==>
                  ConnectedHoldsResources(r.fields) && r.fields.vectorStore == Some(k.newStore.value)
                  && r.fields.uploadedFiles == Selected(KnowledgeBasePath, k.folder.names))
            && (r.outcome != Connected ==> r.fields.isConnected == f.isConnected)
  {
    BuildStoreOutcome(KnowledgeBasePath, f.uploadedFiles, env.knowledge);
  }

  /** Connecting keeps the connected-holds-resources invariant. */
  lemma ConnectKeepsInvariant(f: Fields, env: BatchConnectEnv, instructions: string)
    requires ConnectedHoldsResources(f)
    ensures ConnectedHoldsResources(BatchConnectEffect(f, env, instructions).fields)
  {
  }

  // ------------------------------------------------------------- disconnect

  /**
   * `_disconnect_async` of the batch client: delete agent, store and
   * thread, each only when held, then close the client when held and the
   * credential when held. Everything runs in one `try`: the first failure
   * ends the teardown, and so does a held resource without a client (its
   * deletion reads an attribute of `None`).
   */
  function BatchTeardown(f: Fields, env: TeardownEnv): seq<Call>
  {
    var holdsResource := f.agent.Some? || f.vectorStore.Some? || f.thread.Some?;
    var closeCredential := if f.credential then [CloseCredential] else [];
    if f.client.None? then (if holdsResource then [] else closeCredential)
    else if f.agent.Some? && env.deleteAgent.Failed? then AgentDeletion(f)
    else if f.vectorStore.Some? && env.deleteStore.Failed? then AgentDeletion(f) + StoreDeletion(f)
    else if f.thread.Some? && env.deleteThread.Failed? then AgentDeletion(f) + StoreDeletion(f) + ThreadDeletion(f)
    else AgentDeletion(f) + StoreDeletion(f) + ThreadDeletion(f) + Closing(f, env)
  }

  /**
   * `disconnect_agent` of the batch client: no guard on the flag; the
   * teardown, then the flag cleared whatever happened. No other field is
   * cleared.
   */
  function BatchDisconnectEffect(f: Fields, env: TeardownEnv): DisconnectResult
  {
    DisconnectResult(f.(isConnected := false), BatchTeardown(f, env))
  }

  /**
   * Disconnecting twice issues the same deletions twice: the fields that
   * name agent, store and thread survive the first disconnect.
   */
  lemma DisconnectRepeatsTeardown(f: Fields, env: TeardownEnv)
    ensures BatchDisconnectEffect(f, env).fields == f.(isConnected := false)
    ensures BatchDisconnectEffect(BatchDisconnectEffect(f, env).fields, env).calls == BatchDisconnectEffect(f, env).calls
    ensures f.client.Some? && f.agent.Some? ==>
              DeleteAgent(f.agent.value) in BatchDisconnectEffect(BatchDisconnectEffect(f, env).fields, env).calls
  {
  }

  /** Teardown order is agent, store, thread, client, credential. */
  lemma TeardownOrder(f: Fields, env: TeardownEnv)
    ensures InPhaseOrder(BatchTeardown(f, env), TearingDown)
  {
    var a, s, t := AgentDeletion(f), StoreDeletion(f), ThreadDeletion(f);
    var calls := BatchTeardown(f, env);
    DeletionsInOrder(f);
    if f.client.None? || (f.agent.Some? && env.deleteAgent.Failed?) {
      assert |calls| <= 1;
    } else if f.vectorStore.Some? && env.deleteStore.Failed? {
      assert calls == a + s;
      PhasesConcat(a, s, TearingDown, 1);
    } else if !(f.thread.Some? && env.deleteThread.Failed?) {
      PhasesConcat(a + s + t, Closing(f, env), TearingDown, 3);
    }
  }

  /**
   * Unlike the other client, a failed store deletion ends the teardown:
   * the thread is not deleted and client and credential stay open. With a
   * resource held but no client, nothing at all is issued.
   */
  lemma TeardownStopsAtFirstFailure(f: Fields, env: TeardownEnv)
    ensures f.client.Some? && (f.agent.None? || env.deleteAgent.Ok?) && f.vectorStore.Some? && env.deleteStore.Failed? ==>
              BatchTeardown(f, env) == AgentDeletion(f) + [DeleteStore(f.vectorStore.value)]
    ensures f.client.Some? && f.agent.Some? && env.deleteAgent.Failed? ==> BatchTeardown(f, env) == [DeleteAgent(f.agent.value)]
    ensures f.client.None? && (f.agent.Some? || f.vectorStore.Some? || f.thread.Some?) ==> BatchTeardown(f, env) == []
    ensures CloseClient in BatchTeardown(f, env) <==>
              f.client.Some? && (f.agent.None? || env.deleteAgent.Ok?) && (f.vectorStore.None? || env.deleteStore.Ok?)
              && (f.thread.None? || env.deleteThread.Ok?)
  {
    var d := AgentDeletion(f) + StoreDeletion(f) + ThreadDeletion(f);
    assert CloseClient !in d;
    if f.client.Some? && (f.agent.None? || env.deleteAgent.Ok?) && (f.vectorStore.None? || env.deleteStore.Ok?)
       && (f.thread.None? || env.deleteThread.Ok?) {
      assert BatchTeardown(f, env)[|d|] == CloseClient;
    }
  }

  /**
   * A connect that finds no document creates a store it does not keep:
   * the field is `None`, so no later teardown deletes that store.
   */
  lemma EmptyKnowledgeBaseOrphansStore(f: Fields, env: BatchConnectEnv, instructions: string, tenv: TeardownEnv)
    requires IsSet(env.endpoint) && IsSet(env.model) && env.knowledge.newStore.Done?
    requires env.knowledge.folder.Missing? ||
             (env.knowledge.folder.Listed? && Selected(KnowledgeBasePath, env.knowledge.folder.names) == [])
    ensures var r := BatchConnectEffect(f, env, instructions);
            && r.outcome == NoVectorStore && r.calls == [CreateStore(StoreName)] && r.fields.vectorStore.None?
            && forall c :: c in BatchTeardown(r.fields, tenv) ==> !c.DeleteStore?
  {
    var r := BatchConnectEffect(f, env, instructions);
    EmptyFolderGivesNoStore(KnowledgeBasePath, f.uploadedFiles, env.knowledge);
    assert StoreDeletion(r.fields) == [];
  }

  // ------------------------------------------------------------- messages

  /** One turn of the batch client: strict reading, and `""` when no assistant message has text. */
  function BatchProcessEffect(f: Fields, text: string, env: TurnEnv): Turn
  {
    if f.client.None? then Turn(Answer(ErrorResult(NoAttribute("create_message"))), [])
    else if f.thread.None? then Turn(Answer(ErrorResult(NoAttribute("id"))), [])
    else TurnEffect(Strict, "", f.thread.value, f.agent, text, env)
  }

  /** The batch client's routing: any non-empty result is shown as the agent's reply. */
  function Route(result: string): Shown
  {
    if result != "" then AgentLine(result) else ErrorLine(NoReplyLine)
  }

  /**
   * For a completed run the chat shows the no-reply error line exactly
   * when no assistant message has a text part with a value, and otherwise
   * the first such message's text.
   */
  lemma RouteShowsReplyOrError(f: Fields, text: string, env: TurnEnv, msgs: seq<Message>)
    requires f.client.Some? && f.thread.Some? && f.agent.Some?
    requires env.post.Ok? && env.newRun.Done? && env.listing == Done(msgs)
    requires Poll(env.newRun.value.status, env.refreshes).Settled?
    requires Poll(env.newRun.value.status, env.refreshes).status == Completed
    ensures var t := BatchProcessEffect(f, text, env);
            && t.result.Answer?
            && (Route(t.result.result) == ErrorLine(NoReplyLine) <==> forall k :: 0 <= k < |msgs| ==> !Answers(Strict, msgs[k]))
            && (Route(t.result.result).AgentLine? ==> Route(t.result.result).text == FirstReply(Strict, msgs))
  {
    CompletedTurnReply(Strict, "", f.thread.value, f.agent.value, text, env, msgs);
    FirstReplyIsFirstAnswer(Strict, msgs);
  }

  // ---------------------------------------------------------------- session

  /**
   * The batch client's connection state, updated in place by its
   * operations. Each operation also returns the remote calls it issued,
   * in order.
   */
  class Session {
    var isConnected: bool
    var credential: bool
    var client: Option<string>
    var vectorStore: Option<string>
    var agent: Option<string>
    var thread: Option<string>
    var uploadedFiles: seq<string>

    function State(): Fields
      reads this
    {
      Fields(isConnected, credential, client, vectorStore, agent, thread, uploadedFiles)
    }

    constructor ()
      ensures State() == Initial
    {
      isConnected := false;
      credential := false;
      client := None;
      vectorStore := None;
      agent := None;
      thread := None;
      uploadedFiles := [];
    }

    /** `create_vector_store_with_files` for the folder at `path`. */
    method CreateVectorStoreWithFiles(path: string, env: BatchEnv) returns (result: Attempt<Option<string>>, calls: seq<Call>)
      modifies this
      ensures var b := BuildBatchStore(old(client).Some?, path, old(uploadedFiles), env);
              && result == b.result && calls == b.calls
              && State() == old(State()).(uploadedFiles := b.uploadedFiles)
    {
      if client.None? {
        return Raised(NoAttribute("vector_stores")), [];
      }
      calls := [CreateStore(StoreName)];
      if env.newStore.Raised? {
        return Raised(env.newStore.error), calls;
      }
      var id := env.newStore.value;
      match env.folder {
        case Missing =>
          return Done(None), calls;
        case Unlistable(e) =>
          return Raised(e), calls;
        case Listed(names) =>
          var files := CollectFilesToUpload(path, names);
          if files == [] {
            return Done(None), calls;
          }
          calls := calls + [UploadBatch(id, files)];
          if env.batch.Failed? {
            return Raised(env.batch.error), calls;
          }
          uploadedFiles := files;
          return Done(Some(id)), calls;
      }
    }

    /** `_connect_async`: the agent gets the instructions `read_instructions` returns. */
    method Connect(env: BatchConnectEnv) returns (outcome: ConnectOutcome, calls: seq<Call>)
      modifies this
      ensures var r := BatchConnectEffect(old(State()), env, Instructions.ReadInstructions(env.instructionsFile));
              State() == r.fields && calls == r.calls && outcome == r.outcome
    {
      var instructions := Instructions.ReadInstructions(env.instructionsFile);
      outcome, calls := ConnectWith(env, instructions);
    }

    /** `_connect_async` once the instructions text has been read. */
    method ConnectWith(env: BatchConnectEnv, instructions: string) returns (outcome: ConnectOutcome, calls: seq<Call>)
      modifies this
      ensures var r := BatchConnectEffect(old(State()), env, instructions);
              State() == r.fields && calls == r.calls && outcome == r.outcome
    {
      if !IsSet(env.endpoint) || !IsSet(env.model) {
        return NotConfigured, [];
      }
      credential := true;
      client := Some(env.endpoint.value);
      var store;
      store, calls := CreateVectorStoreWithFiles(KnowledgeBasePath, env.knowledge);
      if store.Raised? {
        return ConnectFailed(store.error), calls;
      }
      vectorStore := store.value;
      if vectorStore.None? {
        return NoVectorStore, calls;
      }
      var agentCalls;
      outcome, agentCalls := CreateAgentOverStore(env.model.value, instructions, vectorStore.value, env);
      calls := calls + agentCalls;
    }

    /** The agent and thread steps of `_connect_async`, over the store `storeId`. */
    method CreateAgentOverStore(model: string, instructions: string, storeId: string, env: BatchConnectEnv)
      returns (outcome: ConnectOutcome, calls: seq<Call>)
      modifies this
      ensures var r := AgentOverStore(old(State()), model, instructions, storeId, env);
              State() == r.fields && calls == r.calls && outcome == r.outcome
    {
      calls := [CreateAgent(model, instructions, [FileSearch([storeId])])];
      if env.newAgent.Raised? {
        return ConnectFailed(env.newAgent.error), calls;
      }
      agent := Some(env.newAgent.value);
      calls := calls + [CreateThread];
      if env.newThread.Raised? {
        return ConnectFailed(env.newThread.error), calls;
      }
      thread := Some(env.newThread.value);
      isConnected := true;
      outcome := Connected;
    }

    /** `disconnect_agent`: the teardown, then the `finally` that clears the flag. */
    method Disconnect(env: TeardownEnv) returns (calls: seq<Call>)
      modifies this
      ensures var r := BatchDisconnectEffect(old(State()), env);
              State() == r.fields && calls == r.calls
    {
      calls := TearDown(env);
      isConnected := false;
    }

    /** `_disconnect_async`: issue the teardown calls until the first one raises. */
    method TearDown(env: TeardownEnv) returns (calls: seq<Call>)
      ensures calls == BatchTeardown(State(), env)
    {
      calls := [];
      if agent.Some? {
        if client.None? {
          return;
        }
        calls := calls + [DeleteAgent(agent.value)];
        if env.deleteAgent.Failed? {
          return;
        }
      }
      if vectorStore.Some? {
        if client.None? {
          return;
        }
        calls := calls + [DeleteStore(vectorStore.value)];
        if env.deleteStore.Failed? {
          return;
        }
      }
      if thread.Some? {
        if client.None? {
          return;
        }
        calls := calls + [DeleteThread(thread.value)];
        if env.deleteThread.Failed? {
          return;
        }
      }
      if client.Some? {
        calls := calls + [CloseClient];
        if env.closeClient.Failed? {
          return;
        }
      }
      if credential {
        calls := calls + [CloseCredential];
      }
    }

    /** `_process_message_async` for the user text `text`. */
    method ProcessMessage(text: string, env: TurnEnv) returns (result: Processed, calls: seq<Call>)
      ensures BatchProcessEffect(State(), text, env) == Turn(result, calls)
    {
      if client.None? {
        return Answer(ErrorResult(NoAttribute("create_message"))), [];
      }
      if thread.None? {
        return Answer(ErrorResult(NoAttribute("id"))), [];
      }
      result, calls := TakeTurn(Strict, "", thread.value, agent, text, env);
    }
  }
}
