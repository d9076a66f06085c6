/**
 * The knowledge-base support desktop client: the connection fields it
 * keeps, how connecting builds a vector store, an agent and a thread, how
 * disconnecting tears them down, how a user message is answered and how
 * the answer is routed to the chat.
 */
module Agent {
  import opened Wrappers
  import opened Text
  import Instructions
  import opened KnowledgeBase
  import opened Remote
  import opened Runs

  /** A snapshot of the client's connection fields. */
  datatype Fields = Fields(
    isConnected: bool,
    credential: bool,             // a credential object is held
    client: Option<string>,       // the service client, by the endpoint it was built for
    vectorStore: Option<string>,  // the vector store, by id
    agent: Option<string>,        // the agent, by id
    thread: Option<string>,       // the thread, by id
    uploadedFiles: seq<string>)

  /** The fields of a freshly constructed client. */
  const Initial: Fields := Fields(false, false, None, None, None, None, [])

  /** While connected, the client holds a credential, a service client, an agent and a thread. */
  predicate ConnectedHoldsResources(f: Fields)
  {
    f.isConnected ==> f.credential && f.client.Some? && f.agent.Some? && f.thread.Some?
  }

  /** An environment variable that is set to a non-empty value. */
  predicate IsSet(v: Option<string>)
  {
    v.Some? && v.value != ""
  }

  // ---------------------------------------------------------------- upload

  /** Progress of the per-file upload loop: the ids collected, the calls issued, and whether a step raised. */
  datatype UploadProgress = UploadProgress(ids: seq<string>, calls: seq<Call>, failed: bool)

  /**
   * What the file system and the service do for each file of the upload
   * loop: opening the local file, uploading it (the new file id, or the
   * error raised), and attaching a file id to the store.
   */
  datatype FileService = FileService(
    open: string -> Outcome,
    upload: string -> Attempt<string>,
    attach: string -> Outcome)

  /**
   * The upload loop over `paths`: each file is opened locally, uploaded and
   * then attached to the store; the first step that raises ends the loop.
   * A file that cannot be opened issues no remote call.
   */
  function UploadSteps(storeId: string, paths: seq<string>, svc: FileService): UploadProgress
  {
    if paths == [] then UploadProgress([], [], false)
    else
      var r := UploadSteps(storeId, paths[..|paths| - 1], svc);
      var p := paths[|paths| - 1];
      if r.failed then r
      else if svc.open(p).Failed? then UploadProgress(r.ids, r.calls, true)
      else match svc.upload(p)
        case Raised(_) => UploadProgress(r.ids, r.calls + [UploadFile(p)], true)
        case Done(id) =>
          var calls := r.calls + [UploadFile(p), AttachFile(storeId, id)];
          if svc.attach(id).Failed? then UploadProgress(r.ids, calls, true)
          else UploadProgress(r.ids + [id], calls, false)
  }

  /** What `upload_files_to_vector_store` returns: the collected ids, or `[]` once a step raised. */
  function UploadResult(storeId: string, paths: seq<string>, svc: FileService): seq<string>
  {
    var r := UploadSteps(storeId, paths, svc);
    if r.failed then [] else r.ids
  }

  /** Once a step has raised, later paths change nothing. */
  lemma {:induction false} UploadStaysFailed(storeId: string, paths: seq<string>, i: nat, svc: FileService)
    requires i <= |paths| && UploadSteps(storeId, paths[..i], svc).failed
    ensures UploadSteps(storeId, paths, svc) == UploadSteps(storeId, paths[..i], svc)
    decreases |paths| - i
  {
    if i < |paths| {
      var init := paths[..|paths| - 1];
      assert init[..i] == paths[..i];
      UploadStaysFailed(storeId, init, i, svc);
    } else {
      assert paths[..i] == paths;
    }
  }

  /** Every file opens, uploads and attaches. */
  predicate AllUploadsSucceed(paths: seq<string>, svc: FileService)
  {
    forall i :: 0 <= i < |paths| ==>
      svc.open(paths[i]).Ok? && svc.upload(paths[i]).Done? && svc.attach(svc.upload(paths[i]).value).Ok?
  }

  /**
   * The loop runs to the end exactly when every file opens, uploads and
   * attaches, and then it has collected one id per path, in path order.
   */
  lemma {:induction false} UploadSucceedsIff(storeId: string, paths: seq<string>, svc: FileService)
    ensures var r := UploadSteps(storeId, paths, svc);
            && (!r.failed <==> AllUploadsSucceed(paths, svc))
            && (!r.failed ==> |r.ids| == |paths| && forall i :: 0 <= i < |paths| ==> r.ids[i] == svc.upload(paths[i]).value)
  {
    if paths != [] {
      var init := paths[..|paths| - 1];
      UploadSucceedsIff(storeId, init, svc);
      assert forall i :: 0 <= i < |init| ==> init[i] == paths[i];
    }
  }

  /**
   * All or nothing: the result is either `[]` or one id per path, in path
   * order, each the id the upload of that path returned and attached.
   */
  lemma UploadAllOrNothing(storeId: string, paths: seq<string>, svc: FileService)
    ensures var ids := UploadResult(storeId, paths, svc);
            && (ids == [] || (|ids| == |paths| && forall i :: 0 <= i < |paths| ==>
                                svc.open(paths[i]).Ok? && svc.upload(paths[i]) == Done(ids[i]) && svc.attach(ids[i]).Ok?))
            && (AllUploadsSucceed(paths, svc) ==> |ids| == |paths|)
            && (!AllUploadsSucceed(paths, svc) ==> ids == [])
  {
    UploadSucceedsIff(storeId, paths, svc);
  }

  /**
   * When every file goes through, the loop issues exactly one upload and
   * one attach per path, in path order: `2 * |paths|` calls.
   */
  lemma {:induction false} UploadCallsWhenAllSucceed(storeId: string, paths: seq<string>, svc: FileService)
    requires AllUploadsSucceed(paths, svc)
    ensures var calls := UploadSteps(storeId, paths, svc).calls;
            && |calls| == 2 * |paths|
            && forall i :: 0 <= i < |paths| ==>
                 calls[2 * i] == UploadFile(paths[i]) && calls[2 * i + 1] == AttachFile(storeId, svc.upload(paths[i]).value)
  {
    if paths != [] {
      var init, p := paths[..|paths| - 1], paths[|paths| - 1];
      assert forall i :: 0 <= i < |init| ==> init[i] == paths[i];
      UploadCallsWhenAllSucceed(storeId, init, svc);
      UploadSucceedsIff(storeId, init, svc);
      var c0 := UploadSteps(storeId, init, svc).calls;
      var calls := UploadSteps(storeId, paths, svc).calls;
      assert calls == c0 + [UploadFile(p), AttachFile(storeId, svc.upload(p).value)];
      forall i | 0 <= i < |paths|
        ensures calls[2 * i] == UploadFile(paths[i]) && calls[2 * i + 1] == AttachFile(storeId, svc.upload(paths[i]).value)
      {
        if i < |init| {
          assert calls[2 * i] == c0[2 * i] && calls[2 * i + 1] == c0[2 * i + 1];
        }
      }
    }
  }

  /** The paths of the upload calls among `calls`, in call order. */
  function UploadedPaths(calls: seq<Call>): seq<string>
  {
    if calls == [] then []
    else
      var last := calls[|calls| - 1];
      UploadedPaths(calls[..|calls| - 1]) + (if last.UploadFile? then [last.path] else [])
  }

  lemma {:induction false} UploadedPathsConcat(a: seq<Call>, b: seq<Call>)
    ensures UploadedPaths(a + b) == UploadedPaths(a) + UploadedPaths(b)
    decreases |b|
  {
    if b == [] {
      assert a + b == a;
    } else {
      assert (a + b)[..|a + b| - 1] == a + b[..|b| - 1];
      UploadedPathsConcat(a, b[..|b| - 1]);
    }
  }

  /** One file's calls upload that file's path once. */
  lemma UploadedPathsOfOneFile(storeId: string, p: string, file: Attempt<string>)
    ensures UploadedPaths(if file.Raised? then [UploadFile(p)] else [UploadFile(p), AttachFile(storeId, file.value)]) == [p]
  {
    assert [UploadFile(p)][..0] == [];
    assert UploadedPaths([UploadFile(p)]) == [p];
    if file.Done? {
      var two := [UploadFile(p), AttachFile(storeId, file.value)];
      assert two[..1] == [UploadFile(p)];
      assert UploadedPaths(two) == UploadedPaths(two[..1]);
    }
  }

  /**
   * The files are uploaded in path order, each at most once, and the loop
   * never skips one: the uploaded paths are always a prefix of `paths`,
   * all of `paths` when no step raised.
   */
  lemma {:induction false} UploadFollowsPaths(storeId: string, paths: seq<string>, svc: FileService)
    ensures var r := UploadSteps(storeId, paths, svc);
            var u := UploadedPaths(r.calls);
            && |u| <= |paths| && u == paths[..|u|]
            && (!r.failed ==> u == paths)
  {
    if paths != [] {
      var init, p := paths[..|paths| - 1], paths[|paths| - 1];
      UploadFollowsPaths(storeId, init, svc);
      var r0 := UploadSteps(storeId, init, svc);
      var u0 := UploadedPaths(r0.calls);
      var calls := UploadSteps(storeId, paths, svc).calls;
      if r0.failed || svc.open(p).Failed? {
        assert calls == r0.calls;
        assert init[..|u0|] == paths[..|u0|];
      } else {
        var tail := if svc.upload(p).Raised? then [UploadFile(p)] else [UploadFile(p), AttachFile(storeId, svc.upload(p).value)];
        assert calls == r0.calls + tail;
        UploadedPathsConcat(r0.calls, tail);
        UploadedPathsOfOneFile(storeId, p, svc.upload(p));
        assert UploadedPaths(calls) == paths && paths[..|paths|] == paths;
      }
    }
  }

  /** Every upload-loop call is a knowledge-base call, issued before any agent or thread exists. */
  lemma {:induction false} UploadCallsAreStoreCalls(storeId: string, paths: seq<string>, svc: FileService)
    ensures KnowledgePhaseOnly(UploadSteps(storeId, paths, svc).calls)
  {
    if paths != [] {
      var init := paths[..|paths| - 1];
      var p := paths[|paths| - 1];
      UploadCallsAreStoreCalls(storeId, init, svc);
      var r := UploadSteps(storeId, init, svc);
      var calls := UploadSteps(storeId, paths, svc).calls;
      if r.failed || svc.open(p).Failed? {
        assert calls == r.calls;
      } else {
        var tail := if svc.upload(p).Raised? then [UploadFile(p)] else [UploadFile(p), AttachFile(storeId, svc.upload(p).value)];
        assert calls == r.calls + tail;
        forall i | 0 <= i < |calls| ensures Phase(Connecting, calls[i]) == 0 {
          if i < |r.calls| {
            assert calls[i] == r.calls[i];
          } else {
            assert calls[i] == tail[i - |r.calls|];
          }
        }
      }
    }
  }

  // ----------------------------------------------------------- vector store

  /** What the service and the file system do while the knowledge base is built. */
  datatype KnowledgeEnv = KnowledgeEnv(
    newStore: Attempt<string>,          // creating the vector store: its id, or the error raised
    folder: Folder,                     // the knowledge-base folder
    files: FileService)                 // opening, uploading and attaching each document

  /** The store returned, the uploaded-files field afterwards, and the calls issued. */
  datatype StoreBuild = StoreBuild(store: Option<string>, uploadedFiles: seq<string>, calls: seq<Call>)

  /**
   * `create_vector_store_with_files`: create the store, select the
   * documents of the folder, upload them, and record them as uploaded
   * only when the upload returned ids. The store is returned even when the
   * folder is missing, holds no document or the upload fails; `None` comes
   * back only when something raises outside the upload loop (no client,
   * store creation, listing the folder).
   */
  function BuildStore(hasClient: bool, path: string, previous: seq<string>, env: KnowledgeEnv): StoreBuild
  {
    if !hasClient then StoreBuild(None, previous, [])
    else
      var created := [CreateStore(StoreName)];
      match env.newStore
      case Raised(_) => StoreBuild(None, previous, created)
      case Done(id) =>
        match env.folder
        case Missing => StoreBuild(Some(id), previous, created)
        case Unlistable(_) => StoreBuild(None, previous, created)
        case Listed(names) =>
          var files := Selected(path, names);
          if files == [] then StoreBuild(Some(id), previous, created)
          else
            var ids := UploadResult(id, files, env.files);
            StoreBuild(Some(id), if ids != [] then files else previous,
                       created + UploadSteps(id, files, env.files).calls)
  }

  /**
   * The store comes back whenever it was created and the folder could be
   * examined; the uploaded-files field changes only when every selected
   * document was uploaded, and then holds exactly the selected paths.
   */
  lemma BuildStoreOutcome(path: string, previous: seq<string>, env: KnowledgeEnv)
    ensures var b := BuildStore(true, path, previous, env);
            && (b.store.Some? <==> env.newStore.Done? && !env.folder.Unlistable?)
            && (b.store.Some? ==> b.store.value == env.newStore.value)
            && (b.uploadedFiles != previous ==>
                  env.folder.Listed? && b.uploadedFiles == Selected(path, env.folder.names)
                  && AllUploadsSucceed(b.uploadedFiles, env.files))
            && (env.newStore.Done? && env.folder.Listed? && Selected(path, env.folder.names) != []
                && AllUploadsSucceed(Selected(path, env.folder.names), env.files)
                ==> b.uploadedFiles == Selected(path, env.folder.names))
            && b.calls[0] == CreateStore(StoreName)
  {
    if env.newStore.Done? && env.folder.Listed? {
      var files := Selected(path, env.folder.names);
      UploadAllOrNothing(env.newStore.value, files, env.files);
    }
  }

  // ---------------------------------------------------------------- connect

  /** What the environment and the service do during a connect. */
  datatype ConnectEnv = ConnectEnv(
    endpoint: Option<string>,          // the project endpoint variable
    model: Option<string>,             // the model deployment variable
    instructionsFile: Option<string>,  // the instructions file, `None` when it cannot be read
    knowledge: KnowledgeEnv,
    agentWithSearch: Attempt<string>,  // creating the agent with the file-search tool
    agentPlain: Attempt<string>,       // creating the agent without tools
    newThread: Attempt<string>)        // creating the thread

  /** How a connect ends. */
  datatype ConnectOutcome =
    | Connected
    | NotConfigured           // endpoint or model variable missing
    | NoVectorStore           // the store step returned `None`
    | ConnectFailed(error: string)

  datatype ConnectResult = ConnectResult(fields: Fields, calls: seq<Call>, outcome: ConnectOutcome)

  /** The knowledge-base step of a connect, for the client's current uploaded files. */
  function KnowledgeOf(f: Fields, env: ConnectEnv): StoreBuild
  {
    BuildStore(true, KnowledgeBasePath, f.uploadedFiles, env.knowledge)
  }

  /** The fields once credential and client exist and the knowledge-base step has run. */
  function WithKnowledge(f: Fields, endpoint: string, b: StoreBuild): Fields
  {
    f.(credential := true, client := Some(endpoint), vectorStore := b.store, uploadedFiles := b.uploadedFiles)
  }

  /** The last connect step: create the thread, and only then mark the client connected. */
  function OpenThread(f: Fields, calls: seq<Call>, newThread: Attempt<string>): ConnectResult
  {
    match newThread
    case Raised(e) => ConnectResult(f, calls + [CreateThread], ConnectFailed(e))
    case Done(t) => ConnectResult(f.(thread := Some(t), isConnected := true), calls + [CreateThread], Connected)
  }

  /**
   * The connect steps after the knowledge base, with the calls they issue:
   * stop without a store; create the agent with the file-search tool, or
   * without tools if that raises; then open the thread.
   */
  function AgentAndThread(f: Fields, model: string, instructions: string, env: ConnectEnv): ConnectResult
  {
    if f.vectorStore.None? then ConnectResult(f, [], NoVectorStore)
    else
      var withSearch := CreateAgent(model, instructions, [FileSearch([])]);
      match env.agentWithSearch
      case Done(a) => OpenThread(f.(agent := Some(a)), [withSearch], env.newThread)
      case Raised(_) =>
        var calls := [withSearch, CreateAgent(model, instructions, [])];
        match env.agentPlain
        case Raised(e) => ConnectResult(f, calls, ConnectFailed(e))
        case Done(a) => OpenThread(f.(agent := Some(a)), calls, env.newThread)
  }

  /**
   * `_connect_async`, given the text `read_instructions` returns: check
   * the configuration, build credential and client, build the knowledge
   * base, then create agent and thread.
   */
  function ConnectEffect(f: Fields, env: ConnectEnv, instructions: string): ConnectResult
  {
    if !IsSet(env.endpoint) || !IsSet(env.model) then ConnectResult(f, [], NotConfigured)
    else
      var b := KnowledgeOf(f, env);
      var r := AgentAndThread(WithKnowledge(f, env.endpoint.value, b), env.model.value, instructions, env);
      ConnectResult(r.fields, b.calls + r.calls, r.outcome)
  }

  /** A missing endpoint or model stops the connect before anything is created or called. */
  lemma ConnectNeedsConfiguration(f: Fields, env: ConnectEnv, instructions: string)
    requires !IsSet(env.endpoint) || !IsSet(env.model)
    ensures ConnectEffect(f, env, instructions) == ConnectResult(f, [], NotConfigured)
  {
  }

  /**
   * The agent steps: nothing without a store; otherwise the agent is
   * first requested with the file-search tool (attached to no vector
   * store), a tool-less agent only when that raises, and the thread last.
   */
  lemma AgentAndThreadCalls(f: Fields, model: string, instructions: string, env: ConnectEnv)
    ensures var r := AgentAndThread(f, model, instructions, env);
            && (forall i :: 0 <= i < |r.calls| ==> Phase(Connecting, r.calls[i]) >= 1)
            && InPhaseOrder(r.calls, Connecting)
            && (f.vectorStore.None? ==> r == ConnectResult(f, [], NoVectorStore))
            && (f.vectorStore.Some? ==> |r.calls| >= 1 && r.calls[0] == CreateAgent(model, instructions, [FileSearch([])]))
            && (f.vectorStore.Some? && env.agentWithSearch.Done? ==>
                  r.fields.agent == Some(env.agentWithSearch.value) && r.calls == [r.calls[0], CreateThread])
            && (f.vectorStore.Some? && env.agentWithSearch.Raised? ==>
                  |r.calls| >= 2 && r.calls[1] == CreateAgent(model, instructions, []))
  {
  }

  /**
   * The agent steps connect the client exactly when the store exists, an
   * agent and the thread are created; the thread is then the last call.
   * They change nothing but agent, thread and the flag, and the flag only
   * on success.
   */
  lemma AgentAndThreadConnects(f: Fields, model: string, instructions: string, env: ConnectEnv)
    ensures var r := AgentAndThread(f, model, instructions, env);
            && (r.outcome == Connected <==>
                  f.vectorStore.Some? && (env.agentWithSearch.Done? || env.agentPlain.Done?) && env.newThread.Done?)
            && (r.outcome == Connected ==>
                  r.fields.isConnected && r.fields.agent.Some? && r.fields.thread == Some(env.newThread.value)
                  && r.calls[|r.calls| - 1] == CreateThread)
            && (r.outcome != Connected ==> r.fields.isConnected == f.isConnected)
            && r.fields == f.(agent := r.fields.agent, thread := r.fields.thread, isConnected := r.fields.isConnected)
  {
  }

  /** The knowledge-base calls come first and create the store before anything else. */
  lemma {:induction false} KnowledgeCalls(hasClient: bool, path: string, previous: seq<string>, env: KnowledgeEnv)
    ensures var calls := BuildStore(hasClient, path, previous, env).calls;
            && KnowledgePhaseOnly(calls)
            && (hasClient ==> |calls| > 0 && calls[0] == CreateStore(StoreName))
  {
    if hasClient && env.newStore.Done? && env.folder.Listed? && Selected(path, env.folder.names) != [] {
      var files := Selected(path, env.folder.names);
      UploadCallsAreStoreCalls(env.newStore.value, files, env.files);
      var u := UploadSteps(env.newStore.value, files, env.files).calls;
      var calls := BuildStore(hasClient, path, previous, env).calls;
      assert calls == [CreateStore(StoreName)] + u;
      forall i | 0 < i < |calls| ensures Phase(Connecting, calls[i]) == 0 {
        assert calls[i] == u[i - 1];
      }
    }
  }

  /**
   * Store, then agent, then thread: the calls never go back to an earlier
   * phase, the first one creates the store, and a missing store stops the
   * connect before any agent or thread is created.
   */
  lemma ConnectCallOrder(f: Fields, env: ConnectEnv, instructions: string)
    ensures var r := ConnectEffect(f, env, instructions);
            && InPhaseOrder(r.calls, Connecting)
            && (IsSet(env.endpoint) && IsSet(env.model) ==> |r.calls| > 0 && r.calls[0] == CreateStore(StoreName))
            && (r.outcome == NoVectorStore ==> KnowledgePhaseOnly(r.calls) && r.fields.isConnected == f.isConnected)
  {
    if IsSet(env.endpoint) && IsSet(env.model) {
      var b := KnowledgeOf(f, env);
      var f1 := WithKnowledge(f, env.endpoint.value, b);
      var r := AgentAndThread(f1, env.model.value, instructions, env);
      KnowledgeCalls(true, KnowledgeBasePath, f.uploadedFiles, env.knowledge);
      AgentAndThreadCalls(f1, env.model.value, instructions, env);
      PhasesConcat(b.calls, r.calls, Connecting, 0);
      if r.outcome == NoVectorStore {
        assert b.calls + r.calls == b.calls;
      }
    }
  }

  /**
   * After the knowledge base, the agent is first requested with the
   * file-search tool and the instructions read from the file, and a
   * tool-less agent only when that raises.
   */
  lemma AgentToolFallback(f: Fields, env: ConnectEnv, instructions: string)
    requires IsSet(env.endpoint) && IsSet(env.model)
    requires KnowledgeOf(f, env).store.Some?
    ensures var r := ConnectEffect(f, env, instructions);
            var k := |KnowledgeOf(f, env).calls|;
            && |r.calls| > k
            && r.calls[k] == CreateAgent(env.model.value, instructions, [FileSearch([])])
            && (env.agentWithSearch.Done? ==> r.fields.agent == Some(env.agentWithSearch.value)
                                              && r.calls == r.calls[..k + 1] + [CreateThread])
            && (env.agentWithSearch.Raised? ==>
                  |r.calls| > k + 1 && r.calls[k + 1] == CreateAgent(env.model.value, instructions, []))
  {
    var b := KnowledgeOf(f, env);
    var f1 := WithKnowledge(f, env.endpoint.value, b);
    var r := AgentAndThread(f1, env.model.value, instructions, env);
    AgentAndThreadCalls(f1, env.model.value, instructions, env);
    assert ConnectEffect(f, env, instructions).calls == b.calls + r.calls;
  }

  /**
   * The client counts as connected exactly when the configuration is set
   * and the store, an agent and the thread were all created; the thread
   * is then the last call. Otherwise the flag keeps its old value.
   */
  lemma ConnectedOnlyWithThread(f: Fields, env: ConnectEnv, instructions: string)
    ensures var r := ConnectEffect(f, env, instructions);
            && (r.outcome == Connected <==>
                  IsSet(env.endpoint) && IsSet(env.model) && KnowledgeOf(f, env).store.Some?
                  && (env.agentWithSearch.Done? || env.agentPlain.Done?) && env.newThread.Done?)
            && (r.outcome == Connected ==>
                  r.fields.isConnected && r.fields.thread == Some(env.newThread.value)
                  && r.calls[|r.calls| - 1] == CreateThread && ConnectedHoldsResources(r.fields))
            && (r.outcome != Connected ==> r.fields.isConnected == f.isConnected)
  {
    if IsSet(env.endpoint) && IsSet(env.model) {
      var b := KnowledgeOf(f, env);
      var f1 := WithKnowledge(f, env.endpoint.value, b);
      AgentAndThreadConnects(f1, env.model.value, instructions, env);
    }
  }

  /** Connecting keeps the connected-holds-resources invariant. */
  lemma ConnectKeepsInvariant(f: Fields, env: ConnectEnv, instructions: string)
    requires ConnectedHoldsResources(f)
    ensures ConnectedHoldsResources(ConnectEffect(f, env, instructions).fields)
  {
    if IsSet(env.endpoint) && IsSet(env.model) {
      var b := KnowledgeOf(f, env);
      var f1 := WithKnowledge(f, env.endpoint.value, b);
      AgentAndThreadConnects(f1, env.model.value, instructions, env);
    }
  }

  // ------------------------------------------------------------- disconnect

  /** What the service does during teardown. */
  datatype TeardownEnv = TeardownEnv(
    deleteAgent: Outcome,
    deleteStore: Outcome,
    deleteThread: Outcome,
    closeClient: Outcome)

  /** Deleting the agent, when one is held. */
  function AgentDeletion(f: Fields): seq<Call>
  {
    if f.agent.Some? then [DeleteAgent(f.agent.value)] else []
  }

  /** Deleting the vector store, when one is held. */
  function StoreDeletion(f: Fields): seq<Call>
  {
    if f.vectorStore.Some? then [DeleteStore(f.vectorStore.value)] else []
  }

  /** Deleting the thread, when one is held. */
  function ThreadDeletion(f: Fields): seq<Call>
  {
    if f.thread.Some? then [DeleteThread(f.thread.value)] else []
  }

  /** Closing the client and then, if it closed and one is held, the credential. */
  function Closing(f: Fields, env: TeardownEnv): seq<Call>
  {
    [CloseClient] + (if env.closeClient.Ok? && f.credential then [CloseCredential] else [])
  }

  /**
   * `_disconnect_async`: nothing without a client; otherwise delete the
   * agent, the store (a failure here is caught and the teardown goes on),
   * the thread, then close the client and the credential. A failure of any
   * other step ends the teardown.
   */
  function Teardown(f: Fields, env: TeardownEnv): seq<Call>
  {
    if f.client.None? then []
    else if f.agent.Some? && env.deleteAgent.Failed? then AgentDeletion(f)
    else if f.thread.Some? && env.deleteThread.Failed? then AgentDeletion(f) + StoreDeletion(f) + ThreadDeletion(f)
    else AgentDeletion(f) + StoreDeletion(f) + ThreadDeletion(f) + Closing(f, env)
  }

  datatype DisconnectResult = DisconnectResult(fields: Fields, calls: seq<Call>)

  /**
   * `disconnect_agent`: nothing when not connected; otherwise the teardown,
   * after which the flag is cleared whatever happened. No other field is
   * cleared.
   */
  function DisconnectEffect(f: Fields, env: TeardownEnv): DisconnectResult
  {
    if !f.isConnected then DisconnectResult(f, [])
    else DisconnectResult(f.(isConnected := false), Teardown(f, env))
  }

  /** Disconnecting a client that is not connected changes nothing and calls nothing, so a second disconnect is a no-op. */
  lemma DisconnectIdempotent(f: Fields, env: TeardownEnv, env': TeardownEnv)
    ensures !f.isConnected ==> DisconnectEffect(f, env) == DisconnectResult(f, [])
    ensures var once := DisconnectEffect(f, env).fields;
            DisconnectEffect(once, env') == DisconnectResult(once, [])
  {
  }

  /** After a disconnect the flag is false and every other field is as it was. */
  lemma DisconnectClearsOnlyTheFlag(f: Fields, env: TeardownEnv)
    ensures DisconnectEffect(f, env).fields == f.(isConnected := false)
    ensures ConnectedHoldsResources(DisconnectEffect(f, env).fields)
  {
  }

  /** The three deletions come in order and before closing. */
  lemma DeletionsInOrder(f: Fields)
    ensures var d := AgentDeletion(f) + StoreDeletion(f) + ThreadDeletion(f);
            InPhaseOrder(d, TearingDown) && forall i :: 0 <= i < |d| ==> Phase(TearingDown, d[i]) <= 2
  {
    var a, s, t := AgentDeletion(f), StoreDeletion(f), ThreadDeletion(f);
    assert forall i :: 0 <= i < |a + s| ==> Phase(TearingDown, (a + s)[i]) <= 1;
    PhasesConcat(a, s, TearingDown, 1);
    PhasesConcat(a + s, t, TearingDown, 2);
  }

  /** Teardown order is agent, store, thread, client, credential. */
  lemma TeardownOrder(f: Fields, env: TeardownEnv)
    ensures InPhaseOrder(Teardown(f, env), TearingDown)
  {
    var d := AgentDeletion(f) + StoreDeletion(f) + ThreadDeletion(f);
    DeletionsInOrder(f);
    if f.client.Some? && !(f.agent.Some? && env.deleteAgent.Failed?) && !(f.thread.Some? && env.deleteThread.Failed?) {
      PhasesConcat(d, Closing(f, env), TearingDown, 3);
    }
  }

  /** A failed store delete is caught: the teardown goes on exactly as if it had succeeded. */
  lemma TeardownToleratesStoreFailure(f: Fields, env: TeardownEnv, e: string)
    ensures Teardown(f, env.(deleteStore := Failed(e))) == Teardown(f, env.(deleteStore := Ok))
  {
  }

  /**
   * A failed agent delete stops everything after it; a failed thread
   * delete leaves client and credential open; otherwise the thread held
   * is deleted and the client closed.
   */
  lemma TeardownStops(f: Fields, env: TeardownEnv)
    requires f.client.Some?
    ensures f.agent.Some? && env.deleteAgent.Failed? ==> Teardown(f, env) == [DeleteAgent(f.agent.value)]
    ensures f.thread.Some? && env.deleteThread.Failed? ==>
              CloseClient !in Teardown(f, env) && CloseCredential !in Teardown(f, env)
    ensures (f.agent.None? || env.deleteAgent.Ok?) && f.thread.Some? ==> DeleteThread(f.thread.value) in Teardown(f, env)
    ensures (f.agent.None? || env.deleteAgent.Ok?) && (f.thread.None? || env.deleteThread.Ok?) ==> CloseClient in Teardown(f, env)
  {
    var t := AgentDeletion(f) + StoreDeletion(f) + ThreadDeletion(f);
    assert CloseClient !in t && CloseCredential !in t;
    if f.thread.Some? && (f.agent.None? || env.deleteAgent.Ok?) {
      assert t[|t| - 1] == DeleteThread(f.thread.value);
    }
    if (f.agent.None? || env.deleteAgent.Ok?) && (f.thread.None? || env.deleteThread.Ok?) {
      assert Teardown(f, env)[|t|] == CloseClient;
    }
  }

  // ------------------------------------------------------------- messages

  /** The string returned when no assistant message carries text. */
  const NoReply: string := "Sem resposta"

  /** The sentinel the routing compares against. */
  const RoutedSentinel: string := "Erro: Sem resposta"

  /** What the chat shows for a processed message. */
  datatype Shown = AgentLine(text: string) | ErrorLine(text: string)

  /** The error line shown for a missing reply. */
  const NoReplyLine: string := "Sem resposta do agent"

  /** The routing as written: an agent line unless the result is empty or the string `"Erro: Sem resposta"`. */
  function RouteAsWritten(result: string): Shown
  {
    if result != "" && result != RoutedSentinel then AgentLine(result) else ErrorLine(NoReplyLine)
  }

  /** The routing compared against the no-reply string the processing actually returns. */
  function Route(result: string): Shown
  {
    if result != "" && result != NoReply then AgentLine(result) else ErrorLine(NoReplyLine)
  }

  /** One turn of the lenient client on the given thread and agent. */
  function ProcessEffect(f: Fields, text: string, env: TurnEnv): Turn
  {
    if f.client.None? then Turn(Answer(ErrorResult(NoAttribute("messages"))), [])
    else if f.thread.None? then Turn(Answer(ErrorResult(NoAttribute("id"))), [])
    else TurnEffect(Lenient, NoReply, f.thread.value, f.agent, text, env)
  }

  /**
   * As written, a completed run without any assistant text is shown as
   * the agent reply `"Sem resposta"`: the no-reply branch of the routing
   * is never taken for it.
   */
  lemma NoReplyShownAsAgentLine(f: Fields, text: string, env: TurnEnv, msgs: seq<Message>)
    requires f.client.Some? && f.thread.Some? && f.agent.Some?
    requires env.post.Ok? && env.newRun.Done? && env.listing == Done(msgs)
    requires Poll(env.newRun.value.status, env.refreshes).Settled?
    requires Poll(env.newRun.value.status, env.refreshes).status == Completed
    requires forall k :: 0 <= k < |msgs| ==> !Answers(Lenient, msgs[k])
    ensures ProcessEffect(f, text, env).result == Answer(NoReply)
    ensures RouteAsWritten(NoReply) == AgentLine("Sem resposta")
  {
    CompletedTurnReply(Lenient, NoReply, f.thread.value, f.agent.value, text, env, msgs);
  }

  /**
   * Corrected routing: for a completed run the chat shows the agent line
   * with the reply when an assistant message has text (other than the
   * no-reply string itself), and the no-reply error line when none has.
   */
  lemma RouteShowsReplyOrError(f: Fields, text: string, env: TurnEnv, msgs: seq<Message>)
    requires f.client.Some? && f.thread.Some? && f.agent.Some?
    requires env.post.Ok? && env.newRun.Done? && env.listing == Done(msgs)
    requires Poll(env.newRun.value.status, env.refreshes).Settled?
    requires Poll(env.newRun.value.status, env.refreshes).status == Completed
    ensures var t := ProcessEffect(f, text, env);
            && t.result.Answer?
            && ((forall k :: 0 <= k < |msgs| ==> !Answers(Lenient, msgs[k])) ==> Route(t.result.result) == ErrorLine(NoReplyLine))
            && (FirstReply(Lenient, msgs) != "" && FirstReply(Lenient, msgs) != NoReply ==>
                  Route(t.result.result) == AgentLine(FirstReply(Lenient, msgs)))
  {
    CompletedTurnReply(Lenient, NoReply, f.thread.value, f.agent.value, text, env, msgs);
  }

  // ---------------------------------------------------------------- session

  /**
   * The desktop client's connection state, updated in place by its
   * operations. Each operation also returns the remote calls it issued,
   * in order.
   */
  class Session {
    var isConnected: bool
    var credential: bool
    var client: Option<string>
    var vectorStore: Option<string>
    var agent: Option<string>
    var thread: Option<string>
    var uploadedFiles: seq<string>

    function State(): Fields
      reads this
    {
      Fields(isConnected, credential, client, vectorStore, agent, thread, uploadedFiles)
    }

    constructor ()
      ensures State() == Initial
    {
      isConnected := false;
      credential := false;
      client := None;
      vectorStore := None;
      agent := None;
      thread := None;
      uploadedFiles := [];
    }

    /** `upload_files_to_vector_store`: upload and attach each file in turn; `[]` once a step raises. */
    method UploadFilesToVectorStore(storeId: string, paths: seq<string>, svc: FileService)
      returns (ids: seq<string>, calls: seq<Call>)
      ensures ids == UploadResult(storeId, paths, svc)
      ensures calls == UploadSteps(storeId, paths, svc).calls
    {
      ids, calls := [], [];
      var i := 0;
      while i < |paths|
        invariant 0 <= i <= |paths|
        invariant UploadSteps(storeId, paths[..i], svc) == UploadProgress(ids, calls, false)
      {
        var p := paths[i];
        assert paths[..i + 1][..i] == paths[..i];
        if svc.open(p).Failed? {
          UploadStaysFailed(storeId, paths, i + 1, svc);
          return [], calls;
        }
        calls := calls + [UploadFile(p)];
        var file := svc.upload(p);
        if file.Raised? {
          UploadStaysFailed(storeId, paths, i + 1, svc);
          return [], calls;
        }
        calls := calls + [AttachFile(storeId, file.value)];
        if svc.attach(file.value).Failed? {
          UploadStaysFailed(storeId, paths, i + 1, svc);
          return [], calls;
        }
        ids := ids + [file.value];
        i := i + 1;
      }
      assert paths[..|paths|] == paths;
    }

    /** `create_vector_store_with_files` for the folder at `path`. */
    method CreateVectorStoreWithFiles(path: string, env: KnowledgeEnv) returns (store: Option<string>, calls: seq<Call>)
      modifies this
      ensures var b := BuildStore(old(client).Some?, path, old(uploadedFiles), env);
              && store == b.store && calls == b.calls
              && State() == old(State()).(uploadedFiles := b.uploadedFiles)
    {
      if client.None? {
        return None, [];
      }
      calls := [CreateStore(StoreName)];
      if env.newStore.Raised? {
        return None, calls;
      }
      var id := env.newStore.value;
      match env.folder {
        case Missing =>
          return Some(id), calls;
        case Unlistable(_) =>
          return None, calls;
        case Listed(names) =>
          var files := CollectFilesToUpload(path, names);
          if files == [] {
            return Some(id), calls;
          }
          var ids, uploadCalls := UploadFilesToVectorStore(id, files, env.files);
          if ids != [] {
            uploadedFiles := files;
          }
          return Some(id), calls + uploadCalls;
      }
    }

    /** `_connect_async`: the agent gets the instructions `read_instructions` returns. */
    method Connect(env: ConnectEnv) returns (outcome: ConnectOutcome, calls: seq<Call>)
      modifies this
      ensures var r := ConnectEffect(old(State()), env, Instructions.ReadInstructions(env.instructionsFile));
              State() == r.fields && calls == r.calls && outcome == r.outcome
    {
      var instructions := Instructions.ReadInstructions(env.instructionsFile);
      outcome, calls := ConnectWith(env, instructions);
    }

    /** `_connect_async` once the instructions text has been read. */
    method ConnectWith(env: ConnectEnv, instructions: string) returns (outcome: ConnectOutcome, calls: seq<Call>)
      modifies this
      ensures var r := ConnectEffect(old(State()), env, instructions);
              State() == r.fields && calls == r.calls && outcome == r.outcome
    {
      if !IsSet(env.endpoint) || !IsSet(env.model) {
        return NotConfigured, [];
      }
      credential := true;
      client := Some(env.endpoint.value);
      var storeCalls, agentCalls;
      vectorStore, storeCalls := CreateVectorStoreWithFiles(KnowledgeBasePath, env.knowledge);
      outcome, agentCalls := CreateAgentAndThread(env.model.value, instructions, env);
      calls := storeCalls + agentCalls;
    }

    /** The agent and thread steps of `_connect_async`, once the knowledge-base step has run. */
    method CreateAgentAndThread(model: string, instructions: string, env: ConnectEnv)
      returns (outcome: ConnectOutcome, calls: seq<Call>)
      modifies this
      ensures var r := AgentAndThread(old(State()), model, instructions, env);
              State() == r.fields && calls == r.calls && outcome == r.outcome
    {
      if vectorStore.None? {
        return NoVectorStore, [];
      }
      calls := [CreateAgent(model, instructions, [FileSearch([])])];
      if env.agentWithSearch.Done? {
        agent := Some(env.agentWithSearch.value);
      } else {
        calls := calls + [CreateAgent(model, instructions, [])];
        if env.agentPlain.Raised? {
          return ConnectFailed(env.agentPlain.error), calls;
        }
        agent := Some(env.agentPlain.value);
      }
      calls := calls + [CreateThread];
      if env.newThread.Raised? {
        return ConnectFailed(env.newThread.error), calls;
      }
      thread := Some(env.newThread.value);
      isConnected := true;
      outcome := Connected;
    }

    /** `disconnect_agent`: the guard, the teardown, and the `finally` that clears the flag. */
    method Disconnect(env: TeardownEnv) returns (calls: seq<Call>)
      modifies this
      ensures var r := DisconnectEffect(old(State()), env);
              State() == r.fields && calls == r.calls
    {
      if !isConnected {
        return [];
      }
      calls := TearDown(env);
      isConnected := false;
    }

    /** `_disconnect_async`: issue the teardown calls until one that is not caught fails. */
    method TearDown(env: TeardownEnv) returns (calls: seq<Call>)
      ensures calls == Teardown(State(), env)
    {
      calls := [];
      if client.None? {
        return;
      }
      if agent.Some? {
        calls := calls + [DeleteAgent(agent.value)];
        if env.deleteAgent.Failed? {
          return;
        }
      }
      if vectorStore.Some? {
        calls := calls + [DeleteStore(vectorStore.value)];
      }
      if thread.Some? {
        calls := calls + [DeleteThread(thread.value)];
        if env.deleteThread.Failed? {
          return;
        }
      }
      calls := calls + [CloseClient];
      if env.closeClient.Ok? && credential {
        calls := calls + [CloseCredential];
      }
    }

    /** `_process_message_async` for the user text `text`. */
    method ProcessMessage(text: string, env: TurnEnv) returns (result: Processed, calls: seq<Call>)
      ensures ProcessEffect(State(), text, env) == Turn(result, calls)
    {
      if client.None? {
        return Answer(ErrorResult(NoAttribute("messages"))), [];
      }
      if thread.None? {
        return Answer(ErrorResult(NoAttribute("id"))), [];
      }
      result, calls := TakeTurn(Lenient, NoReply, thread.value, agent, text, env);
    }
  }
}
