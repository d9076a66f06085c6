# IT-support classification agent: a Dafny model

The repository holds two desktop chat clients for an IT-support agent hosted
on an agent service, and a demonstration script that classifies support
tickets.

- `agent.py` is the main client.
  - Connecting reads the system instructions, creates a vector store named
    `knowledge-base-support-ti`, and uploads the documents of
    `./knowledge_base` one by one.
  - It then creates an agent with a file-search tool, falling back to an
    agent without tools, and opens a thread.
  - Each user message is posted to the thread and a run is started. The
    client polls the run while it is `queued` or `in_progress`, and for a
    completed run it reads the reply from the assistant messages.
  - Disconnecting deletes agent, store and thread and closes client and
    credential.
- `utils/codes/agent-vector-store.py` is the second client.
  - It uploads the knowledge base in one batch and attaches the store to
    the agent's file-search tool.
  - Failures propagate instead of being caught step by step.
  - It reads a reply only from text parts that carry a `value`.
- `utils/codes/agent-test-cases.py` classifies a query as REDE, HARDWARE,
  SEGURANÇA, SOFTWARE or OUTROS by trying four keyword lists in order.

The model is split into these modules:

- `Wrappers`: `Option`, `Attempt` (a value or the error raised) and `Outcome`.
- `Text`: the parts of Python's `str` the code uses: `strip`, `lower`,
  `endswith` and `in`.
- `Classification`: the keyword classifier and its instructions loader.
- `TestCases`: the six demonstration queries of the script, each classified.
- `Instructions`: `read_instructions`, which both clients share.
- `KnowledgeBase`: choosing the documents of the folder.
- `Remote`: the remote calls, and the order in which the clients issue them.
- `Runs`: the poll loop and reply extraction that both clients share.
- `Agent`: the main client.
- `VectorStoreAgent`: the batch client.

Each client is a `Session` class whose fields are the ones the Python object
updates in place. Every method returns the remote calls it issued, in order.
Every method is proved equal to a specification function over a `Fields`
snapshot, and the lemmas state the properties of those functions.

The service, the file system and the environment variables are inputs:

- each remote call's answer is an `Attempt` or an `Outcome`;
- a folder is missing, unlistable or a listing of names;
- a run's status comes from a finite sequence of refreshes.

Where the code and its documentation disagree, the model follows the code:

- The reply is the text of the first assistant message whose text is not
  empty, not just the first assistant message.
- The teardown of `agent.py` stops at a failed agent or thread deletion. Only
  the store deletion has its own `try`.

## Model

| member | source | states |
|---|---|---|
| Text.TrimStart | agent.py:144 | the result is the longest suffix of the input that does not start with white space, and all that it drops is white space |
| Text.TrimEnd | agent.py:144 | the result is the longest prefix that does not end with white space, and all that it drops is white space |
| Text.Strip | agent.py:144 | `str.strip()`: trim white space from the start, then from the end; Text.StripSlice, Text.StripBorders, Text.StripIdempotent and Text.StripEmptyIffBlank state what it keeps and drops |
| Text.StripSlice | agent.py:144 | `strip()` keeps one contiguous slice of the input and drops only white space on both sides |
| Text.StripBorders | agent.py:144 | a stripped text is empty, or it neither starts nor ends with white space |
| Text.StripIdempotent | agent.py:144 | stripping twice is the same as stripping once |
| Text.StripEmptyIffBlank | agent.py:144-146 | the stripped content is empty exactly when the file consists of white space only; this is the case that raises "O arquivo está vazio" |
| Text.LowerChar | utils/codes/agent-test-cases.py:32 | one character of `str.lower()`: ASCII and Latin-1 capitals map to their small letters, every other character is kept (the limit is under "## Left out") |
| Text.Lower | utils/codes/agent-test-cases.py:32 | `query.lower()`, character by character; Text.LowerIdempotent and Text.LowerConcat state its properties |
| Text.LowerIdempotent | utils/codes/agent-test-cases.py:32 | lower-casing twice is the same as lower-casing once |
| Text.LowerConcat | utils/codes/agent-test-cases.py:32 | lower-casing works character by character, so it distributes over concatenation |
| Text.Contains | utils/codes/agent-test-cases.py:33 | `word in text`, by trying each start index from left to right; Text.ContainsIffOccurs proves it is exactly "occurs at some index" |
| Text.ContainsIffOccurs | utils/codes/agent-test-cases.py:33 | the substring test `word in text` holds exactly when the word occurs at some position of the text |
| Text.ContainsExtend | utils/codes/agent-test-cases.py:33 | a substring stays a substring when text is added before or after |
| Text.ContainsTransitive | utils/codes/agent-test-cases.py:33 | a substring of a substring is a substring |
| Text.AbsentFromUnwords | utils/codes/agent-test-cases.py:33 | a space-free word that occurs in no word of a sentence does not occur in the space-joined sentence |
| Classification.Keywords | utils/codes/agent-test-cases.py:33-39 | the four keyword lists of the script, in its order, and none for OUTROS; Classification.KeywordsAreWords states each keyword is one word |
| Classification.Label | utils/codes/agent-test-cases.py:34-42 | the string `classify_query` returns for each category; Classification.LabelInjective and the test-case lemmas state it |
| Classification.LabelInjective | utils/codes/agent-test-cases.py:34-42 | two categories return the same string exactly when they are the same category, so the returned string names the category |
| Classification.AnyIn | utils/codes/agent-test-cases.py:33-39 | `any(word in text ...)` holds exactly when some word of the list occurs in the text |
| Classification.ClassifyIsFirstHit | utils/codes/agent-test-cases.py:30-42 | a category other than OUTROS is chosen exactly when its list hits the lower-cased query and no list tried before it does |
| Classification.OutrosIffNoKeyword | utils/codes/agent-test-cases.py:30-42 | OUTROS is returned exactly when no keyword of any of the four lists occurs in the lower-cased query |
| Classification.CaseInsensitive | utils/codes/agent-test-cases.py:32 | classifying a lower-cased query gives the same category as classifying the query itself |
| Classification.HitsExtend | utils/codes/agent-test-cases.py:33-39 | a keyword hit survives any text added before or after the query |
| Classification.HitBoundsCategory | utils/codes/agent-test-cases.py:33-42 | a query that hits the list of a category is never classified into a category tried later; a network hit always gives REDE |
| Classification.MoreTextNeverLowersPriority | utils/codes/agent-test-cases.py:30-42 | adding text before or after a query can only move it to a category tried earlier, or keep it where it was |
| Classification.HitSurvivesMoreText | utils/codes/agent-test-cases.py:33-42 | a query that hits a category's list stays at that category or an earlier one whatever text is added before or after it |
| Classification.KeywordBoundsCategory | utils/codes/agent-test-cases.py:33-42 | one keyword of a category in the lower-cased query bounds the result by that category |
| Classification.KeywordsAreWords | utils/codes/agent-test-cases.py:33-39 | every keyword is a single non-empty word with no space |
| Classification.MissesFromSpec | utils/codes/agent-test-cases.py:33-39 | checking the keywords from index `j` one by one agrees with "no keyword from `j` on occurs" |
| Classification.NoHitInWords | utils/codes/agent-test-cases.py:33-39 | a list hits no sentence in which none of its keywords occurs in any single word |
| Classification.SubstringNotWholeWord | utils/codes/agent-test-cases.py:37 | keywords match as substrings, so a query containing "contatos" hits the security keyword "conta" and is SEGURANÇA or a category tried earlier |
| Classification.AcessarIsNotAcesso | utils/codes/agent-test-cases.py:111 | the VPN test query's word "acessar" does not contain "acesso", it hits no security keyword, and "vpn" is in no keyword list |
| Classification.ClassifyQuery | utils/codes/agent-test-cases.py:30-42 | the classifier: the lower-cased query goes to the first of REDE, HARDWARE, SEGURANÇA, SOFTWARE whose keyword list it hits, otherwise to OUTROS; its properties are Classification.ClassifyIsFirstHit and Classification.OutrosIffNoKeyword |
| Classification.WordsMissCategory | utils/codes/agent-test-cases.py:33-39 | a sentence none of whose words meets a keyword of a category is not a hit for that category |
| TestCases.WifiQueryLowered | utils/codes/agent-test-cases.py:107 | the first test query lower-cases to "não consigo conectar na wifi" |
| TestCases.WifiQueryHitsRede | utils/codes/agent-test-cases.py:33 | the lower-cased first test query contains the network keyword "wifi" |
| TestCases.WifiQueryIsRede | utils/codes/agent-test-cases.py:107 | "Não consigo conectar na wifi" is classified REDE, and the script returns "REDE" for it |
| TestCases.PowerQueryLowered | utils/codes/agent-test-cases.py:108 | the second test query lower-cases to "meu computador não liga" |
| TestCases.PowerQueryWords | utils/codes/agent-test-cases.py:108 | the lower-cased second test query is the words "meu", "computador", "não", "liga" joined by spaces |
| TestCases.PowerWordsMissRede | utils/codes/agent-test-cases.py:33 | none of those four words contains a network keyword |
| TestCases.PowerQueryMissesRede | utils/codes/agent-test-cases.py:33 | the lower-cased second test query hits no network keyword |
| TestCases.PowerQueryHitsHardware | utils/codes/agent-test-cases.py:35 | the lower-cased second test query contains the hardware keyword "liga" |
| TestCases.PowerQueryIsHardware | utils/codes/agent-test-cases.py:108 | "Meu computador não liga" misses every network keyword and is classified HARDWARE; the script returns "HARDWARE" |
| TestCases.PasswordQueryMissesRede | utils/codes/agent-test-cases.py:109 | no word of the lower-cased third test query contains a network keyword |
| TestCases.PasswordQueryMissesHardware | utils/codes/agent-test-cases.py:109 | no word of it contains a hardware keyword |
| TestCases.PasswordQueryIsSeguranca | utils/codes/agent-test-cases.py:109 | "Esqueci minha senha de email" misses the network and hardware lists, contains "senha", and is classified SEGURANÇA; the script returns "SEGURANÇA" |
| TestCases.WordQueryMissesSeguranca | utils/codes/agent-test-cases.py:110 | no word of the lower-cased fourth test query contains a security keyword; the network and hardware lists are missed the same way |
| TestCases.WordQueryIsSoftware | utils/codes/agent-test-cases.py:110 | "O software Word não está abrindo" misses the first three lists, contains "word", and is classified SOFTWARE; the script returns "SOFTWARE" |
| TestCases.VpnQueryMissesSoftware | utils/codes/agent-test-cases.py:111 | no word of the lower-cased fifth test query contains a software keyword: "problema" is not "programa" |
| TestCases.VpnQueryIsOutros | utils/codes/agent-test-cases.py:111 | "Estou com problema para acessar a VPN" misses all four lists and is classified OUTROS; the script returns "OUTROS" |
| TestCases.MonitorQueryIsOutros | utils/codes/agent-test-cases.py:112 | "Meu monitor está piscando" misses all four lists and is classified OUTROS; the script returns "OUTROS" |
| Classification.ReadInstructionsFromFile | utils/codes/agent-test-cases.py:16-27 | the result is never empty; it is the stripped file content, or the one-line default ending in "[FIM]." when the file cannot be read or is blank |
| Instructions.ContentOrDefault | agent.py:142-151 | a readable, non-blank file gives its stripped content, with no white space at either end; otherwise the fallback is returned |
| Instructions.ReadInstructions | agent.py:140-175 | the instructions are never empty; they are the stripped file content, or the default block when the file cannot be read or is blank |
| Instructions.DefaultIsNotEmpty | agent.py:151-175 | the default instruction block is not empty |
| KnowledgeBase.CollectFilesToUpload | agent.py:221-227 | the loop queues exactly the joined paths of the listed names with a document extension, in listing order |
| KnowledgeBase.Join | agent.py:226 | `os.path.join(knowledge_base_path, file_name)` on POSIX: one `/` between folder and name unless the folder already ends in one, and an absolute name replaces the folder; KnowledgeBase.JoinExample states it |
| KnowledgeBase.HasDocumentExtension | agent.py:225 | the test `file_name.endswith(('.json', '.txt', '.md', '.pdf'))`; its behaviour is pinned by KnowledgeBase.SelectedSingle and KnowledgeBase.ExtensionExamples |
| KnowledgeBase.Selected | agent.py:224-227 | the joined paths of the listed names that have a document extension, in listing order; the specification of KnowledgeBase.CollectFilesToUpload, whose properties KnowledgeBase.SelectedMembers, KnowledgeBase.SelectedConcat and KnowledgeBase.SelectedAllIffAllDocuments state |
| KnowledgeBase.SelectedMembers | agent.py:224-227 | a path is queued exactly when it is the joined path of some listed name with a document extension |
| KnowledgeBase.SelectedConcat | utils/codes/agent-vector-store.py:171-175 | selection keeps listing order: the selection from a split listing is the two selections concatenated |
| KnowledgeBase.SelectedSingle | utils/codes/agent-vector-store.py:172-174 | a single name is queued exactly when it has a document extension |
| KnowledgeBase.SelectedEmptyIffNoDocument | utils/codes/agent-vector-store.py:177-188 | nothing is queued exactly when no listed name has a document extension |
| KnowledgeBase.SelectedAllIffAllDocuments | utils/codes/agent-vector-store.py:171-175 | at most one path is queued per name, and every name is queued exactly when every name has a document extension |
| KnowledgeBase.ExtensionExamples | utils/codes/agent-vector-store.py:172 | the extension test looks only at the end of the name: "faq.md" and "notes.json" are queued, "image.png" and "a.pdf.bak" are not |
| KnowledgeBase.JoinExample | utils/codes/agent-vector-store.py:173 | a name is joined to the folder path with one separator |
| Remote.PhasesConcat | agent.py:381-403 | two call sequences that are each in step order, one up to a step and the other from it, stay in order when concatenated |
| Runs.PollRun | agent.py:459-464 | the poll loop ends as the poll function says: settled on a status, raised at a refresh, or still pending when the refreshes run out |
| Runs.Poll | agent.py:459-464 | the poll loop as a function of the first status and the refreshes: settled, raised or still pending; its properties are Runs.PollSettlesOnFirstNonPending and Runs.PollWaitsWhilePending |
| Runs.PollSettlesOnFirstNonPending | agent.py:459-464 | a settled poll stops at the first status outside `queued`/`in_progress`; every earlier status was pending and every earlier refresh succeeded |
| Runs.PollWaitsWhilePending | agent.py:459-464 | a run that stays pending through every refresh is still being waited on |
| Runs.ExtractReply | agent.py:479-492 | the extraction loop returns the text of the first assistant message whose text is not empty, or "" |
| Runs.FragmentText | agent.py:482-490 | the text one content item adds: the lenient reading takes `text.value`, else `text.text`, else a bare `value` only without `text`; the strict reading of utils/codes/agent-vector-store.py:408-410 takes `text.value` only. Runs.LenientPrecedence and Runs.StrictAgreesWithLenient state them |
| Runs.MessageText | agent.py:482-490 | the texts of a message's content items appended in order; Runs.MessageTextConcat states it |
| Runs.FirstReply | agent.py:479-494 | the text of the first assistant message with text under the given reading, or ""; the specification of Runs.ExtractReply, whose properties Runs.FirstReplyIsFirstAnswer and Runs.OtherRolesIgnored state |
| Runs.MessageTextConcat | agent.py:482-490 | fragments are read in order, so the text of two runs of fragments is the two texts concatenated |
| Runs.LenientPrecedence | agent.py:483-490 | `text.value` wins over `text.text`; a `text` object with neither gives nothing; the bare `value` is read only when there is no `text` attribute |
| Runs.StrictAgreesWithLenient | utils/codes/agent-vector-store.py:408-410 | wherever the strict reading finds text, the lenient reading finds the same text |
| Runs.ReadingsAgreeOnTextValues | utils/codes/agent-vector-store.py:405-413 | on messages made only of `text.value` fragments, the two clients read the same text |
| Runs.FirstReplyIsFirstAnswer | agent.py:479-494 | the reply is empty exactly when no assistant message has text; otherwise it is the text of the first assistant message that has some |
| Runs.OtherRolesIgnored | agent.py:480 | adding a message that is not from the assistant never changes the reply |
| Runs.RunFailureIsReported | agent.py:495-496 | a settled run with a status other than `completed` yields "Erro no run: " followed by the status |
| Runs.AfterPoll | agent.py:466-496 | what the processing returns once polling has ended: for a completed run the first reply or the no-reply string, for any other settled status "Erro no run: " and the status, and the error text when a refresh or the listing raises; Runs.RunFailureIsReported and Runs.CompletedTurnReply state it |
| Runs.TakeTurn | agent.py:442-499 | one turn gives exactly the result and calls of the turn specification: post, run, one refresh per poll, and for a completed run the listing and the extracted reply or the no-reply string; any error raised gives "Erro: " followed by its text |
| Runs.TurnEffect | agent.py:442-499 | one turn as a function of the service answers: its result and the calls in order; its properties are Runs.TurnCallOrder, Runs.CompletedTurnReply and Runs.RunFailureIsReported |
| Runs.TurnCallOrder | agent.py:445-475 | the user message is posted first, then the run is created, and the messages are listed exactly when posting and run creation succeeded and the run completed |
| Runs.CompletedTurnReply | agent.py:466-494 | a completed run yields the first reply, or the no-reply string when no assistant message has text |
| Agent.Session.constructor | agent.py:20-26 | a new client is not connected, holds no credential, client, store, agent or thread, and has uploaded no files |
| Agent.UploadSteps | agent.py:180-207 | the upload loop over the paths: the ids and the calls so far, and whether a step has raised; open failure issues no call, a failed upload one, a failed attach two. The Agent.Upload* lemmas state its properties |
| Agent.UploadResult | agent.py:177-207 | what `upload_files_to_vector_store` returns: the ids when no step raised, `[]` otherwise; Agent.UploadSucceedsIff and Agent.UploadAllOrNothing state it |
| Agent.UploadStaysFailed | agent.py:180-207 | once an open, upload or attach step raises, later paths change nothing |
| Agent.UploadSucceedsIff | agent.py:182-203 | the loop runs to the end exactly when every file uploads and attaches, and then it holds one id per path, in order |
| Agent.UploadAllOrNothing | agent.py:177-207 | the result is either `[]` or one id per path, in path order, each uploaded and attached; it is `[]` exactly when some step fails |
| Agent.UploadCallsAreStoreCalls | agent.py:182-200 | every upload-loop call belongs to the knowledge-base step |
| Agent.UploadCallsWhenAllSucceed | agent.py:182-203 | when every file opens, uploads and attaches, the calls are exactly upload of the i-th path followed by attach of its id, for each path in order: two calls per path |
| Agent.UploadFollowsPaths | agent.py:182-207 | the uploaded paths are always a prefix of the paths, in order and none skipped, and all of them when the loop runs to the end |
| Agent.UploadedPathsOfOneFile | agent.py:187-198 | the calls for one file upload that file's path exactly once |
| Agent.Session.UploadFilesToVectorStore | agent.py:177-207 | the method returns exactly the ids and calls of the upload specification: a file that cannot be opened ends the loop with no call for it, a failed upload after one upload call, a failed attach after the upload and attach calls |
| Agent.BuildStoreOutcome | agent.py:209-253 | a store comes back exactly when it was created and the folder could be examined; the uploaded-files field changes only when every selected file was uploaded, and then holds exactly the selected paths |
| Agent.BuildStore | agent.py:209-253 | the knowledge-base step as a function of the answers: the store, the calls and the new uploaded-files field; its properties are Agent.BuildStoreOutcome and Agent.KnowledgeCalls |
| Agent.Session.CreateVectorStoreWithFiles | agent.py:209-253 | the method returns the store and calls of the specification and changes only the uploaded-files field |
| Agent.ConnectEffect | agent.py:277-343 | the whole connect as a function of the fields, the answers and the instructions; its properties are Agent.ConnectNeedsConfiguration, Agent.ConnectCallOrder, Agent.ConnectedOnlyWithThread and Agent.ConnectKeepsInvariant |
| Agent.Session.Connect | agent.py:277-343 | the method reads the instructions and then has exactly the fields, calls and outcome of Agent.ConnectEffect |
| Agent.Session.ConnectWith | agent.py:283-335 | once the instructions are read, the method has exactly the fields, calls and outcome of Agent.ConnectEffect |
| Agent.Session.CreateAgentAndThread | agent.py:310-335 | the method has exactly the fields, calls and outcome of the agent-and-thread specification whose properties Agent.AgentAndThreadCalls and Agent.AgentAndThreadConnects state |
| Agent.ConnectNeedsConfiguration | agent.py:283-289 | a missing endpoint or model ends the connect with no call and no change |
| Agent.AgentAndThread | agent.py:310-335 | the agent and thread steps: stop without a store, request the agent with the file-search tool, without tools when that raises, then create the thread and set the flag; Agent.AgentAndThreadCalls, Agent.AgentAndThreadConnects and Agent.AgentToolFallback state it |
| Agent.AgentAndThreadCalls | agent.py:310-332 | the agent is first requested with a file-search tool attached to no vector store, and without tools only when that raises; the thread is created last |
| Agent.AgentAndThreadConnects | agent.py:310-335 | the agent steps connect exactly when a store exists, an agent was created and a thread was created; they change only agent, thread and the flag |
| Agent.KnowledgeCalls | agent.py:209-249 | the knowledge-base calls start with creating the store and contain no agent or thread call |
| Agent.ConnectCallOrder | agent.py:277-335 | the connect calls go store, then agent, then thread, never backwards; a missing store stops before any agent call |
| Agent.AgentToolFallback | agent.py:311-327 | after the knowledge-base calls, the agent is requested with the file-search tool and the instructions read, and a tool-less agent only when that raises |
| Agent.ConnectedOnlyWithThread | agent.py:277-343 | the client is connected exactly when configuration, store, an agent and the thread all succeed; otherwise the flag keeps its old value |
| Agent.ConnectKeepsInvariant | agent.py:277-343 | connecting preserves "connected implies credential, client, agent and thread are held" |
| Agent.DisconnectIdempotent | agent.py:364-366 | disconnecting a client that is not connected does nothing, so a second disconnect does nothing |
| Agent.DisconnectClearsOnlyTheFlag | agent.py:371-379 | after a disconnect the flag is false and every other field is unchanged |
| Agent.DisconnectEffect | agent.py:364-379 | the disconnect as a function of the fields and the answers; its properties are Agent.DisconnectIdempotent and Agent.DisconnectClearsOnlyTheFlag |
| Agent.Session.Disconnect | agent.py:364-379 | the method has exactly the fields and calls of Agent.DisconnectEffect |
| Agent.DeletionsInOrder | agent.py:384-398 | agent, store and thread are deleted in that order, before closing |
| Agent.TeardownOrder | agent.py:381-406 | the teardown calls go agent, store, thread, client, credential, never backwards |
| Agent.TeardownToleratesStoreFailure | agent.py:389-394 | a failed store deletion is caught and the teardown goes on as if it had succeeded |
| Agent.TeardownStops | agent.py:384-406 | a failed agent deletion ends the teardown; a failed thread deletion leaves client and credential open; otherwise the thread is deleted and the client closed |
| Agent.Teardown | agent.py:381-406 | the teardown calls as a function of the fields and the answers; its properties are Agent.DeletionsInOrder, Agent.TeardownOrder, Agent.TeardownToleratesStoreFailure and Agent.TeardownStops |
| Agent.Session.TearDown | agent.py:381-406 | the method issues exactly the teardown calls of the specification |
| Agent.NoReplyShownAsAgentLine | agent.py:432 | as written, a completed run with no assistant text gives "Sem resposta", which the routing shows as an agent reply |
| Agent.RouteShowsReplyOrError | agent.py:426-440 | with the corrected routing, a completed run without assistant text shows the no-reply error line, and a real reply shows as an agent line |
| Agent.RouteAsWritten | agent.py:432-438 | the routing as written, comparing against "Erro: Sem resposta"; Agent.NoReplyShownAsAgentLine states what it does with the no-reply string |
| Agent.Route | agent.py:432-438 | the corrected routing, comparing against the no-reply string the processing returns; Agent.RouteShowsReplyOrError states its behaviour |
| Agent.ProcessEffect | agent.py:442-499 | one turn of the main client: the attribute error for a missing client, then for a missing thread, otherwise the lenient turn with "Sem resposta" as the no-reply string; Agent.NoReplyShownAsAgentLine and Agent.RouteShowsReplyOrError state what is shown |
| Agent.Session.ProcessMessage | agent.py:442-499 | the method's result and calls are those of the lenient turn, including the errors for a missing client or thread |
| VectorStoreAgent.Session.constructor | utils/codes/agent-vector-store.py:20-26 | a new client is not connected, holds no credential, client, store, agent or thread, and has uploaded no files |
| VectorStoreAgent.BuildStoreOutcome | utils/codes/agent-vector-store.py:156-191 | a store comes back exactly when it was created, the folder lists a document and the batch upload succeeded; the uploaded files are then the selected paths, sent in one call |
| VectorStoreAgent.BuildBatchStore | utils/codes/agent-vector-store.py:156-191 | the batch knowledge-base step as a function of the answers; its properties are VectorStoreAgent.BuildStoreOutcome and VectorStoreAgent.EmptyFolderGivesNoStore |
| VectorStoreAgent.EmptyFolderGivesNoStore | utils/codes/agent-vector-store.py:186-191 | `None` comes back exactly for a created store with a missing folder or one without documents, and then only the store creation was called |
| VectorStoreAgent.Session.CreateVectorStoreWithFiles | utils/codes/agent-vector-store.py:156-191 | the method returns the result and calls of the batch specification and changes only the uploaded-files field |
| VectorStoreAgent.ConnectNeedsConfiguration | utils/codes/agent-vector-store.py:224-228 | a missing endpoint or model ends the connect with no call, no change and the not-configured outcome |
| VectorStoreAgent.BatchConnectEffect | utils/codes/agent-vector-store.py:217-278 | the whole batch connect as a function of the fields, the answers and the instructions; its properties are VectorStoreAgent.ConnectNeedsConfiguration, VectorStoreAgent.ConnectCallOrder, VectorStoreAgent.ConnectedOnlyWithFilledStore and VectorStoreAgent.ConnectKeepsInvariant |
| VectorStoreAgent.Session.Connect | utils/codes/agent-vector-store.py:217-278 | the method reads the instructions and then has exactly the fields, calls and outcome of VectorStoreAgent.BatchConnectEffect |
| VectorStoreAgent.AgentOverStore | utils/codes/agent-vector-store.py:249-269 | the agent created with the file-search tool over the filled store, then the thread and the flag; a raise at either step stops there. VectorStoreAgent.ConnectCallOrder and VectorStoreAgent.ConnectedOnlyWithFilledStore state it |
| VectorStoreAgent.Session.ConnectWith | utils/codes/agent-vector-store.py:224-269 | once the instructions are read, the method has exactly the fields, calls and outcome of VectorStoreAgent.BatchConnectEffect |
| VectorStoreAgent.Session.CreateAgentOverStore | utils/codes/agent-vector-store.py:249-269 | the method has exactly the fields, calls and outcome of the agent-over-store specification, whose agent carries the file-search tool over the given store |
| VectorStoreAgent.ConnectCallOrder | utils/codes/agent-vector-store.py:217-269 | the connect calls go store, then agent, then thread; the agent's only file-search store is the store just filled |
| VectorStoreAgent.ConnectedOnlyWithFilledStore | utils/codes/agent-vector-store.py:217-278 | the client is connected exactly when the store was created and filled in one batch and agent and thread were created; it then holds that store and the uploaded paths |
| VectorStoreAgent.ConnectKeepsInvariant | utils/codes/agent-vector-store.py:217-278 | connecting preserves "connected implies credential, client, agent and thread are held" |
| VectorStoreAgent.DisconnectRepeatsTeardown | utils/codes/agent-vector-store.py:299-315 | `disconnect_agent` has no guard on the flag, so a second call issues the same teardown calls again, including the agent deletion; only a direct call reaches this, because `toggle_connection` (lines 193-197) and `on_closing` (line 427) disconnect only while connected |
| VectorStoreAgent.BatchDisconnectEffect | utils/codes/agent-vector-store.py:299-315 | the batch disconnect as a function of the fields and the answers: the teardown calls whatever the flag, then the flag cleared |
| VectorStoreAgent.Session.Disconnect | utils/codes/agent-vector-store.py:299-315 | the method has exactly the fields and calls of VectorStoreAgent.BatchDisconnectEffect |
| VectorStoreAgent.TeardownOrder | utils/codes/agent-vector-store.py:317-339 | the teardown calls go agent, store, thread, client, credential, never backwards |
| VectorStoreAgent.TeardownStopsAtFirstFailure | utils/codes/agent-vector-store.py:317-339 | the first failed step ends the teardown, including a failed store deletion; with a resource held and no client nothing is issued; the client is closed exactly when every deletion succeeded |
| VectorStoreAgent.BatchTeardown | utils/codes/agent-vector-store.py:317-339 | the fail-fast teardown calls as a function of the fields and the answers; its properties are VectorStoreAgent.TeardownOrder and VectorStoreAgent.TeardownStopsAtFirstFailure |
| VectorStoreAgent.EmptyKnowledgeBaseOrphansStore | utils/codes/agent-vector-store.py:162-191 | a connect that finds no document creates a store it does not keep, so no later teardown deletes it |
| VectorStoreAgent.RouteShowsReplyOrError | utils/codes/agent-vector-store.py:359-420 | a completed run shows the no-reply error line exactly when no assistant message has a text value, and otherwise the first such message's text |
| VectorStoreAgent.BatchProcessEffect | utils/codes/agent-vector-store.py:377-420 | one batch turn: the missing-client and missing-thread errors, otherwise the strict turn with "" as the no-reply result; VectorStoreAgent.RouteShowsReplyOrError states what the chat then shows |
| VectorStoreAgent.Route | utils/codes/agent-vector-store.py:359-375 | the batch routing: any non-empty result is an agent line, "" the no-reply error line |
| VectorStoreAgent.Session.TearDown | utils/codes/agent-vector-store.py:317-339 | the method issues exactly the fail-fast teardown calls of the specification |
| VectorStoreAgent.Session.ProcessMessage | utils/codes/agent-vector-store.py:377-420 | the method's result and calls are those of the strict turn, including the errors for a missing client or thread |

## Left out

- The Tk user interface, the worker threads and event loops, `print`,
  `time.sleep` and the agent name built from `time.time()` are not modelled.
  Neither are the exception handlers of the connect and process threads,
  which only report to the UI.
- Every answer of the service is an input of the model: client and
  credential construction are taken never to raise, and error texts are
  abstract strings.
- The upload and attach answers depend only on the path and the file id
  (`upload` and `attach` are functions), so a repeated path gets the same
  answer.
- The paging loop that gathers the messages of `agent.py` (lines 472-476) is
  a single listing input: the messages arrive as one sequence.
- Runs.PollRun: the source waits without bound. The model is given a finite
  sequence of refreshes and reports `StillPending` when they run out.
- KnowledgeBase.Join: only the POSIX `os.path.join` is modelled: one `/`
  between folder and name, and an absolute name replaces the folder.
  Windows separators and drive letters are not.
- Text.LowerChar: lower-casing covers ASCII and the Latin-1 capitals only,
  not all of Unicode.
- The rest of `main` in `agent-test-cases.py` creates and deletes an agent
  version and prints. It is not part of this model, apart from its
  instructions loader and the classifier.
- The `explore-*.py`, `test-*.py` context scripts are not part of this model.

## Findings

| source | as written | input that shows it | evidently intended | confidence | as-written member | corrected member |
|---|---|---|---|---|---|---|
| agent.py:432 | the routing treats a result as an agent reply unless it is empty or equal to "Erro: Sem resposta", but the processing returns "Sem resposta" when no assistant message has text (line 494) | a completed run whose thread has no assistant message with text: the chat shows "Sem resposta" as the agent's reply instead of the error line "Sem resposta do agent" | compare against the no-reply string the processing returns, so a missing reply reaches the error branch | not executed | Agent.NoReplyShownAsAgentLine | Agent.RouteShowsReplyOrError |
