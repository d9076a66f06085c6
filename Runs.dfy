/**
 * Running the agent on a thread: waiting for the run to leave the pending
 * statuses, and extracting the reply text from the thread's messages.
 * Both desktop clients share this logic; they differ only in how a
 * message fragment is read and in what they return when no reply is found.
 */
module Runs {
  import opened Wrappers
  import opened Remote

  /** The statuses the poll loop keeps waiting on. */
  predicate IsPending(status: string)
  {
    status == "queued" || status == "in_progress"
  }

  /** The one status after which the messages are read. */
  const Completed: string := "completed"

  /** What the poll loop ends with. */
  datatype PollResult =
    | Settled(status: string, refreshes: nat)   // a non-pending status, seen after `refreshes` refreshes
    | PollRaised(error: string, refreshes: nat) // refresh number `refreshes` raised
    | StillPending                              // the supplied refreshes ran out while the run was pending

  /** The same result, `k` refreshes later. */
  function Later(r: PollResult, k: nat): PollResult
  {
    match r
    case Settled(s, n) => Settled(s, n + k)
    case PollRaised(e, n) => PollRaised(e, n + k)
    case StillPending => StillPending
  }

  /**
   * The poll loop: `status` is the run's first status and `refreshes[i]`
   * what the `i`-th refresh of the run returns (its status, or the error
   * it raised).
   */
  function Poll(status: string, refreshes: seq<Attempt<string>>): PollResult
    decreases |refreshes|
  {
    if !IsPending(status) then Settled(status, 0)
    else if refreshes == [] then StillPending
    else match refreshes[0]
      case Raised(e) => PollRaised(e, 1)
      case Done(s) => Later(Poll(s, refreshes[1..]), 1)
  }

  /** `while run.status in ['queued', 'in_progress']: run = get(...)`. */
  method PollRun(status: string, refreshes: seq<Attempt<string>>) returns (r: PollResult)
    ensures r == Poll(status, refreshes)
  {
    var current := status;
    var k := 0;
    while IsPending(current) && k < |refreshes| && refreshes[k].Done?
      invariant 0 <= k <= |refreshes|
      invariant Poll(status, refreshes) == Later(Poll(current, refreshes[k..]), k)
      decreases |refreshes| - k
    {
      assert refreshes[k..][1..] == refreshes[k + 1..];
      current := refreshes[k].value;
      k := k + 1;
    }
    if !IsPending(current) {
      r := Settled(current, k);
    } else if k == |refreshes| {
      r := StillPending;
    } else {
      r := PollRaised(refreshes[k].error, k + 1);
    }
  }

  /** The status the run reports after `n` successful refreshes. */
  function StatusAfter(status: string, refreshes: seq<Attempt<string>>, n: nat): string
    requires n <= |refreshes| && forall m :: 0 <= m < n ==> refreshes[m].Done?
  {
    if n == 0 then status else refreshes[n - 1].value
  }

  /**
   * The loop settles on the first status outside the pending pair: every
   * status before it was pending, every refresh before it succeeded, and
   * nothing after it is looked at.
   */
  lemma {:induction false} PollSettlesOnFirstNonPending(status: string, refreshes: seq<Attempt<string>>)
    requires Poll(status, refreshes).Settled?
    ensures var r := Poll(status, refreshes);
            && r.refreshes <= |refreshes|
            && (forall m :: 0 <= m < r.refreshes ==> refreshes[m].Done?)
            && r.status == StatusAfter(status, refreshes, r.refreshes)
            && !IsPending(r.status)
            && forall m :: 0 <= m < r.refreshes ==> IsPending(StatusAfter(status, refreshes, m))
    decreases |refreshes|
  {
    if IsPending(status) {
      var s := refreshes[0].value;
      var rest := refreshes[1..];
      PollSettlesOnFirstNonPending(s, rest);
      var n := Poll(s, rest).refreshes;
      forall m | 1 <= m <= n + 1 ensures StatusAfter(status, refreshes, m) == StatusAfter(s, rest, m - 1) {
        if m > 1 { assert refreshes[m - 1] == rest[m - 2]; }
      }
      assert forall m :: 1 <= m < n + 1 ==> refreshes[m] == rest[m - 1];
    }
  }

  /** A pending run whose refreshes all succeed and stay pending is still being waited on. */
  lemma {:induction false} PollWaitsWhilePending(status: string, refreshes: seq<Attempt<string>>)
    requires IsPending(status)
    requires forall m :: 0 <= m < |refreshes| ==> refreshes[m].Done? && IsPending(refreshes[m].value)
    ensures Poll(status, refreshes) == StillPending
    decreases |refreshes|
  {
    if refreshes != [] {
      PollWaitsWhilePending(refreshes[0].value, refreshes[1..]);
    }
  }

  /** The attributes `value` and `text` of a fragment's `text` object, where present. */
  datatype TextPart = TextPart(value: Option<string>, text: Option<string>)

  /** One item of a message's `content`: its `text` attribute and its bare `value` attribute, where present. */
  datatype Fragment = Fragment(text: Option<TextPart>, value: Option<string>)

  /** A thread message: its role and its content items. */
  datatype Message = Message(role: string, content: seq<Fragment>)

  /** How a client reads a fragment. */
  datatype Reading =
    | Lenient  // `text.value`, else `text.text`, else the bare `value` when there is no `text`
    | Strict   // `text.value` only

  /** The text one fragment contributes to the reply. */
  function FragmentText(how: Reading, f: Fragment): string
  {
    match how
    case Lenient =>
      if f.text.Some? then
        if f.text.value.value.Some? then f.text.value.value.value
        else if f.text.value.text.Some? then f.text.value.text.value
        else ""
      else if f.value.Some? then f.value.value
      else ""
    case Strict =>
      if f.text.Some? && f.text.value.value.Some? then f.text.value.value.value else ""
  }

  /** The text of a message: its fragments' texts concatenated in order. */
  function MessageText(how: Reading, content: seq<Fragment>): string
  {
    if content == [] then ""
    else MessageText(how, content[..|content| - 1]) + FragmentText(how, content[|content| - 1])
  }

  /** The message is an assistant message with some text. */
  predicate Answers(how: Reading, m: Message)
  {
    m.role == "assistant" && MessageText(how, m.content) != ""
  }

  /** The reply: the text of the first assistant message whose text is not empty, or `""`. */
  function FirstReply(how: Reading, msgs: seq<Message>): string
  {
    if msgs == [] then ""
    else if Answers(how, msgs[0]) then MessageText(how, msgs[0].content)
    else FirstReply(how, msgs[1..])
  }

  /**
   * The extraction loop: walks the messages in listing order, appends the
   * fragments of each assistant message, and stops at the first message
   * after which the accumulated text is not empty.
   */
  method ExtractReply(how: Reading, msgs: seq<Message>) returns (reply: string)
    ensures reply == FirstReply(how, msgs)
  {
    reply := "";
    var i := 0;
    while i < |msgs|
      invariant 0 <= i <= |msgs|
      invariant reply == ""
      invariant FirstReply(how, msgs) == FirstReply(how, msgs[i..])
    {
      assert msgs[i..][1..] == msgs[i + 1..];
      if msgs[i].role == "assistant" {
        var content := msgs[i].content;
        for j := 0 to |content|
          invariant reply == MessageText(how, content[..j])
        {
          assert content[..j + 1][..j] == content[..j];
          reply := reply + FragmentText(how, content[j]);
        }
        assert content[..|content|] == content;
        if reply != "" {
          break;
        }
      }
      i := i + 1;
    }
  }

  /** Fragments are read in order: the text of two runs of fragments is the two texts concatenated. */
  lemma {:induction false} MessageTextConcat(how: Reading, a: seq<Fragment>, b: seq<Fragment>)
    ensures MessageText(how, a + b) == MessageText(how, a) + MessageText(how, b)
    decreases |b|
  {
    if b == [] {
      assert a + b == a;
    } else {
      assert (a + b)[..|a + b| - 1] == a + b[..|b| - 1];
      MessageTextConcat(how, a, b[..|b| - 1]);
    }
  }

  /**
   * The lenient reading: `text.value` wins over `text.text`, a `text`
   * object with neither attribute gives nothing, and the bare `value` is
   * read only when there is no `text` attribute at all.
   */
  lemma LenientPrecedence(t: TextPart, v: Option<string>, w: Option<string>)
    ensures t.value.Some? ==> FragmentText(Lenient, Fragment(Some(t), v)) == t.value.value
    ensures t.value.None? && t.text.Some? ==> FragmentText(Lenient, Fragment(Some(t), v)) == t.text.value
    ensures t.value.None? && t.text.None? ==> FragmentText(Lenient, Fragment(Some(t), v)) == ""
    ensures FragmentText(Lenient, Fragment(Some(t), v)) == FragmentText(Lenient, Fragment(Some(t), w))
    ensures v.Some? ==> FragmentText(Lenient, Fragment(None, v)) == v.value
  {
  }

  /** Wherever the strict reading finds text, the lenient reading finds the same text. */
  lemma StrictAgreesWithLenient(f: Fragment)
    ensures FragmentText(Strict, f) == "" || FragmentText(Strict, f) == FragmentText(Lenient, f)
    ensures f.text.Some? && f.text.value.value.Some? ==> FragmentText(Strict, f) == FragmentText(Lenient, f)
  {
  }

  /** On messages made only of `text.value` fragments the two readings give the same text. */
  lemma {:induction false} ReadingsAgreeOnTextValues(content: seq<Fragment>)
    requires forall i :: 0 <= i < |content| ==> content[i].text.Some? && content[i].text.value.value.Some?
    ensures MessageText(Strict, content) == MessageText(Lenient, content)
  {
    if content != [] {
      ReadingsAgreeOnTextValues(content[..|content| - 1]);
    }
  }

  /**
   * The reply is empty exactly when no assistant message has text, and
   * otherwise it is the text of the first assistant message that has some.
   */
  lemma {:induction false} FirstReplyIsFirstAnswer(how: Reading, msgs: seq<Message>)
    ensures FirstReply(how, msgs) == "" <==> forall k :: 0 <= k < |msgs| ==> !Answers(how, msgs[k])
    ensures FirstReply(how, msgs) != "" ==>
              exists k :: 0 <= k < |msgs| && Answers(how, msgs[k])
                           && FirstReply(how, msgs) == MessageText(how, msgs[k].content)
                           && forall m :: 0 <= m < k ==> !Answers(how, msgs[m])
  {
    if msgs != [] && !Answers(how, msgs[0]) {
      var rest := msgs[1..];
      FirstReplyIsFirstAnswer(how, rest);
      assert forall k :: 1 <= k < |msgs| ==> msgs[k] == rest[k - 1];
      if FirstReply(how, rest) != "" {
        var k :| 0 <= k < |rest| && Answers(how, rest[k])
                 && FirstReply(how, rest) == MessageText(how, rest[k].content)
                 && forall m :: 0 <= m < k ==> !Answers(how, rest[m]);
        assert msgs[k + 1] == rest[k];
        assert forall m :: 1 <= m < k + 1 ==> msgs[m] == rest[m - 1];
      }
    }
  }

  /** Only assistant messages matter: removing any other message leaves the reply unchanged. */
  lemma {:induction false} OtherRolesIgnored(how: Reading, before: seq<Message>, m: Message, after: seq<Message>)
    requires m.role != "assistant"
    ensures FirstReply(how, before + [m] + after) == FirstReply(how, before + after)
    decreases |before|
  {
    if before == [] {
      assert (before + [m] + after)[1..] == after;
      assert before + after == after;
    } else {
      assert (before + [m] + after)[0] == before[0];
      assert (before + after)[0] == before[0];
      assert (before + [m] + after)[1..] == before[1..] + [m] + after;
      assert (before + after)[1..] == before[1..] + after;
      OtherRolesIgnored(how, before[1..], m, after);
    }
  }

  /** What a run of the agent comes to. */
  datatype Processed =
    | Answer(result: string)  // the string the processing coroutine returns
    | Waiting                 // the supplied refreshes ran out while the run was pending

  /** The string returned for an exception whose text is `error`. */
  function ErrorResult(error: string): string
  {
    "Erro: " + error
  }

  /** The string returned for a run that settled on a status other than `completed`. */
  function RunFailedResult(status: string): string
  {
    "Erro no run: " + status
  }

  /**
   * What the processing coroutine returns once the run has been polled:
   * the reply read from the listed messages (or `noReply` when there is
   * none) for a completed run, the run-failure string for any other
   * settled status, the error string when a refresh or the listing raises.
   */
  function AfterPoll(how: Reading, noReply: string, poll: PollResult, listing: Attempt<seq<Message>>): Processed
  {
    match poll
    case StillPending => Waiting
    case PollRaised(e, _) => Answer(ErrorResult(e))
    case Settled(s, _) =>
      if s != Completed then Answer(RunFailedResult(s))
      else match listing
        case Raised(e) => Answer(ErrorResult(e))
        case Done(msgs) =>
          var reply := FirstReply(how, msgs);
          Answer(if reply == "" then noReply else reply)
  }

  /** A settled run that did not complete always yields the run-failure string, never an error string. */
  lemma RunFailureIsReported(how: Reading, noReply: string, status: string, n: nat, listing: Attempt<seq<Message>>)
    requires !IsPending(status) && status != Completed
    ensures AfterPoll(how, noReply, Settled(status, n), listing) == Answer("Erro no run: " + status)
  {
  }

  /** A run object as the service returns it. */
  datatype Run = Run(id: string, status: string)

  /** The text of the `AttributeError` raised when an attribute is read from `None`. */
  function NoAttribute(name: string): string
  {
    "'NoneType' object has no attribute '" + name + "'"
  }

  /**
   * What the service does during one turn: whether posting the user
   * message raises, what creating the run returns, what each refresh of
   * the run returns, and what listing the thread's messages returns.
   */
  datatype TurnEnv = TurnEnv(
    post: Outcome,
    newRun: Attempt<Run>,
    refreshes: seq<Attempt<string>>,
    listing: Attempt<seq<Message>>)

  /** The outcome of one turn and the calls it issued. */
  datatype Turn = Turn(result: Processed, calls: seq<Call>)

  /** How many refreshes the poll loop issued. */
  function RefreshCount(p: PollResult, available: nat): nat
  {
    match p
    case Settled(_, n) => n
    case PollRaised(_, n) => n
    case StillPending => available
  }

  /** `n` refreshes of the run `runId` on thread `threadId`. */
  function Refreshes(threadId: string, runId: string, n: nat): seq<Call>
  {
    seq(n, _ => GetRun(threadId, runId))
  }

  /**
   * One turn on thread `threadId` with the agent `agent` (`None` when the
   * client holds no agent): post the user message, create a run, poll it,
   * and for a completed run list the messages and extract the reply.
   */
  function TurnEffect(how: Reading, noReply: string, threadId: string, agent: Option<string>,
                      text: string, env: TurnEnv): Turn
  {
    var posted := [PostMessage(threadId, text)];
    if env.post.Failed? then Turn(Answer(ErrorResult(env.post.error)), posted)
    else if agent.None? then Turn(Answer(ErrorResult(NoAttribute("id"))), posted)
    else
      var started := posted + [CreateRun(threadId, agent.value)];
      match env.newRun
      case Raised(e) => Turn(Answer(ErrorResult(e)), started)
      case Done(run) =>
        var p := Poll(run.status, env.refreshes);
        var polled := started + Refreshes(threadId, run.id, RefreshCount(p, |env.refreshes|));
        var listed := if p.Settled? && p.status == Completed then polled + [ListMessages(threadId)] else polled;
        Turn(AfterPoll(how, noReply, p, env.listing), listed)
  }

  /** The body of the processing coroutine once its fields have been read. */
  method TakeTurn(how: Reading, noReply: string, threadId: string, agent: Option<string>,
                  text: string, env: TurnEnv) returns (result: Processed, calls: seq<Call>)
    ensures Turn(result, calls) == TurnEffect(how, noReply, threadId, agent, text, env)
  {
    calls := [PostMessage(threadId, text)];
    if env.post.Failed? {
      return Answer(ErrorResult(env.post.error)), calls;
    }
    if agent.None? {
      return Answer(ErrorResult(NoAttribute("id"))), calls;
    }
    calls := calls + [CreateRun(threadId, agent.value)];
    if env.newRun.Raised? {
      return Answer(ErrorResult(env.newRun.error)), calls;
    }
    var run := env.newRun.value;
    var p := PollRun(run.status, env.refreshes);
    calls := calls + Refreshes(threadId, run.id, RefreshCount(p, |env.refreshes|));
    match p {
      case StillPending =>
        result := Waiting;
      case PollRaised(e, _) =>
        result := Answer(ErrorResult(e));
      case Settled(status, _) =>
        if status == Completed {
          calls := calls + [ListMessages(threadId)];
          if env.listing.Raised? {
            result := Answer(ErrorResult(env.listing.error));
          } else {
            var reply := ExtractReply(how, env.listing.value);
            result := Answer(if reply == "" then noReply else reply);
          }
        } else {
          result := Answer(RunFailedResult(status));
        }
    }
  }

  /**
   * The calls of a turn: the user message first, then the run, then one
   * refresh per poll, and the message listing last and only for a
   * completed run.
   */
  lemma TurnCallOrder(how: Reading, noReply: string, threadId: string, agent: Option<string>,
                      text: string, env: TurnEnv)
    ensures var t := TurnEffect(how, noReply, threadId, agent, text, env);
            && |t.calls| >= 1 && t.calls[0] == PostMessage(threadId, text)
            && (env.post.Ok? && agent.Some? ==> |t.calls| >= 2 && t.calls[1] == CreateRun(threadId, agent.value))
            && (ListMessages(threadId) in t.calls <==>
                  env.post.Ok? && agent.Some? && env.newRun.Done?
                  && Poll(env.newRun.value.status, env.refreshes).Settled?
                  && Poll(env.newRun.value.status, env.refreshes).status == Completed)
  {
    var t := TurnEffect(how, noReply, threadId, agent, text, env);
    if env.post.Ok? && agent.Some? && env.newRun.Done? {
      var run := env.newRun.value;
      var p := Poll(run.status, env.refreshes);
      var rs := Refreshes(threadId, run.id, RefreshCount(p, |env.refreshes|));
      var started := [PostMessage(threadId, text), CreateRun(threadId, agent.value)];
      assert [PostMessage(threadId, text)] + [CreateRun(threadId, agent.value)] == started;
      assert ListMessages(threadId) !in started + rs by {
        forall i | 0 <= i < |started + rs| ensures (started + rs)[i] != ListMessages(threadId) {
          if i >= 2 { assert (started + rs)[i] == rs[i - 2]; }
        }
      }
      if p.Settled? && p.status == Completed {
        assert t.calls[|t.calls| - 1] == ListMessages(threadId);
      }
    }
  }

  /** A completed run yields the extracted reply, or `noReply` when no assistant message has text. */
  lemma CompletedTurnReply(how: Reading, noReply: string, threadId: string, agentId: string,
                           text: string, env: TurnEnv, msgs: seq<Message>)
    requires env.post.Ok? && env.newRun.Done? && env.listing == Done(msgs)
    requires Poll(env.newRun.value.status, env.refreshes).Settled?
    requires Poll(env.newRun.value.status, env.refreshes).status == Completed
    ensures var t := TurnEffect(how, noReply, threadId, Some(agentId), text, env);
            && (t.result == Answer(noReply) <==> FirstReply(how, msgs) == "" || FirstReply(how, msgs) == noReply)
            && ((forall k :: 0 <= k < |msgs| ==> !Answers(how, msgs[k])) ==> t.result == Answer(noReply))
            && (FirstReply(how, msgs) != "" ==> t.result == Answer(FirstReply(how, msgs)))
  {
    FirstReplyIsFirstAnswer(how, msgs);
  }
}
