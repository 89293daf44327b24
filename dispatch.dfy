/** The poll loop of the assistant variant. Every poll retrieves the run's
    status: `completed` ends the loop, `requires_action` answers the whole
    batch of tool calls and submits the answers in one call, and any other
    status only waits. The presentation builder is a parameter, a function
    from `(topic, num_slides)` to the path it returns or to the fact that it
    raised; `PresentationBuilder` is that function for the deck of `Deck`. */
module Dispatch {
  import Deck

  /** One requested tool call, with its arguments already decoded from JSON. */
  datatype ToolCall = ToolCall(id: string, name: string, arguments: map<string, string>)

  /** One entry of `tool_outputs`. */
  datatype ToolOutput = ToolOutput(toolCallId: string, output: string)

  /** What one retrieval of the run reports: its status and, when the status
      is `requires_action`, the tool calls the run waits on. */
  datatype RunStatus = RunStatus(status: string, toolCalls: seq<ToolCall>)

  /** The exceptions that escape the loop: `ValueError` for a tool the loop
      does not know, `KeyError` for an argument the call lacks, and whatever
      the presentation builder itself raises. */
  datatype DispatchError = UnknownFunction(name: string) | MissingArgument(key: string) | BuilderFailed

  type Result<T> = Deck.Result<T, DispatchError>

  /** How a call of `create_presentations` ends: it returns the deck's path,
      or it raises (`pop(0)` on an empty title list, a failed remote call). */
  datatype Outcome = Returned(path: string) | Raised

  /** `create_presentations(topic, num_slides)`, seen from the loop. */
  type Builder = (string, string) -> Outcome

  const PresentationTool: string := "create_presentations"
  const TopicKey: string := "topic"
  const CountKey: string := "num_slides"
  const Completed: string := "completed"
  const RequiresAction: string := "requires_action"

  /** A call the loop can answer: the known tool, with both arguments, and a
      builder that returns for them. */
  predicate Handled(call: ToolCall, build: Builder) {
    && call.name == PresentationTool
    && TopicKey in call.arguments && CountKey in call.arguments
    && build(call.arguments[TopicKey], call.arguments[CountKey]).Returned?
  }

  /** The answer to one tool call, or the exception it raises. The name is
      checked first, then `topic` is read, then `num_slides`, and only then is
      the builder called. */
  function Answer(call: ToolCall, build: Builder): (r: Result<ToolOutput>)
    ensures r.Ok? <==> Handled(call, build)
    ensures call.name != PresentationTool ==> r == Deck.Err(UnknownFunction(call.name))
    ensures call.name == PresentationTool && TopicKey !in call.arguments ==> r == Deck.Err(MissingArgument(TopicKey))
    ensures call.name == PresentationTool && TopicKey in call.arguments && CountKey !in call.arguments
            ==> r == Deck.Err(MissingArgument(CountKey))
    ensures r.Ok? ==> r.value == ToolOutput(call.id, build(call.arguments[TopicKey], call.arguments[CountKey]).path)
    ensures (&& call.name == PresentationTool
             && TopicKey in call.arguments && CountKey in call.arguments
             && build(call.arguments[TopicKey], call.arguments[CountKey]).Raised?)
            ==> r == Deck.Err(BuilderFailed)
  {
    if call.name != PresentationTool then Deck.Err(UnknownFunction(call.name))
    else if TopicKey !in call.arguments then Deck.Err(MissingArgument(TopicKey))
    else if CountKey !in call.arguments then Deck.Err(MissingArgument(CountKey))
    else match build(call.arguments[TopicKey], call.arguments[CountKey])
      case Raised => Deck.Err(BuilderFailed)
      case Returned(path) => Deck.Ok(ToolOutput(call.id, path))
  }

  /** The `tool_outputs` list the walk over one batch builds, or the
      exception that stops the walk. */
  function ToolOutputs(calls: seq<ToolCall>, build: Builder): Result<seq<ToolOutput>> {
    if calls == [] then Deck.Ok([])
    else match Answer(calls[0], build)
      case Err(e) => Deck.Err(e)
      case Ok(out) =>
        match ToolOutputs(calls[1..], build)
        case Err(e) => Deck.Err(e)
        case Ok(outs) => Deck.Ok([out] + outs)
  }

  /** A batch is answered exactly when every call in it can be answered, and
      then with one entry per call, in call order, each carrying its call's id
      and the path built from that call's arguments. */
  lemma {:induction false} ToolOutputsSucceed(calls: seq<ToolCall>, build: Builder)
    ensures ToolOutputs(calls, build).Ok? <==> forall k :: 0 <= k < |calls| ==> Handled(calls[k], build)
    ensures ToolOutputs(calls, build).Ok? ==>
      var outs := ToolOutputs(calls, build).value;
      && |outs| == |calls|
      && forall k :: 0 <= k < |calls| ==>
           && outs[k].toolCallId == calls[k].id
           && outs[k].output == build(calls[k].arguments[TopicKey], calls[k].arguments[CountKey]).path
  {
    if calls != [] {
      ToolOutputsSucceed(calls[1..], build);
      assert forall k :: 1 <= k < |calls| ==> calls[k] == calls[1..][k - 1];
    }
  }

  /** A batch that cannot be answered fails with the exception of its first
      call that cannot be answered. */
  lemma {:induction false} ToolOutputsFirstFailure(calls: seq<ToolCall>, build: Builder, k: nat)
    requires k < |calls| && !Handled(calls[k], build)
    requires forall j :: 0 <= j < k ==> Handled(calls[j], build)
    ensures ToolOutputs(calls, build) == Deck.Err(Answer(calls[k], build).error)
  {
    if k > 0 {
      assert forall j :: 0 <= j < k - 1 ==> calls[1..][j] == calls[j + 1];
      ToolOutputsFirstFailure(calls[1..], build, k - 1);
    }
  }

  /** The walk over the tool calls of a `requires_action` status in
      `assistant-gpt.py`: answers the calls one by one, appending to
      `tool_outputs`, and raises at the first call it cannot answer. */
  method CollectToolOutputs(calls: seq<ToolCall>, build: Builder) returns (r: Result<seq<ToolOutput>>)
    ensures r == ToolOutputs(calls, build)
  {
    var toolOutputs: seq<ToolOutput> := [];
    var i := 0;
    while i < |calls|
      invariant 0 <= i <= |calls|
      invariant forall j :: 0 <= j < i ==> Handled(calls[j], build)
      invariant |toolOutputs| == i
      invariant forall j :: 0 <= j < i ==> Answer(calls[j], build) == Deck.Ok(toolOutputs[j])
    {
      var action := calls[i];
      var funcName := action.name;
      var arguments := action.arguments;
      if funcName == PresentationTool {
        if TopicKey !in arguments {
          ToolOutputsFirstFailure(calls, build, i);
          return Deck.Err(MissingArgument(TopicKey));
        }
        if CountKey !in arguments {
          ToolOutputsFirstFailure(calls, build, i);
          return Deck.Err(MissingArgument(CountKey));
        }
        var output := build(arguments[TopicKey], arguments[CountKey]);
        if output.Raised? {
          ToolOutputsFirstFailure(calls, build, i);
          return Deck.Err(BuilderFailed);
        }
        toolOutputs := toolOutputs + [ToolOutput(action.id, output.path)];
      } else {
        ToolOutputsFirstFailure(calls, build, i);
        return Deck.Err(UnknownFunction(funcName));
      }
      i := i + 1;
    }
    ToolOutputsSucceed(calls, build);
    var expected := ToolOutputs(calls, build).value;
    assert |expected| == |toolOutputs|;
    forall j | 0 <= j < |calls|
      ensures expected[j] == toolOutputs[j]
    {
      assert Answer(calls[j], build) == Deck.Ok(toolOutputs[j]);
    }
    assert expected == toolOutputs;
    r := Deck.Ok(toolOutputs);
  }

  /** Where the loop is: still polling, left by `break` on `completed`, or
      left by an exception raised while answering a batch. */
  datatype Phase = Polling | Finished | Aborted(error: DispatchError)

  /** The loop's observable state: its phase and the batches submitted so
      far, in submission order. */
  datatype LoopState = LoopState(phase: Phase, submitted: seq<seq<ToolOutput>>)

  const Start: LoopState := LoopState(Polling, [])

  /** One pass through the loop body for the status a poll returned. Once the
      loop has been left, nothing changes any more. */
  function Step(s: LoopState, poll: RunStatus, build: Builder): LoopState {
    if !s.phase.Polling? then s
    else if poll.status == Completed then s.(phase := Finished)
    else if poll.status == RequiresAction then
      match ToolOutputs(poll.toolCalls, build)
      case Err(e) => s.(phase := Aborted(e))
      case Ok(outs) => s.(submitted := s.submitted + [outs])
    else s
  }

  /** The loop run over a finite sequence of polled statuses. */
  function RunFrom(s: LoopState, polls: seq<RunStatus>, build: Builder): LoopState
    decreases polls
  {
    if polls == [] then s else RunFrom(Step(s, polls[0], build), polls[1..], build)
  }

  function Run(polls: seq<RunStatus>, build: Builder): LoopState {
    RunFrom(Start, polls, build)
  }

  /** A poll after which the loop goes on polling. */
  predicate Continues(poll: RunStatus, build: Builder) {
    poll.status != Completed && (poll.status == RequiresAction ==> ToolOutputs(poll.toolCalls, build).Ok?)
  }

  /** The number of `requires_action` statuses among the polls. */
  function ActionPolls(polls: seq<RunStatus>): nat {
    if polls == [] then 0
    else (if polls[0].status == RequiresAction then 1 else 0) + ActionPolls(polls[1..])
  }

  /** The batches the loop submits for a trace, in order: the tool outputs of
      each `requires_action` poll, up to the poll that ends the loop. */
  function Batches(polls: seq<RunStatus>, build: Builder): seq<seq<ToolOutput>> {
    if polls == [] || polls[0].status == Completed then []
    else if polls[0].status == RequiresAction then
      match ToolOutputs(polls[0].toolCalls, build)
      case Err(_) => []
      case Ok(outs) => [outs] + Batches(polls[1..], build)
    else Batches(polls[1..], build)
  }

  /** The statuses the loop acts on, in order; the others only make it wait. */
  function Significant(polls: seq<RunStatus>): seq<RunStatus> {
    if polls == [] then []
    else if polls[0].status == Completed || polls[0].status == RequiresAction then [polls[0]] + Significant(polls[1..])
    else Significant(polls[1..])
  }

  /** Running over two stretches of polls is running over one, then the other. */
  lemma {:induction false} RunFromAppend(s: LoopState, xs: seq<RunStatus>, ys: seq<RunStatus>, build: Builder)
    ensures RunFrom(s, xs + ys, build) == RunFrom(RunFrom(s, xs, build), ys, build)
    decreases xs
  {
    if xs == [] {
      assert xs + ys == ys;
    } else {
      assert (xs + ys)[1..] == xs[1..] + ys;
      RunFromAppend(Step(s, xs[0], build), xs[1..], ys, build);
    }
  }

  /** Once the loop is left, later statuses are never read. */
  lemma {:induction false} RunFromLeft(s: LoopState, polls: seq<RunStatus>, build: Builder)
    requires !s.phase.Polling?
    ensures RunFrom(s, polls, build) == s
    decreases polls
  {
    if polls != [] {
      RunFromLeft(s, polls[1..], build);
    }
  }

  /** Statuses other than `completed` and `requires_action` change nothing:
      dropping them from the trace gives the same outcome. */
  lemma {:induction false} WaitingChangesNothing(s: LoopState, polls: seq<RunStatus>, build: Builder)
    ensures RunFrom(s, polls, build) == RunFrom(s, Significant(polls), build)
    decreases polls
  {
    if polls != [] {
      WaitingChangesNothing(Step(s, polls[0], build), polls[1..], build);
      if polls[0].status == Completed || polls[0].status == RequiresAction {
        assert ([polls[0]] + Significant(polls[1..]))[1..] == Significant(polls[1..]);
      }
    }
  }

  /** The loop ends with `break` exactly when some poll says `completed` and
      every poll before it let the loop go on. */
  lemma FinishesOnlyOnCompleted(s: LoopState, polls: seq<RunStatus>, build: Builder)
    requires s.phase.Polling?
    ensures RunFrom(s, polls, build).phase.Finished? <==>
      exists k :: 0 <= k < |polls| && polls[k].status == Completed
        && forall j :: 0 <= j < k ==> Continues(polls[j], build)
  {
    if RunFrom(s, polls, build).phase.Finished? {
      FinishedHasCompleted(s, polls, build);
    }
    if exists k :: 0 <= k < |polls| && polls[k].status == Completed
        && forall j :: 0 <= j < k ==> Continues(polls[j], build) {
      var k :| 0 <= k < |polls| && polls[k].status == Completed
        && forall j :: 0 <= j < k ==> Continues(polls[j], build);
      CompletedFinishes(s, polls, build, k);
    }
  }

  lemma {:induction false} FinishedHasCompleted(s: LoopState, polls: seq<RunStatus>, build: Builder)
    requires s.phase.Polling? && RunFrom(s, polls, build).phase.Finished?
    ensures exists k :: (0 <= k < |polls| && polls[k].status == Completed
      && forall j :: 0 <= j < k ==> Continues(polls[j], build))
    decreases polls
  {
    var next := Step(s, polls[0], build);
    if next.phase.Polling? {
      FinishedHasCompleted(next, polls[1..], build);
      var k :| 0 <= k < |polls[1..]| && polls[1..][k].status == Completed
        && forall j :: 0 <= j < k ==> Continues(polls[1..][j], build);
      assert polls[k + 1].status == Completed;
      forall j | 0 <= j < k + 1 ensures Continues(polls[j], build) {
        if j > 0 { assert polls[j] == polls[1..][j - 1]; }
      }
    } else {
      RunFromLeft(next, polls[1..], build);
      assert polls[0].status == Completed;
    }
  }

  lemma {:induction false} CompletedFinishes(s: LoopState, polls: seq<RunStatus>, build: Builder, k: nat)
    requires s.phase.Polling? && k < |polls| && polls[k].status == Completed
    requires forall j :: 0 <= j < k ==> Continues(polls[j], build)
    ensures RunFrom(s, polls, build).phase.Finished?
    decreases polls
  {
    var next := Step(s, polls[0], build);
    if k == 0 {
      RunFromLeft(next, polls[1..], build);
    } else {
      assert Continues(polls[0], build);
      assert forall j :: 0 <= j < k - 1 ==> polls[1..][j] == polls[j + 1];
      CompletedFinishes(next, polls[1..], build, k - 1);
    }
  }

  /** An exception while answering a batch ends the loop at the first poll
      that does not let it go on, before that batch is submitted: the batches
      submitted are exactly those of the polls before it. */
  lemma {:induction false} AbortSubmitsNothing(s: LoopState, polls: seq<RunStatus>, build: Builder)
    requires s.phase.Polling?
    requires RunFrom(s, polls, build).phase.Aborted?
    ensures exists k :: (0 <= k < |polls|
      && (forall j :: 0 <= j < k ==> Continues(polls[j], build))
      && polls[k].status == RequiresAction
      && ToolOutputs(polls[k].toolCalls, build) == Deck.Err(RunFrom(s, polls, build).phase.error)
      && RunFrom(s, polls, build).submitted == RunFrom(s, polls[..k], build).submitted)
    decreases polls
  {
    var next := Step(s, polls[0], build);
    if next.phase.Polling? {
      AbortSubmitsNothing(next, polls[1..], build);
      var k :| 0 <= k < |polls[1..]|
        && (forall j :: 0 <= j < k ==> Continues(polls[1..][j], build))
        && polls[1..][k].status == RequiresAction
        && ToolOutputs(polls[1..][k].toolCalls, build) == Deck.Err(RunFrom(next, polls[1..], build).phase.error)
        && RunFrom(next, polls[1..], build).submitted == RunFrom(next, polls[1..][..k], build).submitted;
      assert polls[..k + 1][1..] == polls[1..][..k];
      assert polls[k + 1] == polls[1..][k];
      ContinuesBefore(polls, build, k);
    } else {
      RunFromLeft(next, polls[1..], build);
      assert polls[..0] == [];
    }
  }

  /** A poll that lets the loop go on, followed by `k` more such polls. */
  lemma ContinuesBefore(polls: seq<RunStatus>, build: Builder, k: nat)
    requires k < |polls| && Continues(polls[0], build)
    requires forall j :: 0 <= j < k ==> Continues(polls[1..][j], build)
    ensures forall j :: 0 <= j < k + 1 ==> Continues(polls[j], build)
  {
    forall j | 0 <= j < k + 1 ensures Continues(polls[j], build) {
      if j > 0 { assert polls[j] == polls[1..][j - 1]; }
    }
  }

  /** Whatever the trace, the loop submits exactly the batches of its
      `requires_action` polls before the one that ends it, each batch the tool
      outputs of its poll, and appends them to what was submitted before. */
  lemma {:induction false} SubmittedBatches(s: LoopState, polls: seq<RunStatus>, build: Builder)
    requires s.phase.Polling?
    ensures RunFrom(s, polls, build).submitted == s.submitted + Batches(polls, build)
    decreases polls
  {
    if polls == [] {
      assert s.submitted + [] == s.submitted;
    } else {
      var next := Step(s, polls[0], build);
      if next.phase.Polling? {
        SubmittedBatches(next, polls[1..], build);
        if polls[0].status == RequiresAction {
          var outs := ToolOutputs(polls[0].toolCalls, build).value;
          assert s.submitted + [outs] + Batches(polls[1..], build)
              == s.submitted + ([outs] + Batches(polls[1..], build));
        }
      } else {
        RunFromLeft(next, polls[1..], build);
        assert s.submitted + [] == s.submitted;
      }
    }
  }

  /** While the loop keeps polling, there is one batch per `requires_action`
      status. */
  lemma {:induction false} ActionBatches(polls: seq<RunStatus>, build: Builder)
    requires forall k :: 0 <= k < |polls| ==> Continues(polls[k], build)
    ensures |Batches(polls, build)| == ActionPolls(polls)
    decreases polls
  {
    if polls != [] {
      assert Continues(polls[0], build);
      ActionBatches(polls[1..], build);
    }
  }

  /** While the loop keeps polling, it has submitted exactly one batch per
      `requires_action` status, each the tool outputs of that status's calls,
      after the batches submitted before. */
  lemma {:induction false} OneSubmissionPerAction(s: LoopState, polls: seq<RunStatus>, build: Builder)
    requires s.phase.Polling?
    requires RunFrom(s, polls, build).phase.Polling?
    ensures RunFrom(s, polls, build).submitted == s.submitted + Batches(polls, build)
    ensures |RunFrom(s, polls, build).submitted| == |s.submitted| + ActionPolls(polls)
    decreases polls
  {
    SubmittedBatches(s, polls, build);
    StillPolling(s, polls, build);
    ActionBatches(polls, build);
  }

  /** A run that is still polling let every poll go on. */
  lemma {:induction false} StillPolling(s: LoopState, polls: seq<RunStatus>, build: Builder)
    requires s.phase.Polling?
    requires RunFrom(s, polls, build).phase.Polling?
    ensures forall k :: 0 <= k < |polls| ==> Continues(polls[k], build)
    decreases polls
  {
    if polls != [] {
      var next := Step(s, polls[0], build);
      if next.phase.Polling? {
        StillPolling(next, polls[1..], build);
        assert forall k :: 1 <= k < |polls| ==> polls[k] == polls[1..][k - 1];
      } else {
        RunFromLeft(next, polls[1..], build);
      }
    }
  }

  /** The builder the loop calls: `create_presentations` over given remote
      services, returning the planned deck's path or raising when it fails. */
  function PresentationBuilder(svc: Deck.Services): Builder {
    (topic: string, numSlides: string) =>
      var deck := Deck.PlannedDeck(svc, topic, numSlides);
      if deck.Ok? then Returned(deck.value.path) else Raised
  }

  /** The loop's call of `create_presentations` raises exactly when no slide
      titles come back, and otherwise answers with the deck's path. */
  lemma PresentationBuilderOutcome(svc: Deck.Services, topic: string, numSlides: string)
    ensures PresentationBuilder(svc)(topic, numSlides).Raised? <==> Deck.CreateSlideTitle(svc, topic, numSlides) == []
    ensures PresentationBuilder(svc)(topic, numSlides).Returned?
            ==> PresentationBuilder(svc)(topic, numSlides).path == "powerpoint-ppt/" + topic + ".pptx"
  {
    Deck.DeckShape(svc, topic, numSlides);
    if Deck.PlannedDeck(svc, topic, numSlides).Ok? {
      Deck.PathOfTopic(svc, topic, numSlides);
    }
  }

  /** The polling loop of `assistant-gpt.py` with its state in fields. */
  class Dispatcher {
    var phase: Phase
    var submitted: seq<seq<ToolOutput>>

    constructor ()
      ensures phase == Polling && submitted == []
    {
      phase := Polling;
      submitted := [];
    }

    function State(): LoopState
      reads this
    {
      LoopState(phase, submitted)
    }

    /** `submit_tool_outputs`: hands one whole batch back to the run. */
    method Submit(toolOutputs: seq<ToolOutput>)
      modifies this
      ensures submitted == old(submitted) + [toolOutputs] && phase == old(phase)
    {
      submitted := submitted + [toolOutputs];
    }

    /** One pass through the loop body for the status just retrieved. */
    method Poll(runStatus: RunStatus, build: Builder)
      requires phase.Polling?
      modifies this
      ensures State() == Step(old(State()), runStatus, build)
    {
      if runStatus.status == Completed {
        phase := Finished;
      } else if runStatus.status == RequiresAction {
        var r := CollectToolOutputs(runStatus.toolCalls, build);
        match r
        case Err(e) => phase := Aborted(e);
        case Ok(toolOutputs) => Submit(toolOutputs);
      }
    }
  }

  /** The loop driven by a finite sequence of retrieved statuses: it polls
      until the loop is left or the statuses run out, and reports how many it
      read. It stops right after the poll that ends it. */
  method PollLoop(polls: seq<RunStatus>, build: Builder) returns (final: LoopState, read: nat)
    ensures final == Run(polls, build)
    ensures read <= |polls|
    ensures final == Run(polls[..read], build)
    ensures final.phase.Polling? ==> read == |polls|
    ensures !final.phase.Polling? ==> 1 <= read && Run(polls[..read - 1], build).phase.Polling?
  {
    var d := new Dispatcher();
    read := 0;
    while read < |polls| && d.phase.Polling?
      invariant 0 <= read <= |polls|
      invariant d.State() == Run(polls[..read], build)
      invariant !d.phase.Polling? ==> 1 <= read && Run(polls[..read - 1], build).phase.Polling?
    {
      RunFromAppend(Start, polls[..read], [polls[read]], build);
      assert polls[..read + 1] == polls[..read] + [polls[read]];
      assert polls[..read + 1][..read] == polls[..read];
      d.Poll(polls[read], build);
      read := read + 1;
    }
    final := d.State();
    RunFromAppend(Start, polls[..read], polls[read..], build);
    assert polls[..read] + polls[read..] == polls;
    if !final.phase.Polling? {
      RunFromLeft(final, polls[read..], build);
    }
  }
}
