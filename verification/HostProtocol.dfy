/** The extension host's side of its pipe protocol with the daemon: strict sequence numbers, one export
    served at a time, and capability calls that the guest makes while an export is being served. */
module HostProtocol {
  import opened Wrappers
  import opened CallBudget

  const HOST_PROTOCOL_VERSION: nat := 1
  const U64: nat := 0x1_0000_0000_0000_0000

  /** A JSON document, of which only the encoded length matters here. */
  datatype Value = Value(text: string)

  function ErrorObject(code: string): Value { Value("{\"error\":{\"code\":\"" + code + "\"}}") }

  datatype Body =
    | Bootstrap
    | Ready
    | InvokeExport(requestId: string, contextId: string, exportName: string)
    | CancelCall(requestId: string)
    | CapabilityCall(callId: string, contextId: string, leaseId: string, capability: string, input: Value)
    | CapabilityResult(callId: string, result: Option<Value>, error: Option<string>)
    | CapabilityCancelled(callId: string)
    | ExportResult(requestId: string, result: Option<Value>, error: Option<string>)
    | RevokeLease(leaseId: string)
    | Shutdown
    | HostFault(code: string)

  /** Which daemon process, host instance and lifecycle a message belongs to. */
  datatype Identity = Identity(daemonEpoch: string, instanceId: string, generation: nat)

  datatype HostMessage = HostMessage(version: nat, identity: Identity, sequence: nat, body: Body)

  /** What one read from the pipe yields: a decoded message or a frame that does not decode. */
  datatype Frame = Message(message: HostMessage) | Malformed

  datatype WitError = ResourceExhausted | Internal

  /** One capability call by the guest. `delay` is the time since the previous one and `writable`
      whether the frame can be written to the pipe. */
  datatype GuestCall = GuestCall(capability: string, input: Value, delay: nat, writable: bool)

  /** The whole behaviour of a guest during one export: its calls, its result, and whether the reply
      can be written. `prepared` is whether its fuel could be set before. A guest that reacts to results is
      covered, as scripts are arbitrary. */
  datatype Guest = Guest(prepared: bool, calls: seq<GuestCall>, result: Result<Value, string>, writable: bool)

  datatype Stop =
    | ShutDown
    | ReadFailed
    | OutOfSequence
    | NestedExport
    | NotPrepared
    | UnknownExport
    | CapabilityFailed
    | ReplyNotWritten
    | ForeignLease
    | UnexpectedMessage

  const EXPORTS := {"activate", "deactivate", "ui.open", "ui.refresh", "ui.dispatch", "ui.close"}

  // ---------------------------------------------------------------------------------------------
  // Fresh call identifiers
  // ---------------------------------------------------------------------------------------------

  function Decimal(n: nat): (digits: string)
    ensures digits != []
  {
    if n < 10 then [('0' as int + n) as char] else Decimal(n / 10) + [('0' as int + n % 10) as char]
  }

  function CallId(n: nat): string { "call-" + Decimal(n) }

  lemma {:induction false} DecimalInjective(m: nat, n: nat)
    requires Decimal(m) == Decimal(n)
    ensures m == n
  {
    var a, b := Decimal(m), Decimal(n);
    assert a[|a| - 1] == b[|b| - 1];
    if 10 <= m && 10 <= n {
      assert a[..|a| - 1] == Decimal(m / 10) && b[..|b| - 1] == Decimal(n / 10);
      DecimalInjective(m / 10, n / 10);
    }
  }

  lemma CallIdsDiffer(m: nat, n: nat)
    requires m != n
    ensures CallId(m) != CallId(n)
  {
    if CallId(m) == CallId(n) {
      assert CallId(m)[5..] == Decimal(m) && CallId(n)[5..] == Decimal(n);
      DecimalInjective(m, n);
    }
  }

  // ---------------------------------------------------------------------------------------------
  // The protocol as an automaton over what crosses the pipe
  // ---------------------------------------------------------------------------------------------

  /** What is observable: messages the host accepted, messages it wrote, and the moment it fails a call. */
  datatype Step = In(body: Body) | Out(body: Body) | Failure

  datatype Phase =
    | Idle
    | Serving(requestId: string, contextId: string)
    | Waiting(requestId: string, contextId: string, callId: string)
    | Mismatched(requestId: string, contextId: string)
    | Abandoned(requestId: string, contextId: string)
    | Spoiled
    | Stopped
    | Violation

  function Next(phase: Phase, step: Step, leaseId: string): Phase {
    match (phase, step)
    case (Idle, In(InvokeExport(r, c, e))) => if e in EXPORTS then Serving(r, c) else Stopped
    case (Idle, In(RevokeLease(l))) => if l == leaseId then Idle else Stopped
    case (Idle, In(_)) => Stopped
    // A component that calls the host while it is instantiated has no context to call in.
    case (Idle, Failure) => Spoiled
    case (Spoiled, Failure) => Spoiled
    case (Spoiled, In(InvokeExport(r, c, e))) => if e in EXPORTS then Abandoned(r, c) else Stopped
    case (Spoiled, In(RevokeLease(l))) => if l == leaseId then Spoiled else Stopped
    case (Spoiled, In(_)) => Stopped
    case (Serving(r, c), Out(CapabilityCall(id, context, lease, _, _))) =>
      if context == c && lease == leaseId then Waiting(r, c, id) else Violation
    case (Serving(r, c), Out(ExportResult(id, value, error))) =>
      if id == r && value.Some? != error.Some? then Idle else Violation
    case (Waiting(r, c, id), In(CapabilityResult(answered, value, error))) =>
      if answered == id && value.Some? != error.Some? then Serving(r, c) else Mismatched(r, c)
    case (Waiting(r, c, _), In(_)) => Mismatched(r, c)
    case (Serving(r, c), Failure) => Abandoned(r, c)
    case (Waiting(r, c, _), Failure) => Abandoned(r, c)
    case (Mismatched(r, c), Failure) => Abandoned(r, c)
    // After a failed call the guest may go on calling, but the export is never answered.
    case (Abandoned(r, c), Out(CapabilityCall(id, context, lease, _, _))) =>
      if context == c && lease == leaseId then phase else Violation
    case (Abandoned(_, _), In(_)) => phase
    case (Abandoned(_, _), Failure) => phase
    case _ => Violation
  }

  function Replay(trace: seq<Step>, leaseId: string): Phase {
    if trace == [] then Idle
    else Next(Replay(trace[..|trace| - 1], leaseId), trace[|trace| - 1], leaseId)
  }

  ghost predicate Resting(phase: Phase) { phase.Idle? || phase.Spoiled? }

  /** The step starts an export: a known one is requested while none is being served. */
  ghost predicate StartsExport(before: seq<Step>, step: Step, leaseId: string) {
    && step.In? && step.body.InvokeExport? && step.body.exportName in EXPORTS
    && Resting(Replay(before, leaseId))
  }

  ghost predicate AnswersExport(step: Step) { step.Out? && step.body.ExportResult? }

  /** Exports the host took on, in order. */
  ghost function Requests(trace: seq<Step>, leaseId: string): seq<string> {
    if trace == [] then []
    else
      var before, last := trace[..|trace| - 1], trace[|trace| - 1];
      Requests(before, leaseId) + if StartsExport(before, last, leaseId) then [last.body.requestId] else []
  }

  /** Exports the host answered, in order. */
  ghost function Replies(trace: seq<Step>): seq<string> {
    if trace == [] then []
    else
      var last := trace[|trace| - 1];
      Replies(trace[..|trace| - 1]) + if AnswersExport(last) then [last.body.requestId] else []
  }

  /** What the host answered the exports with, in order. */
  ghost function Answers(trace: seq<Step>): seq<Body> {
    if trace == [] then []
    else
      var last := trace[|trace| - 1];
      Answers(trace[..|trace| - 1]) + if AnswersExport(last) then [last.body] else []
  }

  /** An answer carries the result of a guest: its value, or its error. */
  ghost predicate Carries(answer: Body, result: Result<Value, string>) {
    && answer.ExportResult?
    && match result
       case Ok(value) => answer.result == Some(value) && answer.error.None?
       case Err(code) => answer.result.None? && answer.error == Some(code)
  }

  /** The host has answered one more export, with what its guest gave. */
  ghost predicate OneMoreAnswer(before: seq<Body>, after: seq<Body>, requestId: string, result: Result<Value, string>) {
    && |after| == |before| + 1 && before <= after
    && Carries(after[|before|], result) && after[|before|].requestId == requestId
  }

  /** The host has written one more frame and accepted one more, a call and its answer. */
  ghost predicate OneMoreCall(call: GuestCall, context: Option<string>, leaseId: string, sent: seq<HostMessage>, sent': seq<HostMessage>,
                              accepted: seq<HostMessage>, accepted': seq<HostMessage>, value: Value) {
    && context.Some? && |sent'| == |sent| + 1 && sent <= sent' && |accepted'| == |accepted| + 1 && accepted <= accepted'
    && CallIsFaithful(call, context.value, leaseId, sent'[|sent|].body, accepted'[|accepted|].body, value)
  }

  /** A call was asked as the guest made it, and answered with what the daemon said: its value, or an object that
      holds its error. */
  ghost predicate CallIsFaithful(call: GuestCall, context: string, leaseId: string, asked: Body, answer: Body, value: Value) {
    && asked.CapabilityCall? && asked.contextId == context && asked.leaseId == leaseId
    && asked.capability == call.capability && asked.input == call.input
    && answer.CapabilityResult? && answer.callId == asked.callId
    && if answer.result.Some? then answer.result == Some(value) && answer.error.None?
       else answer.error.Some? && value == ErrorObject(answer.error.value)
  }

  /** Identifiers of the capability calls written, in order. */
  ghost function Calls(trace: seq<Step>): seq<string> {
    if trace == [] then []
    else
      var last := trace[|trace| - 1];
      Calls(trace[..|trace| - 1]) + if last.Out? && last.body.CapabilityCall? then [last.body.callId] else []
  }

  /** What a trace yields before anything happened, and after one more step. */
  lemma Unfold(trace: seq<Step>, step: Step, leaseId: string)
    ensures Replay([], leaseId) == Idle && Requests([], leaseId) == [] && Replies([]) == []
    ensures Calls([]) == [] && Accepted([]) == [] && Written([]) == [] && Answers([]) == []
    ensures Replay(trace + [step], leaseId) == Next(Replay(trace, leaseId), step, leaseId)
    ensures Calls(trace + [step]) == Calls(trace)
      + if step.Out? && step.body.CapabilityCall? then [step.body.callId] else []
    ensures Accepted(trace + [step]) == Accepted(trace) + if step.In? then [step.body] else []
    ensures Written(trace + [step]) == Written(trace) + if step.Out? then [step.body] else []
    ensures Answers(trace + [step]) == if AnswersExport(step) then Answers(trace) + [step.body] else Answers(trace)
  {
    assert (trace + [step])[..|trace|] == trace;
  }

  /** The request being served in a phase, if any. */
  ghost function Unanswered(phase: Phase): seq<string> {
    match phase
    case Serving(r, _) => [r]
    case Waiting(r, _, _) => [r]
    case Mismatched(r, _) => [r]
    case Abandoned(r, _) => [r]
    case _ => []
  }

  /** Every trace the automaton allows answers the exports it took on in order, each once, and has
      answered all of them but the one being served. */
  lemma {:induction false} RepliesFollowRequests(trace: seq<Step>, leaseId: string)
    requires !Replay(trace, leaseId).Violation?
    ensures Requests(trace, leaseId) == Replies(trace) + Unanswered(Replay(trace, leaseId))
  {
    if trace != [] {
      RepliesFollowRequests(trace[..|trace| - 1], leaseId);
    }
  }

  /** Once a call has failed, no export is ever answered again. */
  lemma {:induction false} NoReplyAfterFailure(trace: seq<Step>, leaseId: string, k: nat)
    requires k < |trace| && trace[k].Failure?
    requires !Replay(trace, leaseId).Violation?
    ensures var phase := Replay(trace, leaseId); phase.Abandoned? || phase.Spoiled? || phase.Stopped?
    ensures forall i | k <= i < |trace| :: !AnswersExport(trace[i])
  {
    if k < |trace| - 1 {
      NoReplyAfterFailure(trace[..|trace| - 1], leaseId, k);
    }
  }

  /** Every capability call names the context of the export that was taken on last and is unanswered. */
  lemma {:induction false} CallsNameServedContext(trace: seq<Step>, leaseId: string, k: nat)
    returns (served: nat)
    requires k < |trace| && trace[k].Out? && trace[k].body.CapabilityCall?
    requires !Replay(trace, leaseId).Violation?
    ensures served < k && StartsExport(trace[..served], trace[served], leaseId)
    ensures trace[served].body.contextId == trace[k].body.contextId && trace[k].body.leaseId == leaseId
    ensures forall i | served < i < k ::
      !StartsExport(trace[..i], trace[i], leaseId) && !AnswersExport(trace[i])
  {
    if k < |trace| - 1 {
      served := CallsNameServedContext(trace[..|trace| - 1], leaseId, k);
      assert forall i | 0 <= i <= k :: trace[..|trace| - 1][..i] == trace[..i];
    } else {
      served := ServedSince(trace[..k], leaseId);
      assert forall i | 0 <= i <= k :: trace[..k][..i] == trace[..i];
    }
  }

  /** While an export is being served, the request that started it lies behind, with no reply since. */
  lemma {:induction false} ServedSince(trace: seq<Step>, leaseId: string) returns (served: nat)
    requires Unanswered(Replay(trace, leaseId)) != []
    ensures served < |trace| && StartsExport(trace[..served], trace[served], leaseId)
    ensures trace[served].body.contextId == Replay(trace, leaseId).contextId
    ensures forall i | served < i < |trace| ::
      !StartsExport(trace[..i], trace[i], leaseId) && !AnswersExport(trace[i])
  {
    var last := |trace| - 1;
    if Resting(Replay(trace[..last], leaseId)) {
      served := last;
    } else {
      served := ServedSince(trace[..last], leaseId);
      assert forall i | 0 <= i <= last :: trace[..last][..i] == trace[..i];
    }
  }

  /** A trace the automaton allows it allowed all along, and without a failure no export was given up. */
  lemma {:induction false} PrefixIsAllowed(trace: seq<Step>, leaseId: string, k: nat)
    requires k <= |trace| && !Replay(trace, leaseId).Violation?
    ensures !Replay(trace[..k], leaseId).Violation?
    ensures (forall i | 0 <= i < k :: !trace[i].Failure?) ==>
      !Replay(trace[..k], leaseId).Abandoned? && !Replay(trace[..k], leaseId).Spoiled?
  {
    if k < |trace| {
      PrefixIsAllowed(trace[..|trace| - 1], leaseId, k);
      assert trace[..|trace| - 1][..k] == trace[..k];
    } else if k > 0 {
      PrefixIsAllowed(trace[..k - 1], leaseId, k - 1);
      assert trace[..k] == trace && trace[..k - 1][..k - 1] == trace[..k - 1];
    }
  }

  /** When the host writes anything after a capability call, and no call failed so far, then the very next step after the
      call was to accept a result with its identifier: either a value or an error, never both. */
  lemma AnswerIsNextMessage(trace: seq<Step>, leaseId: string, k: nat, m: nat)
    requires k < m < |trace| && !Replay(trace, leaseId).Violation? && (forall i | 0 <= i < m :: !trace[i].Failure?)
    requires trace[k].Out? && trace[k].body.CapabilityCall? && trace[m].Out?
    ensures k + 1 < m && trace[k + 1].In? && trace[k + 1].body.CapabilityResult?
    ensures trace[k + 1].body.callId == trace[k].body.callId
    ensures trace[k + 1].body.result.Some? != trace[k + 1].body.error.Some?
  {
    hide Replay;
    PrefixIsAllowed(trace, leaseId, k);
    PrefixIsAllowed(trace, leaseId, k + 1);
    PrefixIsAllowed(trace, leaseId, k + 2);
    ReplayOn(trace, leaseId, k);
    ReplayOn(trace, leaseId, k + 1);
    if k + 2 < |trace| {
      PrefixIsAllowed(trace, leaseId, k + 3);
      ReplayOn(trace, leaseId, k + 2);
    }
  }

  lemma ReplayOn(trace: seq<Step>, leaseId: string, k: nat)
    requires k < |trace|
    ensures Replay(trace[..k + 1], leaseId) == Next(Replay(trace[..k], leaseId), trace[k], leaseId)
  {
    hide Next;
    assert trace[..k + 1][..k] == trace[..k];
  }

  // ---------------------------------------------------------------------------------------------
  // The channel
  // ---------------------------------------------------------------------------------------------

  /** Consecutive inbound sequence numbers; the addition wraps like an unchecked u64. */
  function Successor(sequence: nat): nat { (sequence + 1) % U64 }

  ghost predicate InboundConsecutive(accepted: seq<HostMessage>, first: nat) {
    forall i | 0 <= i < |accepted| :: accepted[i].sequence == (first + 1 + i) % U64
  }

  ghost predicate OutboundIncreasing(sent: seq<HostMessage>) {
    forall i, j | 0 <= i < j < |sent| :: sent[i].sequence < sent[j].sequence
  }

  ghost predicate OutboundConsecutive(sent: seq<HostMessage>) {
    forall i | 0 <= i < |sent| :: sent[i].sequence == i + 1
  }

  ghost predicate Ours(identity: Identity, messages: seq<HostMessage>) {
    forall i | 0 <= i < |messages| ::
      messages[i].version == HOST_PROTOCOL_VERSION && messages[i].identity == identity
  }

  /** The part of the trace that was read is the accepted messages; the part written, the sent ones. */
  ghost function Accepted(trace: seq<Step>): seq<Body> {
    if trace == [] then []
    else
      var last := trace[|trace| - 1];
      Accepted(trace[..|trace| - 1]) + if last.In? then [last.body] else []
  }

  ghost function Written(trace: seq<Step>): seq<Body> {
    if trace == [] then []
    else
      var last := trace[|trace| - 1];
      Written(trace[..|trace| - 1]) + if last.Out? then [last.body] else []
  }

  ghost function Bodies(messages: seq<HostMessage>): seq<Body> {
    seq(|messages|, i requires 0 <= i < |messages| => messages[i].body)
  }

  /** One more message with the next sequence number. */
  lemma AcceptedGrows(accepted: seq<HostMessage>, message: HostMessage, first: nat)
    requires InboundConsecutive(accepted, first)
    requires message.sequence
      == Successor(if accepted == [] then first else accepted[|accepted| - 1].sequence)
    ensures InboundConsecutive(accepted + [message], first)
    ensures Bodies(accepted + [message]) == Bodies(accepted) + [message.body]
  {
    assert forall x: nat :: (x % U64 + 1) % U64 == (x + 1) % U64;
  }

  /** The numbers taken by the frames that were written: each frame takes the next one, written or lost. */
  ghost function Numbers(frames: seq<bool>): seq<nat> {
    if frames == [] then []
    else Numbers(frames[..|frames| - 1]) + if frames[|frames| - 1] then [|frames|] else []
  }

  ghost function Sequences(messages: seq<HostMessage>): seq<nat> {
    seq(|messages|, i requires 0 <= i < |messages| => messages[i].sequence)
  }

  /** The frame that took this number was written. */
  ghost predicate WasWritten(frames: seq<bool>, n: nat) { 1 <= n <= |frames| && frames[n - 1] }

  /** The numbers written increase, and those of the lost frames are exactly the ones skipped. */
  lemma {:induction false} NumbersSkipTheLost(frames: seq<bool>)
    ensures var numbers := Numbers(frames);
      && |numbers| <= |frames| && (|numbers| == |frames| <==> (forall i | 0 <= i < |frames| :: frames[i]))
      && (forall n: nat :: n in numbers <==> WasWritten(frames, n))
      && (forall i, j | 0 <= i < j < |numbers| :: numbers[i] < numbers[j])
  {
    hide Numbers, WasWritten;
    NumbersAreCounted(frames);
    NumbersAreWritten(frames);
    NumbersIncrease(frames);
  }

  lemma LastNumber(frames: seq<bool>)
    requires frames != []
    ensures Numbers(frames) == Numbers(frames[..|frames| - 1]) + if frames[|frames| - 1] then [|frames|] else []
  {}

  lemma {:induction false} NumbersAreCounted(frames: seq<bool>)
    ensures |Numbers(frames)| <= |frames| && (|Numbers(frames)| == |frames| <==> (forall i | 0 <= i < |frames| :: frames[i]))
  {
    if frames != [] {
      LastNumber(frames);
      NumbersAreCounted(frames[..|frames| - 1]);
      hide Numbers;
      assert forall i | 0 <= i < |frames| - 1 :: frames[i] == frames[..|frames| - 1][i];
    }
  }

  lemma {:induction false} NumbersAreWritten(frames: seq<bool>)
    ensures forall n: nat :: n in Numbers(frames) <==> WasWritten(frames, n)
  {
    if frames != [] {
      LastNumber(frames);
      NumbersAreWritten(frames[..|frames| - 1]);
      hide Numbers;
      OneMoreWritten(frames[..|frames| - 1], frames[|frames| - 1]);
      assert frames == frames[..|frames| - 1] + [frames[|frames| - 1]];
    }
  }

  lemma OneMoreWritten(frames: seq<bool>, written: bool)
    ensures forall n: nat :: WasWritten(frames + [written], n) <==> WasWritten(frames, n) || (written && n == |frames| + 1)
  {}

  lemma {:induction false} NumbersIncrease(frames: seq<bool>)
    ensures forall i, j | 0 <= i < j < |Numbers(frames)| :: Numbers(frames)[i] < Numbers(frames)[j]
  {
    if frames != [] {
      var before := frames[..|frames| - 1];
      LastNumber(frames);
      NumbersIncrease(before);
      NumbersAreWritten(before);
      hide Numbers;
      assert forall i | 0 <= i < |Numbers(before)| :: Numbers(before)[i] in Numbers(before) && WasWritten(before, Numbers(before)[i]);
    }
  }

  lemma NumbersBegin(frames: seq<bool>)
    requires frames != [] && frames[0]
    ensures Numbers(frames) != [] && Numbers(frames)[0] == 1 && forall i | 0 <= i < |Numbers(frames)| :: 1 <= Numbers(frames)[i]
  {
    hide Numbers;
    NumbersSkipTheLost(frames);
    var numbers := Numbers(frames);
    assert WasWritten(frames, 1);
    assert forall i | 0 <= i < |numbers| :: numbers[i] in numbers && WasWritten(frames, numbers[i]);
  }

  /** No frame was written after one was lost. */
  ghost predicate NothingAfterLoss(frames: seq<bool>) {
    forall i, j | 0 <= i < j < |frames| && frames[j] :: frames[i]
  }

  ghost predicate Counting(numbers: seq<nat>) {
    forall i | 0 <= i < |numbers| :: numbers[i] == i + 1
  }

  lemma CountingGrows(numbers: seq<nat>, n: nat)
    ensures Counting(numbers + [n]) <==> Counting(numbers) && n == |numbers| + 1
  {
    var grown := numbers + [n];
    if Counting(grown) {
      assert grown[|numbers|] == n;
      forall i | 0 <= i < |numbers|
        ensures numbers[i] == i + 1
      {
        assert grown[i] == numbers[i];
      }
    }
  }

  lemma LossGrows(frames: seq<bool>, written: bool)
    ensures NothingAfterLoss(frames + [written]) <==> NothingAfterLoss(frames) && (written ==> forall i | 0 <= i < |frames| :: frames[i])
  {
    var grown := frames + [written];
    if NothingAfterLoss(grown) {
      assert forall i | 0 <= i < |frames| :: grown[i] == frames[i];
      assert written ==> grown[|frames|];
    }
  }

  lemma {:induction false} ConsecutiveWhen(frames: seq<bool>)
    ensures Counting(Numbers(frames)) <==> NothingAfterLoss(frames)
  {
    if frames != [] {
      var before, written := frames[..|frames| - 1], frames[|frames| - 1];
      ConsecutiveWhen(before);
      NumbersSkipTheLost(before);
      LossGrows(before, written);
      CountingGrows(Numbers(before), |frames|);
      assert before + [written] == frames && Numbers(before) + [] == Numbers(before);
      hide Counting, NothingAfterLoss;
    }
  }

  /** Numbers that increase from one on and end at their count leave none out. */
  lemma {:induction false} Squeezed(numbers: seq<nat>, i: nat)
    requires i < |numbers| && numbers[|numbers| - 1] == |numbers| && (forall k | 0 <= k < |numbers| :: 1 <= numbers[k])
    requires forall k, l | 0 <= k < l < |numbers| :: numbers[k] < numbers[l]
    ensures numbers[i] == i + 1
  {
    var last := |numbers| - 1;
    if i < last {
      Climb(numbers, last - 1);
      Squeezed(numbers[..last], i);
    }
  }

  lemma {:induction false} Climb(numbers: seq<nat>, i: nat)
    requires i < |numbers| && (forall k | 0 <= k < |numbers| :: 1 <= numbers[k])
    requires forall k, l | 0 <= k < l < |numbers| :: numbers[k] < numbers[l]
    ensures i + 1 <= numbers[i]
  {
    if i > 0 {
      Climb(numbers, i - 1);
    }
  }

  /** One more message with the next sequence number. */
  lemma SentGrows(identity: Identity, sent: seq<HostMessage>, frames: seq<bool>, message: HostMessage)
    requires sent != [] && Ours(identity, sent) && Sequences(sent) == Numbers(frames)
    requires message.version == HOST_PROTOCOL_VERSION && message.identity == identity && message.sequence == |frames| + 1
    ensures Ours(identity, sent + [message]) && Sequences(sent + [message]) == Numbers(frames + [true])
    ensures Bodies((sent + [message])[1..]) == Bodies(sent[1..]) + [message.body]
  {
    assert (sent + [message])[1..] == sent[1..] + [message];
    assert (frames + [true])[..|frames|] == frames;
  }

  lemma IdsGrow(ids: seq<string>, id: string, nextCall: nat)
    requires (forall i | i in ids :: Issued(i, nextCall)) && Distinct(ids)
    requires id !in ids && Issued(id, nextCall)
    ensures (forall i | i in ids + [id] :: Issued(i, nextCall)) && Distinct(ids + [id])
  {
    hide Issued;
  }

  /** The value a message body carries as the answer to a call, if it is one. */
  function AnswerIn(callId: string, body: Body): Option<Value> {
    match body
    case CapabilityResult(answered, result, error) =>
      if answered != callId || result.Some? == error.Some? then None
      else if result.Some? then result
      else Some(ErrorObject(error.value))
    case _ => None
  }

  /** Where a failed call leaves the protocol. */
  function Broken(phase: Phase): Phase {
    match phase
    case Serving(r, c) => Abandoned(r, c)
    case Idle => Spoiled
    case _ => phase
  }

  ghost predicate Issued(callId: string, nextCall: nat) { exists n: nat | 0 < n < nextCall :: callId == CallId(n) }

  ghost predicate Distinct(ids: seq<string>) { forall i, j | 0 <= i < j < |ids| :: ids[i] != ids[j] }

  /** The deque holds exactly the youngest admissions, and what left it is a window old. */
  ghost predicate DequeOk(deque: seq<int>, admitted: seq<int>, clock: int, window: nat) {
    && Nondecreasing(admitted) && (admitted != [] ==> admitted[|admitted| - 1] <= clock)
    && |deque| <= |admitted| && deque == admitted[|admitted| - |deque|..]
    && (forall i | 0 <= i < |admitted| - |deque| :: clock - admitted[i] >= window)
  }

  /** Everything about the call budget's fields, against the history of all admitted calls. */
  ghost predicate BudgetOk(limits: Limits, deque: seq<int>, tokens: real, updatedAt: int,
                           clock: int, admitted: seq<int>) {
    && updatedAt <= clock
    && WithinLimits(admitted, limits, tokens, updatedAt)
    && DequeOk(deque, admitted, clock, limits.Window())
  }

  /** The deque after dropping from its front what has left the window. */
  function Live(deque: seq<int>, clock: int, window: nat): seq<int> {
    if deque != [] && clock - deque[0] >= window then Live(deque[1..], clock, window) else deque
  }

  lemma {:induction false} LiveKeeps(deque: seq<int>, admitted: seq<int>, clock: int, window: nat)
    requires DequeOk(deque, admitted, clock, window)
    ensures DequeOk(Live(deque, clock, window), admitted, clock, window)
    ensures |Live(deque, clock, window)| == CountIn(admitted, clock - window + 1, clock + 1)
  {
    if deque != [] && clock - deque[0] >= window {
      assert deque[1..] == admitted[|admitted| - |deque[1..]|..];
      LiveKeeps(deque[1..], admitted, clock, window);
    } else {
      hide Live;
      var expired := |admitted| - |deque|;
      CountSuffix(admitted, expired, clock - window + 1, clock + 1);
      CountAtMostSuffix(admitted, expired, clock - window + 1, clock + 1);
    }
  }

  lemma DequePush(deque: seq<int>, admitted: seq<int>, clock: int, window: nat)
    requires DequeOk(deque, admitted, clock, window)
    ensures Nondecreasing(admitted) && (admitted != [] ==> admitted[|admitted| - 1] <= clock)
    ensures DequeOk(deque + [clock], admitted + [clock], clock, window)
  {}

  /** A call is admitted when fewer than the allowed number were admitted within the last window and
      the refilled bucket holds a token. */
  ghost predicate Admissible(limits: Limits, tokens: real, updatedAt: int, clock: int, admitted: seq<int>)
    requires limits.Valid()
  {
    && CountIn(admitted, clock - limits.Window() + 1, clock + 1) < limits.callsPerWindow
    && 1.0 <= Refilled(limits, tokens, updatedAt, clock)
  }

  /** What one request for a call does to the budget, admitted or not. */
  lemma BudgetSteps(limits: Limits, deque: seq<int>, tokens: real, updatedAt: int, clock: int, admitted: seq<int>)
    requires BudgetOk(limits, deque, tokens, updatedAt, clock, admitted)
    ensures limits.Valid()
    ensures var live, refilled := Live(deque, clock, limits.Window()), Refilled(limits, tokens, updatedAt, clock);
      && |live| == CountIn(admitted, clock - limits.Window() + 1, clock + 1)
      && BudgetOk(limits, live, tokens, updatedAt, clock, admitted)
      && BudgetOk(limits, live, refilled, clock, clock, admitted)
      && (|live| < limits.callsPerWindow && 1.0 <= refilled ==>
        BudgetOk(limits, live + [clock], refilled - 1.0, clock, clock, admitted + [clock]))
  {
    hide DequeOk, Live, CountIn, Spaced, TokensCovered, RateBounded, Refilled;
    LiveKeeps(deque, admitted, clock, limits.Window());
    DequePush(Live(deque, clock, limits.Window()), admitted, clock, limits.Window());
    RefillKeepsLimits(admitted, limits, tokens, updatedAt, clock);
    var refilled := Refilled(limits, tokens, updatedAt, clock);
    if CountIn(admitted, clock - limits.Window() + 1, clock + 1) < limits.callsPerWindow && 1.0 <= refilled {
      AdmitKeepsLimits(admitted, limits, refilled, clock);
    }
  }

  /** Time passing changes nothing else. */
  lemma BudgetWaits(limits: Limits, deque: seq<int>, tokens: real, updatedAt: int, clock: int,
                    admitted: seq<int>, later: int)
    requires BudgetOk(limits, deque, tokens, updatedAt, clock, admitted) && clock <= later
    ensures BudgetOk(limits, deque, tokens, updatedAt, later, admitted)
  {}

  /** Everything about the two pipes: the channel's counters and the history they stand for. `frames` says of every
      frame that took a number whether it was written. */
  datatype Wire = Wire(identity: Identity, leaseId: string, first: nat,
                       accepted: seq<HostMessage>, inbound: nat,
                       sent: seq<HostMessage>, outbound: nat, frames: seq<bool>,
                       nextCall: nat, trace: seq<Step>)
  {
    ghost function Phase(): Phase { Replay(trace, leaseId) }

    function Stamp(sequence: nat, body: Body): HostMessage {
      HostMessage(HOST_PROTOCOL_VERSION, identity, sequence, body)
    }

    predicate Expects(message: HostMessage) { message == Stamp(Successor(inbound), message.body) }

    /** The message is accepted if it is the expected one, and ignored otherwise. */
    function Accept(message: HostMessage): Wire {
      if !Expects(message) then this
      else this.(accepted := accepted + [message], inbound := message.sequence, trace := trace + [In(message.body)])
    }

    predicate CanWrite(writable: bool) { writable && outbound + 1 < U64 }

    /** A frame that cannot be written has used up its number, unless the numbers have run out. */
    function Send(body: Body, writable: bool): Wire {
      if outbound + 1 >= U64 then this
      else if !writable then this.(outbound := outbound + 1, frames := frames + [false])
      else this.(outbound := outbound + 1, frames := frames + [true], sent := sent + [Stamp(outbound + 1, body)],
                 trace := trace + [Out(body)])
    }

    function Fail(): Wire { this.(trace := trace + [Failure]) }

    ghost predicate SequencesOk() {
      && InboundConsecutive(accepted, first)
      && inbound == (if accepted == [] then first else accepted[|accepted| - 1].sequence)
      && Ours(identity, accepted) && Ours(identity, sent)
      && sent != [] && frames != [] && frames[0] && outbound == |frames| < U64 && Sequences(sent) == Numbers(frames)
    }

    /** The trace is what was accepted and written, and every call identifier is used once. */
    ghost predicate TraceOk() {
      && Accepted(trace) == Bodies(accepted)
      && sent != [] && Written(trace) == Bodies(sent[1..])
      && 0 < nextCall < U64
      && (forall id | id in Calls(trace) :: Issued(id, nextCall))
      && Distinct(Calls(trace))
    }

    ghost predicate Valid() { SequencesOk() && TraceOk() }

    lemma AcceptKeeps(message: HostMessage)
      requires Valid()
      ensures Accept(message).Valid()
      ensures Accept(message).Phase() == if Expects(message) then Next(Phase(), In(message.body), leaseId) else Phase()
    {
      if Expects(message) {
        AcceptedGrows(accepted, message, first);
        Unfold(trace, In(message.body), leaseId);
        assert Calls(trace + [In(message.body)]) == Calls(trace);
      }
    }

    lemma AcceptAdds(message: HostMessage)
      ensures var w := Accept(message);
        if Expects(message) then w.accepted == accepted + [message] && w.trace == trace + [In(message.body)] else w == this
    {}

    lemma SendKeeps(body: Body, writable: bool)
      requires Valid()
      requires body.CapabilityCall? ==> body.callId !in Calls(trace) && Issued(body.callId, nextCall)
      ensures Send(body, writable).Valid()
      ensures Send(body, writable).Phase() == if CanWrite(writable) then Next(Phase(), Out(body), leaseId) else Phase()
    {
      hide InboundConsecutive, Sequences, Ours, Distinct, Issued, Replay, Calls, Written, Accepted, Wire.TraceOk;
      assert (frames + [false])[..|frames|] == frames;
      SentGrows(identity, sent, frames, Stamp(outbound + 1, body));
      SendKeepsTrace(body, writable);
    }

    lemma SendKeepsTrace(body: Body, writable: bool)
      requires TraceOk()
      requires body.CapabilityCall? ==> body.callId !in Calls(trace) && Issued(body.callId, nextCall)
      ensures Send(body, writable).TraceOk()
      ensures Send(body, writable).Phase() == if CanWrite(writable) then Next(Phase(), Out(body), leaseId) else Phase()
    {
      hide Distinct, Issued, Replay, Calls, Written, Accepted, Next;
      Unfold(trace, Out(body), leaseId);
      if CanWrite(writable) {
        assert (sent + [Stamp(outbound + 1, body)])[1..] == sent[1..] + [Stamp(outbound + 1, body)];
        assert Bodies(sent[1..] + [Stamp(outbound + 1, body)]) == Bodies(sent[1..]) + [body];
      }
      if body.CapabilityCall? {
        IdsGrow(Calls(trace), body.callId, nextCall);
      } else {
        assert Calls(trace + [Out(body)]) == Calls(trace);
      }
    }

    /** In every reachable state the numbers written increase, and they are consecutive if, and only if, no frame was
        written after one was lost; which shows in the last of them alone. */
    lemma OutboundNumbers()
      requires Valid()
      ensures sent != [] && sent[0].sequence == 1 && OutboundIncreasing(sent)
      ensures OutboundConsecutive(sent) <==> NothingAfterLoss(frames)
      ensures OutboundConsecutive(sent) <==> sent[|sent| - 1].sequence == |sent|
    {
      hide Numbers, NothingAfterLoss, InboundConsecutive, Ours;
      ConsecutiveWhen(frames);
      NumbersSkipTheLost(frames);
      NumbersBegin(frames);
      assert forall i | 0 <= i < |sent| :: sent[i].sequence == Sequences(sent)[i];
      if sent[|sent| - 1].sequence == |sent| {
        forall i | 0 <= i < |sent|
          ensures sent[i].sequence == i + 1
        {
          Squeezed(Numbers(frames), i);
        }
      }
    }

    lemma FailKeeps()
      requires Valid()
      ensures Fail().Valid() && Fail().Phase() == Next(Phase(), Failure, leaseId)
    {
      Unfold(trace, Failure, leaseId);
      assert Calls(trace + [Failure]) == Calls(trace);
    }

    /** The next call number has not been used yet. */
    lemma NextCallIsFresh()
      requires Valid() && nextCall + 1 < U64
      ensures this.(nextCall := nextCall + 1).Valid()
      ensures CallId(nextCall) !in Calls(trace) && Issued(CallId(nextCall), nextCall + 1)
    {
      forall id | id in Calls(trace)
        ensures id != CallId(nextCall) && Issued(id, nextCall + 1)
      {
        var n: nat :| 0 < n < nextCall && id == CallId(n);
        CallIdsDiffer(n, nextCall);
      }
    }

    function CallBody(context: string, call: GuestCall): Body {
      CapabilityCall(CallId(nextCall), context, leaseId, call.capability, call.input)
    }

    /** The call gets as far as the pipe. */
    predicate Callable(context: Option<string>, call: GuestCall) {
      nextCall + 1 < U64 && context.Some? && CanWrite(call.writable)
    }

    /** The value the next frame carries as the answer to a call, if it is the expected message and
        answers just that call. */
    function AnswerTo(callId: string, frame: Option<HostMessage>): Option<Value> {
      if frame.Some? && Expects(frame.value) then AnswerIn(callId, frame.value.body) else None
    }

    /** One capability call over the pipes, with what the next read yields. */
    function Call(context: Option<string>, call: GuestCall, frame: Option<HostMessage>): Wire {
      if nextCall + 1 >= U64 then this
      else
        var numbered := this.(nextCall := nextCall + 1);
        if context.None? then numbered
        else
          var asked := numbered.Send(CallBody(context.value, call), call.writable);
          if Callable(context, call) && frame.Some? then asked.Accept(frame.value) else asked
    }

    /** A call that is answered leaves the protocol where it was; any other one leaves the export without
        a reply for good. */
    lemma CallKeeps(context: Option<string>, call: GuestCall, frame: Option<HostMessage>)
      requires Valid()
      requires if Resting(Phase()) then context.None?
               else (Phase().Serving? || Phase().Abandoned?) && context == Some(Phase().contextId)
      ensures var after := Call(context, call, frame);
        if Callable(context, call) && AnswerTo(CallId(nextCall), frame).Some?
        then after.Valid() && after.Phase() == Phase()
        else after.Fail().Valid() && after.Fail().Phase() == Broken(Phase())
    {
      hide Wire.Valid, Replay;
      if nextCall + 1 >= U64 {
        FailKeeps();
      } else {
        NextCallIsFresh();
        var numbered := this.(nextCall := nextCall + 1);
        assert numbered.Phase() == Phase();
        if context.None? {
          numbered.FailKeeps();
        } else {
          numbered.AskKeeps(nextCall, context.value, call, frame);
        }
      }
    }

    /** A call answers no export. */
    lemma CallAnswersNothing(context: Option<string>, call: GuestCall, frame: Option<HostMessage>)
      ensures Answers(Call(context, call, frame).trace) == Answers(trace) == Answers(Call(context, call, frame).Fail().trace)
    {
      hide Answers, Wire.Expects;
      if nextCall + 1 < U64 && context.Some? {
        var body := CallBody(context.value, call);
        Unfold(trace, Out(body), leaseId);
        if frame.Some? {
          Unfold(trace + [Out(body)], In(frame.value.body), leaseId);
        }
      }
      Unfold(Call(context, call, frame).trace, Failure, leaseId);
    }

    lemma CallGrows(context: Option<string>, call: GuestCall, frame: Option<HostMessage>)
      ensures trace <= Call(context, call, frame).trace
      ensures Callable(context, call) ==> context.Some?
      ensures AnswerTo(CallId(nextCall), frame).Some? ==> frame.Some?
    {}

    /** An answered call is faithful. */
    lemma AnsweredIsFaithful(context: Option<string>, call: GuestCall, frame: Option<HostMessage>)
      requires Callable(context, call) && AnswerTo(CallId(nextCall), frame).Some?
      ensures var after := Call(context, call, frame);
        && after.sent == sent + [Stamp(outbound + 1, CallBody(context.value, call))] && after.accepted == accepted + [frame.value]
        && OneMoreCall(call, context, leaseId, sent, after.sent, accepted, after.accepted, AnswerTo(CallId(nextCall), frame).value)
    {}

    lemma AskKeeps(number: nat, context: string, call: GuestCall, frame: Option<HostMessage>)
      requires Valid()
      requires (Phase().Serving? || Phase().Abandoned?) && context == Phase().contextId
      requires CallId(number) !in Calls(trace) && Issued(CallId(number), nextCall)
      ensures
        var body := CapabilityCall(CallId(number), context, leaseId, call.capability, call.input);
        var asked := Send(body, call.writable);
        if !CanWrite(call.writable) || frame.None?
        then asked.Fail().Valid() && asked.Fail().Phase() == Broken(Phase())
        else if AnswerTo(CallId(number), frame).Some?
        then asked.Accept(frame.value).Valid() && asked.Accept(frame.value).Phase() == Phase()
        else asked.Accept(frame.value).Fail().Valid() && asked.Accept(frame.value).Fail().Phase() == Broken(Phase())
    {
      hide Wire.Valid, Replay;
      var body := CapabilityCall(CallId(number), context, leaseId, call.capability, call.input);
      SendKeeps(body, call.writable);
      var asked := Send(body, call.writable);
      if !CanWrite(call.writable) || frame.None? {
        asked.FailKeeps();
      } else {
        asked.AcceptKeeps(frame.value);
        asked.Accept(frame.value).FailKeeps();
      }
    }
  }

  /** Both happen in one export: a call that cannot be written fails, the guest calls once more, and that call is
      written under the number after the one that was lost. */
  lemma GapIsReachable(identity: Identity, leaseId: string, lost: GuestCall, written: GuestCall)
    requires !lost.writable && written.writable
    ensures var start := Wire(identity, leaseId, 1, [], 1, [HostMessage(HOST_PROTOCOL_VERSION, identity, 1, Ready)], 1, [true], 1, []);
      var served := start.Accept(start.Stamp(2, InvokeExport("1", "1", "ui.open")));
      var gap := served.Call(Some("1"), lost, None).Fail().Call(Some("1"), written, None).Fail();
      start.Valid() && served.Phase() == Serving("1", "1") && gap.Valid() && !OutboundConsecutive(gap.sent)
  {
    var start := Wire(identity, leaseId, 1, [], 1, [HostMessage(HOST_PROTOCOL_VERSION, identity, 1, Ready)], 1, [true], 1, []);
    assert Bodies(start.sent[1..]) == [];
    var message := start.Stamp(2, InvokeExport("1", "1", "ui.open"));
    start.AcceptKeeps(message);
    var served := start.Accept(message);
    served.CallKeeps(Some("1"), lost, None);
    var failed := served.Call(Some("1"), lost, None).Fail();
    failed.CallKeeps(Some("1"), written, None);
    var gap := failed.Call(Some("1"), written, None).Fail();
    assert gap.frames == [true, false, true];
    gap.OutboundNumbers();
    hide Wire.Valid, Replay, Wire.Call;
  }

  /** What a call of the guest can depend on. */
  datatype Moment = Moment(wire: Wire, inbox: seq<Frame>, clock: int, tokens: real, updatedAt: int, admitted: seq<int>,
                           context: Option<string>, failed: bool)

  /** The answer a call would get at a moment. */
  ghost function AnswerAt(m: Moment, call: GuestCall): Option<Value> {
    if m.wire.Callable(m.context, call) then m.wire.AnswerTo(CallId(m.wire.nextCall), Read(m.inbox)) else None
  }

  /** A call takes the host from one moment to another, and the guest is told `r`. It is refused without any traffic when
      it is too large or over budget; otherwise it is made, and unless the next message answers it the export has failed. */
  ghost predicate Carried(limits: Limits, inputBytes: nat, outputBytes: nat, call: GuestCall, m: Moment, n: Moment,
                          r: Result<Value, WitError>)
    requires limits.Valid()
  {
    && n.clock == m.clock + call.delay && n.context == m.context
    && if |call.input.text| > inputBytes || !Admissible(limits, m.tokens, m.updatedAt, n.clock, m.admitted) then
         r == Err(ResourceExhausted) && n.wire == m.wire && n.inbox == m.inbox && n.failed == m.failed && n.admitted == m.admitted
       else
         && n.admitted == m.admitted + [n.clock]
         && n.inbox == (if m.wire.Callable(m.context, call) && m.inbox != [] then m.inbox[1..] else m.inbox)
         && match AnswerAt(m, call)
            case None => r == Err(Internal) && n.failed && n.wire == m.wire.Call(m.context, call, Read(m.inbox)).Fail()
            case Some(value) =>
              && r == (if |value.text| > outputBytes then Err(ResourceExhausted) else Ok(value))
              && n.failed == m.failed && n.wire == m.wire.Call(m.context, call, Read(m.inbox))
  }

  ghost predicate CarriedOut(limits: Limits, inputBytes: nat, outputBytes: nat, call: GuestCall, m: Moment, n: Moment)
    requires limits.Valid()
  { exists r :: Carried(limits, inputBytes, outputBytes, call, m, n, r) }

  /** All calls of a guest are carried out, one after another. */
  ghost predicate Ran(limits: Limits, inputBytes: nat, outputBytes: nat, calls: seq<GuestCall>, ran: seq<Moment>) {
    && limits.Valid() && |ran| == |calls| + 1
    && forall i | 0 <= i < |calls| :: CarriedOut(limits, inputBytes, outputBytes, calls[i], ran[i], ran[i + 1])
  }

  lemma NothingRan(limits: Limits, inputBytes: nat, outputBytes: nat, m: Moment)
    requires limits.Valid()
    ensures Ran(limits, inputBytes, outputBytes, [], [m])
  {}

  lemma RanOneMore(limits: Limits, inputBytes: nat, outputBytes: nat, calls: seq<GuestCall>, ran: seq<Moment>, call: GuestCall,
                   after: Moment, r: Result<Value, WitError>)
    requires Ran(limits, inputBytes, outputBytes, calls, ran) && Carried(limits, inputBytes, outputBytes, call, ran[|calls|], after, r)
    ensures Ran(limits, inputBytes, outputBytes, calls + [call], ran + [after])
  {
    hide Carried;
    assert CarriedOut(limits, inputBytes, outputBytes, call, ran[|calls|], after);
    var all, more := calls + [call], ran + [after];
    forall i | 0 <= i < |all|
      ensures CarriedOut(limits, inputBytes, outputBytes, all[i], more[i], more[i + 1])
    {
      if i < |calls| {
        assert all[i] == calls[i] && more[i] == ran[i] && more[i + 1] == ran[i + 1];
      }
    }
  }

  /** The guest's calls were carried out in the context of its export, before it was answered and after whatever was
      answered before. */
  ghost predicate RanBetween(limits: Limits, inputBytes: nat, outputBytes: nat, guest: Guest, ran: seq<Moment>,
                             answers: seq<Body>, trace: seq<Step>) {
    && Ran(limits, inputBytes, outputBytes, guest.calls, ran)
    && ran[|guest.calls|].wire.trace <= trace && Answers(ran[|guest.calls|].wire.trace) == answers
  }

  lemma RanBefore(limits: Limits, inputBytes: nat, outputBytes: nat, guest: Guest, ran: seq<Moment>, answers: seq<Body>,
                  trace: seq<Step>, longer: seq<Step>)
    requires RanBetween(limits, inputBytes, outputBytes, guest, ran, answers, trace) && trace <= longer
    ensures RanBetween(limits, inputBytes, outputBytes, guest, ran, answers, longer)
  {
    hide Ran, Answers;
  }

  /** So it was with every guest that gave an answer. */
  ghost predicate AllRan(limits: Limits, inputBytes: nat, outputBytes: nat, guests: nat -> Guest, givers: seq<nat>,
                         runs: seq<seq<Moment>>, first: nat, trace: seq<Step>) {
    && |runs| == |givers| && |Answers(trace)| == first + |givers|
    && forall i | 0 <= i < |runs| ::
      RanBetween(limits, inputBytes, outputBytes, guests(givers[i]), runs[i], Answers(trace)[..first + i], trace)
  }

  lemma NoneRan(limits: Limits, inputBytes: nat, outputBytes: nat, guests: nat -> Guest, trace: seq<Step>)
    ensures AllRan(limits, inputBytes, outputBytes, guests, [], [], |Answers(trace)|, trace)
  {}

  lemma AllRanOneMore(limits: Limits, inputBytes: nat, outputBytes: nat, guests: nat -> Guest, givers: seq<nat>,
                      runs: seq<seq<Moment>>, first: nat, before: seq<Step>, trace: seq<Step>, next: nat, ran: seq<Moment>)
    requires AllRan(limits, inputBytes, outputBytes, guests, givers, runs, first, before) && before <= trace
    requires Answers(before) <= Answers(trace) && |Answers(trace)| == |Answers(before)| + 1
    requires RanBetween(limits, inputBytes, outputBytes, guests(next), ran, Answers(before), trace)
    ensures AllRan(limits, inputBytes, outputBytes, guests, givers + [next], runs + [ran], first, trace)
  {
    hide RanBetween, Answers;
    var all, more := givers + [next], runs + [ran];
    forall i | 0 <= i < |more|
      ensures RanBetween(limits, inputBytes, outputBytes, guests(all[i]), more[i], Answers(trace)[..first + i], trace)
    {
      if i < |runs| {
        assert Answers(trace)[..first + i] == Answers(before)[..first + i];
        RanBefore(limits, inputBytes, outputBytes, guests(givers[i]), runs[i], Answers(before)[..first + i], before, trace);
      } else {
        assert Answers(trace)[..first + i] == Answers(before);
      }
    }
  }

  lemma AllRanStays(limits: Limits, inputBytes: nat, outputBytes: nat, guests: nat -> Guest, givers: seq<nat>,
                    runs: seq<seq<Moment>>, first: nat, before: seq<Step>, trace: seq<Step>)
    requires AllRan(limits, inputBytes, outputBytes, guests, givers, runs, first, before) && before <= trace
    requires Answers(trace) == Answers(before)
    ensures AllRan(limits, inputBytes, outputBytes, guests, givers, runs, first, trace)
  {
    hide RanBetween, Answers;
    forall i | 0 <= i < |runs|
      ensures RanBetween(limits, inputBytes, outputBytes, guests(givers[i]), runs[i], Answers(trace)[..first + i], trace)
    {
      RanBefore(limits, inputBytes, outputBytes, guests(givers[i]), runs[i], Answers(before)[..first + i], before, trace);
    }
  }

  /** A channel begins with its Ready message written, and a full bucket. */
  lemma FirstWire(w: Wire)
    requires w == Wire(w.identity, w.leaseId, w.first, [], w.first, [HostMessage(HOST_PROTOCOL_VERSION, w.identity, 1, Ready)], 1, [true], 1, [])
    ensures w.Valid() && w.Phase() == Idle
  {
    Unfold([], Failure, w.leaseId);
    assert Written(w.trace) == Bodies(w.sent[1..]);
    assert Numbers([true]) == [1] by {
      assert [true][..0] == [];
    }
  }

  lemma FullBudget(limits: Limits, now: int)
    requires limits.Valid()
    ensures BudgetOk(limits, [], limits.burst as real, now, now, [])
  {}

  /** Each answer carries the result of a guest of its own, and they ran in this order. */
  ghost predicate GivenBy(answers: seq<Body>, guests: nat -> Guest, givers: seq<nat>) {
    && |answers| == |givers| && (forall i, j | 0 <= i < j < |givers| :: givers[i] < givers[j])
    && forall i | 0 <= i < |givers| :: Carries(answers[i], guests(givers[i]).result)
  }

  lemma GivenByOneMore(answers: seq<Body>, guests: nat -> Guest, givers: seq<nat>, answer: Body, next: nat)
    requires GivenBy(answers, guests, givers) && (forall i | i in givers :: i < next) && Carries(answer, guests(next).result)
    ensures GivenBy(answers + [answer], guests, givers + [next])
  {
    hide Carries;
    var more, all := givers + [next], answers + [answer];
    forall i | 0 <= i < |more|
      ensures Carries(all[i], guests(more[i]).result)
      ensures forall j | i < j < |more| :: more[i] < more[j]
    {
      if i < |givers| {
        assert all[i] == answers[i] && more[i] == givers[i] && givers[i] in givers;
      }
    }
  }

  /** What one read of the pipe yields. */
  function Read(inbox: seq<Frame>): Option<HostMessage> {
    if inbox != [] && inbox[0].Message? then Some(inbox[0].message) else None
  }

  class ProtocolChannel {
    const identity: Identity
    const leaseId: string
    const limits: Limits
    const inputBytes: nat
    const outputBytes: nat

    /** What the daemon has still to deliver, and what the host has written, its Ready message first. */
    var inbox: seq<Frame>
    var sent: seq<HostMessage>
    var clock: int

    var inboundSequence: nat
    var outboundSequence: nat
    var nextCall: nat
    var failed: bool
    var callTimes: seq<int>
    var callTokens: real
    var tokenUpdatedAt: int
    var currentContext: Option<string>

    ghost const firstInbound: nat
    ghost var accepted: seq<HostMessage>
    ghost var trace: seq<Step>
    ghost var admitted: seq<int>
    /** Every frame that took a sequence number, and whether it could be written. */
    ghost var frames: seq<bool>
    /** The export being served; the host keeps it in a local variable. */
    var request: string

    ghost predicate BudgetValid()
      reads `callTimes, `callTokens, `tokenUpdatedAt, `clock, `admitted
    { BudgetOk(limits, callTimes, callTokens, tokenUpdatedAt, clock, admitted) }

    ghost function Pipes(): Wire
      reads `sent, `inboundSequence, `outboundSequence, `accepted, `frames, `trace, `nextCall
    {
      Wire(identity, leaseId, firstInbound, accepted, inboundSequence, sent, outboundSequence, frames,
           nextCall, trace)
    }

    ghost function Now(): Moment
      reads this
    { Moment(Pipes(), inbox, clock, callTokens, tokenUpdatedAt, admitted, currentContext, failed) }

    /** The frame that took the last number was not written. */
    ghost predicate LastIsLost()
      reads `frames
    { frames != [] && !frames[|frames| - 1] }

    /** Where the fields say the protocol stands when no call is under way. */
    ghost function Settled(): Phase
      reads `currentContext, `failed, `request
    {
      match (currentContext, failed)
      case (None, false) => Idle
      case (None, true) => Spoiled
      case (Some(context), false) => Serving(request, context)
      case (Some(context), true) => Abandoned(request, context)
    }

    ghost predicate Valid()
      reads this
    { BudgetValid() && AtRest() }

    constructor (identity: Identity, leaseId: string, limits: Limits, inputBytes: nat, outputBytes: nat,
                 bootstrapSequence: nat, inbox: seq<Frame>, now: int)
      requires limits.Valid()
      ensures Valid() && currentContext.None? && !failed
      ensures this.identity == identity && this.leaseId == leaseId && this.limits == limits
      ensures this.inbox == inbox && firstInbound == bootstrapSequence && clock == now
      ensures |sent| == 1 && accepted == [] && trace == [] && admitted == [] && frames == [true]
    {
      this.identity, this.leaseId, this.limits := identity, leaseId, limits;
      this.inputBytes, this.outputBytes := inputBytes, outputBytes;
      this.inbox, this.clock := inbox, now;
      hide Wire.Valid, Replay, BudgetOk;
      sent := [HostMessage(HOST_PROTOCOL_VERSION, identity, 1, Ready)];
      inboundSequence, outboundSequence, nextCall, failed := bootstrapSequence, 1, 1, false;
      callTimes, callTokens, tokenUpdatedAt := [], limits.burst as real, now;
      currentContext := None;
      firstInbound, accepted, trace, admitted, frames := bootstrapSequence, [], [], [], [true];
      request := "";
      new;
      FirstWire(Pipes());
      FullBudget(limits, now);
    }

    /** Takes the next frame off the pipe; nothing left, or a frame that does not decode, is a failure. */
    method ReadMessage() returns (r: Option<HostMessage>)
      modifies `inbox
      ensures r == Read(old(inbox))
      ensures inbox == if old(inbox) == [] then [] else old(inbox)[1..]
    {
      if inbox == [] {
        return None;
      }
      var frame := inbox[0];
      inbox := inbox[1..];
      r := match frame case Message(m) => Some(m) case Malformed => None;
    }

    method ValidateInbound(message: HostMessage) returns (ok: bool)
      modifies `inboundSequence, `accepted, `trace
      ensures ok == old(Pipes()).Expects(message)
      ensures Pipes() == old(Pipes()).Accept(message)
    {
      if message.version != HOST_PROTOCOL_VERSION || message.identity != identity
         || message.sequence != Successor(inboundSequence)
      {
        return false;
      }
      inboundSequence := message.sequence;
      accepted := accepted + [message];
      trace := trace + [In(message.body)];
      return true;
    }

    /** Writes one message under the next sequence number, unless it overflows or the pipe refuses it. */
    method Send(body: Body, writable: bool) returns (ok: bool)
      modifies `outboundSequence, `sent, `trace, `frames
      ensures ok == old(Pipes()).CanWrite(writable)
      ensures Pipes() == old(Pipes()).Send(body, writable)
    {
      if outboundSequence + 1 >= U64 {
        return false;
      }
      outboundSequence := outboundSequence + 1;
      if !writable {
        frames := frames + [false];
        return false;
      }
      frames := frames + [true];
      sent := sent + [HostMessage(HOST_PROTOCOL_VERSION, identity, outboundSequence, body)];
      trace := trace + [Out(body)];
      return true;
    }

    /** Drops what has left the window from the front of the deque. */
    method ExpireCalls()
      modifies `callTimes
      ensures callTimes == Live(old(callTimes), clock, limits.Window())
    {
      while callTimes != [] && clock - callTimes[0] >= limits.Window()
        invariant Live(callTimes, clock, limits.Window()) == Live(old(callTimes), clock, limits.Window())
        decreases |callTimes|
      {
        callTimes := callTimes[1..];
      }
    }

    /** Both limits of a capability call. */
    method ConsumeCallBudget() returns (ok: bool)
      requires limits.Valid() && BudgetValid()
      modifies `callTimes, `callTokens, `tokenUpdatedAt, `admitted
      ensures BudgetValid()
      ensures ok == old(Admissible(limits, callTokens, tokenUpdatedAt, clock, admitted))
      ensures admitted == if ok then old(admitted) + [clock] else old(admitted)
    {
      hide BudgetOk, Refilled;
      BudgetSteps(limits, callTimes, callTokens, tokenUpdatedAt, clock, admitted);
      ExpireCalls();
      if |callTimes| >= limits.callsPerWindow {
        return false;
      }
      callTokens := Refilled(limits, callTokens, tokenUpdatedAt, clock);
      tokenUpdatedAt := clock;
      if callTokens < 1.0 {
        return false;
      }
      callTokens := callTokens - 1.0;
      callTimes := callTimes + [clock];
      admitted := admitted + [clock];
      return true;
    }

    /** Writes a call under a fresh identifier and takes the daemon's answer from the very next message.
        Without an export to serve there is no context to name, and nothing is written. */
    method CapabilityInner(call: GuestCall) returns (r: Option<Value>)
      modifies `inbox, `inboundSequence, `accepted, `trace, `outboundSequence, `sent, `frames, `nextCall
      ensures var before := old(Pipes());
        var callable := before.Callable(currentContext, call);
        && Pipes() == before.Call(currentContext, call, Read(old(inbox)))
        && r == (if callable then before.AnswerTo(CallId(before.nextCall), Read(old(inbox))) else None)
        && inbox == if callable && old(inbox) != [] then old(inbox)[1..] else old(inbox)
    {
      if nextCall + 1 >= U64 {
        return None;
      }
      var callId := CallId(nextCall);
      nextCall := nextCall + 1;
      if currentContext.None? {
        return None;
      }
      var written := Send(CapabilityCall(callId, currentContext.value, leaseId, call.capability, call.input),
                          call.writable);
      if !written {
        return None;
      }
      var message := ReadMessage();
      if message.None? {
        return None;
      }
      var valid := ValidateInbound(message.value);
      if !valid {
        return None;
      }
      match message.value.body {
        case CapabilityResult(responseId, result, error) =>
          if responseId != callId {
            return None;
          }
          match (result, error) {
            case (Some(value), None) => return Some(value);
            case (None, Some(code)) => return Some(ErrorObject(code));
            case _ => return None;
          }
        case _ => return None;
      }
    }

    ghost predicate AtRest()
      reads `sent, `inboundSequence, `outboundSequence, `accepted, `frames, `trace, `nextCall
      reads `currentContext, `failed, `request
    { Pipes().Valid() && Pipes().Phase() == Settled() }

    /** The answer a call would get now. */
    ghost function Answer(call: GuestCall): Option<Value>
      reads this
    {
      if Pipes().Callable(currentContext, call)
      then Pipes().AnswerTo(CallId(nextCall), Read(inbox)) else None
    }

    /** The message a call writes. */
    ghost function CallMessage(call: GuestCall): HostMessage
      requires currentContext.Some?
      reads this
    { Pipes().Stamp(outboundSequence + 1, Pipes().CallBody(currentContext.value, call)) }

    /** Makes an admitted call; one that is not answered fails the whole export. */
    method PerformCall(call: GuestCall) returns (r: Option<Value>)
      requires AtRest()
      modifies `inbox, `inboundSequence, `accepted, `trace, `outboundSequence, `sent, `frames, `nextCall, `failed
      ensures AtRest()
      ensures r == old(Answer(call)) && failed == (old(failed) || r.None?)
      ensures |inbox| <= |old(inbox)| && old(trace) <= trace
      ensures inbox == if old(Pipes()).Callable(currentContext, call) && old(inbox) != [] then old(inbox)[1..] else old(inbox)
      ensures var called := old(Pipes()).Call(currentContext, call, Read(old(inbox))); Pipes() == if r.None? then called.Fail() else called
      ensures r.Some? ==> inbox == old(inbox)[1..] && currentContext.Some?
      ensures r.Some? ==> sent == old(sent + [CallMessage(call)])
      ensures r.Some? ==> OneMoreCall(call, currentContext, leaseId, old(sent), sent, old(accepted), accepted, r.value)
      ensures Answers(trace) == old(Answers(trace))
    {
      hide Wire.Valid, Replay, Answers, OneMoreCall, Wire.Call, Wire.Callable, Wire.AnswerTo;
      ghost var before := Pipes();
      before.CallKeeps(currentContext, call, Read(inbox));
      before.CallAnswersNothing(currentContext, call, Read(inbox));
      before.CallGrows(currentContext, call, Read(inbox));
      if before.Callable(currentContext, call) && before.AnswerTo(CallId(nextCall), Read(inbox)).Some? {
        before.AnsweredIsFaithful(currentContext, call, Read(inbox));
      }
      r := CapabilityInner(call);
      if r.None? {
        failed := true;
        trace := trace + [Failure];
        assert Pipes() == before.Call(currentContext, call, Read(old(inbox))).Fail();
      }
    }

    /** A guest's call. It is refused without any traffic when it is too large or over budget; otherwise it
        succeeds exactly when it is written and the next message answers it, and anything else fails
        the whole export. */
    method Capability(call: GuestCall) returns (r: Result<Value, WitError>)
      requires limits.Valid() && Valid()
      modifies this
      ensures Valid() && clock == old(clock) + call.delay
      ensures currentContext == old(currentContext) && request == old(request)
      ensures |inbox| <= |old(inbox)| && (old(failed) ==> failed) && old(trace) <= trace
      ensures Carried(limits, inputBytes, outputBytes, call, old(Now()), Now(), r)
      ensures r.Ok? ==> OneMoreCall(call, currentContext, leaseId, old(sent), sent, old(accepted), accepted, r.value)
      ensures Answers(trace) == old(Answers(trace))
    {
      hide BudgetOk, AtRest, Answers, OneMoreCall;
      BudgetWaits(limits, callTimes, callTokens, tokenUpdatedAt, clock, admitted, clock + call.delay);
      clock := clock + call.delay;
      if |call.input.text| > inputBytes {
        return Err(ResourceExhausted);
      }
      var affordable := ConsumeCallBudget();
      if !affordable {
        return Err(ResourceExhausted);
      }
      var answer := PerformCall(call);
      r := match answer
        case None => Err(Internal)
        case Some(value) => if |value.text| > outputBytes then Err(ResourceExhausted) else Ok(value);
    }

    /** Everything a guest calls during one export, or while it is instantiated. */
    method RunGuest(calls: seq<GuestCall>) returns (ghost ran: seq<Moment>)
      requires limits.Valid() && Valid()
      modifies this
      ensures Valid() && currentContext == old(currentContext) && request == old(request)
      ensures |inbox| <= |old(inbox)| && (old(failed) ==> failed) && Answers(trace) == old(Answers(trace)) && old(trace) <= trace
      ensures Ran(limits, inputBytes, outputBytes, calls, ran) && ran[0] == old(Now()) && ran[|calls|] == Now()
    {
      hide BudgetOk, AtRest, Answers, OneMoreCall, Carried, Ran;
      ran := [Now()];
      NothingRan(limits, inputBytes, outputBytes, Now());
      for i := 0 to |calls|
        invariant Answers(trace) == old(Answers(trace)) && old(trace) <= trace
        invariant Valid() && currentContext == old(currentContext) && request == old(request)
        invariant |inbox| <= |old(inbox)| && (old(failed) ==> failed)
        invariant Ran(limits, inputBytes, outputBytes, calls[..i], ran) && |ran| == i + 1 && ran[0] == old(Now()) && ran[i] == Now()
      {
        var answer := Capability(calls[i]);
        RanOneMore(limits, inputBytes, outputBytes, calls[..i], ran, calls[i], Now(), answer);
        assert calls[..i] + [calls[i]] == calls[..i + 1];
        ran := ran + [Now()];
      }
      assert calls[..|calls|] == calls;
    }

    /** Serves one export: prepares and runs the guest, and replies unless a call of its failed. */
    method ServeExport(requestId: string, contextId: string, exportName: string, guest: Guest)
      returns (stop: Option<Stop>, ghost ran: seq<Moment>)
      requires limits.Valid() && BudgetValid() && Pipes().Valid() && currentContext.None?
      requires exportName in EXPORTS ==>
        Pipes().Phase() == if failed then Abandoned(requestId, contextId) else Serving(requestId, contextId)
      modifies this
      ensures BudgetValid() && Pipes().Valid() && |inbox| <= |old(inbox)|
      ensures stop.None? ==> Valid() && currentContext.None? && !failed && exportName in EXPORTS
      ensures stop.Some? ==> stop.value in {NotPrepared, UnknownExport, CapabilityFailed, ReplyNotWritten}
      ensures stop == Some(NotPrepared) <==> !guest.prepared
      ensures stop == Some(UnknownExport) <==> guest.prepared && exportName !in EXPORTS
      ensures stop == Some(NotPrepared) || stop == Some(UnknownExport) ==> Pipes() == old(Pipes()) && failed == old(failed)
      ensures stop == Some(CapabilityFailed) <==> guest.prepared && exportName in EXPORTS && failed
      ensures stop == Some(CapabilityFailed) ==> Pipes().Phase() == Abandoned(requestId, contextId)
      ensures stop.Some? ==> Answers(trace) == old(Answers(trace))
      ensures stop.None? ==> OneMoreAnswer(old(Answers(trace)), Answers(trace), requestId, guest.result)
      ensures guest.prepared && exportName in EXPORTS ==>
        RanBetween(limits, inputBytes, outputBytes, guest, ran, old(Answers(trace)), trace) && ran[0] == old(Now()).(context := Some(contextId))
      ensures old(trace) <= trace
      ensures stop == Some(ReplyNotWritten) ==> (LastIsLost() || outboundSequence + 1 >= U64) && Pipes().Phase() == Serving(requestId, contextId)
    {
      hide BudgetOk, Wire.Valid, Replay, Answers, OneMoreAnswer, Ran;
      ran := [];
      currentContext := Some(contextId);
      request := requestId;
      if !guest.prepared {
        return Some(NotPrepared), ran;
      }
      if exportName !in EXPORTS {
        return Some(UnknownExport), ran;
      }
      ran := RunGuest(guest.calls);
      if failed {
        return Some(CapabilityFailed), ran;
      }
      stop := Reply(guest);
    }

    /** Writes the result of the export being served; the context is cleared first. */
    method Reply(guest: Guest) returns (stop: Option<Stop>)
      requires AtRest() && currentContext.Some? && !failed
      modifies `currentContext, `sent, `outboundSequence, `frames, `trace
      ensures Pipes().Valid() && currentContext.None?
      ensures stop.None? ==> AtRest()
      ensures old(trace) <= trace
      ensures stop.Some? ==> stop.value == ReplyNotWritten && (LastIsLost() || outboundSequence + 1 >= U64)
      ensures stop.Some? ==> Pipes().Phase() == Serving(request, old(currentContext).value)
      ensures stop.Some? ==> Answers(trace) == old(Answers(trace))
      ensures stop.None? ==> OneMoreAnswer(old(Answers(trace)), Answers(trace), request, guest.result)
    {
      hide Wire.Valid, Replay, Answers;
      var body := match guest.result
        case Ok(value) => ExportResult(request, Some(value), None)
        case Err(code) => ExportResult(request, None, Some(code));
      currentContext := None;
      Unfold(trace, Out(body), leaseId);
      Pipes().SendKeeps(body, guest.writable);
      var written := Send(body, guest.writable);
      stop := if written then None else Some(ReplyNotWritten);
    }

    /** How the serving of a message ends. The last clause of an export says when its reply cannot be written. */
    ghost predicate StopsFor(body: Body, guest: Guest, stop: Option<Stop>)
      reads `failed, `outboundSequence, `frames
    {
      match body
      case InvokeExport(_, _, exportName) =>
        && (stop == Some(NotPrepared) <==> !guest.prepared)
        && (stop == Some(UnknownExport) <==> guest.prepared && exportName !in EXPORTS)
        && (stop == Some(CapabilityFailed) <==> guest.prepared && exportName in EXPORTS && failed)
        && (stop.Some? ==> stop.value in {NotPrepared, UnknownExport, CapabilityFailed, ReplyNotWritten})
        && (stop == Some(ReplyNotWritten) ==> LastIsLost() || outboundSequence + 1 >= U64)
      case RevokeLease(lease) => stop == if lease == leaseId then None else Some(ForeignLease)
      case Shutdown => stop == Some(ShutDown)
      case _ => stop == Some(UnexpectedMessage)
    }

    lemma StopIsAboutMessage(body: Body, guest: Guest, stop: Option<Stop>)
      requires StopsFor(body, guest, stop)
      ensures stop != Some(ReadFailed) && stop != Some(OutOfSequence)
    {}

    /** A message that is dealt with is answered only if it is an export, with what its guest gave. */
    ghost predicate AnsweredFor(body: Body, guest: Guest, before: seq<Body>, ran: seq<Moment>)
      reads `trace
    {
      if body.InvokeExport? then
        && OneMoreAnswer(before, Answers(trace), body.requestId, guest.result)
        && RanBetween(limits, inputBytes, outputBytes, guest, ran, before, trace) && ran[0].context == Some(body.contextId)
      else Answers(trace) == before
    }

    /** The host may end between two messages. */
    lemma RestEnds()
      requires AtRest() && currentContext.None?
      ensures Ended(ReadFailed) && Ended(OutOfSequence)
      ensures Pipes().Phase() == if failed then Spoiled else Idle
    {
      hide Wire.Valid, Replay;
    }

    lemma AnsweredOnce(body: Body, guest: Guest, before: seq<Body>, ran: seq<Moment>)
      requires AnsweredFor(body, guest, before, ran)
      ensures Answers(trace) != before ==>
        && |Answers(trace)| == |before| + 1 && before <= Answers(trace) && Carries(Answers(trace)[|before|], guest.result)
        && RanBetween(limits, inputBytes, outputBytes, guest, ran, before, trace)
    {
      hide RanBetween, Answers, Carries;
    }

    /** Takes one message off the pipe and does what it asks for. */
    method ServeMessage(guest: Guest) returns (stop: Option<Stop>, ghost ran: seq<Moment>)
      requires limits.Valid() && Valid() && currentContext.None?
      modifies this
      ensures BudgetValid() && Pipes().Valid() && (stop.None? ==> Valid() && currentContext.None?)
      ensures stop.None? ==> |inbox| < |old(inbox)|
      ensures stop.Some? ==> Ended(stop.value)
      ensures stop == Some(ReadFailed) <==> Read(old(inbox)).None?
      ensures stop == Some(OutOfSequence) <==> Read(old(inbox)).Some? && !old(Pipes()).Expects(Read(old(inbox)).value)
      ensures Read(old(inbox)).Some? && old(Pipes()).Expects(Read(old(inbox)).value) ==> StopsFor(Read(old(inbox)).value.body, guest, stop)
      ensures stop.None? ==> AnsweredFor(Read(old(inbox)).value.body, guest, old(Answers(trace)), ran)
      ensures old(trace) <= trace
      ensures stop.Some? ==> Answers(trace) == old(Answers(trace))
    {
      hide BudgetOk, Wire.Valid, Replay, Next, Answers, StopsFor, AnsweredFor, Ended, Wire.Accept;
      ran := [];
      RestEnds();
      var message := ReadMessage();
      if message.None? {
        RestEnds();
        return Some(ReadFailed), ran;
      }
      Pipes().AcceptAdds(message.value);
      Pipes().AcceptKeeps(message.value);
      Unfold(trace, In(message.value.body), leaseId);
      var valid := ValidateInbound(message.value);
      if !valid {
        RestEnds();
        return Some(OutOfSequence), ran;
      }
      stop, ran := Dispatch(message.value.body, guest);
      StopIsAboutMessage(message.value.body, guest, stop);
    }

    /** Does what the message just accepted asks for. */
    method Dispatch(body: Body, guest: Guest) returns (stop: Option<Stop>, ghost ran: seq<Moment>)
      requires limits.Valid() && BudgetValid() && Pipes().Valid() && currentContext.None?
      requires accepted != [] && accepted[|accepted| - 1].body == body
      requires Pipes().Phase() == Next(if failed then Spoiled else Idle, In(body), leaseId)
      modifies this
      ensures BudgetValid() && Pipes().Valid() && (stop.None? ==> Valid() && currentContext.None?)
      ensures |inbox| <= |old(inbox)|
      ensures stop.Some? ==> Ended(stop.value)
      ensures StopsFor(body, guest, stop) && (stop.None? ==> AnsweredFor(body, guest, old(Answers(trace)), ran))
      ensures old(trace) <= trace
      ensures stop.Some? ==> Answers(trace) == old(Answers(trace))
    {
      hide BudgetOk, Wire.Valid, Replay, Answers, RanBetween;
      ran := [];
      match body {
        case InvokeExport(requestId, contextId, exportName) =>
          if currentContext.Some? {
            return Some(NestedExport), ran;
          }
          stop, ran := ServeExport(requestId, contextId, exportName, guest);
        case RevokeLease(lease) =>
          stop := if lease != leaseId then Some(ForeignLease) else None;
        case Shutdown =>
          stop := Some(ShutDown);
        case _ =>
          stop := Some(UnexpectedMessage);
      }
    }

    /** What holds when the host stops: no export is left unanswered, unless its guest could not be prepared, a call
        of its failed or its reply could not be written. An export never arrives while another is being served. */
    ghost predicate Ended(stop: Stop)
      reads this
    {
      match stop
      case NestedExport => false
      case NotPrepared => if failed then Pipes().Phase().Abandoned? || Pipes().Phase().Stopped?
                          else Pipes().Phase().Serving? || Pipes().Phase().Stopped?
      case CapabilityFailed => failed && Pipes().Phase().Abandoned?
      case ReplyNotWritten => (LastIsLost() || outboundSequence + 1 >= U64) && Pipes().Phase().Serving?
      case ShutDown =>
        Pipes().Phase().Stopped? && accepted != [] && accepted[|accepted| - 1].body.Shutdown?
      case _ => Resting(Pipes().Phase()) || Pipes().Phase().Stopped?
    }

    /** Serves the daemon until something ends the host. Each answer is what one guest gave, in the order they ran,
        and `givers` says which; `runs` are the moments of its calls. All this against every inbox and every guest. */
    method EventLoop(guests: nat -> Guest) returns (stop: Stop, ghost givers: seq<nat>, ghost runs: seq<seq<Moment>>)
      requires limits.Valid() && Valid() && currentContext.None?
      modifies this
      ensures BudgetValid() && Pipes().Valid() && Ended(stop)
      ensures old(Answers(trace)) <= Answers(trace) && GivenBy(Answers(trace)[|old(Answers(trace))|..], guests, givers)
      ensures AllRan(limits, inputBytes, outputBytes, guests, givers, runs, |old(Answers(trace))|, trace)
    {
      hide BudgetOk, Wire.Valid, Replay, Answers, RanBetween, AllRan, AnsweredFor;
      var served := 0;
      givers, runs := [], [];
      ghost var first := |Answers(trace)|;
      NoneRan(limits, inputBytes, outputBytes, guests, trace);
      while true
        invariant Valid() && currentContext.None? && (forall i | i in givers :: i < served)
        invariant old(Answers(trace)) <= Answers(trace) && GivenBy(Answers(trace)[|old(Answers(trace))|..], guests, givers)
        invariant AllRan(limits, inputBytes, outputBytes, guests, givers, runs, first, trace) && first == |old(Answers(trace))|
        decreases |inbox|
      {
        ghost var before, traced, message := Answers(trace), trace, Read(inbox);
        var ended, ran := ServeMessage(guests(served));
        if ended.Some? {
          AllRanStays(limits, inputBytes, outputBytes, guests, givers, runs, first, traced, trace);
          return ended.value, givers, runs;
        }
        AnsweredOnce(message.value.body, guests(served), before, ran);
        if before == Answers(trace) {
          AllRanStays(limits, inputBytes, outputBytes, guests, givers, runs, first, traced, trace);
        } else {
          AllRanOneMore(limits, inputBytes, outputBytes, guests, givers, runs, first, traced, trace, served, ran);
          GivenByOneMore(before[|old(Answers(trace))|..], guests, givers, Answers(trace)[|before|], served);
          assert Answers(trace) == before + [Answers(trace)[|before|]];
          assert Answers(trace)[|old(Answers(trace))|..] == before[|old(Answers(trace))|..] + [Answers(trace)[|before|]];
          givers, runs := givers + [served], runs + [ran];
        }
        served := served + 1;
      }
    }

    /** In every reachable state the admitted calls, over the host's whole life, respect both limits in
        every interval. */
    lemma HistoryWithinLimits(start: int, duration: nat)
      requires BudgetValid()
      ensures limits.Valid()
      ensures CountIn(admitted, start, start + limits.Window()) <= limits.callsPerWindow
      ensures CountIn(admitted, start, start + duration) as real <= Allowance(limits, duration)
    {
      WindowBound(admitted, limits.callsPerWindow, limits.Window(), start);
      RateBound(admitted, limits, start, duration);
    }
  }
}
