/** Running a story against a backend: the steps in order, each command sent and each
    expected response compared with the next message received, under a timer. The
    connection is a `Frontend` whose inbound messages are fixed in advance, so a run is
    a function of the steps, those messages and how many sends the connection accepts. */
module StoryRunner {
  import opened Wrappers
  import opened Messages

  /** What the connection holds for the next `Receive`: a decoded message, or a read that
      fails with a reason. */
  datatype Inbound = Deliver(msg: BackendMessage) | ReadFailure(reason: string)

  /** The errors a run reports. */
  datatype RunError =
    | SendFailed
    | ReceiveFailed(reason: string)
    | WrongType(expected: BackendKind, actual: BackendKind)
    | WrongCode(expectedCode: string, actualCode: string)

  /** What one `Receive` gives. `Silent` is a backend with nothing more to send: the Go
      call blocks for ever. */
  datatype Received = Got(msg: BackendMessage) | Failed(reason: string) | Silent

  /** The acceptance rule stated on its own: same kind, and an ErrorResponse code that is
      either left open or equal. */
  predicate Accepts(expected: BackendMessage, actual: BackendMessage)
  {
    actual.kind == expected.kind
    && (expected.kind == ErrorResponse ==> expected.code == "" || expected.code == actual.code)
  }

  /** The comparison of a `<-` step: the message must be of the expected kind, and for an
      ErrorResponse a non-empty expected code must equal the received one. Nothing else
      of the message is compared. */
  function Check(expected: BackendMessage, actual: BackendMessage): (e: Option<RunError>)
    ensures e.None? <==> Accepts(expected, actual)
    ensures e.Some? ==> e.value.WrongType? || e.value.WrongCode?
    ensures e.Some? && e.value.WrongType? ==> e.value.expected == expected.kind && e.value.actual == actual.kind
    ensures e.Some? && e.value.WrongCode? ==> e.value.expectedCode == expected.code && e.value.actualCode == actual.code
  {
    if actual.kind != expected.kind then Some(WrongType(expected.kind, actual.kind))
    else if expected.kind == ErrorResponse && expected.code != "" && expected.code != actual.code
    then Some(WrongCode(expected.code, actual.code))
    else None
  }

  /** Where the step loop stops: after the last step, at the first error, or waiting for
      ever on a silent backend. */
  datatype Outcome = Completed | Stopped(error: RunError) | Stalled

  /** What the step loop does: how it ends, what it sends, how many inbound entries it
      reads. */
  datatype Trace = Trace(outcome: Outcome, sent: seq<FrontendMessage>, consumed: nat)

  /** The step loop of `Story.Run` over `inbound`, on a connection that accepts `writable`
      more sends. A command is sent, failing once no send is accepted; a response step
      receives the next inbound entry and checks it. The first error ends the loop. */
  function Replay(steps: seq<Step>, inbound: seq<Inbound>, writable: nat): (t: Trace)
    ensures t.consumed <= |inbound| && |t.sent| <= writable
  {
    if steps == [] then Trace(Completed, [], 0)
    else
      match steps[0]
      case Command(m) =>
        if writable == 0 then Trace(Stopped(SendFailed), [], 0)
        else
          var t := Replay(steps[1..], inbound, writable - 1);
          Trace(t.outcome, [m] + t.sent, t.consumed)
      case Response(expected) =>
        if inbound == [] then Trace(Stalled, [], 0)
        else
          match inbound[0]
          case ReadFailure(reason) => Trace(Stopped(ReceiveFailed(reason)), [], 1)
          case Deliver(msg) =>
            match Check(expected, msg)
            case Some(e) => Trace(Stopped(e), [], 1)
            case None =>
              var t := Replay(steps[1..], inbound[1..], writable);
              Trace(t.outcome, t.sent, t.consumed + 1)
  }

  /** The end of a run that has already done `sent` and read `consumed` entries. */
  function After(sent: seq<FrontendMessage>, consumed: nat, t: Trace): Trace
  {
    Trace(t.outcome, sent + t.sent, consumed + t.consumed)
  }

  /** The messages of a story's command steps, in order. */
  function Commands(steps: seq<Step>): seq<FrontendMessage>
  {
    if steps == [] then []
    else if steps[0].Command? then [steps[0].message] + Commands(steps[1..])
    else Commands(steps[1..])
  }

  /** The expected messages of a story's response steps, in order. */
  function Expectations(steps: seq<Step>): seq<BackendMessage>
  {
    if steps == [] then []
    else if steps[0].Response? then [steps[0].expected] + Expectations(steps[1..])
    else Expectations(steps[1..])
  }

  /** A backend that sends exactly the given messages. */
  function Script(msgs: seq<BackendMessage>): (inbound: seq<Inbound>)
    ensures |inbound| == |msgs|
    ensures forall i :: 0 <= i < |msgs| ==> inbound[i] == Deliver(msgs[i])
  {
    if msgs == [] then [] else [Deliver(msgs[0])] + Script(msgs[1..])
  }

  /** The `pgproto3.Frontend` a story runs on, with the backend's side fixed in advance:
      `inbound` is what the backend will send, `writable` how many more sends the
      connection accepts, `sent` what has been sent so far. */
  class Frontend {
    var inbound: seq<Inbound>
    var sent: seq<FrontendMessage>
    var writable: nat

    constructor (inbound: seq<Inbound>, writable: nat)
      ensures this.inbound == inbound && this.writable == writable && sent == []
    {
      this.inbound := inbound;
      this.writable := writable;
      sent := [];
    }

    /** `Frontend.Send`: writes `m`, or fails when the connection accepts no more. */
    method Send(m: FrontendMessage) returns (err: Option<RunError>)
      modifies this
      ensures inbound == old(inbound)
      ensures old(writable) == 0 ==> err == Some(SendFailed) && sent == old(sent) && writable == 0
      ensures old(writable) > 0 ==> err == None && sent == old(sent) + [m] && writable == old(writable) - 1
    {
      if writable == 0 {
        return Some(SendFailed);
      }
      sent := sent + [m];
      writable := writable - 1;
      return None;
    }

    /** `Frontend.Receive`: the next inbound entry, consumed. */
    method Receive() returns (r: Received)
      modifies this
      ensures sent == old(sent) && writable == old(writable)
      ensures old(inbound) == [] ==> r == Silent && inbound == []
      ensures old(inbound) != [] ==> inbound == old(inbound)[1..]
      ensures old(inbound) != [] && old(inbound)[0].Deliver? ==> r == Got(old(inbound)[0].msg)
      ensures old(inbound) != [] && old(inbound)[0].ReadFailure? ==> r == Failed(old(inbound)[0].reason)
    {
      if inbound == [] {
        return Silent;
      }
      match inbound[0] {
        case Deliver(msg) => r := Got(msg);
        case ReadFailure(reason) => r := Failed(reason);
      }
      inbound := inbound[1..];
    }
  }

  /** A run on after `sent` and `consumed`, and then on after more, is one run on after both. */
  lemma AfterAfter(sent: seq<FrontendMessage>, consumed: nat, more: seq<FrontendMessage>, extra: nat, t: Trace)
    ensures After(sent, consumed, After(more, extra, t)) == After(sent + more, consumed + extra, t)
  {
    assert sent + (more + t.sent) == (sent + more) + t.sent;
  }

  /** A command step that is sent leaves the rest of the run to the remaining steps. */
  lemma ReplaySend(done: seq<FrontendMessage>, read: nat, steps: seq<Step>, inbound: seq<Inbound>, writable: nat)
    requires steps != [] && steps[0].Command? && writable > 0
    ensures After(done, read, Replay(steps, inbound, writable))
            == After(done + [steps[0].message], read, Replay(steps[1..], inbound, writable - 1))
  {
    AfterAfter(done, read, [steps[0].message], 0, Replay(steps[1..], inbound, writable - 1));
  }

  /** A response step whose check passes consumes one entry and leaves the rest. */
  lemma ReplayMatch(done: seq<FrontendMessage>, read: nat, steps: seq<Step>, inbound: seq<Inbound>, writable: nat)
    requires steps != [] && steps[0].Response? && inbound != [] && inbound[0].Deliver?
    requires Check(steps[0].expected, inbound[0].msg).None?
    ensures After(done, read, Replay(steps, inbound, writable))
            == After(done, read + 1, Replay(steps[1..], inbound[1..], writable))
  {
    var t := Replay(steps[1..], inbound[1..], writable);
    assert Replay(steps, inbound, writable) == Trace(t.outcome, t.sent, t.consumed + 1);
    assert done + t.sent == done + ([] + t.sent);
    AfterAfter(done, read, [], 1, t);
  }

  /** A backend whose first entries answer `exps` in order: each a message the
      corresponding expectation accepts. */
  predicate Answers(exps: seq<BackendMessage>, inbound: seq<Inbound>)
  {
    |exps| <= |inbound| && forall i :: 0 <= i < |exps| ==> inbound[i].Deliver? && Accepts(exps[i], inbound[i].msg)
  }

  /** Answering one more expectation is answering it first and the rest after. */
  lemma AnswersCons(exp: BackendMessage, exps: seq<BackendMessage>, inbound: seq<Inbound>)
    ensures Answers([exp] + exps, inbound)
            <==> inbound != [] && inbound[0].Deliver? && Accepts(exp, inbound[0].msg) && Answers(exps, inbound[1..])
  {
    if inbound != [] && inbound[0].Deliver? && Accepts(exp, inbound[0].msg) && Answers(exps, inbound[1..]) {
      forall i | 0 <= i < |[exp] + exps|
        ensures inbound[i].Deliver? && Accepts(([exp] + exps)[i], inbound[i].msg)
      {
        if i > 0 {
          assert inbound[i] == inbound[1..][i - 1];
        }
      }
    }
    if Answers([exp] + exps, inbound) {
      assert ([exp] + exps)[0] == exp;
      forall i | 0 <= i < |exps|
        ensures inbound[1..][i].Deliver? && Accepts(exps[i], inbound[1..][i].msg)
      {
        assert ([exp] + exps)[i + 1] == exps[i];
      }
    }
  }

  /** A run completes exactly when the connection accepts every command and the backend
      answers every expected response, in order; it then has sent all the commands and
      read one entry per response. Whatever the outcome, what it sent is the commands up
      to where it stopped. */
  lemma {:induction false} ReplayCompletes(steps: seq<Step>, inbound: seq<Inbound>, writable: nat)
    ensures var t := Replay(steps, inbound, writable);
            (t.outcome.Completed? <==> |Commands(steps)| <= writable && Answers(Expectations(steps), inbound))
            && (t.outcome.Completed? ==> t.sent == Commands(steps) && t.consumed == |Expectations(steps)|)
            && t.sent <= Commands(steps)
    decreases |steps|
  {
    if steps != [] {
      var rest := steps[1..];
      match steps[0]
      case Command(m) =>
        assert Commands(steps) == [m] + Commands(rest);
        assert Expectations(steps) == Expectations(rest);
        if writable > 0 {
          ReplayCompletes(rest, inbound, writable - 1);
        }
      case Response(exp) =>
        assert Commands(steps) == Commands(rest);
        assert Expectations(steps) == [exp] + Expectations(rest);
        AnswersCons(exp, Expectations(rest), inbound);
        if inbound != [] && inbound[0].Deliver? {
          ReplayCompletes(rest, inbound[1..], writable);
        }
    }
  }

  /** Against a backend that sends back exactly the expected messages, on a connection
      that accepts every command, a run completes, sending the commands in order and
      reading every message. */
  lemma ReplayScript(steps: seq<Step>, writable: nat)
    requires |Commands(steps)| <= writable
    ensures Replay(steps, Script(Expectations(steps)), writable)
            == Trace(Completed, Commands(steps), |Expectations(steps)|)
  {
    var exps := Expectations(steps);
    assert Answers(exps, Script(exps)) by {
      forall i | 0 <= i < |exps|
        ensures Script(exps)[i].Deliver? && Accepts(exps[i], Script(exps)[i].msg)
      {
      }
    }
    ReplayCompletes(steps, Script(exps), writable);
  }

  /** What `ReplayAppend` states: the run of `a + b` is the run of `a`, continued with `b`
      when that completes. */
  predicate RunsOn(a: seq<Step>, b: seq<Step>, inbound: seq<Inbound>, writable: nat)
  {
    var t := Replay(a, inbound, writable);
    Replay(a + b, inbound, writable)
    == if t.outcome.Completed? then After(t.sent, t.consumed, Replay(b, inbound[t.consumed..], writable - |t.sent|))
       else t
  }

  /** Steps run in order: a run of `a + b` is the run of `a`, and when that completes it
      goes on with `b` on what is left of the connection. A run that stops or stalls in
      `a` sends and reads nothing of `b`. */
  lemma {:induction false} ReplayAppend(a: seq<Step>, b: seq<Step>, inbound: seq<Inbound>, writable: nat)
    ensures RunsOn(a, b, inbound, writable)
    decreases |a|, 1
  {
    if a == [] {
      assert a + b == b;
      assert After([], 0, Replay(b, inbound, writable)) == Replay(b, inbound, writable);
    } else if a[0].Command? && writable > 0 {
      AppendSend(a, b, inbound, writable);
    } else if a[0].Response? && inbound != [] && inbound[0].Deliver? && Check(a[0].expected, inbound[0].msg).None? {
      AppendMatch(a, b, inbound, writable);
    } else {
      assert (a + b)[0] == a[0];
    }
  }

  /** `ReplayAppend` for a first step that is a command the connection accepts. */
  lemma {:induction false} AppendSend(a: seq<Step>, b: seq<Step>, inbound: seq<Inbound>, writable: nat)
    requires a != [] && a[0].Command? && writable > 0
    ensures RunsOn(a, b, inbound, writable)
    decreases |a|, 0
  {
    var m := a[0].message;
    var t := Replay(a, inbound, writable);
    var t' := Replay(a[1..], inbound, writable - 1);
    assert (a + b)[0] == a[0] && (a + b)[1..] == a[1..] + b;
    assert t == After([m], 0, t');
    assert Replay(a + b, inbound, writable) == After([m], 0, Replay(a[1..] + b, inbound, writable - 1));
    ReplayAppend(a[1..], b, inbound, writable - 1);
    if t'.outcome.Completed? {
      AfterAfter([m], 0, t'.sent, t'.consumed, Replay(b, inbound[t'.consumed..], writable - 1 - |t'.sent|));
    }
  }

  /** `ReplayAppend` for a first step that is a response the backend answers. */
  lemma {:induction false} AppendMatch(a: seq<Step>, b: seq<Step>, inbound: seq<Inbound>, writable: nat)
    requires a != [] && a[0].Response? && inbound != [] && inbound[0].Deliver?
    requires Check(a[0].expected, inbound[0].msg).None?
    ensures RunsOn(a, b, inbound, writable)
    decreases |a|, 0
  {
    var t := Replay(a, inbound, writable);
    var t' := Replay(a[1..], inbound[1..], writable);
    var rest := Replay(a[1..] + b, inbound[1..], writable);
    assert (a + b)[0] == a[0] && (a + b)[1..] == a[1..] + b;
    assert t == After([], 1, t') by {
      assert [] + t'.sent == t'.sent;
    }
    assert Replay(a + b, inbound, writable) == After([], 1, rest) by {
      assert [] + rest.sent == rest.sent;
    }
    ReplayAppend(a[1..], b, inbound[1..], writable);
    if t'.outcome.Completed? {
      assert inbound[1..][t'.consumed..] == inbound[t'.consumed + 1..];
      AfterAfter([], 1, t'.sent, t'.consumed, Replay(b, inbound[t'.consumed + 1..], writable - |t'.sent|));
    }
  }

  /** The goroutine of `Story.Run`: the steps in order on `frontend`, stopping at the first
      error. A receive on a silent backend never returns, which is the Stalled outcome. */
  method Drive(steps: seq<Step>, frontend: Frontend) returns (outcome: Outcome)
    modifies frontend
    ensures var t := Replay(steps, old(frontend.inbound), old(frontend.writable));
            outcome == t.outcome
            && frontend.sent == old(frontend.sent) + t.sent
            && frontend.inbound == old(frontend.inbound)[t.consumed..]
            && frontend.writable == old(frontend.writable) - |t.sent|
  {
    ghost var inbound0, sent0, writable0 := frontend.inbound, frontend.sent, frontend.writable;
    ghost var done: seq<FrontendMessage>, read: nat := [], 0;
    ghost var rest := steps;
    var k := 0;
    while k < |steps|
      invariant 0 <= k <= |steps| && rest == steps[k..]
      invariant read <= |inbound0| && |done| <= writable0
      invariant frontend.sent == sent0 + done
      invariant frontend.inbound == inbound0[read..]
      invariant frontend.writable == writable0 - |done|
      invariant Replay(steps, inbound0, writable0)
                == After(done, read, Replay(rest, frontend.inbound, frontend.writable))
      decreases |steps| - k
    {
      assert rest[0] == steps[k] && rest[1..] == steps[k + 1..];
      match steps[k] {
        case Command(m) =>
          if frontend.writable > 0 {
            ReplaySend(done, read, rest, frontend.inbound, frontend.writable);
          }
          var e := frontend.Send(m);
          if e.Some? {
            assert done + [] == done;
            return Stopped(e.value);
          }
          done := done + [m];
        case Response(expected) =>
          ghost var before := frontend.inbound;
          var r := frontend.Receive();
          match r {
            case Silent =>
              assert done + [] == done;
              return Stalled;
            case Failed(reason) =>
              assert done + [] == done;
              return Stopped(ReceiveFailed(reason));
            case Got(msg) =>
              var c := Check(expected, msg);
              if c.Some? {
                assert done + [] == done;
                return Stopped(c.value);
              }
          }
          ReplayMatch(done, read, rest, before, frontend.writable);
          assert inbound0[read..][1..] == inbound0[read + 1..];
          read := read + 1;
      }
      rest := rest[1..];
      k := k + 1;
    }
    assert done + [] == done;
    return Completed;
  }

  /** What `Story.Run` returns for a step loop that ends with `outcome`: the loop's error
      when it reports one before the timer fires, and no error otherwise, so both a
      completed loop and a timeout give none. */
  function RunResult(outcome: Outcome, timerFirst: bool): (err: Option<RunError>)
    ensures err.Some? <==> outcome.Stopped? && !timerFirst
    ensures err.Some? ==> err.value == outcome.error
  {
    if outcome.Stopped? && !timerFirst then Some(outcome.error) else None
  }

  /** `Story.Run`: the step loop raced against the timer. Which of the two reaches the
      `select` first is `timerFirst`; a loop that stalls is always overtaken. */
  method Run(story: Story, frontend: Frontend, timerFirst: bool) returns (err: Option<RunError>)
    modifies frontend
    ensures var t := Replay(story.steps, old(frontend.inbound), old(frontend.writable));
            err == RunResult(t.outcome, timerFirst)
            && frontend.sent == old(frontend.sent) + t.sent
            && frontend.inbound == old(frontend.inbound)[t.consumed..]
            && frontend.writable == old(frontend.writable) - |t.sent|
  {
    var outcome := Drive(story.steps, frontend);
    if outcome.Stopped? && !timerFirst {
      err := Some(outcome.error);
    } else {
      err := None;
    }
  }
}
