/** The heartbeat loop of pkg/runner/runner.go: what a runner sends while and after it works. */
module RunnerHeartbeat {

  datatype Outcome = Fine | ContextCanceled | Failure(message: string)

  /** What the select receives next, with the progress and size loaded then. */
  datatype Input = Tick(progress: int, size: int) | Result(outcome: Outcome, progress: int, size: int) | ContextDone

  datatype Request = Beat(progress: int, size: int) | Complete | Cancel | Fail(message: string)

  predicate Releases(r: Request) { !r.Beat? }

  /** The requests sent on a sequence of inputs, `previous` being the progress sent last,
      or -1 when the next tick is to send whatever it finds. */
  function Sent(inputs: seq<Input>, previous: int): seq<Request> {
    if inputs == [] then []
    else
      match inputs[0]
      case Tick(p, size) =>
        if p == previous then Sent(inputs[1..], -1) else [Beat(p, size)] + Sent(inputs[1..], p)
      case Result(outcome, p, size) =>
        (match outcome
         case Fine => [Beat(p, size), Complete]
         case ContextCanceled => [Cancel]
         case Failure(message) => [Fail(message)])
      case ContextDone => [Cancel]
  }

  method Heartbeat(inputs: seq<Input>) returns (sent: seq<Request>, returned: bool)
    ensures sent == Sent(inputs, -1)
    ensures returned <==> exists k :: 0 <= k < |inputs| && !inputs[k].Tick?
  {
    sent, returned := [], false;
    var prevProgress := -1;
    var i := 0;
    while i < |inputs|
      invariant 0 <= i <= |inputs| && !returned
      invariant forall k | 0 <= k < i :: inputs[k].Tick?
      invariant sent + Sent(inputs[i..], prevProgress) == Sent(inputs, -1)
    {
      assert inputs[i..][1..] == inputs[i + 1..] && inputs[i..][0] == inputs[i];
      match inputs[i] {
        case Tick(p, size) =>
          if prevProgress == p {
            prevProgress := -1;
          } else {
            prevProgress := p;
            sent := sent + [Beat(p, size)];
          }
        case Result(outcome, p, size) =>
          match outcome {
            case Fine => sent := sent + [Beat(p, size), Complete];
            case ContextCanceled => sent := sent + [Cancel];
            case Failure(message) => sent := sent + [Fail(message)];
          }
          return sent, true;
        case ContextDone =>
          return sent + [Cancel], true;
      }
      i := i + 1;
    }
  }

  /** What ends the loop: the last requests, by the first input that is no tick. */
  predicate EndsWith(input: Input, last: seq<Request>) {
    match input
    case Tick(_, _) => last == []
    case Result(outcome, p, size) =>
      (match outcome
       case Fine => last == [Beat(p, size), Complete]
       case ContextCanceled => last == [Cancel]
       case Failure(message) => last == [Fail(message)])
    case ContextDone => last == [Cancel]
  }

  /** What is remembered before tick i: `previous` at first, then the progress of the tick before if that one sent,
      and none, written -1, if it did not. */
  function Remembered(inputs: seq<Input>, sends: seq<bool>, previous: int, i: nat): int
    requires i < |sends| <= |inputs| && forall j | 0 <= j < |sends| :: inputs[j].Tick?
  {
    if i == 0 then previous else if sends[i - 1] then inputs[i - 1].progress else -1
  }

  /** The ticks marked in `sends` are those whose progress differs from the one remembered. */
  predicate Chosen(inputs: seq<Input>, sends: seq<bool>, previous: int)
    requires |sends| <= |inputs| && forall j | 0 <= j < |sends| :: inputs[j].Tick?
  {
    forall i | 0 <= i < |sends| :: sends[i] <==> inputs[i].progress != Remembered(inputs, sends, previous, i)
  }

  /** A beat for each marked tick, in order, with its own progress and size. */
  function Beats(inputs: seq<Input>, sends: seq<bool>): seq<Request>
    requires |sends| <= |inputs| && forall j | 0 <= j < |sends| :: inputs[j].Tick?
  {
    if sends == [] then []
    else (if sends[0] then [Beat(inputs[0].progress, inputs[0].size)] else []) + Beats(inputs[1..], sends[1..])
  }

  lemma ChosenFirst(inputs: seq<Input>, rest: seq<bool>, previous: int)
    requires |rest| < |inputs| && forall j | 0 <= j <= |rest| :: inputs[j].Tick?
    requires Chosen(inputs[1..], rest, if inputs[0].progress != previous then inputs[0].progress else -1)
    ensures Chosen(inputs, [inputs[0].progress != previous] + rest, previous)
  {
    var sends := [inputs[0].progress != previous] + rest;
    var remembered := if inputs[0].progress != previous then inputs[0].progress else -1;
    forall i | 0 <= i < |sends| ensures sends[i] <==> inputs[i].progress != Remembered(inputs, sends, previous, i) {
      if i > 0 {
        assert sends[i] == rest[i - 1] && inputs[i] == inputs[1..][i - 1];
        assert Remembered(inputs, sends, previous, i) == Remembered(inputs[1..], rest, remembered, i - 1);
      }
    }
  }

  /** Exactly what is sent. The ticks whose progress differs from the one remembered send, in order, a beat each with
      their own progress and size. Then comes what the first input that is no tick calls for: after a result without
      error a beat with that result's progress and size and a completion, after an error the failure with its message,
      and a cancellation if the context ended. */
  lemma {:induction false} SentExactly(inputs: seq<Input>, previous: int, k: nat)
    returns (sends: seq<bool>, last: seq<Request>)
    requires k <= |inputs| && (forall j | 0 <= j < k :: inputs[j].Tick?) && (k < |inputs| ==> !inputs[k].Tick?)
    ensures |sends| == k && Chosen(inputs, sends, previous)
    ensures Sent(inputs, previous) == Beats(inputs, sends) + last
    ensures if k == |inputs| then last == [] else EndsWith(inputs[k], last)
  {
    if k == 0 {
      sends, last := [], Sent(inputs, previous);
    } else {
      hide Chosen, EndsWith;
      var first := inputs[0].progress != previous;
      sends, last := SentExactly(inputs[1..], if first then inputs[0].progress else -1, k - 1);
      ChosenFirst(inputs, sends, previous);
      assert ([first] + sends)[1..] == sends;
      sends := [first] + sends;
    }
  }

  /** The loop sends one release request and then returns: it is the last request, the only
      one, and it is a complete exactly when the work ended without an error. */
  lemma {:induction false} ReleasesOnce(inputs: seq<Input>, previous: int, k: nat)
    requires k < |inputs| && !inputs[k].Tick? && forall j | 0 <= j < k :: inputs[j].Tick?
    ensures var sent := Sent(inputs, previous); var n := |sent| - 1;
      && n >= 0 && (forall j | 0 <= j < n :: !Releases(sent[j])) && Releases(sent[n])
      && (sent[n] == Complete <==> inputs[k].Result? && inputs[k].outcome.Fine?)
      && (sent[n].Fail? <==> inputs[k].Result? && inputs[k].outcome.Failure?)
  {
    if k > 0 {
      var next := if inputs[0].progress == previous then -1 else inputs[0].progress;
      ReleasesOnce(inputs[1..], next, k - 1);
    }
  }

  function BeatCount(sent: seq<Request>): nat {
    if sent == [] then 0 else BeatCount(sent[1..]) + if sent[0].Beat? then 1 else 0
  }

  /** A stalled download still heartbeats: of any two ticks in a row at least one sends. */
  lemma {:induction false} KeepsAlive(inputs: seq<Input>, previous: int)
    requires previous >= -1 && forall k | 0 <= k < |inputs| :: inputs[k].Tick? && inputs[k].progress >= 0
    ensures 2 * BeatCount(Sent(inputs, previous)) + (if previous == -1 then 0 else 1) >= |inputs|
  {
    if inputs != [] {
      var p := inputs[0].progress;
      if p == previous {
        KeepsAlive(inputs[1..], -1);
      } else {
        KeepsAlive(inputs[1..], p);
        assert Sent(inputs, previous)[1..] == Sent(inputs[1..], p);
      }
    }
  }
}
