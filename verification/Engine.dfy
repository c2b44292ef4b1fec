/**
 The slice of the agent engine the shared runner loop talks to.

 The engine and the model behind it are not part of this model: what a call answers is read off a
 reply value that the environment picks. The functions below only say how a reply changes the runner.
 */
module Engine {
  import opened Prelude

  datatype Usage = Usage(input: nat, output: nat, cached: nat, requests: nat) {
    function Plus(other: Usage): Usage {
      Usage(input + other.input, output + other.output, cached + other.cached, requests + other.requests)
    }

    predicate IsEmpty() {
      input == 0 && output == 0 && cached == 0 && requests == 0
    }
  }

  const NO_USAGE := Usage(0, 0, 0, 0)

  lemma PlusEmpty(empty: Usage, u: Usage)
    requires empty.IsEmpty()
    ensures empty.Plus(u) == u
  {
  }

  lemma PlusAssoc(a: Usage, b: Usage, c: Usage)
    ensures a.Plus(b).Plus(c) == a.Plus(b.Plus(c))
  {
  }

  lemma NothingMissedIff(recorded: Usage, missed: Usage)
    ensures recorded == recorded.Plus(missed) <==> missed == NO_USAGE
  {
  }

  lemma PlusNothing(x: Usage, y: Usage)
    requires y == NO_USAGE
    ensures x.Plus(y) == x
  {
  }

  lemma SumIsNothing(x: Usage, y: Usage)
    requires x.Plus(y) == NO_USAGE
    ensures x == NO_USAGE && y == NO_USAGE
  {
  }

  lemma NeitherMissedIff(recorded: Usage, x: Usage, y: Usage)
    ensures recorded == recorded.Plus(x.Plus(y)) <==> x == NO_USAGE && y == NO_USAGE
  {
    var missed := x.Plus(y);
    NothingMissedIff(recorded, missed);
    if missed == NO_USAGE {
      SumIsNothing(x, y);
    } else if y == NO_USAGE {
      PlusNothing(x, y);
    }
  }

  datatype Message = Message(role: string, text: string)

  /** Follow-up messages: the compaction continuation, the formation review, and anything else. */
  datatype Prompt = ContinuePrompt | ReviewPrompt | Text(text: string)

  /** A completion runner. `tools` counts the tool invocations accounted so far. */
  datatype Runner = Runner(
    turns: nat,
    total: Usage,
    tools: nat,
    done: bool,
    idle: bool,
    queued: seq<Prompt>)

  /** What the environment answers to `next` on a runner that is not finished. */
  datatype NextReply =
    | NoMore
    | Answered(cost: Usage, used: nat, chat: seq<Message>, failed: Option<string>, done: bool, idle: bool)
    | Broken(spent: Usage, error: string)

  datatype RunnerOutput = RunnerOutput(usage: Usage, chat: seq<Message>, failed: Option<string>)

  /** What the environment answers to `handoff`. A failure strikes either before or after the runner's
      totals were moved into the discarded output. */
  datatype HandoffReply =
    | HandedOff(cost: Usage, used: nat, freshTurns: nat, queued: seq<Prompt>)
    | Refused(error: string)
    | RefusedAfterDrain(error: string)

  datatype HandoffOutput = HandoffOutput(usage: Usage, tools: nat)

  /** A finished runner answers `Ok(None)`; a done or idle output takes the accumulated total with it. */
  function NextStep(r: Runner, reply: NextReply): (Runner, Result<Option<RunnerOutput>, string>) {
    if r.done then (r, Ok(None)) else
    match reply
    case NoMore => (r, Ok(None))
    case Broken(spent, error) => (r.(total := r.total.Plus(spent)), Err(error))
    case Answered(cost, used, chat, failed, done, idle) =>
      var usage := r.total.Plus(cost);
      var kept := if done || idle then NO_USAGE else usage;
      (Runner(r.turns + 1, kept, r.tools + used, done, idle, []), Ok(Some(RunnerOutput(usage, chat, failed))))
  }

  /** The runner left behind by `handoff` (meaningful on failure) and the fresh runner with its output. */
  function HandoffStep(r: Runner, reply: HandoffReply): (Runner, Result<(Runner, HandoffOutput), string>) {
    var drained := r.(total := NO_USAGE, tools := 0);
    match reply
    case HandedOff(cost, used, freshTurns, queued) =>
      (drained, Ok((Runner(freshTurns, NO_USAGE, 0, false, false, queued),
                    HandoffOutput(r.total.Plus(cost), r.tools + used))))
    case Refused(error) => (r, Err(error))
    case RefusedAfterDrain(error) => (drained, Err(error))
  }

  class CompletionRunner {
    var turns: nat
    var total: Usage
    var tools: nat
    var done: bool
    var idle: bool
    var queued: seq<Prompt>

    function View(): Runner
      reads this
    {
      Runner(turns, total, tools, done, idle, queued)
    }

    constructor (r: Runner)
      ensures View() == r
    {
      turns, total, tools := r.turns, r.total, r.tools;
      done, idle, queued := r.done, r.idle, r.queued;
    }

    method Become(r: Runner)
      modifies this
      ensures View() == r
    {
      turns, total, tools := r.turns, r.total, r.tools;
      done, idle, queued := r.done, r.idle, r.queued;
    }

    method Next(reply: NextReply) returns (res: Result<Option<RunnerOutput>, string>)
      modifies this
      ensures (View(), res) == NextStep(old(View()), reply)
    {
      var (r, answer) := NextStep(View(), reply);
      Become(r);
      res := answer;
    }

    method Handoff(reply: HandoffReply) returns (res: Result<(CompletionRunner, HandoffOutput), string>)
      modifies this
      ensures View() == HandoffStep(old(View()), reply).0
      ensures match HandoffStep(old(View()), reply).1
              case Err(e) => res == Err(e)
              case Ok((r, output)) => res.Ok? && fresh(res.value.0) && res.value.0.View() == r && res.value.1 == output
    {
      var (left, answer) := HandoffStep(View(), reply);
      Become(left);
      match answer {
        case Err(e) => res := Err(e);
        case Ok((r, output)) =>
          var compacted := new CompletionRunner(r);
          res := Ok((compacted, output));
      }
    }

    method Accumulate(usage: Usage)
      modifies this`total
      ensures total == old(total).Plus(usage)
    {
      total := total.Plus(usage);
    }

    method AccumulateTools(used: nat)
      modifies this`tools
      ensures tools == old(tools) + used
    {
      tools := tools + used;
    }

    method FollowUp(text: Prompt)
      modifies this`queued
      ensures queued == old(queued) + [text]
    {
      queued := queued + [text];
    }
  }
}
