/**
 The run state machine (crates/ao-next-core/src/terminal.rs) and the checked token counters
 (crates/ao-next-core/src/adapter.rs).
 */
module RunLifecycle {
  import opened Words
  import opened Wrappers

  datatype RunState =
    Received | Validated | Running | Verifying | Passed | Failed | Denied | Interrupted

  predicate Permitted(from: RunState, to: RunState) {
    match from
    case Received => to == Validated
    case Validated => to == Running || to == Failed || to == Denied
    case Running => to == Verifying || to == Failed || to == Denied || to == Interrupted
    case Verifying => to == Running || to == Passed || to == Failed || to == Interrupted
    case _ => false
  }

  predicate IsTerminal(s: RunState) {
    s == Passed || s == Failed || s == Denied || s == Interrupted
  }

  class Lifecycle {
    var state: RunState

    constructor ()
      ensures state == Received
    {
      state := Received;
    }

    /** Takes one permitted edge, or refuses and leaves the state alone. */
    method Transition(to: RunState) returns (ok: bool)
      modifies this
      ensures ok <==> Permitted(old(state), to)
      ensures state == if ok then to else old(state)
    {
      ok := match state
        case Received => to.Validated?
        case Validated => to.Running? || to.Failed? || to.Denied?
        case Running => to.Verifying? || to.Failed? || to.Denied? || to.Interrupted?
        case Verifying => to.Running? || to.Passed? || to.Failed? || to.Interrupted?
        case _ => false;
      if ok { state := to; }
    }
  }

  /** A walk through permitted edges. */
  predicate Walk(path: seq<RunState>) {
    forall i | 0 <= i < |path| - 1 :: Permitted(path[i], path[i + 1])
  }

  /**
   A run passes only out of verification, every visit to verification comes out of running,
   and nothing follows a terminal state.
   */
  lemma {:induction false} WalksAreDisciplined(path: seq<RunState>, i: nat)
    requires path != [] && path[0] == Received && Walk(path) && i < |path|
    ensures path[i] == Passed ==> i >= 4 && path[i - 1] == Verifying && path[i - 2] == Running
    ensures path[i] == Verifying ==> i >= 3 && path[i - 1] == Running
    ensures path[i] == Running ==> i >= 2
    ensures path[i] == Validated ==> i == 1
    ensures path[i] == Received ==> i == 0
    ensures IsTerminal(path[i]) ==> i == |path| - 1
  {
    if i > 0 {
      WalksAreDisciplined(path, i - 1);
      assert Permitted(path[i - 1], path[i]);
    }
    if i < |path| - 1 { assert Permitted(path[i], path[i + 1]); }
  }

  // ----- token usage -----

  datatype Usage = Usage(
    inputTokens: nat, cachedInputTokens: nat, reasoningTokens: nat, outputTokens: nat, outputBytes: nat)

  const NO_USAGE: Usage := Usage(0, 0, 0, 0, 0)

  function Plus(a: Usage, b: Usage): Usage {
    Usage(a.inputTokens + b.inputTokens, a.cachedInputTokens + b.cachedInputTokens,
          a.reasoningTokens + b.reasoningTokens, a.outputTokens + b.outputTokens,
          a.outputBytes + b.outputBytes)
  }

  function TotalTokens(u: Usage): nat {
    u.inputTokens + u.cachedInputTokens + u.reasoningTokens + u.outputTokens
  }

  predicate Representable(u: Usage) {
    && u.inputTokens <= U64_MAX && u.cachedInputTokens <= U64_MAX
    && u.reasoningTokens <= U64_MAX && u.outputTokens <= U64_MAX && u.outputBytes <= U64_MAX
  }

  /** The chain of checked additions succeeds exactly when the true total fits 64 bits. */
  function CheckedTotalTokens(u: Usage): (r: Option<nat>)
    ensures r.Some? <==> TotalTokens(u) <= U64_MAX
    ensures r.Some? ==> r.value == TotalTokens(u)
  {
    var first := CheckedAdd(u.inputTokens, u.cachedInputTokens);
    if first.None? then None
    else
      var second := CheckedAdd(first.value, u.reasoningTokens);
      if second.None? then None else CheckedAdd(second.value, u.outputTokens)
  }

  class TokenUsage {
    var inputTokens: nat
    var cachedInputTokens: nat
    var reasoningTokens: nat
    var outputTokens: nat
    var outputBytes: nat

    function Value(): Usage
      reads this
    {
      Usage(inputTokens, cachedInputTokens, reasoningTokens, outputTokens, outputBytes)
    }

    constructor ()
      ensures Value() == NO_USAGE
    {
      inputTokens, cachedInputTokens, reasoningTokens, outputTokens, outputBytes := 0, 0, 0, 0, 0;
    }

    /** Adds all five counters, or on any overflow none of them. */
    method CheckedAccumulate(other: Usage) returns (ok: bool)
      modifies this
      ensures ok <==> Representable(Plus(old(Value()), other))
      ensures Value() == if ok then Plus(old(Value()), other) else old(Value())
    {
      var input := CheckedAdd(inputTokens, other.inputTokens);
      if input.None? { return false; }
      var cached := CheckedAdd(cachedInputTokens, other.cachedInputTokens);
      if cached.None? { return false; }
      var reasoning := CheckedAdd(reasoningTokens, other.reasoningTokens);
      if reasoning.None? { return false; }
      var output := CheckedAdd(outputTokens, other.outputTokens);
      if output.None? { return false; }
      var bytes := CheckedAdd(outputBytes, other.outputBytes);
      if bytes.None? { return false; }
      inputTokens := input.value;
      cachedInputTokens := cached.value;
      reasoningTokens := reasoning.value;
      outputTokens := output.value;
      outputBytes := bytes.value;
      return true;
    }
  }
}
