/** Failure categories and the text they are stored in (src/run/failure.ts, src/run/selection.ts). */
module Failure {
  import opened Wrappers

  datatype FailureCategory =
    | BaselineFailed
    | RedInvalid
    | ClosureViolation
    | TestContractDisputed
    | ProviderConnectivityTimeout
    | ProviderError
    | AgentTimeout
    | AgentFailed
    | SetupTimeout
    | SetupFailed
    | VerificationFailed
    | ReviewBlocked
    | ReviewFailed
    | InvalidChange
    | InternalError

  function Name(c: FailureCategory): string {
    match c
    case BaselineFailed => "baseline_failed"
    case RedInvalid => "red_invalid"
    case ClosureViolation => "closure_violation"
    case TestContractDisputed => "test_contract_disputed"
    case ProviderConnectivityTimeout => "provider_connectivity_timeout"
    case ProviderError => "provider_error"
    case AgentTimeout => "agent_timeout"
    case AgentFailed => "agent_failed"
    case SetupTimeout => "setup_timeout"
    case SetupFailed => "setup_failed"
    case VerificationFailed => "verification_failed"
    case ReviewBlocked => "review_blocked"
    case ReviewFailed => "review_failed"
    case InvalidChange => "invalid_change"
    case InternalError => "internal_error"
  }

  /** The categories after which selection tries the stronger profile. */
  const RETRYABLE: set<FailureCategory> :=
    {AgentFailed, InvalidChange, ClosureViolation, RedInvalid, VerificationFailed, ReviewBlocked}

  const RETRYABLE_NAMES: set<string> :=
    {"agent_failed", "invalid_change", "closure_violation", "red_invalid", "verification_failed", "review_blocked"}

  /** The text before the first `:`, or the whole text when it has none. */
  function UpToColon(text: string): string {
    if text == "" || text[0] == ':' then "" else [text[0]] + UpToColon(text[1..])
  }

  /** The text `failPlan` stores. */
  function FailureText(c: FailureCategory, message: string): string {
    Name(c) + ": " + message
  }

  /** What `nextAttempt` asks of a stored failure. */
  predicate RetryableText(failure: Option<string>) {
    failure.Some? && UpToColon(failure.value) in RETRYABLE_NAMES
  }

  lemma {:induction false} UpToColonOfPrefix(prefix: string, rest: string)
    requires ':' !in prefix
    ensures UpToColon(prefix + ":" + rest) == prefix
  {
    if prefix == "" {
      assert prefix + ":" + rest == ":" + rest;
    } else {
      assert prefix[0] in prefix && forall c | c in prefix[1..] :: c in prefix;
      assert prefix + ":" + rest == [prefix[0]] + (prefix[1..] + ":" + rest);
      UpToColonOfPrefix(prefix[1..], rest);
    }
  }

  /** The stored category tells which failure it was. */
  lemma NamesDiffer(c: FailureCategory, d: FailureCategory)
    ensures Name(c) == Name(d) ==> c == d
  {
  }

  lemma NameHasNoColon(c: FailureCategory)
    ensures ':' !in Name(c)
  {
  }

  lemma RetryableName(c: FailureCategory)
    ensures Name(c) in RETRYABLE_NAMES <==> c in RETRYABLE
  {
  }

  /** Storing a failure and reading its category back decides the retry exactly as the category does. */
  lemma RetryableRoundTrip(c: FailureCategory, message: string)
    ensures UpToColon(FailureText(c, message)) == Name(c)
    ensures RetryableText(Some(FailureText(c, message))) <==> c in RETRYABLE
  {
    NameHasNoColon(c);
    RetryableName(c);
    assert FailureText(c, message) == Name(c) + ":" + (" " + message);
    UpToColonOfPrefix(Name(c), " " + message);
  }
}
