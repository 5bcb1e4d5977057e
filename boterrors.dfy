/**
 * The errors the chat bot handles: the api client's own values, `fmt.Errorf("…: %w")` wrappers
 * around them, texts with no cause, and the bot's own sentinels.
 */
module BotErrors {
  import opened Text
  import ClientModels

  datatype BotError =
    | Client(e: ClientModels.Error)
    // `fmt.Errorf(prefix + ": %w", cause)`: the only kind with `Unwrap`
    | Wrapped(prefix: String, cause: BotError)
    // `errors.New` or `fmt.Errorf` without `%w`
    | Opaque(text: String)
    | BadCommandUsage
    | Skipped

  /** One value of a chain against a target: equality, or `ErrInvalidInput.Is`. */
  predicate Matches(e: BotError, target: BotError)
  {
    e == target
    || (e.Client? && target.Client? && e.e.InvalidInput? && ClientModels.InvalidInputIs(e.e, target.e))
  }

  /** `errors.Is`: some value along the `Unwrap` chain matches the target. */
  predicate Is(e: BotError, target: BotError)
  {
    Matches(e, target) || (e.Wrapped? && Is(e.cause, target))
  }

  /** The values `errors.Is` walks through, outermost first. */
  function Chain(e: BotError): (c: seq<BotError>)
    ensures |c| >= 1 && c[0] == e && !c[|c| - 1].Wrapped?
    ensures forall k :: 0 <= k < |c| - 1 ==> c[k].Wrapped?
  {
    if e.Wrapped? then [e] + Chain(e.cause) else [e]
  }

  /** `errors.Is` holds exactly when some value of the chain matches. */
  lemma {:induction false} IsInChain(e: BotError, target: BotError)
    ensures Is(e, target) <==> exists k :: 0 <= k < |Chain(e)| && Matches(Chain(e)[k], target)
  {
    if e.Wrapped? {
      IsInChain(e.cause, target);
      var c := Chain(e);
      assert c == [e] + Chain(e.cause);
      if Is(e.cause, target) {
        var k :| 0 <= k < |Chain(e.cause)| && Matches(Chain(e.cause)[k], target);
        assert Matches(c[k + 1], target);
      }
      if exists k :: 0 <= k < |c| && Matches(c[k], target) {
        var k :| 0 <= k < |c| && Matches(c[k], target);
        if k > 0 {
          assert c[k] == Chain(e.cause)[k - 1];
        }
      }
    } else {
      assert Chain(e) == [e];
    }
  }

  /** The last value of the chain: what `unwrap` returns. */
  function Innermost(e: BotError): (r: BotError)
    ensures !r.Wrapped? && r == Chain(e)[|Chain(e)| - 1]
  {
    if e.Wrapped? then Innermost(e.cause) else e
  }

  /** A value other than a wrapper never unwraps: when it matches, it is the innermost value. */
  lemma {:induction false} MatchIsInnermost(e: BotError, target: BotError)
    requires !target.Wrapped? && Is(e, target)
    ensures Matches(Innermost(e), target)
  {
    if e.Wrapped? && !Matches(e, target) {
      MatchIsInnermost(e.cause, target);
    }
  }
}
