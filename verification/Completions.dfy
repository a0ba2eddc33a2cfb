/**
 Python's try statements, as far as services/users/app/migrations.py needs them. A block
 completes normally or with an exception; the combinators say what an enclosing statement
 makes of that.
 */
module Completions {

  /** Exit stands for KeyboardInterrupt and SystemExit, which are no subclasses of Exception. */
  datatype Error = LockTimeout | Raised(what: string) | Exit(what: string)

  datatype Completion = Normal | Raises(error: Error)

  /** One statement after the other. */
  function Then(first: Completion, second: Completion): Completion {
    if first.Raises? then first else second
  }

  /** try: body finally: cleanup. What the cleanup raises replaces what is pending. */
  function Finally(body: Completion, cleanup: Completion): Completion {
    if cleanup.Raises? then cleanup else body
  }

  /** Does `except Exception` catch it? */
  predicate Caught(c: Completion) {
    c.Raises? && !c.error.Exit?
  }

  /** try: body except Exception: handler */
  function ExceptException(body: Completion, handler: Completion): Completion {
    if Caught(body) then handler else body
  }

  // ----- the text of upgrade_to_head -----

  /** How each call completes; one that is never made counts as Normal. */
  datatype Calls = Calls(
    acquire: Completion,
    upgrade: Completion,
    commit: Completion,
    rollback: Completion,
    unlock: Completion,
    invalidate: Completion)

  const NO_FAILURE: Calls := Calls(Normal, Normal, Normal, Normal, Normal, Normal)

  function TryBlock(c: Calls): Completion {
    Then(c.upgrade, c.commit)
  }

  /** The inner try block: roll back, then unlock. */
  function ReleaseBlock(c: Calls): Completion {
    Then(c.rollback, c.unlock)
  }

  function FinallyBlock(c: Calls): Completion {
    ExceptException(ReleaseBlock(c), ExceptException(c.invalidate, Normal))
  }

  function ProgramText(c: Calls): Completion {
    Then(c.acquire, Finally(TryBlock(c), FinallyBlock(c)))
  }

  /** The same function with the release block put directly into the finally block. */
  function TextWithoutExcept(c: Calls): Completion {
    Then(c.acquire, Finally(TryBlock(c), ReleaseBlock(c)))
  }

  /** What the lock, the migration and the commit came to, the cleanup aside. */
  function FirstFailure(c: Calls): Completion {
    Then(c.acquire, TryBlock(c))
  }

  /** The cleanup, or the invalidate after a failed one, ran into an Exit. */
  predicate Interrupted(c: Calls) {
    c.acquire.Normal? && FinallyBlock(c).Raises?
  }

  /**
   The error of the lock, the migration or the commit escapes unless the cleanup is
   interrupted by an Exit that is another one; no failure of the cleanup that is an
   Exception can replace or cause an error.
   */
  lemma FirstFailureEscapesExactlyWhen(c: Calls)
    ensures ProgramText(c) == FirstFailure(c) <==> !Interrupted(c) || FinallyBlock(c) == FirstFailure(c)
    ensures Interrupted(c) <==>
            && c.acquire.Normal? && ReleaseBlock(c).Raises?
            && (ReleaseBlock(c).error.Exit? || (c.invalidate.Raises? && c.invalidate.error.Exit?))
  {
  }

  /** Without the inner except every failure of the cleanup would escape in place of the first error. */
  lemma CleanupMasksWithoutExcept(c: Calls)
    requires c.acquire.Normal? && ReleaseBlock(c).Raises?
    ensures TextWithoutExcept(c) == ReleaseBlock(c)
    ensures !Interrupted(c) ==> (ProgramText(c) == TextWithoutExcept(c) <==> FirstFailure(c) == ReleaseBlock(c))
  {
  }
}
