/** The error recorded when a constraint does not hold: it keeps a zero-argument
    message function and computes its text only when asked (src/errors/constraint_error.rs). */
module ConstraintErrors {

  /** The fixed text the Debug formatter prints; the message function is never shown. */
  const DebugText: string := "ConstraintError { lazy_message: \"<closure>\" }"

  datatype ConstraintError = ConstraintError(lazyMessage: () -> string) {

    /** Builds an error around `lazyMessage`; the function is kept, not evaluated. */
    static function New(lazyMessage: () -> string): (e: ConstraintError)
      ensures e.lazyMessage == lazyMessage
      ensures e.Message() == lazyMessage()
    {
      ConstraintError(lazyMessage)
    }

    /** The text of the error: the stored function's value, computed when asked. */
    function Message(): (s: string)
      ensures s == lazyMessage()
    {
      lazyMessage()
    }

    /** Display prints the message and nothing else. */
    function Display(): (s: string)
      ensures s == Message()
    {
      Message()
    }

    /** Debug prints a stand-in for the closure and never evaluates it. */
    function Debug(): (s: string)
      ensures s == DebugText
    {
      DebugText
    }

    /** Two errors are equal exactly when their messages are. */
    function SameAs(other: ConstraintError): (equal: bool)
      ensures equal <==> Display() == other.Display()
    {
      Message() == other.Message()
    }
  }

  /** An error built from a constant function reports that constant, on every call. */
  lemma ConstantMessage(m: string)
    ensures ConstraintError.New(() => m).Message() == m
    ensures ConstraintError.New(() => m).Display() == m
  {
  }

  /** The Debug text is the same whatever the message is. */
  lemma DebugIgnoresMessage(a: ConstraintError, b: ConstraintError)
    ensures a.Debug() == b.Debug() == DebugText
  {
  }

  /** Message equality is an equivalence: errors built from different closures with the
      same text are equal, as a clone is equal to its original. */
  lemma SameAsIsEquivalence(a: ConstraintError, b: ConstraintError, c: ConstraintError)
    ensures a.SameAs(a)
    ensures a.SameAs(b) ==> b.SameAs(a)
    ensures a.SameAs(b) && b.SameAs(c) ==> a.SameAs(c)
    ensures a.SameAs(b) <==> a.Display() == b.Display()
  {
  }
}
