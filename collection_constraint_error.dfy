/** The error produced by collection constraints; like ConstraintError it keeps a
    zero-argument message function and evaluates it on demand
    (src/errors/collection_constraint_error.rs). */
module CollectionConstraintErrors {

  /** The fixed text the Debug formatter prints; the message function is never shown. */
  const DebugText: string := "CollectionConstraintError { lazy_message: \"<closure>\" }"

  datatype CollectionConstraintError = CollectionConstraintError(lazyMessage: () -> string) {

    /** Builds an error around `lazyMessage`; the function is kept, not evaluated. */
    static function New(lazyMessage: () -> string): (e: CollectionConstraintError)
      ensures e.lazyMessage == lazyMessage
      ensures e.Message() == lazyMessage()
    {
      CollectionConstraintError(lazyMessage)
    }

    /** The text of the error: the stored function's value, computed when asked. */
    function Message(): (s: string)
      ensures s == lazyMessage()
    {
      lazyMessage()
    }

    /** Display prints the message and nothing else. */
    function Display(): (s: string)
      ensures s == Message()
    {
      Message()
    }

    /** Debug prints a stand-in for the closure and never evaluates it. */
    function Debug(): (s: string)
      ensures s == DebugText
    {
      DebugText
    }

    /** Two errors are equal exactly when their messages are. */
    function SameAs(other: CollectionConstraintError): (equal: bool)
      ensures equal <==> Display() == other.Display()
    {
      Message() == other.Message()
    }
  }

  /** An error built from a constant function reports that constant, on every call. */
  lemma ConstantMessage(m: string)
    ensures CollectionConstraintError.New(() => m).Message() == m
    ensures CollectionConstraintError.New(() => m).Display() == m
  {
  }

  /** The Debug text is the same whatever the message is. */
  lemma DebugIgnoresMessage(a: CollectionConstraintError, b: CollectionConstraintError)
    ensures a.Debug() == b.Debug() == DebugText
  {
  }
}
