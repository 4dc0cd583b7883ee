/** The Constraint capability (src/constraints/constraint.rs): a decision on a value
    together with a factory for the error to record when the decision goes the wrong way. */
module Constraints {
  import opened ConstraintErrors

  /** A constraint over values of type T. `validate` is a pure function of the value,
      so validating can never change what it looks at. */
  datatype Constraint<!T> = Constraint(validate: T -> bool, generateException: string -> ConstraintError) {

    /** The default error text: the message, a colon, and the displayed error built for it. */
    function GenerateErrorMessage(message: string): (s: string)
      ensures |s| == |message| + 2 + |generateException(message).Message()|
      ensures s[..|message|] == message && s[|message|..|message| + 2] == ": "
      ensures s[|message| + 2..] == generateException(message).Display()
    {
      message + ": " + generateException(message).Display()
    }
  }

  /** The error a plain predicate builds: its message is the description, captured as is. */
  function DescriptionError(description: string): (e: ConstraintError)
    ensures e.Message() == description
  {
    ConstraintError.New(() => description)
  }

  /** Every predicate on T is a constraint: it validates by calling the predicate and
      reports the description verbatim. */
  function FromPredicate<T>(f: T -> bool): (c: Constraint<T>)
    ensures c.validate == f
    ensures forall d :: c.generateException(d).Message() == d
  {
    Constraint(f, DescriptionError)
  }

  /** The blanket constraint's verdict on a value is the predicate's. */
  lemma PredicateValidates<T>(f: T -> bool, v: T)
    ensures FromPredicate(f).validate(v) == f(v)
  {
  }

  /** For a plain predicate the default error text repeats the message: "m: m". */
  lemma PredicateErrorMessage<T>(f: T -> bool, m: string)
    ensures FromPredicate(f).GenerateErrorMessage(m) == m + ": " + m
  {
  }
}
