/** CollectionConstraint (src/constraints/collections/collection_constraint.rs): a
    Constraint on sequences whose errors are CollectionConstraintErrors. */
module CollectionConstraints {
  import opened CollectionConstraintErrors
  import opened Constraints

  /** A collection constraint is a Constraint on sequences (its supertrait) with its own
      error factory. */
  datatype CollectionConstraint<!T> = CollectionConstraint(asConstraint: Constraint<seq<T>>) {

    /** Validation is the supertrait's. */
    function Validate(value: seq<T>): (ok: bool)
      ensures ok == asConstraint.validate(value)
    {
      asConstraint.validate(value)
    }

    /** The default error: a CollectionConstraintError whose message is the description,
        captured when the error is built. */
    function GenerateException(description: string): (e: CollectionConstraintError)
      ensures e.Message() == description
    {
      CollectionConstraintError.New(() => description)
    }
  }

  /** Asking the built error for its message again keeps giving the description. */
  lemma ExceptionMessageIsStable<T>(c: CollectionConstraint<T>, d: string)
    ensures c.GenerateException(d).Message() == d
    ensures c.GenerateException(d).Display() == c.GenerateException(d).Message()
    ensures c.GenerateException(d).SameAs(CollectionConstraintError.New(() => d))
  {
  }
}
