/** HaveSize (src/constraints/collections/have_size.rs): a constraint on a collection
    that looks only at its length. */
module HaveSizes {
  import opened ConstraintErrors
  import opened Constraints

  datatype HaveSize = HaveSize(lengthPredicate: nat -> bool) {

    /** A size constraint that accepts a collection when `lengthPredicate` accepts its length. */
    static function New(lengthPredicate: nat -> bool): (h: HaveSize)
      ensures forall n :: h.lengthPredicate(n) == lengthPredicate(n)
    {
      HaveSize(lengthPredicate)
    }

    /** A size constraint that accepts exactly the collections of length `size`. */
    static function WithExactSize(size: nat): (h: HaveSize)
      ensures forall n: nat :: h.lengthPredicate(n) <==> n == size
    {
      New(s => s == size)
    }

    /** HaveSize seen as a Constraint on sequences: it applies `lengthPredicate` to the
        length and reports the description verbatim. */
    function AsConstraint<T(!new)>(): (c: Constraint<seq<T>>)
      ensures forall v: seq<T> :: c.validate(v) == lengthPredicate(|v|)
      ensures forall d :: c.generateException(d).Message() == d
    {
      Constraint(v => lengthPredicate(|v|), DescriptionError)
    }
  }

  /** with_exact_size(n) accepts a sequence if and only if its length is n. */
  lemma ExactSizeValidates<T(!new)>(size: nat, v: seq<T>)
    ensures HaveSize.WithExactSize(size).AsConstraint<T>().validate(v) <==> |v| == size
  {
  }

  /** new(p) validates a sequence by asking p about its length. */
  lemma NewValidates<T(!new)>(p: nat -> bool, v: seq<T>)
    ensures HaveSize.New(p).AsConstraint<T>().validate(v) == p(|v|)
  {
  }

  /** The verdict depends on the length only: equally long sequences get the same one. */
  lemma VerdictDependsOnLengthOnly<T(!new)>(h: HaveSize, a: seq<T>, b: seq<T>)
    requires |a| == |b|
    ensures h.AsConstraint<T>().validate(a) == h.AsConstraint<T>().validate(b)
  {
  }

  /** The error carries the description, whatever size was asked for. */
  lemma ExceptionCarriesDescription<T(!new)>(size: nat, d: string)
    ensures HaveSize.WithExactSize(size).AsConstraint<T>().generateException(d).Message() == d
  {
  }

  /** new(|s| s > 0) accepts every non-empty sequence, and new(|s| s <= 5) rejects every
      sequence longer than five. */
  lemma SizeBoundExamples<T(!new)>(v: seq<T>)
    ensures |v| > 0 ==> HaveSize.New(s => s > 0).AsConstraint<T>().validate(v)
    ensures |v| > 5 ==> !HaveSize.New(s => s <= 5).AsConstraint<T>().validate(v)
  {
  }
}
