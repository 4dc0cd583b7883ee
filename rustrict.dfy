/** The validation session (src/lib.rs): it owns the result log, opens scopes that append
    to it, and reads back every outcome or only the failures. */
module Rustrict {
  import opened ConstraintErrors
  import opened StringScopes
  import Constraints

  /** The error payloads of a log, in log order (filter_map over the Err entries). */
  function ErrPayloads(log: seq<Outcome>): (f: seq<ConstraintError>)
    ensures |f| <= |log|
  {
    if log == [] then []
    else
      var last := log[|log| - 1];
      ErrPayloads(log[..|log| - 1]) + (if last.Err? then [last.error] else [])
  }

  /** The positions of the Err entries of a log, in increasing order. */
  function ErrIndices(log: seq<Outcome>): (idx: seq<nat>)
    ensures forall k :: 0 <= k < |idx| ==> idx[k] < |log| && log[idx[k]].Err?
    ensures forall j, k :: 0 <= j < k < |idx| ==> idx[j] < idx[k]
    ensures forall i :: 0 <= i < |log| && log[i].Err? ==> i in idx
  {
    if log == [] then []
    else
      var n := |log| - 1;
      ErrIndices(log[..n]) + (if log[n].Err? then [n] else [])
  }

  class RustrictScope {
    const results: ResultLog

    /** A session with a fresh, empty log. */
    constructor ()
      ensures fresh(results) && results.entries == []
    {
      results := new ResultLog();
    }

    /** A snapshot of every outcome, in the order recorded; reading changes nothing. */
    function Results(): (r: seq<Outcome>)
      reads results
      ensures r == results.entries
    {
      results.entries
    }

    /** The errors of the failed checks, in the order recorded. */
    function Failures(): (f: seq<ConstraintError>)
      reads results
      ensures f == ErrPayloads(results.entries)
      ensures |f| == |ErrIndices(results.entries)|
    {
      FailuresAreErrPayloadsInOrder(results.entries);
      ErrPayloads(results.entries)
    }

    /** Opens a scope on this session's log with no custom generator; the caller's
        subsequent checks on the scope play the body of the block. */
    method ValidateString(message: string) returns (scope: StringScope)
      ensures fresh(scope)
      ensures scope.message == message && scope.results == results
      ensures scope.exceptionGenerator == None
    {
      scope := new StringScope.New(message, results);
    }

    /** Opens a scope on this session's log whose failed must/must-not checks record
        `exceptionGenerator(message)`. */
    method ValidateStringWithCustomException(message: string,
                                             exceptionGenerator: string -> ConstraintError)
      returns (scope: StringScope)
      ensures fresh(scope)
      ensures scope.message == message && scope.results == results
      ensures scope.exceptionGenerator == Some(exceptionGenerator)
    {
      scope := new StringScope.NewWithExceptionGenerator(message, results, exceptionGenerator);
    }
  }

  /** Appending an outcome appends its error, if any, to the failures. */
  lemma FailuresAfterAppend(log: seq<Outcome>, o: Outcome)
    ensures ErrPayloads(log + [o]) == ErrPayloads(log) + (if o.Err? then [o.error] else [])
  {
  }

  /** The failures are exactly the Err payloads, in their original relative order:
      failure k is the payload of the k-th Err entry, and no Ok entry contributes. */
  lemma {:induction false} FailuresAreErrPayloadsInOrder(log: seq<Outcome>)
    ensures |ErrPayloads(log)| == |ErrIndices(log)|
    ensures forall k :: 0 <= k < |ErrIndices(log)| ==>
              log[ErrIndices(log)[k]] == Err(ErrPayloads(log)[k])
  {
    if log != [] {
      var n := |log| - 1;
      FailuresAreErrPayloadsInOrder(log[..n]);
      var f, idx := ErrPayloads(log), ErrIndices(log);
      forall k | 0 <= k < |idx|
        ensures log[idx[k]] == Err(f[k])
      {
        if k < |ErrIndices(log[..n])| {
          assert idx[k] == ErrIndices(log[..n])[k];
          assert f[k] == ErrPayloads(log[..n])[k];
          assert log[idx[k]] == log[..n][idx[k]];
        }
      }
    }
  }

  /** A must (`condition` true) or must-not (`condition` false) check on a scope opened
      by the session extends the session's results by that one outcome; the session's
      failures stay as they were when the check passes, and otherwise gain one error at
      the end: the scope's custom error when it has a generator, else the constraint's. */
  method CheckExtendsSession<T>(session: RustrictScope, scope: StringScope, value: T,
                                constraint: Constraints.Constraint<T>, condition: bool)
    requires scope.results == session.results
    modifies session.results
    ensures session.Results() == old(session.Results())
              + [CheckOutcome(scope.message, scope.exceptionGenerator, value, constraint, condition)]
    ensures constraint.validate(value) == condition ==> session.Failures() == old(session.Failures())
    ensures constraint.validate(value) != condition && scope.exceptionGenerator.Some? ==>
              session.Failures() == old(session.Failures()) + [scope.exceptionGenerator.value(scope.message)]
    ensures constraint.validate(value) != condition && scope.exceptionGenerator.None? ==>
              session.Failures() == old(session.Failures()) + [constraint.generateException(scope.message)]
  {
    if condition {
      scope.Must(value, constraint);
    } else {
      scope.MustNot(value, constraint);
    }
    FailuresAfterAppend(old(session.results.entries),
                        CheckOutcome(scope.message, scope.exceptionGenerator, value, constraint, condition));
  }

  /** A session in which a plain scope passes one must, fails one must-not, and a scope
      with a custom generator fails one must and one ad-hoc check: four results, three
      failures in order, the custom text only where the generator applies. */
  method SessionExample() returns (all: seq<Outcome>, failed: seq<ConstraintError>)
    ensures |all| == 4 && all[0].Ok? && all[1].Err? && all[2].Err? && all[3].Err?
    ensures |failed| == 3
    ensures failed[0].Message() == "name"
    ensures failed[1].Message() == "invalid age"
    ensures failed[2].Message() == "age"
  {
    var session := new RustrictScope();
    var threeLetters := Constraints.FromPredicate((v: string) => |v| == 3);
    var plain := session.ValidateString("name");
    plain.Must("abc", threeLetters);
    plain.MustNot("abc", threeLetters);
    var custom := session.ValidateStringWithCustomException(
      "age", d => ConstraintError.New(() => "invalid " + d));
    custom.Must("ab", threeLetters);
    custom.Constraint(() => false);
    all := session.Results();
    failed := session.Failures();
    OkThenThreeErrs(all);
  }

  /** The failures of a log of one Ok followed by three errors are those three errors. */
  lemma OkThenThreeErrs(log: seq<Outcome>)
    requires |log| == 4 && log[0].Ok? && log[1].Err? && log[2].Err? && log[3].Err?
    ensures ErrPayloads(log) == [log[1].error, log[2].error, log[3].error]
  {
    assert log[..3][..2][..1][..0] == [];
    assert ErrPayloads(log[..3][..2][..1]) == [];
    assert ErrPayloads(log[..3][..2]) == [log[1].error];
    assert ErrPayloads(log[..3]) == [log[1].error, log[2].error];
  }
}
