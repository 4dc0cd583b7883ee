/** StringScope (src/string_scope.rs): a validation scope bound to one label. Every check
    it runs appends exactly one outcome to a result log that it shares with its session. */
module StringScopes {
  import opened ConstraintErrors
  import Constraints

  datatype Option<+T> = None | Some(value: T)

  /** One recorded outcome: `Result<(), ConstraintError>`. */
  datatype Outcome = Ok | Err(error: ConstraintError)

  /** Outcomes compare as the source's derived equality does: Ok equals Ok, and two
      errors are equal when their messages are. */
  function SameOutcome(a: Outcome, b: Outcome): (equal: bool)
    ensures equal <==> (a.Ok? && b.Ok?) || (a.Err? && b.Err? && a.error.Message() == b.error.Message())
  {
    match (a, b)
    case (Ok, Ok) => true
    case (Err(x), Err(y)) => x.SameAs(y)
    case _ => false
  }

  /** Logs compare entry by entry: same length, Ok at the same positions, and equal
      messages wherever both hold an error. */
  function SameLog(a: seq<Outcome>, b: seq<Outcome>): (equal: bool)
    ensures equal <==> |a| == |b| && forall i :: 0 <= i < |a| ==>
                        (a[i].Ok? <==> b[i].Ok?) && (a[i].Err? ==> a[i].error.Message() == b[i].error.Message())
  {
    |a| == |b| && forall i :: 0 <= i < |a| ==> SameOutcome(a[i], b[i])
  }

  /** The shared, append-only result log (the vector behind `Arc<Mutex<…>>`). */
  class ResultLog {
    var entries: seq<Outcome>

    constructor ()
      ensures entries == []
    {
      entries := [];
    }

    method Push(outcome: Outcome)
      modifies this
      ensures entries == old(entries) + [outcome]
    {
      entries := entries + [outcome];
    }
  }

  /** The outcome of checking `value` against `constraint` when the scope expects the
      verdict `condition`: Ok when the verdict matches; otherwise an error taken from the
      scope's generator if it has one, else from the constraint. */
  function CheckOutcome<T>(msg: string, generator: Option<string -> ConstraintError>,
                           value: T, constraint: Constraints.Constraint<T>, condition: bool): (o: Outcome)
    ensures o.Ok? <==> constraint.validate(value) == condition
    ensures o.Err? && generator.Some? ==> o.error == generator.value(msg)
    ensures o.Err? && generator.None? ==> o.error == constraint.generateException(msg)
  {
    if constraint.validate(value) == condition then Ok
    else match generator
      case Some(gen) => Err(gen(msg))
      case None => Err(constraint.generateException(msg))
  }

  class StringScope {
    /** The label of the validation, used as the description of its failures. */
    const message: string
    const results: ResultLog
    const exceptionGenerator: Option<string -> ConstraintError>

    /** A scope with no custom exception generator. */
    constructor New(message: string, results: ResultLog)
      ensures this.message == message && this.results == results
      ensures exceptionGenerator == None
    {
      this.message := message;
      this.results := results;
      exceptionGenerator := None;
    }

    /** A scope whose failures are built by `exceptionGenerator`. */
    constructor NewWithExceptionGenerator(message: string, results: ResultLog,
                                          exceptionGenerator: string -> ConstraintError)
      ensures this.message == message && this.results == results
      ensures this.exceptionGenerator == Some(exceptionGenerator)
    {
      this.message := message;
      this.results := results;
      this.exceptionGenerator := Some(exceptionGenerator);
    }

    /** Checks `value` and appends one outcome; the entries already in the log stay. */
    method Validate<T>(value: T, constraint: Constraints.Constraint<T>, condition: bool)
      modifies results
      ensures results.entries == old(results.entries)
                                 + [CheckOutcome(message, exceptionGenerator, value, constraint, condition)]
    {
      var outcome: Outcome;
      if constraint.validate(value) == condition {
        outcome := Ok;
      } else {
        var exception := match exceptionGenerator
          case Some(gen) => gen(message)
          case None => constraint.generateException(message);
        outcome := Err(exception);
      }
      results.Push(outcome);
    }

    /** Records Ok exactly when the constraint holds of `value`. */
    method Must<T>(value: T, constraint: Constraints.Constraint<T>)
      modifies results
      ensures results.entries == old(results.entries)
                                 + [CheckOutcome(message, exceptionGenerator, value, constraint, true)]
      ensures results.entries[|old(results.entries)|].Ok? <==> constraint.validate(value)
    {
      Validate(value, constraint, true);
    }

    /** Records Ok exactly when the constraint does not hold of `value`. */
    method MustNot<T>(value: T, constraint: Constraints.Constraint<T>)
      modifies results
      ensures results.entries == old(results.entries)
                                 + [CheckOutcome(message, exceptionGenerator, value, constraint, false)]
      ensures results.entries[|old(results.entries)|].Ok? <==> !constraint.validate(value)
    {
      Validate(value, constraint, false);
    }

    /** An ad-hoc check: records Ok when `check` holds, otherwise an error whose
        message is the scope's label. The custom generator is not consulted here. */
    method Constraint(check: () -> bool)
      modifies results
      ensures |results.entries| == |old(results.entries)| + 1
      ensures results.entries[..|old(results.entries)|] == old(results.entries)
      ensures results.entries[|old(results.entries)|].Ok? <==> check()
      ensures results.entries[|old(results.entries)|].Err? ==>
                results.entries[|old(results.entries)|].error.Message() == message
    {
      var msg := message;
      var outcome := if check() then Ok else Err(ConstraintError.New(() => msg));
      results.Push(outcome);
    }

    /** Display: the label wrapped as `StringScope(<label>)`. */
    function ToString(): (s: string)
      ensures |s| == |message| + 13
      ensures s[..12] == "StringScope(" && s[|s| - 1] == ')'
      ensures s[12..|s| - 1] == message
    {
      "StringScope(" + message + ")"
    }
  }

  /** A failed check under a custom generator records exactly the generator's error for
      the label, whatever the constraint's own error would have been. */
  lemma CustomGeneratorWins<T>(msg: string, gen: string -> ConstraintError, value: T,
                               constraint: Constraints.Constraint<T>, condition: bool)
    requires constraint.validate(value) != condition
    ensures CheckOutcome(msg, Some(gen), value, constraint, condition) == Err(gen(msg))
    ensures CheckOutcome(msg, Some(gen), value, constraint, condition).error.Message()
            == gen(msg).Message()
  {
  }

  /** Without a custom generator a failed check records the constraint's error for the
      label; for a plain predicate that error's message is the label itself. */
  lemma DefaultErrorIsLabel<T>(msg: string, f: T -> bool, value: T, condition: bool)
    requires f(value) != condition
    ensures CheckOutcome(msg, None, value, Constraints.FromPredicate(f), condition).Err?
    ensures CheckOutcome(msg, None, value, Constraints.FromPredicate(f), condition).error.Message()
            == msg
  {
  }

  /** The scenario of a failed `must`: label "Test", value "Test", predicate
      `v == "Not Test"`, on an empty log. The log ends up as a single error "Test". */
  method FailedMustExample() returns (entries: seq<Outcome>)
    ensures SameLog(entries, [Err(ConstraintError.New(() => "Test"))])
  {
    var log := new ResultLog();
    var scope := new StringScope.New("Test", log);
    scope.Must("Test", Constraints.FromPredicate((v: string) => v == "Not Test"));
    entries := log.entries;
  }
}
