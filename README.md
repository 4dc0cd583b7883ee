# rustrict validation core in Dafny

This project models the core of `rustrict`, a small Rust validation library.

A caller opens a session (`RustrictScope`) that owns a shared log of outcomes. From the
session it opens scopes (`StringScope`) bound to a label. Each scope runs `must`,
`must_not` and ad-hoc `constraint` checks. Every check appends exactly one `Ok` or `Err`
to the shared log. An `Err` carries a lazily computed error (`ConstraintError`).

Constraints are values of a capability: a decision on a value plus an error factory.
Any predicate is a constraint. `HaveSize` is a constraint on collection length, and
`CollectionConstraint` refines the capability for collections with its own error type.
`CompositeError` aggregates a non-empty list of errors and renders them in one of two
textual forms.

Files, one module per source file:

- `constraint_error.dfy` (`ConstraintErrors`): a lazy error as a datatype holding a
  `() -> string`, with message, Display, Debug and message equality.
- `collection_constraint_error.dfy` (`CollectionConstraintErrors`): the same for collection errors.
- `constraint.dfy` (`Constraints`): the `Constraint<T>` capability as a datatype of two
  functions, the default `generate_error_message`, and the blanket impl for predicates (`FromPredicate`).
- `have_size.dfy` (`HaveSizes`): `HaveSize`, its two constructors and its constraint instance.
- `collection_constraint.dfy` (`CollectionConstraints`): the `CollectionConstraint`
  refinement with its default error.
- `composite_error.dfy` (`CompositeErrors`): the aggregate, its rendering, and lemmas that
  place every component message, in input order, inside the rendered text.
- `string_scope.dfy` (`StringScopes`): the shared log as a class `ResultLog`, and
  `StringScope` as a class whose checks append to it.
- `rustrict.dfy` (`Rustrict`): the session, its `results`/`failures` reads, the two scope
  openers, and lemmas about the failure filter.

Equality of errors is message equality (`SameAs`, `SameOutcome`, `SameLog`). This matches
how the source's tests compare recorded results. `src/errors/constraint_error.rs` derives
neither `PartialEq` nor `Clone` for `ConstraintError`, so the model defines the equality itself.
The source defines no equality for `CollectionConstraintError` either, and no test
compares two of them. Its `SameAs` is message equality, chosen by analogy with
`ConstraintError`.

The session's log is one `ResultLog` object. The session and every scope it opens hold a
reference to that same object. That is how entries appended through a scope show up in
the session's `Results()` and `Failures()`.

`StringScope.Constraint` ignores the custom generator. `src/string_scope.rs:143-152`
always records an error whose message is the label. So on a scope with a generator, only
failed `must`/`must_not` checks carry `g(label)`. `Rustrict.SessionExample` shows both
behaviours in one session.

## Model

| member | source | states |
|---|---|---|
| `ConstraintErrors.ConstraintError.New` | src/errors/constraint_error.rs:45-53 | the error keeps the given message function unchanged; its message is whatever that function yields |
| `ConstraintErrors.ConstraintError.Message` | src/errors/constraint_error.rs:56-58 | the message is the stored function's value, computed at the time it is asked for |
| `ConstraintErrors.ConstraintError.Display` | src/errors/constraint_error.rs:61-64 | Display output equals `message()` |
| `ConstraintErrors.ConstraintError.Debug` | src/errors/constraint_error.rs:67-72 | Debug output is exactly `ConstraintError { lazy_message: "<closure>" }`, whatever the message |
| `ConstraintErrors.ConstraintError.SameAs` | src/string_scope.rs:194-196 | two errors are equal if and only if their Display texts are equal |
| `ConstraintErrors.ConstantMessage` | src/errors/constraint_error.rs:87-93 | an error built from a constant function `m` reports `m` as message and as Display, on every call |
| `ConstraintErrors.DebugIgnoresMessage` | src/errors/constraint_error.rs:67-72 | any two errors have the same Debug text, `ConstraintError { lazy_message: "<closure>" }` |
| `ConstraintErrors.SameAsIsEquivalence` | src/string_scope.rs:194-196 | message equality is reflexive, symmetric and transitive, and agrees with comparing Display output |
| `CollectionConstraintErrors.CollectionConstraintError.New` | src/errors/collection_constraint_error.rs:83-90 | the error keeps the given message function unchanged; its message is that function's value |
| `CollectionConstraintErrors.CollectionConstraintError.Message` | src/errors/collection_constraint_error.rs:110-112 | the message is the stored function's value, computed at the time it is asked for |
| `CollectionConstraintErrors.CollectionConstraintError.Display` | src/errors/collection_constraint_error.rs:142-144 | Display output equals `message()` |
| `CollectionConstraintErrors.CollectionConstraintError.Debug` | src/errors/collection_constraint_error.rs:176-180 | Debug output is exactly `CollectionConstraintError { lazy_message: "<closure>" }`, whatever the message |
| `CollectionConstraintErrors.CollectionConstraintError.SameAs` | src/errors/collection_constraint_error.rs:110-112 | two errors are equal if and only if their Display texts are equal |
| `CollectionConstraintErrors.ConstantMessage` | src/errors/collection_constraint_error.rs:110-112 | an error built from a constant function `m` reports `m` as message and as Display |
| `CollectionConstraintErrors.DebugIgnoresMessage` | src/errors/collection_constraint_error.rs:176-180 | any two errors have the same Debug text, `CollectionConstraintError { lazy_message: "<closure>" }` |
| `Constraints.Constraint.GenerateErrorMessage` | src/constraints/constraint.rs:23-25 | the text splits into the message, then `": "`, then the Display of `generate_exception(message)` |
| `Constraints.DescriptionError` | src/constraints/constraint.rs:36-38 | the default error's message is the description, captured verbatim |
| `Constraints.FromPredicate` | src/constraints/constraint.rs:28-39 | a predicate is a constraint: `validate` is the predicate itself, and every generated error's message is its description |
| `Constraints.PredicateValidates` | src/constraints/constraint.rs:32-34 | the blanket constraint's verdict on `v` is `f(v)` |
| `Constraints.PredicateErrorMessage` | src/constraints/constraint.rs:23-25 | for a plain predicate, `generate_error_message(m)` is `m + ": " + m` |
| `HaveSizes.HaveSize.New` | src/constraints/collections/have_size.rs:16-23 | the stored length predicate agrees with the given one on every length |
| `HaveSizes.HaveSize.WithExactSize` | src/constraints/collections/have_size.rs:26-28 | the stored predicate accepts a length if and only if it equals `size` |
| `HaveSizes.HaveSize.AsConstraint` | src/constraints/collections/have_size.rs:31-39 | as a constraint on sequences, it accepts `v` if and only if the length predicate holds of the length of `v`, and its errors carry the description verbatim |
| `HaveSizes.ExactSizeValidates` | src/constraints/collections/have_size.rs:52-56 | `with_exact_size(n)` accepts `v` if and only if the length of `v` equals `n` |
| `HaveSizes.NewValidates` | src/constraints/collections/have_size.rs:32-34 | `new(p)` validates `v` as `p` applied to the length of `v` |
| `HaveSizes.VerdictDependsOnLengthOnly` | src/constraints/collections/have_size.rs:33 | two sequences of equal length get the same verdict |
| `HaveSizes.ExceptionCarriesDescription` | src/constraints/collections/have_size.rs:59-65 | the error of `with_exact_size(n)` has the description as message, whatever `n` |
| `HaveSizes.SizeBoundExamples` | src/constraints/collections/have_size.rs:74-95 | `new(s > 0)` accepts every non-empty sequence; `new(s <= 5)` rejects every sequence longer than five |
| `CollectionConstraints.CollectionConstraint.Validate` | src/constraints/collections/collection_constraint.rs:9 | a collection constraint validates exactly as its `Constraint<Vec<T>>` supertrait does |
| `CollectionConstraints.CollectionConstraint.GenerateException` | src/constraints/collections/collection_constraint.rs:10-12 | the default error is a `CollectionConstraintError` whose message is the description |
| `CollectionConstraints.ExceptionMessageIsStable` | src/constraints/collections/collection_constraint.rs:22-28 | the built error keeps reporting the description, its Display agrees, and it equals an error built directly from that description |
| `CompositeErrors.CompositeError.New` | src/errors/composite_error.rs:66-70 | requires a non-empty sequence (an empty one panics); `errors()` then gives back exactly that sequence, same length and order; the field's type `NonEmptyErrors` keeps every aggregate non-empty |
| `CompositeErrors.CompositeError.Errors` | src/errors/composite_error.rs:89-91 | gives back the stored errors: same length, same element at every index |
| `CompositeErrors.CompositeError.Render` | src/errors/composite_error.rs:119-144 | with one error: `An error occurred -- [`, the type name, `] ` and the error, with that exact length and the error at the end; otherwise the text starts with `Multiple errors occurred -- ` (the entries, separators and total length of that form are stated by `RenderMultipleAt`, `RenderSeparatorAt` and `RenderLength`) |
| `CompositeErrors.Entries` | src/errors/composite_error.rs:127-136 | one entry per error, in the same order: entry i is the braced form of error i |
| `CompositeErrors.Join` | src/errors/composite_error.rs:137-138 | joining no parts gives the empty text; otherwise the text starts with the first part |
| `CompositeErrors.Entry` | src/errors/composite_error.rs:131-135 | an entry is `{ [`, then the type name at offset 3, then `] `, then the error at offset (type-name length + 5), then ` }`, and nothing else (its length is the sum of those pieces) |
| `CompositeErrors.JoinPartAt` | src/errors/composite_error.rs:127-138 | in a join, part k starts at its offset (earlier parts plus one separator each), and a separator follows every part but the last |
| `CompositeErrors.JoinLength` | src/errors/composite_error.rs:137-138 | a join of one or more parts ends right after its last part: its length is the last part's offset plus that part's length, so nothing trails it |
| `CompositeErrors.OffsetsIncrease` | src/errors/composite_error.rs:127-138 | in a join, each part ends, and its separator follows, before any later part starts |
| `CompositeErrors.RenderSingle` | src/errors/composite_error.rs:120-125 | with one error the text is `"An error occurred -- [" + TYPE + "] " + e0`, ending with `e0` |
| `CompositeErrors.RenderMultipleAt` | src/errors/composite_error.rs:126-140 | with two or more errors, error k's braced entry and its text sit at a computed position after the header |
| `CompositeErrors.RenderSeparatorAt` | src/errors/composite_error.rs:126-140 | with two or more errors, `",\n"` sits right after every entry but the last in the rendered text |
| `CompositeErrors.RenderLength` | src/errors/composite_error.rs:126-140 | with two or more errors, the text ends right after the last entry: the header plus the entries and separators make up its whole length |
| `CompositeErrors.RenderMultipleInOrder` | src/errors/composite_error.rs:126-140 | with two or more errors the text starts with `Multiple errors occurred -- `, and error j ends before error k starts whenever j < k |
| `CompositeErrors.RenderContainsEveryError` | src/errors/composite_error.rs:119-144 | the rendered text contains every component error's text |
| `StringScopes.SameOutcome` | src/string_scope.rs:194-196 | two outcomes are equal if and only if both are Ok, or both are errors with the same message |
| `StringScopes.SameLog` | src/string_scope.rs:194-196 | two logs are equal if and only if they have the same length, Ok at the same positions, and the same message wherever both hold an error |
| `StringScopes.CheckOutcome` | src/string_scope.rs:91-103 | the outcome is Ok if and only if the verdict equals the expected condition; a failure carries `gen(label)` when a generator is set, else the constraint's `generate_exception(label)` |
| `StringScopes.ResultLog.Push` | src/string_scope.rs:98-103 | the log becomes the old log with the outcome appended |
| `StringScopes.StringScope.New` | src/string_scope.rs:43-52 | stores the label and the shared log unchanged and sets no generator |
| `StringScopes.StringScope.NewWithExceptionGenerator` | src/string_scope.rs:66-76 | stores the label and the shared log, and the generator as `Some(gen)` |
| `StringScopes.StringScope.Validate` | src/string_scope.rs:87-104 | appends exactly one entry, the check's outcome, and leaves every earlier entry as it was |
| `StringScopes.StringScope.Must` | src/string_scope.rs:114-119 | appends one outcome, which is Ok if and only if the constraint holds of the value |
| `StringScopes.StringScope.MustNot` | src/string_scope.rs:129-134 | appends one outcome, which is Ok if and only if the constraint does not hold of the value |
| `StringScopes.StringScope.Constraint` | src/string_scope.rs:143-152 | appends one outcome and keeps the earlier ones; Ok if and only if the check holds, otherwise an error whose message is the label |
| `StringScopes.StringScope.ToString` | src/string_scope.rs:155-158 | the text is `StringScope(`, then the label, then `)` |
| `StringScopes.CustomGeneratorWins` | src/string_scope.rs:91-96 | with a generator set, a failed check records exactly `gen(label)`, whatever the constraint would have produced |
| `StringScopes.DefaultErrorIsLabel` | src/string_scope.rs:91-96 | without a generator, a failed check on a plain predicate records an error whose message is the label |
| `StringScopes.FailedMustExample` | src/string_scope.rs:187-197 | label "Test", `must("Test", v == "Not Test")` on an empty log leaves exactly one error, equal to one with message "Test" |
| `Rustrict.RustrictScope.constructor` | src/lib.rs:18-22 | a new session has a fresh, empty log |
| `Rustrict.RustrictScope.Results` | src/lib.rs:24-26 | every recorded outcome, in append order; reading does not change the log |
| `Rustrict.RustrictScope.Failures` | src/lib.rs:28-35 | the Err payloads of the log, one per Err position |
| `Rustrict.RustrictScope.ValidateString` | src/lib.rs:37-43 | opens a fresh scope with the given label, on this session's log, with no generator |
| `Rustrict.RustrictScope.ValidateStringWithCustomException` | src/lib.rs:45-60 | opens a fresh scope with the given label, on this session's log, with the given generator |
| `Rustrict.ErrPayloads` | src/lib.rs:28-35 | the order-preserving filter of the Err payloads of the log (`filter_map`), never longer than the log; `FailuresAreErrPayloadsInOrder` pins each element to its Err entry |
| `Rustrict.ErrIndices` | src/lib.rs:28-35 | the positions of the Err entries: strictly increasing, each an Err, and none missing |
| `Rustrict.FailuresAfterAppend` | src/lib.rs:28-35 | appending an Ok leaves the failures unchanged; appending an Err adds its error at the end |
| `Rustrict.FailuresAreErrPayloadsInOrder` | src/lib.rs:28-35 | failure k is the payload of the k-th Err entry, so the failures keep the log's order and no Ok contributes |
| `Rustrict.CheckExtendsSession` | src/lib.rs:37-43 | a `must`/`must_not` check on a scope opened by the session appends its outcome to the session's `results()`; `failures()` stays the same when the check passes, and otherwise gains, at the end, `gen(label)` for a scope with a generator or the constraint's error for the label |
| `Rustrict.SessionExample` | src/lib.rs:37-60 | a session with a plain scope and a custom-generator scope records four outcomes in order, and its failures are the three errors in order, the custom text only on the generator's must |

## Left out

- Locking: the `Arc<Mutex<…>>` around the log, `lock().unwrap()`, poisoning and
  cross-thread ordering are concurrency concerns. The log is one shared `ResultLog` object.
- `Send`/`Sync` bounds and the `Arc` and `Box` wrappers around closures are left out. They
  only mark thread safety and have no sequential behaviour.
- A message function that returns different text on different calls cannot be
  expressed: Dafny functions are deterministic. That `new` does not call the function is
  likewise unobservable in the model.
- `Rustrict.RustrictScope.ValidateString`: the `body` closure is not passed in, because a
  Dafny method cannot take a method argument. The method returns the opened scope, and the
  caller's later calls on it stand in for the body.
- `Rustrict.RustrictScope.ValidateStringWithCustomException`: the body closure is left out
  for the same reason.
- `std::any::type_name::<dyn Error>()` is a compiler-provided string. It is the constant
  `ErrorTypeName`, and no lemma depends on its value.
- The component errors of `CompositeError` are represented by their Display text. Their
  own types and Debug output are not modelled.
- The `Contains` matcher, `contain`, `panic_with_type`, and the `expectest`/`proptest`
  glue are test helpers, not library behaviour.
- `Formatter`/`write!` error plumbing and formatter flags are left out: rendering is a
  function returning a string. The alternate `{:#?}` Debug form, which spans several lines,
  is not modelled.
- `usize` lengths and sizes are `nat`. A `Vec` length always fits in `usize`, so no wrap-around arises.
- Rust visibility and trait coherence are not reproduced. `ConstraintError::new` and
  `message` are private, and `CollectionConstraint::generate_exception` shadows the
  supertrait's method. The model uses one capability datatype, and the collection
  refinement carries its own `GenerateException`.
- `HaveSizes.HaveSize.AsConstraint`: element types are limited to types whose values
  hold no object references (`T(!new)`), which a quantifier over all sequences in a
  function's contract requires. The model has no element types that hold references.
- Scope checks over different value types share one log, as in the source. Each check
  is generic in its own value type.
