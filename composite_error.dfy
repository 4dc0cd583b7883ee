/** CompositeError (src/errors/composite_error.rs): one reportable error made of a
    non-empty, ordered sequence of errors. Each component error is represented by the
    text it displays. */
module CompositeErrors {

  /** The name the compiler gives the error trait object; the rendering embeds it and no
      property below depends on its value. */
  const ErrorTypeName: string := "dyn core::error::Error"

  const SinglePrefix: string := "An error occurred -- ["
  const MultiplePrefix: string := "Multiple errors occurred -- "
  const Separator: string := ",\n"

  /** `s` holds `sub` starting at index `at`. */
  ghost predicate OccursAt(sub: string, s: string, at: int) {
    0 <= at && at + |sub| <= |s| && s[at..at + |sub|] == sub
  }

  /** The errors of an aggregate: never empty, as the source's private field and
      panicking constructor guarantee. */
  type NonEmptyErrors = s: seq<string> | |s| > 0 witness [""]

  datatype CompositeError = CompositeError(errors: NonEmptyErrors) {

    /** Builds the aggregate; an empty sequence is a contract violation (the source panics). */
    static function New(errors: seq<string>): (c: CompositeError)
      requires |errors| > 0
      ensures c.Errors() == errors
    {
      CompositeError(errors)
    }

    /** The stored errors, as given to New: a read-only view, same length and order. */
    function Errors(): (es: seq<string>)
      ensures |es| == |errors| && forall i :: 0 <= i < |es| ==> es[i] == errors[i]
    {
      errors
    }

    /** Display: the single-error form for one error, otherwise the header followed by
        one braced entry per error, joined by a comma and a newline. */
    function Render(): (r: string)
      ensures |errors| == 1 ==> |r| == |SinglePrefix| + |ErrorTypeName| + 2 + |errors[0]|
      ensures |errors| == 1 ==> r[..|SinglePrefix|] == SinglePrefix
      ensures |errors| == 1 ==> r[|SinglePrefix|..|SinglePrefix| + |ErrorTypeName|] == ErrorTypeName
      ensures |errors| == 1 ==> r[|SinglePrefix| + |ErrorTypeName|..|SinglePrefix| + |ErrorTypeName| + 2] == "] "
      ensures |errors| == 1 ==> r[|r| - |errors[0]|..] == errors[0]
      ensures |errors| != 1 ==> |r| >= |MultiplePrefix| && r[..|MultiplePrefix|] == MultiplePrefix
    {
      if |errors| == 1 then
        SinglePrefix + ErrorTypeName + "] " + errors[0]
      else
        MultiplePrefix + Join(Entries(errors), Separator)
    }
  }

  /** One entry of the multiple-error form. */
  function Entry(e: string): (r: string)
    ensures |r| == |ErrorTypeName| + |e| + 7
    ensures r[..3] == "{ [" && r[|r| - 2..] == " }"
    ensures r[3..3 + |ErrorTypeName|] == ErrorTypeName
    ensures r[|ErrorTypeName| + 3..|ErrorTypeName| + 5] == "] "
    ensures OccursAt(e, r, |ErrorTypeName| + 5)
  {
    var r := "{ [" + ErrorTypeName + "] " + e + " }";
    assert r[|ErrorTypeName| + 5..|ErrorTypeName| + 5 + |e|] == e;
    r
  }

  function Entries(errors: seq<string>): (r: seq<string>)
    ensures |r| == |errors|
    ensures forall i :: 0 <= i < |errors| ==> r[i] == Entry(errors[i])
  {
    seq(|errors|, i requires 0 <= i < |errors| => Entry(errors[i]))
  }

  /** The parts, in order, with `sep` between neighbours. */
  function Join(parts: seq<string>, sep: string): (r: string)
    ensures |parts| == 0 ==> r == ""
    ensures |parts| > 0 ==> |parts[0]| <= |r| && r[..|parts[0]|] == parts[0]
  {
    if |parts| == 0 then ""
    else if |parts| == 1 then parts[0]
    else parts[0] + sep + Join(parts[1..], sep)
  }

  /** Where part k starts in Join(parts, sep): the earlier parts and one separator each. */
  function Offset(parts: seq<string>, sep: string, k: nat): nat
    requires k <= |parts|
  {
    if k == 0 then 0 else |parts[0]| + |sep| + Offset(parts[1..], sep, k - 1)
  }

  /** An occurrence in `s` is still an occurrence, shifted, once `pre` is put in front. */
  lemma OccursAfterPrefix(sub: string, s: string, at: int, pre: string)
    requires OccursAt(sub, s, at)
    ensures OccursAt(sub, pre + s, |pre| + at)
  {
    assert (pre + s)[|pre| + at..|pre| + at + |sub|] == s[at..at + |sub|];
  }

  /** Part k of a join sits at its offset; the separator follows every part but the last. */
  lemma {:induction false} JoinPartAt(parts: seq<string>, sep: string, k: nat)
    requires k < |parts|
    ensures OccursAt(parts[k], Join(parts, sep), Offset(parts, sep, k))
    ensures k + 1 < |parts| ==> OccursAt(sep, Join(parts, sep), Offset(parts, sep, k) + |parts[k]|)
  {
    if |parts| > 1 {
      if k == 0 {
        SeparatorAfterHead(parts, sep);
      } else {
        JoinPartAt(parts[1..], sep, k - 1);
        JoinPartShift(parts, sep, k);
      }
    }
  }

  /** With two or more parts, the separator follows the first part. */
  lemma SeparatorAfterHead(parts: seq<string>, sep: string)
    requires |parts| > 1
    ensures OccursAt(sep, Join(parts, sep), |parts[0]|)
  {
    assert Join(parts, sep) == parts[0] + (sep + Join(parts[1..], sep));
    OccursAfterPrefix(sep, sep + Join(parts[1..], sep), 0, parts[0]);
  }

  /** The step of JoinPartAt: what holds for part k - 1 of the tail holds for part k of
      the whole join, moved right by the first part and one separator. */
  lemma JoinPartShift(parts: seq<string>, sep: string, k: nat)
    requires 0 < k < |parts|
    requires OccursAt(parts[1..][k - 1], Join(parts[1..], sep), Offset(parts[1..], sep, k - 1))
    requires k + 1 < |parts| ==>
               OccursAt(sep, Join(parts[1..], sep), Offset(parts[1..], sep, k - 1) + |parts[1..][k - 1]|)
    ensures OccursAt(parts[k], Join(parts, sep), Offset(parts, sep, k))
    ensures k + 1 < |parts| ==> OccursAt(sep, Join(parts, sep), Offset(parts, sep, k) + |parts[k]|)
  {
    var rest := Join(parts[1..], sep);
    var o := Offset(parts[1..], sep, k - 1);
    assert parts[1..][k - 1] == parts[k];
    assert Join(parts, sep) == (parts[0] + sep) + rest;
    OccursAfterPrefix(parts[k], rest, o, parts[0] + sep);
    if k + 1 < |parts| {
      OccursAfterPrefix(sep, rest, o + |parts[k]|, parts[0] + sep);
    }
  }

  /** A join ends right after its last part: nothing follows it. */
  lemma {:induction false} JoinLength(parts: seq<string>, sep: string)
    requires |parts| > 0
    ensures |Join(parts, sep)| == Offset(parts, sep, |parts| - 1) + |parts[|parts| - 1]|
  {
    if |parts| > 1 {
      JoinLength(parts[1..], sep);
      assert parts[1..][|parts| - 2] == parts[|parts| - 1];
    }
  }

  /** Offsets grow with the index: later parts start after earlier parts end. */
  lemma {:induction false} OffsetsIncrease(parts: seq<string>, sep: string, j: nat, k: nat)
    requires j < k < |parts|
    ensures Offset(parts, sep, j) + |parts[j]| + |sep| <= Offset(parts, sep, k)
  {
    if j > 0 {
      OffsetsIncrease(parts[1..], sep, j - 1, k - 1);
    } else if k > 1 {
      OffsetsIncrease(parts[1..], sep, 0, k - 1);
    }
  }

  /** If `sub` occurs in `mid` and `mid` occurs in `s`, then `sub` occurs in `s`. */
  lemma OccursWithin(sub: string, mid: string, s: string, i: int, j: int)
    requires OccursAt(sub, mid, i) && OccursAt(mid, s, j)
    ensures OccursAt(sub, s, j + i)
  {
    forall t | 0 <= t < |sub|
      ensures s[j + i..j + i + |sub|][t] == sub[t]
    {
      assert s[j..j + |mid|][i + t] == mid[i + t] == mid[i..i + |sub|][t];
    }
  }

  /** Where error k appears in the rendering of an aggregate of several errors. */
  function Position(errors: seq<string>, k: nat): nat
    requires k < |errors|
  {
    |MultiplePrefix| + Offset(Entries(errors), Separator, k) + |ErrorTypeName| + 5
  }

  /** With one error the text is exactly the single-error form, ending with that error. */
  lemma RenderSingle(c: CompositeError)
    requires |c.errors| == 1
    ensures c.Render() == "An error occurred -- [" + ErrorTypeName + "] " + c.errors[0]
    ensures OccursAt(c.errors[0], c.Render(), |c.Render()| - |c.errors[0]|)
  {
  }

  /** With two or more errors the text is the header followed by the joined entries. */
  lemma RenderMultipleForm(c: CompositeError)
    requires |c.errors| >= 2
    ensures c.Render() == MultiplePrefix + Join(Entries(c.errors), Separator)
  {
  }

  /** Part k of a join, and the separator after it, keep their places once a prefix is
      put in front of the join. */
  lemma JoinPartAfterPrefix(pre: string, parts: seq<string>, sep: string, k: nat, r: string)
    requires k < |parts| && r == pre + Join(parts, sep)
    ensures OccursAt(parts[k], r, |pre| + Offset(parts, sep, k))
    ensures k + 1 < |parts| ==> OccursAt(sep, r, |pre| + Offset(parts, sep, k) + |parts[k]|)
  {
    JoinPartAt(parts, sep, k);
    OccursAfterPrefix(parts[k], Join(parts, sep), Offset(parts, sep, k), pre);
    if k + 1 < |parts| {
      OccursAfterPrefix(sep, Join(parts, sep), Offset(parts, sep, k) + |parts[k]|, pre);
    }
  }

  /** With two or more errors, error k's braced entry sits after the header at the
      entry's offset in the join, and the error's text sits inside that entry. */
  lemma {:induction false} RenderMultipleAt(c: CompositeError, k: nat)
    requires |c.errors| >= 2 && k < |c.errors|
    ensures OccursAt(Entry(c.errors[k]), c.Render(), Position(c.errors, k) - |ErrorTypeName| - 5)
    ensures OccursAt(c.errors[k], c.Render(), Position(c.errors, k))
  {
    var es := Entries(c.errors);
    RenderMultipleForm(c);
    JoinPartAfterPrefix(MultiplePrefix, es, Separator, k, c.Render());
    OccursWithin(c.errors[k], es[k], c.Render(), |ErrorTypeName| + 5,
                 |MultiplePrefix| + Offset(es, Separator, k));
  }

  /** With two or more errors, the separator follows every entry but the last. */
  lemma RenderSeparatorAt(c: CompositeError, k: nat)
    requires |c.errors| >= 2 && k + 1 < |c.errors|
    ensures OccursAt(Separator, c.Render(),
                     |MultiplePrefix| + Offset(Entries(c.errors), Separator, k) + |Entry(c.errors[k])|)
  {
    RenderMultipleForm(c);
    JoinPartAfterPrefix(MultiplePrefix, Entries(c.errors), Separator, k, c.Render());
  }

  /** With two or more errors the text ends right after the last entry: the header and
      the entries with their separators make up all of it. */
  lemma RenderLength(c: CompositeError)
    requires |c.errors| >= 2
    ensures |c.Render()| == |MultiplePrefix| + Offset(Entries(c.errors), Separator, |c.errors| - 1)
                            + |Entry(c.errors[|c.errors| - 1])|
  {
    JoinLength(Entries(c.errors), Separator);
  }

  /** With two or more errors the text starts with the multiple-error header, and the
      errors appear in input order: error j ends before error k starts. */
  lemma RenderMultipleInOrder(c: CompositeError, j: nat, k: nat)
    requires |c.errors| >= 2
    requires j < k < |c.errors|
    ensures c.Render()[..|MultiplePrefix|] == "Multiple errors occurred -- "
    ensures OccursAt(c.errors[j], c.Render(), Position(c.errors, j))
    ensures OccursAt(c.errors[k], c.Render(), Position(c.errors, k))
    ensures Position(c.errors, j) + |c.errors[j]| < Position(c.errors, k)
  {
    RenderMultipleAt(c, j);
    RenderMultipleAt(c, k);
    OffsetsIncrease(Entries(c.errors), Separator, j, k);
  }

  /** Every component error's text appears in the rendering. */
  lemma RenderContainsEveryError(c: CompositeError, k: nat)
    requires k < |c.errors|
    ensures exists at :: OccursAt(c.errors[k], c.Render(), at)
  {
    if |c.errors| == 1 {
      RenderSingle(c);
    } else if k + 1 < |c.errors| {
      RenderMultipleInOrder(c, k, k + 1);
    } else {
      RenderMultipleInOrder(c, 0, k);
    }
  }
}
