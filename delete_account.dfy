/**
 * The account-deletion form: a fixed catalog of deletion reasons, a list of
 * the selected reason indices that checkbox clicks toggle, an optional comment
 * with an eager "too long" flag, and a submit handler that validates both
 * fields against the schema and reports the result.
 */
module DeleteAccount {
  import opened Schema
  import opened Alerts

  /** The reasons offered for deleting an account, referred to by index. */
  const Reasons: seq<string> := [
    "I have privacy concerns.",
    "I no longer find this useful.",
    "I'm receiving irrelevant email contents.",
    "I'm getting too many emails.",
    "Others"
  ]

  /** The schema's `max` on the comment. */
  const MaxCommentLength: nat := 2000

  /** The schema's `min` on the selected reasons. */
  const MinReasons: nat := 1

  const DestroyedTitle: string := "Account successfully destroyed"

  /** What a successful deletion logs: the comment and the chosen reason texts. */
  datatype DeletionLog = DeletionLog(comment: string, reasons: seq<string>)

  /** An index one of the rendered checkboxes can report. */
  predicate InCatalog(index: int)
  {
    0 <= index < |Reasons|
  }

  predicate AllInCatalog(s: seq<int>)
  {
    forall k :: 0 <= k < |s| ==> InCatalog(s[k])
  }

  predicate NoDuplicates<T(==)>(s: seq<T>)
  {
    forall j, k :: 0 <= j < k < |s| ==> s[j] != s[k]
  }

  /** The set of indices a list holds. */
  function Elements(s: seq<int>): set<int>
  {
    set x | x in s
  }

  /** The eager check the comment box runs on every keystroke. */
  predicate CommentTooLong(text: string)
  {
    |text| > MaxCommentLength
  }

  /** `s.indexOf(x)` for an element known to occur: its first position. */
  function IndexOf(s: seq<int>, x: int): (i: nat)
    requires x in s
    ensures i < |s| && s[i] == x
    ensures x !in s[..i]
  {
    if s[0] == x then 0
    else
      var j := IndexOf(s[1..], x);
      assert s[..j + 1] == [s[0]] + s[1..][..j];
      j + 1
  }

  /**
   * The selected list after a click on checkbox `index`: the first
   * occurrence spliced out when it is selected, otherwise pushed at the end.
   */
  function Toggle(s: seq<int>, index: int): seq<int>
  {
    if index in s then
      var i := IndexOf(s, index);
      s[..i] + s[i + 1..]
    else
      s + [index]
  }

  /** Reference definition: `s` with every occurrence of `x` dropped, order kept. */
  function Without(s: seq<int>, x: int): seq<int>
  {
    if s == [] then []
    else if s[0] == x then Without(s[1..], x)
    else [s[0]] + Without(s[1..], x)
  }

  /** `selected.map(index => reasons[index])`. */
  function ResolveReasons(selected: seq<int>): (r: seq<string>)
    requires AllInCatalog(selected)
    ensures |r| == |selected|
    ensures forall k :: 0 <= k < |selected| ==> r[k] == Reasons[selected[k]]
  {
    if selected == [] then [] else [Reasons[selected[0]]] + ResolveReasons(selected[1..])
  }

  /** The issues the deletion schema reports, in the order of its keys. */
  function DeletionIssues(comment: string, selected: seq<int>): (issues: seq<Issue>)
    ensures StringTooLong(MaxCommentLength) in issues <==> |comment| > MaxCommentLength
    ensures ArrayTooShort(MinReasons) in issues <==> |selected| < MinReasons
    ensures issues == [] <==> |comment| <= MaxCommentLength && |selected| >= MinReasons
    ensures forall issue :: issue in issues ==>
      issue in [StringTooLong(MaxCommentLength), ArrayTooShort(MinReasons)]
    ensures |issues| ==
      (if |comment| > MaxCommentLength then 1 else 0) + (if |selected| < MinReasons then 1 else 0)
  {
    (if |comment| > MaxCommentLength then [StringTooLong(MaxCommentLength)] else [])
    + (if |selected| < MinReasons then [ArrayTooShort(MinReasons)] else [])
  }

  /** The popup and log of a submit, given the form's comment and selection. */
  function DeletionOutcome(comment: string, selected: seq<int>): (o: Outcome<DeletionLog>)
    requires AllInCatalog(selected)
    ensures o.Success? <==> |comment| <= MaxCommentLength && |selected| >= MinReasons
    ensures o.Error? ==> o.issues == DeletionIssues(comment, selected) && o.issues != []
    ensures o.Error? ==>
      o.alerts == [Alert(ErrorIcon, None, Some(ErrorText(o.issues)), false, ErrorTimer, false)]
    ensures o.Success? ==>
      o.alerts == [Alert(SuccessIcon, Some(DestroyedTitle), None, false, SuccessTimer, false)]
    ensures o.Success? ==> o.logged.comment == comment
    ensures o.Success? ==>
      |o.logged.reasons| == |selected| &&
      forall k :: 0 <= k < |selected| ==> o.logged.reasons[k] == Reasons[selected[k]]
  {
    var issues := DeletionIssues(comment, selected);
    if issues != [] then
      Error(issues, [Alert(ErrorIcon, None, Some(ErrorText(issues)), false, ErrorTimer, false)])
    else
      Success(DeletionLog(comment, ResolveReasons(selected)),
              [Alert(SuccessIcon, Some(DestroyedTitle), None, false, SuccessTimer, false)])
  }

  /** The state of one mounted deletion form. */
  class DeleteForm {
    var comment: string
    var commentError: bool
    var selectedReasons: seq<int>

    /**
     * The flag always reflects the current comment, and the selection lists
     * distinct catalog indices.
     */
    ghost predicate Valid()
      reads this
    {
      && commentError == CommentTooLong(comment)
      && NoDuplicates(selectedReasons)
      && AllInCatalog(selectedReasons)
    }

    constructor ()
      ensures Valid()
      ensures comment == "" && !commentError && selectedReasons == []
    {
      comment := "";
      commentError := false;
      selectedReasons := [];
    }

    /** A keystroke in the comment box. */
    method HandleCommentChange(text: string)
      requires Valid()
      modifies this`comment, this`commentError
      ensures Valid()
      ensures comment == text
      ensures commentError == (|text| > MaxCommentLength)
      ensures selectedReasons == old(selectedReasons)
    {
      commentError := CommentTooLong(text);
      comment := text;
    }

    /** A click on the checkbox of reason `index`. */
    method HandleReasonChange(index: int)
      requires Valid()
      requires InCatalog(index)
      modifies this`selectedReasons
      ensures Valid()
      ensures selectedReasons == Toggle(old(selectedReasons), index)
      ensures comment == old(comment) && commentError == old(commentError)
    {
      var next := selectedReasons;
      if index in next {
        var i := IndexOf(next, index);
        next := next[..i] + next[i + 1..];
      } else {
        next := next + [index];
      }
      ToggleKeepsSelectionValid(selectedReasons, index);
      selectedReasons := next;
    }

    /**
     * The submit button. It reads the fields and changes none of them. The
     * inline comment error is shown exactly when the submit fails on the
     * comment rule.
     */
    method HandleSubmit() returns (o: Outcome<DeletionLog>)
      requires Valid()
      ensures o == DeletionOutcome(comment, selectedReasons)
      ensures commentError <==> o.Error? && StringTooLong(MaxCommentLength) in o.issues
    {
      o := DeletionOutcome(comment, selectedReasons);
    }
  }

  /** Clicking an unselected reason keeps the list and appends that index at the end. */
  lemma ToggleAppendsAbsent(s: seq<int>, index: int)
    requires index !in s
    ensures Toggle(s, index) == s + [index]
    ensures index in Toggle(s, index)
  {
  }

  /** Clicking a selected reason removes exactly one occurrence of it and nothing else. */
  lemma ToggleRemovesOneOccurrence(s: seq<int>, index: int)
    requires index in s
    ensures multiset(Toggle(s, index)) == multiset(s) - multiset{index}
  {
    var i := IndexOf(s, index);
    assert s == s[..i] + [index] + s[i + 1..];
  }

  /**
   * On a duplicate-free list, clicking a selected reason leaves the list
   * without that index, the others in their original order.
   */
  lemma {:induction false} ToggleRemovesPresent(s: seq<int>, index: int)
    requires NoDuplicates(s)
    requires index in s
    ensures Toggle(s, index) == Without(s, index)
  {
    var i := IndexOf(s, index);
    var before, after := s[..i], s[i + 1..];
    assert index !in after by {
      forall k | 0 <= k < |after|
        ensures after[k] != index
      {
        assert after[k] == s[i + 1 + k];
      }
    }
    WithoutAbsent(before, index);
    WithoutAbsent(after, index);
    assert ([index] + after)[1..] == after;
    assert Without([index] + after, index) == after;
    assert before + ([index] + after) == s;
    WithoutConcat(before, [index] + after, index);
  }

  /** Removing an index that does not occur changes nothing. */
  lemma {:induction false} WithoutAbsent(s: seq<int>, x: int)
    requires x !in s
    ensures Without(s, x) == s
  {
    if s != [] {
      WithoutAbsent(s[1..], x);
    }
  }

  /** Removal distributes over concatenation. */
  lemma {:induction false} WithoutConcat(a: seq<int>, b: seq<int>, x: int)
    ensures Without(a + b, x) == Without(a, x) + Without(b, x)
  {
    if a != [] {
      assert (a + b)[1..] == a[1..] + b;
      WithoutConcat(a[1..], b, x);
    } else {
      assert a + b == b;
    }
  }

  /** Every click keeps the selection duplicate-free and inside the catalog. */
  lemma ToggleKeepsSelectionValid(s: seq<int>, index: int)
    requires NoDuplicates(s) && AllInCatalog(s)
    requires InCatalog(index)
    ensures NoDuplicates(Toggle(s, index)) && AllInCatalog(Toggle(s, index))
  {
    if index in s {
      var i := IndexOf(s, index);
      var r := s[..i] + s[i + 1..];
      forall k | 0 <= k < |r|
        ensures r[k] == if k < i then s[k] else s[k + 1]
      {
      }
    }
  }

  /**
   * On a duplicate-free list a click is the symmetric difference of the
   * selected set with `{index}`.
   */
  lemma ToggleIsSymmetricDifference(s: seq<int>, index: int)
    requires NoDuplicates(s)
    ensures Elements(Toggle(s, index)) == (Elements(s) - {index}) + ({index} - Elements(s))
  {
  }

  /** Two clicks on an unselected reason restore the exact list. */
  lemma ToggleTwiceFromAbsent(s: seq<int>, index: int)
    requires index !in s
    ensures Toggle(Toggle(s, index), index) == s
  {
  }

  /**
   * Two clicks on a selected reason give back the same elements, with that
   * reason moved to the end.
   */
  lemma ToggleTwiceFromPresent(s: seq<int>, index: int)
    requires NoDuplicates(s)
    requires index in s
    ensures Toggle(Toggle(s, index), index) == Without(s, index) + [index]
    ensures multiset(Toggle(Toggle(s, index), index)) == multiset(s)
  {
    ToggleRemovesPresent(s, index);
    ToggleRemovesOneOccurrence(s, index);
    var r := Toggle(s, index);
    assert index !in multiset(r);
    assert index !in r;
  }

  /** The restored list can differ in order: selecting 0, 1 then clicking 0 twice. */
  lemma ToggleTwiceMayReorder()
    ensures Toggle(Toggle([0, 1], 0), 0) == [1, 0]
  {
  }

  /** The catalog entries are pairwise distinct. */
  lemma CatalogDistinct()
    ensures NoDuplicates(Reasons)
  {
  }

  /** Distinct selected indices resolve to distinct reason texts. */
  lemma ResolvedReasonsDistinct(selected: seq<int>)
    requires AllInCatalog(selected) && NoDuplicates(selected)
    ensures NoDuplicates(ResolveReasons(selected))
  {
    CatalogDistinct();
    var r := ResolveReasons(selected);
    forall j, k | 0 <= j < k < |r|
      ensures r[j] != r[k]
    {
      assert selected[j] != selected[k];
    }
  }

  /** Validation depends only on the comment length and the number of reasons chosen. */
  lemma ValidationIgnoresWhichReasons(comment: string, s: seq<int>, t: seq<int>)
    requires AllInCatalog(s) && AllInCatalog(t)
    requires |s| == |t|
    ensures DeletionIssues(comment, s) == DeletionIssues(comment, t)
    ensures DeletionOutcome(comment, s).Success? == DeletionOutcome(comment, t).Success?
  {
  }

  /**
   * With a short comment and nothing selected, submit shows exactly one error
   * popup whose text is the array-minimum message.
   */
  lemma NoReasonSelectedError(comment: string)
    requires |comment| <= MaxCommentLength
    ensures DeletionOutcome(comment, []) ==
      Error([ArrayTooShort(1)],
            [Alert(ErrorIcon, None, Some("Array must contain at least 1 element(s)"), false, 5000, false)])
  {
    SingleIssueText(ArrayTooShort(1));
    assert DecimalText(1) == "1";
    assert Message(ArrayTooShort(1)) == "Array must contain at least 1 element(s)";
  }

  /** A comment over the limit is rejected whatever reasons are chosen. */
  lemma LongCommentRejected(comment: string, selected: seq<int>)
    requires AllInCatalog(selected)
    requires |comment| > MaxCommentLength
    ensures DeletionOutcome(comment, selected).Error?
    ensures StringTooLong(MaxCommentLength) in DeletionOutcome(comment, selected).issues
  {
  }

  /** The eager flag and the schema agree on when the comment is too long. */
  lemma EagerAndSchemaCommentChecksAgree(comment: string, selected: seq<int>)
    ensures CommentTooLong(comment) <==> StringTooLong(MaxCommentLength) in DeletionIssues(comment, selected)
  {
  }

  /** Typing a 2001-character comment shows the inline error. */
  method LongCommentScenario() returns (shown: bool)
    ensures shown
  {
    var form := new DeleteForm();
    form.HandleCommentChange(seq(2001, _ => 'a'));
    shown := form.commentError;
  }

  /** Submitting "Test comment" with no reason selected fires one error popup. */
  method NoReasonScenario() returns (o: Outcome<DeletionLog>)
    ensures o == Error([ArrayTooShort(1)],
      [Alert(ErrorIcon, None, Some("Array must contain at least 1 element(s)"), false, 5000, false)])
  {
    var form := new DeleteForm();
    form.HandleCommentChange("Test comment");
    o := form.HandleSubmit();
    NoReasonSelectedError("Test comment");
  }
}
