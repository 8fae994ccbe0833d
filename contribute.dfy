/** The contribution page: a form that appends a fact to the visitor's list of
    submissions after a simulated delay, and a list whose entries can be edited
    in a dialog or deleted after a confirmation. */
module Contribute {
  import opened Common

  datatype Contribution = Contribution(animal: string, category: string, fact: string, source: string)

  const EmptyForm: Contribution := Contribution("", "", "", "")

  const Categories: seq<string> := ["Mamalia", "Burung", "Ikan", "Serangga", "Amfibi", "Reptil", "Cephalopoda"]

  /** The submit guard: animal, category and fact are required, the source is not. */
  predicate Complete(c: Contribution)
  {
    c.animal != "" && c.category != "" && c.fact != ""
  }

  /** The inputs of the form and of the edit dialog. */
  datatype ContributionField = AnimalField | CategoryField | FactField | SourceField

  function FieldValue(c: Contribution, field: ContributionField): string
  {
    match field
    case AnimalField => c.animal
    case CategoryField => c.category
    case FactField => c.fact
    case SourceField => c.source
  }

  /** `{ ...form, [field]: value }`: the field reads back the value and every
      other field is kept. */
  function WithField(c: Contribution, field: ContributionField, value: string): (d: Contribution)
    ensures FieldValue(d, field) == value
    ensures forall other :: other != field ==> FieldValue(d, other) == FieldValue(c, other)
  {
    match field
    case AnimalField => c.(animal := value)
    case CategoryField => c.(category := value)
    case FactField => c.(fact := value)
    case SourceField => c.(source := value)
  }

  /** Filling animal, category and fact, in any state of the source field, is
      what the submit guard asks for. */
  lemma FilledFormIsComplete(c: Contribution, animal: string, category: string, fact: string)
    requires animal != "" && category != "" && fact != ""
    ensures Complete(WithField(WithField(WithField(c, AnimalField, animal), CategoryField, category), FactField, fact))
  {
    var d := WithField(WithField(WithField(c, AnimalField, animal), CategoryField, category), FactField, fact);
    assert FieldValue(d, AnimalField) == animal;
    assert FieldValue(d, CategoryField) == category;
  }

  /** The list without its `index`-th entry, as `splice(index, 1)` leaves it;
      an index past the end removes nothing. */
  function Spliced(s: seq<Contribution>, index: nat): (r: seq<Contribution>)
    ensures index < |s| ==> |r| == |s| - 1
    ensures index >= |s| ==> r == s
    ensures forall i :: 0 <= i < |r| ==> r[i] == (if i < index then s[i] else s[i + 1])
  {
    if index < |s| then s[..index] + s[index + 1..] else s
  }

  /** Deleting keeps the other entries in their order and loses only the deleted one. */
  lemma SplicedKeepsOthers(s: seq<Contribution>, index: nat)
    requires index < |s|
    ensures Subseq(Spliced(s, index), s)
    ensures multiset(Spliced(s, index)) + multiset{s[index]} == multiset(s)
  {
    var front, back := s[..index], s[index + 1..];
    assert s == front + [s[index]] + back;
    assert Spliced(s, index) == front + back;
    PrefixDropIsSubseq(front, s[index], back);
    MultisetDropOne(front, s[index], back);
  }

  lemma MultisetDropOne(a: seq<Contribution>, x: Contribution, b: seq<Contribution>)
    ensures multiset(a + [x] + b) == multiset(a + b) + multiset{x}
  {
  }

  lemma {:induction false} PrefixDropIsSubseq(a: seq<Contribution>, x: Contribution, b: seq<Contribution>)
    ensures Subseq(a + b, a + [x] + b)
    decreases |a|
  {
    if a == [] {
      assert a + [x] + b == [x] + b;
      assert ([x] + b)[1..] == b;
      SubseqRefl(b);
      assert a + b == b;
    } else {
      PrefixDropIsSubseq(a[1..], x, b);
      assert (a + b)[1..] == a[1..] + b;
      assert (a + [x] + b)[1..] == a[1..] + [x] + b;
    }
  }

  /** A fresh array holding the list (`[...submissions]`). */
  method CopyToArray(s: seq<Contribution>) returns (a: array<Contribution>)
    ensures fresh(a) && a[..] == s
  {
    a := new Contribution[|s|];
    var i := 0;
    while i < |s|
      invariant 0 <= i <= |s|
      invariant a[..i] == s[..i]
    {
      a[i] := s[i];
      i := i + 1;
    }
  }

  class ContributePage {
    var form: Contribution
    var isSubmitting: bool
    var submissions: seq<Contribution>
    var isEditing: bool
    var editIndex: Option<nat>
    var editForm: Contribution
    /** The form value captured by a submit that is waiting out its delay. */
    var pending: Option<Contribution>

    constructor ()
      ensures form == EmptyForm && !isSubmitting && submissions == []
      ensures !isEditing && editIndex.None? && editForm == EmptyForm && pending.None?
    {
      form := EmptyForm;
      isSubmitting := false;
      submissions := [];
      isEditing := false;
      editIndex := None;
      editForm := EmptyForm;
      pending := None;
    }

    /** An input of the form; the category comes from the fixed list. */
    method SetField(field: ContributionField, value: string)
      requires field == CategoryField ==> value in Categories
      modifies this
      ensures form == WithField(old(form), field, value)
      ensures isSubmitting == old(isSubmitting) && submissions == old(submissions) && pending == old(pending)
      ensures isEditing == old(isEditing) && editIndex == old(editIndex) && editForm == old(editForm)
    {
      form := WithField(form, field, value);
    }

    /** An input of the edit dialog. */
    method SetEditField(field: ContributionField, value: string)
      requires field == CategoryField ==> value in Categories
      modifies this
      ensures editForm == WithField(old(editForm), field, value)
      ensures form == old(form) && isSubmitting == old(isSubmitting) && pending == old(pending)
      ensures submissions == old(submissions) && isEditing == old(isEditing) && editIndex == old(editIndex)
    {
      editForm := WithField(editForm, field, value);
    }

    /** The dialog closed without saving (`onOpenChange(false)`): the list is
        untouched. */
    method CloseDialog()
      modifies this
      ensures !isEditing
      ensures form == old(form) && isSubmitting == old(isSubmitting) && pending == old(pending)
      ensures submissions == old(submissions) && editIndex == old(editIndex) && editForm == old(editForm)
    {
      isEditing := false;
    }

    /** `handleSubmit` up to its delay: an incomplete form is rejected and
        nothing changes; otherwise the form is captured and submitting starts.
        The button is disabled while submitting. */
    method Submit() returns (accepted: bool)
      modifies this
      ensures accepted <==> !old(isSubmitting) && Complete(old(form))
      ensures accepted ==> isSubmitting && pending == Some(old(form))
      ensures !accepted ==> isSubmitting == old(isSubmitting) && pending == old(pending)
      ensures submissions == old(submissions) && form == old(form)
      ensures isEditing == old(isEditing) && editIndex == old(editIndex) && editForm == old(editForm)
    {
      if isSubmitting || !Complete(form) {
        return false;
      }
      isSubmitting := true;
      pending := Some(form);
      accepted := true;
    }

    /** The delay has passed: the captured form is appended and the form is emptied. */
    method CompleteSubmit()
      requires pending.Some?
      modifies this
      ensures submissions == old(submissions) + [old(pending).value]
      ensures form == EmptyForm && !isSubmitting && pending.None?
      ensures isEditing == old(isEditing) && editIndex == old(editIndex) && editForm == old(editForm)
    {
      submissions := submissions + [pending.value];
      form := EmptyForm;
      isSubmitting := false;
      pending := None;
    }

    /** The pencil button of entry `index`. */
    method EditClick(index: nat)
      requires index < |submissions|
      modifies this
      ensures submissions == old(submissions) && form == old(form)
      ensures editForm == submissions[index] && editIndex == Some(index) && isEditing
      ensures isSubmitting == old(isSubmitting) && pending == old(pending)
    {
      editForm := submissions[index];
      editIndex := Some(index);
      isEditing := true;
    }

    /** The dialog's save button: with no index nothing happens; otherwise only
        the entry at the index is replaced. */
    method EditSave()
      requires editIndex.Some? ==> editIndex.value < |submissions|
      modifies this
      ensures editIndex == old(editIndex) && editForm == old(editForm) && form == old(form)
      ensures isSubmitting == old(isSubmitting) && pending == old(pending)
      ensures editIndex.None? ==> submissions == old(submissions) && isEditing == old(isEditing)
      ensures editIndex.Some? ==>
                |submissions| == |old(submissions)| && !isEditing
                && submissions[editIndex.value] == editForm
                && forall i :: 0 <= i < |submissions| && i != editIndex.value ==> submissions[i] == old(submissions)[i]
    {
      if editIndex.None? {
        return;
      }
      var updated := CopyToArray(submissions);
      updated[editIndex.value] := editForm;
      submissions := updated[..];
      isEditing := false;
    }

    /** A pencil click followed by a save without changes leaves the list as it was. */
    method EditUnchanged(index: nat)
      requires index < |submissions|
      modifies this
      ensures submissions == old(submissions) && !isEditing
    {
      EditClick(index);
      EditSave();
    }

    /** The trash button of entry `index`, after the confirmation dialog answered
        `confirmed`: the entry is spliced out of a copy of the list in place. */
    method Delete(index: nat, confirmed: bool)
      modifies this
      ensures submissions == (if confirmed then Spliced(old(submissions), index) else old(submissions))
      ensures form == old(form) && isSubmitting == old(isSubmitting) && pending == old(pending)
      ensures isEditing == old(isEditing) && editIndex == old(editIndex) && editForm == old(editForm)
    {
      if !confirmed {
        return;
      }
      var updated := CopyToArray(submissions);
      var n := updated.Length;
      if index < n {
        var i := index;
        while i < n - 1
          modifies updated
          invariant index <= i <= n - 1
          invariant updated[..index] == old(submissions)[..index]
          invariant forall k :: index <= k < i ==> updated[k] == old(submissions)[k + 1]
          invariant forall k :: i <= k < n ==> updated[k] == old(submissions)[k]
        {
          updated[i] := updated[i + 1];
          i := i + 1;
        }
        submissions := updated[..n - 1];
      }
    }
  }
}
