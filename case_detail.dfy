/** The case detail page: the case looked up by the id in the route, a
    local status that the three case actions set, and a note box that is
    cleared when a note with text is added. Neither touches the case record. */
module CaseDetail {
  import opened Common
  import opened CaseData

  // ---------------------------------------------------------------------------
  // Lookup
  // ---------------------------------------------------------------------------

  /** `cases.find(c => c.id === caseId)`. */
  function FindCase(cs: seq<Case>, caseId: string): (r: Option<Case>)
    ensures r.None? <==> forall c :: c in cs ==> c.id != caseId
    ensures r.Some? ==> r.value in cs && r.value.id == caseId
    decreases |cs|
  {
    if cs == [] then None
    else if cs[0].id == caseId then Some(cs[0])
    else FindCase(cs[1..], caseId)
  }

  /** The case shown is the first one carrying the id. */
  lemma {:induction false} FindCaseIsFirst(cs: seq<Case>, caseId: string, i: nat)
    requires i < |cs| && cs[i].id == caseId
    requires forall j :: 0 <= j < i ==> cs[j].id != caseId
    ensures FindCase(cs, caseId) == Some(cs[i])
    decreases i
  {
    if i > 0 {
      FindCaseIsFirst(cs[1..], caseId, i - 1);
    }
  }

  // ---------------------------------------------------------------------------
  // Case actions
  // ---------------------------------------------------------------------------

  datatype CaseAction = ConfirmFraud | MarkFalsePositive | CloseCase

  /** The status each action button sets. */
  function Target(a: CaseAction): CaseStatus
  {
    match a
    case ConfirmFraud => ConfirmedFraud
    case MarkFalsePositive => FalsePositive
    case CloseCase => Closed
  }

  /** A button is disabled while the status already is its target. */
  predicate ButtonDisabled(status: CaseStatus, a: CaseAction)
  {
    status == Target(a)
  }

  /** At most one button is disabled at a time; an open or under-review case
      has all three enabled, and after an action exactly its own button is
      disabled. */
  lemma ButtonGuards(status: CaseStatus, a: CaseAction, b: CaseAction)
    ensures ButtonDisabled(status, a) && ButtonDisabled(status, b) ==> a == b
    ensures (status == Open || status == UnderReview) ==> !ButtonDisabled(status, a)
    ensures ButtonDisabled(Target(a), b) <==> a == b
  {
  }

  // ---------------------------------------------------------------------------
  // Notes
  // ---------------------------------------------------------------------------

  /** The note box after Add Note: emptied when the text has a non-blank
      character, left alone otherwise. */
  function NoteAfterAdd(note: string): (r: string)
  {
    if Trim(note) != [] then "" else note
  }

  /** A blank note is kept as typed, any other note is cleared, and a second
      click changes nothing more. */
  lemma NoteAfterAddCases(note: string)
    ensures (forall i :: 0 <= i < |note| ==> IsWhitespace(note[i])) ==> NoteAfterAdd(note) == note
    ensures (exists i :: 0 <= i < |note| && !IsWhitespace(note[i])) ==> NoteAfterAdd(note) == ""
    ensures NoteAfterAdd(NoteAfterAdd(note)) == NoteAfterAdd(note)
  {
    assert Trim("") == [];
  }

  // ---------------------------------------------------------------------------
  // Page state
  // ---------------------------------------------------------------------------

  class CaseDetailView {
    /** The looked-up case; nothing on the page replaces or edits it. */
    const caseItem: Option<Case>
    var localStatus: CaseStatus
    var newNote: string

    /** The page opened on the route id: the status starts as the case's
        own; with no case the page shows "Case Not Found". */
    constructor (cs: seq<Case>, caseId: string)
      ensures caseItem == FindCase(cs, caseId)
      ensures ShowsNotFound() <==> forall c :: c in cs ==> c.id != caseId
      ensures caseItem.Some? ==> localStatus == caseItem.value.status
      ensures caseItem.None? ==> localStatus == Open
      ensures newNote == ""
    {
      caseItem := FindCase(cs, caseId);
      localStatus := if FindCase(cs, caseId).Some? then FindCase(cs, caseId).value.status else Open;
      newNote := "";
    }

    /** The page renders "Case Not Found" instead of the case. */
    predicate ShowsNotFound()
    {
      caseItem.None?
    }

    /** Typing in the note box. */
    method SetNewNote(text: string)
      modifies this`newNote
      ensures newNote == text
    {
      newNote := text;
    }

    /** `handleAddNote`. */
    method AddNote()
      modifies this`newNote
      ensures newNote == NoteAfterAdd(old(newNote))
      ensures Trim(old(newNote)) != [] ==> newNote == ""
      ensures Trim(old(newNote)) == [] ==> newNote == old(newNote)
    {
      if Trim(newNote) != [] {
        newNote := "";
      }
    }

    /** `handleStatusChange`: only the local status changes. */
    method ChangeStatus(s: CaseStatus)
      modifies this`localStatus
      ensures localStatus == s
    {
      localStatus := s;
    }

    /** A click on an action button: the status becomes the button's target,
        from any status, and only that button ends up disabled. */
    method Perform(a: CaseAction)
      modifies this`localStatus
      ensures localStatus == Target(a)
      ensures ButtonDisabled(localStatus, a)
      ensures forall b :: b != a ==> !ButtonDisabled(localStatus, b)
    {
      ChangeStatus(Target(a));
    }

    /** `handleConfirmFraud`. */
    method HandleConfirmFraud()
      modifies this`localStatus
      ensures localStatus == ConfirmedFraud
    {
      Perform(ConfirmFraud);
    }

    /** `handleMarkFalsePositive`. */
    method HandleMarkFalsePositive()
      modifies this`localStatus
      ensures localStatus == FalsePositive
    {
      Perform(MarkFalsePositive);
    }

    /** `handleCloseCase`; the delayed return to the inbox is not modelled. */
    method HandleCloseCase()
      modifies this`localStatus
      ensures localStatus == Closed
    {
      Perform(CloseCase);
    }

    /** The status badge text. */
    function Label(): (r: string)
      reads this
      ensures forall i :: 0 <= i < |r| ==> r[i] != '_'
    {
      StatusLabelHasNoUnderscore(localStatus);
      StatusLabel(localStatus)
    }
  }
}
