/** Mailing.clean: the model-level date rules, checked on every validating
    save (full_clean). */
module Validation {
  import opened Wrappers

  /** The two ValidationErrors clean can raise. */
  datatype DateError = PastStart | BadOrder

  function ErrorMessage(e: DateError): string {
    match e
    case PastStart => "Дата начала не может быть в прошлом"
    case BadOrder => "Дата начала должна быть раньше даты окончания"
  }

  /** The start and end stored in the database for an existing mailing. */
  datatype Window = Window(start: int, end: int)

  /** What clean does: return normally, raise a ValidationError, or raise
      Mailing.DoesNotExist from its lookup of the stored original. */
  datatype CleanOutcome = Accepted | Rejected(error: DateError) | OriginalMissing

  /** An existing mailing (pk set) whose start and end are those stored. */
  predicate DatesUnchanged(pk: nat, start: Option<int>, end: Option<int>, original: Option<Window>) {
    pk != 0 && original.Some? && start == Some(original.value.start) && end == Some(original.value.end)
  }

  /** Mailing.clean. `pk` 0 stands for an unsaved mailing (pk None);
      `original` is the row stored under pk, if any; a start or end of None is
      a field not filled in. */
  function ModelClean(pk: nat, start: Option<int>, end: Option<int>, original: Option<Window>, now: int): (r: CleanOutcome)
    ensures r == OriginalMissing <==> pk != 0 && original.None?
    ensures DatesUnchanged(pk, start, end, original) ==> r == Accepted
    ensures r == Rejected(PastStart) <==>
              pk == 0 && start.Some? && end.Some? && start.value < now
    ensures r == Rejected(BadOrder) <==>
              (pk == 0 || (original.Some? && !DatesUnchanged(pk, start, end, original)))
              && start.Some? && end.Some?
              && !(pk == 0 && start.value < now)
              && start.value >= end.value
  {
    if pk != 0 && original.None? then OriginalMissing
    else if DatesUnchanged(pk, start, end, original) then Accepted
    else if start.Some? && end.Some? then
      if pk == 0 && start.value < now then Rejected(PastStart)
      else if start.value >= end.value then Rejected(BadOrder)
      else Accepted
    else Accepted
  }

  /** An existing mailing whose dates are being changed is never refused for a
      past start: only the ordering rule applies to it. */
  lemma EditsOnlyCheckOrdering(pk: nat, start: int, end: int, original: Window, now: int)
    requires pk != 0
    ensures ModelClean(pk, Some(start), Some(end), Some(original), now) ==
            (if (start == original.start && end == original.end) || start < end then Accepted
             else Rejected(BadOrder))
  {
  }
}
