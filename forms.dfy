/** MailingForm: the form-level date rules and the ownership restriction of
    the selectable messages and recipients. */
module Forms {
  import opened Wrappers
  import opened Entities
  import opened Validation

  /** The cleaned_data of a MailingForm (its fields start_time, end_time,
      message and recipients); a missing or invalid field is None. */
  datatype CleanedData = CleanedData(
    startTime: Option<int>,
    endTime: Option<int>,
    message: Option<Message>,
    recipients: set<Client>)

  predicate HasBothDates(data: CleanedData) {
    data.startTime.Some? && data.endTime.Some?
  }

  /** MailingForm.clean: with both dates present, a start before now is
      refused first, then a start not before the end; otherwise cleaned_data
      comes back as it was. The past-start rule applies to every submission,
      new mailing or edit. */
  function FormClean(data: CleanedData, now: int): (r: Result<CleanedData, DateError>)
    ensures !HasBothDates(data) ==> r == Ok(data)
    ensures r.Ok? ==> r.value == data
    ensures r == Err(PastStart) <==> HasBothDates(data) && data.startTime.value < now
    ensures r == Err(BadOrder) <==>
              HasBothDates(data) && now <= data.startTime.value && data.endTime.value <= data.startTime.value
    ensures r.Ok? <==> !HasBothDates(data) || now <= data.startTime.value < data.endTime.value
  {
    if HasBothDates(data) then
      if data.startTime.value < now then Err(PastStart)
      else if data.startTime.value >= data.endTime.value then Err(BadOrder)
      else Ok(data)
    else Ok(data)
  }

  /** For a new mailing the form and the model apply the same rules. */
  lemma FormAgreesWithModelOnCreate(data: CleanedData, now: int)
    ensures var m := ModelClean(0, data.startTime, data.endTime, None, now);
      && (FormClean(data, now).Ok? <==> m == Accepted)
      && (forall e :: FormClean(data, now) == Err(e) <==> m == Rejected(e))
  {
  }

  /** The form refuses everything the model refuses on dates, for new and
      existing mailings alike. */
  lemma FormAtLeastAsStrict(pk: nat, data: CleanedData, original: Option<Window>, now: int)
    requires ModelClean(pk, data.startTime, data.endTime, original, now).Rejected?
    ensures FormClean(data, now).Err?
  {
  }

  /** The two rule sets differ on every edit of a mailing that has already
      started and keeps its dates: the model lets it through since its dates
      are unchanged, the form refuses it for a past start. */
  lemma FormStricterOnEdit(pk: nat, w: Window, data: CleanedData, now: int)
    requires pk != 0 && data.startTime == Some(w.start) && data.endTime == Some(w.end) && w.start < now
    ensures ModelClean(pk, data.startTime, data.endTime, Some(w), now) == Accepted
    ensures FormClean(data, now) == Err(PastStart)
  {
  }

  /** The querysets of the message and recipients fields. */
  datatype Choices = Choices(messages: set<Message>, recipients: set<Client>)

  /** MailingForm.__init__: given a user, each field offers exactly the
      records that user owns; without one, everything is offered. */
  function FormChoices(messages: set<Message>, clients: set<Client>, user: Option<nat>): (r: Choices)
    ensures user.None? ==> r == Choices(messages, clients)
    ensures r.messages <= messages && r.recipients <= clients
    ensures user.Some? ==> forall m :: m in messages ==> (m in r.messages <==> m.owner == user)
    ensures user.Some? ==> forall c :: c in clients ==> (c in r.recipients <==> c.owner == user)
  {
    if user.Some? then
      Choices(set m | m in messages && m.owner == user, set c | c in clients && c.owner == user)
    else Choices(messages, clients)
  }

  /** Two different users are never offered the same message or recipient. */
  lemma ChoicesAreIsolated(messages: set<Message>, clients: set<Client>, u: nat, v: nat)
    requires u != v
    ensures FormChoices(messages, clients, Some(u)).messages !! FormChoices(messages, clients, Some(v)).messages
    ensures FormChoices(messages, clients, Some(u)).recipients !! FormChoices(messages, clients, Some(v)).recipients
  {
  }
}
