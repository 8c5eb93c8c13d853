/** The Mailing model object: its fields, the validating and non-validating
    save paths, the status refresh and the dispatch loop. */
module Models {
  import opened Wrappers
  import opened Status
  import opened Entities
  import opened Validation
  import opened Dispatch
  import Text

  /** The persisted columns of a mailing that the core reads back. */
  datatype Row = Row(startTime: int, endTime: int, status: MailingStatus)

  /** What a call of Mailing.save does: write, or raise because full_clean
      failed, or raise because an update of chosen columns was asked of an
      unsaved object (Django's ValueError for update_fields without a pk). */
  datatype SaveOutcome = Saved | CleanFailed(clean: CleanOutcome) | NoPrimaryKey

  class Mailing {
    /** 0 while the mailing is unsaved (Python's pk None). */
    var pk: nat
    var startTime: int
    var endTime: int
    var status: MailingStatus
    var message: Message
    var recipients: seq<Client>
    var owner: Option<nat>
    /** The row of this mailing in the database, once saved. */
    var stored: Option<Row>
    /** The MailingAttempt rows whose mailing is this one, oldest first
        (the `attempts` related name). They are only ever appended to. */
    var attempts: seq<MailingAttempt>
    /** Number of saves that reached the database. */
    var writes: nat

    ghost predicate Valid()
      reads this
    {
      pk != 0 <==> stored.Some?
    }

    /** A mailing just read from the database: saved, and its fields equal
        to its row. */
    ghost predicate Loaded()
      reads this
    {
      Valid() && pk != 0 && stored == Some(Row(startTime, endTime, status))
    }

    function StoredWindow(): (w: Option<Window>)
      reads this
      ensures w.Some? <==> stored.Some?
      ensures w.Some? ==> w.value == Window(stored.value.startTime, stored.value.endTime)
    {
      if stored.Some? then Some(Window(stored.value.startTime, stored.value.endTime)) else None
    }

    /** A new, unsaved mailing; `status` has its default `created`. */
    constructor (startTime: int, endTime: int, message: Message, recipients: seq<Client>, owner: Option<nat>)
      ensures Valid()
      ensures this.startTime == startTime && this.endTime == endTime
      ensures this.message == message && this.recipients == recipients && this.owner == owner
      ensures status == Created && pk == 0 && stored == None && attempts == [] && writes == 0
    {
      this.pk := 0;
      this.startTime := startTime;
      this.endTime := endTime;
      this.status := Created;
      this.message := message;
      this.recipients := recipients;
      this.owner := owner;
      this.stored := None;
      this.attempts := [];
      this.writes := 0;
    }

    /** Mailing.save. Unless `skipValidation`, clean runs first (against the
        stored original) and a failure prevents the write. `statusOnly` is
        save(update_fields=["status"]): only the status column is written, and
        only an already saved mailing can be written that way. Otherwise the
        whole row is written and an unsaved mailing receives `insertPk`, the
        pk the database assigns. */
    method Save(skipValidation: bool, statusOnly: bool, now: int, insertPk: nat) returns (r: SaveOutcome)
      requires Valid()
      requires insertPk != 0
      modifies this`pk, this`stored, this`writes
      ensures Valid()
      ensures var c := ModelClean(old(pk), Some(startTime), Some(endTime), old(StoredWindow()), now);
        r == (if !skipValidation && c != Accepted then CleanFailed(c)
              else if statusOnly && old(pk) == 0 then NoPrimaryKey
              else Saved)
      ensures r != Saved ==> pk == old(pk) && stored == old(stored) && writes == old(writes)
      ensures r == Saved ==> writes == old(writes) + 1
      ensures r == Saved && statusOnly ==>
        pk == old(pk) && old(stored).Some? && stored == Some(old(stored).value.(status := status))
      ensures r == Saved && !statusOnly ==>
        pk == (if old(pk) == 0 then insertPk else old(pk)) && stored == Some(Row(startTime, endTime, status))
    {
      if !skipValidation {
        var c := ModelClean(pk, Some(startTime), Some(endTime), StoredWindow(), now);
        if c != Accepted {
          return CleanFailed(c);
        }
      }
      if statusOnly {
        if pk == 0 {
          return NoPrimaryKey;
        }
        stored := Some(stored.value.(status := status));
      } else {
        if pk == 0 {
          pk := insertPk;
        }
        stored := Some(Row(startTime, endTime, status));
      }
      writes := writes + 1;
      r := Saved;
    }

    /** Mailing.update_status: set `status` from the clock and, only when it
        changed, write it through the non-validating status-only save. That
        save raises on an unsaved mailing, which is the one failure. */
    method UpdateStatus(now: int) returns (r: Result<MailingStatus, SaveOutcome>)
      requires Valid()
      modifies this`status, this`pk, this`stored, this`writes
      ensures Valid() && pk == old(pk)
      ensures status == Evaluate(startTime, endTime, now)
      ensures r == (if old(status) != status && pk == 0 then Err(NoPrimaryKey) else Ok(status))
      ensures old(status) == status || pk == 0 ==> stored == old(stored) && writes == old(writes)
      ensures old(status) != status && pk != 0 ==>
        writes == old(writes) + 1 && old(stored).Some? && stored == Some(old(stored).value.(status := status))
    {
      var newStatus := Evaluate(startTime, endTime, now);
      if status != newStatus {
        status := newStatus;
        var saved := Save(true, true, now, 1);
        if saved != Saved {
          return Err(saved);
        }
      }
      r := Ok(status);
    }

    /** Mailing.send_mailing, with `transport[k]` the outcome of send_mail for
        `recipients[k]`. Only saved mailings can be sent (Django refuses the
        recipients relation of an unsaved object). */
    method SendMailing(now: int, transport: seq<TransportOutcome>) returns (ok: bool, summary: string)
      requires Valid() && pk != 0
      requires |transport| == |recipients|
      modifies this`status, this`pk, this`stored, this`writes, this`attempts
      ensures Valid() && pk == old(pk)
      ensures status == Evaluate(startTime, endTime, now)
      ensures old(status) == status ==> stored == old(stored) && writes == old(writes)
      ensures old(status) != status ==>
        writes == old(writes) + 1 && old(stored).Some? && stored == Some(old(stored).value.(status := status))
      ensures var spec := Send(status, pk, recipients, transport);
        ok == spec.ok && summary == spec.message && attempts == old(attempts) + spec.attempts
    {
      var refreshed := UpdateStatus(now);
      if status != Started {
        return false, NotActiveMessage(status);
      }
      if |recipients| == 0 {
        return false, NoRecipientsMessage;
      }
      var successCount, failCount := SendToRecipients(transport);
      ok, summary := true, Summary(successCount, failCount);
    }

    /** The body of the try block for one recipient: a `success` row when
        send_mail returned 1, else a `failed` row carrying the error text cut
        to 200 characters. */
    method AttemptOf(email: string, outcome: TransportOutcome) returns (delivered: bool, attempt: MailingAttempt)
      ensures delivered <==> Delivered(outcome)
      ensures attempt == AttemptFor(pk, email, outcome)
    {
      if outcome.Returned? && outcome.count == 1 {
        delivered := true;
        attempt := MailingAttempt(Success, SuccessResponse(email), pk);
      } else {
        var error := if outcome.Raised? then outcome.error else NotSentError(outcome.count);
        var errorText := Text.Truncate(error, MaxErrorText);
        delivered := false;
        attempt := MailingAttempt(Failed, FailureResponse(email, errorText), pk);
      }
    }

    /** The `for recipient in recipients` loop of send_mailing: one send_mail
        per recipient, whose outcome decides a `success` or a `failed` attempt
        and which counter goes up; a failure never stops the loop. */
    method SendToRecipients(transport: seq<TransportOutcome>) returns (successCount: nat, failCount: nat)
      requires |transport| == |recipients|
      modifies this`attempts
      ensures attempts == old(attempts) + AttemptsFor(pk, recipients, transport)
      ensures successCount == Successes(transport) && failCount == Failures(transport)
    {
      successCount, failCount := 0, 0;
      var i := 0;
      while i < |recipients|
        invariant 0 <= i <= |recipients|
        invariant attempts == old(attempts) + AttemptsFor(pk, recipients[..i], transport[..i])
        invariant successCount == Successes(transport[..i])
        invariant failCount == Failures(transport[..i])
      {
        var delivered, attempt := AttemptOf(recipients[i].email, transport[i]);
        if delivered {
          successCount := successCount + 1;
        } else {
          failCount := failCount + 1;
        }
        attempts := attempts + [attempt];
        PrefixStep(pk, recipients, transport, i);
        i := i + 1;
      }
      assert recipients[..i] == recipients && transport[..i] == transport;
    }
  }

  /** Refreshing twice at the same instant: the same status both times, and
      only the first refresh may write (when the status changed); the second
      writes nothing. */
  method RefreshTwice(m: Mailing, now: int) returns (first: Result<MailingStatus, SaveOutcome>, second: Result<MailingStatus, SaveOutcome>)
    requires m.Valid() && m.pk != 0
    modifies m`status, m`pk, m`stored, m`writes
    ensures first == second == Ok(Evaluate(m.startTime, m.endTime, now))
    ensures m.writes == old(m.writes) + (if old(m.status) != Evaluate(m.startTime, m.endTime, now) then 1 else 0)
    ensures m.status == Evaluate(m.startTime, m.endTime, now) && m.pk == old(m.pk)
    ensures m.stored == (if old(m.status) != m.status then Some(old(m.stored).value.(status := m.status)) else old(m.stored))
  {
    first := m.UpdateStatus(now);
    ghost var writesBetween := m.writes;
    second := m.UpdateStatus(now);
    assert m.writes == writesBetween;
  }
}
