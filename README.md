# Mailing lifecycle and dispatch

A Dafny model of the part of the mailing service that decides when a mailing
runs and what happens when it is sent:

- the **status engine** (`Mailing.update_status`). It classifies the current
  instant against the mailing's window as `created`, `started` or `completed`,
  and writes the status only when it changes, through the save path that
  skips validation (`Mailing.save` with `skip_validation`);
- the **date rules** of the model (`Mailing.clean`) and of the form
  (`MailingForm.clean`), and the form's restriction of the selectable
  messages and recipients to those its user owns (`MailingForm.__init__`);
- the **dispatch loop** (`Mailing.send_mailing`). It refreshes the status,
  refuses a mailing that is not running or has no recipients, and otherwise
  makes one transport call per recipient. Each call appends one
  `MailingAttempt` row and bumps one of two counters;
- the **`send_mailings` command**. It routes between one mailing (behind the
  `--force` gate) and all active mailings. In the batch branch it adds up the
  totals that it parses back out of each mailing's summary string.

How the model represents the program:

- Datetimes are integers, and `timezone.now()` is a parameter `now`.
- `send_mail` is an oracle: for each recipient, either `Returned(count)` or
  `Raised(text)`. One sequence of outcomes is given per mailing, indexed like
  its recipients.
- A `Mailing` is a class whose fields are updated in place:
  - its status;
  - its pk, with 0 standing for Python's `None`;
  - its stored database row;
  - its append-only list of attempts;
  - a counter of database writes.
- The pure rules (classification, `clean`, the form) are functions.
- `send_mailing`, the command's batch loop and `send_single_mailing` are
  methods, proved against specification functions (`Dispatch.Send`,
  `SendMailings.SingleSpec`, `SendMailings.CreditUpTo`).

Modules, in dependency order:

| Module | File | What it holds |
|---|---|---|
| `Wrappers` | `wrappers.dfy` | Option and Result |
| `Entities` | `entities.dfy` | Client and Message |
| `Text` | `text.dfy` | the Python string behaviour used: `str(n)`, `int(s)`, `re.findall(r'\d+', s)`, `in`, `s[:n]` |
| `Status` | `status.dfy` | the status classification |
| `Validation` | `validation.dfy` | `Mailing.clean` |
| `Forms` | `forms.dfy` | `MailingForm` |
| `Dispatch` | `dispatch.dfy` | `send_mailing` as a function: its attempts, counters and return value |
| `Models` | `models.dfy` | the `Mailing` class with `save`, `update_status` and `send_mailing` |
| `SendMailings` | `send_mailings.dfy` | the management command |

## Model

| member | source | states |
|---|---|---|
| Status.Evaluate | mailings/models.py:130-135 | `created` iff now < start, `started` iff start <= now <= end (both boundaries included), `completed` iff start <= now and end < now; so the three cases are exhaustive and exclusive |
| Status.EvaluateIsMonotone | mailings/models.py:130-135 | as time passes, the status never moves backwards along created, started, completed |
| Status.EmptyWindowSkipsStarted | mailings/models.py:130-135 | a mailing whose end is before its start is never `started` |
| Validation.ModelClean | mailings/models.py:94-122 | existing pk without a stored row raises DoesNotExist; an existing mailing with unchanged dates is accepted; the past-start error iff there is no pk, both dates are set and start < now; the ordering error iff the checks are reached with both dates set, past-start not raised, and start >= end |
| Validation.EditsOnlyCheckOrdering | mailings/models.py:97-122 | on an existing mailing, clean accepts unchanged dates or start < end, and otherwise raises only the ordering error, never past-start |
| Forms.FormClean | mailings/forms.py:67-81 | with a date missing, no error and cleaned_data unchanged; with both dates, past-start iff start < now (checked first, on create and edit alike), ordering iff now <= start and end <= start, and success iff now <= start < end; a success returns cleaned_data unchanged |
| Forms.FormAgreesWithModelOnCreate | mailings/forms.py:67-81 | for a new mailing, the form and the model accept the same data and raise the same error |
| Forms.FormAtLeastAsStrict | mailings/forms.py:67-81 | whenever the model rejects the dates, the form rejects them too, possibly as past-start where the model reports the ordering error (an edit with changed dates in the past) |
| Forms.FormStricterOnEdit | mailings/forms.py:72-74 | for every edit of a mailing whose unchanged start is already past, the model accepts it and the form refuses it as past-start |
| Forms.FormChoices | mailings/forms.py:59-65 | with a user, the offered messages and recipients are exactly those that user owns; without one, everything is offered |
| Forms.ChoicesAreIsolated | mailings/forms.py:62-65 | two different users are never offered the same message or recipient |
| Models.Mailing.constructor | mailings/models.py:59-83 | a new mailing is unsaved, has status `created`, and has no attempts |
| Models.Mailing.Save | mailings/models.py:144-152 | unless skip_validation, a failing clean prevents the write; a status-only save of an unsaved mailing raises; otherwise exactly one write: of the status column only, or of the whole row, with a pk assigned to a new mailing |
| Models.Mailing.UpdateStatus | mailings/models.py:124-142 | the status becomes Evaluate(start, end, now) and is returned; start and end are untouched; it writes the stored status exactly once when the status changed and nothing otherwise; the only failure is a change on an unsaved mailing |
| Models.RefreshTwice | mailings/models.py:137-142 | two refreshes at the same instant return the same status; together they write once, and update the stored row's status, if the status changed, and otherwise write nothing and leave the stored row as it was, so the second refresh writes nothing; the window, attempts and pk stay as they were |
| Models.Mailing.SendMailing | mailings/models.py:157-228 | refreshes the status as UpdateStatus does; its return value and the attempts it appends are exactly those of Dispatch.Send for the refreshed status |
| Models.Mailing.AttemptOf | mailings/models.py:190-225 | the recipient counts as delivered iff send_mail returned 1; the attempt is that recipient's AttemptFor row |
| Models.Mailing.SendToRecipients | mailings/models.py:185-226 | the loop appends exactly AttemptsFor(recipients, outcomes), and its counters end as the numbers of delivered and failed outcomes |
| Dispatch.ErrorText | mailings/models.py:216 | `str(e)[:200]`: the whole exception text when it has at most 200 characters, and exactly its first 200 characters otherwise |
| Dispatch.AttemptFor | mailings/models.py:200-221 | the row created in the try block for one recipient belongs to the mailing; it is `success` iff send_mail returned 1 and then carries the success text; otherwise it is `failed` and carries the recipient's email with Dispatch.ErrorText of the exception, `str(e)[:200]` |
| Dispatch.AttemptsFor | mailings/models.py:189-225 | one attempt per recipient |
| Dispatch.AttemptsForAt | mailings/models.py:189-225 | attempt k is the attempt for recipient k and outcome k |
| Dispatch.Send | mailings/models.py:168-228 | returns True iff the refreshed status is `started` and there are recipients; a mailing that is not running gets the not-active message and no attempts; one with no recipients gets the no-recipients message and no attempts; otherwise one attempt per recipient |
| Dispatch.SendReportsEveryRecipient | mailings/models.py:185-228 | a running mailing with recipients returns True however many sends failed; success_count + fail_count == number of recipients; the summary carries those counts; and as many `success` and `failed` rows are created as the counters say |
| Dispatch.CountsCoverAll | mailings/models.py:185-225 | every recipient is counted exactly once, as a success or as a failure |
| Dispatch.CountersMatchAttempts | mailings/models.py:200-225 | the number of `success` rows is success_count and the number of `failed` rows is fail_count |
| Dispatch.FaultIsolation | mailings/models.py:189-225 | the attempt of recipient k depends only on its own outcome, so a failure elsewhere (an exception included) changes nothing for it |
| Dispatch.AttemptShape | mailings/models.py:200-221 | attempt k belongs to its mailing; it is `success` iff send_mail returned 1 for recipient k, with the success text; otherwise its server_response is the failure text for recipient k carrying ErrorText of that recipient's exception, which has at most 200 characters |
| Text.NatToString | mailings/models.py:227 | `str(n)` for a count is a non-empty run of digits without a leading zero |
| Text.ParseNatToString | mailings/management/commands/send_mailings.py:116-117 | `int(str(n)) == n` |
| Text.DigitRuns | mailings/management/commands/send_mailings.py:114 | `re.findall(r'\d+', s)` yields non-empty runs of digits |
| Text.Truncate | mailings/models.py:216 | `s[:n]`: a prefix of s of length min(n, len(s)) |
| Text.ContainsIffOccurs | mailings/management/commands/send_mailings.py:112 | the marker test `sub in s` holds exactly when sub occurs in s at some index |
| SendMailings.RouteFor | mailings/management/commands/send_mailings.py:30-35 | the single-mailing path iff an id is given and is not 0, so id 0 goes to send-all |
| SendMailings.SummaryRoundTrip | mailings/management/commands/send_mailings.py:112-117 | the summary of send_mailing contains `Отправлено:`, its digit runs are exactly [str(success_count), str(fail_count)], and `int` of the first and second run gives back success_count and fail_count |
| SendMailings.SummaryFormat | mailings/models.py:227 | the summary Dispatch.Summary builds from the two counters carries the marker and its only digit runs are the numerals of the two counters, in that order |
| SendMailings.ReadBack | mailings/management/commands/send_mailings.py:106-124 | an exception or a False answer adds one error; a True answer without the marker adds nothing; for what send_mailing returns on any run, the totals grow by exactly that run's credit |
| SendMailings.AllRefusedCountsOnePerMailing | mailings/management/commands/send_mailings.py:118-124 | when every mailing was refused or raised, nothing is counted as sent and each mailing counts as one error |
| SendMailings.FindMailing | mailings/management/commands/send_mailings.py:41 | `get(pk=id)`: the mailing with that pk, or none when no mailing has it |
| SendMailings.ActiveMailings | mailings/management/commands/send_mailings.py:86-90 | exactly the mailings whose stored row has start <= now <= end and status `started`, each once |
| SendMailings.RunFor | mailings/models.py:178-228 | a selected (running) mailing is refused iff it has no recipients; otherwise its two counts add up to its number of recipients |
| SendMailings.RanCountsEveryRecipient | mailings/management/commands/send_mailings.py:99-124 | when every selected mailing has recipients, success_total + fail_total is the total number of recipients |
| SendMailings.SingleSpec | mailings/management/commands/send_mailings.py:54-74 | not running and not forced: reported not active, nothing sent; forced: send_mailing refuses with the not-active message and nothing is sent; running: sent, with success iff there are recipients; attempts are created only for a running mailing, one per recipient |
| SendMailings.ForceNeverSends | mailings/management/commands/send_mailings.py:63-69 | `--force` changes what is reported, never which attempts are created |
| SendMailings.SendSingleMailing | mailings/management/commands/send_mailings.py:37-79 | an unknown id is reported and nothing changes; otherwise the mailing is refreshed, its report and new attempts are those of SingleSpec, its pk stays, its stored row gets the refreshed status, it is written once if the status changed and never otherwise, and no other mailing changes; window, recipients, message and owner are outside its frame |
| SendMailings.CallSend | mailings/management/commands/send_mailings.py:107 | on a selected mailing, send_mailing answers as its run says and appends exactly its recipients' attempts, with nothing else about the mailing changed |
| SendMailings.CountCall | mailings/management/commands/send_mailings.py:109-120 | the totals read back from a run's answer grow by that run's credit |
| SendMailings.SendNext | mailings/management/commands/send_mailings.py:102-124 | one turn of the loop: send_mailing on mailing i, then the totals read back; it keeps the loop invariant Progress: the first i mailings are sent, the rest are untouched, and the totals are the credits of the first i runs |
| SendMailings.SendSelected | mailings/management/commands/send_mailings.py:99-124 | after the loop, every selected mailing has gained exactly its own attempts and nothing else of its traced state changed, and (success_total, fail_total) is the sum of the runs' credits; only status, pk, stored row, writes and attempts are in its frame, so window, recipients, message and owner stay |
| SendMailings.SendAllActiveMailings | mailings/management/commands/send_mailings.py:81-127 | returns early iff no mailing is active; otherwise success_total is the sum of the per-mailing success counts, and fail_total is the sum of the fail counts plus one per refused mailing; each active mailing gains exactly its attempts and keeps the rest of its traced state; mailings that are not active are unchanged; window, recipients, message and owner are outside its frame |
| SendMailings.Handle | mailings/management/commands/send_mailings.py:24-35 | runs send_single_mailing iff the id is truthy, and then promises everything SendSingleMailing does for that id (report, attempts, stored row, writes, other mailings untouched); otherwise runs send_all_active_mailings and promises everything SendAllActiveMailings does (early return, totals as summed credits, attempts per active mailing, inactive mailings untouched) |

## Left out

- Console output, `logger` calls and the debug `print`s: they are I/O. The model returns what would be reported instead.
- The clock is a single integer `now` per command. The source reads `timezone.now()` separately in the batch filter and in each `update_status`, so a mailing selected as active could in principle end between selection and sending. The model does not capture that race.
- `send_mail` and SMTP are an outcome oracle. Subject, body and `from_email` are not modelled.
- `attempt_time` (auto_now_add) is not modelled.
- The order of `recipients.all()` and of the active-mailings queryset is taken to be the order of the given sequences. The database fixes no order.
- `full_clean` also validates the fields (required values, lengths, choices). Only the custom `clean` is modelled.
- `super().clean()` of the form is reduced to its effect: a missing or invalid date field is `None` in `cleaned_data`.
- Mailing rows, many-to-many links and attempt rows are fields of the in-memory object, not a separate database.
  - Saving `recipients` and `message` is not modelled.
  - Database errors other than the missing pk on a status-only save are not modelled.
- Models.Mailing.SendMailing requires a saved mailing. Django refuses the recipients relation of an unsaved object, and every caller passes a mailing read from the database.
- SendMailings.SendAllActiveMailings uses only the answered path of `send_mailing`. In the model `send_mailing` never raises, because database and transport failures are caught per recipient or not modelled. The exception branch of the loop is modelled in SendMailings.ReadBack and SendMailings.CallOf only.
- SendMailings.SendSingleMailing does not model the generic `except Exception` branch, for the same reason: nothing in the model raises there except `DoesNotExist`, which is modelled as `NotFound`.
- Text.DigitRuns treats only ASCII `0`-`9` as digits, while Python's `\d` also matches other Unicode digits. The summaries send_mailing writes contain no other digits, so they parse the same.
- mailings/views.py, mailings/urls.py, mailings/admin.py, mailings/management/commands/create_groups.py and the users app are not part of this model. They are HTTP, admin and authentication plumbing around the same calls.
- Concurrent runs of the command are not modelled. The source does no locking.
