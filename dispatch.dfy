/** Mailing.send_mailing as a function of the refreshed status, the
    recipients and what the mail transport answers for each of them: the
    MailingAttempt rows it creates, its counters and its return value. */
module Dispatch {
  import opened Status
  import opened Entities
  import Text

  /** What send_mail does for one recipient: return a count (1 means the
      message went out) or raise an exception with some text. */
  datatype TransportOutcome = Returned(count: nat) | Raised(error: string)

  /** MailingAttempt.STATUS_CHOICES. */
  datatype AttemptStatus = Success | Failed

  /** A MailingAttempt row: its status, server_response and the pk of its
      mailing. attempt_time is left out. */
  datatype MailingAttempt = MailingAttempt(status: AttemptStatus, serverResponse: string, mailing: nat)

  /** The longest error text kept in a failed attempt. */
  const MaxErrorText: nat := 200

  predicate Delivered(o: TransportOutcome) {
    o == Returned(1)
  }

  function SuccessResponse(email: string): string {
    "Письмо успешно отправлено на " + email
  }

  function FailureResponse(email: string, errorText: string): string {
    "Ошибка для " + email + ": " + errorText
  }

  /** The exception raised when send_mail returns something other than 1. */
  function NotSentError(count: nat): string {
    "Письмо не отправлено (код: " + Text.NatToString(count) + ")"
  }

  /** The text of the exception caught for a failed recipient. */
  function ExceptionText(o: TransportOutcome): string {
    match o
    case Raised(e) => e
    case Returned(c) => NotSentError(c)
  }

  /** str(e)[:200]: at most 200 characters, taken from the front of the
      exception's text, and all of it when it is short enough. */
  function ErrorText(o: TransportOutcome): (t: string)
    ensures |t| <= MaxErrorText
    ensures |t| <= |ExceptionText(o)| && t == ExceptionText(o)[..|t|]
    ensures |ExceptionText(o)| <= MaxErrorText ==> t == ExceptionText(o)
    ensures |ExceptionText(o)| > MaxErrorText ==> t == ExceptionText(o)[..MaxErrorText]
  {
    Text.Truncate(ExceptionText(o), MaxErrorText)
  }

  /** The attempt created for one recipient. */
  function AttemptFor(pk: nat, email: string, o: TransportOutcome): (a: MailingAttempt)
    ensures a.mailing == pk
    ensures a.status == Success <==> o == Returned(1)
    ensures a.status == Success ==> a.serverResponse == SuccessResponse(email)
    ensures a.status == Failed ==> a.serverResponse == FailureResponse(email, ErrorText(o))
  {
    if Delivered(o) then MailingAttempt(Success, SuccessResponse(email), pk)
    else MailingAttempt(Failed, FailureResponse(email, ErrorText(o)), pk)
  }

  /** The attempts one pass of the loop creates: one per recipient, in the
      recipients' order, each decided by that recipient's own outcome only. */
  function AttemptsFor(pk: nat, recipients: seq<Client>, outcomes: seq<TransportOutcome>): (r: seq<MailingAttempt>)
    requires |recipients| == |outcomes|
    ensures |r| == |recipients|
    decreases |outcomes|
  {
    if |outcomes| == 0 then []
    else
      var n := |outcomes| - 1;
      AttemptsFor(pk, recipients[..n], outcomes[..n]) + [AttemptFor(pk, recipients[n].email, outcomes[n])]
  }

  /** Attempt k is the attempt for recipient k and outcome k. */
  lemma {:induction false} AttemptsForAt(pk: nat, recipients: seq<Client>, outcomes: seq<TransportOutcome>, k: nat)
    requires |recipients| == |outcomes| && k < |outcomes|
    ensures AttemptsFor(pk, recipients, outcomes)[k] == AttemptFor(pk, recipients[k].email, outcomes[k])
    decreases |outcomes|
  {
    var n := |outcomes| - 1;
    var prefix := AttemptsFor(pk, recipients[..n], outcomes[..n]);
    assert AttemptsFor(pk, recipients, outcomes) == prefix + [AttemptFor(pk, recipients[n].email, outcomes[n])];
    if k < n {
      AttemptsForAt(pk, recipients[..n], outcomes[..n], k);
      assert recipients[..n][k] == recipients[k] && outcomes[..n][k] == outcomes[k];
    }
  }

  /** success_count after the loop. */
  function Successes(outcomes: seq<TransportOutcome>): nat
    decreases |outcomes|
  {
    if |outcomes| == 0 then 0
    else
      var n := |outcomes| - 1;
      Successes(outcomes[..n]) + (if Delivered(outcomes[n]) then 1 else 0)
  }

  /** fail_count after the loop. */
  function Failures(outcomes: seq<TransportOutcome>): nat
    decreases |outcomes|
  {
    if |outcomes| == 0 then 0
    else
      var n := |outcomes| - 1;
      Failures(outcomes[..n]) + (if Delivered(outcomes[n]) then 0 else 1)
  }

  /** Number of attempts with the given status. */
  function CountStatus(attempts: seq<MailingAttempt>, st: AttemptStatus): nat
    decreases |attempts|
  {
    if |attempts| == 0 then 0
    else
      var n := |attempts| - 1;
      CountStatus(attempts[..n], st) + (if attempts[n].status == st then 1 else 0)
  }

  /** One more recipient handled: the attempts and counters of a prefix grow
      by that recipient's attempt and outcome. */
  lemma PrefixStep(pk: nat, recipients: seq<Client>, outcomes: seq<TransportOutcome>, i: nat)
    requires |recipients| == |outcomes| && i < |outcomes|
    ensures AttemptsFor(pk, recipients[..i + 1], outcomes[..i + 1])
            == AttemptsFor(pk, recipients[..i], outcomes[..i]) + [AttemptFor(pk, recipients[i].email, outcomes[i])]
    ensures Successes(outcomes[..i + 1]) == Successes(outcomes[..i]) + (if Delivered(outcomes[i]) then 1 else 0)
    ensures Failures(outcomes[..i + 1]) == Failures(outcomes[..i]) + (if Delivered(outcomes[i]) then 0 else 1)
  {
    assert recipients[..i + 1][..i] == recipients[..i];
    assert outcomes[..i + 1][..i] == outcomes[..i];
  }

  /** Every recipient is counted once: success_count + fail_count == n. */
  lemma {:induction false} CountsCoverAll(outcomes: seq<TransportOutcome>)
    ensures Successes(outcomes) + Failures(outcomes) == |outcomes|
    decreases |outcomes|
  {
    if |outcomes| > 0 {
      CountsCoverAll(outcomes[..|outcomes| - 1]);
    }
  }

  /** The counters agree with the attempt rows: as many `success` rows as
      success_count and as many `failed` rows as fail_count. */
  lemma {:induction false} CountersMatchAttempts(pk: nat, recipients: seq<Client>, outcomes: seq<TransportOutcome>)
    requires |recipients| == |outcomes|
    ensures CountStatus(AttemptsFor(pk, recipients, outcomes), Success) == Successes(outcomes)
    ensures CountStatus(AttemptsFor(pk, recipients, outcomes), Failed) == Failures(outcomes)
    decreases |outcomes|
  {
    if |outcomes| > 0 {
      var n := |outcomes| - 1;
      var a := AttemptsFor(pk, recipients, outcomes);
      assert a[..n] == AttemptsFor(pk, recipients[..n], outcomes[..n]);
      CountersMatchAttempts(pk, recipients[..n], outcomes[..n]);
    }
  }

  /** The summary send_mailing returns after the loop. */
  function Summary(successCount: nat, failCount: nat): string {
    "Отправлено: " + Text.NatToString(successCount) + ", ошибок: " + Text.NatToString(failCount)
  }

  function NotActiveMessage(s: MailingStatus): string {
    "Рассылка не активна. Текущий статус: " + Display(s)
  }

  const NoRecipientsMessage: string := "Нет получателей для рассылки"

  /** The return value of send_mailing and the attempts it creates. */
  datatype SendResult = SendResult(ok: bool, message: string, attempts: seq<MailingAttempt>)

  /** send_mailing after its status refresh produced `status`: refused when
      the mailing is not running or has no recipients, otherwise one attempt per
      recipient and the summary of the two counters. */
  function Send(status: MailingStatus, pk: nat, recipients: seq<Client>, outcomes: seq<TransportOutcome>): (r: SendResult)
    requires |recipients| == |outcomes|
    ensures r.ok <==> status == Started && |recipients| > 0
    ensures status != Started ==> r == SendResult(false, NotActiveMessage(status), [])
    ensures status == Started && |recipients| == 0 ==> r == SendResult(false, NoRecipientsMessage, [])
    ensures r.ok ==> |r.attempts| == |recipients|
  {
    if status != Started then SendResult(false, NotActiveMessage(status), [])
    else if |recipients| == 0 then SendResult(false, NoRecipientsMessage, [])
    else SendResult(true, Summary(Successes(outcomes), Failures(outcomes)), AttemptsFor(pk, recipients, outcomes))
  }

  /** A running mailing with recipients reports success however many sends
      failed; its summary's two numbers add up to the number of recipients and
      match the attempt rows created. */
  lemma SendReportsEveryRecipient(pk: nat, recipients: seq<Client>, outcomes: seq<TransportOutcome>)
    requires |recipients| == |outcomes| && |recipients| > 0
    ensures var r := Send(Started, pk, recipients, outcomes);
      && r.ok
      && r.attempts == AttemptsFor(pk, recipients, outcomes)
      && r.message == Summary(Successes(outcomes), Failures(outcomes))
      && Successes(outcomes) + Failures(outcomes) == |recipients|
      && CountStatus(r.attempts, Success) == Successes(outcomes)
      && CountStatus(r.attempts, Failed) == Failures(outcomes)
  {
    CountsCoverAll(outcomes);
    CountersMatchAttempts(pk, recipients, outcomes);
  }

  /** Fault isolation: the attempt of recipient k depends on recipient k's
      outcome alone, so an exception for an earlier recipient changes nothing
      for the later ones. */
  lemma FaultIsolation(pk: nat, recipients: seq<Client>, outcomes: seq<TransportOutcome>, others: seq<TransportOutcome>, k: nat)
    requires |recipients| == |outcomes| == |others|
    requires k < |recipients| && outcomes[k] == others[k]
    ensures AttemptsFor(pk, recipients, outcomes)[k] == AttemptsFor(pk, recipients, others)[k]
  {
    AttemptsForAt(pk, recipients, outcomes, k);
    AttemptsForAt(pk, recipients, others, k);
  }

  /** Each attempt is `success` exactly when send_mail returned 1 for that
      recipient; a failed attempt records that recipient's exception text,
      cut to at most 200 characters. */
  lemma AttemptShape(pk: nat, recipients: seq<Client>, outcomes: seq<TransportOutcome>, k: nat)
    requires |recipients| == |outcomes| && k < |recipients|
    ensures var a := AttemptsFor(pk, recipients, outcomes)[k];
      && a.mailing == pk
      && (a.status == Success <==> outcomes[k] == Returned(1))
      && (a.status == Success ==> a.serverResponse == SuccessResponse(recipients[k].email))
      && (a.status == Failed ==>
            a.serverResponse == FailureResponse(recipients[k].email, ErrorText(outcomes[k]))
            && |ErrorText(outcomes[k])| <= MaxErrorText)
  {
    AttemptsForAt(pk, recipients, outcomes, k);
  }
}
