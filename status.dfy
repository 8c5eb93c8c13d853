/** The status engine of a mailing (Mailing.update_status, the decision part):
    where `now` falls relative to the mailing's window [start, end]. */
module Status {

  /** Mailing.STATUS_CHOICES. */
  datatype MailingStatus = Created | Started | Completed

  /** The classification of Mailing.update_status: before the window the
      mailing is `created`, inside it (both ends included) `started`, after it
      `completed`. */
  function Evaluate(start: int, end: int, now: int): (s: MailingStatus)
    ensures s == Created <==> now < start
    ensures s == Started <==> start <= now <= end
    ensures s == Completed <==> start <= now && end < now
  {
    if now < start then Created
    else if start <= now <= end then Started
    else Completed
  }

  /** get_status_display(): the human-readable label of each choice. */
  function Display(s: MailingStatus): string {
    match s
    case Created => "Создана"
    case Started => "Запущена"
    case Completed => "Завершена"
  }

  /** Position of a status along the lifecycle. */
  function Rank(s: MailingStatus): nat {
    match s
    case Created => 0
    case Started => 1
    case Completed => 2
  }

  /** The status never moves backwards as time passes, whatever the window. */
  lemma EvaluateIsMonotone(start: int, end: int, now: int, later: int)
    requires now <= later
    ensures Rank(Evaluate(start, end, now)) <= Rank(Evaluate(start, end, later))
  {
  }

  /** A window that ends before it starts is never `started`: every instant
      is before its start or after its end. */
  lemma EmptyWindowSkipsStarted(start: int, end: int, now: int)
    requires end < start
    ensures Evaluate(start, end, now) != Started
  {
  }
}
