/** The send_mailings management command: routing between one mailing and
    all active ones, the --force gate, and the batch totals that are read back
    out of each mailing's summary string. */
module SendMailings {
  import opened Wrappers
  import opened Status
  import opened Entities
  import opened Dispatch
  import opened Models
  import opened Text

  /** Which branch of handle runs. */
  datatype Route = SingleMailing(id: int) | AllActive

  /** handle's `if mailing_id:`: an absent id and the id 0 both mean
      "send all active mailings". */
  function RouteFor(mailingId: Option<int>): (r: Route)
    ensures r.SingleMailing? <==> mailingId.Some? && mailingId.value != 0
    ensures r.SingleMailing? ==> r.id == mailingId.value
  {
    if mailingId.Some? && mailingId.value != 0 then SingleMailing(mailingId.value) else AllActive
  }

  // ---------------------------------------------------------------------
  // Reading a summary back into the totals

  /** What a call of send_mailing gives the batch loop: a returned pair, or an
      exception. */
  datatype CallResult = Answered(ok: bool, message: string) | Threw(error: string)

  const SentMarker: string := "Отправлено:"

  /** Two runs of digits kept apart by digit-free text are found as such. */
  lemma {:induction false} DigitRunsOfTwo(head: string, s: string, sep: string, f: string)
    requires NoDigits(head) && NoDigits(sep) && |sep| > 0
    requires |s| > 0 && AllDigits(s) && |f| > 0 && AllDigits(f)
    ensures DigitRuns(head + s + sep + f) == [s, f]
  {
    assert head + s + sep + f == head + (s + (sep + f));
    DigitRunsSkip(head, s + (sep + f));
    DigitRunsTake(s, sep + f);
    DigitRunsSkip(sep, f);
    assert f + "" == f;
    DigitRunsTake(f, "");
  }

  /** The summary of send_mailing carries the marker, and its only digit
      runs are the numerals of its two counters, in that order. */
  lemma SummaryFormat(successCount: nat, failCount: nat)
    ensures Contains(Summary(successCount, failCount), SentMarker)
    ensures DigitRuns(Summary(successCount, failCount)) == [NatToString(successCount), NatToString(failCount)]
  {
    var head, sep := "Отправлено: ", ", ошибок: ";
    var s, f := NatToString(successCount), NatToString(failCount);
    var summary := Summary(successCount, failCount);
    assert summary == head + s + sep + f;
    assert SentMarker <= head;
    assert summary[..|SentMarker|] == SentMarker;
    assert NoDigits(head) by {
      forall i | 0 <= i < |head| ensures !IsDigit(head[i]) { }
    }
    assert NoDigits(sep) by {
      forall i | 0 <= i < |sep| ensures !IsDigit(sep[i]) { }
    }
    DigitRunsOfTwo(head, s, sep, f);
  }

  /** Parsing the summary back: the marker is found, and the first two digit
      runs read back as the two counters. */
  lemma SummaryRoundTrip(successCount: nat, failCount: nat)
    ensures Contains(Summary(successCount, failCount), SentMarker)
    ensures DigitRuns(Summary(successCount, failCount)) == [NatToString(successCount), NatToString(failCount)]
    ensures ParseNat(DigitRuns(Summary(successCount, failCount))[0]) == successCount
    ensures ParseNat(DigitRuns(Summary(successCount, failCount))[1]) == failCount
  {
    SummaryFormat(successCount, failCount);
    ParseNatToString(successCount);
    ParseNatToString(failCount);
  }

  /** How the sending of one mailing ended, as the command should count it. */
  datatype MailingRun = Refused(message: string) | Crashed(error: string) | Ran(successes: nat, failures: nat)

  /** What send_mailing hands back for each kind of run. */
  function CallOf(run: MailingRun): CallResult {
    match run
    case Refused(m) => Answered(false, m)
    case Crashed(e) => Threw(e)
    case Ran(s, f) => Answered(true, Summary(s, f))
  }

  /** What one run should add to (success_total, fail_total): its delivered
      and failed recipients, or one error when it was refused or raised. */
  function Credit(run: MailingRun): (nat, nat) {
    if run.Ran? then (run.successes, run.failures) else (0, 1)
  }

  /** The intended (success_total, fail_total) after the first n runs. */
  function CreditUpTo(runs: seq<MailingRun>, n: nat): (nat, nat)
    requires n <= |runs|
  {
    if n == 0 then (0, 0)
    else
      var t := CreditUpTo(runs, n - 1);
      (t.0 + Credit(runs[n - 1]).0, t.1 + Credit(runs[n - 1]).1)
  }

  /** One turn of the batch loop after the call: a successful result that
      carries the marker adds its first two numbers to (success_total,
      fail_total); a refused call or an exception adds one error. Read back
      from what send_mailing returns for a run, the totals grow by exactly
      that run's credit. */
  method ReadBack(successTotal: nat, failTotal: nat, call: CallResult) returns (successNext: nat, failNext: nat)
    ensures call.Threw? ==> successNext == successTotal && failNext == failTotal + 1
    ensures call.Answered? && !call.ok ==> successNext == successTotal && failNext == failTotal + 1
    ensures call.Answered? && call.ok && !Contains(call.message, SentMarker) ==>
              successNext == successTotal && failNext == failTotal
    ensures forall run :: call == CallOf(run) ==>
              successNext == successTotal + Credit(run).0 && failNext == failTotal + Credit(run).1
  {
    successNext, failNext := successTotal, failTotal;
    match call
    case Threw(_) =>
      failNext := failTotal + 1;
    case Answered(ok, message) =>
      if ok {
        if Contains(message, SentMarker) {
          var numbers := DigitRuns(message);
          if |numbers| >= 2 {
            successNext := successTotal + ParseNat(numbers[0]);
            failNext := failTotal + ParseNat(numbers[1]);
          }
        }
        forall run | call == CallOf(run)
          ensures successNext == successTotal + Credit(run).0 && failNext == failTotal + Credit(run).1
        {
          SummaryRoundTrip(run.successes, run.failures);
        }
      } else {
        failNext := failTotal + 1;
      }
  }

  /** A batch in which every mailing was refused or raised sends nothing and
      counts one error per mailing. */
  lemma {:induction false} AllRefusedCountsOnePerMailing(runs: seq<MailingRun>, n: nat)
    requires n <= |runs|
    requires forall k :: 0 <= k < |runs| ==> !runs[k].Ran?
    ensures CreditUpTo(runs, n) == (0, n)
  {
    if n > 0 {
      AllRefusedCountsOnePerMailing(runs, n - 1);
    }
  }

  // ---------------------------------------------------------------------
  // The table of mailings the command works on

  /** The mailings as read from the database, with the transport's answers:
      `transport[pk][k]` is what send_mail does for recipient k of mailing pk.
      Primary keys are unique. */
  ghost predicate TableReady(table: seq<Mailing>, transport: map<nat, seq<TransportOutcome>>)
    reads table
  {
    && (forall m :: m in table ==> m.Loaded() && m.pk in transport && |transport[m.pk]| == |m.recipients|)
    && (forall i, j :: 0 <= i < j < |table| ==> table[i].pk != table[j].pk)
  }

  /** Mailing.objects.get(pk=id). */
  function FindMailing(table: seq<Mailing>, id: int): (r: Option<Mailing>)
    reads table
    ensures r.Some? ==> r.value in table && r.value.pk == id
    ensures r.None? ==> forall m :: m in table ==> m.pk != id
    decreases |table|
  {
    if |table| == 0 then None
    else if table[0].pk == id then Some(table[0])
    else FindMailing(table[1..], id)
  }

  /** The filter of send_all_active_mailings on the stored rows:
      start_time <= now <= end_time and status 'started'. */
  predicate IsActive(m: Mailing, now: int)
    reads m
  {
    m.stored.Some? && m.stored.value.startTime <= now <= m.stored.value.endTime && m.stored.value.status == Started
  }

  /** The selected mailings, in table order. */
  function ActiveMailings(table: seq<Mailing>, now: int): (r: seq<Mailing>)
    reads table
    ensures forall k :: 0 <= k < |r| ==> r[k] in table && IsActive(r[k], now)
    ensures forall k :: 0 <= k < |table| && IsActive(table[k], now) ==> table[k] in r
    ensures (forall i, j :: 0 <= i < j < |table| ==> table[i] != table[j]) ==>
              (forall i, j :: 0 <= i < j < |r| ==> r[i] != r[j])
    decreases |table|
  {
    if |table| == 0 then []
    else
      var n := |table| - 1;
      var rest := ActiveMailings(table[..n], now);
      rest + (if IsActive(table[n], now) then [table[n]] else [])
  }

  /** How sending one selected mailing ends, given the transport's answers
      for its recipients: such a mailing is running, so it is refused only for
      want of recipients. */
  function RunFor(outcomes: seq<TransportOutcome>): (r: MailingRun)
    ensures r.Refused? <==> |outcomes| == 0
    ensures r.Ran? ==> r.successes + r.failures == |outcomes|
  {
    CountsCoverAll(outcomes);
    if |outcomes| == 0 then Refused(NoRecipientsMessage)
    else Ran(Successes(outcomes), Failures(outcomes))
  }

  /** The parts of a mailing a send may read or touch: its key, its
      recipients, its attempts, its stored row, its write counter and its
      in-memory status. */
  datatype Trace = Trace(pk: nat, recipients: seq<Client>, attempts: seq<MailingAttempt>,
                         stored: Option<Row>, writes: nat, status: MailingStatus)

  /** The trace of a mailing in the current state. */
  function Record(m: Mailing): Trace
    reads m
  {
    Trace(m.pk, m.recipients, m.attempts, m.stored, m.writes, m.status)
  }

  /** `runs` are the runs of the mailings traced as `before`, each decided
      by the transport's answers for that mailing's recipients. */
  predicate RunsOf(runs: seq<MailingRun>, before: seq<Trace>, transport: map<nat, seq<TransportOutcome>>) {
    && |runs| == |before|
    && forall k :: 0 <= k < |before| ==> before[k].pk in transport && runs[k] == RunFor(transport[before[k].pk])
  }

  /** The runs the traced mailings should have. */
  function PlannedRuns(before: seq<Trace>, transport: map<nat, seq<TransportOutcome>>): (runs: seq<MailingRun>)
    requires forall k :: 0 <= k < |before| ==> before[k].pk in transport
    ensures RunsOf(runs, before, transport)
  {
    seq(|before|, k requires 0 <= k < |before| => RunFor(transport[before[k].pk]))
  }

  /** The number of recipients of the first n traced mailings. */
  function RecipientsUpTo(before: seq<Trace>, n: nat): nat
    requires n <= |before|
  {
    if n == 0 then 0 else RecipientsUpTo(before, n - 1) + |before[n - 1].recipients|
  }

  /** When every mailing has recipients, so that every one ran, the totals
      add up to the number of recipients over all of them. */
  lemma {:induction false} RanCountsEveryRecipient(runs: seq<MailingRun>, before: seq<Trace>,
                                                   transport: map<nat, seq<TransportOutcome>>, n: nat)
    requires RunsOf(runs, before, transport) && n <= |before|
    requires forall k :: 0 <= k < |before| ==>
               |transport[before[k].pk]| == |before[k].recipients| && |before[k].recipients| > 0
    ensures var t := CreditUpTo(runs, n); t.0 + t.1 == RecipientsUpTo(before, n)
  {
    if n > 0 {
      RanCountsEveryRecipient(runs, before, transport, n - 1);
    }
  }

  // ---------------------------------------------------------------------
  // The command's operations

  /** What send_single_mailing reports on the console. */
  datatype SingleReport = NotFound(id: int) | NotActive(status: MailingStatus) | Dispatched(ok: bool, message: string)

  datatype SingleResult = SingleResult(report: SingleReport, attempts: seq<MailingAttempt>)

  /** send_single_mailing once the mailing is found and refreshed to
      `status`: the --force gate, then send_mailing, which checks the status
      again on its own. */
  function SingleSpec(status: MailingStatus, force: bool, pk: nat, recipients: seq<Client>, outcomes: seq<TransportOutcome>): (r: SingleResult)
    requires |recipients| == |outcomes|
    ensures status != Started && !force ==> r == SingleResult(NotActive(status), [])
    ensures status != Started && force ==> r == SingleResult(Dispatched(false, NotActiveMessage(status)), [])
    ensures status == Started ==> r.report.Dispatched? && (r.report.ok <==> |recipients| > 0)
    ensures r.attempts != [] ==> status == Started && |r.attempts| == |recipients|
  {
    if status != Started && !force then SingleResult(NotActive(status), [])
    else
      var s := Send(status, pk, recipients, outcomes);
      SingleResult(Dispatched(s.ok, s.message), s.attempts)
  }

  /** --force changes what is reported, never what is sent. */
  lemma ForceNeverSends(status: MailingStatus, pk: nat, recipients: seq<Client>, outcomes: seq<TransportOutcome>)
    requires |recipients| == |outcomes|
    ensures SingleSpec(status, true, pk, recipients, outcomes).attempts
            == SingleSpec(status, false, pk, recipients, outcomes).attempts
  {
  }

  /** send_single_mailing. */
  method SendSingleMailing(table: seq<Mailing>, id: int, force: bool, now: int,
                           transport: map<nat, seq<TransportOutcome>>) returns (r: SingleReport)
    requires TableReady(table, transport)
    modifies (set m | m in table)`status, (set m | m in table)`pk, (set m | m in table)`stored,
             (set m | m in table)`writes, (set m | m in table)`attempts
    ensures old(FindMailing(table, id)).None? ==> r == NotFound(id) && forall m :: m in table ==> unchanged(m)
    ensures old(FindMailing(table, id)).Some? ==>
      var m := old(FindMailing(table, id)).value;
      var status := Evaluate(old(m.startTime), old(m.endTime), now);
      var spec := SingleSpec(status, force, old(m.pk), old(m.recipients), transport[old(m.pk)]);
      && r == spec.report
      && m.attempts == old(m.attempts) + spec.attempts
      && m.pk == old(m.pk) && m.status == status
      && m.stored == Some(old(m.stored).value.(status := status))
      && m.writes == old(m.writes) + (if old(m.status) != status then 1 else 0)
      && (forall o :: o in table && o != m ==> unchanged(o))
  {
    var found := FindMailing(table, id);
    if found.None? {
      return NotFound(id);
    }
    var m := found.value;
    var refreshed := m.UpdateStatus(now);
    if m.status != Started && !force {
      return NotActive(m.status);
    }
    var ok, message := m.SendMailing(now, transport[m.pk]);
    r := Dispatched(ok, message);
  }

  /** The traces of the mailings, taken in their order. */
  ghost method Snapshot(ms: seq<Mailing>) returns (traces: seq<Trace>)
    ensures |traces| == |ms|
    ensures forall k :: 0 <= k < |ms| ==> traces[k] == Record(ms[k])
  {
    traces := [];
    var i := 0;
    while i < |ms|
      invariant 0 <= i <= |ms| && |traces| == i
      invariant forall k :: 0 <= k < i ==> traces[k] == Record(ms[k])
    {
      traces := traces + [Record(ms[i])];
      i := i + 1;
    }
  }

  /** The trace after `added` attempts and nothing else. */
  function Appended(t: Trace, added: seq<MailingAttempt>): (r: Trace)
    ensures r.pk == t.pk && r.recipients == t.recipients && r.attempts == t.attempts + added
    ensures r.stored == t.stored && r.writes == t.writes && r.status == t.status
  {
    t.(attempts := t.attempts + added)
  }

  /** The trace a running mailing leaves after send_mailing. */
  function SentTrace(t: Trace, transport: map<nat, seq<TransportOutcome>>): Trace {
    if t.pk in transport && |transport[t.pk]| == |t.recipients| then
      Appended(t, AttemptsFor(t.pk, t.recipients, transport[t.pk]))
    else t
  }

  /** Mailings that a send can take: read from the database, running at
      `now`, with the transport's answers for their recipients. */
  ghost predicate Sendable(m: Mailing, now: int, transport: map<nat, seq<TransportOutcome>>)
    reads m
  {
    m.Loaded() && IsActive(m, now) && m.pk in transport && |transport[m.pk]| == |m.recipients|
  }

  /** The guarded call `success, message = mailing.send_mailing()` on a
      selected mailing: it answers as the mailing's run says, and the mailing
      gains one attempt per recipient and nothing else. */
  method CallSend(m: Mailing, now: int, transport: map<nat, seq<TransportOutcome>>) returns (call: CallResult)
    requires Sendable(m, now, transport)
    modifies m`status, m`pk, m`stored, m`writes, m`attempts
    ensures Record(m) == SentTrace(old(Record(m)), transport)
    ensures call == CallOf(RunFor(transport[m.pk]))
  {
    var ok, message := m.SendMailing(now, transport[m.pk]);
    call := Answered(ok, message);
  }

  /** The totals read back from the answer of a run grow by that run's
      credit. */
  method CountCall(successTotal: nat, failTotal: nat, call: CallResult, ghost run: MailingRun)
    returns (successNext: nat, failNext: nat)
    requires call == CallOf(run)
    ensures (successNext, failNext) == (successTotal + Credit(run).0, failTotal + Credit(run).1)
  {
    successNext, failNext := ReadBack(successTotal, failTotal, call);
  }

  /** No mailing is selected twice. */
  predicate Distinct(ms: seq<Mailing>) {
    forall a, b :: 0 <= a < |ms| && 0 <= b < |ms| && a != b ==> ms[a] != ms[b]
  }

  /** How far the batch loop over the selected mailings, traced beforehand as
      `before` and due to have `runs`, has got: the first i have been sent and
      the others are as they were, and the totals are the credits of the
      first i runs. */
  ghost predicate Progress(selected: seq<Mailing>, now: int, transport: map<nat, seq<TransportOutcome>>,
                           before: seq<Trace>, runs: seq<MailingRun>, i: nat, successTotal: nat, failTotal: nat)
    reads selected
  {
    && |before| == |selected| && i <= |selected|
    && Distinct(selected) && RunsOf(runs, before, transport)
    && (forall j :: i <= j < |selected| ==> Sendable(selected[j], now, transport))
    && (forall j :: 0 <= j < i ==> Record(selected[j]) == SentTrace(before[j], transport))
    && (forall j :: i <= j < |selected| ==> Record(selected[j]) == before[j])
    && (successTotal, failTotal) == CreditUpTo(runs, i)
  }

  /** One turn of the batch loop, at mailing i: the guarded call of
      send_mailing, then the totals updated from what it returned. */
  method SendNext(selected: seq<Mailing>, now: int, transport: map<nat, seq<TransportOutcome>>,
                  ghost before: seq<Trace>, ghost runs: seq<MailingRun>, i: nat, m: Mailing,
                  successTotal: nat, failTotal: nat)
    returns (successNext: nat, failNext: nat)
    requires Progress(selected, now, transport, before, runs, i, successTotal, failTotal)
    requires i < |selected| && m == selected[i]
    modifies m`status, m`pk, m`stored, m`writes, m`attempts
    ensures Progress(selected, now, transport, before, runs, i + 1, successNext, failNext)
  {
    var call := CallSend(m, now, transport);
    successNext, failNext := CountCall(successTotal, failTotal, call, runs[i]);
  }

  /** What send_all_active_mailings reports. */
  datatype BatchReport = NothingActive | Totals(success: nat, failed: nat)

  /** The mailings a batch selects: read from the database, running at
      `now`, distinct, with the transport's answers for their recipients. */
  ghost predicate Selectable(selected: seq<Mailing>, now: int, transport: map<nat, seq<TransportOutcome>>)
    reads selected
  {
    && (forall k :: 0 <= k < |selected| ==> Sendable(selected[k], now, transport))
    && Distinct(selected)
  }

  /** The loop of send_all_active_mailings over the selected mailings, traced
      beforehand as `before` and due to have `runs`: send each, then add what
      its result says to the two totals. The totals come out as the sums of
      the runs' credits, and each mailing has gained exactly its own
      recipients' attempts. */
  method SendSelected(selected: seq<Mailing>, now: int, transport: map<nat, seq<TransportOutcome>>,
                      ghost before: seq<Trace>, ghost runs: seq<MailingRun>)
    returns (successTotal: nat, failTotal: nat)
    requires Selectable(selected, now, transport)
    requires |before| == |selected| && forall k :: 0 <= k < |selected| ==> before[k] == Record(selected[k])
    requires RunsOf(runs, before, transport)
    modifies (set m | m in selected)`status, (set m | m in selected)`pk, (set m | m in selected)`stored,
             (set m | m in selected)`writes, (set m | m in selected)`attempts
    ensures Progress(selected, now, transport, before, runs, |selected|, successTotal, failTotal)
  {
    successTotal, failTotal := 0, 0;
    var i := 0;
    while i < |selected|
      invariant Progress(selected, now, transport, before, runs, i, successTotal, failTotal)
    {
      successTotal, failTotal := SendNext(selected, now, transport, before, runs, i, selected[i], successTotal, failTotal);
      i := i + 1;
    }
  }

  /** The mailings send_all_active_mailings selects are sendable and
      distinct. */
  lemma SelectionReady(table: seq<Mailing>, now: int, transport: map<nat, seq<TransportOutcome>>)
    requires TableReady(table, transport)
    ensures Selectable(ActiveMailings(table, now), now, transport)
  {
    assert forall a, b :: 0 <= a < b < |table| ==> table[a] != table[b] by {
      forall a, b | 0 <= a < b < |table| ensures table[a] != table[b] {
        assert table[a].pk != table[b].pk;
      }
    }
  }

  /** send_all_active_mailings: select the active mailings, stop early when
      there are none, otherwise send each in turn and add up the totals read
      back from the summaries. `before` traces the selected mailings as
      they were. */
  method SendAllActiveMailings(table: seq<Mailing>, now: int, transport: map<nat, seq<TransportOutcome>>)
    returns (report: BatchReport, ghost before: seq<Trace>)
    requires TableReady(table, transport)
    modifies (set m | m in table)`status, (set m | m in table)`pk, (set m | m in table)`stored,
             (set m | m in table)`writes, (set m | m in table)`attempts
    ensures report.NothingActive? <==> old(|ActiveMailings(table, now)|) == 0
    ensures |before| == old(|ActiveMailings(table, now)|)
    ensures forall k :: 0 <= k < |before| ==>
              before[k] == old(Record(ActiveMailings(table, now)[k])) && before[k].pk in transport
    ensures report.Totals? ==>
              (report.success, report.failed) == CreditUpTo(PlannedRuns(before, transport), |before|)
    ensures forall k :: 0 <= k < |before| ==>
              Record(old(ActiveMailings(table, now))[k]) == SentTrace(before[k], transport)
    ensures forall m :: m in table && !old(IsActive(m, now)) ==> unchanged(m)
  {
    var selected := ActiveMailings(table, now);
    before := Snapshot(selected);
    if |selected| == 0 {
      return NothingActive, before;
    }
    SelectionReady(table, now, transport);
    ghost var runs := PlannedRuns(before, transport);
    var successTotal, failTotal := SendSelected(selected, now, transport, before, runs);
    report := Totals(successTotal, failTotal);
  }

  /** What the command ran. */
  datatype CommandReport = SingleRun(single: SingleReport) | BatchRun(batch: BatchReport)

  /** handle: send the mailing named by --mailing_id, or all active mailings
      when no (or a zero) id is given. Each branch promises what its callee
      does; `before` traces the mailings a batch selected. */
  method Handle(table: seq<Mailing>, mailingId: Option<int>, force: bool, now: int,
                transport: map<nat, seq<TransportOutcome>>) returns (r: CommandReport, ghost before: seq<Trace>)
    requires TableReady(table, transport)
    modifies (set m | m in table)`status, (set m | m in table)`pk, (set m | m in table)`stored,
             (set m | m in table)`writes, (set m | m in table)`attempts
    ensures r.SingleRun? <==> RouteFor(mailingId).SingleMailing?
    ensures r.SingleRun? && old(FindMailing(table, mailingId.value)).None? ==>
      r.single == NotFound(mailingId.value) && forall m :: m in table ==> unchanged(m)
    ensures r.SingleRun? && old(FindMailing(table, mailingId.value)).Some? ==>
      var m := old(FindMailing(table, mailingId.value)).value;
      var status := Evaluate(old(m.startTime), old(m.endTime), now);
      var spec := SingleSpec(status, force, old(m.pk), old(m.recipients), transport[old(m.pk)]);
      && r.single == spec.report
      && m.attempts == old(m.attempts) + spec.attempts
      && m.pk == old(m.pk) && m.status == status
      && m.stored == Some(old(m.stored).value.(status := status))
      && m.writes == old(m.writes) + (if old(m.status) != status then 1 else 0)
      && (forall o :: o in table && o != m ==> unchanged(o))
    ensures r.BatchRun? ==>
      && (r.batch.NothingActive? <==> old(|ActiveMailings(table, now)|) == 0)
      && |before| == old(|ActiveMailings(table, now)|)
      && (forall k :: 0 <= k < |before| ==>
            before[k] == old(Record(ActiveMailings(table, now)[k])) && before[k].pk in transport)
      && (r.batch.Totals? ==>
            (r.batch.success, r.batch.failed) == CreditUpTo(PlannedRuns(before, transport), |before|))
      && (forall k :: 0 <= k < |before| ==>
            Record(old(ActiveMailings(table, now))[k]) == SentTrace(before[k], transport))
      && (forall m :: m in table && !old(IsActive(m, now)) ==> unchanged(m))
  {
    if mailingId.Some? && mailingId.value != 0 {
      var single := SendSingleMailing(table, mailingId.value, force, now, transport);
      r, before := SingleRun(single), [];
    } else {
      var batch;
      batch, before := SendAllActiveMailings(table, now, transport);
      r := BatchRun(batch);
    }
  }
}
