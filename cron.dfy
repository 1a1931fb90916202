/** The newsletter dispatch job `send_email` (mailing/cron.py).

    One run walks every Newsletter row in table order. A newsletter whose
    window strictly contains `now` is sent every stored Message (one
    send_mail call per message, addressed to the emails of ALL clients),
    each call is logged once per client attached to the newsletter, and its
    start time is advanced by its period once per message. Outside the
    window only the status is rewritten. Each newsletter is saved once.

    The functions below specify one run; the methods at the end perform it
    step by step on a Database and are proved to agree with them. */
module Cron {
  import opened Wrappers
  import opened Models
  import opened Store

  const SECONDS_PER_DAY: int := 86400

  /** The status strings the job writes. */
  const STATUS_RUNNING: string := "запущена"
  const STATUS_FINISHED: string := "завершена"
  const STATUS_CREATED: string := "создана"

  /** The responses it logs. */
  const SUCCESS_RESPONSE: string := "Рассылка успешно отправлена"
  const FAILURE_PREFIX: string := "Ошибка при отправке письма: "

  /** What the mail transport answers to one send_mail call: normal return,
      or an SMTP exception carrying its text. */
  datatype SendOutcome = Delivered | SmtpFailure(text: string)

  /** The arguments of one send_mail call. */
  datatype MailCall = MailCall(
    subject: string,
    body: string,
    fromEmail: string,
    recipients: seq<string>)

  /** The transport, as an oracle: its answer to the send of the j-th message
      while the newsletter at position i is processed. */
  type Transport = (nat, nat) -> SendOutcome

  // ---------------------------------------------------------------------
  // Specification of one run

  /** The window test: strict on both ends. */
  predicate InWindow(n: Newsletter, now: int)
  {
    n.startTime < now < n.endTime
  }

  /** How far one message iteration moves the start time. Only the Russian
      display labels are recognised; any other string, the stored choice
      values included, moves nothing. */
  function PeriodSeconds(periodicity: string): (s: int)
    ensures s == SECONDS_PER_DAY <==> periodicity == LABEL_DAILY
    ensures s == 7 * SECONDS_PER_DAY <==> periodicity == LABEL_WEEKLY
    ensures s == 30 * SECONDS_PER_DAY <==> periodicity == LABEL_MONTHLY
    ensures s == 0 <==> periodicity !in {LABEL_DAILY, LABEL_WEEKLY, LABEL_MONTHLY}
  {
    if periodicity == LABEL_DAILY then SECONDS_PER_DAY
    else if periodicity == LABEL_WEEKLY then 7 * SECONDS_PER_DAY
    else if periodicity == LABEL_MONTHLY then 30 * SECONDS_PER_DAY
    else 0
  }

  /** What one iteration of the message loop does to the newsletter. */
  function MessageStep(n: Newsletter): Newsletter
  {
    n.(status := STATUS_RUNNING, startTime := n.startTime + PeriodSeconds(n.periodicity))
  }

  /** The newsletter after k iterations of the message loop. */
  function AdvanceTimes(n: Newsletter, k: nat): (r: Newsletter)
    ensures r == n.(status := r.status, startTime := r.startTime)
  {
    if k == 0 then n else MessageStep(AdvanceTimes(n, k - 1))
  }

  /** The newsletter as saved by a run with k stored messages. */
  function Processed(n: Newsletter, now: int, k: nat): (r: Newsletter)
    ensures r == n.(status := r.status, startTime := r.startTime)
  {
    if InWindow(n, now) then AdvanceTimes(n, k)
    else if now > n.endTime then n.(status := STATUS_FINISHED)
    else if now < n.startTime then n.(status := STATUS_CREATED)
    else n
  }

  /** The attempt flag logged for a send: set exactly when the response
      logged beside it is the success text. */
  function Attempted(o: SendOutcome): (r: bool)
    ensures r <==> ResponseText(o) == SUCCESS_RESPONSE
  {
    o.Delivered?
  }

  /** The response logged for a send. A failure's response is longer than
      the success text, starts with the failure prefix and ends with the
      whole exception text. */
  function ResponseText(o: SendOutcome): (r: string)
    ensures o.Delivered? ==> r == SUCCESS_RESPONSE
    ensures o.SmtpFailure? ==>
              |r| > |SUCCESS_RESPONSE| && r[..|FAILURE_PREFIX|] == FAILURE_PREFIX && r[|FAILURE_PREFIX|..] == o.text
  {
    match o
    case Delivered => SUCCESS_RESPONSE
    case SmtpFailure(text) => FAILURE_PREFIX + text
  }

  /** The rows logged after one send: one per attached client, in order. */
  function AttemptLogs(newsletterId: nat, clientIds: seq<nat>, now: int, attempt: bool, response: string): seq<LogEntry>
  {
    seq(|clientIds|, c requires 0 <= c < |clientIds| =>
      LogEntry(attempt, now, Some(response), Some(newsletterId), Some(clientIds[c])))
  }

  /** The rows logged by the first k message iterations for the newsletter
      at position i. */
  function MessageLogs(n: Newsletter, i: nat, now: int, k: nat, transport: Transport): seq<LogEntry>
  {
    if k == 0 then []
    else
      var o := transport(i, k - 1);
      MessageLogs(n, i, now, k - 1, transport) + AttemptLogs(n.id, n.clients, now, Attempted(o), ResponseText(o))
  }

  /** The rows logged for the newsletter at position i in a run with k
      stored messages. */
  function NewsletterLogs(n: Newsletter, i: nat, now: int, k: nat, transport: Transport): seq<LogEntry>
  {
    if InWindow(n, now) then MessageLogs(n, i, now, k, transport) else []
  }

  /** The rows a run appends while processing the first m newsletters. */
  function RunLogs(ns: seq<Newsletter>, m: nat, now: int, k: nat, transport: Transport): seq<LogEntry>
    requires m <= |ns|
  {
    if m == 0 then []
    else RunLogs(ns, m - 1, now, k, transport) + NewsletterLogs(ns[m - 1], m - 1, now, k, transport)
  }

  /** The recipient list of every send: the emails of all clients, in table
      order. */
  function RecipientList(clients: seq<Client>): seq<string>
  {
    seq(|clients|, c requires 0 <= c < |clients| => clients[c].email)
  }

  /** The send_mail calls made for one active newsletter: one per message. */
  function Outbox(messages: seq<Message>, recipients: seq<string>, fromEmail: string): seq<MailCall>
  {
    seq(|messages|, j requires 0 <= j < |messages| =>
      MailCall(messages[j].subject, messages[j].body, fromEmail, recipients))
  }

  /** The send_mail calls a run makes while processing the first m
      newsletters, given the calls made for each active one. */
  function RunCalls(ns: seq<Newsletter>, m: nat, now: int, perNewsletter: seq<MailCall>): seq<MailCall>
    requires m <= |ns|
  {
    if m == 0 then []
    else RunCalls(ns, m - 1, now, perNewsletter) + (if InWindow(ns[m - 1], now) then perNewsletter else [])
  }

  /** How many of the first m newsletters are active. */
  function ActiveCount(ns: seq<Newsletter>, m: nat, now: int): nat
    requires m <= |ns|
  {
    if m == 0 then 0
    else ActiveCount(ns, m - 1, now) + (if InWindow(ns[m - 1], now) then 1 else 0)
  }

  /** How many client links the active ones among the first m newsletters
      have, in all. */
  function ActiveLinks(ns: seq<Newsletter>, m: nat, now: int): nat
    requires m <= |ns|
  {
    if m == 0 then 0
    else ActiveLinks(ns, m - 1, now) + (if InWindow(ns[m - 1], now) then |ns[m - 1].clients| else 0)
  }

  /** The ids of the active ones among the first m newsletters. */
  function ActiveIds(ns: seq<Newsletter>, m: nat, now: int): set<nat>
    requires m <= |ns|
  {
    if m == 0 then {}
    else ActiveIds(ns, m - 1, now) + (if InWindow(ns[m - 1], now) then {ns[m - 1].id} else {})
  }

  // ---------------------------------------------------------------------
  // Properties of one run

  /** Every message iteration moves the start time by one period and marks
      the newsletter running, so k iterations move it by k periods. */
  lemma {:induction false} AdvanceTimesShift(n: Newsletter, k: nat)
    ensures AdvanceTimes(n, k).startTime == n.startTime + k * PeriodSeconds(n.periodicity)
    ensures k > 0 ==> AdvanceTimes(n, k).status == STATUS_RUNNING
    ensures k == 0 ==> AdvanceTimes(n, k) == n
  {
    if k > 0 {
      AdvanceTimesShift(n, k - 1);
    }
  }

  /** The start time after a run: an active newsletter's moves by one
      period per stored message, any other newsletter's stays; the end time
      never moves. */
  lemma StartTimeAfterRun(n: Newsletter, now: int, k: nat)
    ensures Processed(n, now, k).endTime == n.endTime
    ensures InWindow(n, now) ==> Processed(n, now, k).startTime == n.startTime + k * PeriodSeconds(n.periodicity)
    ensures !InWindow(n, now) ==> Processed(n, now, k).startTime == n.startTime
  {
    AdvanceTimesShift(n, k);
  }

  /** The start time moves by 1, 7 or 30 days per message exactly for the
      three display labels; the stored choice values ('daily', 'weekly',
      'monthly') never move it. */
  lemma StoredChoiceValuesNeverAdvance(n: Newsletter, now: int, k: nat)
    requires n.periodicity in PeriodChoiceValues
    ensures PeriodSeconds(n.periodicity) == 0
    ensures Processed(n, now, k) == n.(status := Processed(n, now, k).status)
  {
    StartTimeAfterRun(n, now, k);
  }

  /** The status a run writes. An active newsletter becomes running, but
      only when some message exists: with none it is left exactly as it
      was. A newsletter past its end becomes finished, one before its start
      (and not past its end) becomes created. */
  lemma StatusAfterRun(n: Newsletter, now: int, k: nat)
    ensures InWindow(n, now) && k > 0 ==> Processed(n, now, k).status == STATUS_RUNNING
    ensures InWindow(n, now) && k == 0 ==> Processed(n, now, k) == n
    ensures now > n.endTime ==> Processed(n, now, k) == n.(status := STATUS_FINISHED)
    ensures now < n.startTime && now <= n.endTime ==> Processed(n, now, k) == n.(status := STATUS_CREATED)
    ensures Processed(n, now, k).status in {STATUS_RUNNING, STATUS_FINISHED, STATUS_CREATED, n.status}
  {
    AdvanceTimesShift(n, k);
  }

  /** None of the three strings the job writes is a stored status choice
      value, so a run leaves every status it touches outside the choices. */
  lemma WrittenStatusesAreNotChoices(n: Newsletter, now: int, k: nat)
    requires Processed(n, now, k).status != n.status
    ensures Processed(n, now, k).status !in StatusChoiceValues
  {
    StatusAfterRun(n, now, k);
  }

  /** A newsletter exactly at a boundary of a well-formed window is not
      active and matches no other branch: the run neither changes it nor
      logs anything for it. */
  lemma BoundaryLeavesNewsletterUntouched(n: Newsletter, i: nat, now: int, k: nat, transport: Transport)
    requires n.startTime <= n.endTime
    requires now == n.startTime || now == n.endTime
    ensures !InWindow(n, now)
    ensures Processed(n, now, k) == n
    ensures NewsletterLogs(n, i, now, k, transport) == []
  {
  }

  /** A window whose start lies after its end is never left alone: the
      newsletter is marked finished once `now` is past the end and created
      otherwise, and it never gets a log row. */
  lemma InvertedWindowAlwaysWritten(n: Newsletter, i: nat, now: int, k: nat, transport: Transport)
    requires n.startTime > n.endTime
    ensures !InWindow(n, now)
    ensures now > n.endTime ==> Processed(n, now, k) == n.(status := STATUS_FINISHED)
    ensures now <= n.endTime ==> Processed(n, now, k) == n.(status := STATUS_CREATED)
    ensures NewsletterLogs(n, i, now, k, transport) == []
  {
  }

  /** Two sends whose logged responses agree had the same outcome, so the
      log keeps the exception text of every failure. */
  lemma ResponseIdentifiesOutcome(o1: SendOutcome, o2: SendOutcome)
    ensures ResponseText(o1) == ResponseText(o2) ==> o1 == o2
  {
    if ResponseText(o1) == ResponseText(o2) && o1.SmtpFailure? && o2.SmtpFailure? {
      assert o1.text == ResponseText(o1)[|FAILURE_PREFIX|..];
    }
  }

  /** The recipient list names every client and no one else, one entry per
      client; when client emails are unique, nobody is listed twice. */
  lemma RecipientsAreClientEmails(clients: seq<Client>)
    ensures |RecipientList(clients)| == |clients|
    ensures forall e :: e in RecipientList(clients) <==> exists c :: c in clients && c.email == e
    ensures (forall a, b :: 0 <= a < b < |clients| ==> clients[a].email != clients[b].email) ==>
              forall a, b :: 0 <= a < b < |clients| ==> RecipientList(clients)[a] != RecipientList(clients)[b]
  {
    var r := RecipientList(clients);
    forall e | e in r
      ensures exists c :: c in clients && c.email == e
    {
      var q :| 0 <= q < |r| && r[q] == e;
      assert clients[q] in clients;
    }
    forall e | exists c :: c in clients && c.email == e
      ensures e in r
    {
      var c :| c in clients && c.email == e;
      var q :| 0 <= q < |clients| && clients[q] == c;
      assert r[q] == e;
    }
  }

  /** The log of one message iteration has one row per attached client. */
  lemma {:induction false} MessageLogsLength(n: Newsletter, i: nat, now: int, k: nat, transport: Transport)
    ensures |MessageLogs(n, i, now, k, transport)| == k * |n.clients|
  {
    if k > 0 {
      MessageLogsLength(n, i, now, k - 1, transport);
    }
  }

  lemma MulDistributes(k: int, a: int, b: int)
    ensures k * (a + b) == k * a + k * b
    ensures (a + b) * k == a * k + b * k
  {
  }

  /** The rows logged for message j follow the j * (attached clients) rows
      of the earlier messages and form one block of one row per attached
      client, each carrying the attempt and response of the j-th send (a
      failure too is logged for every client). */
  lemma {:induction false} MessageLogsBlock(n: Newsletter, i: nat, now: int, k: nat, transport: Transport, j: nat)
    requires j < k
    ensures |MessageLogs(n, i, now, j, transport)| == j * |n.clients|
    ensures |MessageLogs(n, i, now, j, transport)| + |n.clients| <= |MessageLogs(n, i, now, k, transport)|
    ensures MessageLogs(n, i, now, k, transport)[..|MessageLogs(n, i, now, j, transport)| + |n.clients|]
         == MessageLogs(n, i, now, j, transport)
            + AttemptLogs(n.id, n.clients, now, Attempted(transport(i, j)), ResponseText(transport(i, j)))
  {
    MessageLogsLength(n, i, now, j, transport);
    MessageLogsStep(n, i, now, j, transport);
    MessageLogsPrefix(n, i, now, k, transport, j + 1);
  }

  /** Row c of the block logged for message j: the run's time, the
      newsletter, the c-th attached client and the outcome of the j-th send. */
  lemma {:induction false} MessageLogsAt(n: Newsletter, i: nat, now: int, k: nat, transport: Transport, j: nat, c: nat)
    requires j < k && c < |n.clients|
    ensures |MessageLogs(n, i, now, j, transport)| + c < |MessageLogs(n, i, now, k, transport)|
    ensures MessageLogs(n, i, now, k, transport)[|MessageLogs(n, i, now, j, transport)| + c]
         == LogEntry(Attempted(transport(i, j)), now, Some(ResponseText(transport(i, j))), Some(n.id), Some(n.clients[c]))
  {
    MessageLogsBlock(n, i, now, k, transport, j);
    AttemptLogsAt(n.id, n.clients, now, Attempted(transport(i, j)), ResponseText(transport(i, j)), c);
    BlockRowAt(MessageLogs(n, i, now, k, transport), MessageLogs(n, i, now, j, transport),
      AttemptLogs(n.id, n.clients, now, Attempted(transport(i, j)), ResponseText(transport(i, j))), c);
  }

  /** Row c of the block of attempt rows. */
  lemma AttemptLogsAt(newsletterId: nat, clientIds: seq<nat>, now: int, attempt: bool, response: string, c: nat)
    requires c < |clientIds|
    ensures |AttemptLogs(newsletterId, clientIds, now, attempt, response)| == |clientIds|
    ensures AttemptLogs(newsletterId, clientIds, now, attempt, response)[c]
         == LogEntry(attempt, now, Some(response), Some(newsletterId), Some(clientIds[c]))
  {
  }

  /** Row c of a block that follows `before` at the head of `all`. */
  lemma BlockRowAt<T>(all: seq<T>, before: seq<T>, block: seq<T>, c: nat)
    requires c < |block| && |before| + |block| <= |all| && all[..|before| + |block|] == before + block
    ensures |before| + c < |all| && all[|before| + c] == block[c]
  {
    assert all[..|before| + |block|][|before| + c] == (before + block)[|before| + c];
  }

  /** The rows of the first j message iterations are a prefix of the rows
      of the first k. */
  lemma {:induction false} MessageLogsPrefix(n: Newsletter, i: nat, now: int, k: nat, transport: Transport, j: nat)
    requires j <= k
    ensures |MessageLogs(n, i, now, j, transport)| <= |MessageLogs(n, i, now, k, transport)|
    ensures MessageLogs(n, i, now, k, transport)[..|MessageLogs(n, i, now, j, transport)|] == MessageLogs(n, i, now, j, transport)
  {
    if j < k {
      var shorter := MessageLogs(n, i, now, j, transport);
      var prev := MessageLogs(n, i, now, k - 1, transport);
      MessageLogsPrefix(n, i, now, k - 1, transport, j);
      MessageLogsStep(n, i, now, k - 1, transport);
      var block := AttemptLogs(n.id, n.clients, now, Attempted(transport(i, k - 1)), ResponseText(transport(i, k - 1)));
      assert MessageLogs(n, i, now, k, transport) == prev + block;
      assert (prev + block)[..|shorter|] == prev[..|shorter|];
    }
  }

  /** Every row logged for a newsletter is stamped with the run's time and
      refers to that newsletter and to one of its attached clients; when
      every send failed, no row records a success. */
  lemma {:induction false} MessageLogsRows(n: Newsletter, i: nat, now: int, k: nat, transport: Transport)
    ensures forall e :: e in MessageLogs(n, i, now, k, transport) ==>
              e.attemptTime == now && e.newsletter == Some(n.id) && e.client.Some? && e.client.value in n.clients
    ensures (forall j :: 0 <= j < k ==> transport(i, j).SmtpFailure?) ==>
              forall e :: e in MessageLogs(n, i, now, k, transport) ==> !e.attempt
  {
    if k > 0 {
      MessageLogsRows(n, i, now, k - 1, transport);
    }
  }

  /** The rows logged for one newsletter: k blocks of one row per attached
      client when it is inside its window, none otherwise. */
  lemma NewsletterLogsLength(n: Newsletter, i: nat, now: int, k: nat, transport: Transport)
    ensures |NewsletterLogs(n, i, now, k, transport)| == k * (if InWindow(n, now) then |n.clients| else 0)
  {
    MessageLogsLength(n, i, now, k, transport);
  }

  /** Every row logged for one newsletter comes from a newsletter inside its
      window, is stamped with the run's time and refers to that newsletter. */
  lemma NewsletterLogsRows(n: Newsletter, i: nat, now: int, k: nat, transport: Transport)
    ensures forall e :: e in NewsletterLogs(n, i, now, k, transport) ==>
              InWindow(n, now) && e.attemptTime == now && e.newsletter == Some(n.id)
  {
    if InWindow(n, now) {
      MessageLogsRows(n, i, now, k, transport);
    }
  }

  lemma RunLogsStep(ns: seq<Newsletter>, m: nat, now: int, k: nat, transport: Transport)
    requires m < |ns|
    ensures RunLogs(ns, m + 1, now, k, transport)
         == RunLogs(ns, m, now, k, transport) + NewsletterLogs(ns[m], m, now, k, transport)
  {
  }

  /** A run appends (number of messages) x (client links of the active
      newsletters) rows. */
  lemma {:induction false} RunLogsLength(ns: seq<Newsletter>, m: nat, now: int, k: nat, transport: Transport)
    requires m <= |ns|
    ensures |RunLogs(ns, m, now, k, transport)| == k * ActiveLinks(ns, m, now)
  {
    if m > 0 {
      var last := m - 1;
      var n := ns[last];
      var added := if InWindow(n, now) then |n.clients| else 0;
      var links := ActiveLinks(ns, last, now);
      var prevCount := |RunLogs(ns, last, now, k, transport)|;
      var addedCount := |NewsletterLogs(n, last, now, k, transport)|;
      RunLogsLength(ns, last, now, k, transport);
      NewsletterLogsLength(n, last, now, k, transport);
      RunLogsStep(ns, last, now, k, transport);
      assert |RunLogs(ns, m, now, k, transport)| == prevCount + addedCount;
      assert ActiveLinks(ns, m, now) == links + added;
      MulDistributes(k, links, added);
      assert prevCount + addedCount == k * (links + added);
    }
  }

  /** Every row a run appends is stamped with the run's time and refers to
      an active newsletter: newsletters outside their window get no rows. */
  lemma {:induction false} RunLogsRows(ns: seq<Newsletter>, m: nat, now: int, k: nat, transport: Transport)
    requires m <= |ns|
    ensures forall e :: e in RunLogs(ns, m, now, k, transport) ==>
              e.attemptTime == now && e.newsletter.Some? && e.newsletter.value in ActiveIds(ns, m, now)
  {
    if m > 0 {
      var last := m - 1;
      var n := ns[last];
      var prev := RunLogs(ns, last, now, k, transport);
      var added := NewsletterLogs(n, last, now, k, transport);
      RunLogsRows(ns, last, now, k, transport);
      NewsletterLogsRows(n, last, now, k, transport);
      RunLogsStep(ns, last, now, k, transport);
      var ids := ActiveIds(ns, m, now);
      assert ids == ActiveIds(ns, last, now) + (if InWindow(n, now) then {n.id} else {});
      forall e: LogEntry | e in prev + added
        ensures e.attemptTime == now && e.newsletter.Some? && e.newsletter.value in ids
      {
        if e !in prev {
          assert e in added;
        }
      }
    }
  }

  /** When every send of a run fails, no appended row records a success. */
  lemma {:induction false} FailedRunLogsNoSuccess(ns: seq<Newsletter>, m: nat, now: int, k: nat, transport: Transport)
    requires m <= |ns|
    requires forall i, j :: 0 <= i < m && 0 <= j < k ==> transport(i, j).SmtpFailure?
    ensures forall e :: e in RunLogs(ns, m, now, k, transport) ==> !e.attempt
  {
    if m > 0 {
      var last := m - 1;
      var prev := RunLogs(ns, last, now, k, transport);
      var added := NewsletterLogs(ns[last], last, now, k, transport);
      assert RunLogs(ns, m, now, k, transport) == prev + added;
      FailedRunLogsNoSuccess(ns, last, now, k, transport);
      assert forall j :: 0 <= j < k ==> transport(last, j).SmtpFailure?;
      MessageLogsRows(ns[last], last, now, k, transport);
      forall e: LogEntry | e in prev + added
        ensures !e.attempt
      {
        if e !in prev {
          assert e in MessageLogs(ns[last], last, now, k, transport);
        }
      }
    }
  }

  /** A run makes the same calls for every active newsletter and none for
      the others. */
  lemma {:induction false} RunCallsShape(ns: seq<Newsletter>, m: nat, now: int, perNewsletter: seq<MailCall>)
    requires m <= |ns|
    ensures |RunCalls(ns, m, now, perNewsletter)| == ActiveCount(ns, m, now) * |perNewsletter|
    ensures forall call :: call in RunCalls(ns, m, now, perNewsletter) ==> call in perNewsletter
  {
    if m > 0 {
      RunCallsShape(ns, m - 1, now, perNewsletter);
    }
  }

  /** Every send of a run goes to the emails of all clients in table order,
      whichever clients the newsletter is attached to, and carries the
      subject and body of one stored message. */
  lemma EverySendGoesToAllClients(ns: seq<Newsletter>, now: int, messages: seq<Message>, clients: seq<Client>, fromEmail: string)
    ensures forall call :: call in RunCalls(ns, |ns|, now, Outbox(messages, RecipientList(clients), fromEmail)) ==>
              call.recipients == RecipientList(clients) && call.fromEmail == fromEmail &&
              exists j :: 0 <= j < |messages| && call.subject == messages[j].subject && call.body == messages[j].body
    ensures |RunCalls(ns, |ns|, now, Outbox(messages, RecipientList(clients), fromEmail))| == ActiveCount(ns, |ns|, now) * |messages|
  {
    RunCallsShape(ns, |ns|, now, Outbox(messages, RecipientList(clients), fromEmail));
  }

  /** When no newsletter is inside its window, a run sends nothing and logs
      nothing. */
  lemma {:induction false} QuietRun(ns: seq<Newsletter>, m: nat, now: int, k: nat, transport: Transport, perNewsletter: seq<MailCall>)
    requires m <= |ns|
    requires forall i :: 0 <= i < m ==> !InWindow(ns[i], now)
    ensures RunLogs(ns, m, now, k, transport) == []
    ensures RunCalls(ns, m, now, perNewsletter) == []
  {
    if m > 0 {
      QuietRun(ns, m - 1, now, k, transport, perNewsletter);
    }
  }

  /** A status can return from running to created: a daily newsletter started at time 1 has its
      start moved a day ahead, so a run one second later finds it before
      its start and writes the created status again. */
  lemma StatusCanRegress()
    ensures var n := Newsletter(1, 0, 10 * SECONDS_PER_DAY, LABEL_DAILY, STATUS_CREATED, [], None, None);
            var first := Processed(n, 1, 1);
            first.status == STATUS_RUNNING && Processed(first, 2, 1).status == STATUS_CREATED
  {
    var n := Newsletter(1, 0, 10 * SECONDS_PER_DAY, LABEL_DAILY, STATUS_CREATED, [], None, None);
    AdvanceTimesShift(n, 1);
    assert Processed(n, 1, 1).startTime == SECONDS_PER_DAY;
  }

  // ---------------------------------------------------------------------
  // The job

  lemma MessageLogsStep(n: Newsletter, i: nat, now: int, j: nat, transport: Transport)
    ensures MessageLogs(n, i, now, j + 1, transport)
         == MessageLogs(n, i, now, j, transport)
            + AttemptLogs(n.id, n.clients, now, Attempted(transport(i, j)), ResponseText(transport(i, j)))
  {
  }

  lemma PrefixSnoc<T>(s: seq<T>, j: nat)
    requires j < |s|
    ensures s[..j + 1] == s[..j] + [s[j]]
  {
  }

  lemma AppendAssoc<T>(a: seq<T>, b: seq<T>, c: seq<T>)
    ensures a + (b + c) == (a + b) + c
  {
  }

  /** The client loop of `send_email` (mailing/cron.py:19-22): the email of
      every client, in table order. */
  method CollectEmails(clients: seq<Client>) returns (emails: seq<string>)
    ensures |emails| == |clients|
    ensures forall c :: 0 <= c < |clients| ==> emails[c] == clients[c].email
  {
    emails := [];
    for c := 0 to |clients|
      invariant |emails| == c
      invariant forall q :: 0 <= q < c ==> emails[q] == clients[q].email
    {
      emails := emails + [clients[c].email];
    }
  }

  /** The loop of `send_email` over the message table
      (mailing/cron.py:25-30): the subject and the body of every message, in
      table order, as two parallel lists. */
  method CollectMessageContents(messages: seq<Message>) returns (subjects: seq<string>, bodies: seq<string>)
    ensures |subjects| == |bodies| == |messages|
    ensures forall j :: 0 <= j < |messages| ==> subjects[j] == messages[j].subject && bodies[j] == messages[j].body
  {
    subjects, bodies := [], [];
    for j := 0 to |messages|
      invariant |subjects| == |bodies| == j
      invariant forall q :: 0 <= q < j ==> subjects[q] == messages[q].subject && bodies[q] == messages[q].body
    {
      subjects := subjects + [messages[j].subject];
      bodies := bodies + [messages[j].body];
    }
  }

  /** The `finally` block of a send (mailing/cron.py:55-60): one Logs row
      per client attached to the newsletter, all with the same attempt, time
      and response. */
  method LogAttempt(db: Database, n: Newsletter, now: int, attempt: bool, response: string)
    modifies db`logs
    ensures db.logs == old(db.logs) + AttemptLogs(n.id, n.clients, now, attempt, response)
  {
    ghost var rows := AttemptLogs(n.id, n.clients, now, attempt, response);
    for c := 0 to |n.clients|
      invariant db.logs == old(db.logs) + rows[..c]
    {
      assert rows[..c + 1] == rows[..c] + [rows[c]];
      db.logs := db.logs + [LogEntry(attempt, now, Some(response), Some(n.id), Some(n.clients[c]))];
    }
    assert rows[..|n.clients|] == rows;
  }

  /** The periodicity branches (mailing/cron.py:62-68): move the start time
      on by the newsletter's period. */
  method Reschedule(n: Newsletter) returns (r: Newsletter)
    ensures r == n.(startTime := n.startTime + PeriodSeconds(n.periodicity))
  {
    r := n;
    if r.periodicity == LABEL_DAILY {
      r := r.(startTime := r.startTime + SECONDS_PER_DAY);
    } else if r.periodicity == LABEL_WEEKLY {
      r := r.(startTime := r.startTime + 7 * SECONDS_PER_DAY);
    } else if r.periodicity == LABEL_MONTHLY {
      r := r.(startTime := r.startTime + 30 * SECONDS_PER_DAY);
    }
  }

  /** One iteration of the sending loop (mailing/cron.py:40-68): mark the
      newsletter running, send, log the outcome for every attached client,
      and move the start time on. */
  method SendOne(
    db: Database, current: Newsletter, outcome: SendOutcome, now: int)
    returns (next: Newsletter)
    modifies db`logs
    ensures next == MessageStep(current)
    ensures db.logs == old(db.logs) + AttemptLogs(current.id, current.clients, now, Attempted(outcome), ResponseText(outcome))
  {
    next := current.(status := STATUS_RUNNING);
    var attempt: bool, response: string;
    match outcome {
      case Delivered =>
        attempt, response := true, SUCCESS_RESPONSE;
      case SmtpFailure(text) =>
        attempt, response := false, FAILURE_PREFIX + text;
    }
    LogAttempt(db, next, now, attempt, response);
    next := Reschedule(next);
  }

  /** The sending loop (mailing/cron.py:39-68) for the active newsletter at
      position i. Returns the newsletter as the loop leaves it and the calls
      made. */
  method Dispatch(
    db: Database, n: Newsletter, i: nat, now: int,
    recipients: seq<string>, subjects: seq<string>, bodies: seq<string>,
    fromEmail: string, transport: Transport, ghost calls: seq<MailCall>)
    returns (updated: Newsletter, sent: seq<MailCall>)
    requires |subjects| == |bodies| == |calls|
    requires forall j :: 0 <= j < |calls| ==> calls[j] == MailCall(subjects[j], bodies[j], fromEmail, recipients)
    modifies db`logs
    ensures updated == AdvanceTimes(n, |subjects|)
    ensures db.logs == old(db.logs) + MessageLogs(n, i, now, |subjects|, transport)
    ensures sent == calls
  {
    updated, sent := n, [];
    for j := 0 to |subjects|
      invariant updated == AdvanceTimes(n, j)
      invariant db.logs == old(db.logs) + MessageLogs(n, i, now, j, transport)
      invariant sent == calls[..j]
    {
      PrefixSnoc(calls, j);
      sent := sent + [MailCall(subjects[j], bodies[j], fromEmail, recipients)];
      assert updated.id == n.id && updated.clients == n.clients;
      updated := SendOne(db, updated, transport(i, j), now);
      MessageLogsStep(n, i, now, j, transport);
      AppendAssoc(old(db.logs), MessageLogs(n, i, now, j, transport),
        AttemptLogs(n.id, n.clients, now, Attempted(transport(i, j)), ResponseText(transport(i, j))));
    }
    assert calls[..|subjects|] == calls;
  }

  /** The body of the loop over newsletters (mailing/cron.py:38-75): process the
      newsletter at position i and save it. */
  method ProcessNewsletter(
    db: Database, i: nat, now: int,
    recipients: seq<string>, subjects: seq<string>, bodies: seq<string>,
    fromEmail: string, transport: Transport, ghost calls: seq<MailCall>)
    returns (sent: seq<MailCall>)
    requires i < |db.newsletters|
    requires |subjects| == |bodies| == |calls|
    requires forall j :: 0 <= j < |calls| ==> calls[j] == MailCall(subjects[j], bodies[j], fromEmail, recipients)
    modifies db`newsletters, db`logs
    ensures db.newsletters == old(db.newsletters)[i := Processed(old(db.newsletters)[i], now, |subjects|)]
    ensures db.logs == old(db.logs) + NewsletterLogs(old(db.newsletters)[i], i, now, |subjects|, transport)
    ensures sent == if InWindow(old(db.newsletters)[i], now) then calls else []
  {
    var n := db.newsletters[i];
    sent := [];
    if n.startTime < now < n.endTime {
      n, sent := Dispatch(db, n, i, now, recipients, subjects, bodies, fromEmail, transport, calls);
    } else if now > n.endTime {
      n := n.(status := STATUS_FINISHED);
    } else if now < n.startTime {
      n := n.(status := STATUS_CREATED);
    }
    db.newsletters := db.newsletters[i := n];
  }

  /** The loop over all newsletters (mailing/cron.py:37-75), given the
      recipient list and the message contents collected before it. */
  method ProcessAll(
    db: Database, now: int,
    recipients: seq<string>, subjects: seq<string>, bodies: seq<string>,
    fromEmail: string, transport: Transport, ghost calls: seq<MailCall>)
    returns (outbox: seq<MailCall>)
    requires |subjects| == |bodies| == |calls|
    requires forall j :: 0 <= j < |calls| ==> calls[j] == MailCall(subjects[j], bodies[j], fromEmail, recipients)
    modifies db`newsletters, db`logs
    ensures |db.newsletters| == |old(db.newsletters)|
    ensures forall i :: 0 <= i < |db.newsletters| ==>
              db.newsletters[i] == Processed(old(db.newsletters)[i], now, |subjects|)
    ensures db.logs == old(db.logs) + RunLogs(old(db.newsletters), |old(db.newsletters)|, now, |subjects|, transport)
    ensures outbox == RunCalls(old(db.newsletters), |old(db.newsletters)|, now, calls)
  {
    ghost var ns := db.newsletters;
    ghost var k := |subjects|;
    outbox := [];
    var i := 0;
    while i < |db.newsletters|
      invariant 0 <= i <= |db.newsletters| == |ns|
      invariant forall q :: 0 <= q < i ==> db.newsletters[q] == Processed(ns[q], now, k)
      invariant forall q :: i <= q < |ns| ==> db.newsletters[q] == ns[q]
      invariant db.logs == old(db.logs) + RunLogs(ns, i, now, k, transport)
      invariant outbox == RunCalls(ns, i, now, calls)
    {
      ghost var before := RunLogs(ns, i, now, k, transport);
      var sent := ProcessNewsletter(db, i, now, recipients, subjects, bodies, fromEmail, transport, calls);
      AppendAssoc(old(db.logs), before, NewsletterLogs(ns[i], i, now, k, transport));
      outbox := outbox + sent;
      i := i + 1;
    }
  }

  /** send_email: one pass over all newsletters at time `now`. The clients
      and messages are read, every newsletter is rewritten as Processed
      says, the log grows by RunLogs, and the calls made are returned. */
  method SendEmail(db: Database, now: int, fromEmail: string, transport: Transport)
    returns (outbox: seq<MailCall>)
    requires db.Valid()
    modifies db`newsletters, db`logs
    ensures db.Valid()
    ensures |db.newsletters| == |old(db.newsletters)|
    ensures forall i :: 0 <= i < |db.newsletters| ==>
              db.newsletters[i] == Processed(old(db.newsletters)[i], now, |db.messages|)
    ensures db.logs == old(db.logs) + RunLogs(old(db.newsletters), |old(db.newsletters)|, now, |db.messages|, transport)
    ensures outbox == RunCalls(old(db.newsletters), |old(db.newsletters)|, now,
                               Outbox(db.messages, RecipientList(db.clients), fromEmail))
  {
    var emails := CollectEmails(db.clients);
    var subjects, bodies := CollectMessageContents(db.messages);
    ghost var calls := Outbox(db.messages, RecipientList(db.clients), fromEmail);
    assert emails == RecipientList(db.clients);
    outbox := ProcessAll(db, now, emails, subjects, bodies, fromEmail, transport, calls);
    assert forall q :: 0 <= q < |db.newsletters| ==> db.newsletters[q].id == old(db.newsletters)[q].id;
  }
}
