# Mailing service: the dispatch job and the ownership rules, in Dafny

This project models two parts of a Django newsletter manager (the `mailing`
application):

- **The dispatch job `send_email`** (`mailing/cron.py`). It reads every
  client email and every stored message. It then walks all newsletters once:
  - a newsletter strictly inside its `(start_time, end_time)` window gets one
    `send_mail` call per stored message, one `Logs` row per attached client
    for each call (whatever its outcome), the status `запущена` and a start
    time moved by one period per message;
  - a newsletter past its end gets `завершена`;
  - a newsletter before its start gets `создана`;
  - every newsletter is saved.
- **The ownership and visibility rules of `mailing/views.py`**:
  - the `get_object` guards of the three update views;
  - the `get_queryset` filters of the client list, newsletter list and
    newsletter detail views;
  - the owner assignment in the three `form_valid` methods;
  - the success and failure counters of the log page.

Layout:

- `wrappers.dfy`: `Option` and `Result`.
- `models.dfy`: the rows of the `Client`, `Message`, `Newsletter` and `Logs`
  tables, the user, and the choice values and display labels of
  `mailing/models.py`.
- `store.dfy`: `Store.Database`, a class whose fields are the four tables and
  the primary-key counter. `Valid()` says that keys are distinct and below
  the counter, and that client emails are unique.
- `cron.dfy`: the job.
  - `SendEmail` and the methods it calls change the database in place, loop
    by loop.
  - Each method is proved against a specification on values: `Processed` for
    the saved newsletter, `RunLogs` for the appended log and `RunCalls` for
    the mail sent.
  - The lemmas state what the job promises about those functions.
- `views.dfy`: the guards, filters and counters as functions with lemmas,
  and the `form_valid` methods as methods on the database.

Time is a number of seconds, so a day is 86400. The clock (`now`), the
sender address (`settings.EMAIL_HOST_USER`) and the mail transport are
parameters. The transport is an oracle: `transport(i, j)` is the outcome of
the send of message `j` while the newsletter at position `i` is processed.
The outcome is either a normal return or an SMTP exception carrying its
text.

The model follows the code as written, including these behaviours, which the
models' fields and choices do not suggest:

- Every send goes to the emails of **all** clients, not to the clients
  attached to the newsletter. Only the log rows use the attached clients.
- The job sends **every** stored message, not the newsletter's own
  `message`.
- The start time moves once **per message**, so by k periods for k messages.
- The periodicity is compared with the Russian display labels
  (`Ежедневно`, `Еженедельно`, `Ежемесячно`). The values a form stores are
  `daily`, `weekly` and `monthly`, and with those the start time never moves.
- The statuses written are the Russian strings `запущена`, `завершена` and
  `создана`. None of them is a status choice value (`created`, `started`,
  `completed`).
- A status can return from running to created: after the start time moves
  past `now`, the next run writes `создана` (`Cron.StatusCanRegress`).
- An active newsletter with no stored message keeps its status unchanged.
  So does a newsletter of a window with `start_time <= end_time` at exactly
  `now == start_time` or `now == end_time`. A newsletter of a window with
  `start_time > end_time` always gets a status written: `завершена` when
  `now > end_time`, `создана` otherwise. With `start_time` 10 and `end_time`
  5, `now == 5` writes `создана` and `now == 10` writes `завершена`
  (`Cron.InvertedWindowAlwaysWritten`).
- The success response is `Рассылка успешно отправлена`. A failure response
  is `Ошибка при отправке письма: ` followed by the exception text.

## Model

| member | source | states |
|---|---|---|
| Cron.PeriodSeconds | mailing/cron.py:62-68 | the start time moves by 1, 7 or 30 days exactly when the periodicity is the daily, weekly or monthly label, and by nothing exactly when it is none of the three |
| Cron.Attempted | mailing/cron.py:50-54 | the attempt flag logged for a send is set exactly when the response logged beside it is the success text |
| Cron.ResponseText | mailing/cron.py:50-54 | a delivered send logs the success text; a failed one logs a longer text made of the failure prefix and the whole exception text |
| Cron.ResponseIdentifiesOutcome | mailing/cron.py:50-54 | two sends with the same logged response had the same outcome, so the log keeps each failure's exception text |
| Cron.AdvanceTimes | mailing/cron.py:39-68 | the message loop changes only the status and the start time of a newsletter |
| Cron.Processed | mailing/cron.py:37-75 | a run changes only the status and the start time of a newsletter |
| Cron.AdvanceTimesShift | mailing/cron.py:39-68 | each `MessageStep` (one message iteration) sets the status to running and moves the start time by one period, so k iterations move it by k periods and leave the status running when k > 0; with no message nothing changes |
| Cron.StartTimeAfterRun | mailing/cron.py:38-68 | an active newsletter's start time moves by (messages) × period, every other newsletter's start time stays, and no end time ever moves |
| Cron.StoredChoiceValuesNeverAdvance | mailing/cron.py:63-68 | a newsletter whose periodicity is a stored choice value (`daily`, `weekly`, `monthly`) never has its start time moved; a run changes at most its status |
| Cron.StatusAfterRun | mailing/cron.py:38-73 | running when active with at least one message; unchanged when active with no message; finished after the end; created before the start; no status other than these or the old one |
| Cron.WrittenStatusesAreNotChoices | mailing/models.py:48-52 | any status a run writes is outside the status choice values |
| Cron.BoundaryLeavesNewsletterUntouched | mailing/cron.py:38-73 | `InWindow`, the window test, is strict at both ends: at `now == start_time` or `now == end_time` of a window with start_time <= end_time the newsletter is not active, is left unchanged and gets no log row |
| Cron.InvertedWindowAlwaysWritten | mailing/cron.py:38-73 | a newsletter whose start lies after its end is never sent or logged: it is marked finished when `now > end_time` and created otherwise |
| Cron.StatusCanRegress | mailing/cron.py:62-73 | a daily newsletter marked running by one run is marked created again by a run one second later |
| Cron.MessageLogsLength | mailing/cron.py:39-60 | k message iterations log k × (attached clients) rows |
| Cron.MessageLogsPrefix | mailing/cron.py:39-60 | the rows of earlier message iterations stay at the head of the log as later iterations append |
| Cron.MessageLogsBlock | mailing/cron.py:39-60 | the rows for message j follow j × (attached clients) earlier rows and form one block logging the outcome of the j-th send for every attached client |
| Cron.MessageLogsAt | mailing/cron.py:41-60 | row c of the block for message j records the attempt flag and response of the j-th send, the run's time, the newsletter and the c-th attached client; a failure is logged for every client too |
| Cron.AttemptLogsAt | mailing/cron.py:57-60 | the logging loop writes one row per attached client, in order, all with the same attempt flag, time and response |
| Cron.MessageLogsRows | mailing/cron.py:55-60 | every logged row has the run's time, the newsletter and one of its attached clients; when every send fails, no row records a success |
| Cron.NewsletterLogsLength | mailing/cron.py:38-60 | a newsletter gets (messages) × (attached clients) rows when active and none otherwise |
| Cron.NewsletterLogsRows | mailing/cron.py:38-60 | a row logged for a newsletter comes from an active newsletter, has the run's time and refers to that newsletter |
| Cron.RunLogsLength | mailing/cron.py:37-60 | a run appends (messages) × (client links of the active newsletters) rows |
| Cron.RunLogsRows | mailing/cron.py:37-60 | every row a run appends has the run's time and refers to an active newsletter |
| Cron.FailedRunLogsNoSuccess | mailing/cron.py:52-60 | when every send fails, the run still logs, and no appended row records a success |
| Cron.RunCallsShape | mailing/cron.py:37-49 | a run makes (active newsletters) × (messages) calls, each one of the per-newsletter calls |
| Cron.EverySendGoesToAllClients | mailing/cron.py:19-48 | every call of the run's `Outbox` goes to the whole `RecipientList` in table order, from the sender address, with the subject and body of one stored message; there are (active newsletters) × (messages) calls |
| Cron.RecipientsAreClientEmails | mailing/cron.py:19-22 | `RecipientList` has one entry per client, holds every client's email and nothing else, and lists nobody twice when emails are unique |
| Cron.QuietRun | mailing/cron.py:37-73 | when no newsletter is active, a run sends nothing and logs nothing |
| Cron.CollectEmails | mailing/cron.py:19-22 | the recipient list is the email of every client, in table order |
| Cron.CollectMessageContents | mailing/cron.py:25-30 | the subject and body lists are parallel and hold every message's subject and body, in table order |
| Cron.LogAttempt | mailing/cron.py:55-60 | the log grows by exactly one row per attached client, in order, with the given attempt flag, time and response |
| Cron.Reschedule | mailing/cron.py:62-68 | only the start time changes, by the newsletter's period |
| Cron.SendOne | mailing/cron.py:40-68 | one message iteration marks the newsletter running, logs the send's outcome for every attached client and moves the start time by one period |
| Cron.Dispatch | mailing/cron.py:39-68 | the message loop leaves the newsletter as `AdvanceTimes` says, appends `MessageLogs` and makes one call per message in order |
| Cron.ProcessNewsletter | mailing/cron.py:38-75 | one loop step saves the newsletter as `Processed`, appends its `NewsletterLogs` and sends the calls only when it is active |
| Cron.ProcessAll | mailing/cron.py:37-75 | every newsletter is saved once as `Processed`, the log grows by `RunLogs` and the calls are `RunCalls`; a failure does not stop the loop |
| Cron.SendEmail | mailing/cron.py:11-75 | the whole job: the same, with the recipient list and messages read from the tables, and the database invariant kept |
| Views.Where | mailing/views.py:94-96 | a queryset filter keeps exactly the rows that pass the test and no others |
| Views.WhereCounts | mailing/views.py:407-408 | the filter keeps every row that passes the test as many times as it occurs in the table, and drops every other row, so a filtered count counts rows and not distinct values |
| Views.FindById | mailing/views.py:69 | the lookup by pk finds a row with that id, or fails exactly when no row has it |
| Views.FilterQueryset | mailing/views.py:92-97 | the rows returned have id == pk and, for a non-staff user, are owned by the user; every such row is returned; with no pk in the URL, nothing is returned |
| Views.ClientQueryset | mailing/views.py:92-97 | the client list filter: the same for clients |
| Views.NewsletterQueryset | mailing/views.py:316-341 | the newsletter list and detail filter: the same for newsletters |
| Views.GetForUpdate | mailing/views.py:68-73 | an update view hands out the row with the pk only to its owner (or to a superuser where exempt) and raises Http404 otherwise |
| Views.ClientForUpdate | mailing/views.py:68-73 | the client row is returned when the user owns it or is a superuser; otherwise Http404 |
| Views.MessageForUpdate | mailing/views.py:181-185 | the message row is returned only when the user owns it; a superuser is not exempt |
| Views.NewsletterForUpdate | mailing/views.py:285-290 | the newsletter row is returned when the user owns it or is a superuser; otherwise Http404 |
| Views.MessageGuardIsStricter | mailing/views.py:181-185 | for any client and message tables with a row at pk of the same owner: whoever may update the message may update the client; a superuser who does not own it gets the client but not the message |
| Views.SuccessfulCount | mailing/views.py:407 | the success counter is at most the number of rows, and zero exactly when no row records a success |
| Views.UnsuccessfulCount | mailing/views.py:408 | the failure counter is at most the number of rows, and zero exactly when no row records a failure |
| Views.CountsPartition | mailing/views.py:405-408 | successful + unsuccessful == total |
| Views.CountsSnoc | mailing/views.py:407-408 | a new row adds one to the success counter when its attempt flag is set and one to the failure counter otherwise, leaving the other counter unchanged; with both counters 0 on an empty log this fixes them as the number of rows of each kind |
| Views.LogsContext | mailing/views.py:403-409 | the log page lists all rows, its counters are the success and failure counts of those rows, and they add up to the total |
| Views.FailedRunAddsNoSuccess | mailing/views.py:407-408 | after a run in which every send fails, the success counter is unchanged and the failure counter grows by the rows appended |
| Views.ClientFormValid | mailing/views.py:42-47 | the new client is appended with the next key and the requesting user as owner, the key counter moves on by one, and the database invariant is kept |
| Views.MessageFormValid | mailing/views.py:155-160 | the new message is appended with the next key and the requesting user as owner, the key counter moves on by one, and the database invariant is kept |
| Views.NewsletterFormValid | mailing/views.py:259-264 | the new newsletter is appended with the next key and the requesting user as owner, the key counter moves on by one, and the database invariant is kept |

## Left out

- The mail transport (`send_mail` and SMTP) is an oracle parameter. Only
  SMTP failures are modelled. An exception other than
  `smtplib.SMTPException` escapes the job after the `finally` block runs.
  When no earlier send of the run has bound `attempt` and the newsletter has
  attached clients, that block itself fails on the unbound `attempt`. When an
  earlier send has bound it, the block logs that earlier send's attempt flag
  and response once per attached client before the exception escapes. With
  no attached clients the block reads nothing.
- `datetime.now()` and the pytz time-zone replacement are not modelled: `now`
  is a parameter in seconds. Calendar arithmetic is plain addition of
  86400-second days.
- ORM persistence is modelled as in-memory tables. `Logs.objects.create(...)`
  followed by `.save()` writes the row once; the second save changes nothing
  and is not modelled. Queries are not re-read during the run.
- Column limits are not checked: `max_length` of `Logs.response` (100) and of
  the status and periodicity fields (10), and the email format.
- Overlapping runs and concurrent edits are not modelled: the job is one
  sequential pass.
- Django's own machinery is not modelled: `LoginRequiredMixin`, the redirect
  of anonymous users, the missing login requirement of
  `NewsletterDetailView`, `super().form_valid` and the redirect after it.
- Form field validation is not modelled. `Views.ClientFormValid` requires the
  email to be unused, which the form's uniqueness check guarantees before
  `form_valid` runs.
- The database hands out primary keys from one counter shared by all tables.
  Django keeps one sequence per table; distinctness within a table, which is
  all the views rely on, holds either way.
- `Views.GetForUpdate` and the three update guards require the keys to be
  distinct, as primary keys are.
- Deletes and the `SET_NULL` and `CASCADE` rules are not modelled; the
  delete, detail-without-filter and create/update form views are routing
  only.
- The extra lists that the list views put in their context
  (`clients_list`, `messages_list`, `newsletters_list`, the client count) are
  not modelled; they are the whole table.
- `Homepage`, `ContactTemplateView` and the cache helpers of
  `mailing/services.py` are not modelled.
- `users/`, `blog/`, the URL routes, forms, admin and the management command
  are not modelled. The routes matter in one place: the list URLs carry no
  `pk`, which the filters receive as `None`.
