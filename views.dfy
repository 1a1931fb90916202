/** The ownership and visibility rules of the mailing views
    (mailing/views.py): which row an update view hands out, which rows a
    list or detail view's queryset keeps, who becomes the owner of a
    created row, and the counters of the log page. */
module Views {
  import opened Wrappers
  import opened Models
  import opened Store
  import Cron

  /** The response an update view gives instead of the row. */
  datatype Http404 = Http404

  ghost predicate DistinctIds<T>(rows: seq<T>, idOf: T -> nat)
  {
    forall a, b :: 0 <= a < b < |rows| ==> idOf(rows[a]) != idOf(rows[b])
  }

  // ---------------------------------------------------------------------
  // Querysets

  /** The rows of `rows` that `keep` accepts, in order: a queryset filter. */
  function Where<T>(rows: seq<T>, keep: T -> bool): (r: seq<T>)
    ensures |r| <= |rows|
    ensures forall x :: x in r ==> x in rows && keep(x)
    ensures forall x :: x in rows && keep(x) ==> x in r
  {
    if rows == [] then []
    else (if keep(rows[0]) then [rows[0]] else []) + Where(rows[1..], keep)
  }

  /** The filter keeps every accepted row as many times as it occurs in the
      table, and drops every other row. */
  lemma {:induction false} WhereCounts<T>(rows: seq<T>, keep: T -> bool, x: T)
    ensures multiset(Where(rows, keep))[x] == if keep(x) then multiset(rows)[x] else 0
  {
    if rows != [] {
      WhereCounts(rows[1..], keep, x);
      WhereCons(rows, keep);
      assert rows == [rows[0]] + rows[1..];
    }
  }

  /** The first row whose primary key is pk: the generic view's lookup. */
  function FindById<T>(rows: seq<T>, idOf: T -> nat, pk: nat): (r: Option<T>)
    ensures r.Some? ==> r.value in rows && idOf(r.value) == pk
    ensures r.None? <==> forall k :: 0 <= k < |rows| ==> idOf(rows[k]) != pk
  {
    if rows == [] then None
    else if idOf(rows[0]) == pk then Some(rows[0])
    else FindById(rows[1..], idOf, pk)
  }

  /** get_queryset of the list and detail views: the rows whose id is the
      URL's pk (no row when the URL has none), and, unless the user is
      staff, only those the user owns. */
  function FilterQueryset<T>(rows: seq<T>, idOf: T -> nat, ownerOf: T -> Option<UserId>, pk: Option<nat>, user: User): (r: seq<T>)
    ensures forall x :: x in r ==> x in rows && pk == Some(idOf(x)) && (!user.isStaff ==> ownerOf(x) == Some(user.id))
    ensures forall x :: x in rows && pk == Some(idOf(x)) && (user.isStaff || ownerOf(x) == Some(user.id)) ==> x in r
    ensures pk == None ==> r == []
  {
    var hasId := x => pk == Some(idOf(x));
    var byId := Where(rows, hasId);
    assert pk == None ==> byId == [] by {
      if pk == None {
        WhereEmpty(rows, hasId);
      }
    }
    if !user.isStaff then Where(byId, x => ownerOf(x) == Some(user.id)) else byId
  }

  /** ClientListView.get_queryset. The list page is routed without a pk
      (mailing/urls.py), so there it filters on a missing id and keeps no
      row at all. */
  function ClientQueryset(rows: seq<Client>, pk: Option<nat>, user: User): (r: seq<Client>)
    ensures forall c :: c in r ==> c in rows && pk == Some(c.id) && (!user.isStaff ==> c.owner == Some(user.id))
    ensures forall c :: c in rows && pk == Some(c.id) && (user.isStaff || c.owner == Some(user.id)) ==> c in r
    ensures pk == None ==> r == []
  {
    FilterQueryset(rows, (c: Client) => c.id, (c: Client) => c.owner, pk, user)
  }

  /** NewsletterListView.get_queryset and NewsletterDetailView.get_queryset,
      which are the same filter. The list page has no pk in its route and
      so keeps no row; the detail page has one. */
  function NewsletterQueryset(rows: seq<Newsletter>, pk: Option<nat>, user: User): (r: seq<Newsletter>)
    ensures forall n :: n in r ==> n in rows && pk == Some(n.id) && (!user.isStaff ==> n.owner == Some(user.id))
    ensures forall n :: n in rows && pk == Some(n.id) && (user.isStaff || n.owner == Some(user.id)) ==> n in r
    ensures pk == None ==> r == []
  {
    FilterQueryset(rows, (n: Newsletter) => n.id, (n: Newsletter) => n.owner, pk, user)
  }

  // ---------------------------------------------------------------------
  // Update views

  /** get_object of an update view: look the row up by pk, then hand it out
      only to its owner, or also to a superuser when `superuserExempt`. */
  function GetForUpdate<T>(
    rows: seq<T>, idOf: T -> nat, ownerOf: T -> Option<UserId>,
    pk: nat, user: User, superuserExempt: bool): (r: Result<T, Http404>)
    requires DistinctIds(rows, idOf)
    ensures r.Success? ==>
              r.value in rows && idOf(r.value) == pk &&
              (ownerOf(r.value) == Some(user.id) || (superuserExempt && user.isSuperuser))
    ensures r.Failure? ==>
              forall k :: 0 <= k < |rows| && idOf(rows[k]) == pk ==>
                ownerOf(rows[k]) != Some(user.id) && !(superuserExempt && user.isSuperuser)
  {
    match FindById(rows, idOf, pk)
    case None => Failure(Http404)
    case Some(obj) =>
      if ownerOf(obj) == Some(user.id) || (superuserExempt && user.isSuperuser) then Success(obj)
      else Failure(Http404)
  }

  /** ClientUpdateView.get_object: the owner or a superuser gets the row. */
  function ClientForUpdate(rows: seq<Client>, pk: nat, user: User): (r: Result<Client, Http404>)
    requires forall a, b :: 0 <= a < b < |rows| ==> rows[a].id != rows[b].id
    ensures r.Success? ==> r.value in rows && r.value.id == pk && (r.value.owner == Some(user.id) || user.isSuperuser)
    ensures r.Failure? ==> forall c :: c in rows && c.id == pk ==> c.owner != Some(user.id) && !user.isSuperuser
  {
    GetForUpdate(rows, (c: Client) => c.id, (c: Client) => c.owner, pk, user, true)
  }

  /** MessageUpdateView.get_object: only the owner gets the row; a
      superuser is not exempt. */
  function MessageForUpdate(rows: seq<Message>, pk: nat, user: User): (r: Result<Message, Http404>)
    requires forall a, b :: 0 <= a < b < |rows| ==> rows[a].id != rows[b].id
    ensures r.Success? ==> r.value in rows && r.value.id == pk && r.value.owner == Some(user.id)
    ensures r.Failure? ==> forall m :: m in rows && m.id == pk ==> m.owner != Some(user.id)
  {
    GetForUpdate(rows, (m: Message) => m.id, (m: Message) => m.owner, pk, user, false)
  }

  /** NewsletterUpdateView.get_object: the owner or a superuser gets the
      row. */
  function NewsletterForUpdate(rows: seq<Newsletter>, pk: nat, user: User): (r: Result<Newsletter, Http404>)
    requires forall a, b :: 0 <= a < b < |rows| ==> rows[a].id != rows[b].id
    ensures r.Success? ==> r.value in rows && r.value.id == pk && (r.value.owner == Some(user.id) || user.isSuperuser)
    ensures r.Failure? ==> forall n :: n in rows && n.id == pk ==> n.owner != Some(user.id) && !user.isSuperuser
  {
    GetForUpdate(rows, (n: Newsletter) => n.id, (n: Newsletter) => n.owner, pk, user, true)
  }

  // ---------------------------------------------------------------------
  // The log page

  /** The success counter: the number of rows with the attempt flag set. It
      is zero exactly when no row records a success. */
  function SuccessfulCount(logs: seq<LogEntry>): (r: nat)
    ensures r <= |logs|
    ensures r == 0 <==> forall e :: e in logs ==> !e.attempt
  {
    var keep := (e: LogEntry) => e.attempt;
    WhereEmpty(logs, keep);
    |Where(logs, keep)|
  }

  /** The failure counter: the number of rows with the attempt flag clear.
      It is zero exactly when no row records a failure. */
  function UnsuccessfulCount(logs: seq<LogEntry>): (r: nat)
    ensures r <= |logs|
    ensures r == 0 <==> forall e :: e in logs ==> e.attempt
  {
    var keep := (e: LogEntry) => !e.attempt;
    WhereEmpty(logs, keep);
    |Where(logs, keep)|
  }

  /** The counters LogsListView puts in its context. */
  datatype LogsSummary = LogsSummary(total: seq<LogEntry>, totalCount: nat, successfulCount: nat, unsuccessfulCount: nat)

  /** Every row is a success or a failure (attempt is a non-null boolean),
      so the two counters add up to the total. */
  lemma {:induction false} CountsPartition(logs: seq<LogEntry>)
    ensures SuccessfulCount(logs) + UnsuccessfulCount(logs) == |logs|
  {
    if logs != [] {
      CountsPartition(logs[1..]);
    }
  }

  /** Appending one row moves exactly the counter its attempt flag
      selects, by one. With `SuccessfulCount([]) == UnsuccessfulCount([])
      == 0`, this fixes both counters for every log. */
  lemma CountsSnoc(logs: seq<LogEntry>, e: LogEntry)
    ensures SuccessfulCount(logs + [e]) == SuccessfulCount(logs) + (if e.attempt then 1 else 0)
    ensures UnsuccessfulCount(logs + [e]) == UnsuccessfulCount(logs) + (if e.attempt then 0 else 1)
  {
    WhereAppend(logs, [e], (x: LogEntry) => x.attempt);
    WhereAppend(logs, [e], (x: LogEntry) => !x.attempt);
    WhereCons([e], (x: LogEntry) => x.attempt);
    WhereCons([e], (x: LogEntry) => !x.attempt);
  }

  /** LogsListView.get_context_data. */
  function LogsContext(logs: seq<LogEntry>): (c: LogsSummary)
    ensures c.total == logs && c.totalCount == |logs|
    ensures c.successfulCount == SuccessfulCount(logs) && c.unsuccessfulCount == UnsuccessfulCount(logs)
    ensures c.successfulCount + c.unsuccessfulCount == c.totalCount
  {
    CountsPartition(logs);
    LogsSummary(logs, |logs|, SuccessfulCount(logs), UnsuccessfulCount(logs))
  }

  lemma {:induction false} WhereAppend<T>(a: seq<T>, b: seq<T>, keep: T -> bool)
    ensures Where(a + b, keep) == Where(a, keep) + Where(b, keep)
  {
    if a != [] {
      var rest := a[1..];
      var head := if keep(a[0]) then [a[0]] else [];
      WhereAppend(rest, b, keep);
      assert (a + b)[0] == a[0] && (a + b)[1..] == rest + b;
      WhereCons(a + b, keep);
      WhereCons(a, keep);
      Cron.AppendAssoc(head, Where(rest, keep), Where(b, keep));
    } else {
      assert a + b == b;
    }
  }

  lemma WhereCons<T>(s: seq<T>, keep: T -> bool)
    requires s != []
    ensures Where(s, keep) == (if keep(s[0]) then [s[0]] else []) + Where(s[1..], keep)
  {
  }

  lemma WhereEmpty<T>(s: seq<T>, keep: T -> bool)
    ensures Where(s, keep) == [] <==> forall x :: x in s ==> !keep(x)
  {
    var r := Where(s, keep);
    if r != [] {
      assert r[0] in r;
    }
  }

  /** A dispatch run in which every send fails adds to the failure counter
      only: the success counter of the log page does not move. */
  lemma FailedRunAddsNoSuccess(logs: seq<LogEntry>, ns: seq<Newsletter>, now: int, k: nat, transport: Cron.Transport)
    requires forall i, j :: 0 <= i < |ns| && 0 <= j < k ==> transport(i, j).SmtpFailure?
    ensures SuccessfulCount(logs + Cron.RunLogs(ns, |ns|, now, k, transport)) == SuccessfulCount(logs)
    ensures UnsuccessfulCount(logs + Cron.RunLogs(ns, |ns|, now, k, transport))
         == UnsuccessfulCount(logs) + |Cron.RunLogs(ns, |ns|, now, k, transport)|
  {
    var added := Cron.RunLogs(ns, |ns|, now, k, transport);
    Cron.FailedRunLogsNoSuccess(ns, |ns|, now, k, transport);
    WhereAppend(logs, added, (e: LogEntry) => e.attempt);
    WhereAppend(logs, added, (e: LogEntry) => !e.attempt);
    WhereEmpty(added, (e: LogEntry) => e.attempt);
    CountsPartition(added);
  }

  /** The superuser exemption is the only difference between the update
      guards. Take a client table and a message table, each with a row at
      pk (positions ci and mi), the two rows having the same owner. Whoever
      may update the message may update the client, and a superuser who
      does not own them is refused the message but handed the client. */
  lemma MessageGuardIsStricter(clients: seq<Client>, messages: seq<Message>, pk: nat, ci: nat, mi: nat, user: User)
    requires forall a, b :: 0 <= a < b < |clients| ==> clients[a].id != clients[b].id
    requires forall a, b :: 0 <= a < b < |messages| ==> messages[a].id != messages[b].id
    requires ci < |clients| && clients[ci].id == pk
    requires mi < |messages| && messages[mi].id == pk
    requires clients[ci].owner == messages[mi].owner
    ensures MessageForUpdate(messages, pk, user).Success? ==> ClientForUpdate(clients, pk, user).Success?
    ensures user.isSuperuser && messages[mi].owner != Some(user.id) ==>
              MessageForUpdate(messages, pk, user).Failure? && ClientForUpdate(clients, pk, user).Success?
  {
    assert clients[ci] in clients && messages[mi] in messages;
    var r := MessageForUpdate(messages, pk, user);
    if r.Success? {
      var k :| 0 <= k < |messages| && messages[k] == r.value;
      assert k == mi;
    }
  }

  // ---------------------------------------------------------------------
  // Create views

  /** The fields of the create forms (mailing/forms.py); none has the
      owner. */
  datatype ClientForm = ClientForm(fio: string, email: string, comment: Option<string>)
  datatype MessageForm = MessageForm(subject: string, body: string)
  datatype NewsletterForm = NewsletterForm(
    startTime: int, endTime: int, periodicity: string, status: string,
    clients: seq<nat>, message: Option<nat>)

  /** ClientCreateView.form_valid: form.save() inserts the row without an
      owner; the view then sets the owner to the requesting user and saves
      it again. The form has already checked that the email is unused. */
  method ClientFormValid(db: Database, form: ClientForm, user: User) returns (obj: Client)
    requires db.Valid()
    requires forall k :: 0 <= k < |db.clients| ==> db.clients[k].email != form.email
    modifies db`clients, db`nextId
    ensures db.Valid()
    ensures obj.owner == Some(user.id)
    ensures obj == Client(old(db.nextId), form.email, form.fio, form.comment, Some(user.id))
    ensures db.clients == old(db.clients) + [obj]
    ensures db.nextId == old(db.nextId) + 1
  {
    obj := Client(db.nextId, form.email, form.fio, form.comment, None);
    db.clients := db.clients + [obj];
    db.nextId := db.nextId + 1;
    obj := obj.(owner := Some(user.id));
    db.clients := db.clients[|db.clients| - 1 := obj];
  }

  /** MessageCreateView.form_valid. */
  method MessageFormValid(db: Database, form: MessageForm, user: User) returns (obj: Message)
    requires db.Valid()
    modifies db`messages, db`nextId
    ensures db.Valid()
    ensures obj.owner == Some(user.id)
    ensures obj == Message(old(db.nextId), form.subject, form.body, Some(user.id))
    ensures db.messages == old(db.messages) + [obj]
    ensures db.nextId == old(db.nextId) + 1
  {
    obj := Message(db.nextId, form.subject, form.body, None);
    db.messages := db.messages + [obj];
    db.nextId := db.nextId + 1;
    obj := obj.(owner := Some(user.id));
    db.messages := db.messages[|db.messages| - 1 := obj];
  }

  /** NewsletterCreateView.form_valid. */
  method NewsletterFormValid(db: Database, form: NewsletterForm, user: User) returns (obj: Newsletter)
    requires db.Valid()
    modifies db`newsletters, db`nextId
    ensures db.Valid()
    ensures obj.owner == Some(user.id)
    ensures obj == Newsletter(old(db.nextId), form.startTime, form.endTime, form.periodicity, form.status,
                              form.clients, form.message, Some(user.id))
    ensures db.newsletters == old(db.newsletters) + [obj]
    ensures db.nextId == old(db.nextId) + 1
  {
    obj := Newsletter(db.nextId, form.startTime, form.endTime, form.periodicity, form.status,
                      form.clients, form.message, None);
    db.newsletters := db.newsletters + [obj];
    db.nextId := db.nextId + 1;
    obj := obj.(owner := Some(user.id));
    db.newsletters := db.newsletters[|db.newsletters| - 1 := obj];
  }
}
