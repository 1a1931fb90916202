/** The database the mailing application works on: the Client, Message,
    Newsletter and Logs tables as sequences of rows in table order, and the
    counter that hands out primary keys to newly saved rows. */
module Store {
  import opened Models

  class Database {
    var clients: seq<Client>
    var messages: seq<Message>
    var newsletters: seq<Newsletter>
    var logs: seq<LogEntry>
    var nextId: nat

    /** Primary keys are distinct and below the counter, and client emails
        are unique (Client.email is declared unique). */
    ghost predicate Valid()
      reads this
    {
      (forall a, b :: 0 <= a < b < |clients| ==>
         clients[a].id != clients[b].id && clients[a].email != clients[b].email) &&
      (forall a :: 0 <= a < |clients| ==> clients[a].id < nextId) &&
      (forall a, b :: 0 <= a < b < |messages| ==> messages[a].id != messages[b].id) &&
      (forall a :: 0 <= a < |messages| ==> messages[a].id < nextId) &&
      (forall a, b :: 0 <= a < b < |newsletters| ==> newsletters[a].id != newsletters[b].id) &&
      (forall a :: 0 <= a < |newsletters| ==> newsletters[a].id < nextId)
    }

    constructor ()
      ensures Valid()
      ensures clients == [] && messages == [] && newsletters == [] && logs == []
    {
      clients, messages, newsletters, logs := [], [], [], [];
      nextId := 1;
    }
  }
}
