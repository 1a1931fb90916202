/** The rows of the mailing application's tables (mailing/models.py) and the
    requesting user (users/models.py), as values. Primary keys are `nat`,
    nullable foreign keys are `Option`s, date-times are integer seconds. */
module Models {
  import opened Wrappers

  type UserId = nat

  /** The requesting user: only what the views consult of it. */
  datatype User = User(id: UserId, isStaff: bool, isSuperuser: bool)

  /** A recipient of newsletters; `email` is unique across the table. */
  datatype Client = Client(
    id: nat,
    email: string,
    fio: string,
    comment: Option<string>,
    owner: Option<UserId>)

  /** A message template: subject line and body. */
  datatype Message = Message(
    id: nat,
    subject: string,
    body: string,
    owner: Option<UserId>)

  /** A scheduled newsletter. `clients` is the many-to-many link to Client
      (their ids), `message` the optional foreign key to Message. */
  datatype Newsletter = Newsletter(
    id: nat,
    startTime: int,
    endTime: int,
    periodicity: string,
    status: string,
    clients: seq<nat>,
    message: Option<nat>,
    owner: Option<UserId>)

  /** One row of the Logs table: the outcome of one send attempt for one
      client of one newsletter. */
  datatype LogEntry = LogEntry(
    attempt: bool,
    attemptTime: int,
    response: Option<string>,
    newsletter: Option<nat>,
    client: Option<nat>)

  /** The stored values of Newsletter.period_choices. */
  const PERIOD_DAILY: string := "daily"
  const PERIOD_WEEKLY: string := "weekly"
  const PERIOD_MONTHLY: string := "monthly"

  /** The display labels of Newsletter.period_choices. */
  const LABEL_DAILY: string := "Ежедневно"
  const LABEL_WEEKLY: string := "Еженедельно"
  const LABEL_MONTHLY: string := "Ежемесячно"

  /** The stored values of Newsletter.status_choices. */
  const STATUS_CHOICE_CREATED: string := "created"
  const STATUS_CHOICE_STARTED: string := "started"
  const STATUS_CHOICE_COMPLETED: string := "completed"

  const PeriodChoiceValues: set<string> := {PERIOD_DAILY, PERIOD_WEEKLY, PERIOD_MONTHLY}
  const StatusChoiceValues: set<string> := {STATUS_CHOICE_CREATED, STATUS_CHOICE_STARTED, STATUS_CHOICE_COMPLETED}
}
