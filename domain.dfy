/** The records the application stores, one datatype per interface of the
    type declarations. String unions become enumerations; `Date` values are
    reduced to the calendar fields the views read (`getFullYear`, `getMonth`
    counting months from 0, and the day). Money, quantities and budgets are
    exact reals. */
module Domain {
  import opened Wrappers

  /** The opaque identifier every entity carries. */
  type Id = string

  datatype Date = Date(year: int, month: int, day: int)

  /** `getMonth()` always lies in 0..11. */
  predicate ValidDate(d: Date) {
    0 <= d.month < 12
  }

  datatype Client = Client(
    id: Id,
    companyName: string,
    contactName: string,
    email: string,
    phone: string,
    industryType: string,
    createdAt: Date,
    updatedAt: Date)

  datatype ProjectStatus = Planned | InProgress | Completed | OnHold

  datatype Project = Project(
    id: Id,
    clientId: Id,
    name: string,
    description: string,
    status: ProjectStatus,
    startDate: Date,
    endDate: Date,
    budget: real)

  datatype TaskStatus = Todo | InProgress | Review | Completed

  datatype Task = Task(
    id: Id,
    projectId: Id,
    parentTaskId: Option<Id>,
    title: string,
    description: string,
    status: TaskStatus,
    deadline: Date,
    assignedTo: string,
    aiGenerated: bool)

  datatype DocumentKind = Quote | Invoice | Contract

  datatype DocumentStatus = Draft | Sent | Accepted | Rejected

  /** A document line. `total` is a stored field that nothing recomputes. */
  datatype DocumentItem = DocumentItem(
    id: Id,
    description: string,
    quantity: real,
    unitPrice: real,
    total: real)

  datatype Document = Document(
    id: Id,
    clientId: Id,
    projectId: Id,
    kind: DocumentKind,
    title: string,
    status: DocumentStatus,
    amount: real,
    createdAt: Date,
    validUntil: Date,
    items: seq<DocumentItem>)

  datatype PaymentStatus = Pending | Completed | Failed

  datatype PaymentMethod = CreditCard | BankTransfer | PayPal

  datatype Payment = Payment(
    id: Id,
    documentId: Id,
    amount: real,
    status: PaymentStatus,
    paidBy: PaymentMethod,
    date: Date,
    reference: string)

  datatype Theme = Light | Dark

  /** The nested `notifications` record of the settings. */
  datatype NotificationPrefs = NotificationPrefs(
    email: bool,
    desktop: bool,
    documents: bool,
    payments: bool,
    tasks: bool)

  datatype UserSettings = UserSettings(
    theme: Theme,
    notifications: NotificationPrefs,
    currency: string,
    language: string,
    timeZone: string)

  /** `Partial<UserSettings>`: each top-level key may be omitted. A supplied
      `notifications` is a whole nested record. */
  datatype PartialSettings = PartialSettings(
    theme: Option<Theme>,
    notifications: Option<NotificationPrefs>,
    currency: Option<string>,
    language: Option<string>,
    timeZone: Option<string>)

  datatype NotificationKind = DocumentNotice | PaymentNotice | TaskNotice | SystemNotice

  datatype Notification = Notification(
    id: Id,
    kind: NotificationKind,
    title: string,
    message: string,
    read: bool,
    createdAt: Date,
    link: Option<string>)

  /** `Omit<Notification, 'id' | 'createdAt' | 'read'>`: what a caller of
      `addNotification` supplies. */
  datatype NotificationInput = NotificationInput(
    kind: NotificationKind,
    title: string,
    message: string,
    link: Option<string>)

  // The identity of each kind of entity, as a function value for the
  // generic keyed operations.

  function ClientId(c: Client): Id { c.id }
  function ProjectId(p: Project): Id { p.id }
  function TaskId(t: Task): Id { t.id }
  function DocumentId(d: Document): Id { d.id }
  function PaymentId(p: Payment): Id { p.id }
  function NotificationId(n: Notification): Id { n.id }
}
