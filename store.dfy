/** The client-side entity store (src/lib/store.ts): six ordered
    collections and the settings record, the operations that replace them,
    and the single storage slot that receives the whole aggregate after every
    change and restores it at start-up. */
module Store {
  import opened Wrappers
  import opened Domain
  import opened Sequences

  /** The settings used when nothing (or nothing readable) was stored. */
  const DefaultSettings: UserSettings :=
    UserSettings(Light, NotificationPrefs(true, true, true, true, true), "USD", "en", "UTC")

  /** The aggregate: the unit that is persisted and restored. */
  datatype AggregateState = AggregateState(
    clients: seq<Client>,
    projects: seq<Project>,
    tasks: seq<Task>,
    documents: seq<Document>,
    payments: seq<Payment>,
    notifications: seq<Notification>,
    settings: UserSettings)

  /** What the storage slot holds once parsed. Its settings may lack keys
      (data written by an older version), so they are a partial record. */
  datatype SavedState = SavedState(
    clients: seq<Client>,
    projects: seq<Project>,
    tasks: seq<Task>,
    documents: seq<Document>,
    payments: seq<Payment>,
    notifications: seq<Notification>,
    settings: PartialSettings)

  // -------------------------------------------------------------- settings

  /** `{ ...base, ...partial }`: a one-level merge. Every key the partial
      record supplies wins; every omitted key keeps its old value; a
      supplied `notifications` replaces the nested record as a whole. */
  function MergeSettings(base: UserSettings, partial: PartialSettings): (r: UserSettings)
    ensures partial.theme.Some? ==> r.theme == partial.theme.value
    ensures partial.theme.None? ==> r.theme == base.theme
    ensures partial.notifications.Some? ==> r.notifications == partial.notifications.value
    ensures partial.notifications.None? ==> r.notifications == base.notifications
    ensures partial.currency.Some? ==> r.currency == partial.currency.value
    ensures partial.currency.None? ==> r.currency == base.currency
    ensures partial.language.Some? ==> r.language == partial.language.value
    ensures partial.language.None? ==> r.language == base.language
    ensures partial.timeZone.Some? ==> r.timeZone == partial.timeZone.value
    ensures partial.timeZone.None? ==> r.timeZone == base.timeZone
  {
    UserSettings(
      partial.theme.GetOr(base.theme),
      partial.notifications.GetOr(base.notifications),
      partial.currency.GetOr(base.currency),
      partial.language.GetOr(base.language),
      partial.timeZone.GetOr(base.timeZone))
  }

  /** A complete settings record seen as a partial one that supplies every key. */
  function Whole(s: UserSettings): PartialSettings {
    PartialSettings(Some(s.theme), Some(s.notifications), Some(s.currency), Some(s.language), Some(s.timeZone))
  }

  /** The partial record that supplies no key. */
  const NoChange: PartialSettings := PartialSettings(None, None, None, None, None)

  /** Merging a record that supplies every key yields exactly that record. */
  lemma MergeWhole(base: UserSettings, s: UserSettings)
    ensures MergeSettings(base, Whole(s)) == s
  {
  }

  /** Merging a record that supplies nothing changes nothing. */
  lemma MergeNothing(base: UserSettings)
    ensures MergeSettings(base, NoChange) == base
  {
  }

  /** Merging the same partial record twice is merging it once. */
  lemma MergeIdempotent(base: UserSettings, partial: PartialSettings)
    ensures MergeSettings(MergeSettings(base, partial), partial) == MergeSettings(base, partial)
  {
  }

  // ----------------------------------------------------------- persistence

  /** The snapshot `saveState` writes: every collection and the settings. */
  function Save(s: AggregateState): (saved: SavedState)
    ensures saved.clients == s.clients && saved.projects == s.projects && saved.tasks == s.tasks
    ensures saved.documents == s.documents && saved.payments == s.payments
    ensures saved.notifications == s.notifications
    ensures MergeSettings(DefaultSettings, saved.settings) == s.settings
  {
    SavedState(s.clients, s.projects, s.tasks, s.documents, s.payments, s.notifications, Whole(s.settings))
  }

  /** `loadInitialState`. `None` stands for a slot that is absent, empty or
      unparsable: the state is then empty with the default settings.
      Otherwise the stored collections are taken as they are and the stored
      settings are merged over the defaults. */
  function LoadInitialState(slot: Option<SavedState>): (r: AggregateState)
    ensures slot.None? ==> r.clients == [] && r.projects == [] && r.tasks == []
    ensures slot.None? ==> r.documents == [] && r.payments == [] && r.notifications == []
    ensures slot.None? ==> r.settings == DefaultSettings
    ensures slot.Some? ==> r.clients == slot.value.clients && r.projects == slot.value.projects
    ensures slot.Some? ==> r.tasks == slot.value.tasks && r.documents == slot.value.documents
    ensures slot.Some? ==> r.payments == slot.value.payments && r.notifications == slot.value.notifications
    ensures slot.Some? ==> r.settings == MergeSettings(DefaultSettings, slot.value.settings)
  {
    match slot
    case None => AggregateState([], [], [], [], [], [], DefaultSettings)
    case Some(saved) =>
      AggregateState(saved.clients, saved.projects, saved.tasks, saved.documents,
                     saved.payments, saved.notifications,
                     MergeSettings(DefaultSettings, saved.settings))
  }

  /** Restoring what was saved reproduces the aggregate exactly. */
  lemma SaveLoadRoundTrip(s: AggregateState)
    ensures LoadInitialState(Some(Save(s))) == s
  {
  }

  /** A stored settings record that lacks keys is completed from the defaults. */
  lemma LoadFillsMissingSettings(saved: SavedState)
    requires saved.settings == NoChange
    ensures LoadInitialState(Some(saved)).settings == DefaultSettings
  {
  }

  /** A first start, with nothing stored, shows the light theme, every
      notification channel switched on, US dollars, English and UTC. */
  lemma FirstStartSettings()
    ensures var s := LoadInitialState(None).settings;
            && s.theme == Light
            && s.notifications.email && s.notifications.desktop && s.notifications.documents
            && s.notifications.payments && s.notifications.tasks
            && s.currency == "USD" && s.language == "en" && s.timeZone == "UTC"
  {
  }

  // --------------------------------------------------------- notifications

  predicate IsUnread(n: Notification) {
    !n.read
  }

  /** The unread counter shown in the header. */
  function UnreadCount(ns: seq<Notification>): (count: nat)
    ensures count <= |ns|
  {
    |Filter(ns, IsUnread)|
  }

  /** The header shows no unread count exactly when every notification has
      been read. */
  lemma NoUnreadIffAllRead(ns: seq<Notification>)
    ensures UnreadCount(ns) == 0 <==> forall i :: 0 <= i < |ns| ==> ns[i].read
  {
    var unread := Filter(ns, IsUnread);
    if exists i :: 0 <= i < |ns| && !ns[i].read {
      var i :| 0 <= i < |ns| && !ns[i].read;
      assert ns[i] in unread;
    }
    if |unread| > 0 {
      assert unread[0] in ns && IsUnread(unread[0]);
      var i :| 0 <= i < |ns| && ns[i] == unread[0];
    }
  }

  /** The record `addNotification` builds: the caller's fields, a fresh
      identifier and time stamp, and `read = false`. */
  function NewNotification(input: NotificationInput, id: Id, createdAt: Date): (n: Notification)
    ensures IsUnread(n)
    ensures n.id == id && n.createdAt == createdAt
    ensures n.kind == input.kind && n.title == input.title && n.message == input.message
    ensures n.link == input.link
  {
    Notification(id, input.kind, input.title, input.message, false, createdAt, input.link)
  }

  /** `ns.map(n => n.id === id ? { ...n, read: true } : n)`. */
  function MarkRead(ns: seq<Notification>, id: Id): (r: seq<Notification>)
    ensures |r| == |ns|
    ensures forall i :: 0 <= i < |ns| ==> r[i] == if ns[i].id == id then ns[i].(read := true) else ns[i]
  {
    if ns == [] then [] else [if ns[0].id == id then ns[0].(read := true) else ns[0]] + MarkRead(ns[1..], id)
  }

  /** Marking as read only flips `read` on the matching notifications:
      position, identity, and every other field stay. */
  lemma MarkReadKeepsFields(ns: seq<Notification>, id: Id, i: nat)
    requires i < |ns|
    ensures MarkRead(ns, id)[i].(read := ns[i].read) == ns[i]
    ensures MarkRead(ns, id)[i].read == (ns[i].read || ns[i].id == id)
  {
  }

  /** Marking the same notification as read twice is marking it once. */
  lemma MarkReadIdempotent(ns: seq<Notification>, id: Id)
    ensures MarkRead(MarkRead(ns, id), id) == MarkRead(ns, id)
  {
  }

  /** Prepending an unread notification raises the unread count by one. */
  lemma UnreadAfterPrepend(n: Notification, ns: seq<Notification>)
    requires IsUnread(n)
    ensures UnreadCount([n] + ns) == UnreadCount(ns) + 1
  {
    assert ([n] + ns)[1..] == ns;
  }

  /** Some unread notification carries the identifier. */
  predicate HasUnreadWithId(ns: seq<Notification>, id: Id) {
    exists i :: 0 <= i < |ns| && ns[i].id == id && IsUnread(ns[i])
  }

  /** The unread count of a non-empty list: its head's share plus its tail's. */
  lemma UnreadOfCons(ns: seq<Notification>)
    requires ns != []
    ensures UnreadCount(ns) == (if IsUnread(ns[0]) then 1 else 0) + UnreadCount(ns[1..])
  {
    assert ns == [ns[0]] + ns[1..];
  }

  lemma HasUnreadWithIdOfCons(ns: seq<Notification>, id: Id)
    requires ns != []
    ensures HasUnreadWithId(ns, id) <==>
            (ns[0].id == id && IsUnread(ns[0])) || HasUnreadWithId(ns[1..], id)
  {
    if HasUnreadWithId(ns[1..], id) {
      var i :| 0 <= i < |ns[1..]| && ns[1..][i].id == id && IsUnread(ns[1..][i]);
      assert ns[i + 1] == ns[1..][i];
    }
    if HasUnreadWithId(ns, id) {
      var i :| 0 <= i < |ns| && ns[i].id == id && IsUnread(ns[i]);
      if i > 0 {
        assert ns[1..][i - 1] == ns[i];
      }
    }
  }

  /** Marking as read never raises the unread count, and lowers it exactly
      when an unread notification carries the identifier. */
  lemma {:induction false} UnreadAfterMarkRead(ns: seq<Notification>, id: Id)
    ensures UnreadCount(MarkRead(ns, id)) <= UnreadCount(ns)
    ensures UnreadCount(MarkRead(ns, id)) < UnreadCount(ns) <==> HasUnreadWithId(ns, id)
  {
    if ns != [] {
      var r := MarkRead(ns, id);
      assert r[1..] == MarkRead(ns[1..], id);
      UnreadAfterMarkRead(ns[1..], id);
      UnreadOfCons(ns);
      UnreadOfCons(r);
      HasUnreadWithIdOfCons(ns, id);
    }
  }

  // ----------------------------------------------------------------- store

  /** The store. Each method replaces one field, as `set` does with the
      object its updater returns, and then writes the full aggregate to the
      storage slot, here the ghost field `persisted`. */
  class EntityStore {
    var clients: seq<Client>
    var projects: seq<Project>
    var tasks: seq<Task>
    var documents: seq<Document>
    var payments: seq<Payment>
    var notifications: seq<Notification>
    var settings: UserSettings
    ghost var persisted: Option<SavedState>

    /** The aggregate held in memory. */
    function State(): AggregateState
      reads this
    {
      AggregateState(clients, projects, tasks, documents, payments, notifications, settings)
    }

    /** Reloading from the slot would reproduce the in-memory state. */
    ghost predicate Valid()
      reads this
    {
      LoadInitialState(persisted) == State()
    }

    /** Creation: the state is restored from whatever the slot holds. */
    constructor (slot: Option<SavedState>)
      ensures State() == LoadInitialState(slot)
      ensures persisted == slot
      ensures Valid()
    {
      var initial := LoadInitialState(slot);
      clients := initial.clients;
      projects := initial.projects;
      tasks := initial.tasks;
      documents := initial.documents;
      payments := initial.payments;
      notifications := initial.notifications;
      settings := initial.settings;
      persisted := slot;
    }

    /** `saveState`: the whole current aggregate overwrites the slot. */
    method SaveState()
      modifies this`persisted
      ensures persisted == Some(Save(State()))
      ensures Valid()
    {
      persisted := Some(Save(State()));
      SaveLoadRoundTrip(State());
    }

    // clients

    method AddClient(client: Client)
      modifies this
      ensures clients == old(clients) + [client]
      ensures State() == old(State()).(clients := clients)
      ensures persisted == Some(Save(State())) && Valid()
    {
      clients := clients + [client];
      SaveState();
    }

    method UpdateClient(client: Client)
      modifies this
      ensures clients == Replace(old(clients), ClientId, client)
      ensures State() == old(State()).(clients := clients)
      ensures persisted == Some(Save(State())) && Valid()
    {
      clients := Replace(clients, ClientId, client);
      SaveState();
    }

    method DeleteClient(id: Id)
      modifies this
      ensures clients == Remove(old(clients), ClientId, id)
      ensures State() == old(State()).(clients := clients)
      ensures persisted == Some(Save(State())) && Valid()
    {
      clients := Remove(clients, ClientId, id);
      SaveState();
    }

    // projects

    method AddProject(project: Project)
      modifies this
      ensures projects == old(projects) + [project]
      ensures State() == old(State()).(projects := projects)
      ensures persisted == Some(Save(State())) && Valid()
    {
      projects := projects + [project];
      SaveState();
    }

    method UpdateProject(project: Project)
      modifies this
      ensures projects == Replace(old(projects), ProjectId, project)
      ensures State() == old(State()).(projects := projects)
      ensures persisted == Some(Save(State())) && Valid()
    {
      projects := Replace(projects, ProjectId, project);
      SaveState();
    }

    method DeleteProject(id: Id)
      modifies this
      ensures projects == Remove(old(projects), ProjectId, id)
      ensures State() == old(State()).(projects := projects)
      ensures persisted == Some(Save(State())) && Valid()
    {
      projects := Remove(projects, ProjectId, id);
      SaveState();
    }

    // tasks

    method AddTask(task: Task)
      modifies this
      ensures tasks == old(tasks) + [task]
      ensures State() == old(State()).(tasks := tasks)
      ensures persisted == Some(Save(State())) && Valid()
    {
      tasks := tasks + [task];
      SaveState();
    }

    method UpdateTask(task: Task)
      modifies this
      ensures tasks == Replace(old(tasks), TaskId, task)
      ensures State() == old(State()).(tasks := tasks)
      ensures persisted == Some(Save(State())) && Valid()
    {
      tasks := Replace(tasks, TaskId, task);
      SaveState();
    }

    method DeleteTask(id: Id)
      modifies this
      ensures tasks == Remove(old(tasks), TaskId, id)
      ensures State() == old(State()).(tasks := tasks)
      ensures persisted == Some(Save(State())) && Valid()
    {
      tasks := Remove(tasks, TaskId, id);
      SaveState();
    }

    // documents

    method AddDocument(document: Document)
      modifies this
      ensures documents == old(documents) + [document]
      ensures State() == old(State()).(documents := documents)
      ensures persisted == Some(Save(State())) && Valid()
    {
      documents := documents + [document];
      SaveState();
    }

    method UpdateDocument(document: Document)
      modifies this
      ensures documents == Replace(old(documents), DocumentId, document)
      ensures State() == old(State()).(documents := documents)
      ensures persisted == Some(Save(State())) && Valid()
    {
      documents := Replace(documents, DocumentId, document);
      SaveState();
    }

    method DeleteDocument(id: Id)
      modifies this
      ensures documents == Remove(old(documents), DocumentId, id)
      ensures State() == old(State()).(documents := documents)
      ensures persisted == Some(Save(State())) && Valid()
    {
      documents := Remove(documents, DocumentId, id);
      SaveState();
    }

    // payments

    method AddPayment(payment: Payment)
      modifies this
      ensures payments == old(payments) + [payment]
      ensures State() == old(State()).(payments := payments)
      ensures persisted == Some(Save(State())) && Valid()
    {
      payments := payments + [payment];
      SaveState();
    }

    method UpdatePayment(payment: Payment)
      modifies this
      ensures payments == Replace(old(payments), PaymentId, payment)
      ensures State() == old(State()).(payments := payments)
      ensures persisted == Some(Save(State())) && Valid()
    {
      payments := Replace(payments, PaymentId, payment);
      SaveState();
    }

    method DeletePayment(id: Id)
      modifies this
      ensures payments == Remove(old(payments), PaymentId, id)
      ensures State() == old(State()).(payments := payments)
      ensures persisted == Some(Save(State())) && Valid()
    {
      payments := Remove(payments, PaymentId, id);
      SaveState();
    }

    // settings

    method UpdateSettings(partial: PartialSettings)
      modifies this
      ensures settings == MergeSettings(old(settings), partial)
      ensures State() == old(State()).(settings := settings)
      ensures persisted == Some(Save(State())) && Valid()
    {
      settings := MergeSettings(settings, partial);
      SaveState();
    }

    // notifications

    method AddNotification(input: NotificationInput, id: Id, createdAt: Date)
      modifies this
      ensures notifications == [NewNotification(input, id, createdAt)] + old(notifications)
      ensures notifications[1..] == old(notifications)
      ensures UnreadCount(notifications) == UnreadCount(old(notifications)) + 1
      ensures State() == old(State()).(notifications := notifications)
      ensures persisted == Some(Save(State())) && Valid()
    {
      var n := NewNotification(input, id, createdAt);
      UnreadAfterPrepend(n, notifications);
      notifications := [n] + notifications;
      SaveState();
    }

    method MarkNotificationAsRead(id: Id)
      modifies this
      ensures notifications == MarkRead(old(notifications), id)
      ensures UnreadCount(notifications) <= UnreadCount(old(notifications))
      ensures State() == old(State()).(notifications := notifications)
      ensures persisted == Some(Save(State())) && Valid()
    {
      UnreadAfterMarkRead(notifications, id);
      notifications := MarkRead(notifications, id);
      SaveState();
    }

    method ClearNotifications()
      modifies this
      ensures notifications == []
      ensures UnreadCount(notifications) == 0
      ensures State() == old(State()).(notifications := notifications)
      ensures persisted == Some(Save(State())) && Valid()
    {
      notifications := [];
      SaveState();
    }
  }
}
