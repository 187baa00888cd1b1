/** The settings page (src/components/settings/Settings.tsx). Every handler
    builds a complete settings record from the current one, changing one
    field (or one notification flag), and hands it to the store's
    `updateSettings`. */
module SettingsPanel {
  import opened Wrappers
  import opened Domain
  import opened Store

  /** The top-level keys of the settings record. */
  datatype SettingsField = ThemeField | NotificationsField | CurrencyField | LanguageField | TimeZoneField

  /** The flags of the nested notifications record. */
  datatype Channel = Email | Desktop | Documents | Payments | Tasks

  /** `a` and `b` agree on every top-level key other than `f`. */
  predicate AgreeExcept(a: UserSettings, b: UserSettings, f: SettingsField) {
    && (f != ThemeField ==> a.theme == b.theme)
    && (f != NotificationsField ==> a.notifications == b.notifications)
    && (f != CurrencyField ==> a.currency == b.currency)
    && (f != LanguageField ==> a.language == b.language)
    && (f != TimeZoneField ==> a.timeZone == b.timeZone)
  }

  function Flag(n: NotificationPrefs, c: Channel): bool {
    match c
    case Email => n.email
    case Desktop => n.desktop
    case Documents => n.documents
    case Payments => n.payments
    case Tasks => n.tasks
  }

  /** `a` and `b` agree on every flag other than `c`. */
  predicate FlagsAgreeExcept(a: NotificationPrefs, b: NotificationPrefs, c: Channel) {
    forall other: Channel :: other != c ==> Flag(a, other) == Flag(b, other)
  }

  /** The sun and moon buttons: `{ ...settings, theme }`. */
  function ChooseTheme(current: UserSettings, theme: Theme): (next: UserSettings)
    ensures next.theme == theme
    ensures AgreeExcept(current, next, ThemeField)
  {
    current.(theme := theme)
  }

  /** The email switch: the email flag is negated, nothing else moves. */
  function ToggleEmail(current: UserSettings): (next: UserSettings)
    ensures Flag(next.notifications, Email) == !Flag(current.notifications, Email)
    ensures FlagsAgreeExcept(current.notifications, next.notifications, Email)
    ensures AgreeExcept(current, next, NotificationsField)
  {
    current.(notifications := current.notifications.(email := !current.notifications.email))
  }

  /** The desktop switch: the desktop flag is negated, nothing else moves. */
  function ToggleDesktop(current: UserSettings): (next: UserSettings)
    ensures Flag(next.notifications, Desktop) == !Flag(current.notifications, Desktop)
    ensures FlagsAgreeExcept(current.notifications, next.notifications, Desktop)
    ensures AgreeExcept(current, next, NotificationsField)
  {
    current.(notifications := current.notifications.(desktop := !current.notifications.desktop))
  }

  /** The language selector. */
  function SelectLanguage(current: UserSettings, language: string): (next: UserSettings)
    ensures next.language == language
    ensures AgreeExcept(current, next, LanguageField)
  {
    current.(language := language)
  }

  /** The time-zone selector. */
  function SelectTimeZone(current: UserSettings, timeZone: string): (next: UserSettings)
    ensures next.timeZone == timeZone
    ensures AgreeExcept(current, next, TimeZoneField)
  {
    current.(timeZone := timeZone)
  }

  /** The currency selector. */
  function SelectCurrency(current: UserSettings, currency: string): (next: UserSettings)
    ensures next.currency == currency
    ensures AgreeExcept(current, next, CurrencyField)
  {
    current.(currency := currency)
  }

  /** Flipping a switch twice restores the original settings. */
  lemma TogglesAreInvolutions(s: UserSettings)
    ensures ToggleEmail(ToggleEmail(s)) == s
    ensures ToggleDesktop(ToggleDesktop(s)) == s
  {
  }

  /** Choosing the theme already in force changes nothing; choosing twice
      keeps the last choice. */
  lemma ChooseThemeLaws(s: UserSettings, t: Theme, u: Theme)
    ensures ChooseTheme(s, s.theme) == s
    ensures ChooseTheme(ChooseTheme(s, t), u) == ChooseTheme(s, u)
  {
  }

  /** A handler's record handed to the store's `updateSettings`: since the
      record supplies every key, the shallow merge installs exactly that
      record, and nothing but the settings changes. */
  method ApplyHandlerRecord(store: EntityStore, record: UserSettings)
    modifies store
    ensures store.settings == record
    ensures store.State() == old(store.State()).(settings := record)
    ensures store.persisted == Some(Save(store.State())) && store.Valid()
  {
    MergeWhole(store.settings, record);
    store.UpdateSettings(Whole(record));
  }
}
