/** The process-wide configuration record, as an immutable value. */
module Config {

  /** An optional value; `None` stands for Python's `None`. */
  datatype Option<+T> = None | Some(value: T)

  /** The settings the handlers and the answer generator read.
      `systemPrompt` is optional because its declared default is `None`,
      and the prompt file may map it to nothing or to the empty string. */
  datatype Settings = Settings(
    openRouterApiKey: string,
    languageModel: string,
    systemPrompt: Option<string>,
    telegramBotToken: string,
    adminUserIds: seq<int>)

  /** The admin allow-list used when none is configured. */
  const DEFAULT_ADMIN_USER_IDS: seq<int> := []

  /** Python truthiness of an optional string: neither `None` nor empty. */
  predicate Truthy(s: Option<string>) {
    s.Some? && s.value != ""
  }

  /** Whether `userId` may run the health command. */
  predicate IsAdmin(settings: Settings, userId: int) {
    userId in settings.adminUserIds
  }

  /** With the default allow-list, nobody is an admin. */
  lemma DefaultAllowListAdmitsNobody(settings: Settings, userId: int)
    requires settings.adminUserIds == DEFAULT_ADMIN_USER_IDS
    ensures !IsAdmin(settings, userId)
  {
  }
}
