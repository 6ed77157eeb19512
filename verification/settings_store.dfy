/**
 * The "USER_SETTINGS" shared preferences: a durable key-value store that
 * survives process restarts. The bootstrap keeps two entries in it, the
 * user's friendly identifier under "USER_ID" and the first-launch flag under
 * "first_time".
 */
module SettingsStore {
  import opened Wrappers

  /** A stored preference value: the store holds strings and booleans. */
  datatype Setting = Text(text: string) | Flag(flag: bool)

  type Settings = map<string, Setting>

  const USER_ID: string := "USER_ID"
  const FIRST_TIME: string := "first_time"

  /** getString(key, null): the stored string, or null when the key is absent. */
  function GetString(settings: Settings, key: string): Option<string>
  {
    if key in settings && settings[key].Text? then Some(settings[key].text) else None
  }

  /** getBoolean(key, default): the stored flag, or the default when the key is absent. */
  function GetBoolean(settings: Settings, key: string, default: bool): bool
  {
    if key in settings && settings[key].Flag? then settings[key].flag else default
  }

  /** Whether this is still the first launch: "first_time" read with default true. */
  predicate FirstTime(settings: Settings)
    ensures FIRST_TIME !in settings ==> FirstTime(settings)
    ensures FIRST_TIME in settings && settings[FIRST_TIME] == Flag(false) ==> !FirstTime(settings)
    ensures FIRST_TIME in settings && settings[FIRST_TIME].Flag? ==>
              FirstTime(settings) == settings[FIRST_TIME].flag
  {
    GetBoolean(settings, FIRST_TIME, true)
  }

  /** The identity onCreate settles on, and the settings it leaves behind. */
  datatype Identity = Identity(userId: string, settings: Settings)

  /**
   * onCreate's identity step: when no identifier is stored, the freshly
   * generated one is stored and used; otherwise the stored one is used and the
   * store is left as it was.
   */
  function ResolveIdentity(settings: Settings, freshId: string): (r: Identity)
    ensures GetString(settings, USER_ID).None? ==>
              r.userId == freshId && r.settings == settings[USER_ID := Text(freshId)]
    ensures GetString(settings, USER_ID).Some? ==>
              r.userId == GetString(settings, USER_ID).value && r.settings == settings
    ensures GetString(r.settings, USER_ID) == Some(r.userId)
    ensures FirstTime(r.settings) == FirstTime(settings)
  {
    match GetString(settings, USER_ID)
    case None => Identity(freshId, settings[USER_ID := Text(freshId)])
    case Some(stored) => Identity(stored, settings)
  }

  /**
   * The identity is created at most once: a later launch that starts from the
   * settings the first launch persisted reuses its identifier, whatever fresh
   * identifier it is offered, and writes nothing.
   */
  lemma IdentityCreatedOnce(settings: Settings, firstFresh: string, laterFresh: string)
    ensures ResolveIdentity(ResolveIdentity(settings, firstFresh).settings, laterFresh)
            == ResolveIdentity(settings, firstFresh)
  {
  }

  /**
   * The ready effect's bookkeeping: when "first_time" reads true (absent counts
   * as true) it is set to false; otherwise the store is untouched.
   */
  function MarkLaunched(settings: Settings): (r: Settings)
    ensures !FirstTime(r)
    ensures !FirstTime(settings) ==> r == settings
    ensures r.Keys == settings.Keys + {FIRST_TIME}
    ensures forall key | key in settings && key != FIRST_TIME :: r[key] == settings[key]
  {
    if FirstTime(settings) then settings[FIRST_TIME := Flag(false)] else settings
  }
}
