/** The settings form of the main window and its persistence: the validator, and the
    key mapping between the form's fields and a key-value store. The store stands for
    the INI file next to the executable, in which every value is kept as text. */
module Settings {

  /** What the settings form holds: seven text fields and the "close on hang-up" box. */
  datatype Form = Form(
    login: string,
    password: string,
    realm: string,
    authUrl: string,
    eventUrl: string,
    infoUrl: string,
    md5Hash: string,
    closeHungUp: bool)

  /** The built-in values of the seven text fields, used for keys the store lacks. */
  datatype Defaults = Defaults(
    login: string,
    password: string,
    realm: string,
    authUrl: string,
    eventUrl: string,
    infoUrl: string,
    md5Hash: string)

  type Store = map<string, string>

  const LoginKey := "login"
  const PasswordKey := "password"
  const RealmKey := "realm"
  const AuthUrlKey := "auth_url"
  const EventUrlKey := "event_url"
  const InfoUrlKey := "info_url"
  const Md5HashKey := "md5_hash"
  const CloseHungUpKey := "close_hung_up"

  const SettingKeys: set<string> :=
    {LoginKey, PasswordKey, RealmKey, AuthUrlKey, EventUrlKey, InfoUrlKey, Md5HashKey, CloseHungUpKey}

  /** How a boolean is written as text. */
  function BoolText(b: bool): (text: string)
  {
    if b then "true" else "false"
  }

  function LowerAscii(ch: char): (lower: char)
  {
    if 'A' <= ch <= 'Z' then (ch as int - 'A' as int + 'a' as int) as char else ch
  }

  function Lower(s: string): (r: string)
    ensures |r| == |s|
    ensures forall i :: 0 <= i < |s| ==> r[i] == LowerAscii(s[i])
  {
    if s == [] then [] else [LowerAscii(s[0])] + Lower(s[1..])
  }

  /** Reading stored text as a boolean: false exactly for the empty text, "0", and
      "false" in any letter case. */
  function TextToBool(s: string): (b: bool)
  {
    !(s == "" || s == "0" || Lower(s) == "false")
  }

  /** Writing a boolean and reading it back gives the boolean. */
  lemma BoolTextRoundTrip(b: bool)
    ensures TextToBool(BoolText(b)) == b
  {
  }

  /** isCorrectSettings: the checks of the seven text fields in order, giving up at the
      first empty one. */
  function IsCorrectSettings(f: Form): (ok: bool)
    ensures ok <==>
              && f.login != "" && f.password != "" && f.realm != "" && f.authUrl != ""
              && f.eventUrl != "" && f.infoUrl != "" && f.md5Hash != ""
  {
    if f.login == "" then false
    else if f.password == "" then false
    else if f.realm == "" then false
    else if f.authUrl == "" then false
    else if f.eventUrl == "" then false
    else if f.infoUrl == "" then false
    else if f.md5Hash == "" then false
    else true
  }

  /** The store after saving; `accepted` says whether the form passed the check (the
      window then closes) or was refused (the window shows a warning and stays open). */
  datatype Saved = Saved(store: Store, accepted: bool)

  /** saveSettings: refuse an incomplete form without touching the store; otherwise write
      all eight keys. */
  function SaveSettings(store: Store, f: Form): (r: Saved)
    ensures r.accepted == IsCorrectSettings(f)
    ensures !r.accepted ==> r.store == store
    ensures r.accepted ==> r.store.Keys == store.Keys + SettingKeys
    ensures forall k :: k in store && k !in SettingKeys ==> k in r.store && r.store[k] == store[k]
    ensures r.accepted ==>
              && r.store[LoginKey] == f.login
              && r.store[PasswordKey] == f.password
              && r.store[RealmKey] == f.realm
              && r.store[AuthUrlKey] == f.authUrl
              && r.store[EventUrlKey] == f.eventUrl
              && r.store[InfoUrlKey] == f.infoUrl
              && r.store[Md5HashKey] == f.md5Hash
              && r.store[CloseHungUpKey] == BoolText(f.closeHungUp)
  {
    if !IsCorrectSettings(f) then Saved(store, false)
    else
      var written := store[LoginKey := f.login]
                          [PasswordKey := f.password]
                          [RealmKey := f.realm]
                          [AuthUrlKey := f.authUrl]
                          [EventUrlKey := f.eventUrl]
                          [InfoUrlKey := f.infoUrl]
                          [Md5HashKey := f.md5Hash]
                          [CloseHungUpKey := BoolText(f.closeHungUp)];
      Saved(written, true)
  }

  function ValueOr(store: Store, key: string, default: string): (v: string)
  {
    if key in store then store[key] else default
  }

  /** A text field shows the value stored under its key, or its built-in value when the
      store has no such key. */
  ghost predicate FromStore(store: Store, key: string, default: string, value: string)
  {
    (key in store ==> value == store[key]) && (key !in store ==> value == default)
  }

  /** The "close on hang-up" setting as the destroy handler reads it: on unless the
      store says otherwise. */
  function CloseHungUp(store: Store): (on: bool)
    ensures CloseHungUpKey !in store ==> on
    ensures forall b :: CloseHungUpKey in store && store[CloseHungUpKey] == BoolText(b) ==> on == b
    ensures !on ==> CloseHungUpKey in store
  {
    if CloseHungUpKey in store then TextToBool(store[CloseHungUpKey]) else true
  }

  /** loadSettings: fill the form from the store, taking the built-in value for each text
      key the store lacks and "on" for a missing "close on hang-up". */
  function LoadSettings(store: Store, d: Defaults): (f: Form)
    ensures FromStore(store, LoginKey, d.login, f.login)
    ensures FromStore(store, PasswordKey, d.password, f.password)
    ensures FromStore(store, RealmKey, d.realm, f.realm)
    ensures FromStore(store, AuthUrlKey, d.authUrl, f.authUrl)
    ensures FromStore(store, EventUrlKey, d.eventUrl, f.eventUrl)
    ensures FromStore(store, InfoUrlKey, d.infoUrl, f.infoUrl)
    ensures FromStore(store, Md5HashKey, d.md5Hash, f.md5Hash)
    ensures f.closeHungUp == CloseHungUp(store)
  {
    Form(
      ValueOr(store, LoginKey, d.login),
      ValueOr(store, PasswordKey, d.password),
      ValueOr(store, RealmKey, d.realm),
      ValueOr(store, AuthUrlKey, d.authUrl),
      ValueOr(store, EventUrlKey, d.eventUrl),
      ValueOr(store, InfoUrlKey, d.infoUrl),
      ValueOr(store, Md5HashKey, d.md5Hash),
      CloseHungUp(store))
  }

  /** From an empty store the form shows the built-in values with the box ticked. */
  lemma LoadFromEmpty(d: Defaults)
    ensures LoadSettings(map[], d)
            == Form(d.login, d.password, d.realm, d.authUrl, d.eventUrl, d.infoUrl, d.md5Hash, true)
  {
  }

  /** Loading depends on the eight setting keys of the store and on nothing else in it. */
  lemma LoadReadsOnlyItsKeys(store: Store, d: Defaults)
    ensures LoadSettings(store, d) == LoadSettings(map k | k in store && k in SettingKeys :: store[k], d)
  {
  }

  /** Saving a complete form and loading it back restores every field, whatever the store
      held before and whatever the built-in values are: the keys written and the keys read
      are the same eight. */
  lemma SaveLoadRoundTrip(store: Store, f: Form, d: Defaults)
    requires IsCorrectSettings(f)
    ensures LoadSettings(SaveSettings(store, f).store, d) == f
  {
  }

  /** After a successful save the destroy handler sees the saved "close on hang-up". */
  lemma SavedCloseHungUp(store: Store, f: Form)
    requires IsCorrectSettings(f)
    ensures CloseHungUp(SaveSettings(store, f).store) == f.closeHungUp
  {
  }

  /** A refused save changes nothing a later load can see. */
  lemma RefusedSaveKeepsLoad(store: Store, f: Form, d: Defaults)
    requires !IsCorrectSettings(f)
    ensures LoadSettings(SaveSettings(store, f).store, d) == LoadSettings(store, d)
  {
  }
}
