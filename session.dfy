/**
 * The browser's key-value store and the session helpers built on one key
 * of it. A null store stands for running outside a browser, where the
 * helpers report no session and change nothing.
 */
module Session {
  import opened Wrappers

  const SessionKey := "shophub_session_id"

  /** `window.localStorage`: string keys to string values. */
  class LocalStorage {
    var items: map<string, string>

    constructor ()
      ensures items == map[]
    {
      items := map[];
    }

    function GetItem(key: string): (r: Option<string>)
      reads this
      ensures r.Some? <==> key in items
      ensures r.Some? ==> r.value == items[key]
    {
      if key in items then Some(items[key]) else None
    }

    method SetItem(key: string, value: string)
      modifies this
      ensures items == old(items)[key := value]
    {
      items := items[key := value];
    }

    method RemoveItem(key: string)
      modifies this
      ensures items == old(items) - {key}
    {
      items := items - {key};
    }
  }

  /** The store's contents as a value, `None` outside a browser. */
  function View(storage: LocalStorage?): Option<map<string, string>>
    reads storage
  {
    if storage == null then None else Some(storage.items)
  }

  /** `getSession` on a store's contents. */
  function SessionOf(v: Option<map<string, string>>): Option<string> {
    if v.Some? && SessionKey in v.value then Some(v.value[SessionKey]) else None
  }

  /** `hasSession` on a store's contents: `!!getItem(key)`, so an empty id is no session. */
  predicate HasSessionOf(v: Option<map<string, string>>) {
    v.Some? && SessionKey in v.value && v.value[SessionKey] != ""
  }

  function CreateSessionOf(v: Option<map<string, string>>, sessionId: string): Option<map<string, string>> {
    if v.Some? then Some(v.value[SessionKey := sessionId]) else None
  }

  function ClearSessionOf(v: Option<map<string, string>>): Option<map<string, string>> {
    if v.Some? then Some(v.value - {SessionKey}) else None
  }

  /** There is a session exactly when a non-empty id is stored. */
  lemma HasSessionIffStoredNonEmpty(v: Option<map<string, string>>)
    ensures HasSessionOf(v) <==> SessionOf(v).Some? && SessionOf(v).value != ""
  {
  }

  /** Outside a browser there is no session and creating or clearing one changes nothing. */
  lemma OutsideBrowser(sessionId: string)
    ensures !HasSessionOf(None) && SessionOf(None).None?
    ensures CreateSessionOf(None, sessionId).None? && ClearSessionOf(None).None?
  {
  }

  /** A created session is read back, and it counts as a session when its id is non-empty. */
  lemma CreateThenGet(m: map<string, string>, sessionId: string)
    ensures SessionOf(CreateSessionOf(Some(m), sessionId)) == Some(sessionId)
    ensures HasSessionOf(CreateSessionOf(Some(m), sessionId)) <==> sessionId != ""
  {
  }

  /** After clearing there is no session, whatever was stored before. */
  lemma ClearThenNone(v: Option<map<string, string>>)
    ensures SessionOf(ClearSessionOf(v)).None? && !HasSessionOf(ClearSessionOf(v))
  {
  }

  /** The helpers touch only their own key. */
  lemma OnlySessionKeyChanges(m: map<string, string>, sessionId: string, key: string)
    requires key != SessionKey
    ensures key in CreateSessionOf(Some(m), sessionId).value <==> key in m
    ensures key in ClearSessionOf(Some(m)).value <==> key in m
    ensures key in m ==> CreateSessionOf(Some(m), sessionId).value[key] == m[key]
    ensures key in m ==> ClearSessionOf(Some(m)).value[key] == m[key]
  {
  }

  function HasSession(storage: LocalStorage?): (r: bool)
    reads storage
    ensures r == HasSessionOf(View(storage))
  {
    storage != null && storage.GetItem(SessionKey).Some? && storage.GetItem(SessionKey).value != ""
  }

  function GetSession(storage: LocalStorage?): (r: Option<string>)
    reads storage
    ensures r == SessionOf(View(storage))
  {
    if storage == null then None else storage.GetItem(SessionKey)
  }

  method CreateSession(storage: LocalStorage?, sessionId: string)
    modifies storage
    ensures View(storage) == CreateSessionOf(old(View(storage)), sessionId)
  {
    if storage == null {
      return;
    }
    storage.SetItem(SessionKey, sessionId);
  }

  method ClearSession(storage: LocalStorage?)
    modifies storage
    ensures View(storage) == ClearSessionOf(old(View(storage)))
  {
    if storage == null {
      return;
    }
    storage.RemoveItem(SessionKey);
  }
}
