/**
 * The landing page's "get started" handler: make sure the browser holds a
 * session id under the page's own key, then go to the market.
 */
module LandingPage {
  import opened Wrappers
  import Session

  /** The key this page writes; it is not the key the session helpers read. */
  const PageSessionKey := "sessionId"
  const MarketPath := "/market"

  /** The store after the handler: a fresh id when the key is absent or empty, else untouched. */
  function GetStartedSpec(items: map<string, string>, freshId: string): (r: map<string, string>)
    ensures PageSessionKey in r
    ensures PageSessionKey in items && items[PageSessionKey] != "" ==> r == items
    ensures PageSessionKey !in items || items[PageSessionKey] == "" ==> r == items[PageSessionKey := freshId]
  {
    if PageSessionKey in items && items[PageSessionKey] != "" then items else items[PageSessionKey := freshId]
  }

  /** A second click with any other fresh id changes nothing more. */
  lemma GetStartedIdempotent(items: map<string, string>, id1: string, id2: string)
    requires id1 != ""
    ensures GetStartedSpec(GetStartedSpec(items, id1), id2) == GetStartedSpec(items, id1)
  {
  }

  /** After the handler the page's key holds a non-empty id: the old one when there was one. */
  lemma GetStartedLeavesId(items: map<string, string>, freshId: string)
    requires freshId != ""
    ensures GetStartedSpec(items, freshId)[PageSessionKey] != ""
    ensures PageSessionKey in items && items[PageSessionKey] != ""
            ==> GetStartedSpec(items, freshId)[PageSessionKey] == items[PageSessionKey]
  {
  }

  /** The handler writes a different key than the session helpers read, so it never changes whether there is a session. */
  lemma GetStartedKeepsSession(items: map<string, string>, freshId: string)
    ensures Session.HasSessionOf(Some(GetStartedSpec(items, freshId))) == Session.HasSessionOf(Some(items))
    ensures Session.SessionOf(Some(GetStartedSpec(items, freshId))) == Session.SessionOf(Some(items))
  {
    assert PageSessionKey != Session.SessionKey;
  }

  /** `handleGetStarted`; `freshId` is the value `uuidv4()` returns. */
  method HandleGetStarted(storage: Session.LocalStorage, freshId: string) returns (target: string)
    modifies storage
    ensures storage.items == GetStartedSpec(old(storage.items), freshId)
    ensures target == MarketPath
  {
    var sessionId := storage.GetItem(PageSessionKey);
    if sessionId.None? || sessionId.value == "" {
      storage.SetItem(PageSessionKey, freshId);
    }
    target := MarketPath;
  }
}
