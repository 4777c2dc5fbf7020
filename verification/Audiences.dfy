/** Who is asking: credentials, grants, and the audience a request is answered for. */
module Audiences {
  import opened Basics
  import opened Tables
  import opened Wire

  /** An empty platform id is the anonymous audience. */
  datatype Audience = Audience(platformId: string, appIds: set<string>)
  {
    predicate Anonymous() { platformId == "" }
  }

  const ANONYMOUS := Audience("", {})

  ghost predicate Holds(rules: Rules, s: Store, token: string, id: string)
  {
    id in s.platforms && s.platforms[id].digest == rules.tokenDigest(token)
  }

  /** The platform holding a credential, if it is recognised and still enabled. */
  ghost function PlatformByToken(rules: Rules, s: Store, token: string): (r: Option<string>)
    ensures r.Some? ==> r.value in s.platforms && s.platforms[r.value].enabled
  {
    if token == "" || !exists id :: Holds(rules, s, token, id) then None
    else
      var id :| Holds(rules, s, token, id);
      if s.platforms[id].enabled then Some(id) else None
  }

  function GrantsOf(s: Store, platformId: string): set<string>
  {
    set g | g in s.grants && g.1 == platformId :: g.0
  }

  ghost function AudienceOf(s: Store, platformId: string): Audience
  {
    var granted := GrantsOf(s, platformId);
    if granted == {} then ANONYMOUS else Audience(platformId, granted)
  }

  ghost function AudienceFor(rules: Rules, s: Store, token: string): Audience
  {
    var platform := PlatformByToken(rules, s, token);
    if platform.None? then ANONYMOUS else AudienceOf(s, platform.value)
  }

  /** Table invariants: token digests are unique, and no platform has the empty id. */
  ghost predicate PlatformKeys(s: Store)
  {
    && "" !in s.platforms
    && (forall p, q :: p in s.platforms && q in s.platforms && s.platforms[p].digest == s.platforms[q].digest ==> p == q)
  }

  /** A credential counts for something exactly when it is the one issued to an enabled platform
      that has been granted an app; it then stands for precisely that platform's grants. Missing,
      unknown, disabled and grantless credentials all stand for the anonymous audience. */
  lemma CredentialDecides(rules: Rules, s: Store, token: string)
    requires PlatformKeys(s)
    ensures AudienceFor(rules, s, token) != ANONYMOUS <==>
              token != "" && exists id :: Holds(rules, s, token, id) && s.platforms[id].enabled && GrantsOf(s, id) != {}
    ensures AudienceFor(rules, s, token).Anonymous() <==> AudienceFor(rules, s, token) == ANONYMOUS
    ensures forall id :: token != "" && Holds(rules, s, token, id) && s.platforms[id].enabled && GrantsOf(s, id) != {}
              ==> AudienceFor(rules, s, token) == Audience(id, GrantsOf(s, id))
  {
  }
}
