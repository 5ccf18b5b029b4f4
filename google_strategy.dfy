/** The Google OAuth strategy object: the default scope its constructor
    writes into the options Hash, the memoised profile document, and the
    session write and redirect choice of the request phase. */
module GoogleStrategy {
  import opened Wrappers
  import opened RubyValues
  import opened GoogleScopes
  import GoogleIdentity

  /** A Ruby Hash object that more than one party holds a reference to: the
      options Hash the host passes in, and the Rack session. */
  class HashObject {
    var entries: map<Key, Value>

    constructor (entries: map<Key, Value>)
      ensures this.entries == entries
    {
      this.entries := entries;
    }
  }

  /** The strategy's name, `:google`; `name.to_s` keys its session entry. */
  const Name := "google"

  /** The option key `:scope` and its default, `:contacts`. */
  const ScopeOption := SymKey("scope")
  const DefaultScope := Sym("contacts")

  /** The options after `options[:scope] = :contacts unless options.key? :scope`. */
  function WithDefaultScope(options: map<Key, Value>): (r: map<Key, Value>)
    ensures r.Keys == options.Keys + {ScopeOption}
    ensures forall k :: k in options ==> r[k] == options[k]
    ensures ScopeOption !in options ==> r[ScopeOption] == DefaultScope
  {
    if ScopeOption in options then options else options[ScopeOption := DefaultScope]
  }

  /** Setting the default twice is setting it once. */
  lemma WithDefaultScopeIdempotent(options: map<Key, Value>)
    ensures WithDefaultScope(WithDefaultScope(options)) == WithDefaultScope(options)
  {
  }

  /** Left to its default, the scope requested is the contacts feed. */
  lemma DefaultScopeRequestsContacts(options: map<Key, Value>)
    requires ScopeOption !in options
    ensures ScopeUri(Get(WithDefaultScope(options), ScopeOption)) == Some("http://www.google.com/m8/feeds")
  {
    ContactsScopeUri();
  }

  /** A request token as the OAuth consumer hands it back; its contents
      are opaque here. */
  datatype RequestToken = RequestToken(token: string, secret: string, callbackConfirmed: bool)

  /** The call `request_token.authorize_url(params)` the strategy redirects
      to: the token and, when passed, the `oauth_callback` parameter. The
      URL the OAuth library builds from them is not modelled. */
  datatype AuthorizeUrl = AuthorizeUrl(token: string, oauthCallback: Option<string>)

  /** Where `request_phase` redirects: the bare authorize URL when the
      provider confirmed the callback, else the one carrying it. */
  function RedirectTarget(requestToken: RequestToken, callbackUrl: string): (r: AuthorizeUrl)
    ensures r.token == requestToken.token
    ensures r.oauthCallback.None? <==> requestToken.callbackConfirmed
    ensures r.oauthCallback.Some? ==> r.oauthCallback.value == callbackUrl
  {
    if requestToken.callbackConfirmed then AuthorizeUrl(requestToken.token, None)
    else AuthorizeUrl(requestToken.token, Some(callbackUrl))
  }

  /** The session key `'oauth'`. */
  const OAuthKey := StrKey("oauth")

  /** The Hash stored for a request token. */
  function TokenEntry(requestToken: RequestToken): (r: Value)
    ensures r.Hash? && r.entries.Keys == {StrKey("callback_confirmed"), StrKey("request_token"), StrKey("request_secret")}
    ensures r.entries[StrKey("callback_confirmed")] == Bool(requestToken.callbackConfirmed)
    ensures r.entries[StrKey("request_token")] == Str(requestToken.token)
    ensures r.entries[StrKey("request_secret")] == Str(requestToken.secret)
  {
    Hash(map[StrKey("callback_confirmed") := Bool(requestToken.callbackConfirmed),
             StrKey("request_token") := Str(requestToken.token),
             StrKey("request_secret") := Str(requestToken.secret)])
  }

  /** The session after `(session['oauth'] ||= {})[name] = {...}`. Raises
      when `session['oauth']` holds a true value that is not a Hash (`[]=`
      on a String or an Array with a String index raises; other values have
      no `[]=`). */
  function RecordRequestToken(session: map<Key, Value>, name: string, requestToken: RequestToken)
    : (r: Result<map<Key, Value>>)
    ensures r.Ok? <==> !Truthy(Get(session, OAuthKey)) || Get(session, OAuthKey).Hash?
    ensures r.Ok? ==> r.value.Keys == session.Keys + {OAuthKey}
    ensures r.Ok? ==> forall k :: k in session && k != OAuthKey ==> r.value[k] == session[k]
    ensures r.Ok? ==> r.value[OAuthKey].Hash?
    ensures r.Ok? ==> StrKey(name) in r.value[OAuthKey].entries
                      && r.value[OAuthKey].entries[StrKey(name)] == TokenEntry(requestToken)
    ensures r.Ok? && Get(session, OAuthKey).Hash? ==>
              r.value[OAuthKey].entries.Keys == Get(session, OAuthKey).entries.Keys + {StrKey(name)}
              && forall k :: k in Get(session, OAuthKey).entries && k != StrKey(name) ==>
                   r.value[OAuthKey].entries[k] == Get(session, OAuthKey).entries[k]
    ensures r.Ok? && !Get(session, OAuthKey).Hash? ==>
              r.value[OAuthKey].entries.Keys == {StrKey(name)}
  {
    var oauth := Get(session, OAuthKey);
    var stash := if Truthy(oauth) then oauth else Hash(map[]);
    if stash.Hash? then
      Ok(session[OAuthKey := Hash(stash.entries[StrKey(name) := TokenEntry(requestToken)])])
    else
      Raise("session['oauth'][name.to_s] = ...")
  }

  /** The stored entry can be read back with `session['oauth'][name]`. */
  lemma RecordedTokenReadBack(session: map<Key, Value>, name: string, requestToken: RequestToken)
    requires RecordRequestToken(session, name, requestToken).Ok?
    ensures var s := RecordRequestToken(session, name, requestToken).value;
            Index(Get(s, OAuthKey), StrKey(name)) == Some(TokenEntry(requestToken))
  {
  }

  /** Two strategies with different names keep their request tokens apart:
      recording one leaves the other's entry in place, in either order. */
  lemma RecordsUnderDistinctNamesCommute(session: map<Key, Value>, a: string, ta: RequestToken,
                                         b: string, tb: RequestToken)
    requires a != b
    requires RecordRequestToken(session, a, ta).Ok?
    ensures var sa := RecordRequestToken(session, a, ta).value;
            var sb := RecordRequestToken(session, b, tb).value;
            && RecordRequestToken(sa, b, tb).Ok?
            && RecordRequestToken(sb, a, ta).Ok?
            && RecordRequestToken(sa, b, tb).value == RecordRequestToken(sb, a, ta).value
            && RecordRequestToken(sa, b, tb).value[OAuthKey].entries[StrKey(a)] == TokenEntry(ta)
  {
    var stash := if Truthy(Get(session, OAuthKey)) then Get(session, OAuthKey).entries else map[];
    var ea, eb := TokenEntry(ta), TokenEntry(tb);
    var sa := session[OAuthKey := Hash(stash[StrKey(a) := ea])];
    var sb := session[OAuthKey := Hash(stash[StrKey(b) := eb])];
    assert RecordRequestToken(session, a, ta) == Ok(sa);
    assert RecordRequestToken(session, b, tb) == Ok(sb);
    var both := stash[StrKey(a) := ea][StrKey(b) := eb];
    assert stash[StrKey(b) := eb][StrKey(a) := ea] == both;
    assert sa[OAuthKey := Hash(both)] == session[OAuthKey := Hash(both)];
    assert sb[OAuthKey := Hash(both)] == session[OAuthKey := Hash(both)];
    assert RecordRequestToken(sa, b, tb) == Ok(session[OAuthKey := Hash(both)]);
    assert RecordRequestToken(sb, a, ta) == Ok(session[OAuthKey := Hash(both)]);
  }

  /** The strategy object. `options` is the very Hash the host passed in;
      `userHash` is `@user_hash`, `nil` until the profile is fetched.
      `fetchCount` is not a field of the Ruby object: it numbers the profile
      requests made so far, so that the reply to the n-th request is
      `fetch(n)`. */
  class Google {
    const options: HashObject
    var userHash: Value
    var fetchCount: nat

    /** `initialize`: stores the default scope into the caller's options
        Hash, in place. */
    constructor (options: HashObject)
      modifies options
      ensures this.options == options
      ensures options.entries == WithDefaultScope(old(options.entries))
      ensures userHash == Nil && fetchCount == 0
    {
      if ScopeOption !in options.entries {
        options.entries := options.entries[ScopeOption := DefaultScope];
      }
      this.options := options;
      userHash := Nil;
      fetchCount := 0;
    }

    /** `user_hash`: `@user_hash ||= decode(get(...))`. A cached document
        that is true is answered again without a request; with `nil` or
        `false` in the cache a request is made. `fetch(n)` stands for the
        authorised GET of the contacts feed and its JSON decoding at the
        n-th request: a document, or the exception either step raises, in
        which case nothing is stored. */
    method UserHash(fetch: nat -> Result<Value>) returns (doc: Result<Value>)
      modifies this`userHash, this`fetchCount
      ensures Truthy(old(userHash)) ==>
                doc == Ok(old(userHash)) && userHash == old(userHash) && fetchCount == old(fetchCount)
      ensures !Truthy(old(userHash)) ==>
                doc == fetch(old(fetchCount)) && fetchCount == old(fetchCount) + 1
                && userHash == (if doc.Ok? then doc.value else old(userHash))
    {
      if Truthy(userHash) {
        return Ok(userHash);
      }
      doc := fetch(fetchCount);
      fetchCount := fetchCount + 1;
      if doc.Ok? {
        userHash := doc.value;
      }
    }

    /** `user_info` on the strategy: reads `user_hash` for the address and
        again for the name. The second read is served from the cache, so
        one request at most is made and both reads see the same document. */
    method UserInfo(fetch: nat -> Result<Value>) returns (r: Result<GoogleIdentity.Identity>)
      modifies this`userHash, this`fetchCount
      ensures var doc := if Truthy(old(userHash)) then Ok(old(userHash)) else fetch(old(fetchCount));
              && r == (if doc.Ok? then GoogleIdentity.UserInfo(doc.value) else Raise(doc.at))
              && userHash == (if doc.Ok? then doc.value else old(userHash))
              && fetchCount == old(fetchCount) + (if Truthy(old(userHash)) then 0 else 1)
    {
      var doc :- UserHash(fetch);
      var email :- GoogleIdentity.EmailOf(doc);
      // `email` was found, so `doc` is true and now cached: this read
      // answers it again and cannot raise.
      var again := UserHash(fetch);
      var name :- GoogleIdentity.DisplayNameOf(again.value, email);
      r := Ok(GoogleIdentity.Identity(email, email, name));
    }

    /** `request_phase`. `getRequestToken` stands for the OAuth consumer's
        request-token call, given the callback URL and the scope URI: a
        token, or the exception it raises before the session is written.
        The source looks the scope up in `SCOPE`, a constant the file does
        not define; it is looked up in `SCOPES` here. */
    method RequestPhase(session: HashObject, callbackUrl: string,
                        getRequestToken: (string, Option<string>) -> Result<RequestToken>)
      returns (r: Result<AuthorizeUrl>)
      modifies session
      ensures var reply := getRequestToken(callbackUrl, ScopeUri(Get(old(options.entries), ScopeOption)));
              && (reply.Raise? ==> session.entries == old(session.entries) && r == Raise(reply.at))
              && (reply.Ok? ==>
                    var recorded := RecordRequestToken(old(session.entries), Name, reply.value);
                    && (recorded.Ok? ==> session.entries == recorded.value
                                         && r == Ok(RedirectTarget(reply.value, callbackUrl)))
                    && (recorded.Raise? ==> session.entries == old(session.entries) && r.Raise?))
    {
      var scope := ScopeUri(Get(options.entries, ScopeOption));
      var requestToken :- getRequestToken(callbackUrl, scope);
      ghost var recorded := RecordRequestToken(session.entries, Name, requestToken);
      var oauth := Get(session.entries, OAuthKey);
      if !Truthy(oauth) {
        oauth := Hash(map[]);
        session.entries := session.entries[OAuthKey := oauth];
      }
      if !oauth.Hash? {
        return Raise("session['oauth'][name.to_s] = ...");
      }
      session.entries := session.entries[OAuthKey := Hash(oauth.entries[StrKey(Name) := TokenEntry(requestToken)])];
      assert session.entries == recorded.value;
      if requestToken.callbackConfirmed {
        r := Ok(AuthorizeUrl(requestToken.token, None));
      } else {
        r := Ok(AuthorizeUrl(requestToken.token, Some(callbackUrl)));
      }
    }
  }
}
