# Google OAuth 1.0a strategy — a Dafny model

This project models the logic in OmniAuth's Google strategy
(`oa-oauth/lib/omniauth/strategies/google.rb`) that can be stated without the
OAuth library, Rack or the JSON parser:

- the `SCOPES` table, and the lookup `request_phase` performs in it;
- the constructor's default scope (`:scope => :contacts` unless the options
  Hash already has a `:scope` key);
- `user_info`, which reads the e-mail address (`feed.id.$t`, also used as the
  uid) and the first author's name (`feed.author[0].name.$t`) from the decoded
  contacts feed, and uses the address as the name when the name strips to
  `(unknown)`;
- `user_hash`, the profile document memoised with `||=`;
- the session write and the redirect choice of `request_phase`.

Ruby values are modelled by `RubyValues.Value` (nil, booleans, integers,
Strings, Symbols, Arrays, Hashes with String or Symbol keys). The Ruby
operations the strategy applies to them are modelled with their Ruby
behaviour, including the cases that raise: `x[k]` on a Hash answers the value
or `nil`; on a String it answers `k` when `k` is a substring, else `nil`; on
`nil`, a boolean, an Integer or an Array it raises. A raise is the `Raise`
case of `Wrappers.Result`.

Modules: `Wrappers` (Option, Result), `RubyStrings` (`strip`, substring test),
`RubyValues` (values, `[]`, `first`, `strip` on a value), `GoogleScopes`
(`SCOPES`), `GoogleIdentity` (`user_info`), `GoogleStrategy` (the strategy
object: constructor, `user_hash`, `user_info` through the cache,
`request_phase`).

In these places the code's behaviour is easy to misread; the model follows
the code:

- A `feed.id` Hash without a `$t` entry does not raise: `'email'` and `'uid'`
  come out `nil` (`GoogleIdentity.IdWithoutTextGivesNilUid`). When the name is
  then `(unknown)` with whitespace around it, `'name'` is replaced by that
  `nil` too, and the whole record is `nil` (`GoogleIdentity.NilRecordExample`).
  Only the other missing parts make `user_info` raise.
- The values of `'email'`, `'uid'` and `'name'` are whatever the feed holds;
  they are not checked to be Strings.
- A scope that is not in the table is not an error: the lookup gives `nil`,
  and `nil` is passed on as the `scope` parameter.
- The memoised document is fetched again when the cache holds `nil` or
  `false`, since `||=` treats both as unset.
- Line 92 looks the scope up in `SCOPE`, a constant the file does not define
  (the table is `SCOPES`). Whether a `SCOPE` exists elsewhere cannot be told
  from this file. The model looks the scope up in `SCOPES`.

## Model

| member | source | states |
|---|---|---|
| `GoogleScopes.ScopeUri` | oa-oauth/lib/omniauth/strategies/google.rb:92 | `SCOPES[scope]` is found only for a Symbol key in the table, and then is that key's URI; anything else gives `nil` |
| `GoogleScopes.ScopeTableHasDistinctSymbols` | oa-oauth/lib/omniauth/strategies/google.rb:15-42 | the table has 26 rows and no symbol appears twice |
| `GoogleScopes.ListedScopeUri` | oa-oauth/lib/omniauth/strategies/google.rb:15-42 | each listed symbol resolves to exactly the URI listed beside it |
| `GoogleScopes.UnlistedScopeUri` | oa-oauth/lib/omniauth/strategies/google.rb:15-42 | any value that is not one of the listed symbols (a String, another spelling, `nil`) resolves to nothing |
| `GoogleScopes.ContactsScopeUri` | oa-oauth/lib/omniauth/strategies/google.rb:22 | `:contacts` resolves to `http://www.google.com/m8/feeds` |
| `GoogleStrategy.WithDefaultScope` | oa-oauth/lib/omniauth/strategies/google.rb:52 | the options gain `:scope => :contacts` only when `:scope` is absent; every key already present, an explicit `nil` scope included, keeps its value; no other key is added |
| `GoogleStrategy.WithDefaultScopeIdempotent` | oa-oauth/lib/omniauth/strategies/google.rb:52 | applying the default twice equals applying it once |
| `GoogleStrategy.DefaultScopeRequestsContacts` | oa-oauth/lib/omniauth/strategies/google.rb:52 | with no `:scope` option, the scope URI requested is the contacts feed |
| `GoogleStrategy.Google.constructor` | oa-oauth/lib/omniauth/strategies/google.rb:44-55 | the caller's options Hash itself is updated with the default scope and kept by the strategy; the profile cache starts empty |
| `RubyStrings.Strip` | oa-oauth/lib/omniauth/strategies/google.rb:70 | the stripped string neither begins nor ends with whitespace |
| `RubyStrings.StripIsTrimmedSlice` | oa-oauth/lib/omniauth/strategies/google.rb:70 | `strip` answers one contiguous slice of its argument with only whitespace removed on either side |
| `RubyStrings.StripEqualsIff` | oa-oauth/lib/omniauth/strategies/google.rb:70 | a string strips to `(unknown)` if and only if it is `(unknown)` with whitespace on both sides |
| `RubyValues.Index` | oa-oauth/lib/omniauth/strategies/google.rb:67-69 | `x[k]` answers only for a true receiver: a Hash answers its entry or `nil`; a String or Symbol answers a String key with that key when it occurs in its text, else `nil`, and raises for a Symbol key; every other receiver raises |
| `RubyValues.First` | oa-oauth/lib/omniauth/strategies/google.rb:69 | `.first` answers exactly for an Array: its first element, or `nil` when it is empty |
| `RubyValues.StripValue` | oa-oauth/lib/omniauth/strategies/google.rb:70 | `.strip` answers exactly for a String, and then is `strip` of its text |
| `GoogleIdentity.EmailOf` | oa-oauth/lib/omniauth/strategies/google.rb:67 | when `feed.id` is a Hash, the address is its `$t` entry, or `nil` without one; it raises without `feed`, or without `id` in a `feed` Hash; an answer implies a true document |
| `GoogleIdentity.DisplayNameOf` | oa-oauth/lib/omniauth/strategies/google.rb:69-70 | when the first author's `name.$t` is the String `n`, the name is `n`, or the e-mail value when `n` strips to `(unknown)`; any answer is a String or the e-mail value |
| `GoogleIdentity.UserInfo` | oa-oauth/lib/omniauth/strategies/google.rb:66-77 | a returned record has `'uid'` equal to `'email'`, and a `'name'` that is a String or the e-mail value |
| `GoogleIdentity.UserInfoOfFeed` | oa-oauth/lib/omniauth/strategies/google.rb:66-77 | on a feed with `feed.id.$t` and a first author `name.$t`, the record is (that id, that id, the name or the id when the name strips to `(unknown)`) |
| `GoogleIdentity.UnknownNameFallsBackToEmail` | oa-oauth/lib/omniauth/strategies/google.rb:69-70 | a name that is `(unknown)` padded with whitespace is replaced by the e-mail address |
| `GoogleIdentity.OtherNameKeptVerbatim` | oa-oauth/lib/omniauth/strategies/google.rb:69-70 | any other name is returned exactly as given, not stripped |
| `GoogleIdentity.LaterAuthorsIgnored` | oa-oauth/lib/omniauth/strategies/google.rb:69 | author entries after the first never change the result |
| `GoogleIdentity.UserInfoNeedsFeedWithAuthors` | oa-oauth/lib/omniauth/strategies/google.rb:67-69 | a record is returned only for a document whose `feed` is a Hash holding a non-empty `author` Array |
| `GoogleIdentity.AuthorPartsRaise` | oa-oauth/lib/omniauth/strategies/google.rb:69-70 | reading the name raises when `feed.author` is missing or empty, when the first author has no `name`, or when a Hash `name` has no `$t` |
| `GoogleIdentity.MissingPartsRaise` | oa-oauth/lib/omniauth/strategies/google.rb:67-70 | `user_info` raises when `feed`, `feed.id`, `feed.author`, its first entry, that entry's `name` or `name.$t` is missing |
| `GoogleIdentity.IdWithoutTextGivesNilUid` | oa-oauth/lib/omniauth/strategies/google.rb:66-77 | on any feed whose `feed.id` is a Hash without `$t` and whose first author has `name.$t`, no raise: e-mail and uid are `nil`, and the name is `nil` too when it strips to `(unknown)` |
| `GoogleIdentity.NilRecordExample` | oa-oauth/lib/omniauth/strategies/google.rb:66-77 | no `$t` under `feed.id` and name `" (unknown) "` give a record whose three fields are `nil` |
| `GoogleIdentity.PaddedUnknownExample` | oa-oauth/lib/omniauth/strategies/google.rb:69-70 | name `" (unknown) "` with id `alice@example.com` gives that address as uid, e-mail and name |
| `GoogleIdentity.RealNameExample` | oa-oauth/lib/omniauth/strategies/google.rb:69-70 | name `Alice Smith` with id `alice@example.com` keeps the name |
| `GoogleStrategy.Google.UserHash` | oa-oauth/lib/omniauth/strategies/google.rb:79-88 | a cached true document is returned again without a request; otherwise exactly one request is made, its reply is returned, and the document is cached unless the request or the decoding raised, which leaves the cache as it was |
| `GoogleStrategy.Google.UserInfo` | oa-oauth/lib/omniauth/strategies/google.rb:66-77 | the result is `user_info` of the cached document, or of the reply to the one request made when the cache was false; a raising request is passed on; the cache and the request count afterwards are stated exactly |
| `GoogleStrategy.TokenEntry` | oa-oauth/lib/omniauth/strategies/google.rb:94 | the stored Hash has exactly the keys `callback_confirmed`, `request_token`, `request_secret`, holding the token's flag, token and secret |
| `GoogleStrategy.RecordRequestToken` | oa-oauth/lib/omniauth/strategies/google.rb:94 | `session['oauth']` is created when unset, the strategy's entry is set to the token, and every other session key and every other `session['oauth']` entry is unchanged; it raises when `session['oauth']` is a true non-Hash |
| `GoogleStrategy.RecordedTokenReadBack` | oa-oauth/lib/omniauth/strategies/google.rb:94 | `session['oauth'][name]` afterwards reads back the stored entry |
| `GoogleStrategy.RecordsUnderDistinctNamesCommute` | oa-oauth/lib/omniauth/strategies/google.rb:94 | entries recorded under two different strategy names do not disturb each other, in either order |
| `GoogleStrategy.RedirectTarget` | oa-oauth/lib/omniauth/strategies/google.rb:97-101 | the redirect carries no `oauth_callback` exactly when the callback was confirmed, and carries the callback URL otherwise |
| `GoogleStrategy.Google.RequestPhase` | oa-oauth/lib/omniauth/strategies/google.rb:91-104 | the token is requested with the callback URL and the configured scope's URI; a raising request leaves the session unchanged and is passed on; otherwise the session becomes `RecordRequestToken` of the old session and the redirect is `RedirectTarget`, and a raising session write leaves the session unchanged |

## Left out

- The authorised GET of the contacts feed and its decoding by MultiJson (line 87): network I/O and a foreign parser. They are the `fetch` parameter of `UserHash` and `UserInfo`, which answers each request with a document or a raise; what the feed or the parser actually return is not modelled.
- `consumer.get_request_token` and OAuth signing (line 92): a foreign library call. It is the `getRequestToken` parameter of `RequestPhase`, which answers a token or a raise; what the provider returns is not modelled.
- The URL `authorize_url` builds (lines 98, 100): the model keeps the call's arguments (`AuthorizeUrl`), not the URL.
- `Rack::Response` construction and `finish` (lines 95, 103): web-framework plumbing; only the chosen target is modelled.
- `auth_hash` (lines 57-64): it merges with `OmniAuth::Utils.deep_merge` and `super`, which are not part of this model.
- The superclass constructor call, the consumer key and secret, and `client_options` (lines 44-54): configuration handed to a parent class that is not part of this model. The model assumes the parent class stores the caller's options Hash itself as `options`, which `request_phase` (line 92) then reads.
- A missing Rack session (`session` being `nil`) is not modelled; the session is always a Hash object.
- Nested Hashes are values: the Hash stored under `session['oauth']` is not a shared object, so an outside reference to it would not see the new entry.
- JSON numbers are modelled as integers; floats would behave the same here (indexing them raises, and they are passed through unchanged).
- `RubyValues.First`: `Hash#first` is not modelled as a pair; since its result is always indexed by `'name'`, which raises for a pair and for `nil`, a Hash in that position raises directly.
- `RubyStrings.Strip`: the whitespace set is NUL, tab, line feed, vertical tab, form feed, carriage return and space, at both ends, as in current Ruby; older Ruby versions did not strip a leading NUL.
- `GoogleIdentity.MissingPartsRaise`: the case of a missing `name.$t` is stated for a Hash `name` only; a String `name` is indexed as a substring test and answers `"$t"` when it contains it, so it need not raise.
- `GoogleStrategy.Google.RequestPhase`: looks the scope up in `SCOPES`; the `SCOPE` constant the source names at line 92 is not defined in the file and is not modelled.
