/** The `SCOPES` table of the Google strategy and the lookup `request_phase`
    performs on it. */
module GoogleScopes {
  import opened Wrappers
  import opened RubyValues

  /** The rows of `SCOPES`, in source order: the symbol's name and the
      authorization URI sent as the `scope` parameter. */
  const ScopeTable: seq<(string, string)> := [
    ("analytics", "https://www.google.com/analytics/feeds/"),
    ("base", "https://www.google.com/base/feeds/"),
    ("buzz", "https://www.googleapis.com/auth/buzz"),
    ("book_search", "https://www.google.com/books/feeds/"),
    ("blogger", "https://www.blogger.com/feeds/"),
    ("calendar", "https://www.google.com/calendar/feeds/"),
    ("contacts", "http://www.google.com/m8/feeds"),
    ("chrome_web_store", "https://www.googleapis.com/auth/chromewebstore.readonly"),
    ("docs", "https://docs.google.com/feeds/"),
    ("finance", "https://finance.google.com/finance/feeds/"),
    ("gmail", "https://mail.google.com/mail/feed/atom"),
    ("health", "https://www.google.com/health/feeds/"),
    ("h9", "https://www.google.com/h9/feeds/"),
    ("maps", "https://maps.google.com/maps/feeds/"),
    ("moderator", "https://www.googleapis.com/auth/moderator"),
    ("opensocial", "https://www-opensocial.googleusercontent.com/api/people/"),
    ("orkut", "https://orkut.gmodules.com/social/rest"),
    ("picasa", "https://picasaweb.google.com/data/"),
    ("sidewiki", "https://www.google.com/sidewiki/feeds/"),
    ("sites", "https://sites.google.com/feeds/"),
    ("spreadsheets", "https://spreadsheets.google.com/feeds/"),
    ("url_shortener", "https://www.googleapis.com/auth/urlshortener"),
    ("wave", "http://wave.googleusercontent.com/api/rpc"),
    ("webmaster_tools", "https://www.google.com/webmasters/tools/feeds/"),
    ("youtube", "https://gdata.youtube.com"),
    ("reader", "https://www.google.com/reader/api/")
  ]

  /** Symbol names that occur at most once in a table. */
  ghost predicate DistinctNames(table: seq<(string, string)>) {
    forall i, j :: 0 <= i < j < |table| ==> table[i].0 != table[j].0
  }

  /** The Hash literal that a table of rows `:name => "uri"` denotes. */
  function HashOf(table: seq<(string, string)>): (m: map<Key, string>)
    requires DistinctNames(table)
    ensures forall k :: k in m ==> k.SymKey?
  {
    map i | 0 <= i < |table| :: SymKey(table[i].0) := table[i].1
  }

  /** The `SCOPES` Hash. */
  const Scopes: map<Key, string> := (ScopeTableHasDistinctSymbols(); HashOf(ScopeTable))

  /** `SCOPES[scope]`: the URI stored under `scope`, `nil` (None) when no
      key equals it. Ruby's `Hash#[]` compares keys exactly. */
  function ScopeUri(scope: Value): (r: Option<string>)
    ensures r.Some? ==> scope.Sym? && SymKey(scope.name) in Scopes && r.value == Scopes[SymKey(scope.name)]
    ensures scope.Sym? && SymKey(scope.name) in Scopes ==> r.Some?
  {
    match KeyOf(scope)
    case Some(k) => if k in Scopes then Some(Scopes[k]) else None
    case None => None
  }

  /** The table holds 26 scopes, one per distinct symbol. */
  lemma ScopeTableHasDistinctSymbols()
    ensures |ScopeTable| == 26
    ensures DistinctNames(ScopeTable)
  {
    forall i | 0 <= i < |ScopeTable|
      ensures forall j :: i < j < |ScopeTable| ==> ScopeTable[i].0 != ScopeTable[j].0
    {
    }
  }

  /** In a table without repeated names, each row's symbol finds its row. */
  lemma HashOfFindsRow(table: seq<(string, string)>, i: int)
    requires DistinctNames(table)
    requires 0 <= i < |table|
    ensures SymKey(table[i].0) in HashOf(table)
    ensures HashOf(table)[SymKey(table[i].0)] == table[i].1
  {
  }

  /** Each listed symbol resolves to the URI listed beside it. */
  lemma ListedScopeUri(i: int)
    requires 0 <= i < |ScopeTable|
    ensures ScopeUri(Sym(ScopeTable[i].0)) == Some(ScopeTable[i].1)
  {
    ScopeTableHasDistinctSymbols();
    HashOfFindsRow(ScopeTable, i);
  }

  /** A value that is not one of the listed symbols (a String, another
      Symbol, `nil`, ...) resolves to nothing: no prefix matching, no case
      folding, no String/Symbol conversion. */
  lemma UnlistedScopeUri(scope: Value)
    requires forall i :: 0 <= i < |ScopeTable| ==> scope != Sym(ScopeTable[i].0)
    ensures ScopeUri(scope) == None
  {
  }

  /** `:contacts`, the default scope, resolves to the contacts feed. */
  lemma ContactsScopeUri()
    ensures ScopeUri(Sym("contacts")) == Some("http://www.google.com/m8/feeds")
  {
    ListedScopeUri(6);
  }
}
