/** `user_info` of the Google strategy: the identity record read out of the
    decoded contacts feed. */
module GoogleIdentity {
  import opened Wrappers
  import opened RubyValues
  import RubyStrings

  /** The Hash `user_info` returns: `'email'`, `'uid'` and `'name'`. The
      values are whatever the feed holds at the paths read; the code does
      not check that they are Strings. */
  datatype Identity = Identity(email: Value, uid: Value, name: Value)

  /** The display name Google reports for an account without one. */
  const UnknownName := "(unknown)"

  /** `v` is a Hash holding key `k`. */
  predicate HasKey(v: Value, k: string) {
    v.Hash? && StrKey(k) in v.entries
  }

  /** The value under `k` of a Hash that holds it. */
  function At(v: Value, k: string): (r: Value)
    requires HasKey(v, k)
  {
    v.entries[StrKey(k)]
  }

  /** `feed.id` is a Hash whose `$t` lookup answers `email`: the value
      stored there, or `nil` when it has no `$t` entry. */
  ghost predicate IdTextIs(doc: Value, email: Value) {
    && HasKey(doc, "feed") && HasKey(At(doc, "feed"), "id")
    && var id := At(At(doc, "feed"), "id");
    && id.Hash? && Get(id.entries, StrKey("$t")) == email
  }

  /** The first of the `feed.author` entries has `name.$t` holding the
      String `name`. Further authors may follow. */
  ghost predicate AuthorNameIs(doc: Value, name: string) {
    && HasKey(doc, "feed")
    && var feed := At(doc, "feed");
    && HasKey(feed, "author") && At(feed, "author").Array?
    && |At(feed, "author").items| > 0
    && var first := At(feed, "author").items[0];
    && HasKey(first, "name") && HasKey(At(first, "name"), "$t")
    && At(At(first, "name"), "$t") == Str(name)
  }

  /** The shape the contacts feed has. Any other keys may be present. */
  ghost predicate FeedShape(doc: Value, email: Value, name: string) {
    IdTextIs(doc, email) && AuthorNameIs(doc, name)
  }

  /** `user_hash['feed']['id']['$t']`: the account's e-mail address. */
  function EmailOf(doc: Value): (r: Result<Value>)
    ensures forall email :: IdTextIs(doc, email) ==> r == Ok(email)
    ensures !HasKey(doc, "feed") ==> r.Raise?
    ensures HasKey(doc, "feed") && At(doc, "feed").Hash? && !HasKey(At(doc, "feed"), "id") ==> r.Raise?
    ensures r.Ok? ==> Truthy(doc)
  {
    // A String holding "feed" answers "feed" for `['feed']`, and "feed" has no "id".
    RubyStrings.FirstCharAbsent("feed", "id");
    var feed :- OrRaise(Index(doc, StrKey("feed")), "user_hash['feed']");
    var id :- OrRaise(Index(feed, StrKey("id")), "user_hash['feed']['id']");
    OrRaise(Index(id, StrKey("$t")), "user_hash['feed']['id']['$t']")
  }

  /** `user_hash['feed']['author'].first['name']['$t']`, then replaced by
      `email` when it strips to `(unknown)`. */
  function DisplayNameOf(doc: Value, email: Value): (r: Result<Value>)
    ensures r.Ok? ==> r.value.Str? || r.value == email
    ensures forall name :: AuthorNameIs(doc, name) ==>
              r == Ok(if RubyStrings.Strip(name) == UnknownName then email else Str(name))
  {
    var feed :- OrRaise(Index(doc, StrKey("feed")), "user_hash['feed']");
    var authors :- OrRaise(Index(feed, StrKey("author")), "user_hash['feed']['author']");
    var first :- OrRaise(First(authors), "user_hash['feed']['author'].first");
    var nameNode :- OrRaise(Index(first, StrKey("name")), "user_hash['feed']['author'].first['name']");
    var name :- OrRaise(Index(nameNode, StrKey("$t")), "user_hash['feed']['author'].first['name']['$t']");
    var stripped :- OrRaise(StripValue(name), "name.strip");
    Ok(if stripped == UnknownName then email else name)
  }

  /** `user_info`: the e-mail address doubles as the uid. */
  function UserInfo(doc: Value): (r: Result<Identity>)
    ensures r.Ok? ==> r.value.uid == r.value.email
    ensures r.Ok? ==> r.value.name.Str? || r.value.name == r.value.email
  {
    var email :- EmailOf(doc);
    var name :- DisplayNameOf(doc, email);
    Ok(Identity(email, email, name))
  }

  /** On a feed of the usual shape, `user_info` answers the address as
      `'email'` and `'uid'`, and the author's name, or the address when the
      name strips to `(unknown)`. */
  lemma UserInfoOfFeed(doc: Value, email: Value, name: string)
    requires FeedShape(doc, email, name)
    ensures UserInfo(doc) == Ok(Identity(email, email,
              if RubyStrings.Strip(name) == UnknownName then email else Str(name)))
  {
  }

  /** A name that is `(unknown)` with only whitespace around it is replaced
      by the e-mail address. */
  lemma UnknownNameFallsBackToEmail(doc: Value, email: Value, name: string)
    requires FeedShape(doc, email, name)
    requires RubyStrings.Padded(name, UnknownName)
    ensures UserInfo(doc) == Ok(Identity(email, email, email))
  {
    RubyStrings.StripsToIfPadded(name, UnknownName);
    UserInfoOfFeed(doc, email, name);
  }

  /** Any other name is kept exactly as given, surrounding whitespace
      included. */
  lemma OtherNameKeptVerbatim(doc: Value, email: Value, name: string)
    requires FeedShape(doc, email, name)
    requires !RubyStrings.Padded(name, UnknownName)
    ensures UserInfo(doc) == Ok(Identity(email, email, Str(name)))
  {
    if RubyStrings.Strip(name) == UnknownName {
      RubyStrings.StripsToOnlyIfPadded(name, UnknownName);
    }
    UserInfoOfFeed(doc, email, name);
  }

  /** A Hash whose `feed` is a Hash: the document with the `feed.author`
      entry replaced by `authors`. */
  function WithAuthors(doc: Value, authors: seq<Value>): (r: Value)
    requires HasKey(doc, "feed") && At(doc, "feed").Hash?
    ensures HasKey(r, "feed") && HasKey(At(r, "feed"), "author")
    ensures At(At(r, "feed"), "author") == Array(authors)
  {
    var feed := At(doc, "feed");
    Hash(doc.entries[StrKey("feed") := Hash(feed.entries[StrKey("author") := Array(authors)])])
  }

  /** Only the first author entry is read: what follows it never changes
      the result. */
  lemma LaterAuthorsIgnored(doc: Value, first: Value, rest: seq<Value>, rest': seq<Value>)
    requires HasKey(doc, "feed") && At(doc, "feed").Hash?
    ensures UserInfo(WithAuthors(doc, [first] + rest)) == UserInfo(WithAuthors(doc, [first] + rest'))
  {
    var d, d' := WithAuthors(doc, [first] + rest), WithAuthors(doc, [first] + rest');
    assert EmailOf(d) == EmailOf(d');
    assert First(At(At(d, "feed"), "author")) == First(At(At(d', "feed"), "author")) == Some(first);
  }

  /** A document from which `user_info` gets a record has a `feed` Hash
      with a non-empty `author` Array. */
  lemma UserInfoNeedsFeedWithAuthors(doc: Value)
    requires UserInfo(doc).Ok?
    ensures HasKey(doc, "feed") && At(doc, "feed").Hash?
    ensures HasKey(At(doc, "feed"), "author") && At(At(doc, "feed"), "author").Array?
    ensures |At(At(doc, "feed"), "author").items| > 0
  {
  }

  /** The author half of `user_info` raises when the author list, the
      first author or that author's name is missing. */
  lemma AuthorPartsRaise(doc: Value, email: Value)
    ensures HasKey(doc, "feed") && !HasKey(At(doc, "feed"), "author") ==> DisplayNameOf(doc, email).Raise?
    ensures HasKey(doc, "feed") && HasKey(At(doc, "feed"), "author")
            && At(At(doc, "feed"), "author") == Array([])
            ==> DisplayNameOf(doc, email).Raise?
    ensures HasKey(doc, "feed") && HasKey(At(doc, "feed"), "author")
            && At(At(doc, "feed"), "author").Array? && At(At(doc, "feed"), "author").items != []
            && !HasKey(At(At(doc, "feed"), "author").items[0], "name")
            ==> DisplayNameOf(doc, email).Raise?
    ensures HasKey(doc, "feed") && HasKey(At(doc, "feed"), "author")
            && At(At(doc, "feed"), "author").Array? && At(At(doc, "feed"), "author").items != []
            && HasKey(At(At(doc, "feed"), "author").items[0], "name")
            && At(At(At(doc, "feed"), "author").items[0], "name").Hash?
            && !HasKey(At(At(At(doc, "feed"), "author").items[0], "name"), "$t")
            ==> DisplayNameOf(doc, email).Raise?
  {
    // A String author answers "name" for `['name']`, and "name" has no "$t".
    RubyStrings.FirstCharAbsent("name", "$t");
  }

  /** `user_info` raises, rather than answering a partial record, when the
      feed, its id, its author list, the first author or that author's
      name is missing. */
  lemma MissingPartsRaise(doc: Value)
    ensures !HasKey(doc, "feed") ==> UserInfo(doc).Raise?
    ensures HasKey(doc, "feed") && At(doc, "feed").Hash? && !HasKey(At(doc, "feed"), "id")
            ==> UserInfo(doc).Raise?
    ensures HasKey(doc, "feed") && !HasKey(At(doc, "feed"), "author") ==> UserInfo(doc).Raise?
    ensures HasKey(doc, "feed") && HasKey(At(doc, "feed"), "author")
            && At(At(doc, "feed"), "author") == Array([])
            ==> UserInfo(doc).Raise?
    ensures HasKey(doc, "feed") && HasKey(At(doc, "feed"), "author")
            && At(At(doc, "feed"), "author").Array? && At(At(doc, "feed"), "author").items != []
            && !HasKey(At(At(doc, "feed"), "author").items[0], "name")
            ==> UserInfo(doc).Raise?
    ensures HasKey(doc, "feed") && HasKey(At(doc, "feed"), "author")
            && At(At(doc, "feed"), "author").Array? && At(At(doc, "feed"), "author").items != []
            && HasKey(At(At(doc, "feed"), "author").items[0], "name")
            && At(At(At(doc, "feed"), "author").items[0], "name").Hash?
            && !HasKey(At(At(At(doc, "feed"), "author").items[0], "name"), "$t")
            ==> UserInfo(doc).Raise?
  {
    if EmailOf(doc).Ok? {
      AuthorPartsRaise(doc, EmailOf(doc).value);
    }
  }

  /** The smallest contacts feed: one author, whose `name.$t` is `name`,
      and `feed.id` holding `id`. */
  function ContactsFeed(id: map<Key, Value>, name: Value): (r: Value) {
    Hash(map[StrKey("feed") := Hash(map[
      StrKey("id") := Hash(id),
      StrKey("author") := Array([Hash(map[StrKey("name") := Hash(map[StrKey("$t") := name])])])
    ])])
  }

  /** A name without an opening parenthesis never strips to `(unknown)`. */
  lemma NoParenthesisNotUnknown(name: string)
    requires forall i :: 0 <= i < |name| ==> name[i] != '('
    ensures !RubyStrings.Padded(name, UnknownName)
  {
    forall p, q | RubyStrings.AllSpace(p) && RubyStrings.AllSpace(q)
      ensures name != p + UnknownName + q
    {
      var t := p + UnknownName + q;
      assert t[|p|] == '(';
      if |t| == |name| {
        assert name[|p|] != t[|p|];
      }
    }
  }

  /** `feed.id` without a `$t` entry does not raise: `'email'` and `'uid'`
      both come out `nil`, and so does `'name'` when it is the sentinel. */
  lemma IdWithoutTextGivesNilUid(doc: Value, name: string)
    requires AuthorNameIs(doc, name)
    requires HasKey(doc, "feed") && HasKey(At(doc, "feed"), "id")
    requires At(At(doc, "feed"), "id").Hash? && !HasKey(At(At(doc, "feed"), "id"), "$t")
    ensures UserInfo(doc) == Ok(Identity(Nil, Nil, if RubyStrings.Strip(name) == UnknownName then Nil else Str(name)))
  {
    UserInfoOfFeed(doc, Nil, name);
  }

  /** With no `$t` under `feed.id` and the sentinel as the name, every
      field of the record is `nil`. */
  lemma NilRecordExample()
    ensures UserInfo(ContactsFeed(map[], Str(" (unknown) "))) == Ok(Identity(Nil, Nil, Nil))
  {
    assert " (unknown) " == " " + UnknownName + " ";
    assert RubyStrings.AllSpace(" ");
    UnknownNameFallsBackToEmail(ContactsFeed(map[], Str(" (unknown) ")), Nil, " (unknown) ");
  }

  /** The sentinel with a space on each side is replaced by the address. */
  lemma PaddedUnknownExample()
    ensures UserInfo(ContactsFeed(map[StrKey("$t") := Str("alice@example.com")], Str(" (unknown) ")))
         == Ok(Identity(Str("alice@example.com"), Str("alice@example.com"), Str("alice@example.com")))
  {
    assert " (unknown) " == " " + UnknownName + " ";
    assert RubyStrings.AllSpace(" ");
    UnknownNameFallsBackToEmail(ContactsFeed(map[StrKey("$t") := Str("alice@example.com")], Str(" (unknown) ")),
                                Str("alice@example.com"), " (unknown) ");
  }

  /** A real name is kept. */
  lemma RealNameExample()
    ensures UserInfo(ContactsFeed(map[StrKey("$t") := Str("alice@example.com")], Str("Alice Smith")))
         == Ok(Identity(Str("alice@example.com"), Str("alice@example.com"), Str("Alice Smith")))
  {
    NoParenthesisNotUnknown("Alice Smith");
    OtherNameKeptVerbatim(ContactsFeed(map[StrKey("$t") := Str("alice@example.com")], Str("Alice Smith")),
                          Str("alice@example.com"), "Alice Smith");
  }
}
