/** The Ruby values the strategy handles: documents decoded by MultiJson,
    option values and session contents, together with the three Ruby
    operations the strategy applies to them (`[]`, `first`, `strip`). */
module RubyValues {
  import opened Wrappers
  import RubyStrings

  /** A Hash key. `'feed'` (a String) and `:scope` (a Symbol) are different
      keys in Ruby. */
  datatype Key = StrKey(text: string) | SymKey(name: string)

  /** A Ruby value. JSON numbers become `Int`; JSON objects become a `Hash`
      with `StrKey` keys. */
  datatype Value =
    | Nil
    | Bool(b: bool)
    | Int(i: int)
    | Str(s: string)
    | Sym(name: string)
    | Array(items: seq<Value>)
    | Hash(entries: map<Key, Value>)

  /** Only `nil` and `false` are false in a Ruby condition (and for `||=`). */
  predicate Truthy(v: Value) {
    !(v.Nil? || v == Bool(false))
  }

  /** `Hash#[]` on the entries of a hash: the stored value, or `nil`. */
  function Get(entries: map<Key, Value>, key: Key): (r: Value)
    ensures key !in entries ==> r == Nil
    ensures key in entries ==> r == entries[key]
  {
    if key in entries then entries[key] else Nil
  }

  /** The Hash key a value can stand for: Strings and Symbols (the only
      kinds of keys this model's hashes hold). */
  function KeyOf(v: Value): (r: Option<Key>)
    ensures r.Some? <==> v.Str? || v.Sym?
    ensures v.Str? ==> r == Some(StrKey(v.s))
    ensures v.Sym? ==> r == Some(SymKey(v.name))
  {
    match v
    case Str(s) => Some(StrKey(s))
    case Sym(n) => Some(SymKey(n))
    case _ => None
  }

  /** `recv[key]`. `None` when Ruby raises: `nil`, `true`/`false`, an
      Integer or an Array indexed by a String raises, and so does a String
      indexed by a Symbol. A Hash answers its value or `nil`; a String (or
      Symbol) answers the key itself when it occurs as a substring, else `nil`. */
  function Index(recv: Value, key: Key): (r: Option<Value>)
    ensures r.Some? ==> Truthy(recv)
    ensures r.Some? <==> recv.Hash? || ((recv.Str? || recv.Sym?) && key.StrKey?)
    ensures recv.Hash? ==> r == Some(Get(recv.entries, key))
    ensures (recv.Str? || recv.Sym?) && key.StrKey? ==>
              r == Some(if RubyStrings.Contains(if recv.Str? then recv.s else recv.name, key.text)
                        then Str(key.text) else Nil)
  {
    match recv
    case Hash(entries) => Some(Get(entries, key))
    case Str(s) =>
      if key.StrKey? then Some(if RubyStrings.Contains(s, key.text) then Str(key.text) else Nil)
      else None
    case Sym(n) =>
      if key.StrKey? then Some(if RubyStrings.Contains(n, key.text) then Str(key.text) else Nil)
      else None
    case _ => None
  }

  /** `recv.first`: an Array answers its first element, or `nil` when it
      is empty. `nil`, a String, a Symbol, an Integer and a boolean have no
      `first`, so Ruby raises. `Hash#first` answers a `[key, value]` Array or `nil`, and
      indexing either of those by a String raises; since the strategy always
      indexes the result by `'name'`, a Hash is folded into the raising case. */
  function First(recv: Value): (r: Option<Value>)
    ensures r.Some? <==> recv.Array?
    ensures recv.Array? && recv.items != [] ==> r == Some(recv.items[0])
    ensures recv.Array? && recv.items == [] ==> r == Some(Nil)
  {
    match recv
    case Array(items) => Some(if items == [] then Nil else items[0])
    case _ => None
  }

  /** `recv.strip`: only a String has it; every other value raises. */
  function StripValue(recv: Value): (r: Option<string>)
    ensures r.Some? <==> recv.Str?
    ensures recv.Str? ==> r == Some(RubyStrings.Strip(recv.s))
  {
    match recv
    case Str(s) => Some(RubyStrings.Strip(s))
    case _ => None
  }
}
