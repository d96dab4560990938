/**
 Key names and key paths: `user::key` and `user::key@timestamp`, how they are printed and
 how the subscription layer takes them apart again.
 */
module KeyPaths {
  import opened Wrappers
  import opened Strings

  datatype Name = Name(user: string, key: string)

  /** The longest prefix that ends in a colon, or the empty string. */
  function GetPrefix(key: string): (r: string)
    ensures r <= key && (r == "" || r[|r| - 1] == ':') && ':' !in key[|r|..]
  {
    match LastIndexOf(key, ':')
    case None => ""
    case Some(pos) => key[..pos + 1]
  }

  function FullName(name: Name): (s: string) {
    name.user + "::" + name.key
  }

  function KeyPath(name: Name, timestamp: int): (s: string) {
    FullName(name) + "@" + PrintInt(timestamp)
  }

  /** What a path looks like: user, two colons, key, at-sign, decimal timestamp. */
  lemma PathLooksLike(name: Name, timestamp: int)
    ensures FullName(name) == name.user + "::" + name.key
    ensures KeyPath(name, timestamp) == name.user + "::" + name.key + "@" + PrintInt(timestamp)
  {}

  /** The printed name, cut off before a position of its key. */
  function CutName(name: Name, p: nat): (s: string)
    requires p <= |name.key|
  {
    name.user + "::" + name.key[..p]
  }

  /** The key of the index set that holds the paths of a name. */
  function SetKey(name: Name): (s: string) {
    name.user + "::" + GetPrefix(name.key)
  }

  /** The prefix that a subscriber lists in order to find the paths of a name. */
  function SubscriptionPrefix(name: Name): (s: string) {
    match LastIndexOf(name.key, ':')
    case Some(pos) => name.user + "::" + name.key[..pos]
    case None => name.user + ":"
  }

  function NameOfPath(path: string): (r: Option<string>) {
    match LastIndexOf(path, '@')
    case None => None
    case Some(pos) => Some(path[..pos])
  }

  function TimestampOfPath(path: string): (r: Option<int>) {
    match LastIndexOf(path, '@')
    case None => None
    case Some(pos) => ParseI64(path[pos + 1..])
  }

  function UserOfName(fullName: string): (user: string) {
    match IndexOf(fullName, ':')
    case Some(pos) => fullName[..pos]
    case None => ""
  }

  // ---------------------------------------------------------------- printing and parsing are inverse

  lemma PathSplits(name: Name, timestamp: int)
    ensures LastIndexOf(KeyPath(name, timestamp), '@') == Some(|FullName(name)|)
    ensures KeyPath(name, timestamp)[..|FullName(name)|] == FullName(name)
    ensures KeyPath(name, timestamp)[|FullName(name)| + 1..] == PrintInt(timestamp)
  {
    hide FullName, PrintInt, LastIndexOf;
    var path, full, digits := KeyPath(name, timestamp), FullName(name), PrintInt(timestamp);
    assert path == full + ("@" + digits);
    assert path[..|full|] == full && path[|full|] == '@' && path[|full| + 1..] == digits;
    LastIndexOfIs(path, '@', |full|);
  }

  /** A printed path gives back its name, whatever characters the key holds. */
  lemma PathGivesName(name: Name, timestamp: int)
    ensures NameOfPath(KeyPath(name, timestamp)) == Some(FullName(name))
  {
    PathSplits(name, timestamp);
  }

  /** It gives back its timestamp exactly when the timestamp fits the 64 bits it is parsed into. */
  lemma PathGivesTimestamp(name: Name, timestamp: int)
    ensures TimestampOfPath(KeyPath(name, timestamp)) == Some(timestamp) <==>
              -9223372036854775808 <= timestamp <= 9223372036854775807
  {
    PathSplits(name, timestamp);
    if I64_MIN <= timestamp <= I64_MAX { ParsePrintInt(timestamp); }
  }

  /** A printed name gives back its user exactly when the user id holds no colon. */
  lemma NameGivesUser(name: Name)
    ensures UserOfName(FullName(name)) == name.user <==> ':' !in name.user
  {
    var full := FullName(name);
    if ':' !in name.user {
      assert full[..|name.user|] == name.user;
      IndexOfIs(full, ':', |name.user|);
    } else {
      var pos := IndexOf(full, ':').value;
      assert ':' !in full[..pos];
    }
  }

  lemma FullNameInjective(a: Name, b: Name)
    requires ':' !in a.user && ':' !in b.user
    requires FullName(a) == FullName(b)
    ensures a == b
  {
    NameGivesUser(a);
    NameGivesUser(b);
    assert FullName(a)[|a.user| + 2..] == a.key;
    assert FullName(b)[|b.user| + 2..] == b.key;
  }

  /** Different (user, key, timestamp) triples never print the same path. */
  lemma KeyPathInjective(a: Name, s: int, b: Name, t: int)
    requires ':' !in a.user && ':' !in b.user
    requires KeyPath(a, s) == KeyPath(b, t)
    ensures a == b && s == t
  {
    PathSplits(a, s);
    PathSplits(b, t);
    FullNameInjective(a, b);
    PrintIntInjective(s, t);
  }

  /** Without that, two users' names may print alike. */
  lemma ColonInUserClashes()
    ensures var a, b := Name("u:", "k"), Name("u", ":k"); a != b && FullName(a) == FullName(b)
  {}

  /** The subscriber's prefix and the storage's index key agree: listing appends one colon. */
  lemma PrefixesAgree(name: Name)
    ensures SubscriptionPrefix(name) + ":" == SetKey(name)
  {
    match LastIndexOf(name.key, ':')
    case None =>
    case Some(pos) => assert name.key[..pos] + ":" == name.key[..pos + 1];
  }
}
