/** The text stored under the `user` key: `JSON.stringify({username, email})`
    and the `JSON.parse` that reads it back. Strings are written between
    double quotes, with `"` and `\` escaped by a backslash. */
module UserJson {
  import opened Wrappers
  import opened Types

  const Quote: char := '"'
  const Backslash: char := '\\'

  const UsernamePrefix: string := "{\"username\":\""
  const EmailPrefix: string := ",\"email\":\""
  const Closing: string := "}"

  /** The body of a JSON string literal for `s`, without its quotes. */
  function Escape(s: string): (r: string)
    ensures |r| >= |s|
  {
    if s == [] then []
    else (if s[0] == Quote || s[0] == Backslash then [Backslash, s[0]] else [s[0]]) + Escape(s[1..])
  }

  /** Reads a string literal's body up to its closing quote; gives the decoded
      text and what follows the quote, or None when the literal is malformed. */
  function ParseString(s: string): Option<(string, string)>
    decreases |s|
  {
    if s == [] then None
    else if s[0] == Quote then Some(([], s[1..]))
    else if s[0] == Backslash then
      if |s| >= 2 && (s[1] == Quote || s[1] == Backslash) then
        match ParseString(s[2..])
        case None => None
        case Some((v, rest)) => Some(([s[1]] + v, rest))
      else None
    else
      match ParseString(s[1..])
      case None => None
      case Some((v, rest)) => Some(([s[0]] + v, rest))
  }

  /** A string literal's escaped body, its closing quote, then `rest`. */
  function Literal(v: string, rest: string): string {
    Escape(v) + ([Quote] + rest)
  }

  lemma {:induction false} ParseEscaped(v: string, rest: string)
    ensures ParseString(Literal(v, rest)) == Some((v, rest))
    decreases |v|
  {
    if v != [] {
      var head := if v[0] == Quote || v[0] == Backslash then [Backslash, v[0]] else [v[0]];
      var tail := Literal(v[1..], rest);
      assert Literal(v, rest) == head + tail;
      ParseEscaped(v[1..], rest);
      assert (head + tail)[|head|..] == tail;
      assert [v[0]] + v[1..] == v;
    } else {
      assert Literal(v, rest) == [Quote] + rest;
    }
  }

  /** A literal body that parses is the escaped text that it decodes to. */
  lemma {:induction false} ParseStringInverse(s: string)
    ensures ParseString(s).Some? ==> s == Literal(ParseString(s).value.0, ParseString(s).value.1)
    decreases |s|
  {
    if s != [] && s[0] != Quote && ParseString(s).Some? {
      var step := if s[0] == Backslash then 2 else 1;
      ParseStringInverse(s[step..]);
      var (v, rest) := ParseString(s[step..]).value;
      var c := if s[0] == Backslash then s[1] else s[0];
      assert ParseString(s).value == ([c] + v, rest);
      assert ([c] + v)[1..] == v;
      assert s == s[..step] + s[step..];
    }
  }

  /** `JSON.stringify({username, email})`. */
  function EncodeUser(u: User): (s: string)
    ensures |s| > |UsernamePrefix| && s[..|UsernamePrefix|] == UsernamePrefix
    ensures s[|s| - 1] == '}'
  {
    UsernamePrefix + Literal(u.username, EmailPrefix + Literal(u.email, Closing))
  }

  /** `JSON.parse` of a stored profile: None stands for the SyntaxError it
      throws. A text that parses is exactly the encoding of what it yields. */
  function DecodeUser(s: string): (r: Option<User>)
    ensures r.Some? ==> s == EncodeUser(r.value)
  {
    if |s| < |UsernamePrefix| || s[..|UsernamePrefix|] != UsernamePrefix then None
    else
      match ParseString(s[|UsernamePrefix|..])
      case None => None
      case Some((name, afterName)) =>
        var r := DecodeEmail(name, afterName);
        if r.Some? then DecodedIsEncoding(s, name, afterName); r else r
  }

  /** The rest of the object once the username has been read. */
  function DecodeEmail(name: string, s: string): (r: Option<User>)
    ensures r.Some? ==> r.value.username == name && s == EmailPrefix + Literal(r.value.email, Closing)
  {
    if |s| < |EmailPrefix| || s[..|EmailPrefix|] != EmailPrefix then None
    else
      match ParseString(s[|EmailPrefix|..])
      case None => None
      case Some((mail, afterMail)) =>
        if afterMail == Closing then
          ParseStringInverse(s[|EmailPrefix|..]);
          assert s == EmailPrefix + s[|EmailPrefix|..];
          Some(User(name, mail))
        else None
  }

  lemma DecodedIsEncoding(s: string, name: string, afterName: string)
    requires |s| >= |UsernamePrefix| && s[..|UsernamePrefix|] == UsernamePrefix
    requires ParseString(s[|UsernamePrefix|..]) == Some((name, afterName))
    requires DecodeEmail(name, afterName).Some?
    ensures s == EncodeUser(DecodeEmail(name, afterName).value)
  {
    ParseStringInverse(s[|UsernamePrefix|..]);
    assert s == UsernamePrefix + s[|UsernamePrefix|..];
  }

  /** Reading back what was written gives the same profile. */
  lemma DecodeEncodeUser(u: User)
    ensures DecodeUser(EncodeUser(u)) == Some(u)
  {
    var emailPart := EmailPrefix + Literal(u.email, Closing);
    var afterPrefix := Literal(u.username, emailPart);
    assert (UsernamePrefix + afterPrefix)[|UsernamePrefix|..] == afterPrefix;
    ParseEscaped(u.username, emailPart);
    assert emailPart[..|EmailPrefix|] == EmailPrefix;
    assert emailPart[|EmailPrefix|..] == Literal(u.email, Closing);
    ParseEscaped(u.email, Closing);
    assert DecodeEmail(u.username, emailPart) == Some(u);
  }

  /** Two profiles with the same stored text are the same profile. */
  lemma EncodeUserInjective(u: User, v: User)
    requires EncodeUser(u) == EncodeUser(v)
    ensures u == v
  {
    DecodeEncodeUser(u);
    DecodeEncodeUser(v);
  }
}
