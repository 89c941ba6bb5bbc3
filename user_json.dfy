/** The user record the client keeps, and the JSON text it is written to
    local storage as (`JSON.stringify`) and read back from (`JSON.parse`). */
module UserJson {
  import opened Wrappers

  /** The fields of a user that the session logic touches. */
  datatype User = User(id: string, name: string, email: string, role: string)

  /** The body of a JSON string literal for `s`: `"` and `\` are preceded by a backslash. */
  function Escape(s: string): string
  {
    if s == [] then []
    else EscapedChar(s[0]) + Escape(s[1..])
  }

  /** Reads the body of a JSON string literal up to its closing quote. On success,
      yields the decoded string and the text after the quote, a proper suffix of `s`. */
  function ReadString(s: string): (r: Option<(string, string)>)
    ensures r.Some? ==> |r.value.1| < |s| && r.value.1 == s[|s| - |r.value.1|..]
    ensures r.Some? ==> s[|s| - |r.value.1| - 1] == '"'
  {
    if s == [] then None
    else if s[0] == '"' then Some(([], s[1..]))
    else if s[0] == '\\' then
      if |s| >= 2 && (s[1] == '"' || s[1] == '\\') then
        match ReadString(s[2..])
        case None => None
        case Some(p) => Some(([s[1]] + p.0, p.1))
      else None
    else
      match ReadString(s[1..])
      case None => None
      case Some(p) => Some(([s[0]] + p.0, p.1))
  }

  /** One member of the object: the text up to the opening quote of the value
      (`key` carries it), the escaped value, its closing quote, then what follows. */
  function Member(key: string, v: string, rest: string): string
  {
    key + Escape(v) + "\"" + rest
  }

  /** `{"id":"…","name":"…","email":"…","role":"…"}` */
  function Stringify(u: User): (r: string)
    ensures |r| > 0 && r[0] == '{' && r[|r| - 1] == '}'
  {
    Member("{\"id\":\"", u.id,
    Member(",\"name\":\"", u.name,
    Member(",\"email\":\"", u.email,
    Member(",\"role\":\"", u.role, "}"))))
  }

  /** Reads `key` and then a string literal's body from the front of `s`. */
  function Field(key: string, s: string): Option<(string, string)>
  {
    if key <= s then ReadString(s[|key|..]) else None
  }

  /** Reads back the object Stringify writes; any other text is malformed. */
  function Parse(s: string): Option<User>
  {
    var id := Field("{\"id\":\"", s);
    if id.None? then None else
    var name := Field(",\"name\":\"", id.value.1);
    if name.None? then None else
    var email := Field(",\"email\":\"", name.value.1);
    if email.None? then None else
    var role := Field(",\"role\":\"", email.value.1);
    if role.None? || role.value.1 != "}" then None
    else Some(User(id.value.0, name.value.0, email.value.0, role.value.0))
  }

  lemma {:induction false} ReadEscaped(v: string, rest: string)
    ensures ReadString(Escape(v) + "\"" + rest) == Some((v, rest))
  {
    if v == [] {
      assert Escape(v) + "\"" + rest == ['"'] + rest;
    } else {
      ReadEscaped(v[1..], rest);
      EscapeHead(v, rest);
      ReadHead(v[0], Escape(v[1..]) + "\"" + rest);
      assert [v[0]] + v[1..] == v;
    }
  }

  /** Escaping `v` writes its first character, escaped, then the escaped remainder. */
  lemma EscapeHead(v: string, rest: string)
    requires v != []
    ensures Escape(v) + "\"" + rest == EscapedChar(v[0]) + (Escape(v[1..]) + "\"" + rest)
  {
  }

  /** One character as it appears inside a JSON string literal. */
  function EscapedChar(c: char): string
  {
    if c == '"' || c == '\\' then ['\\', c] else [c]
  }

  /** Reading an escaped character and then a string body reads the character first. */
  lemma ReadHead(c: char, t: string)
    requires ReadString(t).Some?
    ensures ReadString(EscapedChar(c) + t) == Some(([c] + ReadString(t).value.0, ReadString(t).value.1))
  {
    var s := EscapedChar(c) + t;
    if c == '"' || c == '\\' {
      assert s[0] == '\\' && s[1] == c && s[2..] == t;
    } else {
      assert s[0] == c && s[1..] == t;
    }
  }

  lemma FieldOfMember(key: string, v: string, rest: string)
    ensures Field(key, Member(key, v, rest)) == Some((v, rest))
  {
    assert Member(key, v, rest) == key + (Escape(v) + "\"" + rest);
    assert Member(key, v, rest)[|key|..] == Escape(v) + "\"" + rest;
    ReadEscaped(v, rest);
  }

  /** What is written can be read back: the user stored at login is the user restored at start-up. */
  lemma ParseStringify(u: User)
    ensures Parse(Stringify(u)) == Some(u)
  {
    var r3 := Member(",\"role\":\"", u.role, "}");
    var r2 := Member(",\"email\":\"", u.email, r3);
    var r1 := Member(",\"name\":\"", u.name, r2);
    FieldOfMember("{\"id\":\"", u.id, r1);
    FieldOfMember(",\"name\":\"", u.name, r2);
    FieldOfMember(",\"email\":\"", u.email, r3);
    FieldOfMember(",\"role\":\"", u.role, "}");
  }

  /** Reading a string literal's body undoes Escape: the text read is the escaped
      value, its closing quote, and the rest. */
  lemma {:induction false} ReadStringInverse(s: string)
    requires ReadString(s).Some?
    ensures s == Escape(ReadString(s).value.0) + "\"" + ReadString(s).value.1
  {
    if s[0] == '"' {
      assert Escape(ReadString(s).value.0) == [];
    } else {
      var k := if s[0] == '\\' then 2 else 1;
      var c := s[k - 1];
      ReadTail(s);
      var p := ReadString(s[k..]).value;
      ReadStringInverse(s[k..]);
      EscapedPrefix(s, k);
      EscapeHead([c] + p.0, p.1);
      assert ([c] + p.0)[1..] == p.0;
    }
  }

  /** A string body that does not start with the closing quote begins with one
      escaped character, and the rest is read from after it. */
  lemma ReadTail(s: string)
    requires ReadString(s).Some? && s[0] != '"'
    ensures var k := if s[0] == '\\' then 2 else 1;
            k <= |s| && (k == 2 ==> s[1] == '"' || s[1] == '\\') && ReadString(s[k..]).Some? &&
            ReadString(s).value == ([s[k - 1]] + ReadString(s[k..]).value.0, ReadString(s[k..]).value.1)
  {
  }

  /** Text whose first `k` characters are one escaped character is that character escaped, then the rest. */
  lemma EscapedPrefix(s: string, k: nat)
    requires 1 <= k <= 2 && k <= |s| && s[0] != '"'
    requires k == 1 <==> s[0] != '\\'
    requires k == 2 ==> s[1] == '"' || s[1] == '\\'
    ensures s == EscapedChar(s[k - 1]) + s[k..]
  {
  }

  /** A field that reads is its key, the escaped value, the closing quote and the rest. */
  lemma FieldInverse(key: string, s: string)
    requires Field(key, s).Some?
    ensures s == Member(key, Field(key, s).value.0, Field(key, s).value.1)
  {
    ReadStringInverse(s[|key|..]);
    assert s == key + s[|key|..];
  }

  /** Only the text Stringify writes parses: a stored user entry that parses is
      exactly the text of the user it yields. */
  lemma StringifyParse(s: string)
    requires Parse(s).Some?
    ensures Stringify(Parse(s).value) == s
  {
    var id := Field("{\"id\":\"", s).value;
    var name := Field(",\"name\":\"", id.1).value;
    var email := Field(",\"email\":\"", name.1).value;
    var role := Field(",\"role\":\"", email.1).value;
    FieldInverse("{\"id\":\"", s);
    FieldInverse(",\"name\":\"", id.1);
    FieldInverse(",\"email\":\"", name.1);
    FieldInverse(",\"role\":\"", email.1);
  }
}
