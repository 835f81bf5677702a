/** The text form in which the session keeps the signed-in user under the `"user"` key:
    `JSON.stringify(user)` on login and register, `JSON.parse` on restore. The model fixes a
    JSON object with the five `User` fields in declaration order; inside strings only `"`
    and `\` are escaped. The reader accepts exactly the texts `Serialize` writes, so the two are
    inverse: `Parse(Serialize(u)) == Some(u)`, and `Parse(s) == Some(u)` only when
    `s == Serialize(u)`. */
module Json {
  import opened Common
  import opened Text
  import opened Types

  function EscapeChar(c: char): string
  {
    if c == '"' || c == '\\' then ['\\', c] else [c]
  }

  function Escape(s: string): string
  {
    if s == [] then [] else EscapeChar(s[0]) + Escape(s[1..])
  }

  /** A JSON string literal. */
  function Quote(s: string): string
  {
    "\"" + Escape(s) + "\""
  }

  /** One more read character in front of a read tail keeps the text escaped. */
  lemma EscapeCons(c: char, t: string, rest: string, tail: string)
    requires tail == Escape(t) + "\"" + rest
    ensures EscapeChar(c) + tail == Escape([c] + t) + "\"" + rest
  {
    assert ([c] + t)[0] == c && ([c] + t)[1..] == t;
    assert Escape([c] + t) == EscapeChar(c) + Escape(t);
  }

  /** Reads the body of a string literal up to its closing quote, undoing the escapes;
      yields the text and what follows the closing quote. Only the escaped form of the
      text is accepted. */
  function ReadChars(s: string): (r: Option<(string, string)>)
    ensures r.Some? ==> s == Escape(r.value.0) + "\"" + r.value.1
    decreases |s|
  {
    if s == [] then None
    else if s[0] == '"' then
      assert s == Escape("") + "\"" + s[1..];
      Some(("", s[1..]))
    else if s[0] == '\\' then
      if |s| >= 2 && (s[1] == '"' || s[1] == '\\') then
        match ReadChars(s[2..])
        case None => None
        case Some((t, rest)) =>
          EscapeCons(s[1], t, rest, s[2..]);
          assert s == EscapeChar(s[1]) + s[2..];
          Some(([s[1]] + t, rest))
      else None
    else
      match ReadChars(s[1..])
      case None => None
      case Some((t, rest)) =>
        EscapeCons(s[0], t, rest, s[1..]);
        assert s == EscapeChar(s[0]) + s[1..];
        Some(([s[0]] + t, rest))
  }

  /** Reads a string literal; only the quoted form `Quote` writes is accepted. */
  function ReadString(s: string): (r: Option<(string, string)>)
    ensures r.Some? ==> s == Quote(r.value.0) + r.value.1
  {
    if |s| > 0 && s[0] == '"' then
      assert s == "\"" + s[1..];
      ReadChars(s[1..])
    else None
  }

  /** Reads a run of digits without a leading zero; only the text `NatText` writes is
      accepted. */
  function ReadCanonical(s: string): (r: Option<(nat, string)>)
    ensures r.Some? ==> s == NatText(r.value.0) + r.value.1
  {
    var k := LeadingDigits(s);
    if k == 0 || (k > 1 && s[0] == '0') then None
    else
      var d, rest := s[..k], s[k..];
      assert Canonical(d) by {
        assert forall i :: 0 <= i < k ==> d[i] == s[i];
      }
      CanonicalNatText(d);
      assert s == d + rest;
      Some((DigitsValue(d), rest))
  }

  /** Reads a JSON integer: an optional minus sign and digits without a leading zero (`-0`,
      whose value is written back as `0`, is refused). Only the text `IntText` writes is
      accepted. */
  function ReadNumber(s: string): (r: Option<(int, string)>)
    ensures r.Some? ==> s == IntText(r.value.0) + r.value.1
  {
    if |s| > 0 && s[0] == '-' then
      match ReadCanonical(s[1..])
      case None => None
      case Some((v, rest)) =>
        if v == 0 then None
        else
          assert s == "-" + s[1..];
          var w: int := v;
          Some((-w, rest))
    else
      match ReadCanonical(s)
      case None => None
      case Some((v, rest)) => Some((v as int, rest))
  }

  /** Consumes the literal `lit` from the front of `s`. */
  function Expect(lit: string, s: string): (r: Option<string>)
    ensures r.Some? ==> s == lit + r.value
  {
    if StartsWith(s, lit) then
      assert s == s[..|lit|] + s[|lit|..];
      Some(s[|lit|..])
    else None
  }

  const IdKey: string := "{\"id\":"
  const UsernameKey: string := ",\"username\":"
  const EmailKey: string := ",\"email\":"
  const FullNameKey: string := ",\"fullName\":"
  const RoleKey: string := ",\"role\":"
  const Close: string := "}"

  /** `JSON.stringify(user)`. */
  function Serialize(u: User): (r: string)
    ensures |r| > 0
  {
    IdKey + (IntText(u.id) + (UsernameKey + (Quote(u.username) + (EmailKey + (Quote(u.email)
      + (FullNameKey + (Quote(u.fullName) + (RoleKey + (Quote(RoleName(u.role)) + Close)))))))))
  }

  /** `JSON.parse(text)` read as a `User`. It accepts exactly the texts `Serialize` writes;
      `None` stands for every other text, of which `JSON.parse` throws on the malformed ones
      only. */
  function Parse(s: string): (r: Option<User>)
    ensures r.Some? ==> s == Serialize(r.value)
  {
    var s1 :- Expect(IdKey, s);
    var id :- ReadNumber(s1);
    var s2 :- Expect(UsernameKey, id.1);
    var username :- ReadString(s2);
    var s3 :- Expect(EmailKey, username.1);
    var email :- ReadString(s3);
    var s4 :- Expect(FullNameKey, email.1);
    var fullName :- ReadString(s4);
    var s5 :- Expect(RoleKey, fullName.1);
    var role :- ReadString(s5);
    var r :- ParseRole(role.0);
    var s6 :- Expect(Close, role.1);
    if s6 == "" then
      assert role.1 == Close;
      Some(User(id.0, username.0, email.0, fullName.0, r))
    else None
  }

  /** Reading back the text of an integer yields that integer and leaves the rest unread. */
  lemma {:induction false} ReadNumberText(i: int, rest: string)
    requires EndsNumber(rest)
    ensures ReadNumber(IntText(i) + rest) == Some((i, rest))
  {
    if i < 0 {
      ReadNegativeNumber(-i, rest);
      assert IntText(i) + rest == "-" + (NatText(-i) + rest);
    } else {
      ReadCanonicalText(i, rest);
      assert IsDigit((NatText(i) + rest)[0]);
    }
  }

  lemma {:induction false} ReadNegativeNumber(n: int, rest: string)
    requires n > 0 && EndsNumber(rest)
    ensures ReadNumber("-" + (NatText(n) + rest)) == Some((-n, rest))
  {
    assert ("-" + (NatText(n) + rest))[1..] == NatText(n) + rest;
    ReadCanonicalText(n, rest);
  }

  lemma {:induction false} ReadCanonicalText(n: nat, rest: string)
    requires EndsNumber(rest)
    ensures ReadCanonical(NatText(n) + rest) == Some((n, rest))
  {
    var t := NatText(n);
    LeadingDigitsOf(t, rest);
    NatTextValue(n);
    NatTextCanonical(n);
    assert (t + rest)[..|t|] == t;
    assert (t + rest)[|t|..] == rest;
  }

  lemma ExpectPrefix(lit: string, rest: string)
    ensures Expect(lit, lit + rest) == Some(rest)
  {
    assert (lit + rest)[..|lit|] == lit;
    assert (lit + rest)[|lit|..] == rest;
  }

  lemma {:induction false} ReadCharsEscape(s: string, rest: string)
    ensures ReadChars(Escape(s) + "\"" + rest) == Some((s, rest))
  {
    if s == [] {
      assert Escape(s) + "\"" + rest == ['"'] + rest;
    } else {
      ReadCharsEscape(s[1..], rest);
      var tail := Escape(s[1..]) + "\"" + rest;
      assert Escape(s) + "\"" + rest == EscapeChar(s[0]) + tail;
      if s[0] == '"' || s[0] == '\\' {
        assert (EscapeChar(s[0]) + tail)[2..] == tail;
      } else {
        assert (EscapeChar(s[0]) + tail)[1..] == tail;
      }
      assert [s[0]] + s[1..] == s;
    }
  }

  lemma ReadStringQuote(s: string, rest: string)
    ensures ReadString(Quote(s) + rest) == Some((s, rest))
  {
    ReadCharsEscape(s, rest);
    assert Quote(s) + rest == ['"'] + (Escape(s) + "\"" + rest);
  }

  /** Restoring the stored text gives back exactly the user that was stored. */
  lemma ParseSerialize(u: User)
    ensures Parse(Serialize(u)) == Some(u)
  {
    var t6 := Close;
    var t5 := RoleKey + (Quote(RoleName(u.role)) + t6);
    var t4 := FullNameKey + (Quote(u.fullName) + t5);
    var t3 := EmailKey + (Quote(u.email) + t4);
    var t2 := UsernameKey + (Quote(u.username) + t3);
    var t1 := IntText(u.id) + t2;
    ExpectPrefix(IdKey, t1);
    ReadNumberText(u.id, t2);
    ExpectPrefix(UsernameKey, Quote(u.username) + t3);
    ReadStringQuote(u.username, t3);
    ExpectPrefix(EmailKey, Quote(u.email) + t4);
    ReadStringQuote(u.email, t4);
    ExpectPrefix(FullNameKey, Quote(u.fullName) + t5);
    ReadStringQuote(u.fullName, t5);
    ExpectPrefix(RoleKey, Quote(RoleName(u.role)) + t6);
    ReadStringQuote(RoleName(u.role), t6);
    ExpectPrefix(Close, "");
    assert Close + "" == Close;
    WireNamesRoundTrip(u.role, Active, Draft);
  }

  /** The stored text and the user it denotes determine each other. */
  lemma ParseExactlySerialized(s: string, u: User)
    ensures Parse(s) == Some(u) <==> s == Serialize(u)
  {
    ParseSerialize(u);
  }
}
