/** The user record the session keeps in browser storage under `userData`:
    `JSON.stringify({id, type})` when it is written and `JSON.parse` when it
    is read back (eswika-frontend/src/context/AuthContext.jsx and
    eswika-frontend/src/components/Navbar.jsx). */
module StoredUser {
  import opened Common
  import opened Text

  /** `{ id, type }`; `type` is a reserved word in Dafny, hence `userType`. */
  datatype UserData = UserData(id: nat, userType: string)

  function HexDigit(d: nat): (c: char)
    requires d < 16
  {
    "0123456789abcdef"[d]
  }

  function HexValue(c: char): Option<nat>
  {
    if '0' <= c <= '9' then Some(c as int - '0' as int)
    else if 'a' <= c <= 'f' then Some(c as int - 'a' as int + 10)
    else if 'A' <= c <= 'F' then Some(c as int - 'A' as int + 10)
    else None
  }

  lemma HexDigitValue(d: nat)
    requires d < 16
    ensures HexValue(HexDigit(d)) == Some(d)
  {
  }

  /** How `JSON.stringify` writes one character inside a string literal. */
  function EscapeChar(c: char): (s: string)
    ensures |s| >= 1
  {
    var n := c as int;
    if c == '"' then "\\\""
    else if c == '\\' then "\\\\"
    else if n == 0x08 then "\\b"
    else if n == 0x0C then "\\f"
    else if n == 0x0A then "\\n"
    else if n == 0x0D then "\\r"
    else if n == 0x09 then "\\t"
    else if n < 0x20 then "\\u00" + [HexDigit(n / 16), HexDigit(n % 16)]
    else [c]
  }

  function Escape(t: string): string
  {
    if t == [] then [] else EscapeChar(t[0]) + Escape(t[1..])
  }

  /** `JSON.stringify(userData)` for the record the login writes. */
  function Encode(u: UserData): string
  {
    "{\"id\":" + NatToString(u.id) + ",\"type\":\"" + Escape(u.userType) + "\"}"
  }

  /** The character a two-character escape `\e` stands for. */
  function UnescapeShort(e: char): Option<char>
  {
    if e == '"' then Some('"')
    else if e == '\\' then Some('\\')
    else if e == '/' then Some('/')
    else if e == 'b' then Some(8 as char)
    else if e == 'f' then Some(12 as char)
    else if e == 'n' then Some('\n')
    else if e == 'r' then Some('\r')
    else if e == 't' then Some('\t')
    else None
  }

  function Prepend(c: char, r: Option<(string, string)>): Option<(string, string)>
  {
    match r
    case None => None
    case Some(p) => Some(([c] + p.0, p.1))
  }

  /** The body of a JSON string literal, read up to its closing quote:
      the decoded text and what follows the quote. */
  function ParseStringBody(s: string): Option<(string, string)>
    decreases |s|
  {
    if s == [] then None
    else if s[0] == '"' then Some(([], s[1..]))
    else if s[0] == '\\' then
      if |s| < 2 then None
      else if s[1] == 'u' then
        if |s| < 6 then None
        else match (HexValue(s[2]), HexValue(s[3]), HexValue(s[4]), HexValue(s[5]))
          case (Some(a), Some(b), Some(c), Some(d)) =>
            var code := ((a * 16 + b) * 16 + c) * 16 + d;
            if 0xD800 <= code <= 0xDFFF then None
            else Prepend(code as char, ParseStringBody(s[6..]))
          case _ => None
      else match UnescapeShort(s[1])
        case None => None
        case Some(c) => Prepend(c, ParseStringBody(s[2..]))
    else if (s[0] as int) < 0x20 then None
    else Prepend(s[0], ParseStringBody(s[1..]))
  }

  /** `JSON.parse(text)` for text of the shape `Encode` writes; `None` where
      the model treats the text as unreadable. */
  function Decode(s: string): Option<UserData>
  {
    var head := "{\"id\":";
    if |s| < |head| || s[..|head|] != head then None
    else
      var r1 := s[|head|..];
      var ds := DigitRun(r1);
      if ds == [] || (|ds| > 1 && ds[0] == '0') then None
      else
        var r2 := r1[|ds|..];
        var mid := ",\"type\":\"";
        if |r2| < |mid| || r2[..|mid|] != mid then None
        else match ParseStringBody(r2[|mid|..])
          case None => None
          case Some(p) => if p.1 == "}" then Some(UserData(DigitsValue(ds), p.0)) else None
  }

  /** Reading one escaped character hands back that character. */
  lemma EscapeCharStep(c: char, tail: string)
    ensures ParseStringBody(EscapeChar(c) + tail) == Prepend(c, ParseStringBody(tail))
  {
    var n := c as int;
    var s := EscapeChar(c) + tail;
    if c == '"' || c == '\\' || n == 0x08 || n == 0x0C || n == 0x0A || n == 0x0D || n == 0x09 {
      assert s[2..] == tail;
    } else if n < 0x20 {
      assert s[6..] == tail;
      HexDigitValue(n / 16);
      HexDigitValue(n % 16);
      assert s[2] == '0' && s[3] == '0' && s[4] == HexDigit(n / 16) && s[5] == HexDigit(n % 16);
      assert ((0 * 16 + 0) * 16 + n / 16) * 16 + n % 16 == n;
    } else {
      assert s[1..] == tail;
    }
  }

  /** The string-literal reader inverts the escaping. */
  lemma {:induction false} EscapeRoundTrip(t: string, rest: string)
    ensures ParseStringBody(Escape(t) + "\"" + rest) == Some((t, rest))
  {
    if t == [] {
      assert Escape(t) + "\"" + rest == "\"" + rest;
      assert ("\"" + rest)[1..] == rest;
    } else {
      assert Escape(t) + "\"" + rest == EscapeChar(t[0]) + (Escape(t[1..]) + "\"" + rest);
      EscapeCharStep(t[0], Escape(t[1..]) + "\"" + rest);
      EscapeRoundTrip(t[1..], rest);
      assert [t[0]] + t[1..] == t;
    }
  }

  /** What the login writes under `userData` reads back as the same record. */
  lemma DecodeEncode(u: UserData)
    ensures Decode(Encode(u)) == Some(u)
  {
    var head := "{\"id\":";
    var mid := ",\"type\":\"";
    var digits := NatToString(u.id);
    var lit := Escape(u.userType) + "\"" + "}";
    var s := Encode(u);
    assert s == head + (digits + (mid + lit));
    assert s[..|head|] == head;
    var r1 := s[|head|..];
    assert r1 == digits + (mid + lit);
    DigitRunStops(digits, mid + lit);
    var r2 := r1[|digits|..];
    assert r2 == mid + lit;
    assert r2[..|mid|] == mid;
    assert r2[|mid|..] == lit;
    EscapeRoundTrip(u.userType, "}");
    NatToStringValue(u.id);
  }

  /** Two different records are never stored as the same text. */
  lemma EncodeInjective(u: UserData, v: UserData)
    requires Encode(u) == Encode(v)
    ensures u == v
  {
    DecodeEncode(u);
    DecodeEncode(v);
  }

  /** Different strings escape to different JSON text. */
  lemma EscapeInjective(a: string, b: string)
    requires Escape(a) == Escape(b)
    ensures a == b
  {
    EscapeRoundTrip(a, "");
    EscapeRoundTrip(b, "");
  }
}
