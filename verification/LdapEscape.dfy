/** Escaping a value for an LDAP search filter (internal/gateway/ldap_escape.go; RFC 4515 section 3). */
module LdapEscape {
  import opened Wrappers

  /** The characters a filter value may not contain as they are. */
  predicate Special(c: char) { c == '\\' || c == 0 as char || c == '(' || c == ')' || c == '*' }

  function EscapeChar(c: char): string {
    if c == '\\' then "\\5c"
    else if c == 0 as char then "\\00"
    else if c == '(' then "\\28"
    else if c == ')' then "\\29"
    else if c == '*' then "\\2a"
    else [c]
  }

  function Escaped(s: string): string {
    if s == [] then [] else Escaped(s[..|s|-1]) + EscapeChar(s[|s|-1])
  }

  lemma {:induction false} SafeUnchanged(s: string)
    requires forall i :: 0 <= i < |s| ==> s[i] !in {'\\', 0 as char, '(', ')', '*'}
    ensures Escaped(s) == s
  {
    if s != [] {
      SafeUnchanged(s[..|s|-1]);
      assert s == s[..|s|-1] + [s[|s|-1]];
    }
  }

  method EscapeRFC4515(s: string) returns (r: string)
    ensures r == Escaped(s)
  {
    if s == "" { return s; }
    var safe := true;
    for i := 0 to |s|
      invariant safe
      invariant forall j :: 0 <= j < i ==> !Special(s[j])
    {
      if s[i] == '\\' || s[i] == 0 as char || s[i] == '(' || s[i] == ')' || s[i] == '*' {
        safe := false;
        break;
      }
    }
    if safe {
      SafeUnchanged(s);
      return s;
    }
    r := "";
    for i := 0 to |s|
      invariant r == Escaped(s[..i])
    {
      assert s[..i+1][..i] == s[..i];
      var c := s[i];
      if c == '\\' { r := r + "\\5c"; }
      else if c == 0 as char { r := r + "\\00"; }
      else if c == '(' { r := r + "\\28"; }
      else if c == ')' { r := r + "\\29"; }
      else if c == '*' { r := r + "\\2a"; }
      else { r := r + [c]; }
    }
    assert s[..|s|] == s;
  }

  // ----- what a directory reads back -----

  function HexDigit(c: char): Option<int> {
    if '0' <= c <= '9' then Some(c as int - '0' as int)
    else if 'a' <= c <= 'f' then Some(c as int - 'a' as int + 10)
    else if 'A' <= c <= 'F' then Some(c as int - 'A' as int + 10)
    else None
  }

  /** The value encoding of RFC 4515: plain characters, or a backslash and two hex
      digits; None for anything else. */
  function Decode(s: string): Option<string> {
    if s == [] then Some([])
    else if s[0] == '\\' then
      if |s| < 3 || HexDigit(s[1]).None? || HexDigit(s[2]).None? then None
      else
        match Decode(s[3..])
        case None => None
        case Some(rest) => Some([(HexDigit(s[1]).value * 16 + HexDigit(s[2]).value) as char] + rest)
    else if Special(s[0]) then None
    else
      match Decode(s[1..])
      case None => None
      case Some(rest) => Some([s[0]] + rest)
  }

  function Prefixed(s: string, r: Option<string>): Option<string> {
    match r case None => None case Some(rest) => Some(s + rest)
  }

  lemma PrefixedTwice(a: string, b: string, r: Option<string>)
    ensures Prefixed(a, Prefixed(b, r)) == Prefixed(a + b, r) && Prefixed([], r) == r
  {
    if r.Some? {
      assert a + (b + r.value) == (a + b) + r.value;
      assert [] + r.value == r.value;
    }
  }

  lemma DecodeChar(c: char, rest: string)
    ensures Decode(EscapeChar(c) + rest) == Prefixed([c], Decode(rest))
  {
    var e := EscapeChar(c);
    if Special(c) {
      assert (e + rest)[3..] == rest && (e + rest)[1] == e[1] && (e + rest)[2] == e[2];
      assert (HexDigit(e[1]).value * 16 + HexDigit(e[2]).value) as char == c;
    } else {
      assert (e + rest)[1..] == rest;
    }
  }

  lemma EscapedSnoc(s: string, rest: string)
    requires s != []
    ensures Escaped(s) + rest == Escaped(s[..|s|-1]) + (EscapeChar(s[|s|-1]) + rest)
  {
    hide EscapeChar;
  }

  lemma {:induction false} DecodeThen(s: string, rest: string)
    ensures Decode(Escaped(s) + rest) == Prefixed(s, Decode(rest))
  {
    hide Decode, EscapeChar, Prefixed;
    PrefixedTwice([], [], Decode(rest));
    if s == [] {
      assert Escaped(s) + rest == rest;
    } else {
      var front, c := s[..|s|-1], s[|s|-1];
      EscapedSnoc(s, rest);
      DecodeThen(front, EscapeChar(c) + rest);
      DecodeChar(c, rest);
      PrefixedTwice(front, [c], Decode(rest));
      assert front + [c] == s;
    }
  }

  /** The escaped value is a legal filter value and stands for exactly s. */
  lemma DecodesBack(s: string)
    ensures Decode(Escaped(s)) == Some(s)
  {
    DecodeThen(s, []);
    assert Escaped(s) + [] == Escaped(s);
    assert s + [] == s;
  }

  /** Nothing that could end or widen the filter comes through. */
  lemma {:induction false} NoRawSpecials(s: string)
    ensures forall i :: 0 <= i < |Escaped(s)| ==>
      Escaped(s)[i] != '(' && Escaped(s)[i] != ')' && Escaped(s)[i] != '*' && Escaped(s)[i] != 0 as char
  {
    if s != [] {
      NoRawSpecials(s[..|s|-1]);
    }
  }

  /** Different values stay different. */
  lemma EscapeInjective(a: string, b: string)
    requires Escaped(a) == Escaped(b)
    ensures a == b
  {
    DecodesBack(a);
    DecodesBack(b);
  }
}
