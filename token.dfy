/** The persistent-login cookie value `<token>:<duration>`: written by
    `persist` and taken apart again by `__useCookieToken`. */
module CookieToken {
  import opened PhpStrings

  /** The two halves of a cookie value: the opaque token the backend
      issued and the relative duration (`2 weeks`) it was issued for. */
  datatype PersistToken = PersistToken(token: string, duration: string)

  const Separator: char := ':'

  /** `$token.':'.$duration`. */
  function FormatToken(p: PersistToken): (r: string)
  {
    p.token + [Separator] + p.duration
  }

  /** `split(':')`, `array_pop` for the duration, `join(':')` of the rest
      for the token. The token may contain colons; the duration never does. */
  function ParseToken(cookie: string): (p: PersistToken)
    ensures Separator !in p.duration
  {
    var parts := Split(cookie, Separator);
    PersistToken(Join(parts[..|parts| - 1], Separator), parts[|parts| - 1])
  }

  /** Round trip: a formatted token parses back to its two halves, for
      every token (colons included) and every colon-free duration. */
  lemma ParseFormat(p: PersistToken)
    requires Separator !in p.duration
    ensures ParseToken(FormatToken(p)) == p
  {
    SplitAround(p.token, Separator, p.duration);
    SplitWithoutDelimiter(p.duration, Separator);
    var parts := Split(p.token, Separator) + [p.duration];
    assert Split(FormatToken(p), Separator) == parts;
    assert parts[..|parts| - 1] == Split(p.token, Separator);
    JoinSplit(p.token, Separator);
  }

  /** A duration with a colon does not survive the round trip: everything
      up to its last colon is read back as part of the token. */
  lemma DurationWithColon(token: string, head: string, tail: string)
    requires Separator !in tail
    ensures ParseToken(FormatToken(PersistToken(token, head + [Separator] + tail)))
         == PersistToken(token + [Separator] + head, tail)
  {
    assert FormatToken(PersistToken(token, head + [Separator] + tail))
        == FormatToken(PersistToken(token + [Separator] + head, tail));
    ParseFormat(PersistToken(token + [Separator] + head, tail));
  }

  /** A cookie value without a colon does not fail: the whole value is
      taken as the duration and the token is empty. */
  lemma ParseWithoutSeparator(cookie: string)
    requires Separator !in cookie
    ensures ParseToken(cookie) == PersistToken("", cookie)
  {
    SplitWithoutDelimiter(cookie, Separator);
  }

  /** The other direction of the round trip: a cookie value with a colon
      is exactly the format of its parse. */
  lemma FormatParse(cookie: string)
    requires Separator in cookie
    ensures FormatToken(ParseToken(cookie)) == cookie
  {
    var parts := Split(cookie, Separator);
    JoinSplit(cookie, Separator);
    if |parts| == 1 {
      assert false;
    }
    JoinAllButLast(parts, Separator);
  }

  /** A token re-issued for the duration read from any cookie value parses
      back to that new token and the same duration, so the duration
      survives every rotation. */
  lemma ReissuedTokenParses(cookie: string, issued: string)
    ensures var d := ParseToken(cookie).duration;
            ParseToken(FormatToken(PersistToken(issued, d))) == PersistToken(issued, d)
  {
    ParseFormat(PersistToken(issued, ParseToken(cookie).duration));
  }
}
