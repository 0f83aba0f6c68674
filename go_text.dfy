/**
 * Go's `%q` verb on the strings the program formats: the text in double quotes, with
 * '"' and '\' escaped by a backslash.
 */
module GoText {
  function Quote(s: string): (q: string)
    ensures |q| >= 2 && q[0] == '"' && q[|q| - 1] == '"'
  {
    "\"" + Escape(s) + "\""
  }

  function Escape(s: string): string
  {
    if s == [] then []
    else (if s[0] == '"' || s[0] == '\\' then ['\\', s[0]] else [s[0]]) + Escape(s[1..])
  }

  /** Reading quoted text back: a backslash takes the next character literally. */
  function Unescape(s: string): string
  {
    if s == [] then []
    else if s[0] == '\\' && |s| >= 2 then [s[1]] + Unescape(s[2..])
    else [s[0]] + Unescape(s[1..])
  }

  /** Escaping works character by character, so it distributes over concatenation. */
  lemma {:induction false} EscapeAppend(a: string, b: string)
    ensures Escape(a + b) == Escape(a) + Escape(b)
  {
    if a != [] {
      assert (a + b)[1..] == a[1..] + b;
      EscapeAppend(a[1..], b);
    } else {
      assert a + b == b;
    }
  }

  /** A quote and a backslash each become a backslash followed by themselves; every other character is kept. */
  lemma EscapeChar(c: char)
    ensures Escape([c]) == if c == '"' || c == '\\' then ['\\', c] else [c]
  {
    assert [c][1..] == [];
  }

  /** Escaping loses nothing: the escaped text reads back as the original. */
  lemma {:induction false} UnescapeEscape(s: string)
    ensures Unescape(Escape(s)) == s
  {
    if s != [] {
      var head := if s[0] == '"' || s[0] == '\\' then ['\\', s[0]] else [s[0]];
      var e := head + Escape(s[1..]);
      UnescapeEscape(s[1..]);
      if |head| == 2 {
        assert e[2..] == Escape(s[1..]);
      } else {
        assert e[1..] == Escape(s[1..]);
      }
    }
  }

  /** The text between the quotes is the escaped input, and it reads back as the input. */
  lemma QuoteRoundTrip(s: string)
    ensures Quote(s)[1..|Quote(s)| - 1] == Escape(s)
    ensures Unescape(Quote(s)[1..|Quote(s)| - 1]) == s
  {
    assert Quote(s)[1..|Quote(s)| - 1] == Escape(s);
    UnescapeEscape(s);
  }

  /** Text without quotes or backslashes is quoted as is. */
  lemma {:induction false} EscapePlain(s: string)
    requires forall i :: 0 <= i < |s| ==> s[i] != '"' && s[i] != '\\'
    ensures Escape(s) == s
  {
    if s != [] {
      EscapePlain(s[1..]);
    }
  }
}
