/** The quoting and escaping rule of the project-file writer: which strings
    must be quoted, and how a quoted string is escaped. */
module XcodeEscaping {

  /** The characters the project-file parser accepts in an unquoted word:
      ASCII letters, digits and `$ _ . /`. */
  predicate IsPlainChar(c: char)
  {
    'A' <= c <= 'Z' || 'a' <= c <= 'z' || '0' <= c <= '9' ||
    c == '$' || c == '_' || c == '.' || c == '/'
  }

  /** The text holds "//", which the parser would read as the start of a comment. */
  predicate HasCommentStart(s: string)
  {
    exists i :: 0 <= i < |s| - 1 && s[i] == '/' && s[i + 1] == '/'
  }

  /** The `needQuote` condition: empty, holding "//", or holding a character
      outside the plain set. */
  predicate NeedsQuote(s: string)
  {
    |s| == 0 || HasCommentStart(s) || exists i :: 0 <= i < |s| && !IsPlainChar(s[i])
  }

  /** A double quote and a backslash get a backslash in front; nothing else changes. */
  function EscapeChar(c: char): string
  {
    if c == '"' || c == '\\' then "\\" + [c] else [c]
  }

  function Escape(s: string): string
  {
    if s == [] then "" else EscapeChar(s[0]) + Escape(s[1..])
  }

  /** What PrintString writes for s. */
  function Quoted(s: string): string
  {
    var quote := if NeedsQuote(s) then "\"" else "";
    quote + Escape(s) + quote
  }

  /** The number of characters that get a backslash. */
  function CountEscaped(s: string): nat
  {
    if s == [] then 0 else (if s[0] == '"' || s[0] == '\\' then 1 else 0) + CountEscaped(s[1..])
  }

  /** Text made of characters other than a double quote or a backslash, and of
      backslash pairs whose second character is a double quote or a backslash. */
  predicate WellEscaped(t: string)
    decreases |t|
  {
    if t == [] then true
    else if t[0] == '\\' then |t| >= 2 && (t[1] == '"' || t[1] == '\\') && WellEscaped(t[2..])
    else t[0] != '"' && WellEscaped(t[1..])
  }

  /** Reading an escaped text back: a backslash pair stands for its second character. */
  function Unescape(t: string): string
    decreases |t|
  {
    if t == [] then ""
    else if t[0] == '\\' && |t| >= 2 then [t[1]] + Unescape(t[2..])
    else [t[0]] + Unescape(t[1..])
  }

  lemma {:induction false} EscapeAppend(a: string, b: string)
    ensures Escape(a + b) == Escape(a) + Escape(b)
  {
    if a == [] {
      assert a + b == b;
    } else {
      assert (a + b)[1..] == a[1..] + b;
      EscapeAppend(a[1..], b);
    }
  }

  /** Escaping character by character, as the printing loop does. */
  lemma EscapeSnoc(s: string, c: char)
    ensures Escape(s + [c]) == Escape(s) + EscapeChar(c)
  {
    EscapeAppend(s, [c]);
  }

  /** Escaping adds exactly one character per double quote and backslash. */
  lemma {:induction false} EscapeLength(s: string)
    ensures |Escape(s)| == |s| + CountEscaped(s)
  {
    if s != [] {
      EscapeLength(s[1..]);
    }
  }

  /** A string without double quotes and backslashes is not changed by escaping. */
  lemma {:induction false} EscapeKeepsOrdinaryText(s: string)
    requires forall i :: 0 <= i < |s| ==> s[i] != '"' && s[i] != '\\'
    ensures Escape(s) == s
  {
    if s != [] {
      EscapeKeepsOrdinaryText(s[1..]);
    }
  }

  /** A string is printed as it is, without quotes, exactly when it is
      non-empty, made of plain characters and free of "//". */
  lemma PrintedAsIs(s: string)
    ensures Quoted(s) == s <==>
      (|s| > 0 && (forall i :: 0 <= i < |s| ==> IsPlainChar(s[i])) && !HasCommentStart(s))
  {
    EscapeLength(s);
    if !NeedsQuote(s) {
      EscapeKeepsOrdinaryText(s);
    }
  }

  /** Otherwise it is wrapped in double quotes around its escaped form, and
      the length grows by the quotes and the added backslashes. */
  lemma PrintedQuoted(s: string)
    requires s == [] || HasCommentStart(s) || exists i :: 0 <= i < |s| && !IsPlainChar(s[i])
    ensures Quoted(s) == "\"" + Escape(s) + "\""
    ensures |Quoted(s)| == |s| + CountEscaped(s) + 2
  {
    EscapeLength(s);
  }

  /** In escaped text every double quote and backslash belongs to a backslash
      pair, so no unescaped double quote appears and a closing quote is never
      swallowed by a trailing backslash. */
  lemma {:induction false} EscapeIsWellEscaped(s: string)
    ensures WellEscaped(Escape(s))
  {
    if s != [] {
      EscapeIsWellEscaped(s[1..]);
      var t := Escape(s);
      if s[0] == '"' || s[0] == '\\' {
        assert t[2..] == Escape(s[1..]);
      } else {
        assert t[1..] == Escape(s[1..]);
      }
    }
  }

  /** Escaping alters no character: reading the escaped text back gives the string. */
  lemma {:induction false} UnescapeEscape(s: string)
    ensures Unescape(Escape(s)) == s
  {
    if s != [] {
      UnescapeEscape(s[1..]);
      var t := Escape(s);
      if s[0] == '"' || s[0] == '\\' {
        assert t[2..] == Escape(s[1..]);
      } else {
        assert t[1..] == Escape(s[1..]);
      }
    }
  }

  /** Conversely, every well-escaped text is the escaped form of some string. */
  lemma {:induction false} EscapeUnescape(t: string)
    requires WellEscaped(t)
    ensures Escape(Unescape(t)) == t
    decreases |t|
  {
    if t != [] {
      if t[0] == '\\' {
        EscapeUnescape(t[2..]);
        assert Unescape(t) == [t[1]] + Unescape(t[2..]);
        assert t == EscapeChar(t[1]) + t[2..];
      } else {
        EscapeUnescape(t[1..]);
        assert t == [t[0]] + t[1..];
      }
    }
  }
}
