/**
 * String operations the source takes from its runtimes: Python's `str.split(sep)` and
 * `sep.join`, JavaScript's `\s` whitespace class, `trim`, `toLowerCase` (and Python's
 * `lower`) for the Latin and Cyrillic letters the system's labels use, and decimal
 * formatting of a count.
 */
module Strings {

  /** Python `s.split(sep)`: never empty; an empty string gives `[""]`. */
  function Split(s: string, sep: char): (parts: seq<string>)
    ensures |parts| >= 1
    ensures forall i :: 0 <= i < |parts| ==> sep !in parts[i]
  {
    if s == [] then [[]]
    else
      var rest := Split(s[1..], sep);
      if s[0] == sep then [[]] + rest
      else [[s[0]] + rest[0]] + rest[1..]
  }

  /** `sep.join(parts)` */
  function Join(parts: seq<string>, sep: char): string
    requires |parts| >= 1
  {
    if |parts| == 1 then parts[0] else parts[0] + [sep] + Join(parts[1..], sep)
  }

  /** Joining the pieces of a split gives back the string. */
  lemma {:induction false} JoinSplit(s: string, sep: char)
    ensures Join(Split(s, sep), sep) == s
  {
    if s != [] {
      var rest := Split(s[1..], sep);
      JoinSplit(s[1..], sep);
      if s[0] == sep {
        assert ([[]] + rest)[1..] == rest;
      } else {
        var parts := [[s[0]] + rest[0]] + rest[1..];
        if |rest| > 1 {
          assert parts[1..] == rest[1..];
          assert Join(rest, sep) == rest[0] + [sep] + Join(rest[1..], sep);
        }
        assert s == [s[0]] + s[1..];
      }
    }
  }

  /** Splitting a join of separator-free pieces gives back the pieces. */
  lemma {:induction false} SplitJoin(parts: seq<string>, sep: char)
    requires |parts| >= 1
    requires forall i :: 0 <= i < |parts| ==> sep !in parts[i]
    ensures Split(Join(parts, sep), sep) == parts
  {
    if |parts| == 1 {
      SplitPiece(parts[0], [], sep);
      assert parts[0] + [] == parts[0];
    } else {
      SplitJoin(parts[1..], sep);
      var tail := [sep] + Join(parts[1..], sep);
      assert Split(tail, sep) == [[]] + parts[1..] by {
        assert tail[1..] == Join(parts[1..], sep);
      }
      assert parts[0] + [sep] + Join(parts[1..], sep) == parts[0] + tail;
      SplitPiece(parts[0], tail, sep);
      assert Join(parts, sep) == parts[0] + tail;
      assert parts == [parts[0]] + parts[1..];
      assert Split(tail, sep)[0] == [] && Split(tail, sep)[1..] == parts[1..];
      assert parts[0] + [] == parts[0];
    }
  }

  /** A separator-free prefix is glued to the first piece of what follows it. */
  lemma {:induction false} SplitPiece(piece: string, tail: string, sep: char)
    requires sep !in piece
    ensures Split(piece + tail, sep) ==
            [piece + Split(tail, sep)[0]] + Split(tail, sep)[1..]
  {
    var t := Split(tail, sep);
    if piece == [] {
      assert piece + tail == tail;
      assert piece + t[0] == t[0];
      assert t == [t[0]] + t[1..];
    } else {
      var s := piece + tail;
      assert s[0] == piece[0] != sep;
      assert s[1..] == piece[1..] + tail;
      SplitPiece(piece[1..], tail, sep);
      var rest := Split(s[1..], sep);
      assert rest[0] == piece[1..] + t[0];
      assert rest[1..] == t[1..];
      assert [s[0]] + rest[0] == piece + t[0];
    }
  }

  /** A separator-free string is a single piece. */
  lemma SplitSingle(piece: string, sep: char)
    requires sep !in piece
    ensures Split(piece, sep) == [piece]
  {
    SplitPiece(piece, [], sep);
    assert piece + [] == piece;
  }

  /** A separator-free first piece comes off the front of a split. */
  lemma SplitFirst(piece: string, tail: string, sep: char)
    requires sep !in piece
    ensures Split(piece + [sep] + tail, sep) == [piece] + Split(tail, sep)
  {
    var rest := [sep] + tail;
    assert piece + [sep] + tail == piece + rest;
    SplitPiece(piece, rest, sep);
    assert rest[1..] == tail;
    assert piece + [] == piece;
  }

  /** A path under two dot-free keys splits into those keys followed by the rest's keys. */
  lemma SplitUnder(a: string, b: string, rest: string)
    requires '.' !in a && '.' !in b
    ensures Split(a + "." + b + "." + rest, '.') == [a, b] + Split(rest, '.')
  {
    SplitFirst(b, rest, '.');
    SplitFirst(a, b + "." + rest, '.');
    assert a + "." + b + "." + rest == a + "." + (b + "." + rest);
  }

  /** Python's `t in s` on two strings: `t` occurs in `s` as a contiguous run. */
  predicate Contains(s: string, t: string)
    decreases |s|
  {
    (|t| <= |s| && s[..|t|] == t) || (s != [] && Contains(s[1..], t))
  }

  /** Whatever surrounds it, a string contains each of its infixes. */
  lemma {:induction false} ContainsInfix(a: string, t: string, b: string)
    ensures Contains(a + t + b, t)
    decreases |a|
  {
    var s := a + t + b;
    if a == [] {
      assert s == t + b;
      assert s[..|t|] == t;
    } else {
      assert s[1..] == a[1..] + t + b;
      ContainsInfix(a[1..], t, b);
    }
  }

  /** The characters JavaScript's `\s` and `String.prototype.trim` treat as white space. */
  predicate IsWhitespace(c: char) {
    c == ' ' || c == '\t' || c == '\n' || c == '\r' || c == '\U{000B}' || c == '\U{000C}'
    || c == '\U{00A0}' || c == '\U{1680}' || ('\U{2000}' <= c <= '\U{200A}')
    || c == '\U{2028}' || c == '\U{2029}' || c == '\U{202F}' || c == '\U{205F}'
    || c == '\U{3000}' || c == '\U{FEFF}'
  }

  function TrimStart(s: string): (r: string)
    ensures |r| <= |s| && r == s[|s| - |r|..]
    ensures r == [] || !IsWhitespace(r[0])
    ensures forall i :: 0 <= i < |s| - |r| ==> IsWhitespace(s[i])
  {
    if s != [] && IsWhitespace(s[0]) then TrimStart(s[1..]) else s
  }

  function TrimEnd(s: string): (r: string)
    ensures |r| <= |s| && r == s[..|r|]
    ensures r == [] || !IsWhitespace(r[|r| - 1])
    ensures forall i :: |r| <= i < |s| ==> IsWhitespace(s[i])
  {
    if s != [] && IsWhitespace(s[|s| - 1]) then TrimEnd(s[..|s| - 1]) else s
  }

  /** `s.trim()` */
  function Trim(s: string): string {
    TrimEnd(TrimStart(s))
  }

  /** `s.trim()` is empty exactly when `s` holds only white space. */
  lemma TrimEmptyIffBlank(s: string)
    ensures Trim(s) == [] <==> forall i :: 0 <= i < |s| ==> IsWhitespace(s[i])
  {
    var t := TrimStart(s);
    if Trim(s) == [] {
      forall i | 0 <= i < |s| ensures IsWhitespace(s[i]) {
        if i >= |s| - |t| {
          assert s[i] == t[i - (|s| - |t|)];
        }
      }
    } else {
      assert !IsWhitespace(Trim(s)[0]) || |t| > 0;
      assert t != [] && !IsWhitespace(t[0]);
      assert !IsWhitespace(s[|s| - |t|]);
    }
  }

  /** `label.replace(/\s+/g, '-')`: every run of white space becomes one hyphen. */
  function DashWhitespaceRuns(s: string): (r: string)
    ensures forall i :: 0 <= i < |r| ==> !IsWhitespace(r[i])
    ensures forall i :: 0 <= i < |r| ==> r[i] == '-' || r[i] in s
    ensures |r| <= |s|
    decreases |s|
  {
    if s == [] then []
    else if IsWhitespace(s[0]) then ['-'] + DashWhitespaceRuns(TrimStart(s))
    else [s[0]] + DashWhitespaceRuns(s[1..])
  }

  /** Holds when `w` is a non-empty run of white space. */
  predicate Blank(w: string) {
    w != [] && forall i :: 0 <= i < |w| ==> IsWhitespace(w[i])
  }

  /** Cutting the leading white space of a run followed by a non-blank start leaves that start. */
  lemma {:induction false} TrimStartRun(w: string, t: string)
    requires forall i :: 0 <= i < |w| ==> IsWhitespace(w[i])
    requires t == [] || !IsWhitespace(t[0])
    ensures TrimStart(w + t) == t
  {
    if w == [] {
      assert w + t == t;
    } else {
      assert (w + t)[1..] == w[1..] + t;
      TrimStartRun(w[1..], t);
    }
  }

  /** A maximal run of white space becomes exactly one hyphen. */
  lemma DashRun(w: string, t: string)
    requires Blank(w)
    requires t == [] || !IsWhitespace(t[0])
    ensures DashWhitespaceRuns(w + t) == "-" + DashWhitespaceRuns(t)
  {
    assert (w + t)[0] == w[0];
    TrimStartRun(w, t);
  }

  /** A character outside white space is copied unchanged. */
  lemma DashStep(s: string)
    requires s != [] && !IsWhitespace(s[0])
    ensures DashWhitespaceRuns(s) == [s[0]] + DashWhitespaceRuns(s[1..])
  {
  }

  /** The first character of `a + t` and what follows it, for a non-empty `a`. */
  lemma ConsSplit(a: string, t: string, u: string)
    requires a != []
    ensures (a + t)[0] == a[0] && (a + t)[1..] == a[1..] + t
    ensures a + u == [a[0]] + (a[1..] + u)
  {
  }

  /** Concatenation is associative. */
  lemma AppendAssoc(a: string, w: string, t: string)
    ensures a + w + t == a + (w + t)
  {
  }

  /** Characters outside white space are copied unchanged, in order. */
  lemma {:induction false} DashKeepsWords(a: string, t: string)
    requires forall i :: 0 <= i < |a| ==> !IsWhitespace(a[i])
    ensures DashWhitespaceRuns(a + t) == a + DashWhitespaceRuns(t)
  {
    if a == [] {
      assert a + t == t;
    } else {
      var rest := a[1..];
      assert forall i :: 0 <= i < |rest| ==> rest[i] == a[i + 1];
      DashKeepsWords(rest, t);
      ConsSplit(a, t, DashWhitespaceRuns(t));
      DashStep(a + t);
    }
  }

  /** A word, a run of white space and the rest: the word, one hyphen, and the rest's result. */
  lemma DashWordRun(a: string, w: string, t: string)
    requires forall i :: 0 <= i < |a| ==> !IsWhitespace(a[i])
    requires Blank(w)
    requires t == [] || !IsWhitespace(t[0])
    ensures DashWhitespaceRuns(a + w + t) == a + "-" + DashWhitespaceRuns(t)
  {
    DashRun(w, t);
    DashKeepsWords(a, w + t);
    AppendAssoc(a, w, t);
    AppendAssoc(a, "-", DashWhitespaceRuns(t));
  }

  /** A string without white space comes back unchanged. */
  lemma DashKeepsPlain(s: string)
    requires forall i :: 0 <= i < |s| ==> !IsWhitespace(s[i])
    ensures DashWhitespaceRuns(s) == s
  {
    DashKeepsWords(s, []);
    assert s + [] == s;
  }

  /** The capitals `toLowerCase` / `lower` change here: Latin, Cyrillic, and Ё. */
  predicate IsUpper(c: char) {
    'A' <= c <= 'Z' || 'А' <= c <= 'Я' || c == 'Ё'
  }

  /** `l` is the lower-case letter of the capital `u`. */
  predicate LowerOf(u: char, l: char) {
    (('A' <= u <= 'Z' || 'А' <= u <= 'Я') && l as int == u as int + 32)
    || (u == 'Ё' && l == 'ё')
  }

  /** `toLowerCase` / Python `lower` on one character of the Latin and Cyrillic alphabets. */
  function LowerChar(c: char): (r: char)
    ensures !IsUpper(r)
    ensures IsUpper(c) ==> LowerOf(c, r)
    ensures !IsUpper(c) ==> r == c
  {
    if 'A' <= c <= 'Z' then (c as int + 32) as char
    else if 'А' <= c <= 'Я' then (c as int + 32) as char
    else if c == 'Ё' then 'ё'
    else c
  }

  /** `toLowerCase` / Python `lower`: every capital becomes its lower-case letter, all else is kept. */
  function Lower(s: string): (r: string)
    ensures |r| == |s|
    ensures forall i :: 0 <= i < |r| ==> !IsUpper(r[i])
    ensures forall i :: 0 <= i < |s| && IsUpper(s[i]) ==> LowerOf(s[i], r[i])
    ensures forall i :: 0 <= i < |s| && !IsUpper(s[i]) ==> r[i] == s[i]
  {
    seq(|s|, i requires 0 <= i < |s| => LowerChar(s[i]))
  }

  /** Lowering a lowered string changes nothing. */
  lemma LowerIdempotent(s: string)
    ensures Lower(Lower(s)) == Lower(s)
  {
  }

  /** Lowering never turns white space into a letter or a letter into white space. */
  lemma LowerKeepsWhitespace(s: string)
    ensures forall i :: 0 <= i < |s| ==> (IsWhitespace(Lower(s)[i]) <==> IsWhitespace(s[i]))
  {
    forall i | 0 <= i < |s| ensures IsWhitespace(Lower(s)[i]) <==> IsWhitespace(s[i]) {
      if IsUpper(s[i]) {
        assert LowerOf(s[i], Lower(s)[i]);
      }
    }
  }

  /** Lowering a word, a run of white space and the rest lowers each part and keeps their shape. */
  lemma LowerWordRun(a: string, w: string, t: string)
    requires forall i :: 0 <= i < |a| ==> !IsWhitespace(a[i])
    requires Blank(w)
    requires t == [] || !IsWhitespace(t[0])
    ensures Lower(a + w + t) == Lower(a) + Lower(w) + Lower(t)
    ensures forall i :: 0 <= i < |Lower(a)| ==> !IsWhitespace(Lower(a)[i])
    ensures Blank(Lower(w))
    ensures Lower(t) == [] || !IsWhitespace(Lower(t)[0])
  {
    LowerAppend(a + w, t);
    LowerAppend(a, w);
    LowerKeepsWhitespace(a);
    LowerKeepsWhitespace(w);
    LowerKeepsWhitespace(t);
  }

  /** Lowering works character by character, so it distributes over concatenation. */
  lemma LowerAppend(a: string, b: string)
    ensures Lower(a + b) == Lower(a) + Lower(b)
  {
    assert forall i :: 0 <= i < |a + b| ==> Lower(a + b)[i] == (Lower(a) + Lower(b))[i];
  }

  /** The number the decimal digits of `s` spell, most significant first. */
  function DigitsValue(s: string): nat
    requires forall i :: 0 <= i < |s| ==> '0' <= s[i] <= '9'
  {
    if s == [] then 0 else 10 * DigitsValue(s[..|s| - 1]) + (s[|s| - 1] - '0') as nat
  }

  /** A count in decimal, as template literals and f-strings print it: no leading zero. */
  function NatToString(n: nat): (r: string)
    ensures |r| >= 1
    ensures forall i :: 0 <= i < |r| ==> '0' <= r[i] <= '9'
    ensures DigitsValue(r) == n
    ensures r[0] == '0' ==> r == "0"
  {
    var digit := ['0' + (n % 10) as char];
    if n < 10 then digit
    else
      var high := NatToString(n / 10);
      assert (high + digit)[..|high + digit| - 1] == high;
      high + digit
  }
}
