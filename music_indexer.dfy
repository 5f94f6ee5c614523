/**
 * The desktop indexer's pure helpers (music_indexer.py): the text sanitiser
 * applied to every tag, the file filters of the folder scan, the track
 * number read from a tag, and the path stored for each song.
 */
module MusicIndexer {
  import opened Wrappers

  // ---------------------------------------------------------------------------
  // Characters
  // ---------------------------------------------------------------------------

  /** The ASCII whitespace characters: space, tab, line feed, vertical tab, form feed, carriage return. */
  predicate IsWhitespace(c: char) {
    c == ' ' || c == '\t' || c == '\n' || c == '\U{0B}' || c == '\U{0C}' || c == '\r'
  }

  predicate IsPrintableAscii(c: char) {
    32 <= c as int <= 126
  }

  predicate AllPrintable(s: string) {
    forall i :: 0 <= i < |s| ==> IsPrintableAscii(s[i])
  }

  /** A printable character is whitespace only if it is the space. */
  lemma PrintableWhitespaceIsSpace(c: char)
    requires IsPrintableAscii(c)
    ensures IsWhitespace(c) <==> c == ' '
  {
  }

  // ---------------------------------------------------------------------------
  // sanitize_text, after the accent-stripping pre-pass
  // ---------------------------------------------------------------------------

  /** The replacement table, in the order it is written. */
  const Replacements: seq<(char, string)> := [
    ('\U{2013}', "-"),     // en dash
    ('\U{2014}', "-"),     // em dash
    ('\U{2018}', "'"),     // left single quote
    ('\U{2019}', "'"),     // right single quote
    ('\U{201C}', "\""),    // left double quote
    ('\U{201D}', "\""),    // right double quote
    ('\U{2026}', "..."),   // ellipsis
    ('\U{00A0}', " "),     // non-breaking space
    ('\t', " "),
    ('\n', " "),
    ('\r', " ")
  ]

  /** str.replace for a one-character pattern: every occurrence of `key` becomes `repl`. */
  function ReplaceChar(s: string, key: char, repl: string): string {
    if s == [] then []
    else ReplaceChar(s[..|s| - 1], key, repl) + (if s[|s| - 1] == key then repl else [s[|s| - 1]])
  }

  /** What one character becomes under a table: the first entry for it, else itself. */
  function Translate(c: char, table: seq<(char, string)>): string {
    if table == [] then [c]
    else if table[0].0 == c then table[0].1
    else Translate(c, table[1..])
  }

  /** Every character replaced at once by what the table maps it to. */
  function MapChars(s: string, table: seq<(char, string)>): string {
    if s == [] then []
    else MapChars(s[..|s| - 1], table) + Translate(s[|s| - 1], table)
  }

  predicate IsKey(c: char, table: seq<(char, string)>) {
    exists k :: 0 <= k < |table| && table[k].0 == c
  }

  /** No replacement text contains a character the table replaces. */
  predicate KeysNotInValues(table: seq<(char, string)>) {
    forall j, k :: 0 <= j < |table| && 0 <= k < |table| ==> table[k].0 !in table[j].1
  }

  /** Keep printable ASCII, turn every other character into a space. */
  function Printable(s: string): (r: string)
    ensures |r| == |s| && AllPrintable(r)
    ensures forall i :: 0 <= i < |s| && IsPrintableAscii(s[i]) ==> r[i] == s[i]
    ensures forall i :: 0 <= i < |s| && !IsPrintableAscii(s[i]) ==> r[i] == ' '
  {
    seq(|s|, i requires 0 <= i < |s| => if IsPrintableAscii(s[i]) then s[i] else ' ')
  }

  function TrimLeft(s: string): (r: string)
    ensures |r| <= |s| && r == s[|s| - |r|..]
    ensures r == [] || !IsWhitespace(r[0])
    ensures s == [] || !IsWhitespace(s[0]) ==> r == s
  {
    if s != [] && IsWhitespace(s[0]) then TrimLeft(s[1..]) else s
  }

  function TrimRight(s: string): (r: string)
    ensures |r| <= |s| && r == s[..|r|]
    ensures r == [] || !IsWhitespace(r[|r| - 1])
    ensures s == [] || !IsWhitespace(s[|s| - 1]) ==> r == s
  {
    if s != [] && IsWhitespace(s[|s| - 1]) then TrimRight(s[..|s| - 1]) else s
  }

  /** str.strip(): whitespace removed from both ends. */
  function Strip(s: string): string {
    TrimRight(TrimLeft(s))
  }

  /** re.sub(r'\s+', ' ', s): every run of whitespace becomes one space. */
  function Collapse(s: string): string
    decreases |s|
  {
    if s == [] then []
    else if IsWhitespace(s[0]) then " " + Collapse(TrimLeft(s[1..]))
    else [s[0]] + Collapse(s[1..])
  }

  /** The steps of sanitize_text that follow the accent-stripping pre-pass. */
  function Cleaned(s: string): (r: string)
    ensures AllPrintable(r) && NoDoubleSpace(r) && NoOuterSpace(r)
  {
    var p := Printable(MapChars(s, Replacements));
    CollapseShape(p);
    StripShape(Collapse(p));
    Strip(Collapse(p))
  }

  /**
   * sanitize_text: falsy input (None or the empty string) is returned as it
   * is; anything else goes through `stripAccents` (the Unicode decomposition
   * and the removal of combining marks, which are not modelled) and then
   * through the cleaning steps.
   */
  function Sanitized(text: Option<string>, stripAccents: string -> string): (r: Option<string>)
    ensures r.Some? <==> text.Some?
    ensures text == None || text == Some("") ==> r == text
    ensures r.Some? ==> AllPrintable(r.value) && NoDoubleSpace(r.value) && NoOuterSpace(r.value)
  {
    if text == None || text.value == "" then text
    else Some(Cleaned(stripAccents(text.value)))
  }

  /** The characters of `s` that are not spaces, in order. */
  function Unspaced(s: string): string {
    if s == [] then [] else (if s[0] == ' ' then [] else [s[0]]) + Unspaced(s[1..])
  }

  predicate NoDoubleSpace(s: string) {
    forall i :: 0 <= i < |s| - 1 ==> !(s[i] == ' ' && s[i + 1] == ' ')
  }

  predicate NoOuterSpace(s: string) {
    s == [] || (s[0] != ' ' && s[|s| - 1] != ' ')
  }

  // ---------------------------------------------------------------------------
  // The replacement loop is the simultaneous character map
  // ---------------------------------------------------------------------------

  lemma {:induction false} ReplaceCharConcat(a: string, b: string, key: char, repl: string)
    ensures ReplaceChar(a + b, key, repl) == ReplaceChar(a, key, repl) + ReplaceChar(b, key, repl)
    decreases |b|
  {
    if b == [] {
      assert a + b == a;
    } else {
      var front, last := b[..|b| - 1], b[|b| - 1];
      var piece := if last == key then repl else [last];
      var ab := a + b;
      assert ab[..|ab| - 1] == a + front && ab[|ab| - 1] == last;
      ReplaceCharConcat(a, front, key, repl);
      calc {
        ReplaceChar(ab, key, repl);
        ReplaceChar(a + front, key, repl) + piece;
        ReplaceChar(a, key, repl) + ReplaceChar(front, key, repl) + piece;
        ReplaceChar(a, key, repl) + (ReplaceChar(front, key, repl) + piece);
      }
    }
  }

  lemma {:induction false} ReplaceCharAbsent(s: string, key: char, repl: string)
    requires key !in s
    ensures ReplaceChar(s, key, repl) == s
  {
    if s != [] {
      assert s[..|s| - 1] + [s[|s| - 1]] == s;
      ReplaceCharAbsent(s[..|s| - 1], key, repl);
    }
  }

  /** Appending an entry to the table changes only the characters no earlier entry covers. */
  lemma {:induction false} TranslateAppend(c: char, u: seq<(char, string)>, e: (char, string))
    ensures Translate(c, u + [e]) ==
            if IsKey(c, u) then Translate(c, u) else if c == e.0 then e.1 else [c]
  {
    if u == [] {
      assert u + [e] == [e];
      assert Translate(c, [e][1..]) == [c];
    } else {
      assert (u + [e])[1..] == u[1..] + [e];
      TranslateAppend(c, u[1..], e);
      if u[0].0 != c {
        assert IsKey(c, u[1..]) ==> IsKey(c, u) by {
          if IsKey(c, u[1..]) {
            var k :| 0 <= k < |u[1..]| && u[1..][k].0 == c;
            assert u[k + 1].0 == c;
          }
        }
        assert IsKey(c, u) ==> IsKey(c, u[1..]) by {
          if IsKey(c, u) {
            var k :| 0 <= k < |u| && u[k].0 == c;
            assert k != 0;
            assert u[1..][k - 1].0 == c;
          }
        }
      } else {
        assert IsKey(c, u) by { assert u[0].0 == c; }
      }
    }
  }

  /** A character some entry covers becomes that entry's text. */
  lemma {:induction false} TranslateIsValue(c: char, u: seq<(char, string)>)
    requires IsKey(c, u)
    ensures exists j :: 0 <= j < |u| && Translate(c, u) == u[j].1
  {
    if u[0].0 == c {
      assert Translate(c, u) == u[0].1;
    } else {
      var k :| 0 <= k < |u| && u[k].0 == c;
      assert u[1..][k - 1].0 == c;
      TranslateIsValue(c, u[1..]);
      var j :| 0 <= j < |u[1..]| && Translate(c, u[1..]) == u[1..][j].1;
      assert Translate(c, u) == u[j + 1].1;
    }
  }

  /** One more round of the replacement loop extends the simultaneous map by one table entry. */
  lemma {:induction false} ReplaceStep(s: string, t: seq<(char, string)>, i: int)
    requires 0 <= i < |t| && KeysNotInValues(t)
    ensures ReplaceChar(MapChars(s, t[..i]), t[i].0, t[i].1) == MapChars(s, t[..i + 1])
  {
    if s != [] {
      var p, c := s[..|s| - 1], s[|s| - 1];
      var u, e := t[..i], t[i];
      assert t[..i + 1] == u + [e];
      ReplaceStep(p, t, i);
      ReplaceCharConcat(MapChars(p, u), Translate(c, u), e.0, e.1);
      TranslateStep(c, t, i);
      calc {
        ReplaceChar(MapChars(s, u), e.0, e.1);
        ReplaceChar(MapChars(p, u) + Translate(c, u), e.0, e.1);
        ReplaceChar(MapChars(p, u), e.0, e.1) + ReplaceChar(Translate(c, u), e.0, e.1);
        MapChars(p, u + [e]) + Translate(c, u + [e]);
        MapChars(s, u + [e]);
      }
    }
  }

  /** On one character, a round of the loop does what the longer table does. */
  lemma TranslateStep(c: char, t: seq<(char, string)>, i: int)
    requires 0 <= i < |t| && KeysNotInValues(t)
    ensures ReplaceChar(Translate(c, t[..i]), t[i].0, t[i].1) == Translate(c, t[..i] + [t[i]])
  {
    var u, e := t[..i], t[i];
    TranslateAppend(c, u, e);
    if IsKey(c, u) {
      TranslateIsValue(c, u);
      var j :| 0 <= j < |u| && Translate(c, u) == u[j].1;
      assert e.0 !in t[j].1;
      ReplaceCharAbsent(Translate(c, u), e.0, e.1);
    } else {
      TranslateNonKey(c, u);
      assert [c][..0] == [];
    }
  }

  lemma ReplacementsWellFormed()
    ensures KeysNotInValues(Replacements)
  {
  }

  /** The loop `for old, new in replacements.items(): text = text.replace(old, new)`. */
  method ApplyReplacements(text: string) returns (r: string)
    ensures r == MapChars(text, Replacements)
  {
    ReplacementsWellFormed();
    r := text;
    var i := 0;
    assert MapChars(text, Replacements[..0]) == text by {
      MapCharsEmptyTable(text);
    }
    while i < |Replacements|
      invariant 0 <= i <= |Replacements|
      invariant r == MapChars(text, Replacements[..i])
    {
      ReplaceStep(text, Replacements, i);
      r := ReplaceChar(r, Replacements[i].0, Replacements[i].1);
      i := i + 1;
    }
    assert Replacements[..i] == Replacements;
  }

  lemma {:induction false} MapCharsEmptyTable(s: string)
    ensures MapChars(s, []) == s
  {
    if s != [] {
      MapCharsEmptyTable(s[..|s| - 1]);
      assert s[..|s| - 1] + [s[|s| - 1]] == s;
    }
  }

  /** sanitize_text, with its replacement loop. */
  method SanitizeText(text: Option<string>, stripAccents: string -> string) returns (r: Option<string>)
    ensures r == Sanitized(text, stripAccents)
  {
    if text == None || text.value == "" {
      return text;
    }
    var t := stripAccents(text.value);
    t := ApplyReplacements(t);
    return Some(Strip(Collapse(Printable(t))));
  }

  // ---------------------------------------------------------------------------
  // What the sanitiser guarantees
  // ---------------------------------------------------------------------------

  /** Dashes, curly quotes and the ellipsis become their ASCII forms. */
  lemma PunctuationReplaced(c: char)
    ensures c == '\U{2013}' || c == '\U{2014}' ==> Translate(c, Replacements) == "-"
    ensures c == '\U{2018}' || c == '\U{2019}' ==> Translate(c, Replacements) == "'"
    ensures c == '\U{201C}' || c == '\U{201D}' ==> Translate(c, Replacements) == "\""
    ensures c == '\U{2026}' ==> Translate(c, Replacements) == "..."
  {
    var k := if c == '\U{2013}' then 0 else if c == '\U{2014}' then 1
      else if c == '\U{2018}' then 2 else if c == '\U{2019}' then 3
      else if c == '\U{201C}' then 4 else if c == '\U{201D}' then 5 else 6;
    if Replacements[k].0 == c {
      TranslateFirst(c, Replacements, k);
    }
  }

  /** The non-breaking space, tab, line feed and carriage return become a space. */
  lemma SpacingReplaced(c: char)
    ensures c == '\U{00A0}' || c == '\t' || c == '\n' || c == '\r' ==> Translate(c, Replacements) == " "
  {
    var k := if c == '\U{00A0}' then 7 else if c == '\t' then 8 else if c == '\n' then 9 else 10;
    if Replacements[k].0 == c {
      TranslateFirst(c, Replacements, k);
    }
  }

  /** A character becomes the text of the first entry that covers it. */
  lemma {:induction false} TranslateFirst(c: char, u: seq<(char, string)>, k: int)
    requires 0 <= k < |u| && u[k].0 == c
    requires forall j :: 0 <= j < k ==> u[j].0 != c
    ensures Translate(c, u) == u[k].1
  {
    if k > 0 {
      TranslateFirst(c, u[1..], k - 1);
    }
  }

  /** A character no entry covers is kept as it is. */
  lemma {:induction false} TranslateNonKey(c: char, u: seq<(char, string)>)
    requires !IsKey(c, u)
    ensures Translate(c, u) == [c]
  {
    if u != [] {
      assert u[0].0 != c;
      assert !IsKey(c, u[1..]);
      TranslateNonKey(c, u[1..]);
    }
  }

  /** Printable ASCII passes through the replacements unchanged. */
  lemma PrintableKept(c: char)
    requires IsPrintableAscii(c)
    ensures Translate(c, Replacements) == [c]
  {
    assert !IsKey(c, Replacements);
    TranslateNonKey(c, Replacements);
  }

  /** In printable text, trimming the front drops only spaces. */
  lemma {:induction false} TrimLeftUnspaced(s: string)
    requires AllPrintable(s)
    ensures Unspaced(TrimLeft(s)) == Unspaced(s)
  {
    if s != [] && IsWhitespace(s[0]) {
      assert AllPrintable(s[1..]);
      PrintableWhitespaceIsSpace(s[0]);
      TrimLeftUnspaced(s[1..]);
    }
  }

  lemma {:induction false} UnspacedConcat(a: string, b: string)
    ensures Unspaced(a + b) == Unspaced(a) + Unspaced(b)
  {
    if a == [] {
      assert a + b == b;
    } else {
      assert (a + b)[1..] == a[1..] + b;
      UnspacedConcat(a[1..], b);
    }
  }

  /** In printable text, trimming the back drops only spaces. */
  lemma {:induction false} TrimRightUnspaced(s: string)
    requires AllPrintable(s)
    ensures Unspaced(TrimRight(s)) == Unspaced(s)
  {
    if s != [] && IsWhitespace(s[|s| - 1]) {
      var p := s[..|s| - 1];
      PrintableWhitespaceIsSpace(s[|s| - 1]);
      TrimRightUnspaced(p);
      assert s == p + [' '];
      UnspacedConcat(p, [' ']);
    }
  }

  /** Collapsing keeps the text printable, leaves no two spaces together, and keeps its first character. */
  lemma {:induction false} CollapseShape(s: string)
    requires AllPrintable(s)
    ensures var r := Collapse(s);
      AllPrintable(r) && NoDoubleSpace(r) && (r == [] <==> s == []) && (s != [] ==> r[0] == s[0])
    decreases |s|
  {
    if s != [] {
      assert AllPrintable(s[1..]);
      if IsWhitespace(s[0]) {
        PrintableWhitespaceIsSpace(s[0]);
        var t := TrimLeft(s[1..]);
        SuffixKeepsPrintable(s[1..], |s[1..]| - |t|);
        CollapseShape(t);
        assert t == [] || t[0] != ' ';
        assert Collapse(s) == [' '] + Collapse(t);
        ConsKeepsShape(' ', Collapse(t));
      } else {
        CollapseShape(s[1..]);
        assert Collapse(s) == [s[0]] + Collapse(s[1..]);
        ConsKeepsShape(s[0], Collapse(s[1..]));
      }
    }
  }

  /** Collapsing changes only spacing. */
  lemma {:induction false} CollapseUnspaced(s: string)
    requires AllPrintable(s)
    ensures Unspaced(Collapse(s)) == Unspaced(s)
    decreases |s|
  {
    if s != [] {
      assert AllPrintable(s[1..]);
      if IsWhitespace(s[0]) {
        PrintableWhitespaceIsSpace(s[0]);
        var t := TrimLeft(s[1..]);
        TrimLeftUnspaced(s[1..]);
        assert AllPrintable(t);
        CollapseUnspaced(t);
      } else {
        CollapseUnspaced(s[1..]);
      }
    }
  }

  /** Text with no two spaces together is left as it is. */
  lemma {:induction false} CollapseIdentity(s: string)
    requires AllPrintable(s) && NoDoubleSpace(s)
    ensures Collapse(s) == s
    decreases |s|
  {
    if s != [] {
      assert AllPrintable(s[1..]) && NoDoubleSpace(s[1..]);
      if IsWhitespace(s[0]) {
        PrintableWhitespaceIsSpace(s[0]);
        if s[1..] != [] {
          assert s[1..][0] == s[1];
          PrintableWhitespaceIsSpace(s[1]);
        }
        assert TrimLeft(s[1..]) == s[1..];
        CollapseIdentity(s[1..]);
        assert s == " " + s[1..];
      } else {
        CollapseIdentity(s[1..]);
        assert s == [s[0]] + s[1..];
      }
    }
  }

  /** Stripping printable text with no two spaces together leaves it without spaces at the ends. */
  lemma StripShape(s: string)
    requires AllPrintable(s) && NoDoubleSpace(s)
    ensures var r := Strip(s);
      AllPrintable(r) && NoDoubleSpace(r) && NoOuterSpace(r)
  {
    var l := TrimLeft(s);
    SuffixKeepsShape(s, |s| - |l|);
    var r := TrimRight(l);
    PrefixKeepsShape(l, |r|);
    if r != [] {
      assert r[0] == l[0];
    }
  }

  lemma SuffixKeepsPrintable(s: string, i: int)
    requires AllPrintable(s) && 0 <= i <= |s|
    ensures AllPrintable(s[i..])
  {
    assert forall k :: 0 <= k < |s| - i ==> s[i..][k] == s[i + k];
  }

  lemma SuffixKeepsShape(s: string, i: int)
    requires AllPrintable(s) && NoDoubleSpace(s) && 0 <= i <= |s|
    ensures AllPrintable(s[i..]) && NoDoubleSpace(s[i..])
  {
    assert forall k :: 0 <= k < |s| - i ==> s[i..][k] == s[i + k];
  }

  lemma PrefixKeepsShape(s: string, j: int)
    requires AllPrintable(s) && NoDoubleSpace(s) && 0 <= j <= |s|
    ensures AllPrintable(s[..j]) && NoDoubleSpace(s[..j])
  {
    assert forall k :: 0 <= k < j ==> s[..j][k] == s[k];
  }

  /** A printable character in front of a spaced text keeps it well spaced unless both are spaces. */
  lemma ConsKeepsShape(c: char, r: string)
    requires IsPrintableAscii(c) && AllPrintable(r) && NoDoubleSpace(r)
    requires c != ' ' || r == [] || r[0] != ' '
    ensures AllPrintable([c] + r) && NoDoubleSpace([c] + r)
  {
    var cr := [c] + r;
    assert forall k :: 1 <= k < |cr| ==> cr[k] == r[k - 1];
  }

  /** Stripping printable text drops only spaces. */
  lemma StripUnspaced(s: string)
    requires AllPrintable(s)
    ensures Unspaced(Strip(s)) == Unspaced(s)
  {
    TrimLeftUnspaced(s);
    var l := TrimLeft(s);
    assert AllPrintable(l);
    TrimRightUnspaced(l);
  }

  /** Printable text with no space at either end is not changed by stripping. */
  lemma StripIdentity(s: string)
    requires AllPrintable(s) && NoOuterSpace(s)
    ensures Strip(s) == s
  {
    if s != [] {
      PrintableWhitespaceIsSpace(s[0]);
      PrintableWhitespaceIsSpace(s[|s| - 1]);
      assert TrimLeft(s) == s;
    }
  }

  /**
   * The cleaned text is printable ASCII with no space at either end and
   * no two spaces together, and it keeps every non-space character of the
   * replaced and filtered text, in order: only spacing changes.
   */
  lemma CleanedShape(s: string)
    ensures var r := Cleaned(s);
      AllPrintable(r) && NoDoubleSpace(r) && NoOuterSpace(r) &&
      Unspaced(r) == Unspaced(Printable(MapChars(s, Replacements)))
  {
    var p := Printable(MapChars(s, Replacements));
    CollapseShape(p);
    CollapseUnspaced(p);
    StripShape(Collapse(p));
    StripUnspaced(Collapse(p));
  }

  lemma {:induction false} MapCharsPrintableIdentity(s: string)
    requires AllPrintable(s)
    ensures MapChars(s, Replacements) == s
  {
    if s != [] {
      assert AllPrintable(s[..|s| - 1]);
      MapCharsPrintableIdentity(s[..|s| - 1]);
      PrintableKept(s[|s| - 1]);
      assert s[..|s| - 1] + [s[|s| - 1]] == s;
    }
  }

  /**
   * Cleaning a text that is already clean changes nothing. Sanitising twice
   * also runs the accent-stripping step again, which SanitizedIdempotent
   * below deals with.
   */
  lemma CleanedIdempotent(s: string)
    ensures Cleaned(Cleaned(s)) == Cleaned(s)
  {
    var r := Cleaned(s);
    CleanedShape(s);
    MapCharsPrintableIdentity(r);
    assert Printable(r) == r;
    CollapseIdentity(r);
    StripIdentity(r);
  }

  /**
   * Sanitising twice is sanitising once, given that stripping accents leaves
   * printable ASCII alone (its decomposition is itself and it has no
   * combining marks).
   */
  lemma SanitizedIdempotent(text: Option<string>, stripAccents: string -> string)
    requires forall t :: AllPrintable(t) ==> stripAccents(t) == t
    ensures Sanitized(Sanitized(text, stripAccents), stripAccents) == Sanitized(text, stripAccents)
  {
    if text.Some? && text.value != "" {
      var r := Cleaned(stripAccents(text.value));
      if r != "" {
        assert stripAccents(r) == r;
        CleanedIdempotent(stripAccents(text.value));
      }
    }
  }

  /** Falsy input is returned unchanged; anything else comes back cleaned. */
  lemma SanitizedCases(text: Option<string>, stripAccents: string -> string)
    ensures text == None ==> Sanitized(text, stripAccents) == None
    ensures text == Some("") ==> Sanitized(text, stripAccents) == Some("")
    ensures text.Some? && text.value != "" ==>
      Sanitized(text, stripAccents).Some? && AllPrintable(Sanitized(text, stripAccents).value) &&
      NoOuterSpace(Sanitized(text, stripAccents).value) && NoDoubleSpace(Sanitized(text, stripAccents).value)
  {
    if text.Some? && text.value != "" {
      CleanedShape(stripAccents(text.value));
    }
  }

  // ---------------------------------------------------------------------------
  // The file filters of the scan
  // ---------------------------------------------------------------------------

  /**
   * should_skip_file, check by check. Every special case is a hidden name,
   * so a file is skipped exactly when its name starts with '.'.
   */
  function ShouldSkipFile(name: string): (r: bool)
    ensures r <==> "." <= name
  {
    if "._" <= name then assert name[..1] == "._"[..1]; true
    else if name == ".DS_Store" then true
    else if name == ".Spotlight-V100" then true
    else if name == ".Trashes" then true
    else if "." <= name then true
    else false
  }

  /** ASCII lower-casing; other characters are kept. */
  function Lower(s: string): (r: string)
    ensures |r| == |s|
  {
    seq(|s|, i requires 0 <= i < |s| => if 'A' <= s[i] <= 'Z' then (s[i] as int + 32) as char else s[i])
  }

  predicate EndsWith(s: string, suffix: string) {
    |suffix| <= |s| && s[|s| - |suffix|..] == suffix
  }

  /** `name.lower().endswith('.mp3')`: the name ends in '.', a digit 3 and a letter p and m between them. */
  function IsMp3(name: string): (r: bool)
    ensures r ==> |name| >= 4 && name[|name| - 4] == '.' && name[|name| - 1] == '3'
  {
    var l := Lower(name);
    if |l| >= 4 then
      assert l[|l| - 4..] == [l[|l| - 4], l[|l| - 3], l[|l| - 2], l[|l| - 1]];
      EndsWith(l, ".mp3")
    else EndsWith(l, ".mp3")
  }

  /** A file is collected when no directory on its way is hidden, it is not skipped, and it is an mp3. */
  function Collected(dirs: seq<string>, name: string): (r: bool)
    ensures r ==> IsMp3(name) && !("." <= name)
    ensures "." <= name ==> !r
  {
    (forall k :: 0 <= k < |dirs| ==> !("." <= dirs[k])) && !ShouldSkipFile(name) && IsMp3(name)
  }

  /** The mp3 test is the last four characters read without case: '.', 'm' or 'M', 'p' or 'P', '3'. */
  lemma IsMp3Letters(name: string)
    ensures IsMp3(name) <==>
      |name| >= 4 && name[|name| - 4] == '.' &&
      (name[|name| - 3] == 'm' || name[|name| - 3] == 'M') &&
      (name[|name| - 2] == 'p' || name[|name| - 2] == 'P') &&
      name[|name| - 1] == '3'
  {
    if |name| >= 4 {
      var l := Lower(name);
      assert l[|l| - 4..] == [l[|l| - 4], l[|l| - 3], l[|l| - 2], l[|l| - 1]];
    }
  }

  /** A collected file is an mp3 whose name and directories are none of them hidden. */
  lemma CollectedFiles(dirs: seq<string>, name: string)
    ensures Collected(dirs, name) ==>
      name != [] && name[0] != '.' && |name| >= 4 && name[|name| - 1] == '3' &&
      forall k :: 0 <= k < |dirs| ==> dirs[k] == [] || dirs[k][0] != '.'
    ensures "." <= name ==> !Collected(dirs, name)
  {
    IsMp3Letters(name);

  }

  // ---------------------------------------------------------------------------
  // Paths and track numbers
  // ---------------------------------------------------------------------------

  /** Components joined with '/'. */
  function Join(parts: seq<string>): string {
    if parts == [] then ""
    else if |parts| == 1 then parts[0]
    else parts[0] + "/" + Join(parts[1..])
  }

  /** str.split('/'): the pieces between slashes, at least one. */
  function Split(s: string): (r: seq<string>)
    ensures |r| >= 1
  {
    if s == [] then [""]
    else
      var rest := Split(s[1..]);
      if s[0] == '/' then [""] + rest
      else [[s[0]] + rest[0]] + rest[1..]
  }

  /** The path stored for a song: "Music/" and its path below the scanned folder. */
  function StoredPath(relative: seq<string>): (r: string)
    ensures "Music/" <= r
  {
    "Music/" + Join(relative)
  }

  lemma {:induction false} SplitSlashFree(w: string, t: string)
    requires '/' !in w
    ensures Split(w + t) == [w + Split(t)[0]] + Split(t)[1..]
  {
    if w != [] {
      assert (w + t)[1..] == w[1..] + t;
      SplitSlashFree(w[1..], t);
      assert [w[0]] + (w[1..] + Split(t)[0]) == w + Split(t)[0];
    } else {
      assert w + t == t;
      assert w + Split(t)[0] == Split(t)[0];
      assert Split(t) == [Split(t)[0]] + Split(t)[1..];
    }
  }

  /** Splitting a joined path gives back its components, when none is empty of meaning for '/'. */
  lemma {:induction false} SplitJoin(parts: seq<string>)
    requires |parts| >= 1 && forall k :: 0 <= k < |parts| ==> '/' !in parts[k]
    ensures Split(Join(parts)) == parts
  {
    if |parts| == 1 {
      SplitSlashFree(parts[0], "");
      assert parts[0] + "" == parts[0];
    } else {
      var rest := Join(parts[1..]);
      SplitJoin(parts[1..]);
      assert parts[0] + "/" + rest == parts[0] + ("/" + rest);
      SplitSlashFree(parts[0], "/" + rest);
      assert ("/" + rest)[1..] == rest;
      assert Split("/" + rest) == [""] + parts[1..];
      assert parts[0] + "" == parts[0];
      assert parts == [parts[0]] + parts[1..];
    }
  }

  /** The stored path starts with "Music/", and what follows it splits back into the relative path. */
  lemma StoredPathShape(relative: seq<string>)
    requires |relative| >= 1 && forall k :: 0 <= k < |relative| ==> '/' !in relative[k]
    ensures var p := StoredPath(relative);
      "Music/" <= p && Split(p[6..]) == relative
  {
    var p := StoredPath(relative);
    assert p[6..] == Join(relative);
    SplitJoin(relative);
  }

  predicate IsDigit(c: char) {
    '0' <= c <= '9'
  }

  predicate AllDigits(s: string) {
    forall i :: 0 <= i < |s| ==> IsDigit(s[i])
  }

  /** The value of a string of decimal digits. */
  function DigitsValue(s: string): nat
    requires AllDigits(s)
  {
    if s == [] then 0 else DigitsValue(s[..|s| - 1]) * 10 + (s[|s| - 1] as int - '0' as int)
  }

  /** `t` without one leading sign character. */
  function Unsigned(t: string): string {
    if t != [] && (t[0] == '-' || t[0] == '+') then t[1..] else t
  }

  /** What int() accepts: after stripping, an optional sign followed by one or more digits. */
  predicate IntText(s: string) {
    Unsigned(Strip(s)) != [] && AllDigits(Unsigned(Strip(s)))
  }

  /** int(s) for a decimal string: surrounding whitespace, an optional sign, one or more digits. */
  function ParseInt(s: string): (r: Option<int>)
    ensures r.Some? <==> IntText(s)
    ensures Strip(s) == [] ==> r == None
    ensures Strip(s) != [] && AllDigits(Strip(s)) ==> r == Some(DigitsValue(Strip(s)))
    ensures r.Some? && Strip(s)[0] == '-' ==> r.value <= 0
    ensures r.Some? && Strip(s)[0] != '-' ==> r.value >= 0
    ensures r.Some? ==> r.value == (if Strip(s)[0] == '-' then -1 else 1) * DigitsValue(Unsigned(Strip(s)))
  {
    var t := Strip(s);
    var body := Unsigned(t);
    if body == [] || !AllDigits(body) then None
    else if t[0] == '-' then Some(-(DigitsValue(body) as int))
    else Some(DigitsValue(body))
  }

  /** The track number of a tag such as "3" or "3/12"; a missing tag reads as "0", an unparsable one as 0. */
  function TrackNumber(tag: Option<string>): (r: int)
    ensures tag.Some? && !IntText(Split(tag.value)[0]) ==> r == 0
    ensures tag.Some? && ParseInt(Split(tag.value)[0]).Some? ==> r == ParseInt(Split(tag.value)[0]).value
  {
    var text := if tag == None then "0" else tag.value;
    match ParseInt(Split(text)[0])
    case None => 0
    case Some(n) => n
  }

  /** The decimal digits of `n`. */
  function Decimal(n: nat): (r: string)
    ensures AllDigits(r) && r != []
  {
    if n < 10 then [('0' as int + n) as char]
    else Decimal(n / 10) + [('0' as int + n % 10) as char]
  }

  lemma {:induction false} DecimalValue(n: nat)
    ensures DigitsValue(Decimal(n)) == n
  {
    if n >= 10 {
      DecimalValue(n / 10);
      var d := Decimal(n);
      assert d[..|d| - 1] == Decimal(n / 10);
    }
  }

  /** A track tag written as a number, alone or over a total, reads back as that number. */
  lemma TrackNumberRoundTrip(n: nat, total: string)
    ensures TrackNumber(Some(Decimal(n))) == n
    ensures TrackNumber(Some(Decimal(n) + "/" + total)) == n
  {
    var d := Decimal(n);
    DecimalParses(n);
    assert '/' !in d by {
      forall i | 0 <= i < |d| ensures d[i] != '/' { assert IsDigit(d[i]); }
    }
    SplitSlashFree(d, "");
    assert d + "" == d;
    assert Split("") == [""];
    assert d + "/" + total == d + ("/" + total);
    SplitSlashFree(d, "/" + total);
    assert Split("/" + total)[0] == "";
  }

  /** int() reads the decimal digits of `n` back as `n`. */
  lemma DecimalParses(n: nat)
    ensures ParseInt(Decimal(n)) == Some(n)
  {
    DecimalValue(n);
    DigitsParse(Decimal(n));
  }

  /** int() reads a signed number: "-n" as -n and "+n" as n. */
  lemma SignedDecimalParses(sign: char, n: nat)
    requires sign == '-' || sign == '+'
    ensures ParseInt([sign] + Decimal(n)) == Some(if sign == '-' then -(n as int) else n as int)
  {
    var d := Decimal(n);
    var t := [sign] + d;
    DecimalValue(n);
    assert IsDigit(t[|t| - 1]);
    StripsToItself(t);
    assert t[0] == sign && t[1..] == d;
    assert Unsigned(Strip(t)) == d;
    assert IntText(t);
  }

  /** A signed track tag, alone or over a total, reads back as its signed value. */
  lemma SignedTrackNumberRoundTrip(sign: char, n: nat, rest: string)
    requires sign == '-' || sign == '+'
    requires rest == [] || rest[0] == '/'
    ensures TrackNumber(Some([sign] + Decimal(n) + rest)) == if sign == '-' then -(n as int) else n as int
  {
    var field := [sign] + Decimal(n);
    SignedDecimalParses(sign, n);
    DigitsSlashFree(Decimal(n));
    assert '/' !in field;
    SplitSlashFree(field, rest);
    assert Split(rest)[0] == [];
    assert field + Split(rest)[0] == field;
    assert Split(field + rest)[0] == field;
  }

  /** int() reads a plain string of digits as its value. */
  lemma DigitsParse(d: string)
    requires d != [] && AllDigits(d)
    ensures ParseInt(d) == Some(DigitsValue(d))
  {
    assert IsDigit(d[0]) && IsDigit(d[|d| - 1]);
    var l := TrimLeft(d);
    assert l == d;
    assert TrimRight(l) == d;
  }

  /** A missing tag, an empty one, or one that does not start with a number reads as track 0. */
  lemma TrackNumberFallback(tag: Option<string>)
    ensures TrackNumber(None) == 0
    ensures TrackNumber(Some("")) == 0
    ensures tag.Some? && tag.value != [] && tag.value[0] == '/' ==> TrackNumber(tag) == 0
  {
    MissingTagReadsZero();
    var none: string := [];
    assert Strip(none) == [];
    UnparsableFieldReadsZero(none, none);
    assert none + none == "";
    if tag.Some? && tag.value != [] && tag.value[0] == '/' {
      SlashFirstReadsZero(tag.value);
    }
  }

  /** A tag starting with '/' has an empty first field, so it reads as track 0. */
  lemma SlashFirstReadsZero(text: string)
    requires text != [] && text[0] == '/'
    ensures TrackNumber(Some(text)) == 0
  {
    var field := Split(text)[0];
    assert field == [];
    assert Strip(field) == [] && Unsigned(field) == [];
    assert !IntText(field);
  }

  /** A missing tag is read as "0", which is track 0. */
  lemma MissingTagReadsZero()
    ensures TrackNumber(None) == 0
  {
    var zero := Decimal(0);
    assert zero == "0";
    DecimalParses(0);
    var none: string := [];
    SplitSlashFree(zero, none);
    assert zero + none == zero;
  }


  /** A tag whose first '/'-field is not a signed number reads as track 0. */
  lemma UnparsableFieldReadsZero(field: string, rest: string)
    requires '/' !in field && (rest == [] || rest[0] == '/')
    requires !IntText(field)
    ensures TrackNumber(Some(field + rest)) == 0
  {
    var text := field + rest;
    SplitSlashFree(field, rest);
    assert Split(rest)[0] == [];
    assert field + Split(rest)[0] == field;
    assert Split(text)[0] == field;
    assert !IntText(Split(text)[0]);
  }


  /** Surrounding whitespace aside, text that starts and ends with a printable non-space character strips to itself. */
  lemma StripsToItself(t: string)
    requires t != [] && !IsWhitespace(t[0]) && !IsWhitespace(t[|t| - 1])
    ensures Strip(t) == t
  {
  }

  lemma DigitsSlashFree(digits: string)
    requires AllDigits(digits)
    ensures '/' !in digits
  {
  }

  /** Digits followed by a letter are not a number: "3a" or "3a/12" reads as track 0. */
  lemma TrailingLetterReadsZero(digits: string, letter: char, rest: string)
    requires digits != [] && AllDigits(digits) && 'a' <= letter <= 'z'
    requires rest == [] || rest[0] == '/'
    ensures TrackNumber(Some(digits + [letter] + rest)) == 0
  {
    var f := digits + [letter];
    assert IsDigit(f[0]);
    StripsToItself(f);
    assert Unsigned(f) == f && f[|f| - 1] == letter;
    DigitsSlashFree(digits);
    assert '/' !in f;
    UnparsableFieldReadsZero(f, rest);
  }

  /** A doubled sign is not a number: "--3" or "++3" reads as track 0. */
  lemma DoubledSignReadsZero(sign: char, digits: string)
    requires sign == '-' || sign == '+'
    requires digits != [] && AllDigits(digits)
    ensures TrackNumber(Some([sign, sign] + digits)) == 0
  {
    var f := [sign, sign] + digits;
    assert IsDigit(f[|f| - 1]);
    StripsToItself(f);
    var u := f[1..];
    assert Unsigned(f) == u;
    assert u[0] == sign && !IsDigit(u[0]);
    DigitsSlashFree(digits);
    assert '/' !in f;
    var none: string := [];
    UnparsableFieldReadsZero(f, none);
    assert f + none == f;
  }
}
