/** POSIX shell words: `shlex.join` (quoting of section 2.2.2 of POSIX.1-2017 XCU) and the
    character automaton of `shlex.split`. */
module Shlex {
  import opened Outcomes
  import opened Text

  predicate IsSafe(c: char) {
    || 'a' <= c <= 'z' || 'A' <= c <= 'Z' || '0' <= c <= '9'
    || c in "_@%+=:,./-"
  }

  predicate AllSafe(s: string) { forall i :: 0 <= i < |s| ==> IsSafe(s[i]) }

  const QUOTE_IN_QUOTES := "'\"'\"'"

  function Quote(s: string): string {
    if s == "" then "''"
    else if AllSafe(s) then s
    else "'" + ReplaceChar(s, '\'', QUOTE_IN_QUOTES) + "'"
  }

  function QuoteAll(words: seq<string>): (r: seq<string>)
    ensures |r| == |words|
    ensures forall i :: 0 <= i < |words| ==> r[i] == Quote(words[i])
  {
    if words == [] then [] else [Quote(words[0])] + QuoteAll(words[1..])
  }

  /** `shlex.join`. */
  function JoinWords(words: seq<string>): string { JoinWithSpaces(QuoteAll(words)) }

  predicate IsBlank(c: char) { c in " \t\r\n" }

  /** The automaton's states: between words, inside a bare word, inside quotes, after a
      backslash (remembering whether double quotes are open). */
  datatype Mode = Between | Bare | Single | Double | Escaped(inDouble: bool)

  /** Reads the rest of the text; `quoted` says that the open word had a quoted part. */
  function Scan(s: string, mode: Mode, quoted: bool, word: string): Option<seq<string>>
    decreases |s|
  {
    if s == "" then
      match mode
      case Between => Some([])
      case Bare => if word == "" && !quoted then Some([]) else Some([word])
      case _ => None
    else
      var c, rest := s[0], s[1..];
      match mode
      case Between =>
        if IsBlank(c) then Scan(rest, Between, false, "")
        else if c == '\\' then Scan(rest, Escaped(false), false, "")
        else if c == '\'' then Scan(rest, Single, false, "")
        else if c == '"' then Scan(rest, Double, false, "")
        else Scan(rest, Bare, false, [c])
      case Bare =>
        if IsBlank(c) then
          if word == "" && !quoted then Scan(rest, Between, false, "")
          else
            match Scan(rest, Between, false, "")
            case None => None
            case Some(words) => Some([word] + words)
        else if c == '\\' then Scan(rest, Escaped(false), quoted, word)
        else if c == '\'' then Scan(rest, Single, quoted, word)
        else if c == '"' then Scan(rest, Double, quoted, word)
        else Scan(rest, Bare, quoted, word + [c])
      case Single =>
        if c == '\'' then Scan(rest, Bare, true, word) else Scan(rest, Single, true, word + [c])
      case Double =>
        if c == '"' then Scan(rest, Bare, true, word)
        else if c == '\\' then Scan(rest, Escaped(true), true, word)
        else Scan(rest, Double, true, word + [c])
      case Escaped(inDouble) =>
        var kept := if inDouble && c != '\\' && c != '"' then word + ['\\'] else word;
        Scan(rest, if inDouble then Double else Bare, quoted, kept + [c])
  }

  /** `shlex.split`; `None` is its `ValueError`. */
  function SplitWords(s: string): Option<seq<string>> { Scan(s, Between, false, "") }

  lemma {:induction false} ScanSafeRun(x: string, rest: string, quoted: bool, word: string)
    requires AllSafe(x)
    ensures Scan(x + rest, Bare, quoted, word) == Scan(rest, Bare, quoted, word + x)
    decreases x
  {
    if x == "" {
      assert x + rest == rest && word + x == word;
    } else {
      assert (x + rest)[1..] == x[1..] + rest;
      assert IsSafe(x[0]);
      ScanSafeRun(x[1..], rest, quoted, word + [x[0]]);
      assert word + [x[0]] + x[1..] == word + x;
    }
  }

  lemma ScanQuoteInQuotes(rest: string, word: string)
    ensures Scan(QUOTE_IN_QUOTES + rest, Single, true, word) == Scan(rest, Single, true, word + "'")
  {
    var s := QUOTE_IN_QUOTES + rest;
    assert s[0] == '\'' && s[1] == '"' && s[2] == '\'' && s[3] == '"' && s[4] == '\'';
    assert s[1..][1..] == s[2..] && s[2..][1..] == s[3..] && s[3..][1..] == s[4..] && s[4..][1..] == rest;
    assert Scan(s, Single, true, word) == Scan(s[1..], Bare, true, word);
    assert Scan(s[1..], Bare, true, word) == Scan(s[2..], Double, true, word);
    assert Scan(s[2..], Double, true, word) == Scan(s[3..], Double, true, word + "'");
    assert Scan(s[3..], Double, true, word + "'") == Scan(s[4..], Bare, true, word + "'");
  }

  lemma {:induction false} ScanQuotedRun(x: string, rest: string, word: string)
    ensures Scan(ReplaceChar(x, '\'', QUOTE_IN_QUOTES) + rest, Single, true, word)
         == Scan(rest, Single, true, word + x)
    decreases x
  {
    var body := ReplaceChar(x, '\'', QUOTE_IN_QUOTES);
    if x == "" {
      assert body + rest == rest && word + x == word;
    } else {
      var tail := ReplaceChar(x[1..], '\'', QUOTE_IN_QUOTES) + rest;
      assert word + [x[0]] + x[1..] == word + x;
      if x[0] == '\'' {
        assert body + rest == QUOTE_IN_QUOTES + tail;
        ScanQuoteInQuotes(tail, word);
      } else {
        assert body + rest == [x[0]] + tail && (body + rest)[1..] == tail;
      }
      ScanQuotedRun(x[1..], rest, word + [x[0]]);
    }
  }

  lemma ScanBareWord(x: string, rest: string)
    requires x != "" && AllSafe(x)
    ensures Scan(x + rest, Between, false, "") == Scan(rest, Bare, false, x)
  {
    assert IsSafe(x[0]);
    assert (x + rest)[1..] == x[1..] + rest;
    ScanSafeRun(x[1..], rest, false, [x[0]]);
    assert [x[0]] + x[1..] == x;
  }

  lemma ScanQuotedWord(x: string, rest: string)
    requires x != ""
    ensures Scan("'" + ReplaceChar(x, '\'', QUOTE_IN_QUOTES) + "'" + rest, Between, false, "") == Scan(rest, Bare, true, x)
  {
    var body := ReplaceChar(x, '\'', QUOTE_IN_QUOTES);
    assert ("'" + body + "'" + rest)[1..] == body + ("'" + rest);
    ScanQuotedRunFromOpening(x, rest);
  }

  lemma ScanEmptyWord(rest: string)
    ensures Scan("''" + rest, Between, false, "") == Scan(rest, Bare, true, "")
  {
    var s := "''" + rest;
    assert s[1..] == "'" + rest && s[1..][1..] == rest;
  }

  /** Between words, a quoted word is consumed whole, whatever follows it. */
  lemma ScanWord(x: string, rest: string) returns (quoted: bool)
    ensures x == "" ==> quoted
    ensures Scan(Quote(x) + rest, Between, false, "") == Scan(rest, Bare, quoted, x)
  {
    if x == "" {
      ScanEmptyWord(rest);
      quoted := true;
    } else if AllSafe(x) {
      ScanBareWord(x, rest);
      quoted := false;
    } else {
      ScanQuotedWord(x, rest);
      quoted := true;
    }
  }

  /** Just after the opening quote no character has marked the word as quoted yet. */
  lemma ScanQuotedRunFromOpening(x: string, rest: string)
    requires x != ""
    ensures Scan(ReplaceChar(x, '\'', QUOTE_IN_QUOTES) + ("'" + rest), Single, false, "") == Scan(rest, Bare, true, x)
  {
    var s := ReplaceChar(x, '\'', QUOTE_IN_QUOTES) + ("'" + rest);
    assert s != "" && Scan(s, Single, false, "") == Scan(s, Single, true, "");
    ScanQuotedRun(x, "'" + rest, "");
    assert "" + x == x && ("'" + rest)[1..] == rest;
  }

  /** Splitting the joined words gives the words back, for every list of every string. */
  lemma {:induction false} SplitOfJoin(words: seq<string>)
    ensures SplitWords(JoinWords(words)) == Some(words)
    decreases words
  {
    if words != [] {
      var quotedWords := QuoteAll(words);
      if |words| == 1 {
        assert JoinWords(words) == Quote(words[0]) + "";
        var quoted := ScanWord(words[0], "");
        assert words == [words[0]];
      } else {
        var rest := " " + JoinWords(words[1..]);
        assert quotedWords[1..] == QuoteAll(words[1..]);
        assert JoinWords(words) == Quote(words[0]) + rest;
        var quoted := ScanWord(words[0], rest);
        assert rest[1..] == JoinWords(words[1..]);
        SplitOfJoin(words[1..]);
        assert [words[0]] + words[1..] == words;
      }
    }
  }

  /** Quoting multiplies the length by at most five and adds two quotes. */
  lemma {:induction false} QuoteLength(s: string)
    ensures |ReplaceChar(s, '\'', QUOTE_IN_QUOTES)| <= 5 * |s|
    ensures |Quote(s)| <= 5 * |s| + 2
    decreases s
  {
    if s != "" { QuoteLength(s[1..]); }
  }

  // -------------------------------------------------------------- known values

  /** A word is printed as it is exactly when it is not empty and all its characters are letters,
      digits or one of ten harmless signs. */
  lemma SafeWordsStayBare(word: string)
    ensures Quote(word) == word <==> word != "" && forall i :: 0 <= i < |word| ==>
      'a' <= word[i] <= 'z' || 'A' <= word[i] <= 'Z' || '0' <= word[i] <= '9' || word[i] in {'_', '@', '%', '+', '=', ':', ',', '.', '/', '-'}
  {
    forall i | 0 <= i < |word| ensures IsSafe(word[i]) <==>
      'a' <= word[i] <= 'z' || 'A' <= word[i] <= 'Z' || '0' <= word[i] <= '9' || word[i] in {'_', '@', '%', '+', '=', ':', ',', '.', '/', '-'}
    {
    }
    if word != "" && !AllSafe(word) { LongerQuoted(word); }
  }

  lemma LongerQuoted(word: string)
    ensures |"'" + ReplaceChar(word, '\'', QUOTE_IN_QUOTES) + "'"| > |word|
  {
    ReplacedIsLonger(word);
  }

  lemma {:induction false} ReplacedIsLonger(word: string)
    ensures |ReplaceChar(word, '\'', QUOTE_IN_QUOTES)| >= |word|
    decreases word
  {
    if word != "" { ReplacedIsLonger(word[1..]); }
  }

  /** Outside quotes a backslash takes the next character as it is. */
  lemma EscapeTakesOneCharacter(c: char)
    ensures SplitWords("\\" + [c]) == Some([[c]])
  {
    var s := "\\" + [c];
    var t, word := [c], "" + [c];
    assert s[0] == '\\' && s[1..] == t && t[0] == c && t[1..] == "" && word == [c] && word != "";
    assert Scan("", Bare, false, word) == Some([word]);
    assert Scan(t, Escaped(false), false, "") == Scan("", Bare, false, word);
    assert Scan(s, Between, false, "") == Scan(t, Escaped(false), false, "");
  }

  /** In double quotes it takes a double quote or a backslash, and else stands for itself. */
  lemma EscapeInDoubleQuotes(c: char)
    ensures SplitWords("\"\\" + [c] + "\"") == Some([if c == '\\' || c == '"' then [c] else ['\\', c]])
  {
    var s, t, u := "\"\\" + [c] + "\"", "\\" + [c] + "\"", [c] + "\"";
    var word := if c == '\\' || c == '"' then [c] else ['\\', c];
    assert s[0] == '"' && s[1..] == t && t[0] == '\\' && t[1..] == u && u[0] == c && u[1..] == "\"";
    assert "" + ['\\'] + [c] == ['\\', c] && "" + [c] == [c];
    ClosingQuote(word);
    assert Scan(u, Escaped(true), true, "") == Scan("\"", Double, true, word);
    assert Scan(t, Double, false, "") == Scan(u, Escaped(true), true, "");
    assert Scan(s, Between, false, "") == Scan(t, Double, false, "");
  }

  lemma ClosingQuote(word: string)
    ensures Scan("\"", Double, true, word) == Some([word])
  {
    assert "\""[1..] == "" && Scan("", Bare, true, word) == Some([word]);
  }
}
