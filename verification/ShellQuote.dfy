/** Turning a command and its arguments into one string for `sh -c`, against the quoting
    rules of the POSIX.1-2017 Shell Command Language. */
module ShellQuote {
  import opened Text
  import opened Seqs

  // ----- Quoting

  /** Each single quote becomes: close, an escaped quote, open again. */
  function Escape(s: string): string {
    if s == "" then ""
    else (if s[0] == '\'' then "'\\''" else [s[0]]) + Escape(s[1..])
  }

  function Quote(s: string): string {
    "'" + Escape(s) + "'"
  }

  function Join(parts: seq<string>): string {
    if parts == [] then ""
    else if |parts| == 1 then parts[0]
    else parts[0] + " " + Join(parts[1..])
  }

  function Quotes(words: seq<string>): seq<string> {
    if words == [] then [] else [Quote(words[0])] + Quotes(words[1..])
  }

  // ----- The shell's reading

  predicate IsBlank(c: char) {
    c == ' ' || c == '\t'
  }

  /** Unquoted, these end a word, expand, or start something other than a word. */
  predicate IsSpecial(c: char) {
    c in {'|', '&', ';', '<', '>', '(', ')', '$', '`', '"', '\n', '*', '?', '[', '#', '~', '=', '%', '!', '{', '}'}
  }

  datatype Mode = Between | InWord(acc: string) | InQuotes(acc: string)

  /** Token recognition (section 2.3) of plain words. A backslash outside quotes makes the
      next character literal, or joins two lines (2.2.1); between single quotes everything
      is literal (2.2.2). `None` when a quote or escape is left open, or when the text is
      more than plain words. */
  function Lex(s: string, mode: Mode): Option<seq<string>>
    decreases |s|, if mode.Between? then 1 else 0
  {
    match mode
    case Between =>
      if s == "" then Some([])
      else if IsBlank(s[0]) then Lex(s[1..], Between)
      else if |s| > 1 && s[..2] == "\\\n" then Lex(s[2..], Between)
      else Lex(s, InWord(""))
    case InWord(acc) =>
      if s == "" then Some([acc])
      else if IsBlank(s[0]) then
        (match Lex(s[1..], Between)
         case None => None
         case Some(words) => Some([acc] + words))
      else if s[0] == '\'' then Lex(s[1..], InQuotes(acc))
      else if s[0] == '\\' then
        if |s| == 1 then None
        else if s[1] == '\n' then Lex(s[2..], InWord(acc))
        else Lex(s[2..], InWord(acc + [s[1]]))
      else if IsSpecial(s[0]) then None
      else Lex(s[1..], InWord(acc + [s[0]]))
    case InQuotes(acc) =>
      if s == "" then None
      else if s[0] == '\'' then Lex(s[1..], InWord(acc))
      else Lex(s[1..], InQuotes(acc + [s[0]]))
  }

  // ----- The round trip

  /** The escape of a quote, read inside quotes. */
  lemma LexQuote(rest: string, acc: string)
    ensures Lex("'\\''" + rest, InQuotes(acc)) == Lex(rest, InQuotes(acc + "'"))
  {
    var s := "'\\''" + rest;
    var t := "\\''" + rest;
    var u := "'" + rest;
    assert s[1..] == t && t[2..] == u && u[1..] == rest;
    assert Lex(s, InQuotes(acc)) == Lex(t, InWord(acc));
    assert Lex(t, InWord(acc)) == Lex(u, InWord(acc + "'"));
  }

  lemma LexLiteral(c: char, rest: string, acc: string)
    requires c != '\''
    ensures Lex([c] + rest, InQuotes(acc)) == Lex(rest, InQuotes(acc + [c]))
  {
    assert ([c] + rest)[1..] == rest;
  }

  /** The rest of a quoted word. */
  lemma {:induction false} LexEscape(s: string, rest: string, acc: string)
    ensures Lex(Escape(s) + ("'" + rest), InQuotes(acc)) == Lex(rest, InWord(acc + s))
    decreases |s|
  {
    if s == "" {
      assert ("'" + rest)[1..] == rest;
      assert Escape(s) + ("'" + rest) == "'" + rest;
      assert acc + s == acc;
    } else {
      var head := if s[0] == '\'' then "'\\''" else [s[0]];
      Assoc(head, Escape(s[1..]), "'" + rest);
      if s[0] == '\'' {
        LexQuote(Escape(s[1..]) + ("'" + rest), acc);
      } else {
        LexLiteral(s[0], Escape(s[1..]) + ("'" + rest), acc);
      }
      LexEscape(s[1..], rest, acc + [s[0]]);
      Assoc(acc, [s[0]], s[1..]);
      assert [s[0]] + s[1..] == s;
    }
  }

  lemma LexWord(s: string, rest: string)
    ensures Lex(Quote(s) + rest, Between) == Lex(rest, InWord(s))
  {
    var body := Escape(s) + ("'" + rest);
    assert Quote(s) + rest == "'" + body;
    assert ("'" + body)[1..] == body && ("'" + body)[0] == '\'';
    assert Lex("'" + body, Between) == Lex("'" + body, InWord(""));
    LexEscape(s, rest, "");
    assert "" + s == s;
  }

  lemma LexBlank(word: string, rest: string)
    requires Lex(rest, Between).Some?
    ensures Lex(" " + rest, InWord(word)) == Some([word] + Lex(rest, Between).value)
  {
    assert (" " + rest)[1..] == rest;
  }

  /** Whatever the words hold, the shell reads back exactly these words. */
  lemma {:induction false} RoundTrip(words: seq<string>)
    ensures Lex(Join(Quotes(words)), Between) == Some(words)
  {
    if words != [] {
      var tail := Join(Quotes(words[1..]));
      if |words| == 1 {
        assert words[1..] == [] && words == [words[0]];
        assert Quotes(words) == [Quote(words[0])];
        assert Quote(words[0]) + "" == Quote(words[0]);
        LexWord(words[0], "");
      } else {
        RoundTrip(words[1..]);
        QuotesCount(words);
        assert Quotes(words)[1..] == Quotes(words[1..]);
        Assoc(Quote(words[0]), " ", tail);
        LexWord(words[0], " " + tail);
        LexBlank(words[0], tail);
        assert [words[0]] + words[1..] == words;
      }
    }
  }

  lemma {:induction false} QuotesCount(words: seq<string>)
    ensures |Quotes(words)| == |words|
  {
    if words != [] {
      QuotesCount(words[1..]);
    }
  }

  /** Different commands never quote to the same string. */
  lemma QuotingIsInjective(a: seq<string>, b: seq<string>)
    requires Join(Quotes(a)) == Join(Quotes(b))
    ensures a == b
  {
    RoundTrip(a);
    RoundTrip(b);
  }

  method QuoteCommand(command: string, args: seq<string>) returns (joined: string)
    ensures Lex(joined, Between) == Some([command] + args)
  {
    var parts := [Quote(command)];
    assert [command] + args[..0] == [command];
    for i := 0 to |args|
      invariant parts == Quotes([command] + args[..i])
    {
      QuotesAppend([command] + args[..i], args[i]);
      assert [command] + args[..i + 1] == [command] + args[..i] + [args[i]];
      parts := parts + [Quote(args[i])];
    }
    assert args[..|args|] == args;
    joined := Join(parts);
    RoundTrip([command] + args);
  }

  lemma {:induction false} QuotesAppend(words: seq<string>, w: string)
    ensures Quotes(words + [w]) == Quotes(words) + [Quote(w)]
  {
    if words != [] {
      assert (words + [w])[1..] == words[1..] + [w];
      QuotesAppend(words[1..], w);
      Assoc([Quote(words[0])], Quotes(words[1..]), [Quote(w)]);
    }
  }
}
