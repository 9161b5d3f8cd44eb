/** shellQuote (adapters/repositories/broker.go:150-168) and the reader it is written for: field splitting
    with backslash and single quotes, sections 2.2.1 and 2.2.2 of the POSIX Shell Command Language. */
module Shell {
  import opened Base

  // --- the reader ----------------------------------------------------------------------------

  predicate Blank(c: char) {
    c == ' ' || c == '\t' || c == '\n'
  }

  /** Characters an unquoted word may not carry as themselves; outside the part of the language read here. */
  predicate Special(c: char) {
    c in "|&;<>()$`\"*?[#~%{}!"
  }

  function Soft(word: Option<string>): string {
    if word.Some? then word.value else ""
  }

  function Flush(word: Option<string>, rest: Option<seq<string>>): Option<seq<string>> {
    match rest
    case None => None
    case Some(words) => Some(if word.Some? then [word.value] + words else words)
  }

  /** Outside quotes, with the word read so far if one has begun. None: an unterminated quote, a final
      backslash, or a special character. */
  function Scan(s: string, word: Option<string>): Option<seq<string>>
    decreases |s|
  {
    if s == [] then Some(if word.Some? then [word.value] else [])
    else if Blank(s[0]) then Flush(word, Scan(s[1..], None))
    else if s[0] == '\'' then ScanQuoted(s[1..], Soft(word))
    else if s[0] == '\\' then
      if |s| == 1 then None
      else if s[1] == '\n' then Scan(s[2..], word)
      else Scan(s[2..], Some(Soft(word) + [s[1]]))
    else if Special(s[0]) then None
    else Scan(s[1..], Some(Soft(word) + [s[0]]))
  }

  /** Inside single quotes every character but the closing quote stands for itself. */
  function ScanQuoted(s: string, word: string): Option<seq<string>>
    decreases |s|
  {
    if s == [] then None
    else if s[0] == '\'' then Scan(s[1..], Some(word))
    else ScanQuoted(s[1..], word + [s[0]])
  }

  function Words(s: string): Option<seq<string>> {
    Scan(s, None)
  }

  // --- the printer ---------------------------------------------------------------------------

  /** strings.ReplaceAll of each single quote by the four characters that close, escape and reopen. */
  function Escaped(p: string): string {
    if p == [] then []
    else (if p[0] == '\'' then "'\\''" else [p[0]]) + Escaped(p[1..])
  }

  function ShellQuote(p: string): string {
    "'" + Escaped(p) + "'"
  }

  // --- one undoes the other ------------------------------------------------------------------

  /** The four characters, read inside quotes, put one quote in the word and stay inside quotes. */
  lemma QuoteOut(rest: string, word: string)
    ensures ScanQuoted("'\\''" + rest, word) == ScanQuoted(rest, word + "'")
  {
    var s := "'\\''" + rest;
    assert s[1..] == "\\''" + rest;
    assert ("\\''" + rest)[2..] == "'" + rest;
    assert ("'" + rest)[1..] == rest;
    assert Scan("\\''" + rest, Some(word)) == Scan("'" + rest, Some(word + ['\'']));
  }

  lemma {:induction false} QuotedBack(p: string, rest: string, word: string)
    ensures ScanQuoted(Escaped(p) + "'" + rest, word) == Scan(rest, Some(word + p))
  {
    if p == [] {
      assert Escaped(p) + "'" + rest == "'" + rest;
      assert ("'" + rest)[1..] == rest && word + p == word;
    } else {
      var tail := Escaped(p[1..]) + "'" + rest;
      assert p == [p[0]] + p[1..];
      if p[0] == '\'' {
        assert Escaped(p) + "'" + rest == "'\\''" + tail;
        QuoteOut(tail, word);
        QuotedBack(p[1..], rest, word + "'");
        assert word + "'" + p[1..] == word + p;
      } else {
        assert Escaped(p) + "'" + rest == [p[0]] + tail;
        assert ([p[0]] + tail)[1..] == tail;
        QuotedBack(p[1..], rest, word + [p[0]]);
        assert word + [p[0]] + p[1..] == word + p;
      }
    }
  }

  /** For every path at all - empty, blank, full of quotes, backslashes or newlines - the shell reads the
      quoted form as one word, that path. */
  lemma QuoteIsOneWord(p: string)
    ensures Words(ShellQuote(p)) == Some([p])
  {
    assert ShellQuote(p)[1..] == Escaped(p) + "'" + "";
    QuotedBack(p, "", "");
    assert "" + p == p;
  }

  /** A word that needs no quoting. */
  predicate Plain(s: string) {
    s != [] && forall i :: 0 <= i < |s| ==> !Blank(s[i]) && s[i] != '\'' && s[i] != '\\' && !Special(s[i])
  }

  /** Characters that stand for themselves are added to the word one by one. */
  lemma {:induction false} PlainPrefix(plain: string, rest: string, word: Option<string>)
    requires Plain(plain)
    ensures Scan(plain + rest, word) == Scan(rest, Some(Soft(word) + plain))
  {
    assert (plain + rest)[1..] == plain[1..] + rest;
    var more := Some(Soft(word) + [plain[0]]);
    if |plain| == 1 {
      assert plain[1..] + rest == rest && plain == [plain[0]];
    } else {
      PlainPrefix(plain[1..], rest, more);
      assert Soft(word) + [plain[0]] + plain[1..] == Soft(word) + plain;
    }
  }

  lemma PlainThenQuoted(plain: string, p: string)
    requires Plain(plain)
    ensures Scan(plain + ShellQuote(p), None) == Some([plain + p])
  {
    PlainPrefix(plain, ShellQuote(p), None);
    assert Soft(None) + plain == plain;
    assert ShellQuote(p)[1..] == Escaped(p) + "'" + "";
    QuotedBack(p, "", plain);
  }

  lemma BlankSplits(a: string, rest: string)
    requires Plain(a) && Scan(rest, None).Some?
    ensures Scan(a + (" " + rest), None) == Some([a] + Scan(rest, None).value)
  {
    PlainPrefix(a, " " + rest, None);
    assert Soft(None) + a == a;
    assert (" " + rest)[1..] == rest;
  }

  lemma CommandAndOption(a: string, b: string, p: string)
    requires Plain(a) && Plain(b)
    ensures Words(a + (" " + (b + ShellQuote(p)))) == Some([a, b + p])
  {
    PlainThenQuoted(b, p);
    BlankSplits(a, b + ShellQuote(p));
    assert [a] + [b + p] == [a, b + p];
  }

  /** The `credential.helper` value writeHelper returns. */
  function HelperConfig(p: string): string {
    var helper, option := "store", "--file=";
    helper + (" " + (option + ShellQuote(p)))
  }

  lemma HelperIsPlain()
    ensures Plain("store") && Plain("--file=")
  {
  }

  /** The helper configuration is two words: the helper and its one option, with the path whole whatever
      blanks it holds. */
  lemma HelperIsTwoWords(p: string, helper: string, option: string)
    requires helper == "store" && option == "--file="
    ensures Words(HelperConfig(p)) == Some([helper, option + p])
  {
    HelperIsPlain();
    CommandAndOption(helper, option, p);
  }

  /** Without the quotes a path with a blank in it is torn apart. */
  lemma UnquotedTears(a: string, b: string)
    requires Plain(a) && Plain(b)
    ensures Words(a + (" " + b)) == Some([a, b])
  {
    assert b + [] == b;
    PlainPrefix(b, [], None);
    assert Soft(None) + b == b;
    BlankSplits(a, b);
    assert [a] + [b] == [a, b];
  }
}
