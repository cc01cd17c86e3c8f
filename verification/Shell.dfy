/** The restore commands: internal/sshrestore/sshrestore.go, read back by the token
    rules of the POSIX Shell Command Language (sections 2.2.1 to 2.2.3 and 2.3). */
module Shell {
  import opened Wrappers
  import opened Text

  // -------------------------------------------------------------- reading

  datatype Token = Word(text: string) | Operator(symbol: string)

  /** How the characters at hand are quoted. */
  datatype Quoting = Bare | Single | Double

  predicate IsBlank(c: char) {
    c == ' ' || c == '\t'
  }

  predicate StartsOperator(c: char) {
    c == '|' || c == '&' || c == ';' || c == '<' || c == '>' || c == '(' || c == ')' || c == '\n'
  }

  predicate Delimits(c: char) {
    IsBlank(c) || StartsOperator(c)
  }

  /** Characters that stand for themselves everywhere outside quotes. */
  predicate IsPlain(c: char) {
    'a' <= c <= 'z' || 'A' <= c <= 'Z' || '0' <= c <= '9' || c == '-' || c == '_' || c == '/' || c == '.' || c == ':' || c == ','
  }

  function Prepend(c: char, read: Option<(string, string)>): Option<(string, string)> {
    match read
    case None => None
    case Some((word, rest)) => Some(([c] + word, rest))
  }

  /** Reads the rest of a word: its text with the quotes removed, and what follows it.
      None when a quote stays open, and where the shell would expand something, which
      no command here asks for. */
  function ReadWord(quoting: Quoting, s: string): Option<(string, string)>
    decreases |s|
  {
    if s == "" then (if quoting.Bare? then Some(("", "")) else None)
    else if s[0] == '\0' then None
    else
      match quoting
      case Bare =>
        if Delimits(s[0]) then Some(("", s))
        else if s[0] == '\'' then ReadWord(Single, s[1..])
        else if s[0] == '"' then ReadWord(Double, s[1..])
        else if s[0] == '\\' then
          if |s| == 1 then None
          else if s[1] == '\n' then ReadWord(Bare, s[2..])
          else Prepend(s[1], ReadWord(Bare, s[2..]))
        else if IsPlain(s[0]) then Prepend(s[0], ReadWord(Bare, s[1..]))
        else None
      case Single =>
        if s[0] == '\'' then ReadWord(Bare, s[1..]) else Prepend(s[0], ReadWord(Single, s[1..]))
      case Double =>
        if s[0] == '"' then ReadWord(Bare, s[1..])
        else if s[0] == '$' || s[0] == '`' then None
        else if s[0] == '\\' && |s| > 1 && s[1] == '\n' then ReadWord(Double, s[2..])
        else if s[0] == '\\' && |s| > 1 && (s[1] == '$' || s[1] == '`' || s[1] == '"' || s[1] == '\\')
        then Prepend(s[1], ReadWord(Double, s[2..]))
        else Prepend(s[0], ReadWord(Double, s[1..]))
  }

  lemma {:induction false} ReadWordShrinks(quoting: Quoting, s: string)
    requires ReadWord(quoting, s).Some?
    ensures |ReadWord(quoting, s).value.1| <= |s|
    ensures s != "" && !(quoting.Bare? && Delimits(s[0])) ==> |ReadWord(quoting, s).value.1| < |s|
    decreases |s|
  {
    if s != "" && !(quoting.Bare? && Delimits(s[0])) {
      if quoting.Bare? && s[0] == '\'' {
        ReadWordShrinks(Single, s[1..]);
      } else if quoting.Bare? && s[0] == '"' {
        ReadWordShrinks(Double, s[1..]);
      } else if quoting.Bare? && s[0] == '\\' {
        ReadWordShrinks(Bare, s[2..]);
      } else if !quoting.Bare? && ((quoting.Single? && s[0] == '\'') || (quoting.Double? && s[0] == '"')) {
        ReadWordShrinks(Bare, s[1..]);
      } else if quoting.Double? && s[0] == '\\' && |s| > 1
                && (s[1] == '\n' || s[1] == '$' || s[1] == '`' || s[1] == '"' || s[1] == '\\') {
        ReadWordShrinks(Double, s[2..]);
      } else {
        ReadWordShrinks(quoting, s[1..]);
      }
    }
  }

  function SkipBlanks(s: string): (r: string)
    ensures |r| <= |s|
  {
    if s != "" && IsBlank(s[0]) then SkipBlanks(s[1..]) else s
  }

  /** The operators of two characters; a longer operator is preferred to a shorter one. */
  predicate IsLongOperator(s: string) {
    s == "&&" || s == "||" || s == ";;" || s == "<<" || s == ">>" || s == "<&" || s == ">&" || s == "<>" || s == ">|"
  }

  datatype Reading = End | Token(token: Token, rest: string) | Unreadable

  function NextToken(s: string): Reading {
    var t := SkipBlanks(s);
    if t == "" then End
    else if StartsOperator(t[0]) then
      if |t| > 1 && IsLongOperator(t[..2]) then Reading.Token(Operator(t[..2]), t[2..])
      else Reading.Token(Operator(t[..1]), t[1..])
    else
      match ReadWord(Bare, t)
      case None => Unreadable
      case Some((word, rest)) => Reading.Token(Word(word), rest)
  }

  lemma NextTokenShrinks(s: string)
    requires NextToken(s).Token?
    ensures |NextToken(s).rest| < |s|
  {
    var t := SkipBlanks(s);
    if t != "" && !StartsOperator(t[0]) {
      ReadWordShrinks(Bare, t);
      SkippedBlanks(s);
    }
  }

  lemma {:induction false} SkippedBlanks(s: string)
    ensures SkipBlanks(s) != "" ==> !IsBlank(SkipBlanks(s)[0])
    decreases |s|
  {
    if s != "" && IsBlank(s[0]) {
      SkippedBlanks(s[1..]);
    }
  }

  /** All tokens of a text. */
  function Lex(s: string): Option<seq<Token>>
    decreases |s|
  {
    match NextToken(s)
    case End => Some([])
    case Unreadable => None
    case Token(token, rest) =>
      NextTokenShrinks(s);
      match Lex(rest)
      case None => None
      case Some(tokens) => Some([token] + tokens)
  }

  /** The first `n` tokens of a text, and the text behind them. */
  function LexFirst(s: string, n: nat): Option<(seq<Token>, string)>
    decreases n
  {
    if n == 0 then Some(([], s))
    else
      match NextToken(s)
      case End => None
      case Unreadable => None
      case Token(token, rest) =>
        match LexFirst(rest, n - 1)
        case None => None
        case Some((tokens, remainder)) => Some(([token] + tokens, remainder))
  }

  // -------------------------------------------------------------- writing

  /** A quote inside a quoted text: close, a double-quoted quote, open again. */
  const QUOTED_QUOTE := ['\'', '"', '\'', '"', '\'']

  function ShellQuote(value: string): string {
    if value == "" then ['\'', '\''] else ['\''] + ReplaceChar(value, '\'', QUOTED_QUOTE) + ['\'']
  }

  predicate NulFree(s: string) {
    '\0' !in s
  }

  /** A part of a command word: characters as they are, or a quoted value. */
  datatype Piece = Plain(text: string) | Quoted(text: string)

  predicate Writable(piece: Piece) {
    match piece
    case Plain(text) => text != "" && forall c <- text :: IsPlain(c)
    case Quoted(text) => NulFree(text)
  }

  predicate WritableWord(pieces: seq<Piece>) {
    pieces != [] && forall piece <- pieces :: Writable(piece)
  }

  function PieceText(piece: Piece): string {
    match piece
    case Plain(text) => text
    case Quoted(text) => ShellQuote(text)
  }

  function WordText(pieces: seq<Piece>): string {
    if pieces == [] then "" else PieceText(pieces[0]) + WordText(pieces[1..])
  }

  function WordMeaning(pieces: seq<Piece>): string {
    if pieces == [] then "" else pieces[0].text + WordMeaning(pieces[1..])
  }

  /** The words of a command, separated by spaces. */
  function CommandText(words: seq<seq<Piece>>): string {
    if words == [] then ""
    else if |words| == 1 then WordText(words[0])
    else WordText(words[0]) + " " + CommandText(words[1..])
  }

  function Meanings(words: seq<seq<Piece>>): seq<Token> {
    seq(|words|, i requires 0 <= i < |words| => Word(WordMeaning(words[i])))
  }

  // -------------------------------------------------------------- reading back

  function After(text: string, read: Option<(string, string)>): Option<(string, string)> {
    match read
    case None => None
    case Some((word, rest)) => Some((text + word, rest))
  }

  lemma PrependAfter(c: char, text: string, read: Option<(string, string)>)
    ensures Prepend(c, After(text, read)) == After([c] + text, read)
  {
    if read.Some? {
      assert [c] + (text + read.value.0) == [c] + text + read.value.0;
    }
  }

  lemma AfterNothing(read: Option<(string, string)>)
    ensures After("", read) == read
  {
    if read.Some? {
      assert "" + read.value.0 == read.value.0;
    }
  }

  lemma {:induction false} PlainReads(text: string, rest: string)
    requires forall c <- text :: IsPlain(c)
    ensures ReadWord(Bare, text + rest) == After(text, ReadWord(Bare, rest))
  {
    if text == "" {
      assert text + rest == rest;
      AfterNothing(ReadWord(Bare, rest));
    } else {
      assert text[0] in text;
      assert (text + rest)[1..] == text[1..] + rest;
      PlainReads(text[1..], rest);
      PrependAfter(text[0], text[1..], ReadWord(Bare, rest));
      assert [text[0]] + text[1..] == text;
    }
  }

  lemma QuotedQuoteReads(rest: string)
    ensures ReadWord(Single, QUOTED_QUOTE + rest) == Prepend('\'', ReadWord(Single, rest))
  {
    var s := QUOTED_QUOTE + rest;
    assert s[1..][1..] == s[2..] && s[2..][1..] == s[3..] && s[3..][1..] == s[4..] && s[4..][1..] == s[5..];
    assert s[5..] == rest;
    assert ReadWord(Single, s) == ReadWord(Bare, s[1..]);
    assert ReadWord(Bare, s[1..]) == ReadWord(Double, s[2..]);
    assert ReadWord(Double, s[2..]) == Prepend('\'', ReadWord(Double, s[3..]));
    assert ReadWord(Double, s[3..]) == ReadWord(Bare, s[4..]);
    assert ReadWord(Bare, s[4..]) == ReadWord(Single, s[5..]);
  }

  lemma {:induction false} InsideQuotesReads(value: string, rest: string)
    requires NulFree(value)
    ensures ReadWord(Single, ReplaceChar(value, '\'', QUOTED_QUOTE) + (['\''] + rest)) == After(value, ReadWord(Bare, rest))
  {
    var tail := ['\''] + rest;
    if value == "" {
      assert ReplaceChar(value, '\'', QUOTED_QUOTE) + tail == tail;
      assert tail[1..] == rest;
      AfterNothing(ReadWord(Bare, rest));
    } else {
      var inner := ReplaceChar(value[1..], '\'', QUOTED_QUOTE) + tail;
      InsideQuotesReads(value[1..], rest);
      PrependAfter(value[0], value[1..], ReadWord(Bare, rest));
      assert [value[0]] + value[1..] == value;
      if value[0] == '\'' {
        assert ReplaceChar(value, '\'', QUOTED_QUOTE) + tail == QUOTED_QUOTE + inner;
        QuotedQuoteReads(inner);
      } else {
        assert ReplaceChar(value, '\'', QUOTED_QUOTE) + tail == [value[0]] + inner;
        assert ([value[0]] + inner)[1..] == inner;
      }
    }
  }

  lemma QuoteOpens(rest: string)
    ensures ReadWord(Bare, ['\''] + rest) == ReadWord(Single, rest)
  {
    assert (['\''] + rest)[1..] == rest;
  }

  /** A quoted value reads back as itself, whatever it holds. */
  lemma QuoteReads(value: string, rest: string)
    requires NulFree(value)
    ensures ReadWord(Bare, ShellQuote(value) + rest) == After(value, ReadWord(Bare, rest))
  {
    var body := ReplaceChar(value, '\'', QUOTED_QUOTE);
    var s := ShellQuote(value) + rest;
    assert s == ['\''] + (body + (['\''] + rest));
    QuoteOpens(body + (['\''] + rest));
    InsideQuotesReads(value, rest);
  }

  lemma PieceReads(piece: Piece, rest: string)
    requires Writable(piece)
    ensures ReadWord(Bare, PieceText(piece) + rest) == After(piece.text, ReadWord(Bare, rest))
  {
    if piece.Plain? {
      PlainReads(piece.text, rest);
    } else {
      QuoteReads(piece.text, rest);
    }
  }

  lemma WordTextFirst(pieces: seq<Piece>, rest: string)
    requires pieces != []
    ensures WordText(pieces) + rest == PieceText(pieces[0]) + (WordText(pieces[1..]) + rest)
    ensures WordMeaning(pieces) == pieces[0].text + WordMeaning(pieces[1..])
  {
  }

  lemma WordEnds(rest: string)
    requires rest == "" || Delimits(rest[0])
    ensures ReadWord(Bare, rest) == Some(("", rest))
  {
    if rest != "" {
      assert rest[0] != '\0';
    }
  }

  lemma {:induction false} WordReads(pieces: seq<Piece>, rest: string)
    requires forall piece <- pieces :: Writable(piece)
    requires rest == "" || Delimits(rest[0])
    ensures ReadWord(Bare, WordText(pieces) + rest) == Some((WordMeaning(pieces), rest))
    decreases |pieces|
  {
    if pieces == [] {
      assert WordText(pieces) + rest == rest && WordMeaning(pieces) == "";
      WordEnds(rest);
    } else {
      assert pieces[0] in pieces;
      var piece, more := pieces[0], WordText(pieces[1..]) + rest;
      WordReads(pieces[1..], rest);
      PieceReads(piece, more);
      WordTextFirst(pieces, rest);
    }
  }

  lemma WordIsNext(pieces: seq<Piece>, rest: string)
    requires WritableWord(pieces) && (rest == "" || Delimits(rest[0]))
    ensures NextToken(WordText(pieces) + rest) == Reading.Token(Word(WordMeaning(pieces)), rest)
  {
    WordReads(pieces, rest);
    var s, first := WordText(pieces) + rest, pieces[0];
    assert Writable(first);
    assert PieceText(first) != "" && s[0] == PieceText(first)[0];
    assert first.Plain? ==> first.text[0] in first.text;
    assert !Delimits(s[0]);
  }

  lemma SpaceSkipped(s: string)
    ensures NextToken(" " + s) == NextToken(s)
    ensures Lex(" " + s) == Lex(s)
  {
    assert (" " + s)[1..] == s;
  }

  lemma SpaceSkippedFirst(s: string, n: nat)
    requires n > 0
    ensures LexFirst(" " + s, n) == LexFirst(s, n)
  {
    SpaceSkipped(s);
  }

  lemma LexStep(s: string, token: Token, rest: string, tokens: seq<Token>)
    requires NextToken(s) == Reading.Token(token, rest) && Lex(rest) == Some(tokens)
    ensures Lex(s) == Some([token] + tokens)
  {
  }

  lemma LexFirstStep(s: string, n: nat, token: Token, rest: string, tokens: seq<Token>, remainder: string)
    requires NextToken(s) == Reading.Token(token, rest) && LexFirst(rest, n) == Some((tokens, remainder))
    ensures LexFirst(s, n + 1) == Some(([token] + tokens, remainder))
  {
  }

  lemma MeaningsFirst(words: seq<seq<Piece>>)
    requires words != []
    ensures Meanings(words) == [Word(WordMeaning(words[0]))] + Meanings(words[1..])
  {
  }

  lemma CommandTextFirst(words: seq<seq<Piece>>, rest: string)
    requires |words| > 1
    ensures CommandText(words) + rest == WordText(words[0]) + (" " + (CommandText(words[1..]) + rest))
  {
  }

  lemma NothingReads()
    ensures Lex("") == Some([])
  {
  }

  lemma NoMeanings(words: seq<seq<Piece>>)
    requires words == []
    ensures Meanings(words) == []
  {
  }

  /** A command reads back as its words. */
  lemma {:induction false} CommandReads(words: seq<seq<Piece>>)
    requires forall word <- words :: WritableWord(word)
    ensures Lex(CommandText(words)) == Some(Meanings(words))
    decreases |words|
  {
    NothingReads();
    if words == [] {
      NoMeanings(words);
    } else {
      var word := words[0];
      assert word in words;
      MeaningsFirst(words);
      if |words| == 1 {
        NoMeanings(words[1..]);
        LexWord(word, "", []);
        assert WordText(word) + "" == CommandText(words);
      } else {
        CommandReads(words[1..]);
        SpaceSkipped(CommandText(words[1..]));
        LexWord(word, " " + CommandText(words[1..]), Meanings(words[1..]));
        assert WordText(word) + (" " + CommandText(words[1..])) == CommandText(words);
      }
    }
  }

  lemma LexWord(word: seq<Piece>, rest: string, tokens: seq<Token>)
    requires WritableWord(word) && (rest == "" || Delimits(rest[0])) && Lex(rest) == Some(tokens)
    ensures Lex(WordText(word) + rest) == Some([Word(WordMeaning(word))] + tokens)
  {
    WordIsNext(word, rest);
    LexStep(WordText(word) + rest, Word(WordMeaning(word)), rest, tokens);
  }

  /** A command followed by anything that cannot continue its last word reads back as its
      words, leaving the rest untouched. */
  lemma {:induction false} CommandReadsFirst(words: seq<seq<Piece>>, rest: string)
    requires words != [] && forall word <- words :: WritableWord(word)
    requires rest != "" && Delimits(rest[0])
    ensures LexFirst(CommandText(words) + rest, |words|) == Some((Meanings(words), rest))
    decreases |words|
  {
    var word := words[0];
    assert word in words;
    MeaningsFirst(words);
    if |words| == 1 {
      WordIsNext(word, rest);
      LexFirstStep(WordText(word) + rest, 0, Word(WordMeaning(word)), rest, Meanings(words[1..]), rest);
    } else {
      var more := CommandText(words[1..]) + rest;
      CommandTextFirst(words, rest);
      WordIsNext(word, " " + more);
      CommandReadsFirst(words[1..], rest);
      SpaceSkippedFirst(more, |words| - 1);
      LexFirstStep(
        WordText(word) + (" " + more), |words| - 1, Word(WordMeaning(word)), " " + more, Meanings(words[1..]), rest);
    }
  }

  // -------------------------------------------------------------- the commands

  const DEFAULT_RESTORE_IMAGE := "alpine:3.23.5"

  /** A path with what path.Dir and path.Base make of it. */
  datatype Archive = Archive(path: string, dir: string, base: string)

  datatype RestoreError = ArgumentMissing

  function VolumeScript(archive: Archive): string {
    "tar -xzf " + ShellQuote("/backup/" + archive.base) + " -C /restore"
  }

  function VolumeCommand(dir: string, volume: string, image: string, script: string): string {
    "docker run --rm -v " + ShellQuote(dir) + ":/backup:ro -v " + ShellQuote(volume) + ":/restore "
    + ShellQuote(image) + " sh -c " + ShellQuote(script)
  }

  function BuildVolumeRestoreCommand(archive: Archive, volumeName: string, image: string): Result<string, RestoreError> {
    if archive.path == "" || volumeName == "" then Failure(ArgumentMissing)
    else
      Success(VolumeCommand(
        archive.dir, volumeName, if image == "" then DEFAULT_RESTORE_IMAGE else image, VolumeScript(archive)))
  }

  function DBScript(archive: Archive, restoreCommand: string): string {
    "gzip -dc " + ShellQuote("/backup/" + archive.base) + " | " + restoreCommand
  }

  function DBCommand(container: string, dir: string, image: string, script: string): string {
    "docker run --rm --volumes-from " + ShellQuote(container) + " -v " + ShellQuote(dir) + ":/backup:ro "
    + ShellQuote(image) + " sh -c " + ShellQuote(script)
  }

  function BuildDBRestoreCommand(archive: Archive, containerName: string, restoreCommand: string)
    : Result<string, RestoreError>
  {
    if archive.path == "" || containerName == "" || restoreCommand == "" then Failure(ArgumentMissing)
    else Success(DBCommand(containerName, archive.dir, DEFAULT_RESTORE_IMAGE, DBScript(archive, restoreCommand)))
  }

  // -------------------------------------------------------------- their words

  lemma OnePiece(piece: Piece)
    ensures WordText([piece]) == PieceText(piece) && WordMeaning([piece]) == piece.text
  {
    assert [piece][1..] == [];
  }

  lemma TwoPieces(first: Piece, second: Piece)
    ensures WordText([first, second]) == PieceText(first) + PieceText(second)
    ensures WordMeaning([first, second]) == first.text + second.text
  {
    assert [first, second][1..] == [second];
    OnePiece(second);
  }

  lemma CommandCons(word: seq<Piece>, words: seq<seq<Piece>>)
    requires words != []
    ensures CommandText([word] + words) == WordText(word) + " " + CommandText(words)
  {
    assert ([word] + words)[1..] == words;
  }

  lemma CommandOne(word: seq<Piece>)
    ensures CommandText([word]) == WordText(word)
  {
  }

  /** The common beginning of both commands. */
  function DockerRunWords(): seq<seq<Piece>> {
    [[Plain("docker")], [Plain("run")], [Plain("--rm")]]
  }

  /** Two options with their values. */
  function OptionWords(option: string, value: seq<Piece>, second: string, other: seq<Piece>): seq<seq<Piece>> {
    [[Plain(option)], value, [Plain(second)], other]
  }

  /** The common end of both commands. */
  function ShellWords(image: string, script: string): seq<seq<Piece>> {
    [[Quoted(image)], [Plain("sh")], [Plain("-c")], [Quoted(script)]]
  }

  lemma ThreeWords(first: seq<Piece>, second: seq<Piece>, third: seq<Piece>, words: seq<seq<Piece>>)
    requires words != []
    ensures CommandText([first, second, third] + words)
            == WordText(first) + " " + (WordText(second) + " " + (WordText(third) + " " + CommandText(words)))
  {
    CommandCons(third, words);
    CommandCons(second, [third] + words);
    CommandCons(first, [second] + ([third] + words));
    assert [first, second, third] + words == [first] + ([second] + ([third] + words));
  }

  lemma FourWords(
    first: seq<Piece>, second: seq<Piece>, third: seq<Piece>, fourth: seq<Piece>, words: seq<seq<Piece>>)
    requires words != []
    ensures CommandText([first, second, third, fourth] + words)
            == WordText(first) + " " + (WordText(second) + " " + (WordText(third) + " "
               + (WordText(fourth) + " " + CommandText(words))))
  {
    ThreeWords(second, third, fourth, words);
    CommandCons(first, [second, third, fourth] + words);
    assert [first, second, third, fourth] + words == [first] + ([second, third, fourth] + words);
  }

  lemma DockerRunText(words: seq<seq<Piece>>)
    requires words != []
    ensures CommandText(DockerRunWords() + words) == "docker run --rm " + CommandText(words)
  {
    ThreeWords([Plain("docker")], [Plain("run")], [Plain("--rm")], words);
    OnePiece(Plain("docker"));
    OnePiece(Plain("run"));
    OnePiece(Plain("--rm"));
    DockerRunJoins(CommandText(words));
  }

  lemma DockerRunJoins(tail: string)
    ensures "docker" + " " + ("run" + " " + ("--rm" + " " + tail)) == "docker run --rm " + tail
  {
    assert "docker run --rm " == "docker" + " " + "run" + " " + "--rm" + " ";
  }

  lemma OptionText(option: string, value: seq<Piece>, second: string, other: seq<Piece>, words: seq<seq<Piece>>)
    requires words != []
    ensures CommandText(OptionWords(option, value, second, other) + words)
            == option + " " + (WordText(value) + " " + (second + " " + (WordText(other) + " " + CommandText(words))))
  {
    FourWords([Plain(option)], value, [Plain(second)], other, words);
    OnePiece(Plain(option));
    OnePiece(Plain(second));
  }

  lemma ShellText(image: string, script: string)
    ensures CommandText(ShellWords(image, script)) == ShellQuote(image) + " sh -c " + ShellQuote(script)
  {
    var sh, c := Plain("sh"), Plain("-c");
    CommandOne([Quoted(script)]);
    ThreeWords([Quoted(image)], [sh], [c], [[Quoted(script)]]);
    OnePiece(c);
    OnePiece(sh);
    OnePiece(Quoted(image));
    OnePiece(Quoted(script));
    assert ShellWords(image, script) == [[Quoted(image)], [sh], [c]] + [[Quoted(script)]];
    ShellJoins(ShellQuote(image), ShellQuote(script));
  }

  lemma ShellJoins(image: string, script: string)
    ensures image + " " + ("sh" + " " + ("-c" + " " + script)) == image + " sh -c " + script
  {
    assert " sh -c " == " " + "sh" + " " + "-c" + " ";
  }

  // -------------------------------------------------------------- meanings and writability

  function Words(texts: seq<string>): seq<Token> {
    seq(|texts|, i requires 0 <= i < |texts| => Word(texts[i]))
  }

  predicate WritableWords(words: seq<seq<Piece>>) {
    forall word <- words :: WritableWord(word)
  }

  lemma JoinedMeanings(a: seq<seq<Piece>>, b: seq<seq<Piece>>, x: seq<string>, y: seq<string>)
    requires WritableWords(a) && WritableWords(b) && Meanings(a) == Words(x) && Meanings(b) == Words(y)
    ensures WritableWords(a + b) && Meanings(a + b) == Words(x + y)
  {
    assert |Words(x)| == |x| && |Words(y)| == |y|;
    forall i | 0 <= i < |a + b| ensures Meanings(a + b)[i] == Words(x + y)[i] {
      assert i < |a| ==> Meanings(a)[i] == Words(x)[i];
      assert i >= |a| ==> Meanings(b)[i - |a|] == Words(y)[i - |a|];
    }
  }

  lemma PlainWord(text: string)
    requires text != "" && forall i | 0 <= i < |text| :: IsPlain(text[i])
    ensures WritableWord([Plain(text)]) && WordMeaning([Plain(text)]) == text
  {
    OnePiece(Plain(text));
  }

  lemma QuotedWord(text: string)
    requires NulFree(text)
    ensures WritableWord([Quoted(text)]) && WordMeaning([Quoted(text)]) == text
  {
    OnePiece(Quoted(text));
  }

  lemma MountWord(value: string, suffix: string)
    requires NulFree(value) && suffix != "" && forall i | 0 <= i < |suffix| :: IsPlain(suffix[i])
    ensures WritableWord([Quoted(value), Plain(suffix)])
    ensures WordMeaning([Quoted(value), Plain(suffix)]) == value + suffix
  {
    TwoPieces(Quoted(value), Plain(suffix));
  }

  lemma DockerRunMeans()
    ensures WritableWords(DockerRunWords()) && Meanings(DockerRunWords()) == Words(["docker", "run", "--rm"])
  {
    PlainWord("docker");
    PlainWord("run");
    PlainWord("--rm");
  }

  lemma OptionMeans(option: string, value: seq<Piece>, second: string, other: seq<Piece>)
    requires WritableWord([Plain(option)]) && WritableWord([Plain(second)]) && WritableWord(value) && WritableWord(other)
    ensures WritableWords(OptionWords(option, value, second, other))
    ensures Meanings(OptionWords(option, value, second, other))
            == Words([option, WordMeaning(value), second, WordMeaning(other)])
  {
    OnePiece(Plain(option));
    OnePiece(Plain(second));
  }

  lemma ShellMeans(image: string, script: string)
    requires NulFree(image) && NulFree(script)
    ensures WritableWords(ShellWords(image, script)) && Meanings(ShellWords(image, script)) == Words([image, "sh", "-c", script])
  {
    PlainWord("sh");
    PlainWord("-c");
    QuotedWord(image);
    QuotedWord(script);
  }

  // -------------------------------------------------------------- the volume command

  function VolumeOptions(dir: string, volume: string): seq<seq<Piece>> {
    OptionWords("-v", [Quoted(dir), Plain(":/backup:ro")], "-v", [Quoted(volume), Plain(":/restore")])
  }

  lemma VolumeCommandText(dir: string, volume: string, image: string, script: string)
    ensures VolumeCommand(dir, volume, image, script)
            == CommandText(DockerRunWords() + (VolumeOptions(dir, volume) + ShellWords(image, script)))
  {
    ShellText(image, script);
    OptionText("-v", [Quoted(dir), Plain(":/backup:ro")], "-v", [Quoted(volume), Plain(":/restore")],
      ShellWords(image, script));
    DockerRunText(VolumeOptions(dir, volume) + ShellWords(image, script));
    TwoPieces(Quoted(dir), Plain(":/backup:ro"));
    TwoPieces(Quoted(volume), Plain(":/restore"));
    VolumeCommandJoins(ShellQuote(dir), ShellQuote(volume), ShellQuote(image), ShellQuote(script));
  }

  lemma VolumeCommandJoins(dir: string, volume: string, image: string, script: string)
    ensures "docker run --rm " + ("-v" + " " + (dir + ":/backup:ro" + " "
              + ("-v" + " " + (volume + ":/restore" + " " + (image + " sh -c " + script)))))
            == "docker run --rm -v " + dir + ":/backup:ro -v " + volume + ":/restore " + image + " sh -c " + script
  {
    assert "docker run --rm -v " == "docker run --rm " + "-v" + " ";
    assert ":/backup:ro -v " == ":/backup:ro" + " " + "-v" + " ";
    assert ":/restore " == ":/restore" + " ";
  }

  /** Reading the printed volume command gives exactly the intended docker arguments. */
  lemma VolumeCommandReads(dir: string, volume: string, image: string, script: string)
    requires NulFree(dir) && NulFree(volume) && NulFree(image) && NulFree(script)
    ensures Lex(VolumeCommand(dir, volume, image, script)) == Some(Words(
      ["docker", "run", "--rm"] + (["-v", dir + ":/backup:ro", "-v", volume + ":/restore"] + [image, "sh", "-c", script])))
  {
    MountWord(dir, ":/backup:ro");
    MountWord(volume, ":/restore");
    PlainWord("-v");
    DockerRunMeans();
    OptionMeans("-v", [Quoted(dir), Plain(":/backup:ro")], "-v", [Quoted(volume), Plain(":/restore")]);
    ShellMeans(image, script);
    var options, arguments := VolumeOptions(dir, volume), ["-v", dir + ":/backup:ro", "-v", volume + ":/restore"];
    JoinedMeanings(options, ShellWords(image, script), arguments, [image, "sh", "-c", script]);
    JoinedMeanings(DockerRunWords(), options + ShellWords(image, script),
      ["docker", "run", "--rm"], arguments + [image, "sh", "-c", script]);
    VolumeCommandText(dir, volume, image, script);
    CommandReads(DockerRunWords() + (options + ShellWords(image, script)));
  }

  function VolumeScriptWords(file: string): seq<seq<Piece>> {
    [[Plain("tar")], [Plain("-xzf")], [Quoted(file)]] + [[Plain("-C")], [Plain("/restore")]]
  }

  lemma VolumeScriptText(archive: Archive)
    ensures VolumeScript(archive) == CommandText(VolumeScriptWords("/backup/" + archive.base))
  {
    var file := "/backup/" + archive.base;
    var restore := [Plain("/restore")];
    ThreeWords([Plain("tar")], [Plain("-xzf")], [Quoted(file)], [[Plain("-C")], restore]);
    CommandCons([Plain("-C")], [restore]);
    CommandOne(restore);
    OnePiece(Plain("tar"));
    OnePiece(Plain("-xzf"));
    OnePiece(Quoted(file));
    OnePiece(Plain("-C"));
    OnePiece(Plain("/restore"));
    assert [[Plain("-C")], restore] == [[Plain("-C")]] + [restore];
    VolumeScriptJoins(ShellQuote(file));
  }

  lemma VolumeScriptJoins(file: string)
    ensures "tar" + " " + ("-xzf" + " " + (file + " " + ("-C" + " " + "/restore"))) == "tar -xzf " + file + " -C /restore"
  {
    assert "tar -xzf " == "tar" + " " + "-xzf" + " ";
    assert " -C /restore" == " " + "-C" + " " + "/restore";
  }

  lemma NulFreeFile(base: string)
    requires NulFree(base)
    ensures NulFree("/backup/" + base)
  {
  }

  lemma {:induction false} QuoteIsNulFree(value: string)
    requires NulFree(value)
    ensures NulFree(ReplaceChar(value, '\'', QUOTED_QUOTE))
  {
    if value != "" {
      QuoteIsNulFree(value[1..]);
      assert value[0] in value;
    }
  }

  lemma VolumeScriptIsNulFree(archive: Archive)
    requires NulFree(archive.base)
    ensures NulFree(VolumeScript(archive))
  {
    NulFreeFile(archive.base);
    QuoteIsNulFree("/backup/" + archive.base);
    var quoted := ShellQuote("/backup/" + archive.base);
    assert NulFree(quoted);
    assert NulFree("tar -xzf ") && NulFree(" -C /restore");
  }

  lemma DefaultImageIsNulFree()
    ensures NulFree(DEFAULT_RESTORE_IMAGE)
  {
  }

  lemma VolumeScriptReads(archive: Archive)
    requires NulFree(archive.base)
    ensures Lex(VolumeScript(archive)) == Some(Words(["tar", "-xzf", "/backup/" + archive.base] + ["-C", "/restore"]))
  {
    var file := "/backup/" + archive.base;
    NulFreeFile(archive.base);
    PlainWord("tar");
    PlainWord("-xzf");
    QuotedWord(file);
    PlainWord("-C");
    PlainWord("/restore");
    JoinedMeanings(
      [[Plain("tar")], [Plain("-xzf")], [Quoted(file)]], [[Plain("-C")], [Plain("/restore")]],
      ["tar", "-xzf", file], ["-C", "/restore"]);
    VolumeScriptText(archive);
    CommandReads(VolumeScriptWords(file));
  }

  /** For all NUL-free names: the shell reads the volume command as the docker call meant,
      and the inner shell reads its script as exactly that tar call. */
  lemma VolumeCommandRoundTrip(archive: Archive, volumeName: string, image: string)
    requires NulFree(archive.dir) && NulFree(archive.base) && NulFree(volumeName) && NulFree(image)
    ensures BuildVolumeRestoreCommand(archive, volumeName, image).Failure? <==> archive.path == "" || volumeName == ""
    ensures archive.path != "" && volumeName != "" ==>
      var script := VolumeScript(archive);
      && Lex(BuildVolumeRestoreCommand(archive, volumeName, image).value) == Some(Words(
           ["docker", "run", "--rm"]
           + (["-v", archive.dir + ":/backup:ro", "-v", volumeName + ":/restore"]
           + [if image == "" then "alpine:3.23.5" else image, "sh", "-c", script])))
      && Lex(script) == Some(Words(["tar", "-xzf", "/backup/" + archive.base] + ["-C", "/restore"]))
  {
    var chosen := if image == "" then DEFAULT_RESTORE_IMAGE else image;
    DefaultImageIsNulFree();
    VolumeScriptIsNulFree(archive);
    VolumeCommandReads(archive.dir, volumeName, chosen, VolumeScript(archive));
    VolumeScriptReads(archive);
  }

  // -------------------------------------------------------------- the database command

  function DBOptions(container: string, dir: string): seq<seq<Piece>> {
    OptionWords("--volumes-from", [Quoted(container)], "-v", [Quoted(dir), Plain(":/backup:ro")])
  }

  lemma DBCommandText(container: string, dir: string, image: string, script: string)
    ensures DBCommand(container, dir, image, script)
            == CommandText(DockerRunWords() + (DBOptions(container, dir) + ShellWords(image, script)))
  {
    ShellText(image, script);
    OptionText("--volumes-from", [Quoted(container)], "-v", [Quoted(dir), Plain(":/backup:ro")],
      ShellWords(image, script));
    DockerRunText(DBOptions(container, dir) + ShellWords(image, script));
    OnePiece(Quoted(container));
    TwoPieces(Quoted(dir), Plain(":/backup:ro"));
    DBCommandJoins(ShellQuote(container), ShellQuote(dir), ShellQuote(image), ShellQuote(script));
  }

  lemma DBCommandJoins(container: string, dir: string, image: string, script: string)
    ensures "docker run --rm " + ("--volumes-from" + " " + (container + " "
              + ("-v" + " " + (dir + ":/backup:ro" + " " + (image + " sh -c " + script)))))
            == "docker run --rm --volumes-from " + container + " -v " + dir + ":/backup:ro " + image + " sh -c " + script
  {
    assert "docker run --rm --volumes-from " == "docker run --rm " + "--volumes-from" + " ";
    assert " -v " == " " + "-v" + " ";
    assert ":/backup:ro " == ":/backup:ro" + " ";
  }

  lemma DBCommandReads(container: string, dir: string, image: string, script: string)
    requires NulFree(container) && NulFree(dir) && NulFree(image) && NulFree(script)
    ensures Lex(DBCommand(container, dir, image, script)) == Some(Words(
      ["docker", "run", "--rm"] + (["--volumes-from", container, "-v", dir + ":/backup:ro"] + [image, "sh", "-c", script])))
  {
    QuotedWord(container);
    MountWord(dir, ":/backup:ro");
    PlainWord("--volumes-from");
    PlainWord("-v");
    DockerRunMeans();
    OptionMeans("--volumes-from", [Quoted(container)], "-v", [Quoted(dir), Plain(":/backup:ro")]);
    ShellMeans(image, script);
    var options, arguments := DBOptions(container, dir), ["--volumes-from", container, "-v", dir + ":/backup:ro"];
    JoinedMeanings(options, ShellWords(image, script), arguments, [image, "sh", "-c", script]);
    JoinedMeanings(DockerRunWords(), options + ShellWords(image, script),
      ["docker", "run", "--rm"], arguments + [image, "sh", "-c", script]);
    DBCommandText(container, dir, image, script);
    CommandReads(DockerRunWords() + (options + ShellWords(image, script)));
  }

  function DBScriptWords(file: string): seq<seq<Piece>> {
    [[Plain("gzip")], [Plain("-dc")], [Quoted(file)]]
  }

  lemma DBScriptText(archive: Archive, restoreCommand: string)
    ensures DBScript(archive, restoreCommand)
            == CommandText(DBScriptWords("/backup/" + archive.base)) + (" | " + restoreCommand)
  {
    var file := "/backup/" + archive.base;
    CommandOne([Quoted(file)]);
    CommandCons([Plain("-dc")], [[Quoted(file)]]);
    CommandCons([Plain("gzip")], [[Plain("-dc")]] + [[Quoted(file)]]);
    OnePiece(Plain("gzip"));
    OnePiece(Plain("-dc"));
    OnePiece(Quoted(file));
    assert DBScriptWords(file) == [[Plain("gzip")]] + ([[Plain("-dc")]] + [[Quoted(file)]]);
    DBScriptJoins(ShellQuote(file), restoreCommand);
  }

  lemma DBScriptJoins(file: string, restoreCommand: string)
    ensures "gzip" + " " + ("-dc" + " " + file) + (" | " + restoreCommand) == "gzip -dc " + file + " | " + restoreCommand
  {
    assert "gzip -dc " == "gzip" + " " + "-dc" + " ";
  }

  lemma DBScriptIsNulFree(archive: Archive, restoreCommand: string)
    requires NulFree(archive.base) && NulFree(restoreCommand)
    ensures NulFree(DBScript(archive, restoreCommand))
  {
    NulFreeFile(archive.base);
    QuoteIsNulFree("/backup/" + archive.base);
    var quoted := ShellQuote("/backup/" + archive.base);
    assert NulFree(quoted);
    assert NulFree("gzip -dc ") && NulFree(" | ");
  }

  lemma PipeIsNext(restoreCommand: string)
    ensures NextToken(" | " + restoreCommand) == Reading.Token(Operator("|"), " " + restoreCommand)
  {
    var s := " | " + restoreCommand;
    var t := s[1..];
    assert t == "| " + restoreCommand && t[1..] == " " + restoreCommand;
    assert SkipBlanks(s) == t;
    assert t[..2][1] == ' ' && t[..1] == "|";
    assert !IsLongOperator(t[..2]);
  }

  lemma {:induction false} LexFirstOneMore(s: string, n: nat, tokens: seq<Token>, rest: string, token: Token, more: string)
    requires LexFirst(s, n) == Some((tokens, rest)) && NextToken(rest) == Reading.Token(token, more)
    ensures LexFirst(s, n + 1) == Some((tokens + [token], more))
    decreases n
  {
    if n == 0 {
      assert LexFirst(more, 0) == Some(([], more));
      assert [token] + [] == tokens + [token];
    } else {
      var first, behind := NextToken(s).token, NextToken(s).rest;
      LexFirstOneMore(behind, n - 1, tokens[1..], rest, token, more);
      assert tokens == [first] + tokens[1..];
      LexFirstStep(s, n, first, behind, tokens[1..] + [token], more);
      assert [first] + (tokens[1..] + [token]) == tokens + [token];
    }
  }

  lemma DBScriptReads(archive: Archive, restoreCommand: string)
    requires NulFree(archive.base)
    ensures LexFirst(DBScript(archive, restoreCommand), 4)
            == Some((Words(["gzip", "-dc", "/backup/" + archive.base]) + [Operator("|")], " " + restoreCommand))
  {
    var file := "/backup/" + archive.base;
    var words := DBScriptWords(file);
    NulFreeFile(archive.base);
    PlainWord("gzip");
    PlainWord("-dc");
    QuotedWord(file);
    assert Meanings(words) == Words(["gzip", "-dc", file]);
    CommandReadsFirst(words, " | " + restoreCommand);
    DBScriptText(archive, restoreCommand);
    PipeIsNext(restoreCommand);
    LexFirstOneMore(DBScript(archive, restoreCommand), 3, Meanings(words), " | " + restoreCommand,
      Operator("|"), " " + restoreCommand);
  }

  /** For all NUL-free names: the shell reads the database command as the docker call
      meant, and the inner shell reads gzip, -dc, the file and the pipe, and then finds
      the restore command as it was given. */
  lemma DBCommandRoundTrip(archive: Archive, containerName: string, restoreCommand: string)
    requires NulFree(archive.dir) && NulFree(archive.base) && NulFree(containerName) && NulFree(restoreCommand)
    ensures BuildDBRestoreCommand(archive, containerName, restoreCommand).Failure?
            <==> archive.path == "" || containerName == "" || restoreCommand == ""
    ensures archive.path != "" && containerName != "" && restoreCommand != "" ==>
      var script := DBScript(archive, restoreCommand);
      && Lex(BuildDBRestoreCommand(archive, containerName, restoreCommand).value) == Some(Words(
           ["docker", "run", "--rm"]
           + (["--volumes-from", containerName, "-v", archive.dir + ":/backup:ro"]
           + ["alpine:3.23.5", "sh", "-c", script])))
      && LexFirst(script, 4)
         == Some((Words(["gzip", "-dc", "/backup/" + archive.base]) + [Operator("|")], " " + restoreCommand))
  {
    DefaultImageIsNulFree();
    DBScriptIsNulFree(archive, restoreCommand);
    DBCommandReads(containerName, archive.dir, DEFAULT_RESTORE_IMAGE, DBScript(archive, restoreCommand));
    DBScriptReads(archive, restoreCommand);
  }
}
