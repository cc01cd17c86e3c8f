/** The fragment of SQL that the retarget statements use: its text, its lexical
    and grammatical structure, and its meaning under three-valued logic.
    Delimited identifiers follow ISO/IEC 9075-2 section 5.2, comparison with NULL
    follows section 8.2. */
module Sql {
  import opened Wrappers
  import opened Text
  import opened Tables

  /** A statement text with its positional arguments, all of them strings. */
  datatype Statement = Statement(text: string, args: seq<string>)

  // -------------------------------------------------------------- lexical part

  datatype Token = Word(word: string) | Identifier(name: string) | Placeholder(number: nat) | Equals

  predicate IsLetter(c: char) {
    'A' <= c <= 'Z' || 'a' <= c <= 'z'
  }

  predicate IsDigit(c: char) {
    '0' <= c <= '9'
  }

  function QuoteIdentifier(identifier: string): string {
    "\"" + ReplaceChar(identifier, '"', "\"\"") + "\""
  }

  /** Reads a delimited identifier after its opening quote: its name, and the text
      after its closing quote. A doubled quote stands for one quote. */
  function ReadDelimited(s: string): (r: Option<(string, string)>)
    ensures r.Some? ==> |r.value.1| < |s|
  {
    if s == "" then None
    else if s[0] != '"' then
      match ReadDelimited(s[1..])
      case None => None
      case Some((name, rest)) => Some(([s[0]] + name, rest))
    else if |s| > 1 && s[1] == '"' then
      match ReadDelimited(s[2..])
      case None => None
      case Some((name, rest)) => Some((['"'] + name, rest))
    else Some(("", s[1..]))
  }

  /** The length of the longest prefix of letters. */
  function LetterSpan(s: string): (n: nat)
    ensures n <= |s|
  {
    if s != "" && IsLetter(s[0]) then 1 + LetterSpan(s[1..]) else 0
  }

  function DigitSpan(s: string): (n: nat)
    ensures n <= |s|
    ensures forall i | 0 <= i < n :: IsDigit(s[i])
  {
    if s != "" && IsDigit(s[0]) then 1 + DigitSpan(s[1..]) else 0
  }

  function ParseNumber(digits: string): nat
    requires forall c <- digits :: IsDigit(c)
  {
    if digits == "" then 0
    else
      var last := digits[|digits| - 1];
      assert IsDigit(last);
      ParseNumber(digits[..|digits| - 1]) * 10 + (last as int - '0' as int)
  }

  function Prefix(token: Token, rest: Option<seq<Token>>): Option<seq<Token>> {
    match rest
    case None => None
    case Some(tokens) => Some([token] + tokens)
  }

  function Lex(s: string): Option<seq<Token>>
    decreases |s|
  {
    if s == "" then Some([])
    else if s[0] == ' ' then Lex(s[1..])
    else if s[0] == '=' then Prefix(Equals, Lex(s[1..]))
    else if s[0] == '"' then
      match ReadDelimited(s[1..])
      case None => None
      case Some((name, rest)) => Prefix(Identifier(name), Lex(rest))
    else if s[0] == '$' then
      var n := DigitSpan(s[1..]);
      if n == 0 then None else Prefix(Placeholder(ParseNumber(s[1..][..n])), Lex(s[1..][n..]))
    else
      var n := LetterSpan(s);
      if n == 0 then None else Prefix(Word(s[..n]), Lex(s[n..]))
  }

  // -------------------------------------------------------------- grammar

  datatype Value = Argument(number: nat) | NullValue

  datatype Condition = ColumnEquals(column: string, number: nat) | ColumnIsNull(column: string)

  /** UPDATE table SET column = value WHERE condition AND ... */
  datatype Update = Update(table: string, column: string, value: Value, conditions: seq<Condition>)

  function ParseConditions(ts: seq<Token>): Option<seq<Condition>>
    decreases |ts|
  {
    if |ts| >= 3 && ts[0].Identifier? && ts[1].Equals? && ts[2].Placeholder? then
      ParseMore(ColumnEquals(ts[0].name, ts[2].number), ts[3..])
    else if |ts| >= 3 && ts[0].Identifier? && ts[1] == Word("IS") && ts[2] == Word("NULL") then
      ParseMore(ColumnIsNull(ts[0].name), ts[3..])
    else None
  }

  function ParseMore(first: Condition, ts: seq<Token>): Option<seq<Condition>>
    decreases |ts|
  {
    if ts == [] then Some([first])
    else if ts[0] == Word("AND") then
      match ParseConditions(ts[1..])
      case None => None
      case Some(rest) => Some([first] + rest)
    else None
  }

  function Parse(ts: seq<Token>): Option<Update> {
    if |ts| >= 7 && ts[0] == Word("UPDATE") && ts[1].Identifier? && ts[2] == Word("SET") && ts[3].Identifier?
      && ts[4].Equals? && (ts[5].Placeholder? || ts[5] == Word("NULL")) && ts[6] == Word("WHERE") then
      match ParseConditions(ts[7..])
      case None => None
      case Some(conditions) =>
        var value := if ts[5].Placeholder? then Argument(ts[5].number) else NullValue;
        Some(Update(ts[1].name, ts[3].name, value, conditions))
    else None
  }

  // -------------------------------------------------------------- meaning

  datatype Truth = True | False | Unknown

  /** Comparison is unknown as soon as one side is NULL. */
  function EqualsTruth(a: Option<string>, b: Option<string>): Truth {
    if a.None? || b.None? then Unknown else if a == b then True else False
  }

  function AndTruth(a: Truth, b: Truth): Truth {
    if a.False? || b.False? then False else if a.True? && b.True? then True else Unknown
  }

  predicate InRange(number: nat, args: seq<string>) {
    1 <= number <= |args|
  }

  function ConditionTruth(condition: Condition, args: seq<string>, row: Row): Truth
    requires condition.ColumnEquals? ==> InRange(condition.number, args)
  {
    match condition
    case ColumnEquals(column, number) => EqualsTruth(Cell(row, column), Some(args[number - 1]))
    case ColumnIsNull(column) => if Cell(row, column).None? then True else False
  }

  predicate ArgumentsBound(conditions: seq<Condition>, args: seq<string>) {
    forall c <- conditions :: c.ColumnEquals? ==> InRange(c.number, args)
  }

  function WhereTruth(conditions: seq<Condition>, args: seq<string>, row: Row): Truth
    requires ArgumentsBound(conditions, args)
  {
    if conditions == [] then True
    else AndTruth(ConditionTruth(conditions[0], args, row), WhereTruth(conditions[1..], args, row))
  }

  datatype SqlError = SyntaxError | UnknownTable | UnknownColumn | MissingArgument

  /** The rows an UPDATE affects: those whose WHERE clause is true, not merely not false. */
  function AffectedRows(update: Update, args: seq<string>, rows: seq<Row>): set<nat>
    requires ArgumentsBound(update.conditions, args)
  {
    set i: nat | i < |rows| && WhereTruth(update.conditions, args, rows[i]) == True
  }

  function RunUpdate(db: Dokploy, update: Update, args: seq<string>): Result<(Dokploy, nat), SqlError> {
    if update.table !in db.tables then Failure(UnknownTable)
    else
      var table := db.tables[update.table];
      if update.column !in table.columns || exists c <- update.conditions :: c.column !in table.columns then
        Failure(UnknownColumn)
      else if !ArgumentsBound(update.conditions, args) || (update.value.Argument? && !InRange(update.value.number, args)) then
        Failure(MissingArgument)
      else
        var value := if update.value.NullValue? then None else Some(args[update.value.number - 1]);
        var affected := AffectedRows(update, args, table.rows);
        var rows := seq(|table.rows|, i requires 0 <= i < |table.rows| =>
          if i in affected then table.rows[i][update.column := value] else table.rows[i]);
        Success((db.(tables := db.tables[update.table := table.(rows := rows)]), |affected|))
  }

  /** Runs one statement: the new database and the number of affected rows. */
  function Execute(db: Dokploy, statement: Statement): Result<(Dokploy, nat), SqlError> {
    match Lex(statement.text)
    case None => Failure(SyntaxError)
    case Some(tokens) =>
      match Parse(tokens)
      case None => Failure(SyntaxError)
      case Some(update) => RunUpdate(db, update, statement.args)
  }

  // -------------------------------------------------------------- lexing lemmas

  lemma {:induction false} ReadQuoted(name: string, rest: string)
    requires rest == "" || rest[0] != '"'
    ensures ReadDelimited(ReplaceChar(name, '"', "\"\"") + "\"" + rest) == Some((name, rest))
  {
    var text := ReplaceChar(name, '"', "\"\"") + "\"" + rest;
    if name == "" {
      assert text == "\"" + rest;
    } else {
      var tail := ReplaceChar(name[1..], '"', "\"\"") + "\"" + rest;
      ReadQuoted(name[1..], rest);
      if name[0] == '"' {
        assert text == "\"\"" + tail;
        assert text[2..] == tail;
      } else {
        assert text == [name[0]] + tail;
        assert text[1..] == tail;
      }
      assert [name[0]] + name[1..] == name;
    }
  }

  /** A quoted identifier is one token, whose name is the identifier that was quoted. */
  lemma LexQuoteIdentifier(name: string, rest: string)
    requires rest == "" || rest[0] != '"'
    ensures Lex(QuoteIdentifier(name) + rest) == Prefix(Identifier(name), Lex(rest))
  {
    var inside := ReplaceChar(name, '"', "\"\"") + "\"" + rest;
    assert QuoteIdentifier(name) + rest == "\"" + inside;
    ReadQuoted(name, rest);
    LexOpened(inside, name, rest);
  }

  lemma LexOpened(inside: string, name: string, rest: string)
    requires ReadDelimited(inside) == Some((name, rest))
    ensures Lex("\"" + inside) == Prefix(Identifier(name), Lex(rest))
  {
    assert ("\"" + inside)[1..] == inside;
  }

  lemma {:induction false} SpanOfWord(word: string, rest: string)
    requires forall c <- word :: IsLetter(c)
    requires rest == "" || !IsLetter(rest[0])
    ensures LetterSpan(word + rest) == |word|
  {
    if word == "" {
      assert word + rest == rest;
    } else {
      assert (word + rest)[1..] == word[1..] + rest;
      SpanOfWord(word[1..], rest);
    }
  }

  lemma LexWord(word: string, rest: string)
    requires word != "" && forall c <- word :: IsLetter(c)
    requires rest == "" || !IsLetter(rest[0])
    ensures Lex(word + rest) == Prefix(Word(word), Lex(rest))
  {
    SpanOfWord(word, rest);
    assert (word + rest)[0] == word[0];
    assert (word + rest)[..|word|] == word && (word + rest)[|word|..] == rest;
  }

  lemma LexSpace(rest: string)
    ensures Lex(" " + rest) == Lex(rest)
  {
    assert (" " + rest)[1..] == rest;
  }

  lemma LexEquals(rest: string)
    ensures Lex("=" + rest) == Prefix(Equals, Lex(rest))
  {
    assert ("=" + rest)[1..] == rest;
  }

  lemma LexPlaceholder(digit: char, rest: string)
    requires IsDigit(digit) && (rest == "" || !IsDigit(rest[0]))
    ensures Lex("$" + [digit] + rest) == Prefix(Placeholder(digit as int - '0' as int), Lex(rest))
  {
    var text := "$" + [digit] + rest;
    assert text[1..] == [digit] + rest;
    assert ([digit] + rest)[1..] == rest;
    assert DigitSpan([digit] + rest) == 1;
    assert ([digit] + rest)[..1] == [digit];
    OneDigit(digit);
  }

  lemma OneDigit(digit: char)
    requires IsDigit(digit)
    ensures ParseNumber([digit]) == digit as int - '0' as int
  {
    assert [digit][..0] == "";
  }

  // A statement spelled token by token, one space before each token.

  predicate Spellable(token: Token) {
    match token
    case Word(word) => word != "" && forall c <- word :: IsLetter(c)
    case Identifier(_) => true
    case Placeholder(number) => number < 10
    case Equals => true
  }

  function SpellToken(token: Token): string {
    match token
    case Word(word) => word
    case Identifier(name) => QuoteIdentifier(name)
    case Placeholder(number) => "$" + [(number % 10) as char + '0']
    case Equals => "="
  }

  /** The tokens from position `i` on. */
  function Spell(ts: seq<Token>, i: nat): string
    decreases |ts| - i
  {
    if i >= |ts| then "" else " " + SpellToken(ts[i]) + Spell(ts, i + 1)
  }

  lemma LexSpelledPlaceholder(number: nat, rest: string)
    requires number < 10 && (rest == "" || rest[0] == ' ')
    ensures Lex(SpellToken(Placeholder(number)) + rest) == Prefix(Placeholder(number), Lex(rest))
  {
    var digit := number as char + '0';
    assert IsDigit(digit) && digit as int - '0' as int == number;
    assert SpellToken(Placeholder(number)) == "$" + [digit];
    LexPlaceholder(digit, rest);
  }

  lemma LexSpelledToken(token: Token, rest: string)
    requires Spellable(token)
    requires rest == "" || rest[0] == ' '
    ensures Lex(SpellToken(token) + rest) == Prefix(token, Lex(rest))
  {
    match token {
      case Word(word) => LexWord(word, rest);
      case Identifier(name) => LexQuoteIdentifier(name, rest);
      case Placeholder(number) => LexSpelledPlaceholder(number, rest);
      case Equals => LexEquals(rest);
    }
  }

  lemma LexSpaced(text: string, rest: string)
    ensures Lex(" " + text + rest) == Lex(text + rest)
  {
    assert " " + text + rest == " " + (text + rest);
    LexSpace(text + rest);
  }

  lemma LexToken(token: Token, rest: string)
    requires Spellable(token)
    requires rest == "" || rest[0] == ' '
    ensures Lex(" " + SpellToken(token) + rest) == Prefix(token, Lex(rest))
  {
    LexSpaced(SpellToken(token), rest);
    LexSpelledToken(token, rest);
  }

  lemma {:induction false} LexSpell(ts: seq<Token>, i: nat)
    requires i <= |ts|
    requires forall k | 0 <= k < |ts| :: Spellable(ts[k])
    ensures Lex(Spell(ts, i)) == Some(ts[i..])
    decreases |ts| - i
  {
    if i < |ts| {
      LexSpell(ts, i + 1);
      LexToken(ts[i], Spell(ts, i + 1));
      assert [ts[i]] + ts[i + 1..] == ts[i..];
    }
  }

  lemma LexSpelled(ts: seq<Token>, text: string)
    requires forall k | 0 <= k < |ts| :: Spellable(ts[k])
    requires Spell(ts, 0) == " " + text
    ensures Lex(text) == Some(ts)
  {
    LexSpell(ts, 0);
    LexSpace(text);
  }

  lemma SpellTriple(ts: seq<Token>, i: nat, triple: string)
    requires i + 3 <= |ts|
    requires triple == " " + SpellToken(ts[i]) + " " + SpellToken(ts[i + 1]) + " " + SpellToken(ts[i + 2])
    ensures Spell(ts, i) == triple + Spell(ts, i + 3)
  {
    SpellOne(ts, i);
    SpellOne(ts, i + 1);
    SpellOne(ts, i + 2);
    JoinThree(SpellToken(ts[i]), SpellToken(ts[i + 1]), SpellToken(ts[i + 2]), Spell(ts, i + 3));
  }

  lemma SpellOne(ts: seq<Token>, i: nat)
    requires i < |ts|
    ensures Spell(ts, i) == " " + SpellToken(ts[i]) + Spell(ts, i + 1)
  {
  }

  lemma JoinThree(a: string, b: string, c: string, rest: string)
    ensures " " + a + (" " + b + (" " + c + rest)) == " " + a + " " + b + " " + c + rest
  {
  }

  lemma SpellLastPair(ts: seq<Token>, i: nat, pair: string)
    requires i + 2 == |ts|
    requires pair == SpellToken(ts[i]) + " " + SpellToken(ts[i + 1])
    ensures Spell(ts, i) == " " + pair
  {
    assert Spell(ts, i + 1) == " " + SpellToken(ts[i + 1]);
  }

  lemma QuotePlain(name: string)
    requires '"' !in name
    ensures QuoteIdentifier(name) == "\"" + name + "\""
  {
    ReplaceCharAbsent(name, '"', "\"\"");
  }
}
