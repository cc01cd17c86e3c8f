/** Table and id-column choice, and the rendering of guarded updates to SQL text:
    internal/dokploydb/postgres.go. */
module Rendering {
  import opened Wrappers
  import opened Text
  import opened Model
  import opened Tables
  import opened Sql

  const RETARGET_TABLES := [
    "application", "compose", "postgres", "mysql", "mariadb", "mongo", "redis", "libsql", "domain"
  ]

  predicate IsRetargetTable(table: string) {
    table in RETARGET_TABLES
  }

  lemma RetargetTablesNotBlank(table: string)
    requires IsRetargetTable(table)
    ensures !Blank(table)
  {
    assert table != "" && !IsSpace(table[0]);
    InkIsNotBlank(table);
  }

  // -------------------------------------------------------------- id columns

  function DefaultIDColumn(table: string): string {
    table + "Id"
  }

  /** The first occurrence of every nonempty value, in order. */
  function UniqueStrings(values: seq<string>): seq<string> {
    if values == [] then []
    else
      var n := |values| - 1;
      var front := UniqueStrings(values[..n]);
      if values[n] == "" || values[n] in front then front else front + [values[n]]
  }

  method UniqueStringsLoop(values: seq<string>) returns (out: seq<string>)
    ensures out == UniqueStrings(values)
  {
    var seen: set<string> := {};
    out := [];
    for i := 0 to |values|
      invariant out == UniqueStrings(values[..i])
      invariant seen == set value <- out
    {
      assert values[..i + 1][..i] == values[..i];
      var value := values[i];
      if value == "" || value in seen {
        continue;
      }
      seen := seen + {value};
      out := out + [value];
    }
    assert values[..|values|] == values;
  }

  /** UniqueStrings keeps the nonempty values, each once. */
  lemma {:induction false} UniqueStringsKeepsEachOnce(values: seq<string>)
    ensures forall v: string :: v in UniqueStrings(values) <==> v in values && v != ""
    ensures forall i, j | 0 <= i < j < |UniqueStrings(values)| :: UniqueStrings(values)[i] != UniqueStrings(values)[j]
  {
    if values != [] {
      var n := |values| - 1;
      UniqueStringsKeepsEachOnce(values[..n]);
      assert values == values[..n] + [values[n]];
    }
  }

  lemma FrontAgrees(values: seq<string>, n: nat, k: nat)
    requires k < n <= |values|
    ensures values[..n][k] == values[k] && values[..n][..k] == values[..k]
  {
  }

  /** The values stay in the order in which each first occurs. */
  lemma {:induction false} UniqueStringsKeepsOrder(values: seq<string>) returns (firsts: seq<nat>)
    ensures |firsts| == |UniqueStrings(values)|
    ensures forall i | 0 <= i < |firsts| ::
      firsts[i] < |values| && values[firsts[i]] == UniqueStrings(values)[i] && values[firsts[i]] !in values[..firsts[i]]
    ensures forall i, j | 0 <= i < j < |firsts| :: firsts[i] < firsts[j]
  {
    if values == [] {
      firsts := [];
    } else {
      var n := |values| - 1;
      var front := values[..n];
      var earlier := UniqueStringsKeepsOrder(front);
      UniqueStringsKeepsEachOnce(front);
      forall i | 0 <= i < |earlier|
        ensures values[earlier[i]] == front[earlier[i]] && values[..earlier[i]] == front[..earlier[i]]
      {
        FrontAgrees(values, n, earlier[i]);
      }
      firsts := if values[n] == "" || values[n] in UniqueStrings(front) then earlier else earlier + [n];
      assert values[n] in front && values[n] != "" ==> values[n] in UniqueStrings(front);
    }
  }

  function SpecificIDColumns(table: string): seq<string> {
    match table
    case "application" => ["applicationId"]
    case "compose" => ["composeId"]
    case "postgres" => ["postgresId"]
    case "mysql" => ["mysqlId"]
    case "mariadb" => ["mariadbId"]
    case "mongo" => ["mongoId"]
    case "redis" => ["redisId"]
    case "libsql" => ["libsqlId"]
    case "domain" => ["domainId"]
    case _ => []
  }

  function IDColumnCandidates(table: string): seq<string> {
    UniqueStrings(SpecificIDColumns(table) + [DefaultIDColumn(table), "id"])
  }

  function FirstAllowed(table: string, candidate: string, allowed: seq<string>): Option<string> {
    if allowed == [] then None
    else if (candidate == "" && allowed[0] == DefaultIDColumn(table)) || candidate == allowed[0] then Some(allowed[0])
    else FirstAllowed(table, candidate, allowed[1..])
  }

  /** The column an apply uses for a plan row: its own if allowed, the default if it names none. */
  function ValidatedIDColumn(table: string, candidate: string): Option<string> {
    FirstAllowed(table, candidate, IDColumnCandidates(table))
  }

  function FirstPresent(candidates: seq<string>, columns: set<string>): Option<string> {
    if candidates == [] then None
    else if candidates[0] in columns then Some(candidates[0])
    else FirstPresent(candidates[1..], columns)
  }

  /** The column a dry-run uses to list a table. */
  function ResourceIDColumn(table: string, columns: set<string>): Option<string> {
    FirstPresent(IDColumnCandidates(table), columns)
  }

  lemma CandidatesAre(table: string)
    ensures forall c: string :: c in IDColumnCandidates(table) <==> c == table + "Id" || c == "id"
  {
    UniqueStringsKeepsEachOnce(SpecificIDColumns(table) + [DefaultIDColumn(table), "id"]);
  }

  lemma ServerColumnIsNoCandidate(table: string)
    requires IsRetargetTable(table)
    ensures SERVER_COLUMN !in IDColumnCandidates(table)
  {
    CandidatesAre(table);
    assert (table + "Id")[0] == table[0] != SERVER_COLUMN[0];
  }

  lemma {:induction false} FirstAllowedMeaning(table: string, candidate: string, allowed: seq<string>)
    requires forall i | 0 <= i < |allowed| :: allowed[i] != ""
    ensures candidate != "" ==>
      FirstAllowed(table, candidate, allowed) == if candidate in allowed then Some(candidate) else None
    ensures candidate == "" ==>
      FirstAllowed(table, candidate, allowed) ==
        if DefaultIDColumn(table) in allowed then Some(DefaultIDColumn(table)) else None
  {
    if allowed != [] {
      assert allowed[0] != "";
      FirstAllowedMeaning(table, candidate, allowed[1..]);
      assert allowed == [allowed[0]] + allowed[1..];
    }
  }

  lemma {:induction false} FirstPresentMeaning(candidates: seq<string>, columns: set<string>)
    ensures FirstPresent(candidates, columns).Some? <==> exists c <- candidates :: c in columns
    ensures FirstPresent(candidates, columns).Some? ==>
      FirstPresent(candidates, columns).value in candidates && FirstPresent(candidates, columns).value in columns
  {
    if candidates != [] {
      FirstPresentMeaning(candidates[1..], columns);
      assert candidates == [candidates[0]] + candidates[1..];
    }
  }

  /** A plan row's id column is accepted exactly when it is one of two names or empty. */
  lemma ValidatedIDColumnExact(table: string, candidate: string)
    ensures ValidatedIDColumn(table, candidate) ==
      if candidate == "" then Some(table + "Id")
      else if candidate == table + "Id" || candidate == "id" then Some(candidate)
      else None
  {
    CandidatesAre(table);
    var allowed := IDColumnCandidates(table);
    assert "" !in allowed;
    FirstAllowedMeaning(table, candidate, allowed);
  }

  /** Whatever column the dry-run lists by, the apply accepts: it exists, it is not
      the server column, and a table is listable exactly when such a column exists. */
  lemma ListedColumnIsApplicable(table: string, columns: set<string>)
    requires IsRetargetTable(table)
    ensures ResourceIDColumn(table, columns).Some? <==> exists c <- columns :: ValidatedIDColumn(table, c) == Some(c)
    ensures ResourceIDColumn(table, columns).Some? ==>
      var column := ResourceIDColumn(table, columns).value;
      column in columns && column != SERVER_COLUMN && ValidatedIDColumn(table, column) == Some(column)
  {
    CandidatesAre(table);
    ServerColumnIsNoCandidate(table);
    FirstPresentMeaning(IDColumnCandidates(table), columns);
    forall c: string ensures ValidatedIDColumn(table, c) == Some(c) <==> c in IDColumnCandidates(table) {
      ValidatedIDColumnExact(table, c);
    }
  }

  lemma UniqueOfThree(a: string, b: string)
    requires a != "" && b != "" && a != b
    ensures UniqueStrings([a, a, b]) == [a, b]
  {
    assert [a, a, b][..2] == [a, a] && [a, a][..1] == [a] && [a][..0] == [];
    assert UniqueStrings([a]) == [a];
    assert UniqueStrings([a, a]) == [a];
  }

  lemma OwnColumnFirst(table: string)
    requires IsRetargetTable(table)
    ensures SpecificIDColumns(table) == [table + "Id"]
  {
    match table
    case "application" => assert "application" + "Id" == "applicationId";
    case "compose" => assert "compose" + "Id" == "composeId";
    case "postgres" => assert "postgres" + "Id" == "postgresId";
    case "mysql" => assert "mysql" + "Id" == "mysqlId";
    case "mariadb" => assert "mariadb" + "Id" == "mariadbId";
    case "mongo" => assert "mongo" + "Id" == "mongoId";
    case "redis" => assert "redis" + "Id" == "redisId";
    case "libsql" => assert "libsql" + "Id" == "libsqlId";
    case "domain" => assert "domain" + "Id" == "domainId";
    case _ => assert false;
  }

  lemma FirstOfTwo(a: string, b: string, columns: set<string>)
    ensures FirstPresent([a, b], columns) == if a in columns then Some(a) else if b in columns then Some(b) else None
  {
    assert [a, b][1..] == [b] && [b][1..] == [];
    assert FirstPresent([b], columns) == if b in columns then Some(b) else None;
  }

  /** A table is listed by its own id column if it has one, else by the plain one. */
  lemma ResourceIDColumnExact(table: string, columns: set<string>)
    requires IsRetargetTable(table)
    ensures ResourceIDColumn(table, columns) ==
      if table + "Id" in columns then Some(table + "Id") else if "id" in columns then Some("id") else None
  {
    var own := table + "Id";
    OwnColumnFirst(table);
    assert table != "";
    assert |own| > |"id"|;
    assert SpecificIDColumns(table) + [own, "id"] == [own, own, "id"];
    UniqueOfThree(own, "id");
    FirstOfTwo(own, "id", columns);
  }

  // -------------------------------------------------------------- rendering

  function RetargetSQL(row: PlanRow, idColumn: string): Statement {
    if row.newServerID == LOCAL_SERVER_ID then
      Statement(
        "UPDATE " + QuoteIdentifier(row.table) + " SET \"serverId\" = NULL WHERE "
        + QuoteIdentifier(idColumn) + " = $1 AND \"serverId\" = $2",
        [row.id, row.oldServerID])
    else if row.oldServerID == LOCAL_SERVER_ID then
      Statement(
        "UPDATE " + QuoteIdentifier(row.table) + " SET \"serverId\" = $1 WHERE "
        + QuoteIdentifier(idColumn) + " = $2 AND \"serverId\" IS NULL",
        [row.newServerID, row.id])
    else
      Statement(
        "UPDATE " + QuoteIdentifier(row.table) + " SET \"serverId\" = $1 WHERE "
        + QuoteIdentifier(idColumn) + " = $2 AND \"serverId\" = $3",
        [row.newServerID, row.id, row.oldServerID])
  }

  /** How a server ID is stored: the built-in server is NULL. */
  function Slot(serverID: string): Option<string> {
    if serverID == LOCAL_SERVER_ID then None else Some(serverID)
  }

  function GuardedMove(row: PlanRow, idColumn: string): Move {
    Move(row.table, idColumn, row.id, Slot(row.oldServerID), Slot(row.newServerID))
  }

  function UpdateText(table: string, value: string, idColumn: string, key: string, tail: string): string {
    "UPDATE " + table + " SET \"serverId\" = " + value + " WHERE " + idColumn + " = " + key
    + " AND \"serverId\" " + tail
  }

  function UpdateTokens(table: string, idColumn: string, server: string, value: Token, k: nat, c1: Token, c2: Token): seq<Token> {
    [Word("UPDATE"), Identifier(table), Word("SET"), Identifier(server), Equals, value,
     Word("WHERE"), Identifier(idColumn), Equals, Placeholder(k), Word("AND"), Identifier(server), c1, c2]
  }

  lemma Regroup(sp: string, u: string, t: string, s1: string, s2: string, v: string,
                w: string, i: string, e: string, k: string, a: string, tail: string)
    ensures sp + (u + t + (s1 + s2) + v + w + i + (e + sp) + k + (a + sp) + tail)
            == (sp + u + t + s1) + (s2 + v) + (w + i + e) + (sp + k + a) + (sp + tail)
  {
  }

  lemma UpdateTextSpelled(table: string, value: string, idColumn: string, key: string, tail: string)
    ensures
      " " + UpdateText(table, value, idColumn, key, tail) ==
      (" " + "UPDATE" + " " + table + " " + "SET")
      + (" " + ("\"" + "serverId" + "\"") + " " + "=" + " " + value)
      + (" " + "WHERE" + " " + idColumn + " " + "=")
      + (" " + key + " " + "AND" + " " + ("\"" + "serverId" + "\""))
      + (" " + tail)
  {
    var set1, set2, andServer := " SET", " \"serverId\" = ", " AND \"serverId\"";
    Regroup(" ", "UPDATE ", table, set1, set2, value, " WHERE ", idColumn, " =", key, andServer, tail);
    assert set1 + set2 == " SET \"serverId\" = ";
    assert " =" + " " == " = ";
    assert andServer + " " == " AND \"serverId\" ";
    SetSpelled(table);
    WhereSpelled(idColumn, key);
  }

  lemma SetSpelled(table: string)
    ensures " " + "UPDATE" + " " + table + " " + "SET" == " " + "UPDATE " + table + " SET"
    ensures " " + ("\"" + "serverId" + "\"") + " " + "=" + " " == " \"serverId\" = "
  {
    assert " " + "UPDATE" + " " == " " + "UPDATE ";
    assert " " + "UPDATE" + " " + table + (" " + "SET") == " " + "UPDATE " + table + " SET";
  }

  lemma WhereSpelled(idColumn: string, key: string)
    ensures " " + "WHERE" + " " + idColumn + " " + "=" == " WHERE " + idColumn + " ="
    ensures " " + key + " " + "AND" + " " + ("\"" + "serverId" + "\"") == " " + key + " AND \"serverId\""
  {
    assert " " + "WHERE" + " " == " WHERE ";
    assert " WHERE " + idColumn + (" " + "=") == " WHERE " + idColumn + " =";
    assert " " + "AND" + " " + ("\"" + "serverId" + "\"") == " AND \"serverId\"";
  }

  lemma SpellFourteen(ts: seq<Token>, a: string, b: string, c: string, d: string, tail: string)
    requires |ts| == 14
    requires a == " " + SpellToken(ts[0]) + " " + SpellToken(ts[1]) + " " + SpellToken(ts[2])
    requires b == " " + SpellToken(ts[3]) + " " + SpellToken(ts[4]) + " " + SpellToken(ts[5])
    requires c == " " + SpellToken(ts[6]) + " " + SpellToken(ts[7]) + " " + SpellToken(ts[8])
    requires d == " " + SpellToken(ts[9]) + " " + SpellToken(ts[10]) + " " + SpellToken(ts[11])
    requires tail == SpellToken(ts[12]) + " " + SpellToken(ts[13])
    ensures Spell(ts, 0) == a + b + c + d + (" " + tail)
  {
    SpellTriple(ts, 0, a);
    SpellTriple(ts, 3, b);
    SpellTriple(ts, 6, c);
    SpellTriple(ts, 9, d);
    SpellLastPair(ts, 12, tail);
    Associate(a, b, c, d, " " + tail);
  }

  lemma Associate(a: string, b: string, c: string, d: string, e: string)
    ensures a + (b + (c + (d + e))) == a + b + c + d + e
  {
  }

  lemma LexUpdate(table: string, idColumn: string, value: Token, k: nat, c1: Token, c2: Token, text: string)
    requires k < 10 && Spellable(value) && Spellable(c1) && Spellable(c2)
    requires text == UpdateText(QuoteIdentifier(table), SpellToken(value), QuoteIdentifier(idColumn),
                                SpellToken(Placeholder(k)), SpellToken(c1) + " " + SpellToken(c2))
    ensures Lex(text) == Some(UpdateTokens(table, idColumn, SERVER_COLUMN, value, k, c1, c2))
  {
    var ts := UpdateTokens(table, idColumn, SERVER_COLUMN, value, k, c1, c2);
    UpdateSpelled(table, idColumn, value, k, c1, c2, text);
    UpdateSpellable(table, idColumn, value, k, c1, c2);
    LexSpelled(ts, text);
  }

  lemma UpdateSpellable(table: string, idColumn: string, value: Token, k: nat, c1: Token, c2: Token)
    requires k < 10 && Spellable(value) && Spellable(c1) && Spellable(c2)
    ensures var ts := UpdateTokens(table, idColumn, SERVER_COLUMN, value, k, c1, c2);
      forall i | 0 <= i < |ts| :: Spellable(ts[i])
  {
    assert Spellable(Word("UPDATE")) && Spellable(Word("SET")) && Spellable(Word("WHERE")) && Spellable(Word("AND"));
  }

  lemma UpdateSpelled(table: string, idColumn: string, value: Token, k: nat, c1: Token, c2: Token, text: string)
    requires text == UpdateText(QuoteIdentifier(table), SpellToken(value), QuoteIdentifier(idColumn),
                                SpellToken(Placeholder(k)), SpellToken(c1) + " " + SpellToken(c2))
    ensures Spell(UpdateTokens(table, idColumn, SERVER_COLUMN, value, k, c1, c2), 0) == " " + text
  {
    var ts := UpdateTokens(table, idColumn, SERVER_COLUMN, value, k, c1, c2);
    QuotePlain(SERVER_COLUMN);
    UpdateTextSpelled(QuoteIdentifier(table), SpellToken(value), QuoteIdentifier(idColumn),
                      SpellToken(Placeholder(k)), SpellToken(c1) + " " + SpellToken(c2));
    SpellFourteen(ts,
      " " + SpellToken(ts[0]) + " " + SpellToken(ts[1]) + " " + SpellToken(ts[2]),
      " " + SpellToken(ts[3]) + " " + SpellToken(ts[4]) + " " + SpellToken(ts[5]),
      " " + SpellToken(ts[6]) + " " + SpellToken(ts[7]) + " " + SpellToken(ts[8]),
      " " + SpellToken(ts[9]) + " " + SpellToken(ts[10]) + " " + SpellToken(ts[11]),
      SpellToken(ts[12]) + " " + SpellToken(ts[13]));
  }

  /** The value, the key argument's number and the last two tokens of a retarget statement. */
  datatype Shape = Shape(value: Token, key: nat, c1: Token, c2: Token)

  function ShapeOf(row: PlanRow): Shape {
    if row.newServerID == LOCAL_SERVER_ID then Shape(Word("NULL"), 1, Equals, Placeholder(2))
    else if row.oldServerID == LOCAL_SERVER_ID then Shape(Placeholder(1), 2, Word("IS"), Word("NULL"))
    else Shape(Placeholder(1), 2, Equals, Placeholder(3))
  }

  lemma ShapeText(t: string, c: string, mid: string, value: string, end: string, key: string, tail: string)
    requires mid == " SET \"serverId\" = " + value + " WHERE "
    requires end == " = " + key + " AND \"serverId\" " + tail
    ensures "UPDATE " + t + mid + c + end == UpdateText(t, value, c, key, tail)
  {
  }

  lemma TextToLocal(t: string, c: string)
    ensures "UPDATE " + t + " SET \"serverId\" = NULL WHERE " + c + " = $1 AND \"serverId\" = $2"
            == UpdateText(t, "NULL", c, "$1", "= $2")
  {
    ShapeText(t, c, " SET \"serverId\" = NULL WHERE ", "NULL", " = $1 AND \"serverId\" = $2", "$1", "= $2");
  }

  lemma TextFromLocal(t: string, c: string)
    ensures "UPDATE " + t + " SET \"serverId\" = $1 WHERE " + c + " = $2 AND \"serverId\" IS NULL"
            == UpdateText(t, "$1", c, "$2", "IS NULL")
  {
    ShapeText(t, c, " SET \"serverId\" = $1 WHERE ", "$1", " = $2 AND \"serverId\" IS NULL", "$2", "IS NULL");
  }

  lemma TextBetween(t: string, c: string)
    ensures "UPDATE " + t + " SET \"serverId\" = $1 WHERE " + c + " = $2 AND \"serverId\" = $3"
            == UpdateText(t, "$1", c, "$2", "= $3")
  {
    ShapeText(t, c, " SET \"serverId\" = $1 WHERE ", "$1", " = $2 AND \"serverId\" = $3", "$2", "= $3");
  }

  lemma SpelledShape(row: PlanRow)
    ensures var shape := ShapeOf(row);
      SpellToken(shape.c1) + " " + SpellToken(shape.c2) ==
      if row.newServerID == LOCAL_SERVER_ID then "= $2"
      else if row.oldServerID == LOCAL_SERVER_ID then "IS NULL"
      else "= $3"
    ensures SpellToken(ShapeOf(row).value) == if row.newServerID == LOCAL_SERVER_ID then "NULL" else "$1"
    ensures SpellToken(Placeholder(ShapeOf(row).key)) == if row.newServerID == LOCAL_SERVER_ID then "$1" else "$2"
  {
  }

  lemma RetargetText(row: PlanRow, idColumn: string)
    ensures var shape := ShapeOf(row);
      RetargetSQL(row, idColumn).text ==
      UpdateText(QuoteIdentifier(row.table), SpellToken(shape.value), QuoteIdentifier(idColumn),
                 SpellToken(Placeholder(shape.key)), SpellToken(shape.c1) + " " + SpellToken(shape.c2))
  {
    SpelledShape(row);
    TextToLocal(QuoteIdentifier(row.table), QuoteIdentifier(idColumn));
    TextFromLocal(QuoteIdentifier(row.table), QuoteIdentifier(idColumn));
    TextBetween(QuoteIdentifier(row.table), QuoteIdentifier(idColumn));
  }

  lemma RetargetLexes(row: PlanRow, idColumn: string)
    ensures var shape := ShapeOf(row);
      Lex(RetargetSQL(row, idColumn).text) ==
      Some(UpdateTokens(row.table, idColumn, SERVER_COLUMN, shape.value, shape.key, shape.c1, shape.c2))
  {
    var shape := ShapeOf(row);
    RetargetText(row, idColumn);
    LexUpdate(row.table, idColumn, shape.value, shape.key, shape.c1, shape.c2, RetargetSQL(row, idColumn).text);
  }

  function UpdateOf(row: PlanRow, idColumn: string): Update {
    if row.newServerID == LOCAL_SERVER_ID then
      Update(row.table, SERVER_COLUMN, NullValue, [ColumnEquals(idColumn, 1), ColumnEquals(SERVER_COLUMN, 2)])
    else if row.oldServerID == LOCAL_SERVER_ID then
      Update(row.table, SERVER_COLUMN, Argument(1), [ColumnEquals(idColumn, 2), ColumnIsNull(SERVER_COLUMN)])
    else
      Update(row.table, SERVER_COLUMN, Argument(1), [ColumnEquals(idColumn, 2), ColumnEquals(SERVER_COLUMN, 3)])
  }

  lemma ParseUpdateTokens(row: PlanRow, idColumn: string)
    ensures var shape := ShapeOf(row);
      Parse(UpdateTokens(row.table, idColumn, SERVER_COLUMN, shape.value, shape.key, shape.c1, shape.c2))
      == Some(UpdateOf(row, idColumn))
  {
    var shape := ShapeOf(row);
    var ts := UpdateTokens(row.table, idColumn, SERVER_COLUMN, shape.value, shape.key, shape.c1, shape.c2);
    ParseTwo(idColumn, shape.key, shape.c1, shape.c2);
    assert ts[7..] == [Identifier(idColumn), Equals, Placeholder(shape.key),
                       Word("AND"), Identifier(SERVER_COLUMN), shape.c1, shape.c2];
  }

  lemma ParseTwo(idColumn: string, key: nat, c1: Token, c2: Token)
    requires (c1 == Equals && c2.Placeholder?) || (c1 == Word("IS") && c2 == Word("NULL"))
    ensures ParseConditions([Identifier(idColumn), Equals, Placeholder(key),
                             Word("AND"), Identifier(SERVER_COLUMN), c1, c2])
      == Some([ColumnEquals(idColumn, key),
               if c1 == Equals then ColumnEquals(SERVER_COLUMN, c2.number) else ColumnIsNull(SERVER_COLUMN)])
  {
    var first := ColumnEquals(idColumn, key);
    var last := [Identifier(SERVER_COLUMN), c1, c2];
    var second := if c1 == Equals then ColumnEquals(SERVER_COLUMN, c2.number) else ColumnIsNull(SERVER_COLUMN);
    assert last[3..] == [];
    assert ParseConditions(last) == ParseMore(second, []);
    var more := [Word("AND")] + last;
    assert more[1..] == last;
    assert ParseMore(first, more) == Some([first] + [second]);
    var all := [Identifier(idColumn), Equals, Placeholder(key)] + more;
    assert all[3..] == more;
    assert ParseConditions(all) == ParseMore(first, more);
    assert all == [Identifier(idColumn), Equals, Placeholder(key), Word("AND"), Identifier(SERVER_COLUMN), c1, c2];
    assert [first] + [second] == [first, second];
  }

  /** The statement's WHERE clause is true of exactly the rows the move's guard
      selects, in all three shapes and with NULL comparing as unknown. */
  lemma WhereIsGuard(row: PlanRow, idColumn: string, dbRow: Row)
    requires row.oldServerID != row.newServerID
    ensures ArgumentsBound(UpdateOf(row, idColumn).conditions, RetargetSQL(row, idColumn).args)
    ensures WhereTruth(UpdateOf(row, idColumn).conditions, RetargetSQL(row, idColumn).args, dbRow) == True
            <==> Guard(GuardedMove(row, idColumn), dbRow)
  {
    var conditions, args := UpdateOf(row, idColumn).conditions, ArgumentsOf(row);
    ArgumentsAre(row, idColumn);
    assert conditions == [conditions[0], conditions[1]];
    TwoConditions(conditions[0], conditions[1], args, dbRow);
  }

  /** The positional arguments of a retarget statement. */
  function ArgumentsOf(row: PlanRow): seq<string> {
    if row.newServerID == LOCAL_SERVER_ID then [row.id, row.oldServerID]
    else if row.oldServerID == LOCAL_SERVER_ID then [row.newServerID, row.id]
    else [row.newServerID, row.id, row.oldServerID]
  }

  lemma ArgumentsAre(row: PlanRow, idColumn: string)
    ensures RetargetSQL(row, idColumn).args == ArgumentsOf(row)
  {
  }

  lemma TwoConditions(a: Condition, b: Condition, args: seq<string>, dbRow: Row)
    requires a.ColumnEquals? ==> InRange(a.number, args)
    requires b.ColumnEquals? ==> InRange(b.number, args)
    ensures ArgumentsBound([a, b], args)
    ensures WhereTruth([a, b], args, dbRow) == AndTruth(ConditionTruth(a, args, dbRow), ConditionTruth(b, args, dbRow))
  {
    assert [a, b][1..] == [b] && [b][1..] == [];
    assert WhereTruth([b], args, dbRow) == AndTruth(ConditionTruth(b, args, dbRow), True);
  }

  /** Lexing, parsing and running the rendered text is the abstract guarded move:
      it fails exactly when the table or a column is missing, it affects exactly the
      rows the guard selects, and it leaves the database the move leaves. */
  lemma RenderingKeepsMeaning(db: Dokploy, row: PlanRow, idColumn: string)
    requires row.oldServerID != row.newServerID
    ensures var m := GuardedMove(row, idColumn);
      var ran := Execute(db, RetargetSQL(row, idColumn));
      && (ran.Success? <==> HasColumns(db, m))
      && (ran.Success? ==> ran.value == (DoMove(db, m), |Hits(m, RowsOf(db, m.table))|))
  {
    var statement, update := RetargetSQL(row, idColumn), UpdateOf(row, idColumn);
    assert Execute(db, statement) == RunUpdate(db, update, statement.args) by {
      RetargetLexes(row, idColumn);
      ParseUpdateTokens(row, idColumn);
    }
    RunUpdateIsMove(db, row, idColumn);
  }

  lemma RunUpdateIsMove(db: Dokploy, row: PlanRow, idColumn: string)
    requires row.oldServerID != row.newServerID
    ensures var m := GuardedMove(row, idColumn);
      var ran := RunUpdate(db, UpdateOf(row, idColumn), RetargetSQL(row, idColumn).args);
      && (ran.Success? <==> HasColumns(db, m))
      && (ran.Success? ==> ran.value == (DoMove(db, m), |Hits(m, RowsOf(db, m.table))|))
  {
    var m, args, update := GuardedMove(row, idColumn), RetargetSQL(row, idColumn).args, UpdateOf(row, idColumn);
    WhereIsGuard(row, idColumn, map[]);
    UpdateFitsMove(row, idColumn);
    if m.table in db.tables {
      var rows := db.tables[m.table].rows;
      forall i: nat | i < |rows|
        ensures WhereTruth(update.conditions, args, rows[i]) == True <==> Guard(m, rows[i])
      {
        WhereIsGuard(row, idColumn, rows[i]);
      }
    }
    GuardedUpdateIsMove(db, update, args, m);
  }

  /** The statement addresses the move's table and columns and writes its new server. */
  predicate FitsMove(update: Update, args: seq<string>, m: Move) {
    && update.table == m.table && update.column == SERVER_COLUMN
    && (forall c <- update.conditions :: c.column == m.idColumn || c.column == SERVER_COLUMN)
    && (exists c <- update.conditions :: c.column == m.idColumn)
    && ArgumentsBound(update.conditions, args)
    && (update.value.NullValue? ==> m.target == None)
    && (update.value.Argument? ==> InRange(update.value.number, args) && m.target == Some(args[update.value.number - 1]))
  }

  lemma UpdateFitsMove(row: PlanRow, idColumn: string)
    requires row.oldServerID != row.newServerID
    ensures FitsMove(UpdateOf(row, idColumn), RetargetSQL(row, idColumn).args, GuardedMove(row, idColumn))
  {
    var update := UpdateOf(row, idColumn);
    assert update.conditions[0] in update.conditions && update.conditions[0].column == idColumn;
    WhereIsGuard(row, idColumn, map[]);
  }

  lemma GuardedUpdateIsMove(db: Dokploy, update: Update, args: seq<string>, m: Move)
    requires FitsMove(update, args, m)
    requires m.table in db.tables ==>
      forall i: nat | i < |db.tables[m.table].rows| ::
        WhereTruth(update.conditions, args, db.tables[m.table].rows[i]) == True <==> Guard(m, db.tables[m.table].rows[i])
    ensures RunUpdate(db, update, args).Success? <==> HasColumns(db, m)
    ensures RunUpdate(db, update, args).Success? ==>
      RunUpdate(db, update, args).value == (DoMove(db, m), |Hits(m, RowsOf(db, m.table))|)
  {
    if HasColumns(db, m) {
      assert AffectedRows(update, args, db.tables[m.table].rows) == Hits(m, db.tables[m.table].rows);
      EqualDatabases(RunUpdate(db, update, args).value.0, DoMove(db, m));
    }
  }
}
