/**
 * The text processing of scripts/test-database.js: the `.env.local` reader
 * that fills the process environment, and the splitter that cuts a SQL file
 * into statements. Reading the files is a parameter; executing the
 * statements is left out.
 */
module TestDatabase {
  import opened Wrappers
  import opened Text
  import opened Seqs

  /**
   * One line of the env file: `const [key, value] = line.split('=')`, kept
   * when the key and the value are non-empty and the untrimmed key does not
   * start with `#`; both are then trimmed. A stored name and value hold no
   * `=` and no surrounding white space.
   */
  function ParseEnvLine(line: string): (entry: Option<(string, string)>)
    ensures entry.Some? ==> '=' !in entry.value.0 && '=' !in entry.value.1
    ensures entry.Some? ==> entry.value.0 == Trim(entry.value.0) && entry.value.1 == Trim(entry.value.1)
  {
    var parts := Split(line, '=');
    if parts[0] != "" && |parts| >= 2 && parts[1] != "" && !StartsWith(parts[0], "#") then
      TrimIdempotent(parts[0]);
      TrimIdempotent(parts[1]);
      TrimOmits(parts[0], '=');
      TrimOmits(parts[1], '=');
      Some((Trim(parts[0]), Trim(parts[1])))
    else
      None
  }

  /** Everything after a second `=` is dropped: `KEY=a=b` stores `a`. */
  lemma OnlyFirstValueKept(key: string, a: string, b: string)
    requires '=' !in key && '=' !in a
    requires key != "" && a != "" && !StartsWith(key, "#")
    ensures ParseEnvLine(key + "=" + a + "=" + b) == Some((Trim(key), Trim(a)))
  {
    var line := key + "=" + a + "=" + b;
    var tail := a + ['='] + b;
    assert line == key + ['='] + tail;
    SplitAtSeparator(key, tail, '=');
    SplitAtSeparator(a, b, '=');
    var parts := Split(line, '=');
    assert parts == [key] + Split(tail, '=');
    assert parts[0] == key && parts[1] == a && |parts| >= 2;
  }

  /**
   * A line with one `=` between a non-empty key and a non-empty value is
   * stored under the trimmed key, unless the key as written starts with `#`.
   */
  lemma KeyValueLine(key: string, value: string)
    requires '=' !in key && '=' !in value && key != "" && value != ""
    ensures ParseEnvLine(key + "=" + value) == if StartsWith(key, "#") then None else Some((Trim(key), Trim(value)))
  {
    SplitKeyValue(key, value);
  }

  lemma SplitKeyValue(key: string, value: string)
    requires '=' !in key && '=' !in value
    ensures Split(key + "=" + value, '=') == [key, value]
  {
    assert key + "=" + value == key + ['='] + value;
    SplitAtSeparator(key, value, '=');
    SplitWithoutSeparator(value, '=');
  }

  /**
   * Comments are recognised before trimming: a key indented by a blank is
   * stored under its trimmed name, so ` #X=1` sets `#X`.
   */
  lemma IndentedKeyIsStored(key: string, value: string)
    requires '=' !in key && '=' !in value && value != ""
    ensures ParseEnvLine(" " + key + "=" + value) == Some((Trim(key), Trim(value)))
  {
    var padded := " " + key;
    assert '=' !in padded;
    assert !StartsWith(padded, "#") by {
      assert padded[..1] == " ";
    }
    KeyValueLine(padded, value);
    assert padded == [' '] + key;
    TrimLeadingBlank(' ', key);
  }

  /**
   * A key of blanks passes the truthiness test and trims to the empty name,
   * which `process.env` does not take: the environment stays as it was.
   */
  lemma BlankKeyIgnored(env: map<string, string>, pad: string, value: string)
    requires pad != "" && AllWhiteSpace(pad)
    requires '=' !in value && value != ""
    ensures ParseEnvLine(pad + "=" + value) == Some(("", Trim(value)))
    ensures ApplyLine(env, pad + "=" + value) == env
  {
    BlankKeyParses(pad, value);
  }

  lemma BlankKeyParses(pad: string, value: string)
    requires pad != "" && AllWhiteSpace(pad)
    requires '=' !in value && value != ""
    ensures ParseEnvLine(pad + "=" + value) == Some(("", Trim(value)))
  {
    assert IsWhiteSpace(pad[0]);
    assert '=' !in pad by {
      assert forall k :: 0 <= k < |pad| ==> pad[k] != '=' by {
        assert !IsWhiteSpace('=');
      }
    }
    KeyValueLine(pad, value);
  }

  /** A line whose untrimmed key starts with `#` is skipped. */
  lemma CommentLineSkipped(key: string, value: string)
    requires '=' !in key && StartsWith(key, "#")
    ensures ParseEnvLine(key + "=" + value) == None
  {
    var line := key + "=" + value;
    assert line == key + ['='] + value;
    SplitAtSeparator(key, value, '=');
    assert Split(line, '=')[0] == key;
  }

  /** A line without `=` has no value and is skipped. */
  lemma NoSeparatorSkipped(line: string)
    requires '=' !in line
    ensures ParseEnvLine(line) == None
  {
    SplitWithoutSeparator(line, '=');
  }

  /** A line that starts with `=` has an empty key and is skipped. */
  lemma EmptyKeySkipped(value: string)
    ensures ParseEnvLine("=" + value) == None
  {
    assert "=" + value == "" + ['='] + value;
    SplitAtSeparator("", value, '=');
  }

  /**
   * A line whose first `=` is followed by another `=` or by nothing has an
   * empty value and is skipped: `KEY=` and `KEY==x` set nothing.
   */
  lemma EmptyValueSkipped(key: string, rest: string)
    requires '=' !in key && (rest == "" || rest[0] == '=')
    ensures ParseEnvLine(key + "=" + rest) == None
  {
    assert key + "=" + rest == key + ['='] + rest;
    SplitAtSeparator(key, rest, '=');
    if rest != "" {
      assert rest == "" + ['='] + rest[1..];
      SplitAtSeparator("", rest[1..], '=');
    }
  }

  /**
   * The `forEach` callback: a skipped line leaves the environment as it is,
   * and so does an entry whose trimmed name is empty, because `process.env`
   * refuses to set the empty name. Otherwise the entry's name is bound to
   * its value and every other name keeps its binding or stays unbound.
   */
  function ApplyLine(env: map<string, string>, line: string): (next: map<string, string>)
    ensures ParseEnvLine(line).None? || ParseEnvLine(line).value.0 == "" ==> next == env
    ensures ParseEnvLine(line).Some? && ParseEnvLine(line).value.0 != "" ==>
      var key := ParseEnvLine(line).value.0;
      && key in next && next[key] == ParseEnvLine(line).value.1
      && (forall name :: name != key ==> (name in next <==> name in env))
      && (forall name :: name != key && name in env ==> next[name] == env[name])
  {
    var entry := ParseEnvLine(line);
    if entry.Some? && entry.value.0 != "" then env[entry.value.0 := entry.value.1] else env
  }

  /** The environment after the lines are applied in order; no name is ever unbound. */
  function LoadedEnv(env: map<string, string>, lines: seq<string>): (loaded: map<string, string>)
    ensures env.Keys <= loaded.Keys
  {
    if lines == [] then env else ApplyLine(LoadedEnv(env, lines[..|lines| - 1]), lines[|lines| - 1])
  }

  lemma LoadedEnvStep(env: map<string, string>, lines: seq<string>, i: nat)
    requires i < |lines|
    ensures LoadedEnv(env, lines[..i + 1]) == ApplyLine(LoadedEnv(env, lines[..i]), lines[i])
  {
    assert lines[..i + 1][..i] == lines[..i];
  }

  /** A later line for a key overrides every earlier one. */
  lemma LaterLineWins(env: map<string, string>, lines: seq<string>, line: string)
    requires ParseEnvLine(line).Some? && ParseEnvLine(line).value.0 != ""
    ensures var entry := ParseEnvLine(line).value;
      LoadedEnv(env, lines + [line]) == LoadedEnv(env, lines)[entry.0 := entry.1]
  {
    var all := lines + [line];
    LoadedEnvStep(env, all, |lines|);
    assert all[..|lines| + 1] == all && all[..|lines|] == lines;
    var entry := ParseEnvLine(line).value;
    assert ApplyLine(LoadedEnv(env, lines), line) == LoadedEnv(env, lines)[entry.0 := entry.1];
  }

  /** A key that no line defines keeps its previous value, or stays absent. */
  lemma {:induction false} OtherKeysUnchanged(env: map<string, string>, lines: seq<string>, key: string)
    requires forall i :: 0 <= i < |lines| ==> ParseEnvLine(lines[i]).None? || ParseEnvLine(lines[i]).value.0 != key
    ensures key in LoadedEnv(env, lines) <==> key in env
    ensures key in env ==> LoadedEnv(env, lines)[key] == env[key]
  {
    if lines != [] {
      var init := lines[..|lines| - 1];
      assert forall i :: 0 <= i < |init| ==> init[i] == lines[i];
      OtherKeysUnchanged(env, init, key);
    }
  }

  /** `process.env`. */
  class Environment {
    var vars: map<string, string>

    constructor(vars: map<string, string>)
      ensures this.vars == vars
    {
      this.vars := vars;
    }

    /**
     * `loadEnv`: a file that cannot be read leaves the environment as it
     * was; otherwise each line is applied in turn.
     */
    method LoadEnv(file: Option<string>)
      modifies this
      ensures file.None? ==> vars == old(vars)
      ensures file.Some? ==> vars == LoadedEnv(old(vars), Split(file.value, '\n'))
    {
      if file.None? {
        return;
      }
      ghost var start := vars;
      var lines := Split(file.value, '\n');
      var i := 0;
      while i < |lines|
        invariant 0 <= i <= |lines|
        invariant vars == LoadedEnv(start, lines[..i])
      {
        LoadedEnvStep(start, lines, i);
        vars := ApplyLine(vars, lines[i]);
        i := i + 1;
      }
      assert lines[..|lines|] == lines;
    }
  }

  /** `.map(stmt => stmt.trim())`. */
  function TrimAll(pieces: seq<string>): (r: seq<string>)
    ensures |r| == |pieces|
    ensures forall i :: 0 <= i < |r| ==> r[i] == Trim(pieces[i])
  {
    seq(|pieces|, i requires 0 <= i < |pieces| => Trim(pieces[i]))
  }

  /** `.filter(stmt => stmt.length > 0 && !stmt.startsWith('--'))`. */
  function IsStatement(): string -> bool {
    (s: string) => |s| > 0 && !StartsWith(s, "--")
  }

  /** What the splitter promises of each statement it returns. */
  predicate CleanStatement(s: string) {
    s != "" && !StartsWith(s, "--") && ';' !in s && Trim(s) == s
  }

  /**
   * The statements of a SQL file: the text between semicolons, trimmed,
   * without empty pieces and without pieces that begin with a `--` comment.
   */
  function Statements(sql: string): seq<string> {
    Filter(TrimAll(Split(sql, ';')), IsStatement())
  }

  /** The statements keep the file's order, and each is a clean statement. */
  lemma StatementsAreClean(sql: string)
    ensures IsSubsequence(Statements(sql), TrimAll(Split(sql, ';')))
    ensures forall i :: 0 <= i < |Statements(sql)| ==> CleanStatement(Statements(sql)[i])
  {
    var chunks := Split(sql, ';');
    var pieces := TrimAll(chunks);
    var stmts := Filter(pieces, IsStatement());
    FilterIsSubsequence(pieces, IsStatement());
    forall i | 0 <= i < |stmts|
      ensures CleanStatement(stmts[i])
    {
      assert stmts[i] in pieces && IsStatement()(stmts[i]);
      var k :| 0 <= k < |pieces| && pieces[k] == stmts[i];
      TrimIdempotent(chunks[k]);
      TrimOmits(chunks[k], ';');
    }
  }

  /**
   * A chunk that starts with a `--` comment is dropped whole, SQL after the
   * comment included; the statements after it are unaffected.
   */
  lemma CommentChunkDropped(chunk: string, rest: string)
    requires ';' !in chunk && StartsWith(Trim(chunk), "--")
    ensures Statements(chunk + ";" + rest) == Statements(rest)
  {
    var head := Trim(chunk);
    var tail := TrimAll(Split(rest, ';'));
    TrimmedChunks(chunk, rest);
    FilterAppend([head], tail, IsStatement());
    assert Filter([head], IsStatement()) == [] by {
      assert !IsStatement()(head);
    }
  }

  lemma TrimmedChunks(chunk: string, rest: string)
    requires ';' !in chunk
    ensures TrimAll(Split(chunk + ";" + rest, ';')) == [Trim(chunk)] + TrimAll(Split(rest, ';'))
  {
    assert chunk + ";" + rest == chunk + [';'] + rest;
    SplitAtSeparator(chunk, rest, ';');
    TrimAllCons(chunk, Split(rest, ';'));
  }

  lemma TrimAllCons(piece: string, pieces: seq<string>)
    ensures TrimAll([piece] + pieces) == [Trim(piece)] + TrimAll(pieces)
  {
    var all := [piece] + pieces;
    assert forall i :: 1 <= i < |all| ==> all[i] == pieces[i - 1];
  }

  /**
   * A chunk that opens with `--` is dropped with everything in it, so a
   * statement written on the lines after a comment, before the next `;`,
   * is never executed.
   */
  lemma StatementAfterCommentIsLost(comment: string, rest: string)
    requires ';' !in comment
    ensures Statements("--" + comment + ";" + rest) == Statements(rest)
  {
    var chunk := "--" + comment;
    assert ';' !in chunk;
    assert "--" + comment + ";" + rest == chunk + ";" + rest;
    assert StartsWith(Trim(chunk), "--") by {
      assert !IsWhiteSpace(chunk[0]) && !IsWhiteSpace(chunk[1]);
      var t := TrimStart(chunk);
      assert t == chunk;
      var r := TrimEnd(t);
      assert r[..2] == chunk[..2];
    }
    CommentChunkDropped(chunk, rest);
  }

  /** Each statement with a `;` appended. */
  function WithSemicolons(stmts: seq<string>): (calls: seq<string>)
    ensures |calls| == |stmts|
  {
    seq(|stmts|, i requires 0 <= i < |stmts| => stmts[i] + ";")
  }

  lemma WithSemicolonsAppend(a: seq<string>, b: seq<string>)
    ensures WithSemicolons(a + b) == WithSemicolons(a) + WithSemicolons(b)
  {
    assert forall k :: 0 <= k < |a| + |b| ==> (a + b)[k] == if k < |a| then a[k] else b[k - |a|];
  }

  /** The SQL text sent for a file: each of its statements and a `;`, in split order. */
  function ExecutedSql(sql: string): (calls: seq<string>)
    ensures |calls| == |Statements(sql)|
  {
    WithSemicolons(Statements(sql))
  }

  /**
   * Split on `;`, each call gives back its statement and nothing after one
   * final `;`: the statement's own semicolon, and no other.
   */
  lemma EachCallOneStatement(sql: string)
    ensures forall i :: 0 <= i < |ExecutedSql(sql)| ==> Split(ExecutedSql(sql)[i], ';') == [Statements(sql)[i], ""]
  {
    var stmts := Statements(sql);
    var calls := ExecutedSql(sql);
    forall i | 0 <= i < |calls|
      ensures Split(calls[i], ';') == [stmts[i], ""]
    {
      StatementsAreClean(sql);
      assert CleanStatement(stmts[i]);
      Terminated(stmts[i]);
    }
  }

  /** `if (statement.trim())`. */
  function NotBlank(): string -> bool {
    (s: string) => Trim(s) != ""
  }

  /**
   * The loop of `createTables`: in order, each statement whose trim is not
   * empty is sent with a `;` appended.
   */
  method ExecuteStatements(statements: seq<string>) returns (calls: seq<string>)
    ensures calls == WithSemicolons(Filter(statements, NotBlank()))
  {
    calls := [];
    var i := 0;
    while i < |statements|
      invariant 0 <= i <= |statements|
      invariant calls == WithSemicolons(Filter(statements[..i], NotBlank()))
    {
      var statement := statements[i];
      SendNext(statements, i);
      if Trim(statement) != "" {
        calls := calls + [statement + ";"];
      }
      i := i + 1;
    }
    assert statements[..i] == statements;
  }

  lemma SendNext(statements: seq<string>, i: nat)
    requires i < |statements|
    ensures WithSemicolons(Filter(statements[..i + 1], NotBlank()))
            == WithSemicolons(Filter(statements[..i], NotBlank()))
               + (if Trim(statements[i]) != "" then [statements[i] + ";"] else [])
  {
    var x := statements[i];
    var kept := Filter(statements[..i], NotBlank());
    FilterSnoc(statements, i, NotBlank());
    if Trim(x) != "" {
      WithSemicolonsAppend(kept, [x]);
      assert WithSemicolons([x]) == [x + ";"];
    } else {
      assert Filter(statements[..i + 1], NotBlank()) == kept;
    }
  }

  /** The guard skips nothing the splitter returns, so the file's statements are all sent. */
  lemma GuardSkipsNothing(sql: string)
    ensures Filter(Statements(sql), NotBlank()) == Statements(sql)
  {
    var stmts := Statements(sql);
    forall i | 0 <= i < |stmts|
      ensures NotBlank()(stmts[i])
    {
      StatementsAreClean(sql);
      assert CleanStatement(stmts[i]);
    }
    FilterKeepsAll(stmts, NotBlank());
  }

  /** `createTables` on a SQL file's text: every statement is sent, once, in order, with its `;`. */
  method CreateTables(sql: string) returns (calls: seq<string>)
    ensures calls == ExecutedSql(sql)
  {
    var statements := Statements(sql);
    calls := ExecuteStatements(statements);
    GuardSkipsNothing(sql);
  }

  lemma Terminated(stmt: string)
    requires ';' !in stmt
    ensures Split(stmt + ";", ';') == [stmt, ""]
  {
    assert stmt + ";" == stmt + [';'] + "";
    SplitAtSeparator(stmt, "", ';');
  }
}
