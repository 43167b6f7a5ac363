/**
 * The `.env` loader at the top of the database setup script: the file is cut
 * into lines, each line is cut at its first `=`, and every line with a
 * usable name assigns a variable of the process environment, in file order.
 */
module EnvFile {
  import opened Wrappers
  import opened JsString

  /** The process environment: variable names to values. */
  type Env = map<string, string>

  /**
   * What one line assigns, if anything. The line is split at every `=`; the
   * first piece is the name and the rest, joined again with `=`, the value.
   * A line whose first piece is empty or, untrimmed, starts with `#` assigns
   * nothing; otherwise name and value are both trimmed.
   */
  function ParseLine(line: string): Option<(string, string)> {
    var parts := Split(line, '=');
    var key := parts[0];
    if key != "" && key[0] != '#' then Some((Trim(key), Trim(Join(parts[1..], '='))))
    else None
  }

  /**
   * The environment after one line has been applied. The process
   * environment refuses a variable with the empty name, and the refusal is
   * silent, so a line whose name trims to nothing changes nothing.
   */
  function ApplyLine(env: Env, line: string): Env {
    match ParseLine(line)
    case None => env
    case Some((k, v)) => if k == "" then env else env[k := v]
  }

  /** The environment after the lines have been applied in order. */
  function ApplyLines(env: Env, lines: seq<string>): Env {
    if lines == [] then env
    else ApplyLine(ApplyLines(env, lines[..|lines| - 1]), lines[|lines| - 1])
  }

  /**
   * Loads the text of a `.env` file into `env`: the file is split at `\n`
   * and the lines are applied one after the other.
   */
  method LoadEnv(content: string, env: Env) returns (result: Env)
    ensures result == ApplyLines(env, Split(content, '\n'))
  {
    var lines := Split(content, '\n');
    result := env;
    for i := 0 to |lines|
      invariant result == ApplyLines(env, lines[..i])
    {
      assert lines[..i + 1][..i] == lines[..i];
      var line := lines[i];
      var parts := Split(line, '=');
      var key := parts[0];
      ghost var before := result;
      if key != "" && key[0] != '#' {
        var name := Trim(key);
        assert ParseLine(line) == Some((name, Trim(Join(parts[1..], '='))));
        if name != "" {
          result := result[name := Trim(Join(parts[1..], '='))];
        }
      } else {
        assert ParseLine(line) == None;
      }
      assert result == ApplyLine(before, line);
    }
    assert lines[..|lines|] == lines;
  }

  // ---------------------------------------------------------------------
  // One line
  // ---------------------------------------------------------------------

  /**
   * A line yields a name and a value exactly when it is not empty and starts
   * neither with `=` (an empty name) nor with `#` (a comment).
   */
  lemma {:induction false} ParseLineAssignsIff(line: string)
    ensures ParseLine(line).Some? <==> (line != "" && line[0] != '=' && line[0] != '#')
  {
    SplitFirstPiece(line, '=');
  }

  /**
   * The value is everything after the first `=`, later `=` signs included;
   * name and value are trimmed.
   */
  lemma {:induction false} ValueIsRestOfLine(k: string, v: string)
    requires '=' !in k && k != "" && k[0] != '#'
    ensures ParseLine(k + "=" + v) == Some((Trim(k), Trim(v)))
  {
    SplitAtFirst(k, '=', v);
    var parts := Split(k + "=" + v, '=');
    assert parts[0] == k && parts[1..] == Split(v, '=');
    JoinSplit(v, '=');
  }

  /** A non-empty line without `=` that is not a comment sets its trimmed text to the empty string. */
  lemma {:induction false} LineWithoutEquals(line: string)
    requires '=' !in line && line != "" && line[0] != '#'
    ensures ParseLine(line) == Some((Trim(line), ""))
  {
    SplitWithoutSeparator(line, '=');
  }

  /**
   * A name made only of blanks passes the test, which is made before
   * trimming, so the line yields the empty name; the environment refuses
   * that name and the line changes nothing.
   */
  lemma {:induction false} BlankNameAssignsNothing(env: Env, ws: string, v: string)
    requires ws != "" && AllWhiteSpace(ws)
    ensures ParseLine(ws + "=" + v) == Some(("", Trim(v)))
    ensures ApplyLine(env, ws + "=" + v) == env
  {
    assert ws[0] != '#';
    assert '=' !in ws by {
      forall i | 0 <= i < |ws| ensures ws[i] != '=' { assert IsWhiteSpace(ws[i]); }
    }
    ValueIsRestOfLine(ws, v);
    TrimOfWhiteSpace(ws);
  }

  // ---------------------------------------------------------------------
  // Many lines
  // ---------------------------------------------------------------------

  /** Applying two blocks of lines is applying the first, then the second. */
  lemma {:induction false} ApplyLinesAppend(env: Env, a: seq<string>, b: seq<string>)
    ensures ApplyLines(env, a + b) == ApplyLines(ApplyLines(env, a), b)
    decreases |b|
  {
    if b != [] {
      assert (a + b)[..|a + b| - 1] == a + b[..|b| - 1];
      ApplyLinesAppend(env, a, b[..|b| - 1]);
    } else {
      assert a + b == a;
    }
  }

  /**
   * The value the lines leave for `k`, read backwards: the value of the last
   * line that assigns `k`, or `None` when no line does.
   */
  function LastAssignment(lines: seq<string>, k: string): Option<string> {
    if lines == [] then None
    else
      var p := ParseLine(lines[|lines| - 1]);
      if p.Some? && p.value.0 == k && k != "" then Some(p.value.1)
      else LastAssignment(lines[..|lines| - 1], k)
  }

  /**
   * The last assignment wins, and a name no line assigns keeps what the
   * environment held before, present or absent.
   */
  lemma {:induction false} ApplyLinesLastWins(env: Env, lines: seq<string>, k: string)
    ensures match LastAssignment(lines, k)
      case Some(v) => k in ApplyLines(env, lines) && ApplyLines(env, lines)[k] == v
      case None => (k in ApplyLines(env, lines) <==> k in env)
                   && (k in env ==> ApplyLines(env, lines)[k] == env[k])
  {
    if lines != [] {
      var init, last := lines[..|lines| - 1], lines[|lines| - 1];
      var before := ApplyLines(env, init);
      ApplyLinesLastWins(env, init, k);
      ApplyLineAt(before, last, k);
      assert ApplyLines(env, lines) == ApplyLine(before, last);
      var p := ParseLine(last);
      if p.Some? && p.value.0 == k && k != "" {
        assert LastAssignment(lines, k) == Some(p.value.1);
      } else {
        assert LastAssignment(lines, k) == LastAssignment(init, k);
      }
    }
  }

  /**
   * What one line does to one name: it sets `k` when it assigns `k`, and
   * otherwise leaves `k` as it was, present or absent.
   */
  lemma {:induction false} ApplyLineAt(env: Env, line: string, k: string)
    ensures var p := ParseLine(line);
      if p.Some? && p.value.0 == k && k != "" then
        k in ApplyLine(env, line) && ApplyLine(env, line)[k] == p.value.1
      else
        (k in ApplyLine(env, line) <==> k in env)
        && (k in env ==> ApplyLine(env, line)[k] == env[k])
  {
    var p := ParseLine(line);
    if p.Some? && p.value.0 != "" {
      assert ApplyLine(env, line) == env[p.value.0 := p.value.1];
    } else {
      assert ApplyLine(env, line) == env;
    }
  }
}
