/**
 * The line parser of the package's smoke-test script (`loadFromEnv`): the
 * `.env` file's content, when there is one, split into lines, each line
 * split on `=`, and the accepted pairs written into the process environment.
 */
module EnvFile {
  import opened Wrappers
  import opened Js

  /**
   * The assignment one line makes: `const [key, value] = line.split('=')`,
   * kept only when both pieces are non-empty, stored trimmed. A line without
   * `=` has no second piece.
   */
  function LineEntry(line: string): Option<(string, string)>
  {
    Entry(Split(line, '='))
  }

  /** The pieces of a line: the first is the key, the second (when there is one) the value. */
  function Entry(pieces: seq<string>): Option<(string, string)>
    requires |pieces| >= 1
  {
    var key := pieces[0];
    var value := if |pieces| > 1 then Some(pieces[1]) else None;
    if key != "" && value.Some? && value.value != "" then Some((Trim(key), Trim(value.value)))
    else None
  }

  predicate Sets(line: string, key: string)
  {
    LineEntry(line).Some? && LineEntry(line).value.0 == key
  }

  /** The environment after the lines, in order: each accepted pair overwrites the variable it names. */
  function Apply(env: map<string, string>, lines: seq<string>): map<string, string>
  {
    if lines == [] then env
    else
      var before := Apply(env, lines[..|lines| - 1]);
      match LineEntry(lines[|lines| - 1])
      case None => before
      case Some(entry) => before[entry.0 := entry.1]
  }

  /** A line without `=` sets nothing. */
  lemma NoEqualsIgnored(line: string)
    requires '=' !in line
    ensures LineEntry(line) == None
  {
    SplitWhole(line, '=');
  }

  /**
   * A line `key=value`, with or without a further `=` and text after it,
   * sets the trimmed key to the trimmed value when neither piece is empty;
   * the text after a second `=` is lost.
   */
  lemma Assignment(key: string, value: string, rest: string)
    requires '=' !in key && '=' !in value
    ensures LineEntry(key + "=" + value) == LineEntry(key + "=" + value + "=" + rest)
    ensures LineEntry(key + "=" + value) ==
      if key != "" && value != "" then Some((Trim(key), Trim(value))) else None
  {
    var pieces := Split(key + "=" + value, '=');
    var longer := Split(key + "=" + value + "=" + rest, '=');
    SplitWhole(value, '=');
    SplitFirst(key, '=', value);
    SplitFirst(value, '=', rest);
    SplitFirst(key, '=', value + "=" + rest);
    assert key + "=" + value + "=" + rest == key + ['='] + (value + "=" + rest);
    assert key + "=" + value == key + ['='] + value;
    assert value + "=" + rest == value + ['='] + rest;
    assert pieces == [key, value];
    assert longer[..2] == pieces;
  }

  /** A key set by some line holds the value of the last line that sets it. */
  lemma {:induction false} LastAssignmentWins(env: map<string, string>, lines: seq<string>, i: nat, key: string, value: string)
    requires i < |lines| && LineEntry(lines[i]) == Some((key, value))
    requires forall j :: i < j < |lines| ==> !Sets(lines[j], key)
    ensures key in Apply(env, lines) && Apply(env, lines)[key] == value
  {
    var n := |lines| - 1;
    var front := lines[..n];
    if i < n {
      assert front[i] == lines[i];
      forall j | i < j < |front| ensures !Sets(front[j], key) {
        assert front[j] == lines[j];
      }
      LastAssignmentWins(env, front, i, key, value);
      assert !Sets(lines[n], key);
      match LineEntry(lines[n])
      case None =>
      case Some(entry) => assert entry.0 != key;
    } else {
      assert Apply(env, lines) == Apply(env, front)[key := value];
    }
  }

  /** A variable no line sets keeps whatever it had, including being unset. */
  lemma {:induction false} UnsetKeyUnchanged(env: map<string, string>, lines: seq<string>, key: string)
    requires forall j :: 0 <= j < |lines| ==> !Sets(lines[j], key)
    ensures key in Apply(env, lines) <==> key in env
    ensures key in env ==> Apply(env, lines)[key] == env[key]
  {
    if lines != [] {
      var n := |lines| - 1;
      UnsetKeyUnchanged(env, lines[..n], key);
      assert !Sets(lines[n], key);
    }
  }

  /** A value of blanks only is accepted and stored as the empty string (`KEY=   `). */
  lemma BlankValueStoredEmpty(key: string, blanks: string)
    requires '=' !in key && key != "" && blanks != []
    requires forall i :: 0 <= i < |blanks| ==> blanks[i] == ' '
    ensures LineEntry(key + "=" + blanks) == Some((Trim(key), ""))
  {
    Assignment(key, blanks, "");
    assert IsWhiteSpace(' ');
    BlankTrimsAway(blanks);
  }

  lemma {:induction false} BlankTrimsAway(blanks: string)
    requires forall i :: 0 <= i < |blanks| ==> blanks[i] == ' '
    ensures TrimStart(blanks) == ""
  {
    if blanks != [] {
      assert IsWhiteSpace(blanks[0]);
      BlankTrimsAway(blanks[1..]);
    }
  }

  /**
   * The carriage return of a CRLF file ends up at the end of the value and
   * is trimmed away with it.
   */
  lemma CarriageReturnRemoved(key: string, value: string)
    requires '=' !in key && '=' !in value
    requires key != [] && !IsWhiteSpace(key[0]) && !IsWhiteSpace(key[|key| - 1])
    requires value != [] && !IsWhiteSpace(value[0]) && !IsWhiteSpace(value[|value| - 1])
    ensures LineEntry(key + "=" + value + "\r") == Some((key, value))
  {
    var raw := value + "\r";
    Assignment(key, raw, "");
    assert key + "=" + value + "\r" == key + "=" + raw;
    TrimSpec(key);
    TrimSpec(value);
    assert IsWhiteSpace('\r');
    assert TrimStart(raw) == raw;
    assert raw[..|raw| - 1] == value;
    assert TrimEnd(raw) == TrimEnd(value) == value;
  }

  /** The process environment the script writes into. */
  class ProcessEnv {
    var vars: map<string, string>

    constructor (vars: map<string, string>)
      ensures this.vars == vars
    {
      this.vars := vars;
    }

    /**
     * `loadFromEnv()`, with the file's content (or its absence) as input:
     * every line in order, each accepted pair written; nothing happens when
     * there is no file.
     */
    method LoadFromEnv(envFile: Option<string>)
      modifies this
      ensures envFile.None? ==> vars == old(vars)
      ensures envFile.Some? ==> vars == Apply(old(vars), Split(envFile.value, '\n'))
    {
      if envFile.None? {
        return;
      }
      var lines := Split(envFile.value, '\n');
      var i := 0;
      while i < |lines|
        invariant 0 <= i <= |lines|
        invariant vars == Apply(old(vars), lines[..i])
      {
        assert lines[..i + 1][..i] == lines[..i];
        var entry := LineEntry(lines[i]);
        if entry.Some? {
          vars := vars[entry.value.0 := entry.value.1];
        }
        i := i + 1;
      }
      assert lines[..|lines|] == lines;
    }
  }
}
