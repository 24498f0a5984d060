/** `shim.rs`: the remote command of `ssh_args`, read back by the guest's shell.

    A `char` stands for one byte. The reader follows sections 2.2 (quoting) and
    2.3 (token recognition) of the POSIX.1-2017 Shell Command Language; it gives
    up, with `None`, on anything that would make the shell do more than split
    words: an expansion, a pattern, a comment, another operator, an open quote.
 */
module ShellQuote {
  import opened Wrappers

  datatype Token = Word(text: string) | AndIf

  datatype Mode =
    | Blank
    | InWord(text: string)
    | InQuotes(text: string)

  predicate IsBlank(c: char) { c == ' ' || c == '\t' }

  /** Characters that mean something to the shell when they are not quoted. */
  predicate Special(c: char) {
    c in {'|', '&', ';', '<', '>', '(', ')', '$', '`', '"', '*', '?', '[', '#', '~', '\n'}
  }

  function Prepend(t: Token, rest: Option<seq<Token>>): Option<seq<Token>> {
    if rest.Some? then Some([t] + rest.value) else None
  }

  /** The tokens of `s`, after quote removal, read from the given mode. */
  function Tokens(s: string, mode: Mode): Option<seq<Token>>
    decreases |s|
  {
    match mode
    case InQuotes(t) =>
      if s == "" then None
      else if s[0] == '\'' then Tokens(s[1..], InWord(t))
      else Tokens(s[1..], InQuotes(t + [s[0]]))
    case InWord(t) =>
      if s == "" then Some([Word(t)])
      else if IsBlank(s[0]) then Prepend(Word(t), Tokens(s[1..], Blank))
      else if s[0] == '&' then Prepend(Word(t), Operator(s))
      else Ordinary(s, t)
    case Blank =>
      if s == "" then Some([])
      else if IsBlank(s[0]) then Tokens(s[1..], Blank)
      else if s[0] == '&' then Operator(s)
      else Ordinary(s, "")
  }

  /** A character that begins or continues a word. */
  function Ordinary(s: string, t: string): Option<seq<Token>>
    requires s != ""
    decreases |s|, 0
  {
    if s[0] == '\'' then Tokens(s[1..], InQuotes(t))
    else if s[0] == '\\' then
      if |s| < 2 || s[1] == '\n' then None else Tokens(s[2..], InWord(t + [s[1]]))
    else if Special(s[0]) then None
    else Tokens(s[1..], InWord(t + [s[0]]))
  }

  function Operator(s: string): Option<seq<Token>>
    requires s != "" && s[0] == '&'
    decreases |s|, 0
  {
    if |s| < 2 || s[1] != '&' then None else Prepend(AndIf, Tokens(s[2..], Blank))
  }

  // --- sh_quote ---------------------------------------------------------------

  predicate Safe(c: char) {
    ('a' <= c <= 'z') || ('A' <= c <= 'Z') || ('0' <= c <= '9') || c in {'-', '_', '.', '/', '=', ':', '@', '%', '+', ','}
  }

  /** A word stays as it is exactly when it is not empty and has nothing else in it. */
  lemma QuotedIsItself(w: string)
    ensures Quoted(w) == w <==> AllSafe(w)
  {
    hide Safe;
    if !AllSafe(w) {
      EscapedIsLonger(w);
      assert |Quoted(w)| > |w|;
    }
  }

  /** In `sh_quote` a word goes through unquoted if all its bytes are letters, digits or one
      of ten others. */
  lemma AllSafeIs(w: string)
    ensures AllSafe(w) <==>
            w != "" && forall c | c in w ::
              ('A' <= c <= 'Z') || ('a' <= c <= 'z') || ('0' <= c <= '9') || c in {'-', '_', '.', '/', '=', ':', '@', '%', '+', ','}
  {
    if AllSafe(w) {
      forall c | c in w ensures Safe(c) {}
    } else if w != "" {
      var i :| 0 <= i < |w| && !Safe(w[i]);
      assert w[i] in w;
    }
  }

  lemma {:induction false} EscapedIsLonger(w: string)
    ensures |Escaped(w)| >= |w|
  {
    if w != "" { EscapedIsLonger(w[..|w| - 1]); }
  }

  predicate AllSafe(w: string) { w != "" && forall i | 0 <= i < |w| :: Safe(w[i]) }

  /** The inside of the single quotes. */
  function Escaped(w: string): string {
    if w == "" then ""
    else Escaped(w[..|w| - 1]) + (if w[|w| - 1] == '\'' then "'\\''" else [w[|w| - 1]])
  }

  function Quoted(w: string): string { if AllSafe(w) then w else "'" + Escaped(w) + "'" }

  method ShQuote(word: string) returns (out: string)
    ensures out == Quoted(word)
    ensures out == word <==>
            word != "" && forall c | c in word ::
              ('A' <= c <= 'Z') || ('a' <= c <= 'z') || ('0' <= c <= '9') || c in {'-', '_', '.', '/', '=', ':', '@', '%', '+', ','}
    ensures forall rest :: Tokens(out + rest, Blank) == Tokens(rest, InWord(word))
  {
    forall rest ensures Tokens(Quoted(word) + rest, Blank) == Tokens(rest, InWord(word)) { QuotedReadsBack(word, rest); }
    QuotedIsItself(word);
    AllSafeIs(word);
    hide Tokens, Safe;
    if AllSafe(word) {
      return word;
    }
    out := "'";
    for i := 0 to |word|
      invariant out == "'" + Escaped(word[..i])
    {
      assert word[..i + 1][..i] == word[..i];
      if word[i] == '\'' {
        out := out + "'\\''";
      } else {
        out := out + [word[i]];
      }
    }
    assert word[..|word|] == word;
    out := out + "'";
  }

  // One character at a time.

  lemma StepSafe(c: char, s: string, t: string)
    requires Safe(c)
    ensures Tokens([c] + s, InWord(t)) == Tokens(s, InWord(t + [c]))
    ensures Tokens([c] + s, Blank) == Tokens(s, InWord([c]))
  {
    assert ([c] + s)[1..] == s && [] + [c] == [c];
  }

  lemma StepBlank(s: string, t: string)
    ensures Tokens(" " + s, InWord(t)) == Prepend(Word(t), Tokens(s, Blank))
    ensures Tokens(" " + s, Blank) == Tokens(s, Blank)
  {
    assert (" " + s)[1..] == s;
  }

  lemma StepAnd(s: string)
    ensures Tokens("&&" + s, Blank) == Prepend(AndIf, Tokens(s, Blank))
  {
    assert ("&&" + s)[2..] == s;
  }

  lemma StepQuote(s: string, t: string)
    ensures Tokens("'" + s, Blank) == Tokens(s, InQuotes(""))
    ensures Tokens("'" + s, InWord(t)) == Tokens(s, InQuotes(t))
    ensures Tokens("'" + s, InQuotes(t)) == Tokens(s, InWord(t))
  {
    assert ("'" + s)[1..] == s;
  }

  lemma StepEscape(s: string, t: string)
    ensures Tokens("\\'" + s, InWord(t)) == Tokens(s, InWord(t + ['\'']))
  {
    assert ("\\'" + s)[2..] == s;
  }

  lemma StepInside(c: char, s: string, t: string)
    requires c != '\''
    ensures Tokens([c] + s, InQuotes(t)) == Tokens(s, InQuotes(t + [c]))
  {
    assert ([c] + s)[1..] == s;
  }

  lemma {:induction false} SafeReadsBack(t: string, w: string, rest: string)
    requires forall i | 0 <= i < |w| :: Safe(w[i])
    ensures Tokens(w + rest, InWord(t)) == Tokens(rest, InWord(t + w))
    decreases |w|
  {
    hide Tokens, Safe;
    if w == "" {
      assert w + rest == rest && t + w == t;
    } else {
      assert w + rest == [w[0]] + (w[1..] + rest);
      assert t + [w[0]] + w[1..] == t + w;
      StepSafe(w[0], w[1..] + rest, t);
      SafeReadsBack(t + [w[0]], w[1..], rest);
    }
  }

  lemma {:induction false} EscapedReadsBack(w: string, rest: string)
    ensures Tokens(Escaped(w) + rest, InQuotes("")) == Tokens(rest, InQuotes(w))
    decreases |w|
  {
    hide Tokens;
    if w == "" {
      assert Escaped(w) + rest == rest;
    } else {
      var n := |w| - 1;
      var last := if w[n] == '\'' then "'\\''" else [w[n]];
      assert Escaped(w) + rest == Escaped(w[..n]) + (last + rest);
      EscapedReadsBack(w[..n], last + rest);
      LastReadsBack(w[..n], w[n], rest);
      assert w[..n] + [w[n]] == w;
    }
  }

  lemma LastReadsBack(t: string, c: char, rest: string)
    ensures Tokens((if c == '\'' then "'\\''" else [c]) + rest, InQuotes(t)) == Tokens(rest, InQuotes(t + [c]))
  {
    hide Tokens;
    if c == '\'' {
      assert "'\\''" + rest == "'" + ("\\'" + ("'" + rest));
      StepQuote("\\'" + ("'" + rest), t);
      StepEscape("'" + rest, t);
      StepQuote(rest, t + [c]);
    } else {
      StepInside(c, rest, t);
    }
  }

  /** A quoted word, read by the shell, is the word. */
  lemma QuotedReadsBack(w: string, rest: string)
    ensures Tokens(Quoted(w) + rest, Blank) == Tokens(rest, InWord(w))
  {
    hide Tokens, Safe, Escaped;
    if AllSafe(w) {
      assert w + rest == [w[0]] + (w[1..] + rest);
      StepSafe(w[0], w[1..] + rest, "");
      SafeReadsBack([w[0]], w[1..], rest);
      assert [w[0]] + w[1..] == w;
    } else {
      assert Quoted(w) + rest == "'" + (Escaped(w) + ("'" + rest));
      StepQuote(Escaped(w) + ("'" + rest), "");
      EscapedReadsBack(w, "'" + rest);
      StepQuote(rest, w);
    }
  }

  // --- ssh_args ---------------------------------------------------------------

  const GUEST_BIN := "/usr/local/bin/zygo"
  const INSTANCE := "zygo"

  function Words(ws: seq<string>): seq<Token> { seq(|ws|, i requires 0 <= i < |ws| => Word(ws[i])) }

  function Pairs(env: seq<(string, string)>): seq<string> {
    seq(|env|, i requires 0 <= i < |env| => env[i].0 + "=" + env[i].1)
  }

  /** The words after `cd`, the directory and `&&`. */
  function Line(args: seq<string>, env: seq<(string, string)>): seq<string> {
    (if env == [] then [] else ["env"] + Pairs(env)) + [GUEST_BIN] + args
  }

  /** What the guest's shell is to run. */
  function Intended(workdir: string, args: seq<string>, env: seq<(string, string)>): seq<Token> {
    [Word("cd"), Word(workdir), AndIf] + Words(Line(args, env))
  }

  /** The command that runs in `workdir`, token by token: `cd`, the directory, `&&`; with an
      environment `env` and each name with its value; the binary; and each argument. */
  predicate Runs(tokens: seq<Token>, workdir: string, args: seq<string>, env: seq<(string, string)>) {
    var n := if env == [] then 3 else 4 + |env|;
    && |tokens| == n + 1 + |args|
    && tokens[0] == Word("cd") && tokens[1] == Word(workdir) && tokens[2] == AndIf
    && (env != [] ==> tokens[3] == Word("env"))
    && (forall i | 0 <= i < |env| :: tokens[4 + i] == Word(env[i].0 + "=" + env[i].1))
    && tokens[n] == Word("/usr/local/bin/zygo")
    && (forall j | 0 <= j < |args| :: tokens[n + 1 + j] == Word(args[j]))
  }

  /** The words after `&&`, one by one. */
  lemma WordsAt(args: seq<string>, env: seq<(string, string)>)
    ensures var ws := Line(args, env);
            var n := if env == [] then 0 else 1 + |env|;
            && |ws| == n + 1 + |args| && ws[n] == GUEST_BIN && (env != [] ==> ws[0] == "env")
            && (forall i | 0 <= i < |env| :: ws[1 + i] == env[i].0 + "=" + env[i].1)
            && (forall j | 0 <= j < |args| :: ws[n + 1 + j] == args[j])
  {
    hide GUEST_BIN;
    var ws := Line(args, env);
    if env != [] {
      forall i | 0 <= i < |env| ensures ws[1 + i] == env[i].0 + "=" + env[i].1 { assert (["env"] + Pairs(env))[1 + i] == Pairs(env)[i]; }
    }
  }

  lemma IntendedRuns(workdir: string, args: seq<string>, env: seq<(string, string)>)
    ensures Runs(Intended(workdir, args, env), workdir, args, env)
  {
    var ws, tokens := Line(args, env), Intended(workdir, args, env);
    var n := if env == [] then 0 else 1 + |env|;
    assert GUEST_BIN == "/usr/local/bin/zygo";
    WordsAt(args, env);
    IntendedAt(workdir, args, env, 0);
    IntendedAt(workdir, args, env, n);
    hide Intended, Line, GUEST_BIN;
    forall i | 0 <= i < |env| ensures tokens[4 + i] == Word(env[i].0 + "=" + env[i].1) { IntendedAt(workdir, args, env, 1 + i); }
    forall j | 0 <= j < |args| ensures tokens[3 + n + 1 + j] == Word(args[j]) { IntendedAt(workdir, args, env, n + 1 + j); }
  }

  lemma IntendedAt(workdir: string, args: seq<string>, env: seq<(string, string)>, k: nat)
    requires k < |Line(args, env)|
    ensures var tokens := Intended(workdir, args, env);
            && |tokens| == 3 + |Line(args, env)| && tokens[3 + k] == Word(Line(args, env)[k])
            && tokens[0] == Word("cd") && tokens[1] == Word(workdir) && tokens[2] == AndIf
  {
    hide Line;
  }

  /** Each word quoted and followed by a space. */
  function Spaced(ws: seq<string>): string {
    if ws == [] then "" else Spaced(ws[..|ws| - 1]) + Quoted(ws[|ws| - 1]) + " "
  }

  /** Each word quoted and preceded by a space. */
  function Led(ws: seq<string>): string {
    if ws == [] then "" else Led(ws[..|ws| - 1]) + " " + Quoted(ws[|ws| - 1])
  }

  function Remote(workdir: string, args: seq<string>, env: seq<(string, string)>): string {
    "cd " + Quoted(workdir) + " && " + (if env == [] then "" else "env " + Spaced(Pairs(env))) + GUEST_BIN + Led(args)
  }

  method SshArgs(config: string, workdir: string, args: seq<string>, env: seq<(string, string)>, tty: bool)
    returns (out: seq<string>)
    ensures |out| > 0 && Tokens(out[|out| - 1], Blank).Some? && Runs(Tokens(out[|out| - 1], Blank).value, workdir, args, env)
    ensures out[..|out| - 1] == ["-F", config] + (if tty then ["-t"] else []) + ["lima-zygo", "--"]
  {
    hide Tokens, Quoted, Intended, Runs;
    RemoteRuns(workdir, args, env);
    var quoted := ShQuote(workdir);
    var remote := "cd " + quoted + " && ";
    if env != [] {
      remote := remote + "env ";
      ghost var start := remote;
      for i := 0 to |env|
        invariant remote == start + Spaced(Pairs(env)[..i])
      {
        var pair := env[i].0 + "=" + env[i].1;
        assert Pairs(env)[..i + 1][..i] == Pairs(env)[..i];
        quoted := ShQuote(pair);
        remote := remote + quoted + " ";
      }
      assert Pairs(env)[..|env|] == Pairs(env);
    }
    remote := remote + GUEST_BIN;
    ghost var begin := remote;
    for i := 0 to |args|
      invariant remote == begin + Led(args[..i])
    {
      assert args[..i + 1][..i] == args[..i];
      remote := remote + " ";
      quoted := ShQuote(args[i]);
      remote := remote + quoted;
    }
    assert args[..|args|] == args;
    assert remote == Remote(workdir, args, env);
    hide Remote, Spaced, Led, Pairs;
    out := Command(config, tty, remote);
  }

  /** The `ssh` command line around the remote command. */
  method Command(config: string, tty: bool, remote: string) returns (out: seq<string>)
    ensures out == ["-F", config] + (if tty then ["-t"] else []) + ["lima-zygo", "--", remote]
  {
    assert "lima-" + INSTANCE == "lima-zygo";
    out := ["-F", config];
    if tty {
      out := out + ["-t"];
    }
    out := out + ["lima-" + INSTANCE];
    out := out + ["--"];
    out := out + [remote];
  }

  /** A list of words, then the rest of the line. */
  function Before(ws: seq<string>, rest: Option<seq<Token>>): Option<seq<Token>> {
    if rest.Some? then Some(Words(ws) + rest.value) else None
  }

  lemma BeforeOneMore(ws: seq<string>, w: string, rest: Option<seq<Token>>)
    ensures Before(ws, Prepend(Word(w), rest)) == Before(ws + [w], rest)
    ensures Before([], rest) == rest
  {
    if rest.Some? {
      assert Words(ws) + ([Word(w)] + rest.value) == Words(ws + [w]) + rest.value;
      assert Words([]) + rest.value == rest.value;
    }
  }

  lemma {:induction false} SpacedReadsBack(ws: seq<string>, rest: string)
    ensures Tokens(Spaced(ws) + rest, Blank) == Before(ws, Tokens(rest, Blank))
    decreases |ws|
  {
    hide Tokens, Quoted, Before;
    if ws == [] {
      assert Spaced(ws) + rest == rest;
      BeforeOneMore([], "", Tokens(rest, Blank));
    } else {
      var n := |ws| - 1;
      var more := Quoted(ws[n]) + (" " + rest);
      assert Spaced(ws) + rest == Spaced(ws[..n]) + more;
      SpacedReadsBack(ws[..n], more);
      QuotedReadsBack(ws[n], " " + rest);
      StepBlank(rest, ws[n]);
      BeforeOneMore(ws[..n], ws[n], Tokens(rest, Blank));
      assert ws[..n] + [ws[n]] == ws;
    }
  }

  lemma {:induction false} LedReadsBack(ws: seq<string>, t: string, rest: string)
    ensures Tokens(Led(ws) + rest, InWord(t)) ==
            Before(([t] + ws)[..|ws|], Tokens(rest, InWord(([t] + ws)[|ws|])))
    decreases |ws|
  {
    hide Tokens, Quoted, Before;
    if ws == [] {
      assert Led(ws) + rest == rest;
      BeforeOneMore([], "", Tokens(rest, InWord(t)));
    } else {
      var n := |ws| - 1;
      var more := " " + (Quoted(ws[n]) + rest);
      assert Led(ws) + rest == Led(ws[..n]) + more;
      LedReadsBack(ws[..n], t, more);
      var head := [t] + ws[..n];
      StepBlank(Quoted(ws[n]) + rest, head[n]);
      QuotedReadsBack(ws[n], rest);
      BeforeOneMore(head[..n], head[n], Tokens(rest, InWord(ws[n])));
      assert head[..n] + [head[n]] == ([t] + ws)[..|ws|];
    }
  }

  /** So the guest's shell runs the binary, where it was meant to and with what. */
  lemma RemoteRuns(workdir: string, args: seq<string>, env: seq<(string, string)>)
    ensures var tokens := Tokens(Remote(workdir, args, env), Blank); tokens.Some? && Runs(tokens.value, workdir, args, env)
  {
    RemoteReadsBack(workdir, args, env);
    IntendedRuns(workdir, args, env);
    hide *;
  }

  /** The guest's shell reads the remote command as it was meant. */
  lemma RemoteReadsBack(workdir: string, args: seq<string>, env: seq<(string, string)>)
    ensures Tokens(Remote(workdir, args, env), Blank) == Some(Intended(workdir, args, env))
  {
    hide Tokens, Quoted, Spaced, Led, Pairs, GUEST_BIN;
    var tail := GUEST_BIN + Led(args);
    var middle := if env == [] then tail else "env " + (Spaced(Pairs(env)) + tail);
    var afterDir := " && " + middle;
    assert Remote(workdir, args, env) == "cd" + (" " + (Quoted(workdir) + afterDir));
    CommandName("cd", Quoted(workdir) + afterDir);
    QuotedReadsBack(workdir, afterDir);
    AndThen(workdir, middle);
    BinaryReadsBack(args);
    if env != [] {
      assert middle == "env" + (" " + (Spaced(Pairs(env)) + tail));
      CommandName("env", Spaced(Pairs(env)) + tail);
      SpacedReadsBack(Pairs(env), tail);
    }
    Composed(workdir, args, env);
  }

  lemma Composed(workdir: string, args: seq<string>, env: seq<(string, string)>)
    ensures var end := Some(Words([GUEST_BIN] + args));
            var line := if env == [] then end else Prepend(Word("env"), Before(Pairs(env), end));
            Prepend(Word("cd"), Prepend(Word(workdir), Prepend(AndIf, line))) == Some(Intended(workdir, args, env))
  {
    hide Pairs, GUEST_BIN;
    var ws := Line(args, env);
    if env == [] {
      assert ws == [GUEST_BIN] + args;
    } else {
      assert Words(ws) == [Word("env")] + (Words(Pairs(env)) + Words([GUEST_BIN] + args));
    }
    assert [Word("cd")] + ([Word(workdir)] + ([AndIf] + Words(ws))) == Intended(workdir, args, env);
  }

  lemma CommandName(name: string, rest: string)
    requires AllSafe(name)
    ensures Tokens(name + (" " + rest), Blank) == Prepend(Word(name), Tokens(rest, Blank))
  {
    hide Tokens;
    QuotedReadsBack(name, " " + rest);
    StepBlank(rest, name);
  }

  lemma AndThen(word: string, rest: string)
    ensures Tokens(" && " + rest, InWord(word)) == Prepend(Word(word), Prepend(AndIf, Tokens(rest, Blank)))
  {
    hide Tokens;
    assert " && " + rest == " " + ("&&" + (" " + rest));
    StepBlank("&&" + (" " + rest), word);
    StepAnd(" " + rest);
    StepBlank(rest, "");
  }

  lemma BinaryReadsBack(args: seq<string>)
    ensures Tokens(GUEST_BIN + Led(args), Blank) == Some(Words([GUEST_BIN] + args))
  {
    hide Tokens, Quoted, Led;
    assert Quoted(GUEST_BIN) == GUEST_BIN by { BinaryIsSafe(); }
    hide GUEST_BIN;
    var ws := [GUEST_BIN] + args;
    QuotedReadsBack(GUEST_BIN, Led(args));
    LedReadsBack(args, GUEST_BIN, "");
    assert Led(args) + "" == Led(args);
    EndOfLine(ws[|args|]);
    assert ws == ws[..|args|] + [ws[|args|]];
    assert Words(ws) == Words(ws[..|args|]) + [Word(ws[|args|])];
  }

  lemma BinaryIsSafe()
    ensures Quoted(GUEST_BIN) == GUEST_BIN
  {
  }

  lemma EndOfLine(t: string)
    ensures Tokens("", InWord(t)) == Some([Word(t)])
  {
  }
}
