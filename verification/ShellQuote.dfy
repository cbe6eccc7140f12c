/** Remote commands are printed as text and read back by a POSIX shell on the other side
    (sections 2.2 and 2.3 of the POSIX.1-2017 Shell Command Language). */
module ShellQuote {
  import opened Basics

  type Environment = string -> string

  // ----- the reader

  datatype Mode = Plain | PlainEscape | Single | Double | DoubleEscape | Dollar | Naming(name: string)
  /** The word being read, the words of the command being read, and the commands before it. */
  datatype State = State(mode: Mode, word: Option<string>, words: seq<string>, commands: seq<seq<string>>)

  predicate NameStart(c: char) { 'a' <= c <= 'z' || 'A' <= c <= 'Z' || c == '_' }
  predicate NameChar(c: char) { NameStart(c) || '0' <= c <= '9' }
  /** Characters that mean themselves outside quotes. */
  predicate Ordinary(c: char) { NameChar(c) || c == '-' || c == '.' || c == '/' || c == '=' || c == ':' }

  function Sofar(st: State): string { if st.word.Some? then st.word.value else "" }
  function Add(st: State, mode: Mode, text: string): State { st.(mode := mode, word := Some(Sofar(st) + text)) }
  function EndWord(st: State): State {
    if st.word.None? then st else st.(word := None, words := st.words + [st.word.value])
  }
  function EndCommand(st: State): Option<State> {
    var e := EndWord(st);
    if e.words == [] then None else Some(e.(words := [], commands := e.commands + [e.words]))
  }

  function InDouble(st: State, c: char): Option<State> {
    if c == '"' then Some(st.(mode := Plain))
    else if c == '\\' then Some(st.(mode := DoubleEscape))
    else if c == '$' then Some(st.(mode := Dollar))
    else if c == '`' then None                                  // command substitution is outside this fragment
    else Some(Add(st, Double, [c]))
  }

  function Step(st: State, c: char, env: Environment): Option<State> {
    match st.mode
    case Plain =>
      if c == ' ' || c == '\t' then Some(EndWord(st))
      else if c == ';' || c == '\n' then EndCommand(st)
      else if c == '\'' then Some(Add(st, Single, ""))
      else if c == '"' then Some(Add(st, Double, ""))
      else if c == '\\' then Some(st.(mode := PlainEscape))
      else if Ordinary(c) then Some(Add(st, Plain, [c]))
      else None                                                 // operators and expansions
    case PlainEscape => Some(if c == '\n' then st.(mode := Plain) else Add(st, Plain, [c]))
    case Single => Some(if c == '\'' then st.(mode := Plain) else Add(st, Single, [c]))
    case Double => InDouble(st, c)
    case DoubleEscape =>
      Some(if c == '$' || c == '`' || c == '"' || c == '\\' then Add(st, Double, [c])
           else if c == '\n' then st.(mode := Double)
           else Add(st, Double, ['\\', c]))
    case Dollar =>
      if NameStart(c) then Some(st.(mode := Naming([c])))
      else if c == '{' || c == '(' || '0' <= c <= '9' || c in "@*#?-$!" then None
      else InDouble(Add(st, Double, "$"), c)
    case Naming(name) =>
      if NameChar(c) then Some(st.(mode := Naming(name + [c])))
      else InDouble(Add(st, Double, env(name)), c)
  }

  function Run(st: State, text: string, env: Environment): Option<State>
    decreases |text|
  {
    if text == "" then Some(st)
    else
      var next := Step(st, text[0], env);
      if next.None? then None else Run(next.value, text[1..], env)
  }

  const BEGIN: State := State(Plain, None, [], [])

  /** The commands that the shell would run, each as its list of words. */
  function Shell(text: string, env: Environment): Option<seq<seq<string>>> {
    var end := Run(BEGIN, text, env);
    if end.None? || !end.value.mode.Plain? then None
    else
      var last := EndCommand(end.value);
      if last.None? then None else Some(last.value.commands)
  }

  lemma {:induction false} RunJoins(st: State, a: string, b: string, env: Environment)
    ensures Run(st, a + b, env) == if Run(st, a, env).Some? then Run(Run(st, a, env).value, b, env) else None
    decreases |a|
  {
    if a == "" {
      assert a + b == b;
    } else {
      assert (a + b)[1..] == a[1..] + b;
      var next := Step(st, a[0], env);
      if next.Some? { RunJoins(next.value, a[1..], b, env); }
    }
  }

  predicate Reads(a: State, text: string, b: State, env: Environment) { Run(a, text, env) == Some(b) }

  lemma Chain(a: State, t: string, b: State, u: string, c: State, env: Environment)
    requires Reads(a, t, b, env) && Reads(b, u, c, env)
    ensures Reads(a, t + u, c, env)
  {
    RunJoins(a, t, u, env);
  }
  lemma AddTwice(st: State, m: Mode, a: string, n: Mode, b: string)
    ensures Add(Add(st, m, a), n, b) == Add(st, n, a + b)
  {
    assert Sofar(st) + a + b == Sofar(st) + (a + b);
  }
  lemma AddNothing(st: State)
    requires st.word.Some?
    ensures Add(st, st.mode, "") == st
  {
    assert Sofar(st) + "" == Sofar(st);
  }
  lemma One(st: State, c: char, env: Environment)
    ensures Run(st, [c], env) == Step(st, c, env)
  {
    var text: string := [c];
    assert text[1..] == "";
  }

  // ----- the printer

  function ReplaceAll(s: string, c: char, with: string): string {
    if s == "" then "" else (if s[0] == c then with else [s[0]]) + ReplaceAll(s[1..], c, with)
  }

  function Quote(value: string): string { "'" + ReplaceAll(value, '\'', "'\"'\"'") + "'" }

  function Escaped(rest: string): string {
    ReplaceAll(ReplaceAll(ReplaceAll(ReplaceAll(rest, '\\', "\\\\"), '"', "\\\""), '$', "\\$"), '`', "\\`")
  }
  function PathExpression(value: string): string {
    var trimmed := Trim(value, (c: char) => White(c as int));
    if trimmed == "~" then "\"$HOME\""
    else if |trimmed| >= 2 && trimmed[..2] == "~/" then "\"$HOME/" + Escaped(trimmed[2..]) + "\""
    else Quote(trimmed)
  }
  /** The path that is meant. */
  function PathMeant(value: string, home: string): string {
    var trimmed := Trim(value, (c: char) => White(c as int));
    if trimmed == "~" then home
    else if |trimmed| >= 2 && trimmed[..2] == "~/" then home + "/" + trimmed[2..]
    else trimmed
  }

  // ----- reading back a quoted value

  lemma CloseAndReopen(st: State, env: Environment)
    requires st.mode.Single? && st.word.Some?
    ensures Run(st, "'\"'\"'", env) == Some(Add(st, Single, "'"))
  {
    var text := "'\"'\"'";
    assert text[1..] == "\"'\"'" && "\"'\"'"[1..] == "'\"'" && "'\"'"[1..] == "\"'" && "\"'"[1..] == "'" && "'"[1..] == "";
    var s1 := st.(mode := Plain);
    var s2 := Add(s1, Double, "");
    var s3 := Add(s2, Double, "'");
    var s4 := s3.(mode := Plain);
    assert Sofar(s2) == Sofar(st) && Sofar(s4) == Sofar(st) + "'";
    assert Run(s4, "'", env) == Some(Add(s4, Single, ""));
    assert Sofar(s4) + "" == Sofar(s4);
    assert Run(s3, "\"'", env) == Run(s4, "'", env);
    assert Run(s2, "'\"'", env) == Run(s3, "\"'", env);
    assert Run(s1, "\"'\"'", env) == Run(s2, "'\"'", env);
  }

  lemma {:induction false} QuotedBody(st: State, value: string, env: Environment)
    requires st.mode.Single? && st.word.Some?
    ensures Reads(st, ReplaceAll(value, '\'', "'\"'\"'"), Add(st, Single, value), env)
    decreases |value|
  {
    if value == "" {
      AddNothing(st);
    } else {
      var c := value[0];
      var head := if c == '\'' then "'\"'\"'" else [c];
      var next := Add(st, Single, [c]);
      assert Reads(st, head, next, env) by { if c == '\'' { CloseAndReopen(st, env); } else { One(st, c, env); } }
      QuotedBody(next, value[1..], env);
      AddTwice(st, Single, [c], Single, value[1..]);
      assert [c] + value[1..] == value;
      Chain(st, head, next, ReplaceAll(value[1..], '\'', "'\"'\"'"), Add(st, Single, value), env);
    }
  }

  /** A quoted value is read back as exactly that value, whatever characters it has. */
  lemma QuoteIsExact(st: State, value: string, env: Environment)
    requires st.mode.Plain?
    ensures Reads(st, Quote(value), Add(st, Plain, value), env)
  {
    var body := ReplaceAll(value, '\'', "'\"'\"'");
    var open := Add(st, Single, "");
    One(st, '\'', env);
    QuotedBody(open, value, env);
    AddTwice(st, Single, "", Single, value);
    assert "" + value == value;
    Chain(st, "'", open, body, Add(st, Single, value), env);
    One(Add(st, Single, value), '\'', env);
    Chain(st, "'" + body, Add(st, Single, value), "'", Add(st, Plain, value), env);
  }

  // ----- reading back an escaped path

  predicate Special(c: char) { c == '\\' || c == '"' || c == '$' || c == '`' }
  function EscapeChar(c: char): string { if Special(c) then ['\\', c] else [c] }

  lemma {:induction false} ReplaceJoins(a: string, b: string, c: char, with: string)
    ensures ReplaceAll(a + b, c, with) == ReplaceAll(a, c, with) + ReplaceAll(b, c, with)
  {
    if a == "" {
      assert a + b == b;
    } else {
      assert (a + b)[1..] == a[1..] + b;
      ReplaceJoins(a[1..], b, c, with);
    }
  }
  lemma ReplaceOne(x: char, c: char, with: string)
    ensures ReplaceAll([x], c, with) == if x == c then with else [x]
  {
    var s: string := [x];
    assert s[1..] == "";
  }
  lemma ReplaceTwo(x: char, y: char, c: char, with: string)
    ensures ReplaceAll([x, y], c, with) == (if x == c then with else [x]) + if y == c then with else [y]
  {
    ReplaceOne(x, c, with);
    ReplaceOne(y, c, with);
    ReplaceJoins([x], [y], c, with);
    assert [x] + [y] == [x, y];
  }

  /** The four replacements one after the other escape each character once. */
  lemma EscapedOne(c: char)
    ensures Escaped([c]) == EscapeChar(c)
  {
    ReplaceOne(c, '\\', "\\\\");
    ReplaceOne(c, '"', "\\\"");
    ReplaceOne(c, '$', "\\$");
    ReplaceOne(c, '`', "\\`");
    ReplaceTwo('\\', c, '"', "\\\"");
    ReplaceTwo('\\', c, '$', "\\$");
    ReplaceTwo('\\', c, '`', "\\`");
    assert "\\\\" == ['\\', '\\'] && "\\\"" == ['\\', '"'] && "\\$" == ['\\', '$'] && "\\`" == ['\\', '`'];
    assert forall x: char :: ['\\'] + [x] == ['\\', x];
  }
  lemma EscapedStep(rest: string)
    requires rest != ""
    ensures Escaped(rest) == EscapeChar(rest[0]) + Escaped(rest[1..])
  {
    var head: string := [rest[0]];
    assert rest == head + rest[1..];
    EscapedOne(rest[0]);
    var a1, b1 := ReplaceAll(head, '\\', "\\\\"), ReplaceAll(rest[1..], '\\', "\\\\");
    ReplaceJoins(head, rest[1..], '\\', "\\\\");
    var a2, b2 := ReplaceAll(a1, '"', "\\\""), ReplaceAll(b1, '"', "\\\"");
    ReplaceJoins(a1, b1, '"', "\\\"");
    var a3, b3 := ReplaceAll(a2, '$', "\\$"), ReplaceAll(b2, '$', "\\$");
    ReplaceJoins(a2, b2, '$', "\\$");
    ReplaceJoins(a3, b3, '`', "\\`");
  }

  lemma EscapedCharRead(st: State, c: char, env: Environment)
    requires st.mode.Double? && st.word.Some?
    ensures Run(st, EscapeChar(c), env) == Some(Add(st, Double, [c]))
  {
    One(st, c, env);
    if Special(c) {
      RunJoins(st, ['\\'], [c], env);
      One(st, '\\', env);
      One(st.(mode := DoubleEscape), c, env);
      assert ['\\'] + [c] == ['\\', c];
    }
  }

  lemma {:induction false} EscapedBody(st: State, rest: string, env: Environment)
    requires st.mode.Double? && st.word.Some?
    ensures Reads(st, Escaped(rest), Add(st, Double, rest), env)
    decreases |rest|
  {
    if rest == "" {
      AddNothing(st);
    } else {
      var next := Add(st, Double, [rest[0]]);
      EscapedStep(rest);
      EscapedCharRead(st, rest[0], env);
      EscapedBody(next, rest[1..], env);
      AddTwice(st, Double, [rest[0]], Double, rest[1..]);
      assert [rest[0]] + rest[1..] == rest;
      Chain(st, EscapeChar(rest[0]), next, Escaped(rest[1..]), Add(st, Double, rest), env);
    }
  }

  // ----- literal text and parameters

  predicate AllOrdinary(text: string) { forall c | c in text :: Ordinary(c) }
  predicate Literal(text: string) { forall c | c in text :: !Special(c) }
  predicate IsName(text: string) { text != "" && NameStart(text[0]) && forall c | c in text :: NameChar(c) }

  lemma {:induction false} PlainText(st: State, text: string, env: Environment)
    requires st.mode.Plain? && AllOrdinary(text) && text != ""
    ensures Reads(st, text, Add(st, Plain, text), env)
    decreases |text|
  {
    var c := text[0];
    assert c in text && text == [c] + text[1..];
    One(st, c, env);
    if |text| > 1 {
      var next := Add(st, Plain, [c]);
      assert forall x | x in text[1..] :: x in text;
      PlainText(next, text[1..], env);
      AddTwice(st, Plain, [c], Plain, text[1..]);
      Chain(st, [c], next, text[1..], Add(st, Plain, text), env);
    } else {
      assert text == [c];
    }
  }

  lemma {:induction false} DoubleText(st: State, text: string, env: Environment)
    requires st.mode.Double? && Literal(text) && st.word.Some?
    ensures Run(st, text, env) == Some(Add(st, Double, text))
    decreases |text|
  {
    if text == "" {
      assert Sofar(st) + "" == Sofar(st);
    } else {
      assert text[0] in text;
      assert Step(st, text[0], env) == Some(Add(st, Double, [text[0]]));
      assert forall c | c in text[1..] :: c in text;
      DoubleText(Add(st, Double, [text[0]]), text[1..], env);
      assert Sofar(st) + [text[0]] + text[1..] == Sofar(st) + text;
    }
  }

  lemma {:induction false} NameText(st: State, name: string, more: string, env: Environment)
    requires st.mode == Naming(name) && forall c | c in more :: NameChar(c)
    ensures Run(st, more, env) == Some(st.(mode := Naming(name + more)))
    decreases |more|
  {
    if more == "" {
      assert name + "" == name;
    } else {
      assert more[0] in more && forall c | c in more[1..] :: c in more;
      NameText(st.(mode := Naming(name + [more[0]])), name + [more[0]], more[1..], env);
      assert name + [more[0]] + more[1..] == name + more;
    }
  }

  /** `$NAME` followed by something that cannot belong to the name. */
  lemma Parameter(st: State, name: string, c: char, env: Environment)
    requires st.mode.Double? && st.word.Some? && IsName(name) && !NameChar(c)
    ensures Run(st, "$" + name + [c], env) == InDouble(Add(st, Double, env(name)), c)
  {
    var s1 := st.(mode := Dollar);
    One(st, '$', env);
    RunJoins(st, "$" + name, [c], env);
    RunJoins(st, "$", name, env);
    assert name == [name[0]] + name[1..];
    RunJoins(s1, [name[0]], name[1..], env);
    One(s1, name[0], env);
    var s2 := s1.(mode := Naming([name[0]]));
    assert forall x | x in name[1..] :: x in name;
    NameText(s2, [name[0]], name[1..], env);
    One(s2.(mode := Naming(name)), c, env);
  }

  /** `$NAME` followed by literal text that cannot belong to the name. */
  lemma ParameterText(st: State, name: string, text: string, env: Environment)
    requires st.mode.Double? && st.word.Some? && IsName(name) && text != "" && !NameChar(text[0]) && Literal(text)
    ensures Reads(st, "$" + name + text, Add(st, Double, env(name) + text), env)
  {
    var c := text[0];
    assert c in text && forall x | x in text[1..] :: x in text;
    var mid := Add(st, Double, env(name) + [c]);
    Parameter(st, name, c, env);
    AddTwice(st, Double, env(name), Double, [c]);
    DoubleText(mid, text[1..], env);
    AddTwice(st, Double, env(name) + [c], Double, text[1..]);
    assert env(name) + [c] + text[1..] == env(name) + text;
    Chain(st, "$" + name + [c], mid, text[1..], Add(st, Double, env(name) + text), env);
    assert "$" + name + [c] + text[1..] == "$" + name + text;
  }

  lemma HomeAlone(st: State, env: Environment)
    requires st.mode.Plain?
    ensures Reads(st, "\"$HOME\"", Add(st, Plain, env("HOME")), env)
  {
    var open := Add(st, Double, "");
    One(st, '"', env);
    Parameter(open, "HOME", '"', env);
    AddTwice(st, Double, "", Double, env("HOME"));
    assert "" + env("HOME") == env("HOME");
    Chain(st, "\"", open, "$" + "HOME" + ['"'], Add(st, Plain, env("HOME")), env);
    assert "\"" + ("$" + "HOME" + ['"']) == "\"$HOME\"";
  }

  lemma HomeBased(st: State, rest: string, env: Environment)
    requires st.mode.Plain?
    ensures Reads(st, "\"$HOME/" + Escaped(rest) + "\"", Add(st, Plain, env("HOME") + "/" + rest), env)
  {
    var open := Add(st, Double, "");
    var home := env("HOME") + "/";
    One(st, '"', env);
    ParameterText(open, "HOME", "/", env);
    AddTwice(st, Double, "", Double, home);
    assert "" + home == home;
    var mid := Add(st, Double, home);
    Chain(st, "\"", open, "$" + "HOME" + "/", mid, env);
    assert "\"" + ("$" + "HOME" + "/") == "\"$HOME/";
    EscapedBody(mid, rest, env);
    AddTwice(st, Double, home, Double, rest);
    var full := Add(st, Double, home + rest);
    Chain(st, "\"$HOME/", mid, Escaped(rest), full, env);
    One(full, '"', env);
    Chain(st, "\"$HOME/" + Escaped(rest), full, "\"", full.(mode := Plain), env);
  }

  /** A path expression is read as the path that is meant, with `~` as the home directory. */
  lemma PathIsExact(st: State, value: string, env: Environment)
    requires st.mode.Plain?
    ensures Reads(st, PathExpression(value), Add(st, Plain, PathMeant(value, env("HOME"))), env)
  {
    var trimmed := Trim(value, (c: char) => White(c as int));
    if trimmed == "~" {
      HomeAlone(st, env);
    } else if |trimmed| >= 2 && trimmed[..2] == "~/" {
      HomeBased(st, trimmed[2..], env);
    } else {
      QuoteIsExact(st, trimmed, env);
    }
  }

  // ----- whole commands

  function Joined(parts: seq<string>): string {
    if parts == [] then "" else if |parts| == 1 then parts[0] else parts[0] + " " + Joined(parts[1..])
  }
  function Quoted(args: seq<string>): seq<string> {
    if args == [] then [] else [Quote(args[0])] + Quoted(args[1..])
  }
  function Arguments(args: seq<string>): string { if args == [] then "" else " " + Joined(Quoted(args)) }

  const LOCAL: string := "/.local/bin:"
  const NPM: string := "/.npm-global/bin:"
  const BUN: string := "/.bun/bin:" + "/opt/homebrew/bin:" + "/usr/local/bin:"
  const KIMI: string := "/.kimi-code/bin"
  const SEARCH_PATH: seq<(string, string)> := [("HOME", LOCAL), ("HOME", NPM), ("HOME", BUN), ("PATH", ":"),
                                               ("HOME", KIMI)]

  function PathText(parts: seq<(string, string)>): string {
    if parts == [] then "" else "$" + parts[0].0 + parts[0].1 + PathText(parts[1..])
  }
  function PathValue(parts: seq<(string, string)>, env: Environment): string {
    if parts == [] then "" else env(parts[0].0) + parts[0].1 + PathValue(parts[1..], env)
  }
  const PREFIX: string := "export PATH=\"" + PathText(SEARCH_PATH) + "\""

  datatype Host = Host(twPath: string, tmuxPath: string)

  function Default(value: string, otherwise: string): string { if value == "" then otherwise else value }

  function RemoteTw(host: Host, args: seq<string>): string {
    PREFIX + "; " + (if host.tmuxPath == "" then "" else "TW_TMUX=" + PathExpression(host.tmuxPath) + " ")
      + PathExpression(Default(host.twPath, "tw")) + Arguments(args)
  }
  function RemoteTmux(host: Host, args: seq<string>): string {
    PREFIX + "; " + PathExpression(Default(host.tmuxPath, "tmux")) + Arguments(args)
  }

  /** A word is complete up to here, after some words and commands. */
  function At(commands: seq<seq<string>>, words: seq<string>, word: string): State {
    State(Plain, Some(word), words, commands)
  }

  lemma ArgumentsStep(args: seq<string>)
    requires args != []
    ensures Arguments(args) == " " + Quote(args[0]) + Arguments(args[1..])
  {
    var q := Quoted(args);
    assert q[0] == Quote(args[0]) && q[1..] == Quoted(args[1..]);
    if |args| == 1 {
      assert args[1..] == [] && |q| == 1;
      assert " " + Joined(q) == " " + Quote(args[0]) + "";
    } else {
      assert |q| == 1 + |Quoted(args[1..])| && Quoted(args[1..]) != [];
      assert " " + Joined(q) == " " + Quote(args[0]) + (" " + Joined(q[1..]));
    }
  }

  lemma ArgumentRead(commands: seq<seq<string>>, words: seq<string>, word: string, arg: string, env: Environment)
    ensures Reads(At(commands, words, word), " " + Quote(arg), At(commands, words + [word], arg), env)
  {
    var st := At(commands, words, word);
    One(st, ' ', env);
    QuoteIsExact(EndWord(st), arg, env);
    assert "" + arg == arg;
    Chain(st, " ", EndWord(st), Quote(arg), At(commands, words + [word], arg), env);
  }

  function Upto(commands: seq<seq<string>>, all: seq<string>): State
    requires all != []
  {
    At(commands, all[..|all| - 1], all[|all| - 1])
  }

  lemma {:induction false} ArgumentsRead(commands: seq<seq<string>>, words: seq<string>, word: string,
                                         args: seq<string>, env: Environment)
    ensures Reads(At(commands, words, word), Arguments(args), Upto(commands, words + [word] + args), env)
    decreases |args|
  {
    var all := words + [word] + args;
    if args == [] {
      assert all[..|all| - 1] == words && all[|all| - 1] == word;
    } else {
      ArgumentRead(commands, words, word, args[0], env);
      ArgumentsRead(commands, words + [word], args[0], args[1..], env);
      Shifted(words, word, args);
      ArgumentsStep(args);
      Chain(At(commands, words, word), " " + Quote(args[0]), At(commands, words + [word], args[0]),
            Arguments(args[1..]), Upto(commands, all), env);
    }
  }
  lemma Shifted(words: seq<string>, word: string, args: seq<string>)
    requires args != []
    ensures words + [word] + [args[0]] + args[1..] == words + [word] + args
  {
    assert [args[0]] + args[1..] == args;
  }

  predicate GoodPart(part: (string, string)) {
    IsName(part.0) && part.1 != "" && !NameChar(part.1[0]) && Literal(part.1)
  }

  lemma {:induction false} SearchPathRead(st: State, parts: seq<(string, string)>, env: Environment)
    requires st.mode.Double? && st.word.Some? && forall part | part in parts :: GoodPart(part)
    ensures Reads(st, PathText(parts), Add(st, Double, PathValue(parts, env)), env)
    decreases |parts|
  {
    if parts == [] {
      AddNothing(st);
    } else {
      var head, value := "$" + parts[0].0 + parts[0].1, env(parts[0].0) + parts[0].1;
      assert parts[0] in parts && forall part | part in parts[1..] :: part in parts;
      ParameterText(st, parts[0].0, parts[0].1, env);
      var next := Add(st, Double, value);
      SearchPathRead(next, parts[1..], env);
      AddTwice(st, Double, value, Double, PathValue(parts[1..], env));
      Chain(st, head, next, PathText(parts[1..]), Add(st, Double, value + PathValue(parts[1..], env)), env);
    }
  }

  lemma LiteralJoins(a: string, b: string)
    requires Literal(a) && Literal(b)
    ensures Literal(a + b)
  {}
  lemma LiteralLocal() ensures Literal("/.local/bin:") {}
  lemma LiteralNpm() ensures Literal("/.npm-global/bin:") {}
  lemma LiteralBun() ensures Literal("/.bun/bin:") {}
  lemma LiteralBrew() ensures Literal("/opt/homebrew/bin:") {}
  lemma LiteralUsr() ensures Literal("/usr/local/bin:") {}
  lemma LiteralKimi() ensures Literal("/.kimi-code/bin") {}
  lemma LiteralBunAll()
    ensures Literal(BUN) && BUN != "" && BUN[0] == '/'
  {
    LiteralBun();
    LiteralBrew();
    LiteralJoins("/.bun/bin:", "/opt/homebrew/bin:");
    LiteralUsr();
    LiteralJoins("/.bun/bin:" + "/opt/homebrew/bin:", "/usr/local/bin:");
  }
  lemma GoodHome(text: string)
    requires text != "" && text[0] == '/' && Literal(text)
    ensures GoodPart(("HOME", text))
  {
    var name := "HOME";
    assert IsName(name);
  }
  lemma GoodPath()
    ensures GoodPart(("PATH", ":"))
  {
    var name := "PATH";
    assert IsName(name);
  }
  lemma GoodSearchPath()
    ensures forall part | part in SEARCH_PATH :: GoodPart(part)
  {
    LiteralLocal();
    GoodHome(LOCAL);
    LiteralNpm();
    GoodHome(NPM);
    LiteralBunAll();
    GoodHome(BUN);
    LiteralKimi();
    GoodHome(KIMI);
    GoodPath();
  }

  function Exported(env: Environment): seq<string> { ["export", "PATH=" + PathValue(SEARCH_PATH, env)] }

  lemma ExportRead(env: Environment)
    ensures Reads(BEGIN, "export ", State(Plain, None, ["export"], []), env)
  {
    PlainText(BEGIN, "export", env);
    assert "" + "export" == "export";
    var s1 := At([], [], "export");
    One(s1, ' ', env);
    var none: seq<string> := [];
    assert none + ["export"] == ["export"];
    Chain(BEGIN, "export", s1, " ", EndWord(s1), env);
    assert "export" + " " == "export ";
  }
  lemma PathOpens(env: Environment)
    ensures Reads(State(Plain, None, ["export"], []), "PATH=\"", At([], ["export"], "PATH=").(mode := Double), env)
  {
    var s2 := State(Plain, None, ["export"], []);
    PlainText(s2, "PATH=", env);
    assert "" + "PATH=" == "PATH=";
    var s3 := At([], ["export"], "PATH=");
    One(s3, '"', env);
    AddNothing(s3.(mode := Double));
    Chain(s2, "PATH=", s3, "\"", s3.(mode := Double), env);
    assert "PATH=" + "\"" == "PATH=\"";
  }

  /** The prefix is one command of its own that extends the search path. */
  lemma PrefixRead(env: Environment)
    ensures Reads(BEGIN, PREFIX + "; ", State(Plain, None, [], [Exported(env)]), env)
  {
    var value := PathValue(SEARCH_PATH, env);
    ExportRead(env);
    PathOpens(env);
    var s4 := At([], ["export"], "PATH=").(mode := Double);
    Chain(BEGIN, "export ", State(Plain, None, ["export"], []), "PATH=\"", s4, env);
    assert "export " + "PATH=\"" == "export PATH=\"";
    GoodSearchPath();
    SearchPathRead(s4, SEARCH_PATH, env);
    ClosePrefix(s4, PathText(SEARCH_PATH), value, env);
    Chain(BEGIN, "export PATH=\"", s4, PathText(SEARCH_PATH) + "\"" + "; ", State(Plain, None, [], [Exported(env)]),
          env);
    assert "export PATH=\"" + (PathText(SEARCH_PATH) + "\"" + "; ") == PREFIX + "; ";
  }

  lemma ClosePrefix(st: State, text: string, value: string, env: Environment)
    requires st == At([], ["export"], "PATH=").(mode := Double) && Reads(st, text, Add(st, Double, value), env)
    ensures Reads(st, text + "\"" + "; ", State(Plain, None, [], [["export", "PATH=" + value]]), env)
  {
    var s5 := Add(st, Double, value);
    One(s5, '"', env);
    var s6 := s5.(mode := Plain);
    Chain(st, text, s5, "\"", s6, env);
    PrefixEnds(s6, value, env);
    Chain(st, text + "\"", s6, "; ", State(Plain, None, [], [["export", "PATH=" + value]]), env);
  }

  lemma PrefixEnds(st: State, value: string, env: Environment)
    requires st == At([], ["export"], "PATH=" + value)
    ensures Reads(st, "; ", State(Plain, None, [], [["export", "PATH=" + value]]), env)
  {
    One(st, ';', env);
    var words := ["export"] + ["PATH=" + value];
    assert words == ["export", "PATH=" + value];
    var none: seq<seq<string>> := [];
    assert none + [words] == [words];
    var s1 := State(Plain, None, [], [words]);
    assert EndCommand(st) == Some(s1);
    One(s1, ' ', env);
    assert EndWord(s1) == s1;
    Chain(st, ";", s1, " ", s1, env);
    assert ";" + " " == "; ";
  }

  /** Reading ends after the last word. */
  lemma Finishes(text: string, commands: seq<seq<string>>, words: seq<string>, env: Environment)
    requires words != [] && Reads(BEGIN, text, Upto(commands, words), env)
    ensures Shell(text, env) == Some(commands + [words])
  {
    assert words[..|words| - 1] + [words[|words| - 1]] == words;
  }

  /** A word `TW_TMUX=path` in front, when the host has its own tmux. */
  lemma TmuxSettingRead(start: State, path: string, env: Environment)
    requires start.mode.Plain? && start.word.None?
    ensures Reads(start, "TW_TMUX=" + PathExpression(path) + " ",
                  start.(words := start.words + ["TW_TMUX=" + PathMeant(path, env("HOME"))]), env)
  {
    PlainText(start, "TW_TMUX=", env);
    assert "" + "TW_TMUX=" == "TW_TMUX=";
    var s1 := Add(start, Plain, "TW_TMUX=");
    PathIsExact(s1, path, env);
    AddTwice(start, Plain, "TW_TMUX=", Plain, PathMeant(path, env("HOME")));
    var s2 := Add(start, Plain, "TW_TMUX=" + PathMeant(path, env("HOME")));
    Chain(start, "TW_TMUX=", s1, PathExpression(path), s2, env);
    One(s2, ' ', env);
    assert Sofar(s2) == "TW_TMUX=" + PathMeant(path, env("HOME"));
    Chain(start, "TW_TMUX=" + PathExpression(path), s2, " ", EndWord(s2), env);
  }

  /** A program and its arguments, after whatever was read before. */
  lemma ProgramRead(before: string, setting: seq<string>, program: string, args: seq<string>, env: Environment)
    requires Reads(BEGIN, before, State(Plain, None, setting, [Exported(env)]), env)
    ensures Shell(before + PathExpression(program) + Arguments(args), env) == Some([Exported(env), setting + [PathMeant(program, env("HOME"))] + args])
  {
    var ready := State(Plain, None, setting, [Exported(env)]);
    var word := PathMeant(program, env("HOME"));
    PathIsExact(ready, program, env);
    assert "" + word == word;
    var named := At([Exported(env)], setting, word);
    Chain(BEGIN, before, ready, PathExpression(program), named, env);
    ArgumentsRead([Exported(env)], setting, word, args, env);
    var words := setting + [word] + args;
    Chain(BEGIN, before + PathExpression(program), named, Arguments(args), Upto([Exported(env)], words), env);
    Finishes(before + PathExpression(program) + Arguments(args), [Exported(env)], words, env);
    assert [Exported(env)] + [words] == [Exported(env), words];
  }

  /** The remote shell runs exactly the intended program with exactly the given arguments. */
  lemma RemoteTmuxIsExact(host: Host, args: seq<string>, env: Environment)
    ensures Shell(RemoteTmux(host, args), env) == Some([Exported(env),
                                                        [PathMeant(Default(host.tmuxPath, "tmux"),
                                                                   env("HOME"))] + args])
  {
    PrefixRead(env);
    var none, word := [], PathMeant(Default(host.tmuxPath, "tmux"), env("HOME"));
    ProgramRead(PREFIX + "; ", none, Default(host.tmuxPath, "tmux"), args, env);
    assert none + [word] == [word];
  }

  lemma RemoteTwIsExact(host: Host, args: seq<string>, env: Environment)
    ensures var setting := if host.tmuxPath == "" then [] else ["TW_TMUX=" + PathMeant(host.tmuxPath, env("HOME"))];
      Shell(RemoteTw(host, args), env) == Some([Exported(env),
                                                setting + [PathMeant(Default(host.twPath, "tw"), env("HOME"))] + args])
  {
    var setting := if host.tmuxPath == "" then [] else ["TW_TMUX=" + PathMeant(host.tmuxPath, env("HOME"))];
    var start := State(Plain, None, [], [Exported(env)]);
    var before := if host.tmuxPath == "" then "" else "TW_TMUX=" + PathExpression(host.tmuxPath) + " ";
    PrefixRead(env);
    var ready := start.(words := setting);
    assert Reads(start, before, ready, env) by {
      if host.tmuxPath != "" {
        TmuxSettingRead(start, host.tmuxPath, env);
        assert start.words + setting == setting;
      }
    }
    Chain(BEGIN, PREFIX + "; ", start, before, ready, env);
    ProgramRead(PREFIX + "; " + before, setting, Default(host.twPath, "tw"), args, env);
  }
}
