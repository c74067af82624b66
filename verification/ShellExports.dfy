/**
  `format_exports` (tunstrap/envrender.py) read back with the quoting rules of
  POSIX.1-2017, XCU sections 2.2.1 (backslash) and 2.2.2 (single quotes).
*/
module ShellExports {
  import opened Wrappers

  // ------------------------------------------------------------------ printer

  // _shell_single_quote: every ' becomes '\''
  function Quote(value: string): string {
    if value == [] then []
    else (if value[0] == '\'' then ['\'', '\\', '\'', '\''] else [value[0]]) + Quote(value[1..])
  }

  datatype Binding = Binding(key: string, value: string)

  function Line(b: Binding): string { "export " + b.key + "='" + Quote(b.value) + "'" }

  // "\n".join(lines) + "\n"
  function FormatExports(env: seq<Binding>): string {
    if |env| == 0 then "\n"
    else if |env| == 1 then Line(env[0]) + "\n"
    else Line(env[0]) + "\n" + FormatExports(env[1..])
  }

  // -------------------------------------------------------------------- lexer

  datatype Mode = Plain | Quoted

  // Commands read so far are `done`; `words` are the finished words of the current command, and
  // `word` the word being read, if one has begun.
  datatype Reading = Reading(done: seq<seq<string>>, words: seq<string>, word: Option<string>)

  function Begun(r: Reading): string { if r.word.Some? then r.word.value else [] }

  function Add(r: Reading, c: char): Reading {
    r.(word := Some(Begun(r) + [c]))
  }

  function Begin(r: Reading): Reading { if r.word.None? then r.(word := Some([])) else r }

  function EndWord(r: Reading): Reading {
    if r.word.None? then r else r.(words := r.words + [r.word.value], word := None)
  }

  function EndCommand(r: Reading): Reading {
    var e := EndWord(r);
    if e.words == [] then e else Reading(e.done + [e.words], [], None)
  }

  // Characters that, unquoted, belong to other parts of the grammar.
  predicate Special(c: char) { c in {'"', '$', '`', '|', '&', ';', '<', '>', '(', ')', '*', '?', '[', '#', '~', '%'} }

  // Reads a whole text; None when it leaves the two sections, holds a NUL, or ends inside quotes.
  function Lex(text: string, mode: Mode, r: Reading): Option<seq<seq<string>>>
    decreases |text|
  {
    if text == [] then (if mode == Quoted then None else Some(EndCommand(r).done))
    else
      var c, rest := text[0], text[1..];
      if c == '\0' then None
      else if mode == Quoted then
        if c == '\'' then Lex(rest, Plain, r) else Lex(rest, Quoted, Add(r, c))
      else if c == '\'' then Lex(rest, Quoted, Begin(r))
      else if c == '\\' then
        if rest == [] || rest[0] == '\0' then None
        else if rest[0] == '\n' then Lex(rest[1..], Plain, r)     // line continuation
        else Lex(rest[1..], Plain, Add(r, rest[0]))
      else if c == ' ' || c == '\t' then Lex(rest, Plain, EndWord(r))
      else if c == '\n' then Lex(rest, Plain, EndCommand(r))
      else if Special(c) then None
      else Lex(rest, Plain, Add(r, c))
  }

  function Read(text: string): Option<seq<seq<string>>> { Lex(text, Plain, Reading([], [], None)) }

  // --------------------------------------------------------------- round trip

  predicate Ordinary(s: string) {
    forall i :: 0 <= i < |s| ==> s[i] !in {'\0', '\'', '\\', ' ', '\t', '\n'} && !Special(s[i])
  }

  predicate VariableName(s: string) {
    && s != [] && !('0' <= s[0] <= '9')
    && forall i :: 0 <= i < |s| ==> 'a' <= s[i] <= 'z' || 'A' <= s[i] <= 'Z' || '0' <= s[i] <= '9' || s[i] == '_'
  }

  function AddAll(r: Reading, s: string): Reading
    decreases |s|
  {
    if s == [] then r else AddAll(Add(r, s[0]), s[1..])
  }

  lemma {:induction false} AddAllWord(r: Reading, s: string)
    requires s != [] || r.word.Some?
    ensures AddAll(r, s) == r.(word := Some(Begun(r) + s))
    decreases |s|
  {
    if s == [] {
      assert Begun(r) + s == Begun(r);
    } else {
      var next := Add(r, s[0]);
      AddAllWord(next, s[1..]);
      assert Begun(next) + s[1..] == Begun(r) + s;
    }
  }

  // Unquoted ordinary text is taken as it stands.
  lemma {:induction false} LexOrdinary(s: string, rest: string, r: Reading)
    requires Ordinary(s)
    ensures Lex(s + rest, Plain, r) == Lex(rest, Plain, AddAll(r, s))
    decreases |s|
  {
    if s == [] {
      assert s + rest == rest;
    } else {
      assert (s + rest)[0] == s[0] && (s + rest)[1..] == s[1..] + rest;
      LexOrdinary(s[1..], rest, Add(r, s[0]));
    }
  }

  // A quoted value is read back character by character, quotes, backslashes and newlines included.
  lemma {:induction false} LexQuoted(value: string, rest: string, r: Reading)
    requires '\0' !in value && r.word.Some?
    ensures Lex(Quote(value) + rest, Quoted, r) == Lex(rest, Quoted, AddAll(r, value))
    decreases |value|
  {
    if value == [] {
      assert Quote(value) + rest == rest;
    } else {
      var tail := Quote(value[1..]) + rest;
      var r' := Add(r, value[0]);
      LexQuoted(value[1..], rest, r');
      if value[0] == '\'' {
        assert Quote(value) + rest == ['\'', '\\', '\'', '\''] + tail;
        LexEscapedQuote(Quote(value) + rest, tail, r);
      } else {
        assert Quote(value) + rest == [value[0]] + tail;
        LexPlainChar(value[0], tail, r);
      }
    }
  }

  // Between quotes any other character stands for itself.
  lemma {:induction false} LexPlainChar(c: char, tail: string, r: Reading)
    requires c != '\0' && c != '\'' && r.word.Some?
    ensures Lex([c] + tail, Quoted, r) == Lex(tail, Quoted, Add(r, c))
  {
    assert ([c] + tail)[0] == c && ([c] + tail)[1..] == tail;
  }

  lemma {:induction false} LexEscapedQuote(text: string, tail: string, r: Reading)
    requires |text| >= 4 && text[..4] == ['\'', '\\', '\'', '\''] && text[4..] == tail && r.word.Some?
    ensures Lex(text, Quoted, r) == Lex(tail, Quoted, Add(r, '\''))
  {
    var t1, t3 := text[1..], text[3..];
    assert t1[0] == '\\' && t1[1..][0] == '\'' && t1[1..][1..] == t3 && t3[0] == '\'' && t3[1..] == tail;
    assert Lex(text, Quoted, r) == Lex(t1, Plain, r);
    assert Lex(t1, Plain, r) == Lex(t3, Plain, Add(r, '\''));
    assert Lex(t3, Plain, Add(r, '\'')) == Lex(tail, Quoted, Add(r, '\''));
  }

  function Word(b: Binding): string { b.key + "=" + b.value }

  predicate Exportable(b: Binding) { VariableName(b.key) && '\0' !in b.value }

  lemma {:induction false} LexClosing(text: string, rest: string, r: Reading)
    requires text == "'\n" + rest
    ensures Lex(text, Quoted, r) == Lex(rest, Plain, EndCommand(r))
  {
    var t1 := text[1..];
    assert t1[0] == '\n' && t1[1..] == rest;
    assert Lex(text, Quoted, r) == Lex(t1, Plain, r);
  }

  // Ordinary text that starts a word becomes that word.
  lemma {:induction false} LexFirst(s: string, rest: string, done: seq<seq<string>>, words: seq<string>)
    requires Ordinary(s) && s != []
    ensures Lex(s + rest, Plain, Reading(done, words, None)) == Lex(rest, Plain, Reading(done, words, Some(s)))
  {
    var r := Reading(done, words, None);
    LexOrdinary(s, rest, r);
    AddAllWord(r, s);
    assert Begun(r) + s == s;
  }

  lemma {:induction false} KeyIsOrdinary(key: string)
    requires VariableName(key)
    ensures Ordinary(key + "=")
  {
    var s := key + "=";
    forall i | 0 <= i < |s|
      ensures s[i] !in {'\0', '\'', '\\', ' ', '\t', '\n'} && !Special(s[i])
    {
      assert s[i] == if i < |key| then key[i] else '=';
    }
  }

  // The keyword and the blank after it.
  lemma {:induction false} LexExport(rest: string, done: seq<seq<string>>)
    ensures Lex("export " + rest, Plain, Reading(done, [], None)) == Lex(rest, Plain, Reading(done, ["export"], None))
  {
    var blank := " " + rest;
    assert "export " + rest == "export" + blank;
    LexFirst("export", blank, done, []);
    assert blank[0] == ' ' && blank[1..] == rest;
    assert [] + ["export"] == ["export"];
  }

  // The key, the quoted value and the end of the line.
  lemma {:induction false} LexAssignment(b: Binding, rest: string, done: seq<seq<string>>)
    requires Exportable(b)
    ensures Lex(b.key + "=" + ("'" + (Quote(b.value) + ("'\n" + rest))), Plain, Reading(done, ["export"], None))
         == Lex(rest, Plain, Reading(done + [["export", Word(b)]], [], None))
  {
    var closing := "'\n" + rest;
    var quoted := "'" + (Quote(b.value) + closing);
    var keyed := b.key + "=";
    KeyIsOrdinary(b.key);
    LexFirst(keyed, quoted, done, ["export"]);
    var r := Reading(done, ["export"], Some(keyed));
    assert quoted[0] == '\'' && quoted[1..] == Quote(b.value) + closing;
    assert Lex(quoted, Plain, r) == Lex(Quote(b.value) + closing, Quoted, r);
    LexQuoted(b.value, closing, r);
    AddAllWord(r, b.value);
    LexClosing(closing, rest, r.(word := Some(Word(b))));
    assert ["export"] + [Word(b)] == ["export", Word(b)];
  }

  // One line and its newline add one command: the word `export` and the word KEY=VALUE.
  lemma {:induction false} LexLine(b: Binding, rest: string, done: seq<seq<string>>)
    requires Exportable(b)
    ensures Lex(Line(b) + "\n" + rest, Plain, Reading(done, [], None))
         == Lex(rest, Plain, Reading(done + [["export", Word(b)]], [], None))
  {
    var assignment := b.key + "=" + ("'" + (Quote(b.value) + ("'\n" + rest)));
    assert Line(b) + "\n" + rest == "export " + assignment;
    LexExport(assignment, done);
    LexAssignment(b, rest, done);
  }

  function Commands(env: seq<Binding>): seq<seq<string>> {
    if env == [] then [] else [["export", Word(env[0])]] + Commands(env[1..])
  }

  lemma {:induction false} LexEnv(env: seq<Binding>, done: seq<seq<string>>)
    requires forall i :: 0 <= i < |env| ==> Exportable(env[i])
    ensures Lex(FormatExports(env), Plain, Reading(done, [], None)) == Some(done + Commands(env))
    decreases |env|
  {
    var r := Reading(done, [], None);
    if |env| == 0 {
      assert "\n"[1..] == [];
      assert EndCommand(EndCommand(r)) == r;
      assert done + Commands(env) == done;
    } else {
      var next := done + [["export", Word(env[0])]];
      if |env| == 1 {
        LexLine(env[0], [], done);
        assert Line(env[0]) + "\n" + [] == FormatExports(env);
        assert Commands(env[1..]) == [];
        assert done + Commands(env) == next;
      } else {
        LexLine(env[0], FormatExports(env[1..]), done);
        LexEnv(env[1..], next);
        assert next + Commands(env[1..]) == done + Commands(env);
      }
    }
  }

  // Reading the printed text gives exactly the commands `export KEY=VALUE`, in order.
  lemma {:induction false} ExportsReadBack(env: seq<Binding>)
    requires forall i :: 0 <= i < |env| ==> Exportable(env[i])
    ensures Read(FormatExports(env)) == Some(Commands(env))
  {
    LexEnv(env, []);
    assert [] + Commands(env) == Commands(env);
  }

  // ... so the printed text determines the environment.
  lemma {:induction false} ExportsInjective(a: seq<Binding>, b: seq<Binding>)
    requires forall i :: 0 <= i < |a| ==> Exportable(a[i])
    requires forall i :: 0 <= i < |b| ==> Exportable(b[i])
    requires FormatExports(a) == FormatExports(b)
    ensures a == b
  {
    ExportsReadBack(a);
    ExportsReadBack(b);
    CommandsInjective(a, b);
  }

  lemma {:induction false} CommandsInjective(a: seq<Binding>, b: seq<Binding>)
    requires forall i :: 0 <= i < |a| ==> Exportable(a[i])
    requires forall i :: 0 <= i < |b| ==> Exportable(b[i])
    requires Commands(a) == Commands(b)
    ensures a == b
    decreases |a|
  {
    if a != [] && b != [] {
      assert Commands(a)[0] == ["export", Word(a[0])] && Commands(b)[0] == ["export", Word(b[0])];
      assert Commands(a)[0][1] == Commands(b)[0][1];
      WordInjective(a[0], b[0]);
      assert Commands(a)[1..] == Commands(a[1..]) && Commands(b)[1..] == Commands(b[1..]);
      CommandsInjective(a[1..], b[1..]);
      assert a == [a[0]] + a[1..] && b == [b[0]] + b[1..];
    } else {
      assert a != [] ==> Commands(a) != [];
      assert b != [] ==> Commands(b) != [];
    }
  }

  lemma {:induction false} WordInjective(a: Binding, b: Binding)
    requires Exportable(a) && Exportable(b) && Word(a) == Word(b)
    ensures a == b
  {
    var w, v := Word(a), Word(b);
    assert w[|a.key|] == '=' && v[|b.key|] == '=';
    assert forall i :: 0 <= i < |a.key| ==> w[i] == a.key[i];
    assert forall i :: 0 <= i < |b.key| ==> v[i] == b.key[i];
    assert |a.key| == |b.key|;
    assert w[..|a.key|] == a.key && v[..|b.key|] == b.key;
    assert w[|a.key| + 1..] == a.value && v[|b.key| + 1..] == b.value;
  }

  lemma {:induction false} QuoteFirst(c: char, rest: string)
    ensures Quote([c] + rest) == (if c == '\'' then "'\\''" else [c]) + Quote(rest)
  {
    assert ([c] + rest)[1..] == rest;
    assert "'\\''" == ['\'', '\\', '\'', '\''];
  }

  // A value with a quote in it, as it stands between the quotes; and the text for no variables.
  lemma {:induction false} QuoteSpelled(before: string, after: string)
    requires '\'' !in before && '\'' !in after
    ensures Quote(before + "'" + after) == before + "'\\''" + after
    ensures FormatExports([]) == "\n"
  {
    PlainQuoted(after);
    QuoteFirst('\'', after);
    assert "'" + after == ['\''] + after;
    QuotedOver(before, "'" + after);
    assert before + "'" + after == before + ("'" + after);
  }

  lemma {:induction false} PlainQuoted(s: string)
    requires '\'' !in s
    ensures Quote(s) == s
    decreases |s|
  {
    if s != [] { PlainQuoted(s[1..]); }
  }

  lemma {:induction false} QuotedOver(s: string, rest: string)
    requires '\'' !in s
    ensures Quote(s + rest) == s + Quote(rest)
    decreases |s|
  {
    if s == [] {
      assert s + rest == rest;
    } else {
      assert s + rest == [s[0]] + (s[1..] + rest);
      QuoteFirst(s[0], s[1..] + rest);
      QuotedOver(s[1..], rest);
    }
  }
}
