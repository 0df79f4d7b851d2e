/** The Metasploit console operations. Each writes a resource script to a temporary
    file, runs the console on that file and removes it: three executor calls, in that
    order, whatever the run step returns. The timestamp in the file name is a
    parameter. */
module MsfConsole {
  import opened JsText
  import opened Utils

  datatype ExploitOptions = ExploitOptions(
    exploitModule: string, target: string, payload: Option<string>, options: seq<(string, string)>)

  datatype PostExploitOptions = PostExploitOptions(
    sessionId: int, moduleName: string, options: seq<(string, string)>)

  datatype CommandOptions = CommandOptions(command: string)

  /** The run step's timeout for exploit and post modules. */
  const ModuleTimeout: nat := 120000

  // ---------------------------------------------------------------------------
  // Resource scripts
  // ---------------------------------------------------------------------------

  /** The script line one extra option gives: `set <key> <value>`, both sanitized. */
  function OptionLine(entry: (string, string)): string {
    "set " + SanitizeInput(entry.0) + " " + SanitizeInput(entry.1)
  }

  /** One `set` line per extra option, in entry order. */
  function OptionLines(entries: seq<(string, string)>): (lines: seq<string>)
    ensures |lines| == |entries|
    ensures forall i :: 0 <= i < |entries| ==> lines[i] == OptionLine(entries[i])
  {
    seq(|entries|, i requires 0 <= i < |entries| => OptionLine(entries[i]))
  }

  /** The exploit script's lines: the module, the target, the payload when one is given,
      the options, then `exploit`. */
  function ExploitLines(o: ExploitOptions): seq<string> {
    var payload := OptionalField(o.payload);
    ["use " + SanitizeInput(o.exploitModule), "set RHOSTS " + SanitizeInput(o.target)]
    + (if payload != "" then ["set PAYLOAD " + payload] else [])
    + OptionLines(o.options)
    + ["exploit"]
  }

  /** The post-exploitation script's lines: the module, the session number as written
      (not sanitized), the options, then `run`. */
  function PostLines(o: PostExploitOptions): seq<string> {
    ["use " + SanitizeInput(o.moduleName), "set SESSION " + IntToString(o.sessionId)]
    + OptionLines(o.options)
    + ["run"]
  }

  /** The command script: the sanitized command on a line of its own. */
  function CommandLines(o: CommandOptions): seq<string> {
    [SanitizeInput(o.command)]
  }

  /** The loop over the extra options: one `set` line per entry, in entry order. */
  method AppendOptionLines(script: string, entries: seq<(string, string)>) returns (r: string)
    ensures r == script + Unlines(OptionLines(entries))
  {
    r := script;
    var i := 0;
    while i < |entries|
      invariant 0 <= i <= |entries|
      invariant r == script + Unlines(OptionLines(entries[..i]))
    {
      var (key, value) := entries[i];
      r := r + ("set " + SanitizeInput(key) + " " + SanitizeInput(value) + "\n");
      OptionLinesStep(script, entries, i);
      i := i + 1;
    }
    assert entries[..i] == entries;
  }

  lemma OptionLinesStep(script: string, entries: seq<(string, string)>, i: nat)
    requires i < |entries|
    ensures script + Unlines(OptionLines(entries[..i + 1]))
         == script + Unlines(OptionLines(entries[..i])) + (OptionLine(entries[i]) + "\n")
  {
    assert OptionLines(entries[..i + 1]) == OptionLines(entries[..i]) + [OptionLine(entries[i])];
    UnlinesSnoc(OptionLines(entries[..i]), OptionLine(entries[i]));
  }

  /** The text of a script made of two opening lines, some middle lines, the option
      lines and a closing line. */
  lemma UnlinesParts(a: string, b: string, middle: seq<string>, opts: seq<string>, last: string)
    ensures Unlines([a, b] + middle + opts + [last])
         == a + "\n" + (b + "\n") + Unlines(middle) + Unlines(opts) + (last + "\n")
  {
    UnlinesConcat([a, b] + middle + opts, [last]);
    UnlinesConcat([a, b] + middle, opts);
    UnlinesConcat([a, b], middle);
    assert [a, b][1..] == [b];
    assert [b][1..] == [];
    assert [last][1..] == [];
  }

  lemma UnlinesOne(l: string)
    ensures Unlines([l]) == l + "\n"
  {
    assert [l][1..] == [];
  }

  /** runExploit's script, grown line by line as the source does it. */
  method BuildExploitScript(o: ExploitOptions) returns (script: string)
    ensures script == Unlines(ExploitLines(o))
  {
    var exploitModule := SanitizeInput(o.exploitModule);
    var target := SanitizeInput(o.target);
    var payload := OptionalField(o.payload);
    script := "use " + exploitModule + "\n";
    script := script + ("set RHOSTS " + target + "\n");
    ghost var payloadLines: seq<string> := [];
    if payload != "" {
      script := script + ("set PAYLOAD " + payload + "\n");
      payloadLines := ["set PAYLOAD " + payload];
      UnlinesOne("set PAYLOAD " + payload);
    }
    ghost var head := script;
    assert head == "use " + exploitModule + "\n" + ("set RHOSTS " + target + "\n") + Unlines(payloadLines);
    script := AppendOptionLines(script, o.options);
    script := script + "exploit\n";
    UnlinesParts("use " + exploitModule, "set RHOSTS " + target, payloadLines, OptionLines(o.options), "exploit");
  }

  /** runPostExploitation's script, grown line by line as the source does it. */
  method BuildPostScript(o: PostExploitOptions) returns (script: string)
    ensures script == Unlines(PostLines(o))
  {
    var moduleName := SanitizeInput(o.moduleName);
    script := "use " + moduleName + "\n";
    script := script + ("set SESSION " + IntToString(o.sessionId) + "\n");
    script := AppendOptionLines(script, o.options);
    script := script + "run\n";
    ghost var opening := ["use " + moduleName, "set SESSION " + IntToString(o.sessionId)];
    ghost var none: seq<string> := [];
    assert opening + none == opening;
    UnlinesParts(opening[0], opening[1], none, OptionLines(o.options), "run");
  }

  /** runCommand's script. */
  function CommandScript(o: CommandOptions): (script: string)
    ensures script == Unlines(CommandLines(o))
  {
    SanitizeInput(o.command) + "\n"
  }

  /** Without newlines in the inputs, the exploit script has exactly the intended lines:
      the sanitizer keeps newlines, so this is the condition under which no input adds a
      line of its own. */
  lemma ExploitScriptLines(o: ExploitOptions)
    requires '\n' !in o.exploitModule && '\n' !in o.target
    requires o.payload.Some? ==> '\n' !in o.payload.value
    requires forall i :: 0 <= i < |o.options| ==> '\n' !in o.options[i].0 && '\n' !in o.options[i].1
    ensures Lines(Unlines(ExploitLines(o))) == ExploitLines(o)
  {
    NoNewlineAfterSanitizing("use ", o.exploitModule);
    NoNewlineAfterSanitizing("set RHOSTS ", o.target);
    NoNewlineAfterSanitizing("set PAYLOAD ", OrText(o.payload, ""));
    OptionLinesNoNewline(o.options);
    NoNewlineIn("exploit");
    LinesUnlines(ExploitLines(o));
  }

  /** Without newlines in the inputs, the post script has exactly the intended lines. */
  lemma PostScriptLines(o: PostExploitOptions)
    requires '\n' !in o.moduleName
    requires forall i :: 0 <= i < |o.options| ==> '\n' !in o.options[i].0 && '\n' !in o.options[i].1
    ensures Lines(Unlines(PostLines(o))) == PostLines(o)
  {
    NoNewlineAfterSanitizing("use ", o.moduleName);
    NumberNoNewline("set SESSION ", o.sessionId);
    OptionLinesNoNewline(o.options);
    NoNewlineIn("run");
    LinesUnlines(PostLines(o));
  }

  /** Without a newline in the command, the command script is that one line. */
  lemma CommandScriptLines(o: CommandOptions)
    requires '\n' !in o.command
    ensures Lines(CommandScript(o)) == CommandLines(o)
  {
    SanitizeKeepsPlain(o.command, '\n');
    LinesUnlines(CommandLines(o));
  }

  lemma NoNewlineIn(s: string)
    requires s in {"use ", "set RHOSTS ", "set PAYLOAD ", "set SESSION ", "set ", " ", "exploit", "run"}
    ensures '\n' !in s
  {
  }

  lemma NoNewlineAfterSanitizing(prefix: string, s: string)
    requires prefix in {"use ", "set RHOSTS ", "set PAYLOAD "}
    requires '\n' !in s
    ensures '\n' !in prefix + SanitizeInput(s)
  {
    NoNewlineIn(prefix);
    SanitizeKeepsPlain(s, '\n');
  }

  lemma NumberNoNewline(prefix: string, n: int)
    requires prefix == "set SESSION "
    ensures '\n' !in prefix + IntToString(n)
  {
    NoNewlineIn(prefix);
    NumberIsPlain(n);
    var t := IntToString(n);
    assert forall k :: 0 <= k < |t| ==> t[k] != '\n';
  }

  lemma OptionLinesNoNewline(entries: seq<(string, string)>)
    requires forall i :: 0 <= i < |entries| ==> '\n' !in entries[i].0 && '\n' !in entries[i].1
    ensures forall i :: 0 <= i < |entries| ==> '\n' !in OptionLine(entries[i])
  {
    NoNewlineIn("set ");
    NoNewlineIn(" ");
    forall i | 0 <= i < |entries| ensures '\n' !in OptionLine(entries[i]) {
      SanitizeKeepsPlain(entries[i].0, '\n');
      SanitizeKeepsPlain(entries[i].1, '\n');
    }
  }

  /** The payload line is in the exploit script exactly when the payload option holds a
      character the sanitizer keeps. */
  lemma PayloadLineIff(o: ExploitOptions)
    ensures |ExploitLines(o)| == 4 + |o.options|
        <==> o.payload.Some? && exists i :: 0 <= i < |o.payload.value| && !IsDenied(o.payload.value[i])
    ensures |ExploitLines(o)| == 3 + |o.options| || |ExploitLines(o)| == 4 + |o.options|
  {
    SanitizeEmptyIff(OrText(o.payload, ""));
  }

  // ---------------------------------------------------------------------------
  // The three executor calls
  // ---------------------------------------------------------------------------

  const TempPrefix: string := "/tmp/msfconsole_"

  /** `/tmp/msfconsole_<kind>_<now>.rc` */
  function TempFile(kind: string, now: nat): string {
    TempPrefix + kind + "_" + NatToString(now) + ".rc"
  }

  /** Two operations of the same kind started at different times use different files. */
  lemma TempFileInjective(kind: string, a: nat, b: nat)
    ensures TempFile(kind, a) == TempFile(kind, b) ==> a == b
  {
    var p := TempPrefix + kind + "_";
    if TempFile(kind, a) == TempFile(kind, b) {
      var fa := TempFile(kind, a);
      var fb := TempFile(kind, b);
      assert fa[|p|..|fa| - 3] == NatToString(a);
      assert fb[|p|..|fb| - 3] == NatToString(b);
      NatToStringInjective(a, b);
    }
  }

  /** Operations whose kinds start differently never share a file. */
  lemma TempFileLabels(l1: string, a: nat, l2: string, b: nat)
    requires |l1| >= 1 && |l2| >= 1 && l1[0] != l2[0]
    ensures TempFile(l1, a) != TempFile(l2, b)
  {
    var f1 := TempFile(l1, a);
    var f2 := TempFile(l2, b);
    var n := |TempPrefix|;
    assert f1[n] == l1[0];
    assert f2[n] == l2[0];
  }

  /** The exploit, post and command operations never share a file, and one kind of
      operation shares a file only with a run started at the same time. */
  lemma TempFilesDistinct(now1: nat, now2: nat)
    ensures TempFile("exploit", now1) != TempFile("post", now2)
    ensures TempFile("exploit", now1) != TempFile("cmd", now2)
    ensures TempFile("post", now1) != TempFile("cmd", now2)
    ensures now1 != now2 ==> TempFile("exploit", now1) != TempFile("exploit", now2)
    ensures now1 != now2 ==> TempFile("post", now1) != TempFile("post", now2)
    ensures now1 != now2 ==> TempFile("cmd", now1) != TempFile("cmd", now2)
  {
    Kinds("exploit", "post", "cmd");
    TempFileLabels("exploit", now1, "post", now2);
    TempFileLabels("exploit", now1, "cmd", now2);
    TempFileLabels("post", now1, "cmd", now2);
    TempFileInjective("exploit", now1, now2);
    TempFileInjective("post", now1, now2);
    TempFileInjective("cmd", now1, now2);
  }

  lemma Kinds(e: string, p: string, c: string)
    requires e == "exploit" && p == "post" && c == "cmd"
    ensures |e| >= 1 && |p| >= 1 && |c| >= 1 && e[0] == 'e' && p[0] == 'p' && c[0] == 'c'
  {
  }

  /** `echo '<script>' > <file>` */
  function WriteCommand(script: string, file: string): string {
    "echo '" + script + "' > " + file
  }

  /** `msfconsole -q -r <file>` */
  function ConsoleCommand(file: string): string {
    "msfconsole -q -r " + file
  }

  /** `rm <file>` */
  function RemoveCommand(file: string): string {
    "rm " + file
  }

  /** `after` extends `before` by exactly three calls: writing `script` to `file`, running
      the console on `file` with `runTimeout`, and removing `file`; writing and removing
      use the default timeout. Each result is the catch shape of what `world` does with
      that call. */
  ghost predicate ScriptRun(before: seq<Call>, after: seq<Call>, world: (nat, string, nat) -> ProcessOutcome,
                            script: string, file: string, runTimeout: nat) {
    var n := |before|;
    && |after| == n + 3 && after[..n] == before
    && after[n] == Call(WriteCommand(script, file), DefaultTimeout,
                        ExecuteResult(world(n, WriteCommand(script, file), DefaultTimeout)))
    && after[n + 1] == Call(ConsoleCommand(file), runTimeout,
                            ExecuteResult(world(n + 1, ConsoleCommand(file), runTimeout)))
    && after[n + 2] == Call(RemoveCommand(file), DefaultTimeout,
                            ExecuteResult(world(n + 2, RemoveCommand(file), DefaultTimeout)))
  }

  /** Write, run, remove. The executor never fails to return, so the file is removed
      whatever the run gives; the text returned is shaped from the run's result alone,
      which is the world's outcome for that call. */
  method RunScript(ex: Executor, script: string, file: string, runTimeout: nat) returns (text: string)
    requires ex.Valid()
    modifies ex
    ensures ex.Valid()
    ensures ScriptRun(old(ex.trace), ex.trace, ex.world, script, file, runTimeout)
    ensures text == ShapeResult(ex.trace[|old(ex.trace)| + 1].result)
  {
    var written := ex.Execute(WriteCommand(script, file), DefaultTimeout);
    var r := ex.Execute(ConsoleCommand(file), runTimeout);
    var removed := ex.Execute(RemoveCommand(file), DefaultTimeout);
    text := ShapeResult(r);
  }

  // ---------------------------------------------------------------------------
  // Quoting of the write step
  // ---------------------------------------------------------------------------

  lemma {:induction false} UnlinesSanitized(lines: seq<string>)
    requires forall i :: 0 <= i < |lines| ==> IsSanitized(lines[i])
    ensures IsSanitized(Unlines(lines))
    decreases |lines|
  {
    if lines == [] {
      PlainIsSanitized("");
    } else {
      assert AllPlain("\n");
      PlainIsSanitized("\n");
      UnlinesSanitized(lines[1..]);
      SanitizedConcat(lines[0], "\n");
      SanitizedConcat(lines[0] + "\n", Unlines(lines[1..]));
    }
  }

  lemma ScriptTexts(s: string)
    requires s in {"use ", "set RHOSTS ", "set PAYLOAD ", "set SESSION ", "set ", " ", "exploit", "run"}
    ensures IsSanitized(s)
  {
    assert AllWordChars(s);
    WordCharsArePlain(s);
    PlainIsSanitized(s);
  }

  lemma PrefixedSanitized(prefix: string, s: string)
    requires prefix in {"use ", "set RHOSTS ", "set PAYLOAD "}
    ensures IsSanitized(prefix + SanitizeInput(s))
  {
    ScriptTexts(prefix);
    SanitizeOutputIsSanitized(s);
    SanitizedConcat(prefix, SanitizeInput(s));
  }

  lemma OptionLinesSanitized(entries: seq<(string, string)>)
    ensures forall i :: 0 <= i < |entries| ==> IsSanitized(OptionLine(entries[i]))
  {
    ScriptTexts("set ");
    ScriptTexts(" ");
    forall i | 0 <= i < |entries| ensures IsSanitized(OptionLine(entries[i])) {
      var (k, v) := entries[i];
      SanitizeOutputIsSanitized(k);
      SanitizeOutputIsSanitized(v);
      SanitizedConcat("set ", SanitizeInput(k));
      SanitizedConcat("set " + SanitizeInput(k), " ");
      SanitizedConcat("set " + SanitizeInput(k) + " ", SanitizeInput(v));
    }
  }

  /** Every quote in the exploit script is escaped and every backslash escapes a quote. */
  lemma ExploitScriptIsSanitized(o: ExploitOptions)
    ensures IsSanitized(Unlines(ExploitLines(o)))
  {
    var lines := ExploitLines(o);
    PrefixedSanitized("use ", o.exploitModule);
    PrefixedSanitized("set RHOSTS ", o.target);
    PrefixedSanitized("set PAYLOAD ", OrText(o.payload, ""));
    OptionLinesSanitized(o.options);
    ScriptTexts("exploit");
    UnlinesSanitized(lines);
  }

  /** Every quote in the post script is escaped and every backslash escapes a quote. */
  lemma PostScriptIsSanitized(o: PostExploitOptions)
    ensures IsSanitized(Unlines(PostLines(o)))
  {
    PrefixedSanitized("use ", o.moduleName);
    ScriptTexts("set SESSION ");
    NumberIsPlain(o.sessionId);
    PlainIsSanitized(IntToString(o.sessionId));
    SanitizedConcat("set SESSION ", IntToString(o.sessionId));
    OptionLinesSanitized(o.options);
    ScriptTexts("run");
    UnlinesSanitized(PostLines(o));
  }

  /** Every quote in the command script is escaped and every backslash escapes a quote. */
  lemma CommandScriptIsSanitized(o: CommandOptions)
    ensures IsSanitized(CommandScript(o))
  {
    SanitizeOutputIsSanitized(o.command);
    UnlinesSanitized(CommandLines(o));
  }

  lemma TempFileTexts(s: string)
    requires s in {"/tmp/msfconsole_", "exploit", "post", "cmd", "_", ".rc"}
    ensures AllPlain(s)
  {
    assert AllWordChars(s);
    WordCharsArePlain(s);
  }

  /** Temporary file names hold no quote and none of the characters the sanitizer drops. */
  lemma TempFilePlain(kind: string, now: nat)
    requires kind in {"exploit", "post", "cmd"}
    ensures AllPlain(TempFile(kind, now))
  {
    TempFileTexts(TempPrefix);
    TempFileTexts(kind);
    TempFileTexts("_");
    TempFileTexts(".rc");
    assert AllPlain(NatToString(now));
    AllPlainConcat(TempPrefix, kind);
    AllPlainConcat(TempPrefix + kind, "_");
    AllPlainConcat(TempPrefix + kind + "_", NatToString(now));
    AllPlainConcat(TempPrefix + kind + "_" + NatToString(now), ".rc");
  }

  /** `w` has single quotes at `5` and `6 + n`, and every other quote in it has a
      backslash before it. */
  predicate WrappedOnce(w: string, n: nat) {
    && 6 + n < |w| && w[5] == '\'' && w[6 + n] == '\''
    && forall i :: 0 <= i < |w| && IsQuote(w[i]) && i != 5 && i != 6 + n ==> i > 0 && w[i - 1] == '\\'
  }

  /** In the write command of a sanitized script and a plain file name, the only quotes
      without a backslash before them are the two that open and close the script. */
  lemma WriteCommandQuotes(script: string, file: string)
    requires IsSanitized(script) && AllPlain(file)
    ensures WrappedOnce(WriteCommand(script, file), |script|)
  {
    var w := WriteCommand(script, file);
    var open := "echo '";
    var close := "' > ";
    assert |open| == 6 && |close| == 4;
    assert w == open + script + close + file;
    assert forall k :: 0 <= k < 6 ==> w[k] == open[k];
    assert forall k :: 0 <= k < |script| ==> w[6 + k] == script[k];
    assert forall k :: 0 <= k < 4 ==> w[6 + |script| + k] == close[k];
    assert forall k :: 0 <= k < |file| ==> w[10 + |script| + k] == file[k];
    forall i | 0 <= i < |w| && IsQuote(w[i]) && i != 5 && i != 6 + |script|
      ensures i > 0 && w[i - 1] == '\\'
    {
      if 6 < i < 6 + |script| {
        assert w[i - 1] == script[i - 7];
      }
    }
  }

  /** In the write command of each operation, the only quotes without a backslash
      before them are at positions `5` and `6 + |script|`, the two placed around the
      script. This is a fact about characters, not about how a shell reads them. */
  lemma WriteStepsWrappedOnce(e: ExploitOptions, p: PostExploitOptions, c: CommandOptions, now: nat)
    ensures WrappedOnce(WriteCommand(Unlines(ExploitLines(e)), TempFile("exploit", now)), |Unlines(ExploitLines(e))|)
    ensures WrappedOnce(WriteCommand(Unlines(PostLines(p)), TempFile("post", now)), |Unlines(PostLines(p))|)
    ensures WrappedOnce(WriteCommand(CommandScript(c), TempFile("cmd", now)), |CommandScript(c)|)
  {
    ExploitScriptIsSanitized(e);
    PostScriptIsSanitized(p);
    CommandScriptIsSanitized(c);
    TempFilePlain("exploit", now);
    TempFilePlain("post", now);
    TempFilePlain("cmd", now);
    WriteCommandQuotes(Unlines(ExploitLines(e)), TempFile("exploit", now));
    WriteCommandQuotes(Unlines(PostLines(p)), TempFile("post", now));
    WriteCommandQuotes(CommandScript(c), TempFile("cmd", now));
  }

  /** runExploit, started at time `now`. */
  method RunExploit(ex: Executor, o: ExploitOptions, now: nat) returns (text: string)
    requires ex.Valid()
    modifies ex
    ensures ex.Valid()
    ensures ScriptRun(old(ex.trace), ex.trace, ex.world, Unlines(ExploitLines(o)), TempFile("exploit", now), ModuleTimeout)
    ensures text == ShapeResult(ex.trace[|old(ex.trace)| + 1].result)
  {
    var script := BuildExploitScript(o);
    text := RunScript(ex, script, TempFile("exploit", now), ModuleTimeout);
  }

  /** runPostExploitation, started at time `now`. */
  method RunPostExploitation(ex: Executor, o: PostExploitOptions, now: nat) returns (text: string)
    requires ex.Valid()
    modifies ex
    ensures ex.Valid()
    ensures ScriptRun(old(ex.trace), ex.trace, ex.world, Unlines(PostLines(o)), TempFile("post", now), ModuleTimeout)
    ensures text == ShapeResult(ex.trace[|old(ex.trace)| + 1].result)
  {
    var script := BuildPostScript(o);
    text := RunScript(ex, script, TempFile("post", now), ModuleTimeout);
  }

  /** runCommand, started at time `now`; its run step has the default timeout. */
  method RunCommand(ex: Executor, o: CommandOptions, now: nat) returns (text: string)
    requires ex.Valid()
    modifies ex
    ensures ex.Valid()
    ensures ScriptRun(old(ex.trace), ex.trace, ex.world, CommandScript(o), TempFile("cmd", now), DefaultTimeout)
    ensures text == ShapeResult(ex.trace[|old(ex.trace)| + 1].result)
  {
    var script := CommandScript(o);
    text := RunScript(ex, script, TempFile("cmd", now), DefaultTimeout);
  }
}
