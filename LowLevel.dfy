/**
 * The low-level session `_Session`: it feeds commands to one Octave process,
 * collects the lines the process prints, and turns that output into a
 * result or an error.
 */
module LowLevel {
  import opened Results
  import opened Seqs
  import opened PyText
  import opened Values

  /** The statement every evaluation starts with. */
  const ClearCommand := "clear(\"ans\", \"_\", \"a__\");"

  const SessionClosed := Oct2PyError("Session Closed, try a restart()")
  const ProcessEnded := Oct2PyError("Session is closed")
  /** pexpect's `EOF`, raised when the process ends while the clear or save statement runs. */
  const EndOfProcess := EndOfFile("End Of File (EOF)")
  /** Reading `cmds[0]` of an empty list of commands. */
  const NoFirstCommand := IndexError("list index out of range")
  /** What `close` sends to the process before stopping it. */
  const ExitLine := "\nexit"

  function Spaces(n: nat): (s: string)
    ensures |s| == n && AllSpace(s)
  {
    if n == 0 then "" else " " + Spaces(n - 1)
  }

  /** Holds no line break. */
  predicate OneLine(s: string) {
    forall i :: 0 <= i < |s| ==> s[i] != '\n'
  }

  lemma OneLineAppend(a: string, b: string)
    requires OneLine(a) && OneLine(b)
    ensures OneLine(a + b)
  {
  }

  lemma {:induction false} SpacesOneLine(n: nat)
    ensures OneLine(Spaces(n))
    decreases n
  {
    if n > 0 {
      SpacesOneLine(n - 1);
      OneLineAppend(" ", Spaces(n - 1));
    }
  }

  /**
   * The statement that saves `ans` to `outFile`: the indented template with
   * `outFile` filled in, stripped, and with its line breaks removed, so each
   * line keeps the indentation of the template (12, 16 or 20 spaces).
   */
  function SaveAnsCommand(outFile: string): string {
    SaveAnsHead() + Delete(outFile, '\n') + SaveAnsTail()
  }

  /** The template's lines up to the file name, each followed by the next line's indentation. */
  function SaveAnsHead(): string {
    "if exist(\"ans\") == 1," + Spaces(16) + "_ = ans;" + Spaces(12) + "end," + Spaces(12)
    + "if exist(\"ans\") == 1," + Spaces(16) + "if exist(\"a__\") == 0," + Spaces(20) + "save -v6 -mat-binary "
  }

  /** The template's lines after the file name. */
  function SaveAnsTail(): string {
    " _;" + Spaces(16) + "end," + Spaces(12) + "end;"
  }

  /** The save statement is sent as a single line, whatever line breaks the file name holds. */
  lemma {:induction false} SaveAnsOneLine(outFile: string)
    ensures OneLine(SaveAnsCommand(outFile))
  {
    SaveAnsHeadOneLine();
    SaveAnsTailOneLine();
    OneLineAppend(SaveAnsHead(), Delete(outFile, '\n'));
    OneLineAppend(SaveAnsHead() + Delete(outFile, '\n'), SaveAnsTail());
  }

  lemma SaveAnsHeadOneLine()
    ensures OneLine(SaveAnsHead())
  {
    HeadOneLine(12, 16, 20);
  }

  lemma SaveAnsTailOneLine()
    ensures OneLine(SaveAnsTail())
  {
    TailOneLine(12, 16);
  }

  /** The head of the template holds no line break, whatever its indentation (`n`, `m`, `k` spaces). */
  lemma {:induction false} HeadOneLine(n: nat, m: nat, k: nat)
    ensures OneLine("if exist(\"ans\") == 1," + Spaces(m) + "_ = ans;" + Spaces(n) + "end," + Spaces(n)
      + "if exist(\"ans\") == 1," + Spaces(m) + "if exist(\"a__\") == 0," + Spaces(k) + "save -v6 -mat-binary ")
  {
    SpacesOneLine(n);
    SpacesOneLine(m);
    SpacesOneLine(k);
    var line := "if exist(\"ans\") == 1,";
    OneLineAppend(line, Spaces(m));
    line := line + Spaces(m);
    OneLineAppend(line, "_ = ans;");
    line := line + "_ = ans;";
    OneLineAppend(line, Spaces(n));
    line := line + Spaces(n);
    OneLineAppend(line, "end,");
    line := line + "end,";
    OneLineAppend(line, Spaces(n));
    line := line + Spaces(n);
    OneLineAppend(line, "if exist(\"ans\") == 1,");
    line := line + "if exist(\"ans\") == 1,";
    OneLineAppend(line, Spaces(m));
    line := line + Spaces(m);
    OneLineAppend(line, "if exist(\"a__\") == 0,");
    line := line + "if exist(\"a__\") == 0,";
    OneLineAppend(line, Spaces(k));
    line := line + Spaces(k);
    OneLineAppend(line, "save -v6 -mat-binary ");
    line := line + "save -v6 -mat-binary ";
  }

  /** The tail of the template holds no line break, whatever its indentation. */
  lemma {:induction false} TailOneLine(n: nat, m: nat)
    ensures OneLine(" _;" + Spaces(m) + "end," + Spaces(n) + "end;")
  {
    SpacesOneLine(n);
    SpacesOneLine(m);
    var line := " _;";
    OneLineAppend(line, Spaces(m));
    line := line + Spaces(m);
    OneLineAppend(line, "end,");
    line := line + "end,";
    OneLineAppend(line, Spaces(n));
    line := line + Spaces(n);
    OneLineAppend(line, "end;");
    line := line + "end;";
  }

  /** The message for output that reports an error, naming the first command. */
  function RunError(first: string, resp: string): Error {
    Oct2PyError("Oct2Py tried to run:\n\"\"\"\n" + first + "\n\"\"\"\nOctave returned:\n" + resp)
  }

  /**
   * The error `evaluate` raises for the collected output `resp`, if any: a
   * syntax error when it mentions `parse error:`, else a run error when it
   * mentions `error:`; a run error with no commands fails on `cmds[0]`.
   */
  function OutputError(resp: string, cmds: seq<string>): Option<Error> {
    if Contains(resp, "parse error:") then Some(Oct2PyError("Syntax Error:\n" + resp))
    else if Contains(resp, "error:") then
      if cmds == [] then Some(NoFirstCommand) else Some(RunError(cmds[0], resp))
    else None
  }

  /** A pattern that occurs in `s` occurs there from any of its own offsets on. */
  lemma {:induction false} ContainsTail(s: string, p: string, k: nat)
    requires k <= |p|
    requires Contains(s, p)
    ensures Contains(s, p[k..])
    decreases |s|
  {
    if StartsWith(s, p) {
      ContainsAt(s, p[k..]);
      assert s[k..][..|p| - k] == p[k..];
      assert 0 <= k <= |s| && StartsWith(s[k..], p[k..]);
    } else {
      ContainsTail(s[1..], p, k);
    }
  }

  /**
   * The classifier: output is accepted exactly when it does not mention
   * `error:`; a `parse error:` is always reported as a syntax error, whatever
   * the commands; any other error names the first command.
   */
  lemma {:induction false} OutputErrorSpec(resp: string, cmds: seq<string>)
    ensures OutputError(resp, cmds).None? <==> !Contains(resp, "error:")
    ensures Contains(resp, "parse error:") ==> OutputError(resp, cmds) == Some(Oct2PyError("Syntax Error:\n" + resp))
    ensures !Contains(resp, "parse error:") && Contains(resp, "error:") ==>
      OutputError(resp, cmds) == if cmds == [] then Some(NoFirstCommand) else Some(RunError(cmds[0], resp))
  {
    if Contains(resp, "parse error:") {
      var p := "parse error:";
      assert p[6..] == "error:";
      ContainsTail(resp, p, 6);
    }
  }

  /** The commands `evaluate` sends, in order: the non-empty ones. */
  function NonEmpty(cmds: seq<string>): (sent: seq<string>)
    ensures |sent| <= |cmds|
    ensures forall k :: 0 <= k < |sent| ==> sent[k] != "" && sent[k] in cmds
    decreases |cmds|
  {
    if cmds == [] then []
    else if cmds[0] == "" then NonEmpty(cmds[1..])
    else [cmds[0]] + NonEmpty(cmds[1..])
  }

  /** The history entries for a list of evaluated statements. */
  function Evals(cmds: seq<string>): seq<Event> {
    seq(|cmds|, k requires 0 <= k < |cmds| => Eval(cmds[k]))
  }

  /** What the process was left in and printed after some of the commands ran, and whether it ended. */
  datatype Run = Run(engine: Engine, lines: seq<string>, eof: bool)

  /** The command loop: evaluate each non-empty command, collecting its lines, and stop when the process ends. */
  function Feed(o: Octave, e: Engine, cmds: seq<string>): Run
    decreases |cmds|
  {
    if cmds == [] then Run(e, [], false)
    else if cmds[0] == "" then Feed(o, e, cmds[1..])
    else
      var reply := o.reply(e.history, cmds[0]);
      var e1 := Record(e, Eval(cmds[0]));
      if reply.eof then Run(e1, reply.lines, true)
      else After(reply.lines, Feed(o, e1, cmds[1..]))
  }

  /** Puts lines already printed in front of those a later run prints. */
  function After(pre: seq<string>, run: Run): Run {
    run.(lines := pre + run.lines)
  }

  /**
   * A run that does not end the process sends every non-empty command, in
   * order, and nothing else; the engine stays the same one.
   */
  lemma {:induction false} FeedSendsNonEmpty(o: Octave, e: Engine, cmds: seq<string>)
    ensures Feed(o, e, cmds).engine.serial == e.serial
    ensures !Feed(o, e, cmds).eof ==> Feed(o, e, cmds).engine.history == e.history + Evals(NonEmpty(cmds))
    decreases |cmds|
  {
    if cmds == [] {
      Units(e.history);
    } else if cmds[0] == "" {
      FeedSendsNonEmpty(o, e, cmds[1..]);
    } else {
      var e1 := Record(e, Eval(cmds[0]));
      FeedSendsNonEmpty(o, e1, cmds[1..]);
      var rest := NonEmpty(cmds[1..]);
      assert Evals([cmds[0]] + rest) == [Eval(cmds[0])] + Evals(rest);
      Associative(e.history, [Eval(cmds[0])], Evals(rest));
    }
  }

  /**
   * A run that ends the process stops at a non-empty command `k` whose
   * reply said so; by then the engine had evaluated the non-empty commands
   * up to and including `k`, in order.
   */
  lemma {:induction false} FeedStopsAtEof(o: Octave, e: Engine, cmds: seq<string>) returns (k: nat)
    ensures Feed(o, e, cmds).eof ==>
      && k < |cmds| && cmds[k] != ""
      && o.reply(e.history + Evals(NonEmpty(cmds[..k])), cmds[k]).eof
      && Feed(o, e, cmds).engine.history == e.history + Evals(NonEmpty(cmds[..k + 1]))
    decreases |cmds|
  {
    k := 0;
    if cmds == [] {
      return;
    }
    var first := if cmds[0] == "" then [] else [cmds[0]];
    NonEmptyPrefix(cmds, 1);
    Units(NonEmpty(cmds[1..][..0]));
    assert cmds[1..][..0] == [];
    if cmds[0] == "" {
      var j := FeedStopsAtEof(o, e, cmds[1..]);
      k := j + 1;
      if Feed(o, e, cmds).eof {
        NonEmptyPrefix(cmds, k);
        NonEmptyPrefix(cmds, k + 1);
        Units(NonEmpty(cmds[1..][..j]));
        Units(NonEmpty(cmds[1..][..j + 1]));
      }
    } else {
      var reply := o.reply(e.history, cmds[0]);
      var e1 := Record(e, Eval(cmds[0]));
      NonEmptyPrefix(cmds, 0);
      Units(e.history);
      if reply.eof {
        EvalsCons(cmds[0], []);
        Units([Eval(cmds[0])]);
        return;
      }
      var j := FeedStopsAtEof(o, e1, cmds[1..]);
      k := j + 1;
      if Feed(o, e, cmds).eof {
        NonEmptyPrefix(cmds, k);
        NonEmptyPrefix(cmds, k + 1);
        EvalsCons(cmds[0], NonEmpty(cmds[1..][..j]));
        EvalsCons(cmds[0], NonEmpty(cmds[1..][..j + 1]));
        Associative(e.history, [Eval(cmds[0])], Evals(NonEmpty(cmds[1..][..j])));
        Associative(e.history, [Eval(cmds[0])], Evals(NonEmpty(cmds[1..][..j + 1])));
      }
    }
  }

  lemma EvalsCons(c: string, rest: seq<string>)
    ensures Evals([c] + rest) == [Eval(c)] + Evals(rest)
  {
  }

  /** The non-empty commands of a prefix: the first command, when non-empty, then those of the rest of the prefix. */
  lemma NonEmptyPrefix(cmds: seq<string>, j: nat)
    requires 0 < |cmds| && j <= |cmds|
    ensures j == 0 ==> NonEmpty(cmds[..j]) == []
    ensures 0 < j ==> NonEmpty(cmds[..j]) == (if cmds[0] == "" then [] else [cmds[0]]) + NonEmpty(cmds[1..][..j - 1])
  {
    if 0 < j {
      assert cmds[..j][0] == cmds[0] && cmds[..j][1..] == cmds[1..][..j - 1];
    }
  }

  lemma AfterAfter(a: seq<string>, b: seq<string>, run: Run)
    ensures After(a, After(b, run)) == After(a + b, run)
  {
    Associative(a, b, run.lines);
  }

  /** Before the loop, nothing has been printed and every command is still to come. */
  lemma FeedStart(o: Octave, e: Engine, cmds: seq<string>)
    ensures Feed(o, e, cmds) == After([], Feed(o, e, cmds[0..]))
  {
    assert cmds[0..] == cmds;
    Units(Feed(o, e, cmds).lines);
  }

  /** An empty command is skipped. */
  lemma FeedSkip(o: Octave, e0: Engine, cmds: seq<string>, got: seq<string>, e: Engine, i: nat)
    requires i < |cmds| && cmds[i] == ""
    requires Feed(o, e0, cmds) == After(got, Feed(o, e, cmds[i..]))
    ensures Feed(o, e0, cmds) == After(got, Feed(o, e, cmds[i + 1..]))
  {
    assert cmds[i..][0] == cmds[i] && cmds[i..][1..] == cmds[i + 1..];
  }

  /** A command that ran to completion adds its lines to those printed. */
  lemma FeedAdvance(o: Octave, e0: Engine, cmds: seq<string>, got: seq<string>, e: Engine, i: nat)
    requires i < |cmds| && cmds[i] != "" && !o.reply(e.history, cmds[i]).eof
    requires Feed(o, e0, cmds) == After(got, Feed(o, e, cmds[i..]))
    ensures Feed(o, e0, cmds) ==
      After(got + o.reply(e.history, cmds[i]).lines, Feed(o, Record(e, Eval(cmds[i])), cmds[i + 1..]))
  {
    assert cmds[i..][0] == cmds[i] && cmds[i..][1..] == cmds[i + 1..];
    AfterAfter(got, o.reply(e.history, cmds[i]).lines, Feed(o, Record(e, Eval(cmds[i])), cmds[i + 1..]));
  }

  /** A command during which the process ended ends the run. */
  lemma FeedStop(o: Octave, e0: Engine, cmds: seq<string>, got: seq<string>, e: Engine, i: nat)
    requires i < |cmds| && cmds[i] != "" && o.reply(e.history, cmds[i]).eof
    requires Feed(o, e0, cmds) == After(got, Feed(o, e, cmds[i..]))
    ensures Feed(o, e0, cmds) == Run(Record(e, Eval(cmds[i])), got + o.reply(e.history, cmds[i]).lines, true)
  {
    assert cmds[i..][0] == cmds[i];
  }

  /** After the last command, the run printed what was collected. */
  lemma FeedEnd(o: Octave, e0: Engine, cmds: seq<string>, got: seq<string>, e: Engine)
    requires Feed(o, e0, cmds) == After(got, Feed(o, e, cmds[|cmds|..]))
    ensures Feed(o, e0, cmds) == Run(e, got, false)
  {
    assert cmds[|cmds|..] == [];
    Units(got);
  }

  /** The result of `evaluate` on a live process, what it leaves of the process, and the lines it collected. */
  datatype Outcome = Outcome(result: Result<string>, engine: Option<Engine>, lines: seq<string>)

  /**
   * `evaluate(cmds, out_file=outFile)` on a live process `e`: the clear
   * statement, the commands, the classification of the joined and
   * right-stripped output, and the save statement when `outFile` is set.
   * The process ending during a command closes the session.
   */
  ghost function Evaluation(o: Octave, e: Engine, cmds: seq<string>, outFile: string): Outcome {
    var clear := o.reply(e.history, ClearCommand);
    var e1 := Record(e, Eval(ClearCommand));
    if clear.eof then Outcome(Err(EndOfProcess), Some(e1), clear.lines)
    else
      var run := Feed(o, e1, cmds);
      var lines := clear.lines + run.lines;
      if run.eof then Outcome(Err(ProcessEnded), None, lines)
      else
        var resp := TrimEnd(Join("\n", lines));
        match OutputError(resp, cmds)
        case Some(err) => Outcome(Err(err), Some(run.engine), lines)
        case None =>
          if outFile == "" then Outcome(Ok(resp), Some(run.engine), lines)
          else
            var save := o.reply(run.engine.history, SaveAnsCommand(outFile));
            Outcome(if save.eof then Err(EndOfProcess) else Ok(resp),
                    Some(Record(run.engine, Eval(SaveAnsCommand(outFile)))), lines + save.lines)
  }

  /**
   * What `evaluate` promises: the process is dropped exactly when it ends
   * during a command (not during the clear statement), and the error is then
   * "Session is closed"; otherwise it is still the same one. An answer is the
   * right-stripped output of the clear statement and the commands, it never
   * mentions `error:` and carries no trailing whitespace, and
   * the process then evaluated the clear statement, exactly the non-empty
   * commands in order, and the save statement when a file was named.
   */
  lemma {:induction false} EvaluationSpec(o: Octave, e: Engine, cmds: seq<string>, outFile: string)
    ensures var out := Evaluation(o, e, cmds, outFile);
      var clear := o.reply(e.history, ClearCommand);
      var run := Feed(o, Record(e, Eval(ClearCommand)), cmds);
      && (out.engine.None? <==> !clear.eof && run.eof)
      && (out.engine.None? ==> out.result == Err(ProcessEnded))
      && (out.result.Ok? ==> out.result.value == TrimEnd(Join("\n", clear.lines + run.lines)))
      && (out.engine.Some? ==> out.engine.value.serial == e.serial)
      && (out.result.Ok? ==>
            var answer := out.result.value;
            && !Contains(answer, "error:")
            && (answer == [] || !IsSpace(answer[|answer| - 1]))
            && out.engine.Some?
            && out.engine.value.history
               == e.history + [Eval(ClearCommand)] + Evals(NonEmpty(cmds))
                  + (if outFile == "" then [] else [Eval(SaveAnsCommand(outFile))]))
  {
    var e1 := Record(e, Eval(ClearCommand));
    FeedSendsNonEmpty(o, e1, cmds);
    var lines := o.reply(e.history, ClearCommand).lines + Feed(o, e1, cmds).lines;
    OutputErrorSpec(TrimEnd(Join("\n", lines)), cmds);
    if outFile == "" {
      Units(e1.history + Evals(NonEmpty(cmds)));
    }
  }

  /** `_Session`: one Octave process, the lines it printed during the latest evaluation, and what was sent to it directly. */
  class Session {
    const octave: Octave
    /** `engine`; `None` once the session is closed. */
    var engine: Option<Engine>
    /** Whether `proc`, the process behind the engine, is still held. */
    var procOpen: bool
    /** `_lines`: what the stream handler collected. */
    var lines: seq<string>
    /** The lines `close` sent to the process with `sendline`. */
    var sentLines: seq<string>

    /** The engine and its process are held and dropped together. */
    ghost predicate Valid()
      reads this
    {
      engine.Some? <==> procOpen
    }

    /** `_Session(executable)`: a fresh process with nothing collected yet. */
    constructor (octave: Octave)
      ensures Valid() && this.octave == octave
      ensures engine == Some(Engine(0, [])) && procOpen && lines == [] && sentLines == []
    {
      this.octave := octave;
      engine := Some(Engine(0, []));
      procOpen := true;
      lines := [];
      sentLines := [];
    }

    /** `close()`: ask a live process to exit and drop it; on a closed session nothing happens. */
    method Close()
      requires Valid()
      modifies this`engine, this`procOpen, this`sentLines
      ensures Valid() && engine.None? && !procOpen
      ensures sentLines == old(sentLines) + (if old(engine).Some? then [ExitLine] else [])
    {
      if engine.None? {
        return;
      }
      sentLines := sentLines + [ExitLine];
      procOpen := false;
      engine := None;
    }

    /** The command loop of `evaluate`: `eof` tells whether the process ended during a command. */
    method RunCommands(cmds: seq<string>) returns (eof: bool)
      requires engine.Some?
      modifies this`engine, this`lines
      ensures var run := Feed(octave, old(engine).value, cmds);
        && engine == Some(run.engine) && lines == old(lines) + run.lines && eof == run.eof
    {
      ghost var e0 := engine.value;
      ghost var got: seq<string> := [];
      FeedStart(octave, e0, cmds);
      Units(lines);
      var i := 0;
      while i < |cmds|
        invariant 0 <= i <= |cmds| && engine.Some?
        invariant Feed(octave, e0, cmds) == After(got, Feed(octave, engine.value, cmds[i..]))
        invariant lines == old(lines) + got
      {
        var cmd := cmds[i];
        if cmd == "" {
          FeedSkip(octave, e0, cmds, got, engine.value, i);
        } else {
          var e := engine.value;
          var reply := octave.reply(e.history, cmd);
          Associative(old(lines), got, reply.lines);
          lines := lines + reply.lines;
          engine := Some(Record(e, Eval(cmd)));
          if reply.eof {
            FeedStop(octave, e0, cmds, got, e, i);
            return true;
          }
          FeedAdvance(octave, e0, cmds, got, e, i);
          got := got + reply.lines;
        }
        i := i + 1;
      }
      FeedEnd(octave, e0, cmds, got, engine.value);
      eof := false;
    }

    /** `evaluate(cmds, out_file=outFile)`: the lines collected before are dropped first, even on a closed session. */
    method Evaluate(cmds: seq<string>, outFile: string) returns (r: Result<string>)
      requires Valid()
      modifies this`engine, this`procOpen, this`lines, this`sentLines
      ensures Valid()
      ensures old(engine).None? ==> r == Err(SessionClosed) && engine.None? && lines == [] && sentLines == old(sentLines)
      ensures old(engine).Some? ==>
        var out := Evaluation(octave, old(engine).value, cmds, outFile);
        && r == out.result && engine == out.engine && lines == out.lines
        && sentLines == old(sentLines) + (if out.engine.None? then [ExitLine] else [])
    {
      lines := [];
      if engine.None? {
        return Err(SessionClosed);
      }
      var e := engine.value;
      var clear := octave.reply(e.history, ClearCommand);
      lines := clear.lines;
      engine := Some(Record(e, Eval(ClearCommand)));
      if clear.eof {
        return Err(EndOfProcess);
      }
      var eof := RunCommands(cmds);
      if eof {
        Close();
        return Err(ProcessEnded);
      }
      var resp := TrimEnd(Join("\n", lines));
      var err := OutputError(resp, cmds);
      if err.Some? {
        return Err(err.value);
      }
      if outFile != "" {
        var save := octave.reply(engine.value.history, SaveAnsCommand(outFile));
        lines := lines + save.lines;
        engine := Some(Record(engine.value, Eval(SaveAnsCommand(outFile))));
        if save.eof {
          return Err(EndOfProcess);
        }
      }
      r := Ok(resp);
    }
  }
}
