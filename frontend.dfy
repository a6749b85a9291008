/**
  The statement front end (src/main.rs): choosing between the interactive
  shell and a script file, cutting comments, splitting the text into
  statements, and handing each statement to `RunTime::run`.

  Reading the file and standard input is not modelled: a script arrives as its
  text and the shell's input as the sequence of lines it reads.
*/
module Frontend {
  import opened Wrappers
  import opened Text
  import opened Runtime

  /** `EXIT`: the statements handed to `run` without a `;` appended. */
  const EXIT: seq<string> := ["exit", "q", "quit"]

  /**
    `SUFFIX`, the regular expression `^.*\.pg$`, as a backtracking matcher runs
    it: `.*` takes any characters but a newline, then exactly `.pg` must end the
    name (`$` in Rust's regex matches only at the end of the text).
  */
  predicate MatchesPgSuffix(name: string)
    decreases |name|
  {
    name == ".pg" || (|name| > 0 && name[0] != '\n' && MatchesPgSuffix(name[1..]))
  }

  /** A name is accepted exactly when it ends in `.pg` and has no newline before that. */
  lemma {:induction false} PgSuffixMeaning(name: string)
    ensures MatchesPgSuffix(name) <==>
      |name| >= 3 && name[|name| - 3..] == ".pg" && '\n' !in name[..|name| - 3]
    decreases |name|
  {
    if |name| > 3 {
      PgSuffixMeaning(name[1..]);
      assert name[1..][|name| - 4..] == name[|name| - 3..];
      assert name[..|name| - 3] == [name[0]] + name[1..][..|name| - 4];
    } else if name != [] {
      PgSuffixMeaning(name[1..]);
    }
  }

  /** How `main` proceeds. */
  datatype Mode =
    | Interactive            // no argument: the shell
    | Script(path: string)   // the file is lower-cased and run by `file`
    | Unsupported(path: string)  // "Error: file format is not support"

  /** `main`: without an argument the shell runs; otherwise the first argument must name a `.pg` file. */
  function SelectMode(args: seq<string>): (m: Mode)
    ensures m.Interactive? <==> |args| < 2
    ensures !m.Interactive? ==> m.path == args[1]
    ensures m.Script? <==> |args| >= 2 && |args[1]| >= 3 && args[1][|args[1]| - 3..] == ".pg" && '\n' !in args[1][..|args[1]| - 3]
  {
    if |args| < 2 then Interactive
    else
      PgSuffixMeaning(args[1]);
      if MatchesPgSuffix(args[1]) then Script(args[1]) else Unsupported(args[1])
  }

  /**
    A line is cut at its first `//`, then at its first `--`: what is left is the
    text before the first comment marker of either kind, and holds neither.
  */
  function StripComments(line: string): (r: string)
    ensures |r| <= |line| && r == line[..|r|]
    ensures forall j :: 0 <= j < |r| ==> !OccursAt(line, "//", j) && !OccursAt(line, "--", j)
    ensures r == line || OccursAt(line, "//", |r|) || OccursAt(line, "--", |r|)
    ensures !Contains(r, "//") && !Contains(r, "--")
  {
    var cut := CutAt(line, "//");
    var r := CutAt(cut, "--");
    PrefixContains(cut, |r|, "//");
    CutTwice(line, cut, r);
    r
  }

  /** The second cut never meets a `--` that straddles the first cut. */
  lemma CutTwice(line: string, cut: string, r: string)
    requires cut == CutAt(line, "//") && r == CutAt(cut, "--")
    ensures forall j :: 0 <= j < |r| ==> !OccursAt(line, "--", j)
    ensures r == line || OccursAt(line, "//", |r|) || OccursAt(line, "--", |r|)
  {
    assert cut == line[..|cut|];
    forall j | 0 <= j < |r| ensures !OccursAt(line, "--", j) {
      if j + 2 <= |cut| {
        assert cut[j..j + 2] == line[..|cut|][j..j + 2] == line[j..j + 2];
        assert !OccursAt(cut, "--", j);
      } else if j + 2 <= |line| {
        assert OccursAt(line, "//", |cut|) && j + 1 == |cut|;
        assert line[|cut|..|cut| + 2][0] == '/';
        assert line[j..j + 2][1] == '/';
      }
    }
    if r != cut {
      assert cut[|r|..|r| + 2] == line[|r|..|r| + 2];
    }
  }

  /** The filter of `file`: a line that is empty or starts with `//` or `--` is dropped. */
  predicate IsCodeLine(line: string) {
    line != [] && !StartsWith(line, "//") && !StartsWith(line, "--")
  }

  /** The kept lines of `file`, each with its comment cut off, in order. */
  function CodeLines(lines: seq<string>): (r: seq<string>)
    ensures |r| <= |lines|
    ensures forall i :: 0 <= i < |r| ==> !Contains(r[i], "//") && !Contains(r[i], "--")
  {
    if lines == [] then []
    else (if IsCodeLine(lines[0]) then [StripComments(lines[0])] else []) + CodeLines(lines[1..])
  }

  /**
    The text `file` splits into statements is the kept lines glued together in
    their order with nothing in between (a line break is not kept).
  */
  lemma CodeTextAppend(a: seq<string>, b: seq<string>)
    ensures Concat(CodeLines(a + b)) == Concat(CodeLines(a)) + Concat(CodeLines(b))
  {
    CodeLinesAppend(a, b);
    ConcatAppend(CodeLines(a), CodeLines(b));
  }

  /** One line contributes its text before the first comment marker, or nothing when it is filtered out. */
  lemma CodeTextLine(line: string)
    ensures Concat(CodeLines([line])) == if IsCodeLine(line) then StripComments(line) else []
  {
    assert [line][0] == line && [line][1..] == [];
    if IsCodeLine(line) {
      assert Concat([StripComments(line)]) == StripComments(line) + Concat([]);
    }
  }

  lemma {:induction false} CodeLinesAppend(a: seq<string>, b: seq<string>)
    ensures CodeLines(a + b) == CodeLines(a) + CodeLines(b)
  {
    if a == [] {
      assert a + b == b;
    } else {
      assert (a + b)[0] == a[0] && (a + b)[1..] == a[1..] + b;
      CodeLinesAppend(a[1..], b);
    }
  }

  /** A statement as `run` receives it: an exit word unchanged, anything else with `;` appended. */
  function Terminate(stat: string): (r: string)
    ensures r in EXIT <==> stat in EXIT
    ensures stat !in EXIT ==> |r| == |stat| + 1 && r[..|stat|] == stat && r[|stat|] == ';'
  {
    if stat in EXIT then stat
    else
      var r := stat + ";";
      assert r[|r| - 1] == ';';
      r
  }

  /** Different statements reach `run` as different texts. */
  lemma TerminateInjective(a: string, b: string)
    requires Terminate(a) == Terminate(b)
    ensures a == b
  {
    if a !in EXIT && b !in EXIT {
      assert a == Terminate(a)[..|a|] && b == Terminate(b)[..|b|];
    }
  }

  /** The form of every statement `file` runs. */
  predicate IsFileStatement(stat: string) {
    || stat in EXIT
    || (|stat| >= 2 && stat[|stat| - 1] == ';' &&
        var p := stat[..|stat| - 1];
        ';' !in p && p !in EXIT && !IsWhitespace(p[0]) && !IsWhitespace(p[|p| - 1]))
  }

  /** No piece holds a `;`, as after splitting on it. */
  predicate NoSemicolons(pieces: seq<string>) {
    forall i :: 0 <= i < |pieces| ==> ';' !in pieces[i]
  }

  /** What `file` makes of one piece: trimmed, dropped when empty, terminated otherwise. */
  function PieceStatement(piece: string): (r: seq<string>)
    ensures |r| <= 1
    ensures r == [] <==> Trim(piece) == []
  {
    var p := Trim(piece);
    if p == [] then [] else [Terminate(p)]
  }

  /** A piece without `;` that gives a statement gives one of the form `run` is handed. */
  lemma PieceStatementForm(piece: string)
    requires ';' !in piece
    ensures forall st :: st in PieceStatement(piece) ==> IsFileStatement(st)
    ensures forall st :: st in PieceStatement(piece) ==>
      (if st in EXIT then st else st[..|st| - 1]) == Trim(piece)
  {
    var p := Trim(piece);
    TrimSubset(piece);
    assert p != [] && p !in EXIT ==> (p + ";")[..|p|] == p;
  }

  /** `f` applied to each element, the results concatenated in order. */
  function FlatMap(f: string -> seq<string>, xs: seq<string>): seq<string> {
    if xs == [] then [] else f(xs[0]) + FlatMap(f, xs[1..])
  }

  lemma {:induction false} FlatMapAppend(f: string -> seq<string>, a: seq<string>, b: seq<string>)
    ensures FlatMap(f, a + b) == FlatMap(f, a) + FlatMap(f, b)
  {
    if a == [] {
      assert a + b == b;
    } else {
      assert (a + b)[0] == a[0] && (a + b)[1..] == a[1..] + b;
      FlatMapAppend(f, a[1..], b);
    }
  }

  lemma {:induction false} FlatMapShort(f: string -> seq<string>, xs: seq<string>)
    requires forall x :: |f(x)| <= 1
    ensures |FlatMap(f, xs)| <= |xs|
  {
    if xs != [] {
      FlatMapShort(f, xs[1..]);
    }
  }

  /** The pieces between `;`, trimmed, empty ones dropped, each terminated. */
  function FileTerminate(pieces: seq<string>): (r: seq<string>)
    ensures |r| <= |pieces|
  {
    FlatMapShort(PieceStatement, pieces);
    FlatMap(PieceStatement, pieces)
  }

  /** Every statement `file` makes of `;`-free pieces is an exit word or a trimmed, non-empty text and `;`. */
  lemma {:induction false} FileTerminateForm(pieces: seq<string>)
    requires NoSemicolons(pieces)
    ensures forall st :: st in FileTerminate(pieces) ==> IsFileStatement(st)
  {
    if pieces != [] {
      NoSemicolonsTail(pieces);
      PieceStatementForm(pieces[0]);
      FileTerminateForm(pieces[1..]);
    }
  }

  lemma NoSemicolonsTail(a: seq<string>)
    requires a != [] && NoSemicolons(a)
    ensures NoSemicolons(a[1..])
  {
    forall i | 0 <= i < |a[1..]| ensures ';' !in a[1..][i] {
      assert a[1..][i] == a[i + 1];
    }
  }

  /** Every non-blank piece gives one statement, in the order of the pieces. */
  lemma FileTerminateAppend(a: seq<string>, b: seq<string>)
    ensures FileTerminate(a + b) == FileTerminate(a) + FileTerminate(b)
  {
    FlatMapAppend(PieceStatement, a, b);
  }

  /** A blank piece, such as the one between `;;`, adds no statement to a file. */
  lemma FileSkipsBlankPiece(a: seq<string>, p: string, b: seq<string>)
    requires Trim(p) == []
    ensures FileTerminate(a + [p] + b) == FileTerminate(a + b)
  {
    FileTerminateSingle(p);
    FileTerminateAppend(a + [p], b);
    FileTerminateAppend(a, [p]);
    FileTerminateAppend(a, b);
    var fa := FileTerminate(a);
    assert FileTerminate(a + [p]) == fa + [];
    assert fa + [] == fa;
  }

  lemma FileTerminateSingle(p: string)
    ensures FileTerminate([p]) == PieceStatement(p)
    ensures FileTerminate([p]) == if Trim(p) == [] then [] else [Terminate(Trim(p))]
  {
    assert [p][0] == p && [p][1..] == [];
    assert FlatMap(PieceStatement, [p]) == PieceStatement(p) + FlatMap(PieceStatement, []);
    assert PieceStatement(p) + [] == PieceStatement(p);
  }

  /** Every piece is blank: trimmed, it is empty. */
  predicate AllBlank(a: seq<string>) {
    forall i :: 0 <= i < |a| ==> Trim(a[i]) == []
  }

  lemma AllBlankCons(a: seq<string>)
    requires a != []
    ensures AllBlank(a) <==> Trim(a[0]) == [] && AllBlank(a[1..])
  {
    if Trim(a[0]) == [] && AllBlank(a[1..]) {
      forall i | 0 <= i < |a| ensures Trim(a[i]) == [] {
        if i > 0 {
          assert a[i] == a[1..][i - 1];
        }
      }
    }
  }

  /** Only blank pieces are dropped: no statement comes out exactly when every piece is blank. */
  lemma {:induction false} FileTerminateEmpty(a: seq<string>)
    ensures FileTerminate(a) == [] <==> AllBlank(a)
  {
    if a != [] {
      FileTerminateEmpty(a[1..]);
      AllBlankCons(a);
    }
  }

  /** The statements `file` hands to `run`, in order. */
  function FileStatements(text: string): seq<string> {
    var body := Concat(CodeLines(Split(text, '\n')));
    FileTerminate(Split(body, ';'))
  }

  /** So every statement of a script reaches `run` as an exit word or as a trimmed, non-empty text and `;`. */
  lemma FileStatementsForm(text: string)
    ensures forall st :: st in FileStatements(text) ==> IsFileStatement(st)
  {
    FileTerminateForm(Split(Concat(CodeLines(Split(text, '\n'))), ';'));
  }

  /** The shell's line buffer and whether a statement is unfinished. */
  datatype ShellState = ShellState(glInput: string, isContinue: bool)

  /** A line the shell ignores: blank, or starting with `//` or `--`. */
  predicate IsSkippedLine(line: string) {
    Trim(line) == [] || StartsWith(line, "//") || StartsWith(line, "--")
  }

  /** The pieces before the first empty one: the shell's loop `break`s there. */
  function UntilEmpty(pieces: seq<string>): (r: seq<string>)
    ensures |r| <= |pieces| && r == pieces[..|r|]
    ensures forall i :: 0 <= i < |r| ==> r[i] != []
    ensures |r| < |pieces| ==> pieces[|r|] == []
  {
    if pieces == [] || pieces[0] == [] then []
    else [pieces[0]] + UntilEmpty(pieces[1..])
  }

  function TerminateAll(pieces: seq<string>): seq<string> {
    seq(|pieces|, i requires 0 <= i < |pieces| => Terminate(pieces[i]))
  }

  /** The statements the shell runs for a finished buffer. */
  function Flush(glInput: string): seq<string> {
    TerminateAll(UntilEmpty(Split(glInput, ';')))
  }

  /**
    The shell's flush runs the pieces between `;` in order, untrimmed, each
    terminated like a file statement, and stops at the first empty piece.
  */
  lemma FlushStopsAtEmpty(glInput: string)
    ensures var pieces, r := Split(glInput, ';'), Flush(glInput);
      && |r| <= |pieces|
      && (forall i :: 0 <= i < |r| ==> pieces[i] != [] && r[i] == Terminate(pieces[i]))
      && (forall k :: 0 <= k < |pieces| && pieces[k] == [] ==> |r| <= k)
      && (|r| < |pieces| ==> pieces[|r|] == [])
  {
  }

  /** Unlike a file, the shell drops everything after an empty piece. */
  lemma ShellStopsAtEmptyPiece()
    ensures Flush("a;;b;") == ["a;"]
  {
    SplitExample();
    var pieces: seq<string> := ["a", "", "b", ""];
    assert pieces[1..][0] == [];
    assert UntilEmpty(pieces[1..]) == [];
    assert UntilEmpty(pieces) == ["a"];
    assert "a" !in EXIT;
    assert Terminate("a") == "a;";
  }

  lemma SplitExample()
    ensures Split("a;;b;", ';') == ["a", "", "b", ""]
  {
    SplitExampleTail();
    var s: string := ";;b;";
    var q: seq<string> := Split(s, ';');
    SplitCons('a', s, ';');
    assert q[0] == [] && q[1..] == [[], ['b'], []];
    assert ['a'] + q[0] == ['a'];
    assert ['a'] + s == "a;;b;";
  }

  lemma SplitExampleTail()
    ensures Split(";;b;", ';') == [[], [], ['b'], []]
  {
    var s1: string := ";";
    SplitCons(';', [], ';');
    assert [';'] + [] == s1;
    SplitCons('b', s1, ';');
    var p: seq<string> := Split(s1, ';');
    assert p == [[], []];
    assert ['b'] + p[0] == ['b'] && p[1..] == [[]];
    assert ['b'] + s1 == "b;";
    var s2: string := "b;";
    assert Split(s2, ';') == [['b'], []];
    SplitCons(';', s2, ';');
    assert [';'] + s2 == ";b;";
    var s3: string := ";b;";
    SplitCons(';', s3, ';');
    assert [';'] + s3 == ";;b;";
  }

  /** One line read by the shell: the new state and the statements run for it. */
  function ShellLine(st: ShellState, line: string): (ShellState, seq<string>) {
    if IsSkippedLine(line) then (st, [])
    else
      var glInput := st.glInput + Lower(TrimEnd(StripComments(line)));
      if !EndsWithChar(glInput, ';') && glInput !in EXIT then (ShellState(glInput, true), [])
      else (ShellState([], false), Flush(glInput))
  }

  /** The shell's state after reading `lines`, and every statement it ran, in order. */
  function ShellLines(lines: seq<string>): (ShellState, seq<string>)
    decreases |lines|
  {
    if lines == [] then (ShellState([], false), [])
    else
      var (st, ran) := ShellLines(lines[..|lines| - 1]);
      var (st', more) := ShellLine(st, lines[|lines| - 1]);
      (st', ran + more)
  }

  /** Between lines the buffer holds an unfinished statement, and is empty when nothing is pending. */
  predicate Waiting(st: ShellState) {
    && !EndsWithChar(st.glInput, ';')
    && st.glInput !in EXIT
    && (!st.isContinue ==> st.glInput == [])
  }

  /** Skipped lines change nothing; any other line either extends the buffer or flushes and resets it. */
  lemma ShellLineStep(st: ShellState, line: string)
    ensures IsSkippedLine(line) ==> ShellLine(st, line) == (st, [])
    ensures Waiting(st) ==> Waiting(ShellLine(st, line).0)
    ensures !IsSkippedLine(line) ==>
      var (st', ran) := ShellLine(st, line);
      var glInput := st.glInput + Lower(TrimEnd(StripComments(line)));
      || (st' == ShellState(glInput, true) && ran == [])
      || (st' == ShellState([], false) && ran == Flush(glInput) && (EndsWithChar(glInput, ';') || glInput in EXIT))
  {
  }

  lemma {:induction false} ShellLinesWaiting(lines: seq<string>)
    ensures Waiting(ShellLines(lines).0)
    decreases |lines|
  {
    if lines != [] {
      ShellLinesWaiting(lines[..|lines| - 1]);
      ShellLineStep(ShellLines(lines[..|lines| - 1]).0, lines[|lines| - 1]);
    }
  }

  /** Reading more lines only adds statements behind the ones already run. */
  lemma {:induction false} ShellLinesPrefix(lines: seq<string>, n: nat)
    requires n <= |lines|
    ensures var early, all := ShellLines(lines[..n]).1, ShellLines(lines).1;
      |early| <= |all| && all[..|early|] == early
    decreases |lines| - n
  {
    if n < |lines| {
      ShellLinesPrefix(lines, n + 1);
      ShellLinesExtend(lines, n);
      PrefixTransitive(ShellLines(lines[..n]).1, ShellLines(lines[..n + 1]).1, ShellLines(lines).1);
    } else {
      assert lines[..n] == lines;
    }
  }

  lemma PrefixTransitive(a: seq<string>, b: seq<string>, c: seq<string>)
    requires |a| <= |b| && b[..|a|] == a
    requires |b| <= |c| && c[..|b|] == b
    ensures |a| <= |c| && c[..|a|] == a
  {
    assert c[..|a|] == c[..|b|][..|a|];
  }

  lemma ShellLinesExtend(lines: seq<string>, n: nat)
    requires n < |lines|
    ensures var early, mid := ShellLines(lines[..n]).1, ShellLines(lines[..n + 1]).1;
      |early| <= |mid| && mid[..|early|] == early
  {
    ShellLinesSnoc(lines, n);
  }

  /** One more line read: the state and statements of the shell, step by step. */
  lemma ShellLinesSnoc(lines: seq<string>, i: nat)
    requires i < |lines|
    ensures var (st, ran) := ShellLines(lines[..i]);
      var (st', more) := ShellLine(st, lines[i]);
      ShellLines(lines[..i + 1]) == (st', ran + more)
  {
    assert lines[..i + 1][..i] == lines[..i];
  }

  /** Once a statement read from the first `i` lines ends the process, the later lines change nothing. */
  lemma HaltedRunIsFinal(env: Env, s: Session, lines: seq<string>, i: nat)
    requires i <= |lines|
    requires ExecAll(env, s, ShellLines(lines[..i]).1).halted
    ensures ExecAll(env, s, ShellLines(lines).1) == ExecAll(env, s, ShellLines(lines[..i]).1)
  {
    ShellLinesPrefix(lines, i);
    var done := ShellLines(lines[..i]).1;
    var all := ShellLines(lines).1;
    ExecAllAppend(env, s, done, all[|done|..]);
    assert done + all[|done|..] == all;
  }

  /** The state and the visible effects after running statements until one terminates the process. */
  datatype Trace = Trace(state: Session, effects: seq<Effect>, halted: bool)

  function ExecAll(env: Env, s: Session, stmts: seq<string>): Trace
    decreases |stmts|
  {
    if stmts == [] then Trace(s, [], false)
    else
      var (s', e) := Perform(env, s, env.parse(stmts[0]));
      if e.Terminated? then Trace(s', [e], true)
      else
        var t := ExecAll(env, s', stmts[1..]);
        Trace(t.state, [e] + t.effects, t.halted)
  }

  /** Running more statements after a trace: nothing happens once the process has ended. */
  function Then(env: Env, t: Trace, more: seq<string>): Trace {
    if t.halted then t
    else
      var u := ExecAll(env, t.state, more);
      Trace(u.state, t.effects + u.effects, u.halted)
  }

  /** Statements run one after the other: running `a + b` is running `a`, then `b` unless `a` ended the process. */
  lemma {:induction false} ExecAllAppend(env: Env, s: Session, a: seq<string>, b: seq<string>)
    ensures ExecAll(env, s, a + b) == Then(env, ExecAll(env, s, a), b)
    decreases |a|
  {
    if a == [] {
      assert a + b == b;
    } else {
      assert (a + b)[0] == a[0] && (a + b)[1..] == a[1..] + b;
      var (s', e) := Perform(env, s, env.parse(a[0]));
      if !e.Terminated? {
        ExecAllAppend(env, s', a[1..], b);
      }
    }
  }

  /**
    Each statement has one visible effect; the run ends at the first statement
    that terminates the process, and only there.
  */
  lemma {:induction false} ExecAllStopsAtExit(env: Env, s: Session, stmts: seq<string>)
    ensures var t := ExecAll(env, s, stmts);
      && |t.effects| <= |stmts|
      && (!t.halted ==> |t.effects| == |stmts|)
      && (t.halted <==> |t.effects| > 0 && t.effects[|t.effects| - 1].Terminated?)
      && (forall i :: 0 <= i < |t.effects| - 1 ==> !t.effects[i].Terminated?)
    decreases |stmts|
  {
    if stmts != [] {
      var (s', e) := Perform(env, s, env.parse(stmts[0]));
      if !e.Terminated? {
        ExecAllStopsAtExit(env, s', stmts[1..]);
        var t := ExecAll(env, s', stmts[1..]);
        assert forall i :: 1 <= i < |t.effects| + 1 ==> ([e] + t.effects)[i] == t.effects[i - 1];
      }
    }
  }

  /** The loop of `file` and of the shell's flush: `rt.run` on each statement in turn. */
  method RunStatements(rt: RunTime, stmts: seq<string>, env: Env) returns (effects: seq<Effect>, halted: bool)
    modifies rt
    ensures var t := ExecAll(env, old(rt.Value()), stmts);
      rt.Value() == t.state && effects == t.effects && halted == t.halted
  {
    ghost var s0 := rt.Value();
    effects, halted := [], false;
    var i := 0;
    while i < |stmts|
      invariant 0 <= i <= |stmts|
      invariant var t := ExecAll(env, s0, stmts[..i]);
        !t.halted && rt.Value() == t.state && effects == t.effects
    {
      ghost var before := rt.Value();
      var e := rt.Run(stmts[i], env);
      assert [stmts[i]][1..] == [];
      assert ExecAll(env, before, [stmts[i]]) == Trace(rt.Value(), [e], e.Terminated?);
      ExecAllAppend(env, s0, stmts[..i], [stmts[i]]);
      assert stmts[..i + 1] == stmts[..i] + [stmts[i]];
      effects := effects + [e];
      i := i + 1;
      if e.Terminated? {
        halted := true;
        ExecAllAppend(env, s0, stmts[..i], stmts[i..]);
        assert stmts[..i] + stmts[i..] == stmts;
        return;
      }
    }
    assert stmts[..i] == stmts;
  }

  /** `file`: run the statements of a script text in order, until one ends the process. */
  method File(rt: RunTime, text: string, env: Env) returns (effects: seq<Effect>)
    modifies rt
    ensures var t := ExecAll(env, old(rt.Value()), FileStatements(text));
      rt.Value() == t.state && effects == t.effects
  {
    var halted;
    effects, halted := RunStatements(rt, FileStatements(text), env);
  }

  /** Script mode of `main`: the file's contents are lower-cased before `file` sees them. */
  method RunScript(rt: RunTime, contents: string, env: Env) returns (effects: seq<Effect>)
    modifies rt
    ensures var t := ExecAll(env, old(rt.Value()), FileStatements(Lower(contents)));
      rt.Value() == t.state && effects == t.effects
  {
    effects := File(rt, Lower(contents), env);
  }

  /**
    The shell's handling of one line: skipped lines leave the buffer alone;
    any other line, its comment cut and its trailing blanks and case dropped,
    is appended, and the buffer is ready once it ends with `;` or is an exit word.
  */
  method ReadLine(glInput: string, isContinue: bool, line: string)
    returns (buffer: string, continuing: bool, ready: bool)
    ensures var step := ShellLine(ShellState(glInput, isContinue), line);
      if ready then step == (ShellState([], false), Flush(buffer))
      else step == (ShellState(buffer, continuing), [])
  {
    buffer, continuing, ready := glInput, isContinue, false;
    if Trim(line) == [] {
      return;
    }
    if StartsWith(line, "//") || StartsWith(line, "--") {
      return;
    }
    buffer := buffer + Lower(TrimEnd(StripComments(line)));
    if !EndsWithChar(buffer, ';') && buffer !in EXIT {
      continuing := true;
      return;
    }
    ready := true;
  }

  /**
    `shell`: read lines, gather them into `glInput` until it ends with `;` or is
    an exit word, then run its statements and start over. The input ends when
    the lines run out.
  */
  method Shell(rt: RunTime, input: seq<string>, env: Env) returns (effects: seq<Effect>)
    modifies rt
    ensures var t := ExecAll(env, old(rt.Value()), ShellLines(input).1);
      rt.Value() == t.state && effects == t.effects
  {
    ghost var s0 := rt.Value();
    var glInput, isContinue := [], false;
    effects := [];
    var i := 0;
    while i < |input|
      invariant 0 <= i <= |input|
      invariant ShellLines(input[..i]).0 == ShellState(glInput, isContinue)
      invariant var t := ExecAll(env, s0, ShellLines(input[..i]).1);
        !t.halted && rt.Value() == t.state && effects == t.effects
    {
      ghost var ran := ShellLines(input[..i]).1;
      ShellLinesSnoc(input, i);
      var buffer, continuing, ready := ReadLine(glInput, isContinue, input[i]);
      i := i + 1;
      if !ready {
        assert ran + [] == ran;
        glInput, isContinue := buffer, continuing;
        continue;
      }
      var out, halted := RunStatements(rt, Flush(buffer), env);
      ExecAllAppend(env, s0, ran, Flush(buffer));
      effects := effects + out;
      if halted {
        HaltedRunIsFinal(env, s0, input, i);
        return;
      }
      glInput, isContinue := [], false;
    }
    assert input[..i] == input;
  }
}
