/**
  The command interpreter of the plotting language (src/rt_util.rs): the
  `RunTime` object with the current style, the live axis ranges, the queue of
  curves waiting for `show` and the picture counter; the point pipeline of
  `show`; and the dispatch of one parsed command.

  Style is copied into a snapshot when a curve is queued; the axis ranges are
  read when `show` runs.
*/
module Runtime {
  import opened Wrappers
  import opened Expression
  import Text

  /** Rust's `u32`, the type of the picture counter. */
  newtype u32 = x: int | 0 <= x < 0x1_0000_0000

  type Pair = (real, real)

  /** `ForStruct`: the curve of a `for` statement, sampled from `from` to `to` by `step`. */
  datatype ForStruct = ForStruct(from: real, to: real, step: real, x: TreeNode, y: TreeNode)

  /** `DrawableKind`: one parsed command. */
  datatype DrawableKind =
    | DrawableFor(stat: ForStruct)
    | Rot(angle: real)
    | Origin(ox: real, oy: real)
    | Scale(sx: real, sy: real)
    | Show
    | Exit
    | XRange(xlo: real, xhi: real)
    | YRange(ylo: real, yhi: real)
    | DotSize(dot: real)
    | Color(name: string)

  /** What the generated parser returns for one statement: `None`, `Some(Err(_))` or `Some(Ok(cmd))`. */
  datatype ParseOutcome = Unparsed | Illegal | Parsed(cmd: DrawableKind)

  /**
    The style snapshot stored beside a queued curve. `RunTime::from` builds a
    whole `RunTime` whose graph is empty, whose ranges are (0, 0) and whose
    counter is 0; those fields of a snapshot are never read, so they are not kept.
  */
  datatype Style = Style(origin: Pair, rot: real, scale: Pair, size: real, color: string)

  /** `RunTime::from`. */
  function From(origin: Pair, rot: real, scale: Pair, size: real, color: string): Style {
    Style(origin, rot, scale, size, color)
  }

  /**
    The libraries `show` and `run` call: the float library of the evaluator,
    the f32 range stepping of `(from..stop).step(step).values()`, and the
    generated lexer and parser.
  */
  datatype Env = Env(
    num: Numerics,
    samples: (real, real, real) -> seq<real>,  // (from, stop, step) to the parameter values
    parse: string -> ParseOutcome)

  /** The palette entry of a colour name; an unknown name draws transparently. */
  datatype Paint = Blue | Red | Green | Black | Yellow | Cyan | Magenta | Transparent

  function PaintOf(color: string): (p: Paint)
    ensures p == Transparent <==> color !in {"blue", "red", "green", "black", "yellow", "cyan", "magenta"}
  {
    match color
    case "blue" => Blue
    case "red" => Red
    case "green" => Green
    case "black" => Black
    case "yellow" => Yellow
    case "cyan" => Cyan
    case "magenta" => Magenta
    case _ => Transparent
  }

  /** The points `show` hands to the chart for one curve, with their dot size and paint. */
  datatype Batch = Batch(points: seq<Pair>, size: real, paint: Paint)

  /** `process_data`: scale, then rotate, then translate. */
  function ProcessData(num: Numerics, st: Style, x: real, y: real): Pair {
    var sx := x * st.scale.0;
    var sy := y * st.scale.1;
    var temp := sx * num.cos(st.rot) + sy * num.sin(st.rot);
    var ry := sy * num.cos(st.rot) - sx * num.sin(st.rot);
    (temp + st.origin.0, ry + st.origin.1)
  }

  /**
    Whenever cos² + sin² = 1 the step can be undone: moving back by the origin
    and rotating by the opposite angle gives the scaled point.
  */
  lemma ProcessDataInverse(num: Numerics, st: Style, x: real, y: real)
    requires num.cos(st.rot) * num.cos(st.rot) + num.sin(st.rot) * num.sin(st.rot) == 1.0
    ensures var p, c, s := ProcessData(num, st, x, y), num.cos(st.rot), num.sin(st.rot);
      && (p.0 - st.origin.0) * c - (p.1 - st.origin.1) * s == x * st.scale.0
      && (p.0 - st.origin.0) * s + (p.1 - st.origin.1) * c == y * st.scale.1
  {
    var a, b := x * st.scale.0, y * st.scale.1;
    var c, s := num.cos(st.rot), num.sin(st.rot);
    var p := ProcessData(num, st, x, y);
    assert p.0 - st.origin.0 == a * c + b * s && p.1 - st.origin.1 == b * c - a * s;
    calc {
      (a * c + b * s) * c - (b * c - a * s) * s;
      a * (c * c + s * s);
    }
    calc {
      (a * c + b * s) * s + (b * c - a * s) * c;
      b * (c * c + s * s);
    }
  }

  /** With no rotation, a point is only scaled and moved. */
  lemma ProcessDataUnrotated(num: Numerics, st: Style, x: real, y: real)
    requires num.cos(0.0) == 1.0 && num.sin(0.0) == 0.0 && st.rot == 0.0
    ensures ProcessData(num, st, x, y) == (x * st.scale.0 + st.origin.0, y * st.scale.1 + st.origin.1)
  {
    var sx, sy := x * st.scale.0, y * st.scale.1;
    assert ProcessData(num, st, x, y).0 == sx * num.cos(st.rot) + sy * num.sin(st.rot) + st.origin.0;
    assert ProcessData(num, st, x, y).1 == sy * num.cos(st.rot) - sx * num.sin(st.rot) + st.origin.1;
    assert sx * num.cos(st.rot) == sx;
  }

  /**
    Both rotated coordinates are computed from the scaled point before the
    rotation, so the rotation keeps distances from the origin of the rotation.
  */
  lemma RotationPreservesLength(num: Numerics, st: Style, x: real, y: real)
    requires num.cos(st.rot) * num.cos(st.rot) + num.sin(st.rot) * num.sin(st.rot) == 1.0
    requires st.origin == (0.0, 0.0)
    ensures var p := ProcessData(num, st, x, y);
      p.0 * p.0 + p.1 * p.1 == (x * st.scale.0) * (x * st.scale.0) + (y * st.scale.1) * (y * st.scale.1)
  {
    var c, s := num.cos(st.rot), num.sin(st.rot);
    var a, b := x * st.scale.0, y * st.scale.1;
    calc {
      (a * c + b * s) * (a * c + b * s) + (b * c - a * s) * (b * c - a * s);
      a * a * (c * c + s * s) + b * b * (c * c + s * s);
      a * a + b * b;
    }
  }

  /**
    A quarter turn sends (1, 0) to (0, -1): the second coordinate uses the
    unrotated first one. (Any angle whose cosine the library gives as 0 and
    whose sine it gives as 1 is a quarter turn here.)
  */
  lemma QuarterTurn(num: Numerics, a: real, size: real, color: string)
    requires num.cos(a) == 0.0 && num.sin(a) == 1.0
    ensures ProcessData(num, Style((0.0, 0.0), a, (1.0, 1.0), size, color), 1.0, 0.0) == (0.0, -1.0)
  {
  }

  /** The filter of `show`: a point is kept when it lies inside both live ranges. */
  predicate InWindow(p: Pair, xRange: Pair, yRange: Pair) {
    p.1 <= yRange.1 && p.1 >= yRange.0 && p.0 >= xRange.0 && p.0 <= xRange.1
  }

  /** The points inside the window, in their order. */
  function Clip(points: seq<Pair>, xRange: Pair, yRange: Pair): seq<Pair> {
    if points == [] then []
    else
      var rest := Clip(points[1..], xRange, yRange);
      if InWindow(points[0], xRange, yRange) then [points[0]] + rest else rest
  }

  /** The kept points are the input points inside the window, each as often as in the input. */
  lemma {:induction false} ClipKeeps(points: seq<Pair>, xRange: Pair, yRange: Pair)
    ensures var r := Clip(points, xRange, yRange);
      && |r| <= |points|
      && (forall p :: multiset(r)[p] == if InWindow(p, xRange, yRange) then multiset(points)[p] else 0)
      && (forall p :: p in r <==> p in points && InWindow(p, xRange, yRange))
  {
    if points != [] {
      ClipKeeps(points[1..], xRange, yRange);
      assert points == [points[0]] + points[1..];
    }
  }

  /** Clipping keeps the input order: the points of `a + b` are those of `a`, then those of `b`. */
  lemma {:induction false} ClipAppend(a: seq<Pair>, b: seq<Pair>, xRange: Pair, yRange: Pair)
    ensures Clip(a + b, xRange, yRange) == Clip(a, xRange, yRange) + Clip(b, xRange, yRange)
  {
    if a == [] {
      assert a + b == b;
    } else {
      var head := if InWindow(a[0], xRange, yRange) then [a[0]] else [];
      assert (a + b)[0] == a[0] && (a + b)[1..] == a[1..] + b;
      assert Clip(a + b, xRange, yRange) == head + Clip(a[1..] + b, xRange, yRange);
      assert Clip(a, xRange, yRange) == head + Clip(a[1..], xRange, yRange);
      ClipAppend(a[1..], b, xRange, yRange);
    }
  }

  /** One point is kept exactly when it lies in the window. */
  lemma ClipOne(p: Pair, xRange: Pair, yRange: Pair)
    ensures Clip([p], xRange, yRange) == if InWindow(p, xRange, yRange) then [p] else []
  {
    assert [p][1..] == [];
  }

  /** `f64::max` and `f64::min` on numbers. */
  function Max(a: real, b: real): real {
    if a >= b then a else b
  }

  function Min(a: real, b: real): real {
    if a <= b then a else b
  }

  /** The parameter values of a curve: its bounds clamped to the live x range, stepped up to `to + step`. */
  function Samples(env: Env, stat: ForStruct, xRange: Pair): seq<real> {
    var from := Max(stat.from, xRange.0);
    var to := Min(stat.to, xRange.1);
    env.samples(from, to + stat.step, stat.step)
  }

  /** The plot point of parameter value `t`: both expressions evaluated, then the snapshot's transform. */
  function Image(num: Numerics, stat: ForStruct, st: Style, t: real): Pair {
    ProcessData(num, st, Eval(num, stat.x, t), Eval(num, stat.y, t))
  }

  /** The plot points of the parameter values `ts`, in order. */
  function Images(num: Numerics, stat: ForStruct, st: Style, ts: seq<real>): (r: seq<Pair>)
    ensures |r| == |ts|
    ensures forall i :: 0 <= i < |ts| ==> r[i] == Image(num, stat, st, ts[i])
  {
    if ts == [] then [] else [Image(num, stat, st, ts[0])] + Images(num, stat, st, ts[1..])
  }

  /** What `show` draws for one queued curve. */
  function CurveBatch(env: Env, stat: ForStruct, st: Style, xRange: Pair, yRange: Pair): Batch {
    var points := Images(env.num, stat, st, Samples(env, stat, xRange));
    Batch(Clip(points, xRange, yRange), st.size, PaintOf(st.color))
  }

  /**
    A point is drawn exactly when it lies in the live window and is the image,
    under the snapshot's transform, of a parameter value sampled from the
    clamped bounds; the dot size and paint are the snapshot's.
  */
  lemma CurveBatchPoints(env: Env, stat: ForStruct, st: Style, xRange: Pair, yRange: Pair, p: Pair)
    ensures var b := CurveBatch(env, stat, st, xRange, yRange);
      && b.size == st.size && b.paint == PaintOf(st.color)
      && |b.points| <= |Samples(env, stat, xRange)|
      && (p in b.points <==>
            InWindow(p, xRange, yRange) &&
            exists t :: t in Samples(env, stat, xRange) && Image(env.num, stat, st, t) == p)
  {
    var ts := Samples(env, stat, xRange);
    var points := Images(env.num, stat, st, ts);
    ClipKeeps(points, xRange, yRange);
    if t :| t in ts && Image(env.num, stat, st, t) == p {
      var i :| 0 <= i < |ts| && ts[i] == t;
      assert points[i] == p;
    }
    if p in points {
      var i :| 0 <= i < |points| && points[i] == p;
      assert ts[i] in ts && Image(env.num, stat, st, ts[i]) == p;
    }
  }

  /** What `show` draws: one batch per queued curve, in queue order. */
  function Render(env: Env, graph: seq<(ForStruct, Style)>, xRange: Pair, yRange: Pair): (r: seq<Batch>)
    ensures |r| == |graph|
    ensures forall k :: 0 <= k < |graph| ==> r[k] == CurveBatch(env, graph[k].0, graph[k].1, xRange, yRange)
    decreases |graph|
  {
    if graph == [] then []
    else
      var last := graph[|graph| - 1];
      Render(env, graph[..|graph| - 1], xRange, yRange) + [CurveBatch(env, last.0, last.1, xRange, yRange)]
  }

  /** The drawing loop of `show`: one batch per queued curve, in queue order. */
  method RenderQueue(env: Env, queue: seq<(ForStruct, Style)>, xRange: Pair, yRange: Pair)
    returns (batches: seq<Batch>)
    ensures batches == Render(env, queue, xRange, yRange)
  {
    batches := [];
    for i := 0 to |queue|
      invariant batches == Render(env, queue[..i], xRange, yRange)
    {
      RenderSnoc(env, queue, i, xRange, yRange);
      batches := batches + [CurveBatch(env, queue[i].0, queue[i].1, xRange, yRange)];
    }
    assert queue[..|queue|] == queue;
  }

  /** Drawing one more queued curve adds its batch behind the others. */
  lemma RenderSnoc(env: Env, queue: seq<(ForStruct, Style)>, i: nat, xRange: Pair, yRange: Pair)
    requires i < |queue|
    ensures Render(env, queue[..i + 1], xRange, yRange) ==
      Render(env, queue[..i], xRange, yRange) + [CurveBatch(env, queue[i].0, queue[i].1, xRange, yRange)]
  {
    assert queue[..i + 1][..i] == queue[..i];
  }

  /** The value of every field of a `RunTime`. */
  datatype Session = Session(
    origin: Pair,
    rot: real,
    scale: Pair,
    graph: seq<(ForStruct, Style)>,
    xRange: Pair,
    yRange: Pair,
    size: real,
    color: string,
    picNum: u32)

  /** The snapshot `for_draw` takes of the current style. */
  function Snapshot(s: Session): Style {
    From(s.origin, s.rot, s.scale, s.size, s.color)
  }

  /** `pic_num += 1` as a release build runs it: wrapping at 2^32. */
  function NextPicNum(n: u32): u32 {
    if n == 0xFFFF_FFFF then 0 else n + 1
  }

  /** The increment is addition modulo 2^32. */
  lemma NextPicNumWraps(n: u32)
    ensures NextPicNum(n) as int == (n as int + 1) % 0x1_0000_0000
  {
  }

  /** `format!("graph/{}.png", pic_num)`. */
  function PictureName(n: u32): string {
    "graph/" + Text.Decimal(n as nat) + ".png"
  }

  /** A picture name is `graph/`, digits and `.png`, and the digits read back as the counter. */
  lemma PictureNameReadsBack(n: u32)
    ensures var r := PictureName(n);
      && |r| > 10 && r[..6] == "graph/" && r[|r| - 4..] == ".png"
      && (forall i :: 6 <= i < |r| - 4 ==> '0' <= r[i] <= '9')
      && Text.DecimalValue(r[6..|r| - 4]) == n as int
  {
    var r := PictureName(n);
    Text.DecimalRoundTrip(n as nat);
    Text.DecimalDigits(n as nat);
    assert r[6..|r| - 4] == Text.Decimal(n as nat);
  }

  /** Two counter values never name the same picture. */
  lemma PictureNamesDistinct(m: u32, n: u32)
    requires m != n
    ensures PictureName(m) != PictureName(n)
  {
    Text.DecimalRoundTrip(m as nat);
    Text.DecimalRoundTrip(n as nat);
    var a, b := PictureName(m), PictureName(n);
    assert a[6..|a| - 4] == Text.Decimal(m as nat);
    assert b[6..|b| - 4] == Text.Decimal(n as nat);
  }

  /** The state change of one parsed command. */
  function Step(s: Session, cmd: DrawableKind): Session {
    match cmd
    case DrawableFor(stat) => s.(graph := s.graph + [(stat, Snapshot(s))])
    case Rot(r) => s.(rot := r)
    case Origin(x, y) => s.(origin := (x, y))
    case Scale(x, y) => s.(scale := (x, y))
    case Show => s.(graph := [], picNum := NextPicNum(s.picNum))
    case Exit => s
    case XRange(l, r) => s.(xRange := (l, r))
    case YRange(l, r) => s.(yRange := (l, r))
    case DotSize(size) => s.(size := size)
    case Color(color) => s.(color := color)
  }

  /** What a picture of the current queue would show. */
  function Picture(env: Env, s: Session): seq<Batch> {
    Render(env, s.graph, s.xRange, s.yRange)
  }

  /** What `run` makes visible: a drawn picture, a message, or the end of the process. */
  datatype Effect =
    | Quiet
    | Drew(fileName: string, batches: seq<Batch>)  // "Draw success in <fileName>"
    | IllegalCommand                              // "Illegal command"
    | Unevaluable                                 // "Unable to evaluate expression."
    | Terminated                                  // exit(0)

  /** `run` on the parser's outcome: the new state and what it makes visible. */
  function Perform(env: Env, s: Session, res: ParseOutcome): (Session, Effect) {
    match res
    case Unparsed => (s, Unevaluable)
    case Illegal => (s, IllegalCommand)
    case Parsed(cmd) =>
      match cmd
      case Show => (Step(s, cmd), Drew(PictureName(s.picNum), Picture(env, s)))
      case Exit => (s, Terminated)
      case _ => (Step(s, cmd), Quiet)
  }

  /** The commands in `cmds` applied in order. */
  function Steps(s: Session, cmds: seq<DrawableKind>): Session
    decreases |cmds|
  {
    if cmds == [] then s else Steps(Step(s, cmds[0]), cmds[1..])
  }

  /**
    One command: only `show` empties the queue and moves the counter; `for`
    appends one curve with a snapshot of the current style; every other command
    keeps the queue, and style commands keep both ranges.
  */
  lemma StepEffect(s: Session, cmd: DrawableKind)
    ensures var r := Step(s, cmd);
      && (cmd.Show? ==> r.graph == [] && r.picNum == NextPicNum(s.picNum))
      && (!cmd.Show? ==> r.picNum == s.picNum && |s.graph| <= |r.graph| && r.graph[..|s.graph|] == s.graph)
      && (cmd.DrawableFor? ==> r.graph == s.graph + [(cmd.stat, Snapshot(s))])
      && (!cmd.DrawableFor? && !cmd.Show? ==> r.graph == s.graph)
      && (IsStyleCommand(cmd) ==> r.xRange == s.xRange && r.yRange == s.yRange)
  {
  }

  /**
    One statement: only a parsed command other than `exit` changes the state;
    the process ends exactly on `exit`; a picture is drawn exactly on `show`,
    from the queue and counter before it; the two messages come exactly from
    the two parser failures.
  */
  lemma PerformEffect(env: Env, s: Session, res: ParseOutcome)
    ensures var (s', e) := Perform(env, s, res);
      && s' == (if res.Parsed? && !res.cmd.Exit? then Step(s, res.cmd) else s)
      && (e.Terminated? <==> res == Parsed(Exit))
      && (e.Drew? <==> res == Parsed(Show))
      && (e.Drew? ==> e == Drew(PictureName(s.picNum), Picture(env, s)))
      && (e.Unevaluable? <==> res.Unparsed?)
      && (e.IllegalCommand? <==> res.Illegal?)
  {
  }

  /** Commands that only set the current style. */
  predicate IsStyleCommand(cmd: DrawableKind) {
    cmd.Rot? || cmd.Origin? || cmd.Scale? || cmd.DotSize? || cmd.Color?
  }

  /**
    Until the next `show`, queued curves and their snapshots stay as they were:
    later commands only add curves behind them.
  */
  lemma {:induction false} QueueOnlyGrows(s: Session, cmds: seq<DrawableKind>)
    requires forall i :: 0 <= i < |cmds| ==> !cmds[i].Show?
    ensures |s.graph| <= |Steps(s, cmds).graph| && Steps(s, cmds).graph[..|s.graph|] == s.graph
    ensures Steps(s, cmds).picNum == s.picNum
    decreases |cmds|
  {
    if cmds != [] {
      var s' := Step(s, cmds[0]);
      assert s'.graph[..|s.graph|] == s.graph;
      QueueOnlyGrows(s', cmds[1..]);
      assert Steps(s, cmds).graph[..|s.graph|] == Steps(s', cmds[1..]).graph[..|s'.graph|][..|s.graph|];
    }
  }

  /** Style commands change neither the queue nor the ranges. */
  lemma {:induction false} StyleCommandsKeepQueue(s: Session, cmds: seq<DrawableKind>)
    requires forall i :: 0 <= i < |cmds| ==> IsStyleCommand(cmds[i])
    ensures var s' := Steps(s, cmds); s'.graph == s.graph && s'.xRange == s.xRange && s'.yRange == s.yRange
    decreases |cmds|
  {
    if cmds != [] {
      StyleCommandsKeepQueue(Step(s, cmds[0]), cmds[1..]);
    }
  }

  /** So style commands issued after curves were queued leave the next picture as it was. */
  lemma StyleCommandsKeepPicture(env: Env, s: Session, cmds: seq<DrawableKind>)
    requires forall i :: 0 <= i < |cmds| ==> IsStyleCommand(cmds[i])
    ensures Picture(env, Steps(s, cmds)) == Picture(env, s)
  {
    StyleCommandsKeepQueue(s, cmds);
  }

  /**
    A curve queued by `for_draw` is drawn by the next `show` with the style
    that was current when it was queued, whatever style commands came in
    between, and clipped by the ranges that are current when `show` runs.
  */
  lemma QueuedCurveRendering(env: Env, s: Session, stat: ForStruct, cmds: seq<DrawableKind>)
    requires forall i :: 0 <= i < |cmds| ==> !cmds[i].Show?
    ensures var later := Steps(Step(s, DrawableFor(stat)), cmds);
      && |s.graph| < |Picture(env, later)|
      && Picture(env, later)[|s.graph|] == CurveBatch(env, stat, Snapshot(s), later.xRange, later.yRange)
  {
    var queued := Step(s, DrawableFor(stat));
    QueueOnlyGrows(queued, cmds);
    var later := Steps(queued, cmds);
    assert later.graph[|s.graph|] == later.graph[..|queued.graph|][|s.graph|] == queued.graph[|s.graph|];
  }

  /**
    `show` draws every queued curve clipped to the live window, names the
    picture after the counter before the increment, empties the queue and
    advances the counter by one (wrapping after 2^32 pictures).
  */
  lemma ShowEffect(env: Env, s: Session)
    ensures var (s', e) := Perform(env, s, Parsed(Show));
      && s' == s.(graph := [], picNum := NextPicNum(s.picNum))
      && (s.picNum < 0xFFFF_FFFF ==> s'.picNum as int == s.picNum as int + 1)
      && e.Drew? && e.fileName == PictureName(s.picNum) && |e.batches| == |s.graph|
      && forall i, p :: 0 <= i < |e.batches| && p in e.batches[i].points ==> InWindow(p, s.xRange, s.yRange)
  {
    var batches := Picture(env, s);
    forall i, p | 0 <= i < |batches| && p in batches[i].points
      ensures InWindow(p, s.xRange, s.yRange)
    {
      CurveBatchPoints(env, s.graph[i].0, s.graph[i].1, s.xRange, s.yRange, p);
    }
  }

  /**
    The curve `x = t, y = sin(t)` drawn with the identity style (no rotation,
    unit scale, origin (0, 0)) has every drawn point on the sine graph.
  */
  lemma SineCurveOnGraph(env: Env, from: real, to: real, step: real, size: real, color: string,
                         xRange: Pair, yRange: Pair, p: Pair)
    requires env.num.parse("t") == None && env.num.parse("sin") == None
    requires env.num.cos(0.0) == 1.0 && env.num.sin(0.0) == 0.0
    ensures var stat := ForStruct(from, to, step, Leaf("t"), TreeNode("sin", Some(Leaf("t")), None));
      var b := CurveBatch(env, stat, Style((0.0, 0.0), 0.0, (1.0, 1.0), size, color), xRange, yRange);
      p in b.points ==> InWindow(p, xRange, yRange) && p.1 == env.num.sin(p.0)
  {
    var stat := ForStruct(from, to, step, Leaf("t"), TreeNode("sin", Some(Leaf("t")), None));
    var st := Style((0.0, 0.0), 0.0, (1.0, 1.0), size, color);
    CurveBatchPoints(env, stat, st, xRange, yRange, p);
    if p in CurveBatch(env, stat, st, xRange, yRange).points {
      var t :| t in Samples(env, stat, xRange) && Image(env.num, stat, st, t) == p;
      SineImage(env.num, stat, st, t);
    }
  }

  lemma SineImage(num: Numerics, stat: ForStruct, st: Style, t: real)
    requires num.parse("t") == None && num.parse("sin") == None
    requires num.cos(0.0) == 1.0 && num.sin(0.0) == 0.0
    requires stat.x == Leaf("t") && stat.y == TreeNode("sin", Some(Leaf("t")), None)
    requires st.origin == (0.0, 0.0) && st.rot == 0.0 && st.scale == (1.0, 1.0)
    ensures Image(num, stat, st, t) == (t, num.sin(t))
  {
    assert Eval(num, stat.x, t) == t;
    assert Eval(num, stat.y, t) == num.sin(t);
    ProcessDataUnrotated(num, st, t, num.sin(t));
  }

  /** The interpreter object: the fields of the Rust `RunTime` struct. */
  class RunTime {
    var origin: Pair
    var rot: real
    var scale: Pair
    var graph: seq<(ForStruct, Style)>
    var xRange: Pair
    var yRange: Pair
    var size: real
    var color: string
    var picNum: u32

    function Value(): Session
      reads this
    {
      Session(origin, rot, scale, graph, xRange, yRange, size, color, picNum)
    }

    /** `RunTime::new`. */
    constructor ()
      ensures Value() == Session((0.0, 0.0), 0.0, (1.0, 1.0), [], (0.0, 10.0), (-4.0, 4.0), 2.0, "blue", 0)
    {
      origin := (0.0, 0.0);
      rot := 0.0;
      scale := (1.0, 1.0);
      graph := [];
      xRange := (0.0, 10.0);
      yRange := (-4.0, 4.0);
      size := 2.0;
      color := "blue";
      picNum := 0;
    }

    method SetOrigin(origin: Pair)
      modifies this
      ensures Value() == old(Value()).(origin := origin)
    {
      this.origin := origin;
    }

    method SetRot(rot: real)
      modifies this
      ensures Value() == old(Value()).(rot := rot)
    {
      this.rot := rot;
    }

    method SetScale(scale: Pair)
      modifies this
      ensures Value() == old(Value()).(scale := scale)
    {
      this.scale := scale;
    }

    method SetXRange(xRange: Pair)
      modifies this
      ensures Value() == old(Value()).(xRange := xRange)
    {
      this.xRange := xRange;
    }

    method SetYRange(yRange: Pair)
      modifies this
      ensures Value() == old(Value()).(yRange := yRange)
    {
      this.yRange := yRange;
    }

    method SetSize(size: real)
      modifies this
      ensures Value() == old(Value()).(size := size)
    {
      this.size := size;
    }

    method SetColor(color: string)
      modifies this
      ensures Value() == old(Value()).(color := color)
    {
      this.color := color;
    }

    /** `for_draw`: queue the curve behind the others with a copy of the current style. */
    method ForDraw(stat: ForStruct)
      modifies this
      ensures Value() == old(Value()).(graph := old(graph) + [(stat, Style(origin, rot, scale, size, color))])
    {
      graph := graph + [(stat, From(origin, rot, scale, size, color))];
    }

    /** `show`: draw every queued curve against the live ranges, then empty the queue and count the picture. */
    method Show(env: Env) returns (fileName: string, batches: seq<Batch>)
      modifies this
      ensures fileName == PictureName(old(picNum))
      ensures batches == Render(env, old(graph), xRange, yRange)
      ensures Value() == old(Value()).(graph := [], picNum := NextPicNum(old(picNum)))
    {
      var n, queue := picNum, graph;
      fileName := PictureName(n);
      batches := RenderQueue(env, queue, xRange, yRange);
      graph := [];
      picNum := NextPicNum(n);
    }

    /** `run`: parse one statement and apply the command; a rejected one is reported and changes nothing. */
    method Run(line: string, env: Env) returns (effect: Effect)
      modifies this
      ensures (Value(), effect) == Perform(env, old(Value()), env.parse(line))
    {
      match env.parse(line)
      case Unparsed =>
        effect := Unevaluable;
      case Illegal =>
        effect := IllegalCommand;
      case Parsed(cmd) =>
        effect := Quiet;
        match cmd
        case Rot(r) => SetRot(r);
        case Scale(x, y) => SetScale((x, y));
        case Origin(x, y) => SetOrigin((x, y));
        case DrawableFor(stat) => ForDraw(stat);
        case Show =>
          var fileName, batches := Show(env);
          effect := Drew(fileName, batches);
        case XRange(l, r) => SetXRange((l, r));
        case YRange(l, r) => SetYRange((l, r));
        case DotSize(size) => SetSize(size);
        case Color(color) => SetColor(color);
        case Exit => effect := Terminated;
    }
  }
}
