/**
 * The analyst graph: the fixed edge table with its two intent-dependent
 * branches, the node sequence a run visits, and a whole run that threads the
 * state through the nodes and merges each node's returned state into the
 * current one.
 */
module Graph {
  import opened Wrappers
  import opened State
  import opened Tools
  import Text
  import Classify
  import Describe
  import Diagnose
  import Prescribe
  import Synthesize

  datatype Node = ClassifyStep | DescribeStep | DiagnoseStep | PrescribeStep | SynthesizeStep | End

  /** The branch after describe: diagnose for the diagnose and prescribe intents, synthesize for everything else. */
  function RouteAfterDescribe(intent: Intent): (n: Node)
    ensures n == DiagnoseStep <==> intent == Diagnose || intent == Prescribe
    ensures n == SynthesizeStep <==> !(intent == Diagnose || intent == Prescribe)
  {
    if intent == Diagnose then DiagnoseStep
    else if intent == Prescribe then DiagnoseStep
    else SynthesizeStep
  }

  /** The branch after diagnose: prescribe only for the prescribe intent. */
  function RouteAfterDiagnose(intent: Intent): (n: Node)
    ensures n == PrescribeStep <==> intent == Prescribe
    ensures n == SynthesizeStep <==> intent != Prescribe
  {
    if intent == Prescribe then PrescribeStep else SynthesizeStep
  }

  /** How far a node is from the end; every edge goes strictly down. */
  function Rank(n: Node): nat {
    match n
    case ClassifyStep => 5
    case DescribeStep => 4
    case DiagnoseStep => 3
    case PrescribeStep => 2
    case SynthesizeStep => 1
    case End => 0
  }

  /** The edge table, read with the intent the state carries when the node finishes. */
  function Next(n: Node, intent: Intent): (m: Node)
    requires n != End
    ensures Rank(m) < Rank(n)
  {
    match n
    case ClassifyStep => DescribeStep
    case DescribeStep => RouteAfterDescribe(intent)
    case DiagnoseStep => RouteAfterDiagnose(intent)
    case PrescribeStep => SynthesizeStep
    case SynthesizeStep => End
  }

  /** The nodes visited from `n` to the end when the intent stays `intent`. */
  function PathFrom(n: Node, intent: Intent): seq<Node>
    decreases Rank(n)
  {
    if n == End then [] else [n] + PathFrom(Next(n, intent), intent)
  }

  /** The path of a whole run; only the classify node sets the intent, so it is the one the later branches read. */
  function Path(intent: Intent): seq<Node> {
    PathFrom(ClassifyStep, intent)
  }

  /** The run visits exactly one of the three node sequences, chosen by the intent. */
  lemma ThreePaths(intent: Intent)
    ensures intent == Diagnose ==> Path(intent) == [ClassifyStep, DescribeStep, DiagnoseStep, SynthesizeStep]
    ensures intent == Prescribe ==> Path(intent) == [ClassifyStep, DescribeStep, DiagnoseStep, PrescribeStep, SynthesizeStep]
    ensures intent != Diagnose && intent != Prescribe ==> Path(intent) == [ClassifyStep, DescribeStep, SynthesizeStep]
  {
    assert PathFrom(End, intent) == [];
    assert PathFrom(SynthesizeStep, intent) == [SynthesizeStep];
    assert PathFrom(PrescribeStep, intent) == [PrescribeStep, SynthesizeStep];
  }

  /** Every run starts classify, describe and ends with synthesize. */
  lemma PathEnds(intent: Intent)
    ensures var p := Path(intent);
      |p| >= 3 && p[0] == ClassifyStep && p[1] == DescribeStep && p[|p| - 1] == SynthesizeStep
  {
    ThreePaths(intent);
  }

  /** Synthesize comes exactly once. */
  lemma PathSynthesizeOnce(intent: Intent)
    ensures multiset(Path(intent))[SynthesizeStep] == 1
  {
    ThreePaths(intent);
    var p := Path(intent);
    if intent == Prescribe {
      assert multiset(p) == multiset{ClassifyStep, DescribeStep, DiagnoseStep, PrescribeStep, SynthesizeStep};
    } else if intent == Diagnose {
      assert multiset(p) == multiset{ClassifyStep, DescribeStep, DiagnoseStep, SynthesizeStep};
    } else {
      assert multiset(p) == multiset{ClassifyStep, DescribeStep, SynthesizeStep};
    }
  }

  /** Diagnose is visited for the diagnose and prescribe intents, prescribe only for prescribe and only after diagnose. */
  lemma PathBranches(intent: Intent)
    ensures var p := Path(intent);
      && (DiagnoseStep in p <==> intent == Diagnose || intent == Prescribe)
      && (PrescribeStep in p <==> intent == Prescribe)
      && (PrescribeStep in p ==> exists i, j :: 0 <= i < j < |p| && p[i] == DiagnoseStep && p[j] == PrescribeStep)
  {
    ThreePaths(intent);
    var p := Path(intent);
    if intent == Prescribe {
      assert p[2] == DiagnoseStep && p[3] == PrescribeStep;
    }
  }

  /** The world outside the graph: the model's classification reply, the JSON parser, the data tools, today's day number and the answering model. */
  datatype Env = Env(reply: string, parse: string -> Option<Json>, tb: Toolbox, today: int, llm: Synthesize.Llm)

  /** The state a node returns (every node returns the full state). */
  function NodeResult(n: Node, s: AnalystState, env: Env): Result<AnalystState, Failure>
    requires n != End
  {
    match n
    case ClassifyStep => Classify.ClassifyNode(s, env.reply, env.parse)
    case DescribeStep => Describe.DescribeNode(s, env.tb, env.today)
    case DiagnoseStep => Diagnose.DiagnoseNode(s, env.tb)
    case PrescribeStep => Ok(Prescribe.PrescribeNode(s, env.tb))
    case SynthesizeStep => Ok(Synthesize.SynthesizeNode(s, env.llm))
  }

  /**
   * How the runtime folds a returned state into the current one: `AddReducer`
   * is what the state declares (the two list fields are concatenated),
   * `Overwrite` takes the returned state as it is.
   */
  datatype Merge = AddReducer | Overwrite

  function Apply(m: Merge, current: AnalystState, update: AnalystState): AnalystState {
    match m
    case AddReducer => Reduce(current, update)
    case Overwrite => update
  }

  /** A run from node `n`; the next node is read from the merged state. */
  function RunFrom(n: Node, s: AnalystState, env: Env, m: Merge): Result<AnalystState, Failure>
    decreases Rank(n)
  {
    if n == End then Ok(s)
    else
      match NodeResult(n, s, env)
      case Failed(f) => Failed(f)
      case Ok(update) =>
        var merged := Apply(m, s, update);
        RunFrom(Next(n, merged.intent), merged, env, m)
  }

  /** A whole run from the entry point. */
  function Run(s: AnalystState, env: Env, m: Merge): Result<AnalystState, Failure> {
    RunFrom(ClassifyStep, s, env, m)
  }

  /** The nodes a run actually visits, for a run that does not fail. */
  function VisitedFrom(n: Node, s: AnalystState, env: Env, m: Merge): seq<Node>
    decreases Rank(n)
  {
    if n == End then []
    else
      match NodeResult(n, s, env)
      case Failed(_) => [n]
      case Ok(update) =>
        var merged := Apply(m, s, update);
        [n] + VisitedFrom(Next(n, merged.intent), merged, env, m)
  }

  /** Nodes after classify leave the intent alone. */
  lemma {:induction false} IntentKept(n: Node, s: AnalystState, env: Env, m: Merge)
    requires n != End && n != ClassifyStep
    ensures NodeResult(n, s, env).Ok? ==> NodeResult(n, s, env).value.intent == s.intent
  {
    match n
    case DescribeStep =>
    case DiagnoseStep => Diagnose.DiagnoseGuarantee(s, env.tb);
    case PrescribeStep =>
    case SynthesizeStep =>
  }

  /** After classify the run follows the path of the intent the classifier chose, whatever the merge. */
  lemma {:induction false} VisitedFollowsPath(n: Node, s: AnalystState, env: Env, m: Merge)
    requires n != ClassifyStep
    requires RunFrom(n, s, env, m).Ok?
    ensures VisitedFrom(n, s, env, m) == PathFrom(n, s.intent)
    ensures RunFrom(n, s, env, m).value.intent == s.intent
    decreases Rank(n)
  {
    if n != End {
      var update := NodeResult(n, s, env).value;
      IntentKept(n, s, env, m);
      var merged := Apply(m, s, update);
      assert merged.intent == s.intent;
      VisitedFollowsPath(Next(n, s.intent), merged, env, m);
    }
  }

  /** A successful run visits the path of the intent in its final state. */
  lemma RunVisitsPath(s: AnalystState, env: Env, m: Merge)
    requires Run(s, env, m).Ok?
    ensures VisitedFrom(ClassifyStep, s, env, m) == Path(Run(s, env, m).value.intent)
  {
    var update := NodeResult(ClassifyStep, s, env).value;
    var merged := Apply(m, s, update);
    VisitedFollowsPath(DescribeStep, merged, env, m);
  }

  /** Running the nodes of `path` one after another, each on the state the previous one returned. */
  function Through(path: seq<Node>, s: AnalystState, env: Env): Result<AnalystState, Failure>
    requires End !in path
    decreases |path|
  {
    if path == [] then Ok(s)
    else
      match NodeResult(path[0], s, env)
      case Failed(f) => Failed(f)
      case Ok(update) => Through(path[1..], update, env)
  }

  lemma EndNotOnPath(n: Node, intent: Intent)
    ensures End !in PathFrom(n, intent)
    decreases Rank(n)
  {
    if n != End {
      EndNotOnPath(Next(n, intent), intent);
    }
  }

  /** One step of a run. */
  lemma RunStep(n: Node, s: AnalystState, env: Env, m: Merge)
    requires n != End && NodeResult(n, s, env).Ok?
    ensures var merged := Apply(m, s, NodeResult(n, s, env).value);
      RunFrom(n, s, env, m) == RunFrom(Next(n, merged.intent), merged, env, m)
  {
  }

  /**
   * With `Overwrite`, a run from any node after classify is the composition of
   * the nodes along the path of the state's intent: each node sees exactly what
   * the previous one returned.
   */
  lemma {:induction false} CorrectedRunComposes(n: Node, s: AnalystState, env: Env)
    requires n != ClassifyStep
    ensures End !in PathFrom(n, s.intent)
    ensures RunFrom(n, s, env, Overwrite) == Through(PathFrom(n, s.intent), s, env)
    decreases Rank(n)
  {
    EndNotOnPath(n, s.intent);
    if n != End {
      var p := PathFrom(n, s.intent);
      assert p[0] == n && p[1..] == PathFrom(Next(n, s.intent), s.intent);
      var r := NodeResult(n, s, env);
      if r.Ok? {
        IntentKept(n, s, env, Overwrite);
        RunStep(n, s, env, Overwrite);
        CorrectedRunComposes(Next(n, s.intent), r.value, env);
      }
    }
  }

  /** From describe on the describe path: describe's state is merged in whole, then synthesize's state is merged into it. */
  lemma DescribePathRun(c: AnalystState, env: Env, m: Merge)
    requires c.dataContext == [] && c.insights == [] && c.entities.JObj?
    requires c.intent !in {Diagnose, Prescribe}
    ensures RunFrom(DescribeStep, c, env, m).Ok?
    ensures var u := NodeResult(DescribeStep, c, env).value;
      && u.dataContext != [] && u.insights == []
      && RunFrom(DescribeStep, c, env, m) == Ok(Apply(m, u, Synthesize.SynthesizeNode(u, env.llm)))
  {
    var u := NodeResult(DescribeStep, c, env).value;
    Describe.DescribeGuarantee(c, env.tb, env.today);
    ReduceOntoEmpty(c, u);
    assert Apply(m, c, u) == u;
    RunStep(DescribeStep, c, env, m);
    var w := NodeResult(SynthesizeStep, u, env).value;
    RunStep(SynthesizeStep, u, env, m);
  }

  /**
   * With the `add` reducer the state declares, a run on the describe path
   * whose state starts with empty lists ends with the describe entries twice:
   * synthesize returns the whole state, and its `data_context` is added to the
   * one already merged.
   */
  lemma AsWrittenRunDuplicates(s: AnalystState, env: Env)
    requires s.dataContext == [] && s.insights == []
    requires NodeResult(ClassifyStep, s, env).Ok? && NodeResult(ClassifyStep, s, env).value.entities.JObj?
    requires NodeResult(ClassifyStep, s, env).value.intent !in {Diagnose, Prescribe}
    ensures Run(s, env, AddReducer).Ok? && Run(s, env, Overwrite).Ok?
    ensures var d := Run(s, env, Overwrite).value.dataContext;
      && d != []
      && Run(s, env, AddReducer).value.dataContext == d + d
  {
    var c := NodeResult(ClassifyStep, s, env).value;
    ClassifyMergedWhole(s, env, AddReducer);
    ClassifyMergedWhole(s, env, Overwrite);
    DescribePathRun(c, env, AddReducer);
    DescribePathRun(c, env, Overwrite);
    var u := NodeResult(DescribeStep, c, env).value;
    SynthesizeMerged(u, env.llm);
  }

  /** On a state with empty lists, classify's state is merged in whole and the run goes on to describe. */
  lemma ClassifyMergedWhole(s: AnalystState, env: Env, m: Merge)
    requires s.dataContext == [] && s.insights == []
    requires NodeResult(ClassifyStep, s, env).Ok?
    ensures Run(s, env, m) == RunFrom(DescribeStep, NodeResult(ClassifyStep, s, env).value, env, m)
  {
    var c := NodeResult(ClassifyStep, s, env).value;
    assert c == s.(intent := c.intent, entities := c.entities);
    ReduceOntoEmpty(s, c);
    assert Apply(m, s, c) == c;
    RunStep(ClassifyStep, s, env, m);
  }

  /** Synthesize returns the context it was given: overwriting keeps it, the add reducer doubles it. */
  lemma SynthesizeMerged(u: AnalystState, llm: Synthesize.Llm)
    ensures Apply(Overwrite, u, Synthesize.SynthesizeNode(u, llm)).dataContext == u.dataContext
    ensures Apply(AddReducer, u, Synthesize.SynthesizeNode(u, llm)).dataContext == u.dataContext + u.dataContext
  {
    Synthesize.SynthesizeFrame(u, u, llm);
  }
}
