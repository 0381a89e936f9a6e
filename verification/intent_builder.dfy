/** The personality-driven intent builder (src/agency/intent_builder.py), and what the autonomy
    policy decides about the intents it builds.

    The drive vector and the rendered drivers, constraints and evidence are left out. */
module IntentBuilder {
  import opened Common
  import Social
  import opened Autonomy

  /* ---- signals ---- */

  /** The class an emotion falls in; the classes are disjoint. */
  datatype Emotion = Curious | Sociable | Cautious | OtherEmotion

  datatype Affect = Affect(emotion: Emotion, arousal: real, regulationActive: bool)

  datatype Correction = Correction(tooLow: bool, suggestion: string)

  /** What _contains_any finds in a desire; a blank desire is empty after stripping. */
  datatype Desire = Desire(blank: bool, social: bool, budget: bool)

  datatype LearningType = CORRECTION | BOUNDARY | OtherLearning

  datatype Learning = Learning(kind: LearningType, confidence: real, statement: string)

  datatype DaemonType = TOPIC_CLUSTER_READY | RUNTIME_GAP | OtherDaemon

  datatype Daemon = Daemon(kind: DaemonType, urgent: bool)  // critical, or requires a response

  datatype Signals = Signals(
    blankEvent: bool, affect: Option<Affect>, corrections: seq<Correction>, desires: seq<Desire>,
    learning: seq<Learning>, daemon: seq<Daemon>, blankEvidence: bool)

  datatype DataNeed = FACTS | HUMAN_OPINION | MEMORY
  datatype Expected = CONTEXT_CAPSULE | MEMORY_CANDIDATE | SPEC | ASK

  datatype Intent = Intent(priority: int, needs: set<DataNeed>, actions: seq<Action>, outcomes: set<Expected>)

  /** int(): towards zero. */
  function Truncate(x: real): int { if x >= 0.0 then x.Floor else -(-x).Floor }

  /* ---- the actions the passes append ---- */

  const SOCIAL_CONTEXT: nat := 1

  /** A read-only, tier-1 action. */
  function Plain(kind: ActionKind, capability: string, target: Option<nat>, description: string): Action {
    Action(kind, capability, target, description, false, 1, None, false)
  }

  function ReadWorkspace(): Action { Plain(READ_WORKSPACE, "read_workspace", None, "collect local context") }
  function WebResearch(): Action { Plain(WEB_RESEARCH, "web_search_sources", None, "read-only research") }
  function DraftMessage(): Action { Plain(DRAFT_MESSAGE, "agency_social_permission_request", None, "draft first") }
  function CreateSpec(description: string): Action {
    Plain(CREATE_SPEC, "request_tier3_specs_for_nikita_approval", None, description)
  }
  function StageMemory(statement: string): Action { Plain(STAGE_MEMORY, "agency_stage_memory", None, statement) }
  function SearchKb(): Action { Plain(SEARCH_KB, "read_workspace", None, "check the knowledge base") }
  function TelegramRead(): Action {
    Plain(TELEGRAM_MCP_READ, "telegram_mcp_read", Some(SOCIAL_CONTEXT), "read before replying")
  }
  function TelegramSend(): Action {
    Action(TELEGRAM_MCP_SEND, "telegram_mcp_send", Some(SOCIAL_CONTEXT), "ask after grant and judgement", true, 1,
           Some(Social.REPLY_IF_ADDRESSED), false)
  }

  /* ---- the build state ---- */

  datatype State = State(needs: set<DataNeed>, outcomes: set<Expected>, actions: seq<Action>, priority: int)

  function Initial(): State { State({FACTS}, {CONTEXT_CAPSULE}, [ReadWorkspace()], 50) }

  predicate SameKey(a: Action, b: Action) { a.kind == b.kind && a.capability == b.capability && a.target == b.target }

  /** _append_action: an action whose key is taken is dropped. */
  function Append(actions: seq<Action>, a: Action): seq<Action> {
    if exists n :: 0 <= n < |actions| && SameKey(actions[n], a) then actions else actions + [a]
  }

  function With(s: State, a: Action): State { s.(actions := Append(s.actions, a)) }

  function Raise(s: State, delta: int): State { s.(priority := s.priority + delta) }

  function AffectSpec(s: State, a: Affect): State {
    var s1 := if a.emotion.Curious? then Raise(With(s, WebResearch()), Truncate(a.arousal * 24.0)) else s;
    var s2 := if a.emotion.Sociable? then Raise(s1, 10) else s1;
    var s3 := if a.emotion.Cautious? || a.regulationActive then Raise(With(s2, DraftMessage()), -25) else s2;
    if a.arousal < 0.35 then Raise(s3, -12) else s3
  }

  function CorrectionSpec(s: State, c: Correction): State {
    Raise(With(s.(outcomes := s.outcomes + {SPEC}), CreateSpec(c.suggestion)), if c.tooLow then 8 else -4)
  }

  function SocialDesire(s: State): State {
    Raise(With(With(s.(needs := s.needs + {HUMAN_OPINION}, outcomes := s.outcomes + {ASK}), TelegramRead()),
               TelegramSend()), 12)
  }

  function DesireSpec(s: State, d: Desire): State {
    var s1 := if d.social then SocialDesire(s) else s;
    if d.budget then Raise(With(s1, DraftMessage()), -8) else s1
  }

  function LearningSpec(s: State, l: Learning): State {
    var s1 := With(s.(needs := s.needs + {MEMORY}, outcomes := s.outcomes + {MEMORY_CANDIDATE}),
                   StageMemory(l.statement));
    if l.kind.OtherLearning? then s1
    else Raise(With(s1.(outcomes := s1.outcomes + {SPEC}), CreateSpec("make the feedback a contract")),
               Truncate(l.confidence * 10.0))
  }

  function DaemonSpec(s: State, d: Daemon): State {
    var s1 := if d.kind.OtherDaemon? then s
              else Raise(With(With(s.(outcomes := s.outcomes + {SPEC}), WebResearch()),
                              CreateSpec("spec from a daemon signal")), 10);
    if d.urgent then Raise(s1, 8) else s1
  }

  function Fold<T>(s: State, items: seq<T>, step: (State, T) -> State): State {
    if items == [] then s else step(Fold(s, items[..|items| - 1], step), items[|items| - 1])
  }

  predicate HasKind(actions: seq<Action>, kind: ActionKind) { kind in Kinds(actions) }

  function Kinds(actions: seq<Action>): set<ActionKind> { set a | a in actions :: a.kind }

  function Finalize(s: State): State { if WEB_RESEARCH in Kinds(s.actions) then s else With(s, SearchKb()) }

  function Clamp(priority: int): int { Max(0, Min(100, priority)) }

  /** The state after the affect pass, which only a present snapshot has. */
  function AfterAffect(a: Option<Affect>): State { if a.Some? then AffectSpec(Initial(), a.value) else Initial() }

  function Collected(x: Signals): State {
    var s1 := AfterAffect(x.affect);
    var s2 := Fold(s1, x.corrections, CorrectionSpec);
    var s3 := Fold(s2, x.desires, DesireSpec);
    var s4 := Fold(s3, x.learning, LearningSpec);
    Fold(s4, x.daemon, DaemonSpec)
  }

  function Passes(x: Signals): State { Finalize(Collected(x)) }

  predicate Rejected(x: Signals) { x.blankEvent || x.blankEvidence || exists d :: d in x.desires && d.blank }

  /** build; None is the ValueError for a blank event, desire or evidence entry. */
  function BuildSpec(x: Signals): Option<Intent> {
    if Rejected(x) then None
    else
      var s := Passes(x);
      Some(Intent(Clamp(s.priority), s.needs, s.actions, s.outcomes))
  }

  class IntentBuildState {
    var needs: set<DataNeed>
    var outcomes: set<Expected>
    var actions: seq<Action>
    var priority: int

    function View(): State reads this { State(needs, outcomes, actions, priority) }

    constructor ()
      ensures View() == Initial()
    {
      needs, outcomes, actions, priority := {FACTS}, {CONTEXT_CAPSULE}, [ReadWorkspace()], 50;
    }

    method AppendAction(a: Action)
      modifies this
      ensures View() == With(old(View()), a)
    {
      var i := 0;
      while i < |actions|
        invariant 0 <= i <= |actions|
        invariant forall n :: 0 <= n < i ==> !SameKey(actions[n], a)
        invariant View() == old(View())
      {
        if SameKey(actions[i], a) {
          return;
        }
        i := i + 1;
      }
      actions := actions + [a];
    }

    method ApplyAffect(a: Affect)
      modifies this
      ensures View() == AffectSpec(old(View()), a)
    {
      if a.emotion.Curious? {
        AppendAction(WebResearch());
        priority := priority + Truncate(a.arousal * 24.0);
      }
      if a.emotion.Sociable? {
        priority := priority + 10;
      }
      if a.emotion.Cautious? || a.regulationActive {
        AppendAction(DraftMessage());
        priority := priority - 25;
      }
      if a.arousal < 0.35 {
        priority := priority - 12;
      }
    }

    method ApplyHomeostasis(corrections: seq<Correction>)
      modifies this
      ensures View() == Fold(old(View()), corrections, CorrectionSpec)
    {
      for i := 0 to |corrections|
        invariant View() == Fold(old(View()), corrections[..i], CorrectionSpec)
      {
        assert corrections[..i + 1][..i] == corrections[..i];
        outcomes := outcomes + {SPEC};
        AppendAction(CreateSpec(corrections[i].suggestion));
        priority := priority + if corrections[i].tooLow then 8 else -4;
      }
      assert corrections[..|corrections|] == corrections;
    }

    method ApplyDesires(desires: seq<Desire>) returns (ok: bool)
      modifies this
      ensures ok <==> forall d :: d in desires ==> !d.blank
      ensures ok ==> View() == Fold(old(View()), desires, DesireSpec)
    {
      for i := 0 to |desires|
        invariant forall n :: 0 <= n < i ==> !desires[n].blank
        invariant View() == Fold(old(View()), desires[..i], DesireSpec)
      {
        assert desires[..i + 1][..i] == desires[..i];
        if desires[i].blank {
          return false;
        }
        if desires[i].social {
          needs := needs + {HUMAN_OPINION};
          outcomes := outcomes + {ASK};
          AppendAction(TelegramRead());
          AppendAction(TelegramSend());
          priority := priority + 12;
        }
        if desires[i].budget {
          AppendAction(DraftMessage());
          priority := priority - 8;
        }
      }
      assert desires[..|desires|] == desires;
      ok := true;
    }

    method ApplyLearningSignals(learning: seq<Learning>)
      modifies this
      ensures View() == Fold(old(View()), learning, LearningSpec)
    {
      for i := 0 to |learning|
        invariant View() == Fold(old(View()), learning[..i], LearningSpec)
      {
        assert learning[..i + 1][..i] == learning[..i];
        outcomes := outcomes + {MEMORY_CANDIDATE};
        needs := needs + {MEMORY};
        AppendAction(StageMemory(learning[i].statement));
        if !learning[i].kind.OtherLearning? {
          outcomes := outcomes + {SPEC};
          AppendAction(CreateSpec("make the feedback a contract"));
          priority := priority + Truncate(learning[i].confidence * 10.0);
        }
      }
      assert learning[..|learning|] == learning;
    }

    method ApplyDaemonSignals(daemon: seq<Daemon>)
      modifies this
      ensures View() == Fold(old(View()), daemon, DaemonSpec)
    {
      for i := 0 to |daemon|
        invariant View() == Fold(old(View()), daemon[..i], DaemonSpec)
      {
        assert daemon[..i + 1][..i] == daemon[..i];
        if !daemon[i].kind.OtherDaemon? {
          outcomes := outcomes + {SPEC};
          AppendAction(WebResearch());
          AppendAction(CreateSpec("spec from a daemon signal"));
          priority := priority + 10;
        }
        if daemon[i].urgent {
          priority := priority + 8;
        }
      }
      assert daemon[..|daemon|] == daemon;
    }

    method FinalizeState()
      modifies this
      ensures View() == Finalize(old(View()))
    {
      if WEB_RESEARCH !in Kinds(actions) {
        AppendAction(SearchKb());
      }
    }
  }

  class PersonalityDrivenIntentBuilder {
    method Build(x: Signals) returns (r: Option<Intent>)
      ensures r == BuildSpec(x)
    {
      if x.blankEvent {
        return None;
      }
      var state := new IntentBuildState();
      if x.affect.Some? {
        state.ApplyAffect(x.affect.value);
      }
      state.ApplyHomeostasis(x.corrections);
      var ok := state.ApplyDesires(x.desires);
      if !ok {
        return None;
      }
      state.ApplyLearningSignals(x.learning);
      state.ApplyDaemonSignals(x.daemon);
      state.FinalizeState();
      if x.blankEvidence {
        return None;
      }
      r := Some(Intent(Clamp(state.priority), state.needs, state.actions, state.outcomes));
    }
  }

  /* ---- what is built ---- */

  /** The one action key a kind is ever built with; only the send has a side effect. */
  ghost predicate Standard(a: Action) {
    && a.riskTier == 1 && !a.needsJudgement
    && SameKey(a, KeyOf(a.kind))
    && (a.sideEffect <==> a.kind.TELEGRAM_MCP_SEND?)
    && (a.kind.TELEGRAM_MCP_SEND? ==> a.scope == Some(Social.REPLY_IF_ADDRESSED))
  }

  /** The fixed fields of the actions, by kind. */
  lemma StandardMeans(a: Action)
    requires Standard(a)
    ensures a.riskTier == 1 && !a.needsJudgement && (a.sideEffect <==> a.kind == TELEGRAM_MCP_SEND)
    ensures a.sideEffect ==> a.scope == Some(Social.REPLY_IF_ADDRESSED)
    ensures a.target == if a.kind in {TELEGRAM_MCP_READ, TELEGRAM_MCP_SEND} then Some(1) else None
    ensures a.capability == match a.kind
                            case READ_WORKSPACE => "read_workspace"
                            case SEARCH_KB => "read_workspace"
                            case WEB_RESEARCH => "web_search_sources"
                            case TELEGRAM_MCP_READ => "telegram_mcp_read"
                            case TELEGRAM_MCP_SEND => "telegram_mcp_send"
                            case DRAFT_MESSAGE => "agency_social_permission_request"
                            case CREATE_SPEC => "request_tier3_specs_for_nikita_approval"
                            case STAGE_MEMORY => "agency_stage_memory"
  {
  }

  function KeyOf(kind: ActionKind): Action {
    match kind
    case READ_WORKSPACE => ReadWorkspace()
    case SEARCH_KB => SearchKb()
    case WEB_RESEARCH => WebResearch()
    case TELEGRAM_MCP_READ => TelegramRead()
    case TELEGRAM_MCP_SEND => TelegramSend()
    case DRAFT_MESSAGE => DraftMessage()
    case CREATE_SPEC => CreateSpec("")
    case STAGE_MEMORY => StageMemory("")
  }

  ghost predicate DistinctKinds(actions: seq<Action>) {
    forall i, j :: 0 <= i < j < |actions| ==> actions[i].kind != actions[j].kind
  }

  /** Every action is standard, no kind occurs twice, and the kinds are `kinds`. */
  ghost predicate Built(actions: seq<Action>, kinds: set<ActionKind>) {
    && (forall a :: a in actions ==> Standard(a))
    && DistinctKinds(actions)
    && (forall k :: k in kinds <==> HasKind(actions, k))
  }

  lemma AppendBuilds(actions: seq<Action>, a: Action, kinds: set<ActionKind>)
    requires Built(actions, kinds) && Standard(a)
    ensures Built(Append(actions, a), kinds + {a.kind})
  {
    if a.kind in kinds {
      assert HasKind(actions, a.kind);
      var other :| other in actions && other.kind == a.kind;
      var n :| 0 <= n < |actions| && actions[n] == other;
      assert SameKey(actions[n], a);
    } else {
      assert !HasKind(actions, a.kind);
      forall n | 0 <= n < |actions|
        ensures actions[n].kind != a.kind
      {
        assert actions[n] in actions;
      }
      assert Kinds(actions + [a]) == Kinds(actions) + {a.kind};
    }
  }

  function AffectKinds(a: Option<Affect>): set<ActionKind> {
    if a.None? then {}
    else
      (if a.value.emotion.Curious? then {WEB_RESEARCH} else {})
      + (if a.value.emotion.Cautious? || a.value.regulationActive then {DRAFT_MESSAGE} else {})
  }

  function CorrectionKinds(c: Correction): set<ActionKind> { {CREATE_SPEC} }

  function DesireKinds(d: Desire): set<ActionKind> {
    (if d.social then {TELEGRAM_MCP_READ, TELEGRAM_MCP_SEND} else {}) + (if d.budget then {DRAFT_MESSAGE} else {})
  }

  function LearningKinds(l: Learning): set<ActionKind> {
    if l.kind.OtherLearning? then {STAGE_MEMORY} else {STAGE_MEMORY, CREATE_SPEC}
  }

  function DaemonKinds(d: Daemon): set<ActionKind> {
    if d.kind.OtherDaemon? then {} else {WEB_RESEARCH, CREATE_SPEC}
  }

  function Union<T>(items: seq<T>, kinds: T -> set<ActionKind>): set<ActionKind> {
    if items == [] then {} else Union(items[..|items| - 1], kinds) + kinds(items[|items| - 1])
  }

  lemma {:induction false} UnionIn<T(!new)>(items: seq<T>, kinds: T -> set<ActionKind>, k: ActionKind)
    ensures k in Union(items, kinds) <==> exists x :: x in items && k in kinds(x)
  {
    if items != [] {
      UnionIn(items[..|items| - 1], kinds, k);
      assert items == items[..|items| - 1] + [items[|items| - 1]];
    }
  }

  /** A pass whose every step adds its item's kinds adds the kinds of all items. */
  lemma {:induction false} FoldAdds<T(!new)>(inv: (State, set<ActionKind>) -> bool, s: State, items: seq<T>,
                                             step: (State, T) -> State, kinds: T -> set<ActionKind>,
                                             before: set<ActionKind>)
    requires inv(s, before)
    requires forall t: State, x, ks :: inv(t, ks) ==> inv(step(t, x), ks + kinds(x))
    ensures inv(Fold(s, items, step), before + Union(items, kinds))
  {
    if items == [] {
      assert before + {} == before;
    } else {
      var front, last := items[..|items| - 1], items[|items| - 1];
      FoldAdds(inv, s, front, step, kinds, before);
      var ks := before + Union(front, kinds);
      assert inv(step(Fold(s, front, step), last), ks + kinds(last));
      assert ks + kinds(last) == before + Union(items, kinds);
    }
  }

  lemma CorrectionBuilds(s: State, c: Correction, ks: set<ActionKind>)
    requires Built(s.actions, ks)
    ensures Built(CorrectionSpec(s, c).actions, ks + CorrectionKinds(c))
  {
    AppendBuilds(s.actions, CreateSpec(c.suggestion), ks);
  }

  lemma SocialBuilds(s: State, ks: set<ActionKind>)
    requires Built(s.actions, ks)
    ensures Built(SocialDesire(s).actions, ks + {TELEGRAM_MCP_READ, TELEGRAM_MCP_SEND})
  {
    AppendBuilds(s.actions, TelegramRead(), ks);
    AppendBuilds(Append(s.actions, TelegramRead()), TelegramSend(), ks + {TELEGRAM_MCP_READ});
    assert ks + {TELEGRAM_MCP_READ} + {TELEGRAM_MCP_SEND} == ks + {TELEGRAM_MCP_READ, TELEGRAM_MCP_SEND};
  }

  lemma DraftBuilds(s: State, ks: set<ActionKind>)
    requires Built(s.actions, ks)
    ensures Built(With(s, DraftMessage()).actions, ks + {DRAFT_MESSAGE})
  {
    AppendBuilds(s.actions, DraftMessage(), ks);
  }

  lemma DesireBuilds(s: State, d: Desire, ks: set<ActionKind>)
    requires Built(s.actions, ks)
    ensures Built(DesireSpec(s, d).actions, ks + DesireKinds(d))
  {
    var social := if d.social then {TELEGRAM_MCP_READ, TELEGRAM_MCP_SEND} else {};
    var s1, k1 := if d.social then SocialDesire(s) else s, ks + social;
    if d.social {
      SocialBuilds(s, ks);
    } else {
      assert k1 == ks;
    }
    if d.budget {
      DraftBuilds(s1, k1);
      assert k1 + {DRAFT_MESSAGE} == ks + DesireKinds(d);
    } else {
      assert k1 == ks + DesireKinds(d);
    }
  }

  lemma SpecBuilds(actions: seq<Action>, description: string, ks: set<ActionKind>)
    requires Built(actions, ks)
    ensures Built(Append(actions, CreateSpec(description)), ks + {CREATE_SPEC})
  {
    AppendBuilds(actions, CreateSpec(description), ks);
  }

  lemma LearningBuilds(s: State, l: Learning, ks: set<ActionKind>)
    requires Built(s.actions, ks)
    ensures Built(LearningSpec(s, l).actions, ks + LearningKinds(l))
  {
    var staged := Append(s.actions, StageMemory(l.statement));
    AppendBuilds(s.actions, StageMemory(l.statement), ks);
    if !l.kind.OtherLearning? {
      SpecBuilds(staged, "make the feedback a contract", ks + {STAGE_MEMORY});
      assert ks + {STAGE_MEMORY} + {CREATE_SPEC} == ks + LearningKinds(l);
    }
  }

  lemma DaemonBuilds(s: State, d: Daemon, ks: set<ActionKind>)
    requires Built(s.actions, ks)
    ensures Built(DaemonSpec(s, d).actions, ks + DaemonKinds(d))
  {
    if d.kind.OtherDaemon? {
      assert ks + {} == ks;
    } else {
      AppendBuilds(s.actions, WebResearch(), ks);
      SpecBuilds(Append(s.actions, WebResearch()), "spec from a daemon signal", ks + {WEB_RESEARCH});
      assert ks + {WEB_RESEARCH} + {CREATE_SPEC} == ks + DaemonKinds(d);
    }
  }

  lemma ResearchBuilds(s: State, ks: set<ActionKind>)
    requires Built(s.actions, ks)
    ensures Built(With(s, WebResearch()).actions, ks + {WEB_RESEARCH})
  {
    AppendBuilds(s.actions, WebResearch(), ks);
  }

  lemma AffectAppends(s: State, a: Affect)
    ensures var s1 := if a.emotion.Curious? then With(s, WebResearch()) else s;
            AffectSpec(s, a).actions
                == (if a.emotion.Cautious? || a.regulationActive then With(s1, DraftMessage()) else s1).actions
  {
  }

  lemma InitialBuilds()
    ensures Built(Initial().actions, {READ_WORKSPACE})
  {
    assert Kinds(Initial().actions) == {READ_WORKSPACE};
  }

  lemma AffectBuilds(s: State, a: Affect, ks: set<ActionKind>)
    requires Built(s.actions, ks)
    ensures Built(AffectSpec(s, a).actions, ks + AffectKinds(Some(a)))
  {
    AffectAppends(s, a);
    var s1 := if a.emotion.Curious? then With(s, WebResearch()) else s;
    var k1 := ks + if a.emotion.Curious? then {WEB_RESEARCH} else {};
    if a.emotion.Curious? {
      ResearchBuilds(s, ks);
    } else {
      assert k1 == ks;
    }
    if a.emotion.Cautious? || a.regulationActive {
      DraftBuilds(s1, k1);
      assert k1 + {DRAFT_MESSAGE} == ks + AffectKinds(Some(a));
    } else {
      assert k1 == ks + AffectKinds(Some(a));
    }
  }

  lemma AfterAffectBuilds(a: Option<Affect>)
    ensures Built(AfterAffect(a).actions, {READ_WORKSPACE} + AffectKinds(a))
  {
    InitialBuilds();
    if a.Some? {
      AffectBuilds(Initial(), a.value, {READ_WORKSPACE});
    } else {
      assert {READ_WORKSPACE} + {} == {READ_WORKSPACE};
    }
  }

  /** The kinds the passes add before the state is finalized. */
  function Added(x: Signals): set<ActionKind> {
    {READ_WORKSPACE} + AffectKinds(x.affect) + Union(x.corrections, CorrectionKinds)
    + Union(x.desires, DesireKinds) + Union(x.learning, LearningKinds) + Union(x.daemon, DaemonKinds)
  }

  /** Which kinds of action the signals call for; the knowledge base stands in for research. */
  function Called(x: Signals): set<ActionKind> {
    Added(x) + if WEB_RESEARCH in Added(x) then {} else {SEARCH_KB}
  }

  /** What each step keeps while its item's kinds are added, the passes keep. */
  lemma PassesAdd(inv: (State, set<ActionKind>) -> bool, x: Signals)
    requires inv(AfterAffect(x.affect), {READ_WORKSPACE} + AffectKinds(x.affect))
    requires forall t: State, c, ks :: inv(t, ks) ==> inv(CorrectionSpec(t, c), ks + CorrectionKinds(c))
    requires forall t: State, d, ks :: inv(t, ks) ==> inv(DesireSpec(t, d), ks + DesireKinds(d))
    requires forall t: State, l, ks :: inv(t, ks) ==> inv(LearningSpec(t, l), ks + LearningKinds(l))
    requires forall t: State, d, ks :: inv(t, ks) ==> inv(DaemonSpec(t, d), ks + DaemonKinds(d))
    ensures inv(Collected(x), Added(x))
  {
    var s1, k1 := AfterAffect(x.affect), {READ_WORKSPACE} + AffectKinds(x.affect);
    FoldAdds(inv, s1, x.corrections, CorrectionSpec, CorrectionKinds, k1);
    var s2, k2 := Fold(s1, x.corrections, CorrectionSpec), k1 + Union(x.corrections, CorrectionKinds);
    FoldAdds(inv, s2, x.desires, DesireSpec, DesireKinds, k2);
    var s3, k3 := Fold(s2, x.desires, DesireSpec), k2 + Union(x.desires, DesireKinds);
    FoldAdds(inv, s3, x.learning, LearningSpec, LearningKinds, k3);
    var s4, k4 := Fold(s3, x.learning, LearningSpec), k3 + Union(x.learning, LearningKinds);
    FoldAdds(inv, s4, x.daemon, DaemonSpec, DaemonKinds, k4);
  }

  ghost predicate BuiltState(s: State, kinds: set<ActionKind>) { Built(s.actions, kinds) }

  lemma PassesBuild(x: Signals)
    ensures Built(Passes(x).actions, Called(x))
  {
    AfterAffectBuilds(x.affect);
    forall t: State, c, ks | BuiltState(t, ks) ensures BuiltState(CorrectionSpec(t, c), ks + CorrectionKinds(c)) {
      CorrectionBuilds(t, c, ks);
    }
    forall t: State, d, ks | BuiltState(t, ks) ensures BuiltState(DesireSpec(t, d), ks + DesireKinds(d)) {
      DesireBuilds(t, d, ks);
    }
    forall t: State, l, ks | BuiltState(t, ks) ensures BuiltState(LearningSpec(t, l), ks + LearningKinds(l)) {
      LearningBuilds(t, l, ks);
    }
    forall t: State, d, ks | BuiltState(t, ks) ensures BuiltState(DaemonSpec(t, d), ks + DaemonKinds(d)) {
      DaemonBuilds(t, d, ks);
    }
    PassesAdd(BuiltState, x);
    FinalizeBuilds(Collected(x), Added(x));
  }

  /* ---- expected outcomes and data needs ---- */

  /** What a candidate of some kind promises, besides the context capsule. */
  function OutcomesFor(kinds: set<ActionKind>): set<Expected> {
    (if CREATE_SPEC in kinds then {SPEC} else {})
    + (if TELEGRAM_MCP_SEND in kinds then {ASK} else {})
    + (if STAGE_MEMORY in kinds then {MEMORY_CANDIDATE} else {})
  }

  /** What it needs, besides facts. */
  function NeedsFor(kinds: set<ActionKind>): set<DataNeed> {
    (if TELEGRAM_MCP_SEND in kinds then {HUMAN_OPINION} else {}) + (if STAGE_MEMORY in kinds then {MEMORY} else {})
  }

  ghost predicate Promised(s: State, kinds: set<ActionKind>) {
    s.outcomes == {CONTEXT_CAPSULE} + OutcomesFor(kinds) && s.needs == {FACTS} + NeedsFor(kinds)
  }

  lemma CorrectionPromises(s: State, c: Correction, ks: set<ActionKind>)
    requires Promised(s, ks)
    ensures Promised(CorrectionSpec(s, c), ks + CorrectionKinds(c))
  {
  }

  lemma DesirePromises(s: State, d: Desire, ks: set<ActionKind>)
    requires Promised(s, ks)
    ensures Promised(DesireSpec(s, d), ks + DesireKinds(d))
  {
    assert OutcomesFor(ks + DesireKinds(d)) == OutcomesFor(ks) + if d.social then {ASK} else {};
    assert NeedsFor(ks + DesireKinds(d)) == NeedsFor(ks) + if d.social then {HUMAN_OPINION} else {};
  }

  lemma LearningPromises(s: State, l: Learning, ks: set<ActionKind>)
    requires Promised(s, ks)
    ensures Promised(LearningSpec(s, l), ks + LearningKinds(l))
  {
  }

  lemma DaemonPromises(s: State, d: Daemon, ks: set<ActionKind>)
    requires Promised(s, ks)
    ensures Promised(DaemonSpec(s, d), ks + DaemonKinds(d))
  {
  }

  lemma CollectedPromises(x: Signals)
    ensures Promised(Collected(x), Added(x))
  {
    forall t: State, c, ks | Promised(t, ks) ensures Promised(CorrectionSpec(t, c), ks + CorrectionKinds(c)) {
      CorrectionPromises(t, c, ks);
    }
    forall t: State, d, ks | Promised(t, ks) ensures Promised(DesireSpec(t, d), ks + DesireKinds(d)) {
      DesirePromises(t, d, ks);
    }
    forall t: State, l, ks | Promised(t, ks) ensures Promised(LearningSpec(t, l), ks + LearningKinds(l)) {
      LearningPromises(t, l, ks);
    }
    forall t: State, d, ks | Promised(t, ks) ensures Promised(DaemonSpec(t, d), ks + DaemonKinds(d)) {
      DaemonPromises(t, d, ks);
    }
    AfterAffectPromises(x.affect);
    PassesAdd(Promised, x);
  }

  lemma AfterAffectPromises(a: Option<Affect>)
    ensures Promised(AfterAffect(a), {READ_WORKSPACE} + AffectKinds(a))
  {
  }

  lemma FinalizePromises(s: State, ks: set<ActionKind>, more: set<ActionKind>)
    requires Promised(s, ks) && more <= {SEARCH_KB}
    ensures Promised(Finalize(s), ks + more)
  {
  }

  /** An intent expects a spec, a question or a memory candidate, and needs opinions or memory,
      exactly when a candidate action calls for it. */
  lemma PromisesFollowActions(x: Signals)
    requires BuildSpec(x).Some?
    ensures var i := BuildSpec(x).value;
            && i.outcomes == {CONTEXT_CAPSULE} + OutcomesFor(Kinds(i.actions))
            && i.needs == {FACTS} + NeedsFor(Kinds(i.actions))
  {
    CollectedPromises(x);
    FinalizePromises(Collected(x), Added(x), if WEB_RESEARCH in Added(x) then {} else {SEARCH_KB});
    PassesAreBounded(x);
  }

  lemma FinalizeBuilds(s: State, ks: set<ActionKind>)
    requires Built(s.actions, ks)
    ensures Built(Finalize(s).actions, ks + if WEB_RESEARCH in ks then {} else {SEARCH_KB})
  {
    if WEB_RESEARCH in ks {
      assert HasKind(s.actions, WEB_RESEARCH);
      assert ks + {} == ks;
    } else {
      assert !HasKind(s.actions, WEB_RESEARCH);
      AppendBuilds(s.actions, SearchKb(), ks);
    }
  }

  /* ---- the priority ---- */

  /** What each signal contributes; a fraction is cut off towards zero. */
  function AffectShare(a: Affect): int {
    (if a.emotion == Curious then Truncate(a.arousal * 24.0) else 0) + (if a.emotion == Sociable then 10 else 0)
    - (if a.emotion == Cautious || a.regulationActive then 25 else 0) - (if a.arousal < 0.35 then 12 else 0)
  }

  function CorrectionShare(c: Correction): int { if c.tooLow then 8 else -4 }

  function DesireShare(d: Desire): int { (if d.social then 12 else 0) - (if d.budget then 8 else 0) }

  function LearningShare(l: Learning): int {
    if l.kind == CORRECTION || l.kind == BOUNDARY then Truncate(l.confidence * 10.0) else 0
  }

  function DaemonShare(d: Daemon): int {
    (if d.kind == TOPIC_CLUSTER_READY || d.kind == RUNTIME_GAP then 10 else 0) + (if d.urgent then 8 else 0)
  }

  function Sum<T>(items: seq<T>, share: T -> int): int {
    if items == [] then 0 else Sum(items[..|items| - 1], share) + share(items[|items| - 1])
  }

  lemma {:induction false} FoldRaises<T(!new)>(s: State, items: seq<T>, step: (State, T) -> State, share: T -> int)
    requires forall t, x :: step(t, x).priority == t.priority + share(x)
    ensures Fold(s, items, step).priority == s.priority + Sum(items, share)
  {
    if items != [] {
      FoldRaises(s, items[..|items| - 1], step, share);
    }
  }

  lemma CorrectionsRaise(s: State, items: seq<Correction>)
    ensures Fold(s, items, CorrectionSpec).priority == s.priority + Sum(items, CorrectionShare)
  {
    FoldRaises(s, items, CorrectionSpec, CorrectionShare);
  }

  lemma DesiresRaise(s: State, items: seq<Desire>)
    ensures Fold(s, items, DesireSpec).priority == s.priority + Sum(items, DesireShare)
  {
    FoldRaises(s, items, DesireSpec, DesireShare);
  }

  lemma LearningRaises(s: State, items: seq<Learning>)
    ensures Fold(s, items, LearningSpec).priority == s.priority + Sum(items, LearningShare)
  {
    FoldRaises(s, items, LearningSpec, LearningShare);
  }

  lemma DaemonRaises(s: State, items: seq<Daemon>)
    ensures Fold(s, items, DaemonSpec).priority == s.priority + Sum(items, DaemonShare)
  {
    FoldRaises(s, items, DaemonSpec, DaemonShare);
  }

  lemma AffectRaises(a: Option<Affect>)
    ensures AfterAffect(a).priority == 50 + if a.Some? then AffectShare(a.value) else 0
  {
  }

  lemma CollectedRaises(x: Signals)
    ensures Collected(x).priority
         == 50 + (if x.affect.Some? then AffectShare(x.affect.value) else 0) + Sum(x.corrections, CorrectionShare)
            + Sum(x.desires, DesireShare) + Sum(x.learning, LearningShare) + Sum(x.daemon, DaemonShare)
  {
    var s1 := AfterAffect(x.affect);
    AffectRaises(x.affect);
    CorrectionsRaise(s1, x.corrections);
    var s2 := Fold(s1, x.corrections, CorrectionSpec);
    DesiresRaise(s2, x.desires);
    var s3 := Fold(s2, x.desires, DesireSpec);
    LearningRaises(s3, x.learning);
    DaemonRaises(Fold(s3, x.learning, LearningSpec), x.daemon);
  }

  /** The priority is 50 and the sum of what all signals contribute, brought into 0..100. */
  lemma PriorityMeans(x: Signals)
    requires BuildSpec(x).Some?
    ensures var total := 50 + (if x.affect.Some? then AffectShare(x.affect.value) else 0)
                         + Sum(x.corrections, CorrectionShare) + Sum(x.desires, DesireShare)
                         + Sum(x.learning, LearningShare) + Sum(x.daemon, DaemonShare);
            BuildSpec(x).value.priority == if total < 0 then 0 else if total > 100 then 100 else total
  {
    CollectedRaises(x);
  }

  /** Cutting off leaves the whole part of a number of either sign. */
  lemma TruncateMeans(x: real)
    ensures x >= 0.0 ==> 0 <= Truncate(x) && Truncate(x) as real <= x < Truncate(x) as real + 1.0
    ensures x < 0.0 ==> Truncate(x) <= 0 && Truncate(x) as real - 1.0 < x <= Truncate(x) as real
  {
  }

  /** The order in which signals of one kind come does not matter to it. */
  lemma {:induction false} SumIgnoresOrder<T>(a: seq<T>, b: seq<T>, share: T -> int)
    requires multiset(a) == multiset(b)
    ensures Sum(a, share) == Sum(b, share)
  {
    if a == [] {
      assert multiset(b) == multiset{} ==> |b| == 0;
    } else {
      var front, last := a[..|a| - 1], a[|a| - 1];
      assert a == front + [last];
      assert last in multiset(b);
      var i :| 0 <= i < |b| && b[i] == last;
      SumRemove(b, i, share);
      assert b == b[..i] + [last] + b[i + 1..];
      assert multiset(a) == multiset(front) + multiset{last};
      assert multiset(b) == multiset(b[..i] + b[i + 1..]) + multiset{last};
      Cancel(multiset(front), multiset(b[..i] + b[i + 1..]), last);
      SumIgnoresOrder(front, b[..i] + b[i + 1..], share);
    }
  }

  lemma Cancel<T>(a: multiset<T>, b: multiset<T>, x: T)
    requires a + multiset{x} == b + multiset{x}
    ensures a == b
  {
    assert a == a + multiset{x} - multiset{x};
    assert b == b + multiset{x} - multiset{x};
  }

  lemma {:induction false} SumRemove<T>(b: seq<T>, i: nat, share: T -> int)
    requires i < |b|
    ensures Sum(b, share) == Sum(b[..i] + b[i + 1..], share) + share(b[i])
  {
    var front, last := b[..|b| - 1], b[|b| - 1];
    if i == |b| - 1 {
      assert b[..i] + b[i + 1..] == front;
    } else {
      SumRemove(front, i, share);
      var rest := b[..i] + b[i + 1..];
      assert rest[..|rest| - 1] == front[..i] + front[i + 1..] && rest[|rest| - 1] == last;
    }
  }

  /* ---- what the policy decides about a built intent ---- */

  ghost predicate AsksSocially(x: Signals) { exists d :: d in x.desires && d.social }

  /** A send is a candidate exactly when some desire carries a social term. */
  lemma SendIffSocial(x: Signals)
    ensures TELEGRAM_MCP_SEND in Called(x) <==> AsksSocially(x)
  {
    UnionIn(x.corrections, CorrectionKinds, TELEGRAM_MCP_SEND);
    UnionIn(x.desires, DesireKinds, TELEGRAM_MCP_SEND);
    UnionIn(x.learning, LearningKinds, TELEGRAM_MCP_SEND);
    UnionIn(x.daemon, DaemonKinds, TELEGRAM_MCP_SEND);
  }

  ghost predicate DistinctKeys(actions: seq<Action>) {
    forall i, j :: 0 <= i < j < |actions| ==> !SameKey(actions[i], actions[j])
  }

  lemma BuiltMeans(actions: seq<Action>, kinds: set<ActionKind>)
    requires Built(actions, kinds)
    ensures DistinctKeys(actions) && Kinds(actions) == kinds && |actions| == |kinds|
  {
    forall k ensures k in kinds <==> k in Kinds(actions) {
      assert k in kinds <==> HasKind(actions, k);
    }
    OnePerKind(actions);
  }

  lemma {:induction false} OnePerKind(actions: seq<Action>)
    requires DistinctKinds(actions)
    ensures |actions| == |Kinds(actions)|
  {
    if actions == [] {
      assert Kinds(actions) == {};
    } else {
      var front, last := actions[..|actions| - 1], actions[|actions| - 1];
      assert actions == front + [last];
      OnePerKind(front);
      assert Kinds(actions) == Kinds(front) + {last.kind};
      assert last.kind !in Kinds(front);
    }
  }

  lemma PassesAreBounded(x: Signals)
    ensures var actions := Passes(x).actions;
            DistinctKeys(actions) && Kinds(actions) == Called(x) && |actions| == |Called(x)|
  {
    PassesBuild(x);
    BuiltMeans(Passes(x).actions, Called(x));
  }

  /** A built intent has distinct action keys, at most one action of each kind, exactly the
      kinds its signals call for, and a priority in range; no other signals are refused. */
  lemma IntentsAreBounded(x: Signals)
    ensures BuildSpec(x).None? <==> x.blankEvent || x.blankEvidence || exists d :: d in x.desires && d.blank
    ensures var r := BuildSpec(x);
            r.Some? ==>
              && 0 <= r.value.priority <= 100
              && DistinctKeys(r.value.actions)
              && Kinds(r.value.actions) == Called(x)
              && |r.value.actions| == |Called(x)|
  {
    if !Rejected(x) {
      PassesAreBounded(x);
    }
  }

  /** Without grants every built intent runs by itself exactly when no desire carries a social
      term; otherwise it is blocked under emergency stop and put to the owner without it. It
      is never left waiting for a bare approval. */
  lemma UngrantedIntents(x: Signals, emergencyStop: bool, now: Autonomy.Time)
    requires BuildSpec(x).Some?
    ensures DecideSpec(BuildSpec(x).value.actions, Setting(emergencyStop, [], now)).verdict
         == (if !AsksSocially(x) then AUTO else if emergencyStop then BLOCKED else ASK_NIKITA)
  {
    PassesBuild(x);
    SendIffSocial(x);
    var actions, setting := Passes(x).actions, Setting(emergencyStop, [], now);
    VerdictMeans(actions, setting);
    assert AsksSocially(x) <==> HasKind(actions, TELEGRAM_MCP_SEND);
    forall a | a in actions
      ensures a.riskTier < 3 && (MayProceed(a, setting) <==> !a.kind.TELEGRAM_MCP_SEND?)
      ensures LacksGrant(a, setting) <==> a.kind.TELEGRAM_MCP_SEND? && !emergencyStop
    {
      assert Standard(a);
    }
  }
}
