/**
 * The archetype dialogue (`src/data/conversationData.ts`): a constant graph
 * of conversation nodes keyed by id, whose options lead to other nodes and,
 * in the three scenario questions, weight the five character classes; and
 * the description of each class.
 */
module DialogueGraph {
  import opened Wrappers

  datatype CharacterClass = Observer | Catalyst | Weaver | Architect | Mediator

  /** An option of a node: its label, the node it leads to, and the class
      weights it carries, if any (`Partial<Record<CharacterClass, number>>`). */
  datatype DialogueOption = DialogueOption(text: string, nextNodeId: string, classWeight: Option<map<CharacterClass, int>>)

  datatype ConversationNode = ConversationNode(id: string, text: string, options: seq<DialogueOption>, audio: Option<string>)

  function Go(text: string, next: string): DialogueOption {
    DialogueOption(text, next, None)
  }

  function Weighted(text: string, next: string, w: map<CharacterClass, int>): DialogueOption {
    DialogueOption(text, next, Some(w))
  }

  /** The prose of a scenario: its prompt and the answer favouring each class. */
  datatype ScenarioTexts = ScenarioTexts(
    prompt: string, observer: string, catalyst: string, weaver: string, architect: string, mediator: string)

  /** The prose of the nodes and of the scenario answers, kept apart from
      the structure of the graph: the structural properties below hold
      whatever the prose is. */
  datatype NodeTexts = NodeTexts(
    intro: string, welcome: string, whyClassify: string,
    question1: ScenarioTexts, question2: ScenarioTexts, question3: ScenarioTexts,
    final: string, results: string)

  const DialogueTexts := NodeTexts(
    "SYSTEM INITIALIZING...\n\nWelcome to the archetype discovery process.\n\nLet's explore how your mind works.",
    "I am ECHO, a pattern-recognition system. Through our conversation, I'll help identify your cognitive archetype\U{2014}the unique way you process the world. There are no right answers here, only honest ones.",
    "Understanding your cognitive patterns offers insight into how you naturally approach situations. We all have different ways of thinking, each with its own strengths. This exploration helps reveal those patterns.",
    ScenarioTexts(
      "Scenario 1: You find yourself in an unexpected situation with two possible paths forward. How do you typically proceed?",
      "I observe patterns and variables before making a calculated decision.",
      "I trust my instincts and act decisively in the moment.",
      "I find the hidden third option that others might miss.",
      "I analyze the systems at play and optimize my approach.",
      "I consider how my choice affects everyone involved."),
    ScenarioTexts(
      "Scenario 2: You encounter a complex problem that others have struggled to solve. What's your approach?",
      "I gather all available information and look for overlooked patterns.",
      "I try something unconventional that disrupts the usual way of thinking.",
      "I connect seemingly unrelated concepts to create a new perspective.",
      "I break down the problem into components and rebuild a solution methodically.",
      "I bring people together to find consensus and collaborate on a solution."),
    ScenarioTexts(
      "Scenario 3: You discover something important that contradicts what others believe. How do you respond?",
      "I document my findings meticulously before sharing my conclusions.",
      "I present my discovery immediately to spark necessary change.",
      "I explore how this new information connects to other domains of knowledge.",
      "I develop a framework that integrates both the old and new understanding.",
      "I find ways to introduce the idea gently to minimize resistance."),
    "Thank you for your responses. Analyzing your cognitive patterns...",
    "Analysis complete. Your responses reveal a distinct pattern of thinking\U{2014}an archetype that shapes how you perceive and interact with the world.")

  /** The three scenarios, each with its prose. */
  function Question1Node(sc: ScenarioTexts): ConversationNode {
    ConversationNode("question1", sc.prompt, [
      Weighted(sc.observer, "question2", map[Observer := 2, Architect := 1]),
      Weighted(sc.catalyst, "question2", map[Catalyst := 2, Observer := -1]),
      Weighted(sc.weaver, "question2", map[Weaver := 2, Mediator := -1]),
      Weighted(sc.architect, "question2", map[Architect := 2]),
      Weighted(sc.mediator, "question2", map[Mediator := 2, Catalyst := -1])], None)
  }

  function Question2Node(sc: ScenarioTexts): ConversationNode {
    ConversationNode("question2", sc.prompt, [
      Weighted(sc.observer, "question3", map[Observer := 2]),
      Weighted(sc.catalyst, "question3", map[Catalyst := 2, Weaver := -1]),
      Weighted(sc.weaver, "question3", map[Weaver := 2]),
      Weighted(sc.architect, "question3", map[Architect := 2, Catalyst := -1]),
      Weighted(sc.mediator, "question3", map[Mediator := 2, Observer := -1])], None)
  }

  function Question3Node(sc: ScenarioTexts): ConversationNode {
    ConversationNode("question3", sc.prompt, [
      Weighted(sc.observer, "final", map[Observer := 2]),
      Weighted(sc.catalyst, "final", map[Catalyst := 2, Weaver := -1]),
      Weighted(sc.weaver, "final", map[Weaver := 2]),
      Weighted(sc.architect, "final", map[Architect := 2]),
      Weighted(sc.mediator, "final", map[Mediator := 2, Catalyst := -1])], None)
  }

  /** The graph with the given prose; the text of the last two nodes is
      filled in from the computed class. */
  function Graph(t: NodeTexts): map<string, ConversationNode> {
    map[
      "intro" := ConversationNode("intro", t.intro, [Go("Begin", "welcome")], None),
      "welcome" := ConversationNode("welcome", t.welcome,
        [Go("I'm ready to explore.", "question1"), Go("Why identify archetypes?", "why_classify")], None),
      "why_classify" := ConversationNode("why_classify", t.whyClassify,
        [Go("That makes sense. Let's continue.", "question1")], None),
      "question1" := Question1Node(t.question1),
      "question2" := Question2Node(t.question2),
      "question3" := Question3Node(t.question3),
      "final" := ConversationNode("final", t.final, [Go("Continue", "results")], None),
      "results" := ConversationNode("results", t.results, [Go("Reveal my archetype", "class_reveal")], None),
      "class_reveal" := ConversationNode("class_reveal", "",
        [Go("Tell me more about these tendencies", "abilities"), Go("Start over", "intro")], None),
      "abilities" := ConversationNode("abilities", "", [Go("Start over", "intro")], None)]
  }

  /** `conversationData`. */
  const ConversationData: map<string, ConversationNode> := Graph(DialogueTexts)

  /** The edges of the dialogue, as a table: the nodes each node's options lead to. */
  function Edges(k: string): set<string> {
    if k == "intro" then {"welcome"}
    else if k == "welcome" then {"question1", "why_classify"}
    else if k == "why_classify" then {"question1"}
    else if k == "question1" then {"question2"}
    else if k == "question2" then {"question3"}
    else if k == "question3" then {"final"}
    else if k == "final" then {"results"}
    else if k == "results" then {"class_reveal"}
    else if k == "class_reveal" then {"abilities", "intro"}
    else if k == "abilities" then {"intro"}
    else {}
  }

  /** Some option of node `a` leads to node `b`. */
  predicate Step(g: map<string, ConversationNode>, a: string, b: string) {
    a in g && exists i :: 0 <= i < |g[a].options| && g[a].options[i].nextNodeId == b
  }

  /** Every option leads along an edge of the table. */
  lemma StepsWithinEdges(t: NodeTexts, a: string)
    ensures forall b :: Step(Graph(t), a, b) ==> b in Edges(a)
  {
  }

  /** Every edge of the table is followed by some option. */
  lemma EdgesAreSteps(t: NodeTexts, a: string)
    requires a in Graph(t)
    ensures forall b :: b in Edges(a) ==> Step(Graph(t), a, b)
  {
    var g := Graph(t);
    forall b | b in Edges(a)
      ensures Step(g, a, b)
    {
      var o := g[a].options;
      if (a == "welcome" && b == "why_classify") || (a == "class_reveal" && b == "intro") {
        assert o[1].nextNodeId == b;
      } else {
        assert o[0].nextNodeId == b;
      }
    }
  }

  /** Every option of every node leads to a node of the graph. */
  predicate EdgesResolveIn(g: map<string, ConversationNode>) {
    forall k, i :: k in g && 0 <= i < |g[k].options| ==> g[k].options[i].nextNodeId in g
  }

  lemma {:induction false} EdgesResolve(t: NodeTexts)
    ensures EdgesResolveIn(Graph(t))
  {
    var g := Graph(t);
    forall k, i | k in g && 0 <= i < |g[k].options|
      ensures g[k].options[i].nextNodeId in g
    {
      StepsWithinEdges(t, k);
      assert Step(g, k, g[k].options[i].nextNodeId);
    }
  }

  /** Every node is stored under its own id. */
  lemma IdsMatchKeys(t: NodeTexts)
    ensures forall k :: k in Graph(t) ==> Graph(t)[k].id == k
  {
  }

  /** The nodes whose options weight the classes. */
  const ScenarioKeys: set<string> := {"question1", "question2", "question3"}

  /** The class an option weights by 2. */
  function Primary(o: DialogueOption): Option<CharacterClass> {
    if o.classWeight.Some? then
      var w := o.classWeight.value;
      if Observer in w && w[Observer] == 2 then Some(Observer)
      else if Catalyst in w && w[Catalyst] == 2 then Some(Catalyst)
      else if Weaver in w && w[Weaver] == 2 then Some(Weaver)
      else if Architect in w && w[Architect] == 2 then Some(Architect)
      else if Mediator in w && w[Mediator] == 2 then Some(Mediator)
      else None
    else None
  }

  /** The number of classes a weight map gives `v` to; with `v` absent, the number of classes it names. */
  function ClassesWeighted(w: map<CharacterClass, int>, v: Option<int>): (r: nat)
    ensures r <= 5
  {
    (if Observer in w && (v.None? || w[Observer] == v.value) then 1 else 0) +
    (if Catalyst in w && (v.None? || w[Catalyst] == v.value) then 1 else 0) +
    (if Weaver in w && (v.None? || w[Weaver] == v.value) then 1 else 0) +
    (if Architect in w && (v.None? || w[Architect] == v.value) then 1 else 0) +
    (if Mediator in w && (v.None? || w[Mediator] == v.value) then 1 else 0)
  }

  /** The layout of a weight map: one or two classes, weights -1, 1 or 2, exactly one class weighted 2. */
  predicate WellWeighted(w: map<CharacterClass, int>) {
    && 1 <= ClassesWeighted(w, None) <= 2
    && ClassesWeighted(w, Some(2)) == 1
    && forall c :: c in w ==> w[c] == -1 || w[c] == 1 || w[c] == 2
  }

  /** The layout of a scenario: five options, each weighted as above, giving
      their +2 to Observer, Catalyst, Weaver, Architect and Mediator in that
      order, so that every class can be favoured in every scenario. */
  predicate ScenarioShape(n: ConversationNode) {
    && |n.options| == 5
    && (forall i :: 0 <= i < 5 ==> n.options[i].classWeight.Some? && WellWeighted(n.options[i].classWeight.value))
    && Primary(n.options[0]) == Some(Observer) && Primary(n.options[1]) == Some(Catalyst)
    && Primary(n.options[2]) == Some(Weaver) && Primary(n.options[3]) == Some(Architect)
    && Primary(n.options[4]) == Some(Mediator)
  }

  lemma Question1Shape(sc: ScenarioTexts)
    ensures ScenarioShape(Question1Node(sc))
  {
  }

  lemma Question2Shape(sc: ScenarioTexts)
    ensures ScenarioShape(Question2Node(sc))
  {
  }

  lemma Question3Shape(sc: ScenarioTexts)
    ensures ScenarioShape(Question3Node(sc))
  {
  }

  /** Each of the three scenarios has the layout above. */
  lemma ScenarioLayout(t: NodeTexts, k: string)
    requires k in ScenarioKeys
    ensures k in Graph(t) && ScenarioShape(Graph(t)[k])
  {
    if k == "question1" {
      assert Graph(t)[k] == Question1Node(t.question1);
      Question1Shape(t.question1);
    } else if k == "question2" {
      assert Graph(t)[k] == Question2Node(t.question2);
      Question2Shape(t.question2);
    } else {
      assert Graph(t)[k] == Question3Node(t.question3);
      Question3Shape(t.question3);
    }
  }

  /** Outside the scenarios no option carries weights. */
  lemma UnweightedElsewhere(t: NodeTexts, k: string)
    requires k in Graph(t) && k !in ScenarioKeys
    ensures forall i :: 0 <= i < |Graph(t)[k].options| ==> Graph(t)[k].options[i].classWeight.None?
  {
  }

  /** Every weight is -1, 1 or 2; an option weights one or two classes and
      exactly one of them by 2; and only the options of the three scenarios,
      all of them, carry weights. */
  lemma {:induction false} WeightLayout(t: NodeTexts)
    ensures forall k, i :: k in Graph(t) && 0 <= i < |Graph(t)[k].options| ==>
      && (Graph(t)[k].options[i].classWeight.Some? <==> k in ScenarioKeys)
      && (Graph(t)[k].options[i].classWeight.Some? ==> WellWeighted(Graph(t)[k].options[i].classWeight.value))
  {
    var g := Graph(t);
    forall k, i | k in g && 0 <= i < |g[k].options|
      ensures && (g[k].options[i].classWeight.Some? <==> k in ScenarioKeys)
              && (g[k].options[i].classWeight.Some? ==> WellWeighted(g[k].options[i].classWeight.value))
    {
      if k in ScenarioKeys {
        ScenarioLayout(t, k);
      } else {
        UnweightedElsewhere(t, k);
      }
    }
  }

  /** A walk through the dialogue: each step follows an option. */
  predicate Walk(g: map<string, ConversationNode>, p: seq<string>) {
    forall i :: 0 <= i < |p| - 1 ==> Step(g, p[i], p[i + 1])
  }

  /** The edges into the nodes on the way to the reveal. */
  lemma PredecessorsOf()
    ensures forall k :: "class_reveal" in Edges(k) ==> k == "results"
    ensures forall k :: "results" in Edges(k) ==> k == "final"
    ensures forall k :: "final" in Edges(k) ==> k == "question3"
    ensures forall k :: "question3" in Edges(k) ==> k == "question2"
    ensures forall k :: "question2" in Edges(k) ==> k == "question1"
    ensures forall k :: "question1" in Edges(k) ==> k == "welcome" || k == "why_classify"
  {
  }

  /** Every path from the intro that reaches the class reveal has just
      passed question1, question2, question3, final and results in that
      order, reached question1 from the welcome or its explanation. */
  lemma {:induction false} RevealFollowsScenarios(t: NodeTexts, p: seq<string>, j: nat)
    requires Walk(Graph(t), p) && p != [] && p[0] == "intro"
    requires j < |p| && p[j] == "class_reveal"
    ensures j >= 6
    ensures p[j - 5..j] == ["question1", "question2", "question3", "final", "results"]
    ensures p[j - 6] in {"welcome", "why_classify"}
  {
    PredecessorsOf();
    StepsWithinEdges(t, p[j - 1]);
    assert p[j - 1] == "results";
    StepsWithinEdges(t, p[j - 2]);
    assert p[j - 2] == "final";
    StepsWithinEdges(t, p[j - 3]);
    assert p[j - 3] == "question3";
    StepsWithinEdges(t, p[j - 4]);
    assert p[j - 4] == "question2";
    StepsWithinEdges(t, p[j - 5]);
    assert p[j - 5] == "question1";
    StepsWithinEdges(t, p[j - 6]);
  }

  /** Some scenario answer reads "Start over". */
  predicate StartOverAnswer(t: NodeTexts) {
    StartOverIn(t.question1) || StartOverIn(t.question2) || StartOverIn(t.question3)
  }

  predicate StartOverIn(sc: ScenarioTexts) {
    "Start over" in {sc.observer, sc.catalyst, sc.weaver, sc.architect, sc.mediator}
  }

  /** No answer of the dialogue's scenarios reads "Start over". */
  lemma NoStartOverAnswer()
    ensures !StartOverAnswer(DialogueTexts)
  {
  }

  /** Every "Start over" option returns to the intro. */
  lemma StartOverReturnsToIntro(t: NodeTexts)
    requires !StartOverAnswer(t)
    ensures forall k, i :: k in Graph(t) && 0 <= i < |Graph(t)[k].options| ==>
      (Graph(t)[k].options[i].text == "Start over" ==> Graph(t)[k].options[i].nextNodeId == "intro")
  {
  }

  /** The dialogue itself: its edges resolve, its ids match their keys,
      and its "Start over" options return to the intro. */
  lemma {:induction false} ConversationDataWellFormed()
    ensures EdgesResolveIn(ConversationData)
    ensures forall k :: k in ConversationData ==> ConversationData[k].id == k
    ensures forall k, i :: k in ConversationData && 0 <= i < |ConversationData[k].options| ==>
      (ConversationData[k].options[i].text == "Start over" ==> ConversationData[k].options[i].nextNodeId == "intro")
  {
    EdgesResolve(DialogueTexts);
    IdsMatchKeys(DialogueTexts);
    NoStartOverAnswer();
    StartOverReturnsToIntro(DialogueTexts);
  }

  /** The description and tendencies of a class. */
  datatype ClassDescription = ClassDescription(description: string, abilities: string)

  /** The entry of `classDescriptions` for each class. */
  function DescriptionOf(c: CharacterClass): ClassDescription {
    match c
    case Observer => ClassDescription(
      "ARCHETYPE: THE OBSERVER\n\nPrimary Tendency: Pattern Recognition\n\nYou naturally step back to watch and analyze. Where others see random events, you perceive the underlying patterns. Your mind excels at collecting data points and forming connections that reveal deeper truths about systems and behaviors.",
      "COGNITIVE TENDENCIES:\n\n1. Information Synthesis - You excel at gathering diverse information and distilling it to its essence\n2. Pattern Recognition - You naturally identify recurring themes and connections others miss\n3. Predictive Analysis - Your observations often allow you to anticipate outcomes with unusual accuracy\n4. Objective Assessment - You maintain emotional distance when evaluating situations")
    case Catalyst => ClassDescription(
      "ARCHETYPE: THE CATALYST\n\nPrimary Tendency: Transformation\n\nYou are drawn to action and change. Your mind naturally identifies when and how to apply pressure to transform situations. You're comfortable with disruption when it serves a purpose, and you often provide the spark that initiates necessary change.",
      "COGNITIVE TENDENCIES:\n\n1. Decisive Action - You quickly move from thought to implementation when conviction strikes\n2. Momentum Building - You excel at creating energy that carries initiatives forward\n3. Comfort with Uncertainty - You navigate changing conditions with unusual ease\n4. Intuitive Timing - You sense the right moment to act for maximum impact")
    case Weaver => ClassDescription(
      "ARCHETYPE: THE WEAVER\n\nPrimary Tendency: Connection\n\nYour mind naturally bridges disparate concepts. You see relationships between seemingly unrelated ideas and domains. This allows you to create novel solutions by importing frameworks from one context to solve problems in another. Your thinking transcends traditional boundaries.",
      "COGNITIVE TENDENCIES:\n\n1. Conceptual Integration - You blend ideas from different domains into coherent new frameworks\n2. Metaphorical Thinking - You use analogies to illuminate complex concepts and find hidden parallels\n3. Boundary Transcendence - You move fluidly between different disciplines and perspectives\n4. Emergent Insight - You recognize when combined elements create something greater than their parts")
    case Architect => ClassDescription(
      "ARCHETYPE: THE ARCHITECT\n\nPrimary Tendency: System Design\n\nYour mind naturally constructs and optimizes systems. You excel at understanding how components interact and creating structures that efficiently achieve objectives. You build mental models that help you navigate complexity with unusual clarity.",
      "COGNITIVE TENDENCIES:\n\n1. System Optimization - You instinctively identify ways to improve efficiency and effectiveness\n2. Structural Analysis - You quickly grasp how components interact within complex systems\n3. Process Creation - You develop frameworks that translate vision into executable steps\n4. Logical Progression - You build arguments and systems that follow clear, coherent principles")
    case Mediator => ClassDescription(
      "ARCHETYPE: THE MEDIATOR\n\nPrimary Tendency: Harmonization\n\nYou naturally sense the human dimension in all situations. Your mind seeks balance and understanding between different perspectives. You excel at finding common ground and creating environments where diverse ideas can coexist and synthesize.",
      "COGNITIVE TENDENCIES:\n\n1. Perspective Integration - You naturally reconcile seemingly contradictory viewpoints\n2. Emotional Navigation - You read subtle social cues and underlying feelings\n3. Value Alignment - You find shared principles that unite people with different positions\n4. Communication Translation - You reframe ideas to resonate with different audiences")
  }

  /** `classDescriptions`. */
  const ClassDescriptions: map<CharacterClass, ClassDescription> := map c: CharacterClass | true :: DescriptionOf(c)

  /** Every class has a description. */
  lemma DescriptionsCoverClasses()
    ensures forall c: CharacterClass :: c in ClassDescriptions && ClassDescriptions[c] == DescriptionOf(c)
  {
  }
}
