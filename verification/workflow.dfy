/**
 * The conversation graph of the agent: which step runs after which, the
 * relevance check's routing rule and the post-processing of the generated
 * answer. Every language-model output is an input here.
 */
module Workflow {
  import opened Wrappers
  import opened PyStr
  import opened PyRepr
  import opened Messages

  /** The graph's steps, with the framework's START and END markers. */
  datatype Node = Start | Agent | Retrieve | Rewrite | Generate | End

  /**
   * The edge table the workflow declares: START to agent; agent to retrieve
   * or END; retrieve to generate or rewrite; rewrite back to agent;
   * generate to END.
   */
  predicate IsEdge(from: Node, to: Node)
    ensures IsEdge(from, to) ==> from != End && to != Start
  {
    match from
    case Start => to == Agent
    case Agent => to == Retrieve || to == End
    case Retrieve => to == Generate || to == Rewrite
    case Rewrite => to == Agent
    case Generate => to == End
    case End => false
  }

  /** The relevance check's routing: only the exact score `"yes"` leads to an answer. */
  function GradeDocuments(binaryScore: string): (next: Node)
    ensures next == Generate || next == Rewrite
    ensures next == Generate <==> binaryScore == "yes"
  {
    if binaryScore == "yes" then Generate else Rewrite
  }

  /** The relevance check compares case-sensitively and does not trim. */
  lemma GradeIsExact()
    ensures GradeDocuments("yes") == Generate
    ensures GradeDocuments("Yes") == Rewrite && GradeDocuments("YES") == Rewrite
    ensures GradeDocuments("yes ") == Rewrite && GradeDocuments("no") == Rewrite
  {
    assert "Yes" != "yes" && "YES" != "yes" && "yes " != "yes";
  }

  /**
   * What the hosted models decided in one step: whether the agent's reply
   * calls a tool, and the relevance model's binary score.
   */
  datatype Decision = Decision(toolCall: bool, binaryScore: string)

  /** The step that follows `n`, or nothing once the run has ended. */
  function Step(n: Node, d: Decision): (next: Option<Node>)
    ensures next.None? <==> n == End
    ensures next.Some? ==> IsEdge(n, next.value)
  {
    match n
    case Start => Some(Agent)
    case Agent => if d.toolCall then Some(Retrieve) else Some(End)
    case Retrieve => Some(GradeDocuments(d.binaryScore))
    case Rewrite => Some(Agent)
    case Generate => Some(End)
    case End => None
  }

  /** Every declared edge is taken for some decision of the models. */
  lemma EveryEdgeIsTaken(from: Node, to: Node)
    requires IsEdge(from, to)
    ensures Step(from, Decision(to == Retrieve, if to == Generate then "yes" else "no")) == Some(to)
  {
  }

  /** The steps visited from `n` when the models decide `ds`, one decision per step. */
  function Trace(n: Node, ds: seq<Decision>): (t: seq<Node>)
    ensures 1 <= |t| <= |ds| + 1 && t[0] == n
    decreases |ds|
  {
    if n == End || |ds| == 0 then [n] else [n] + Trace(Step(n, ds[0]).value, ds[1..])
  }

  /**
   * A trace follows the edge table, each move is the step the decision at
   * that position selects, and END can only be the last step.
   */
  lemma {:induction false} TraceFollowsGraph(n: Node, ds: seq<Decision>)
    ensures forall i :: 0 <= i < |Trace(n, ds)| - 1 ==>
      Trace(n, ds)[i] != End &&
      IsEdge(Trace(n, ds)[i], Trace(n, ds)[i + 1]) &&
      Step(Trace(n, ds)[i], ds[i]) == Some(Trace(n, ds)[i + 1])
    ensures |Trace(n, ds)| == |ds| + 1 || Trace(n, ds)[|Trace(n, ds)| - 1] == End
    decreases |ds|
  {
    if n != End && |ds| > 0 {
      var next := Step(n, ds[0]).value;
      TraceFollowsGraph(next, ds[1..]);
      var t, rest := Trace(n, ds), Trace(next, ds[1..]);
      assert t == [n] + rest;
      forall i | 1 <= i < |t| - 1
        ensures t[i] == rest[i - 1] && t[i + 1] == rest[i] && ds[i] == ds[1..][i - 1]
      {
      }
    }
  }

  /** A conversation turn: the steps from START. */
  function Run(ds: seq<Decision>): seq<Node>
  {
    Trace(Start, ds)
  }

  /**
   * An answer is generated only right after a retrieval that the relevance model
   * scored exactly `"yes"`; a rewrite happens only after a retrieval scored
   * otherwise; a retrieval happens only when the agent called the tool.
   */
  lemma RunRouting(ds: seq<Decision>)
    ensures |Run(ds)| > 1 ==> Run(ds)[1] == Agent
    ensures forall i :: 0 < i < |Run(ds)| && Run(ds)[i] == Generate ==>
      Run(ds)[i - 1] == Retrieve && ds[i - 1].binaryScore == "yes"
    ensures forall i :: 0 < i < |Run(ds)| && Run(ds)[i] == Rewrite ==>
      Run(ds)[i - 1] == Retrieve && ds[i - 1].binaryScore != "yes"
    ensures forall i :: 0 < i < |Run(ds)| && Run(ds)[i] == Retrieve ==>
      Run(ds)[i - 1] == Agent && ds[i - 1].toolCall
  {
    TraceFollowsGraph(Start, ds);
    var t := Run(ds);
    forall i | 0 < i < |t|
      ensures Step(t[i - 1], ds[i - 1]) == Some(t[i])
    {
      assert 0 <= i - 1 < |t| - 1;
    }
  }

  /**
   * A turn that ends does so after the agent answered without calling the
   * tool, or after an answer was generated.
   */
  lemma RunEnds(ds: seq<Decision>)
    requires Run(ds)[|Run(ds)| - 1] == End
    ensures |Run(ds)| >= 3
    ensures var k := |Run(ds)| - 2;
      (Run(ds)[k] == Agent && !ds[k].toolCall) || Run(ds)[k] == Generate
  {
    TraceFollowsGraph(Start, ds);
    var t := Run(ds);
    assert |t| >= 2;
    assert Step(t[|t| - 2], ds[|t| - 2]) == Some(End);
  }

  /** The generator's structured output: the answer and the decision numbers it cites. */
  datatype AgentResponse = AgentResponse(response: string, courtDocumentSources: seq<string>)

  const ReferencesHeading: string := "\n\nReferensi:\n\n"

  /**
   * The message the generate step appends: the answer, followed by the cited
   * decision numbers when there are any; the numbers are also kept, as they
   * are, under the `references` key.
   */
  function GenerateMessage(result: AgentResponse): (m: Message)
    ensures m.role == AI && m.toolCalls == []
    ensures m.additionalKwargs == map["references" := result.courtDocumentSources]
    ensures StartsWith(m.content, result.response)
    ensures m.content == result.response <==> |result.courtDocumentSources| == 0
  {
    var references := result.courtDocumentSources;
    var response := if |references| > 0 then result.response + ReferencesHeading + ListRepr(references)
                    else result.response;
    Message(AI, response, [], map["references" := references])
  }

  /**
   * The text after the heading is the Python rendering of the cited list,
   * and it reads back as exactly that list.
   */
  lemma ReferencesAreReadable(result: AgentResponse)
    requires |result.courtDocumentSources| > 0
    ensures var m := GenerateMessage(result);
      var k := |result.response| + |ReferencesHeading|;
      k <= |m.content| &&
      m.content[..k] == result.response + ReferencesHeading &&
      ParseList(m.content[k..]) == Some(result.courtDocumentSources)
  {
    var m := GenerateMessage(result);
    var k := |result.response| + |ReferencesHeading|;
    assert m.content[k..] == ListRepr(result.courtDocumentSources);
    ListReprRoundTrip(result.courtDocumentSources);
  }
}
