/** The routing decision of the Gemini front end
    (`ai_agent/agents/gemini_orchestrator.py`). Whether the client was
    configured and what the model replied, or the exception it raised, are
    inputs. */
module Gemini {
  import opened Wrappers
  import opened Text

  const NotConfigured := "Gemini is not configured. Please check your .env file."
  const CodeWord := "CODE"

  /** A pattern without whitespace occurs in a string exactly when it occurs
      in a slice outside which there is only whitespace. */
  lemma SliceKeepsPattern(u: string, a: nat, b: nat, p: string)
    requires a <= b <= |u|
    requires forall i | 0 <= i < a :: IsSpace(u[i])
    requires forall i | b <= i < |u| :: IsSpace(u[i])
    requires |p| > 0 && forall k | 0 <= k < |p| :: !IsSpace(p[k])
    ensures Contains(u[a..b], p) <==> Contains(u, p)
  {
    ContainsSlice(u, a, b, p);
    if Contains(u, p) {
      var i :| 0 <= i <= |u| - |p| && OccursAt(u, p, i);
      assert u[i..i + |p|] == p;
      assert u[i] == p[0] && !IsSpace(u[i]);
      assert u[i + |p| - 1] == p[|p| - 1] && !IsSpace(u[i + |p| - 1]);
      assert a <= i && i + |p| <= b;
      var x, y := u[a..b][i - a..i - a + |p|], u[i..i + |p|];
      assert forall k | 0 <= k < |p| :: x[k] == y[k];
      assert x == y;
      assert OccursAt(u[a..b], p, i - a);
    }
  }

  /** Upper-casing keeps whitespace where it was. */
  lemma UpperKeepsSpace(text: string, lo: nat, hi: nat)
    requires lo <= hi <= |text|
    requires forall i | lo <= i < hi :: IsSpace(text[i])
    ensures forall i | lo <= i < hi :: IsSpace(Upper(text)[i])
  {
    var u := Upper(text);
    forall i | lo <= i < hi
      ensures IsSpace(u[i])
    {
      assert u[i] == UpperChar(text[i]);
    }
  }

  /** After upper-casing, what `strip()` removes is still whitespace. */
  lemma UpperSurround(text: string)
    ensures var u, a := Upper(text), LeadCount(text);
      && a + |Strip(text)| <= |u|
      && (forall i | 0 <= i < a :: IsSpace(u[i]))
      && (forall i | a + |Strip(text)| <= i < |u| :: IsSpace(u[i]))
  {
    StripSurround(text);
    UpperKeepsSpace(text, 0, LeadCount(text));
    UpperKeepsSpace(text, LeadCount(text) + |Strip(text)|, |text|);
  }

  /** The code word is non-empty and holds no whitespace. */
  lemma CodeWordUnspaced()
    ensures |CodeWord| > 0 && forall k | 0 <= k < |CodeWord| :: !IsSpace(CodeWord[k])
  {
    assert CodeWord[0] == 'C' && CodeWord[1] == 'O' && CodeWord[2] == 'D' && CodeWord[3] == 'E';
  }

  /** Surrounding whitespace never changes the decision. */
  lemma DecisionIgnoresWhitespace(text: string)
    ensures Contains(Upper(Strip(text)), CodeWord) <==> Contains(Upper(text), CodeWord)
  {
    var a := LeadCount(text);
    var b := a + |Strip(text)|;
    UpperSurround(text);
    assert Strip(text) == text[a..b];
    UpperSlice(text, a, b);
    CodeWordUnspaced();
    SliceKeepsPattern(Upper(text), a, b, CodeWord);
  }

  /** `analyze_task(task)`: the dictionary it returns, with the model's
      reply (or the exception the call raised) as input. */
  function AnalyzeTask(configured: bool, reply: Result<string>): (r: map<string, string>)
    ensures "action" in r && r["action"] in {"code", "chat", "error"}
    ensures r["action"] == "error" <==> !configured
    ensures !configured ==> r == map["action" := "error", "details" := "Gemini not configured"]
    ensures configured && reply.Ok? ==>
              && (r["action"] == "code" <==> Contains(Upper(reply.value), CodeWord))
              && "original_response" in r && r["original_response"] == reply.value
    ensures configured && reply.Raised? ==>
              r["action"] == "chat" && "error" in r && r["error"] == reply.msg
  {
    if !configured then map["action" := "error", "details" := "Gemini not configured"]
    else match reply
      case Ok(text) =>
        var decision := Upper(Strip(text));
        DecisionIgnoresWhitespace(text);
        map["action" := if Contains(decision, CodeWord) then "code" else "chat", "original_response" := text]
      case Raised(e) => map["action" := "chat", "error" := e]
  }

  /** `process_request(user_input, history)`: the fixed message when the
      client is not configured, otherwise the reply text or the error. */
  function ProcessRequest(configured: bool, reply: Result<string>): (r: string)
    ensures !configured ==> r == NotConfigured
    ensures configured && reply.Ok? ==> r == reply.value
    ensures configured && reply.Raised? ==> r == "Error processing request: " + reply.msg
  {
    if !configured then NotConfigured
    else match reply
      case Ok(text) => text
      case Raised(e) => "Error processing request: " + e
  }
}
