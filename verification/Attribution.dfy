/** For whom things are said: each remark of a translated event belongs to the agent that acts in it. */
module Attribution {
  import opened Events
  import opened Adk
  import opened Narratives

  predicate OfSubagent(e: Event) { e.SubagentStarted? || e.SubagentError? }

  /** The agent stays, and what is said is said for it. */
  predicate Steady(n: Narrative, m: Narrative) {
    && m.agent == n.agent && m.author == n.author && n.remarks <= m.remarks
    && forall i :: |n.remarks| <= i < |m.remarks| ==> m.remarks[i].agent == n.agent && !OfSubagent(m.remarks[i].event)
  }

  lemma SteadyTransitive(a: Narrative, b: Narrative, c: Narrative)
    requires Steady(a, b) && Steady(b, c)
    ensures Steady(a, c)
  {
    assert forall i :: 0 <= i < |b.remarks| ==> b.remarks[i] == c.remarks[i];
  }

  lemma NotedSteady(n: Narrative, e: Event)
    requires !OfSubagent(e)
    ensures Steady(n, Noted(n, e))
  {
  }

  lemma ToolUseSteady(n: Narrative, name: string, args: Args)
    ensures Steady(n, ToolUseNoted(n, name, args))
  {
  }

  lemma TextSteady(config: Config, n: Narrative, partial: bool, author: string)
    ensures Steady(n, TextNoted(config, n, partial, author))
  {
  }

  lemma ThoughtSteady(n: Narrative, signature: string, partial: bool)
    ensures Steady(n, ThoughtNoted(n, signature, partial))
  {
  }

  lemma SpeechSteady(config: Config, n: Narrative, p: Part, partial: bool, author: string)
    ensures Steady(n, SpeechNoted(config, n, p, partial, author))
  {
    if p.Reasoning() {
      ThoughtSteady(n, p.signature, partial);
    } else if p.text != "" || p.fileData.Some? || p.inlineData.Some? {
      TextSteady(config, n, partial, author);
    } else if p.executableCode.Some? {
      NotedSteady(n, Custom("executable_code", [p.executableCode.value.0, p.executableCode.value.1]));
    } else if p.codeResult.Some? {
      NotedSteady(n, Custom("code_execution_result", [p.codeResult.value.0, p.codeResult.value.1]));
    }
  }

  lemma AnnouncedSteady(config: Config, n: Narrative, id: ID, name: string)
    ensures Steady(n, Announced(config, n, id, name))
  {
    var m := Noted(n, ToolCallStart(id, name, None)).(started := n.started + {id});
    SteadyTransitive(n, m, ProgressBegun(config, m, id, name));
  }

  lemma {:induction false} FragmentsSteady(config: Config, n: Narrative, id: ID, fragments: seq<string>)
    ensures Steady(n, FragmentsNoted(config, n, id, fragments))
  {
    if fragments != [] {
      var m, last := FragmentsNoted(config, n, id, fragments[..|fragments| - 1]), fragments[|fragments| - 1];
      FragmentsSteady(config, n, id, fragments[..|fragments| - 1]);
      SteadyTransitive(n, m, if last == "" then m else ProgressNoted(config, m, id, last));
    }
  }

  lemma ProposalSteady(config: Config, n: Narrative, fc: FunctionCall, partial: bool, id: ID)
    ensures Steady(n, ProposalNoted(config, n, fc, partial, id))
  {
    if partial {
      var m := if id in n.started then n else Announced(config, n, id, fc.name);
      AnnouncedSteady(config, n, id, fc.name);
      FragmentsSteady(config, m, id, fc.fragments);
      SteadyTransitive(n, m, FragmentsNoted(config, m, id, fc.fragments));
    }
  }

  lemma IdentifiedSteady(config: Config, n: Narrative, fc: FunctionCall, partial: bool, id: ID)
    ensures Steady(n, IdentifiedNoted(config, n, fc, partial, id))
  {
    var m := Recorded(n, fc.id, fc.name, id, fc.args);
    assert Steady(n, m) && Steady(n, Drawn(n));
    if config.ServerSide(fc.name) {
      ToolUseSteady(m, fc.name, fc.args);
      SteadyTransitive(n, m, ToolUseNoted(m, fc.name, fc.args));
    } else if !config.Proposed(fc, partial) {
      NotedSteady(Drawn(n), ToolCallResult(Generated(n.serial), id, MalformedCall(fc)));
    } else {
      ProposalSteady(config, m, fc, partial, id);
      SteadyTransitive(n, m, ProposalNoted(config, m, fc, partial, id));
    }
  }

  lemma CallSteady(config: Config, n: Narrative, fc: FunctionCall, partial: bool)
    ensures Steady(n, CallNoted(config, n, fc, partial))
  {
    IdentifiedSteady(config, n, fc, partial, Given(fc.id));
    IdentifiedSteady(config, Drawn(n), fc, partial, Generated(n.serial));
  }

  lemma ResultSteady(n: Narrative, call: ID, content: string)
    ensures Steady(n, ResultNoted(n, call, content))
  {
    var m := if call in n.details then ToolUseNoted(n, n.details[call].name, n.details[call].args) else n;
    SteadyTransitive(n, m, ResultNoted(n, call, content));
  }

  lemma ResponseSteady(n: Narrative, id: string, name: string, content: string)
    ensures Steady(n, ResponseNoted(n, id, name, content))
  {
    if id in n.known {
      ResultSteady(n, n.known[id], content);
    } else if name in n.known {
      ResultSteady(n, n.known[name], content);
    }
  }

  lemma BuiltinSteady(config: Config, n: Narrative, tc: BuiltinCall)
    ensures Steady(n, BuiltinNoted(config, n, tc))
  {
    var d, id := if tc.id != "" then n else Drawn(n), if tc.id != "" then Given(tc.id) else Generated(n.serial);
    var m := Recorded(d, tc.id, BuiltinName(tc), id, tc.args);
    ToolUseSteady(m, BuiltinName(tc), tc.args);
    SteadyTransitive(n, m, BuiltinNoted(config, n, tc));
  }

  lemma PartSteady(config: Config, n: Narrative, p: Part, partial: bool, author: string)
    ensures Steady(n, PartNoted(config, n, p, partial, author))
  {
    var m := Silenced(n);
    SpeechSteady(config, n, p, partial, author);
    if p.ToolPart() {
      if p.functionCall.Some? {
        CallSteady(config, m, p.functionCall.value, partial);
      } else if p.functionResponse.Some? {
        var fr := p.functionResponse.value;
        ResponseSteady(m, fr.id, fr.name, fr.content);
      } else if p.toolCall.Some? {
        BuiltinSteady(config, m, p.toolCall.value);
      } else {
        var tr := p.toolResponse.value;
        ResponseSteady(m, tr.id, tr.toolType, tr.content);
      }
      SteadyTransitive(n, m, ToolPartNoted(config, m, p, partial));
    }
  }

  lemma {:induction false} PartsSteady(config: Config, n: Narrative, parts: seq<Option<Part>>, partial: bool, author: string)
    ensures Steady(n, PartsNoted(config, n, parts, partial, author))
  {
    if parts != [] {
      var before, last := parts[..|parts| - 1], parts[|parts| - 1];
      var m := PartsNoted(config, n, before, partial, author);
      PartsSteady(config, n, before, partial, author);
      if last.Some? {
        PartSteady(config, m, last.value, partial, author);
      }
      SteadyTransitive(n, m, OptionalNoted(config, m, last, partial, author));
    }
  }

  lemma MetadataSteady(n: Narrative, ev: AdkEvent)
    ensures Steady(n, MetadataNoted(n, ev)) && Steady(n, FailureNoted(n, ev))
  {
    var m := if ev.citations.Some? then Noted(n, Custom("citation_metadata", [ev.citations.value])) else n;
    SteadyTransitive(n, m, MetadataNoted(n, ev));
  }

  lemma AllPartsSteady(config: Config, n: Narrative, ev: AdkEvent)
    ensures Steady(n, AllPartsNoted(config, FailureNoted(n, ev), ev))
  {
    var m := FailureNoted(n, ev);
    MetadataSteady(n, ev);
    MetadataSteady(m, ev);
    PartsSteady(config, MetadataNoted(m, ev), ev.parts, ev.partial, ev.author);
    SteadyTransitive(m, MetadataNoted(m, ev), PartsNoted(config, MetadataNoted(m, ev), ev.parts, ev.partial, ev.author));
    SteadyTransitive(n, m, AllPartsNoted(config, m, ev));
  }

  // ----- Whole events -----

  predicate FromRoot(config: Config, author: string) { author in {"", "user", "model", config.rootAgentName} }

  /** The agent that acts: none for the root, the one that acted before for the same author, and
      a new one for any other, announced before everything else. */
  predicate Acts(config: Config, n: Narrative, ev: AdkEvent, said: seq<Emitted>, agent: Option<ID>) {
    if FromRoot(config, ev.author) then agent == None
    else if ev.author == n.author then agent == n.agent
    else
      said != [] && agent.Some? && said[0] == Emitted(None, SubagentStarted(agent.value, ev.author))
  }

  /** A sub-agent starts at most where its event begins, and fails at most where it ends; all
      else is said for the acting agent. */
  predicate SaidFor(config: Config, n: Narrative, ev: AdkEvent, said: seq<Emitted>, agent: Option<ID>, i: nat)
    requires i < |said|
  {
    match said[i].event
    case SubagentStarted(id, _) =>
      i == 0 && said[i].agent == None && agent == Some(id) && ev.author != n.author && !FromRoot(config, ev.author)
    case SubagentError(id, _, _) => i == |said| - 1 && said[i].agent == None && agent == Some(id) && ev.Failed()
    case _ => said[i].agent == agent
  }

  predicate Attributed(config: Config, n: Narrative, ev: AdkEvent, said: seq<Emitted>, agent: Option<ID>) {
    Acts(config, n, ev, said, agent) && forall i :: 0 <= i < |said| ==> SaidFor(config, n, ev, said, agent, i)
  }

  /** A new author's sub-agent starts. */
  lemma AuthorSays(config: Config, n: Narrative, author: string, start: seq<Emitted>)
    requires start == if FromRoot(config, author) || author == n.author then [] else [Emitted(None, SubagentStarted(Generated(n.serial), author))]
    ensures
      var a := AuthorNoted(config, n, author);
      && a.remarks == n.remarks + start && a.author == (if FromRoot(config, author) then "" else author)
      && a.agent == if FromRoot(config, author) then None else if author == n.author then n.agent else Some(Generated(n.serial))
  {
    assert config.RootAuthor(author) <==> FromRoot(config, author);
  }

  lemma DeltaSays(n: Narrative, delta: map<string, string>, said: seq<Emitted>)
    requires said == if delta == map[] then [] else [Emitted(n.agent, StateDelta(Replacements(delta)))]
    ensures DeltaNoted(n, delta) == n.(remarks := n.remarks + said)
  {
  }

  lemma HeaderAttributed(config: Config, n: Narrative, ev: AdkEvent)
    ensures
      var h := HeaderNoted(config, n, ev);
      && n.remarks <= h.remarks && h.author == (if FromRoot(config, ev.author) then "" else ev.author)
      && Attributed(config, n, ev, h.remarks[|n.remarks|..], h.agent)
  {
    var a, h := AuthorNoted(config, n, ev.author), HeaderNoted(config, n, ev);
    var start := if FromRoot(config, ev.author) || ev.author == n.author then []
                 else [Emitted(None, SubagentStarted(Generated(n.serial), ev.author))];
    var delta := if ev.stateDelta == map[] then [] else [Emitted(a.agent, StateDelta(Replacements(ev.stateDelta)))];
    AuthorSays(config, n, ev.author, start);
    DeltaSays(a, ev.stateDelta, delta);
    assert h.remarks[|n.remarks|..] == start + delta;
    StartThenDelta(config, n, ev, a.agent, start, delta);
  }

  lemma StartThenDelta(config: Config, n: Narrative, ev: AdkEvent, agent: Option<ID>, start: seq<Emitted>, delta: seq<Emitted>)
    requires if FromRoot(config, ev.author) then start == [] && agent == None
             else if ev.author == n.author then start == [] && agent == n.agent
             else agent.Some? && start == [Emitted(None, SubagentStarted(agent.value, ev.author))]
    requires |delta| <= 1 && forall i :: 0 <= i < |delta| ==> delta[i].agent == agent && delta[i].event.StateDelta?
    ensures Attributed(config, n, ev, start + delta, agent)
  {
  }

  lemma MoreAttributed(config: Config, n: Narrative, ev: AdkEvent, h: Narrative, m: Narrative)
    requires n.remarks <= h.remarks && Attributed(config, n, ev, h.remarks[|n.remarks|..], h.agent) && Steady(h, m)
    requires forall i :: |n.remarks| <= i < |h.remarks| ==> !h.remarks[i].event.SubagentError?
    ensures Attributed(config, n, ev, m.remarks[|n.remarks|..], h.agent)
  {
    var said, all := h.remarks[|n.remarks|..], m.remarks[|n.remarks|..];
    forall i | 0 <= i < |all| ensures SaidFor(config, n, ev, all, h.agent, i) {
      if i < |said| {
        assert all[i] == said[i] == h.remarks[|n.remarks| + i] && SaidFor(config, n, ev, said, h.agent, i);
      } else {
        assert all[i] == m.remarks[|n.remarks| + i];
      }
    }
    if said != [] {
      assert all[0] == said[0];
    }
  }

  lemma HeaderHasNoError(config: Config, n: Narrative, ev: AdkEvent)
    ensures
      var h := HeaderNoted(config, n, ev);
      forall i :: |n.remarks| <= i < |h.remarks| ==> !h.remarks[i].event.SubagentError?
  {
  }

  /** What an event says is said for the agent that acts in it, and that agent acts on for the
      same author, unless it failed. */
  lemma EventAttributed(config: Config, n: Narrative, ev: AdkEvent) returns (agent: Option<ID>)
    ensures
      var m := EventNoted(config, n, ev);
      && n.remarks <= m.remarks && Attributed(config, n, ev, m.remarks[|n.remarks|..], agent)
      && if FromRoot(config, ev.author) || (ev.Failed() && agent.Some?) then m.agent == None && m.author == ""
         else m.agent == agent && m.author == ev.author
  {
    var h, m := HeaderNoted(config, n, ev), EventNoted(config, n, ev);
    agent := h.agent;
    HeaderAttributed(config, n, ev);
    HeaderHasNoError(config, n, ev);
    if ev.Failed() && agent.Some? {
      FailureAttributed(config, n, ev, h, m);
    } else {
      AllPartsSteady(config, h, ev);
      MoreAttributed(config, n, ev, h, m);
    }
  }

  lemma FailureAttributed(config: Config, n: Narrative, ev: AdkEvent, h: Narrative, m: Narrative)
    requires n.remarks <= h.remarks && Attributed(config, n, ev, h.remarks[|n.remarks|..], h.agent) && ev.Failed() && h.agent.Some?
    requires forall i :: |n.remarks| <= i < |h.remarks| ==> !h.remarks[i].event.SubagentError?
    requires m == ContentNoted(config, h, ev)
    ensures Attributed(config, n, ev, m.remarks[|n.remarks|..], h.agent)
  {
    var said, all := h.remarks[|n.remarks|..], m.remarks[|n.remarks|..];
    var error := Emitted(None, SubagentError(h.agent.value, SubagentFailure(ev.errorCode, ev.errorMessage), ev.errorCode));
    assert m.remarks == h.remarks + [error] && all == said + [error];
    forall i | 0 <= i < |all| ensures SaidFor(config, n, ev, all, h.agent, i) {
      if i < |said| {
        assert all[i] == said[i] == h.remarks[|n.remarks| + i] && SaidFor(config, n, ev, said, h.agent, i);
      }
    }
    if said != [] {
      assert all[0] == said[0];
    }
  }
}
