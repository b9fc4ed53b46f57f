/** Translation of ADK events into the AG-UI stream (aguiadk/bridge.go, eventTranslator). */
module Translator {
  import opened Events
  import opened Protocol
  import opened Adk
  import opened Effects
  import opened Narratives
  import opened Transcripts

  /** The calls a client shows as open, those that got text, and those ever streamed. */
  ghost predicate CallsAgree(calls: map<ID, string>, open: set<ID>, partial: set<ID>, started: set<ID>) {
    && calls.Keys == open && partial <= open <= started
    && forall id :: id in open ==> (id in partial <==> calls[id] != "")
  }

  lemma CallsAgreeOpened(calls: map<ID, string>, open: set<ID>, partial: set<ID>, started: set<ID>, id: ID)
    requires CallsAgree(calls, open, partial, started) && id !in started
    ensures CallsAgree(calls[id := ""], open + {id}, partial, started + {id})
  {
  }

  /** Per-run translation state. */
  class EventTranslator {
    const config: Config
    const emitter: EventEmitter
    var activeAgent: Option<ID>            // tag of the active emitter
    var currentMsgID: ID
    var msgOpen: bool
    var prevText: string
    var reasoningOpen: bool
    var currentReasoningID: ID
    var prevThoughtText: string
    var toolCallIDs: map<string, ID>
    var toolCallDetails: map<ID, ToolCallDetail>
    var startedTools: set<ID>
    var openTools: set<ID>
    var hadPartialArgs: set<ID>
    var stepOpen: bool
    var stepName: string
    var activityMsgIDs: map<ID, ID>
    var usageEntries: seq<Usage>
    var currentAuthor: string
    var activeSubagentRun: Option<ID>
    var subagentEmitted: bool

    /** What the client shows after the events emitted so far. */
    ghost function Shown(): View
      reads emitter`out
    {
      Scan(emitter.out).view
    }

    /** The fields mirror what the client shows, the calls as long as it follows them. */
    ghost predicate Synced(v: View)
      requires v.View?
      reads this`msgOpen, this`currentMsgID, this`prevText, this`reasoningOpen, this`currentReasoningID, this`prevThoughtText
      reads this`openTools, this`hadPartialArgs, this`startedTools, this`stepOpen, this`stepName, this`activeSubagentRun
    {
      && v.text == (if msgOpen then Some(Open(currentMsgID, prevText)) else None)
      && v.thought == (if reasoningOpen then Some(Open(currentReasoningID, prevThoughtText)) else None)
      && v.thoughtBody == reasoningOpen
      && (v.calls.Calls? ==> CallsAgree(v.calls.open, openTools, hadPartialArgs, startedTools))
      && v.step == (if stepOpen then Some(stepName) else None)
      && v.agent == activeSubagentRun
    }

    ghost predicate Valid()
      reads this`msgOpen, this`currentMsgID, this`prevText, this`reasoningOpen, this`currentReasoningID, this`prevThoughtText
      reads this`openTools, this`hadPartialArgs, this`startedTools, this`stepOpen, this`stepName, this`activeSubagentRun
      reads this`activeAgent, this`currentAuthor, this`subagentEmitted, emitter
    {
      && Scan(emitter.out).phase.Running?
      && activeAgent == activeSubagentRun
      && (activeSubagentRun.Some? <==> currentAuthor != "")
      && (currentAuthor != "" ==> !config.RootAuthor(currentAuthor))
      && subagentEmitted == activeSubagentRun.Some?
      && Shown().View? && Synced(Shown())
    }

    /** What has been said beyond the content, and what decides how it goes on. */
    ghost function Narrated(): Narrative
      reads this`activeAgent, this`currentAuthor, this`msgOpen, this`reasoningOpen, this`currentReasoningID
      reads this`startedTools, this`toolCallIDs, this`toolCallDetails, this`activityMsgIDs, emitter
    {
      Narrative(activeAgent, currentAuthor, msgOpen, if reasoningOpen then Some(currentReasoningID) else None, emitter.serial,
                startedTools, toolCallIDs, toolCallDetails, activityMsgIDs, Remarks(emitter.out))
    }

    /** The content the client holds. */
    ghost function Told(): Transcript
      requires Shown().View?
      reads this`startedTools, emitter`out
    {
      Heard(Shown(), startedTools)
    }

    constructor (config: Config, emitter: EventEmitter)
      requires Scan(emitter.out).phase.Running? && Scan(emitter.out).view.Idle()
      ensures Valid() && this.config == config && this.emitter == emitter
      ensures Told() == Heard(Shown(), {}) && usageEntries == []
      ensures Narrated() == Beginning(emitter.serial, Remarks(emitter.out))
    {
      this.config, this.emitter := config, emitter;
      activeAgent := None;
      currentMsgID, msgOpen, prevText := Given(""), false, "";
      reasoningOpen, currentReasoningID, prevThoughtText := false, Given(""), "";
      toolCallIDs, toolCallDetails := map[], map[];
      startedTools, openTools, hadPartialArgs := {}, {}, {};
      stepOpen, stepName := false, "";
      activityMsgIDs := map[];
      usageEntries := [];
      currentAuthor, activeSubagentRun, subagentEmitted := "", None, false;
    }

    /** Emission through the active emitter. */
    method Emit(e: Event)
      requires !e.Lifecycle() && Scan(emitter.out).phase.Running?
      modifies emitter`out
      ensures emitter.out == old(emitter.out) + [Emitted(activeAgent, e)]
      ensures Scan(emitter.out) == Client(Running, NextView(old(Shown()), Emitted(activeAgent, e)))
      ensures Narrated() == if Remark(e) then Noted(old(Narrated()), e) else old(Narrated())
    {
      emitter.Emit(activeAgent, e);
      RemarksAppend(old(emitter.out), Emitted(activeAgent, e));
      ScanAppend(old(emitter.out), Emitted(activeAgent, e));
    }

    /** Emission of sub-agent lifecycle events through the base emitter. */
    method EmitLifecycle(e: Event)
      requires e.SubagentStarted? || e.SubagentFinished? || e.SubagentError?
      requires Scan(emitter.out).phase.Running?
      modifies emitter`out
      ensures emitter.out == old(emitter.out) + [Emitted(None, e)]
      ensures Scan(emitter.out) == Client(Running, NextView(old(Shown()), Emitted(None, e)))
      ensures Narrated() == if Remark(e) then NotedAbove(old(Narrated()), e) else old(Narrated())
    {
      emitter.Emit(None, e);
      RemarksAppend(old(emitter.out), Emitted(None, e));
      ScanAppend(old(emitter.out), Emitted(None, e));
    }

    // ----- The fields that the narrative records -----

    method ShowText(id: ID)
      modifies this`msgOpen, this`currentMsgID, this`prevText
      ensures msgOpen && currentMsgID == id && prevText == "" && Narrated() == old(Narrated()).(speaking := true)
    {
      currentMsgID, msgOpen, prevText := id, true, "";
    }

    method HideText()
      modifies this`msgOpen, this`prevText
      ensures !msgOpen && prevText == "" && Narrated() == old(Narrated()).(speaking := false)
    {
      msgOpen, prevText := false, "";
    }

    method ShowThought(id: ID)
      modifies this`reasoningOpen, this`currentReasoningID, this`prevThoughtText
      ensures reasoningOpen && currentReasoningID == id && prevThoughtText == ""
      ensures Narrated() == old(Narrated()).(thinking := Some(id))
    {
      currentReasoningID, reasoningOpen, prevThoughtText := id, true, "";
    }

    method HideThought()
      modifies this`reasoningOpen, this`currentReasoningID, this`prevThoughtText
      ensures !reasoningOpen && prevThoughtText == "" && Narrated() == old(Narrated()).(thinking := None)
    {
      reasoningOpen, prevThoughtText, currentReasoningID := false, "", Given("");
    }

    method SetAgent(run: Option<ID>, author: string)
      modifies this`activeSubagentRun, this`currentAuthor, this`subagentEmitted, this`activeAgent
      ensures activeSubagentRun == activeAgent == run && currentAuthor == author && subagentEmitted == run.Some?
      ensures Narrated() == old(Narrated()).(agent := run, author := author)
    {
      activeSubagentRun, currentAuthor, subagentEmitted, activeAgent := run, author, run.Some?, run;
    }

    method MarkStarted(id: ID)
      modifies this`startedTools, this`openTools
      ensures startedTools == old(startedTools) + {id} && openTools == old(openTools) + {id}
      ensures Narrated() == old(Narrated()).(started := old(startedTools) + {id})
    {
      startedTools := startedTools + {id};
      openTools := openTools + {id};
    }

    method DrawID() returns (id: ID)
      modifies emitter`serial
      ensures id == Generated(old(emitter.serial)) && emitter.serial == old(emitter.serial) + 1
      ensures Narrated() == Drawn(old(Narrated()))
    {
      id := emitter.GenerateID();
    }

    // ----- Groups of events that belong together -----

    method EmitReasoningStart(id: ID)
      requires Scan(emitter.out).phase.Running?
      requires Shown().View? ==> Shown().agent == activeAgent && Shown().text.None? && Shown().thought.None?
      modifies emitter`out
      ensures Scan(emitter.out) == Client(Running, ThoughtOpened(old(Shown()), id))
      ensures Narrated() == old(Narrated())
    {
      ReasoningBegun(Shown(), activeAgent, id);
      Emit(ReasoningStart(id));
      Emit(ReasoningMessageStart(id));
    }

    method EmitReasoningEnd(id: ID)
      requires Scan(emitter.out).phase.Running?
      requires var v := Shown(); v.View? ==> v.agent == activeAgent && v.thought.Some? && v.thought.value.id == id && v.thoughtBody
      modifies emitter`out
      ensures Scan(emitter.out) == Client(Running, ThoughtClosed(old(Shown())))
      ensures Narrated() == old(Narrated())
    {
      ReasoningEnded(Shown(), activeAgent, id);
      Emit(ReasoningMessageEnd(id));
      Emit(ReasoningEnd(id));
    }

    method EmitCallStart(id: ID, name: string)
      requires Scan(emitter.out).phase.Running? && (Shown().View? ==> Shown().agent == activeAgent)
      modifies emitter`out
      ensures Scan(emitter.out).phase.Running?
      ensures Shown() == if old(Shown()).Has(id) then CallsLost(old(Shown())) else CallOpened(old(Shown()), id)
      ensures Narrated() == Noted(old(Narrated()), ToolCallStart(id, name, None))
    {
      Emit(ToolCallStart(id, name, None));
    }

    method EmitArgsAndEnd(id: ID, args: Args)
      requires Scan(emitter.out).phase.Running? && (Shown().View? ==> Shown().agent == activeAgent)
      modifies emitter`out
      ensures Scan(emitter.out) == Client(Running, ArgsAndEnd(old(Shown()), id, args))
      ensures Narrated() == old(Narrated())
    {
      ArgsAndEndShown(Shown(), activeAgent, id, args);
      if args.Json? {
        Emit(ToolCallArgs(id, args.text));
      }
      Emit(ToolCallEnd(id));
    }

    method EmitCall(id: ID, name: string, args: Args)
      requires Scan(emitter.out).phase.Running? && (Shown().View? ==> Shown().agent == activeAgent)
      modifies emitter`out
      ensures Scan(emitter.out).phase.Running?
      ensures Shown() == CallShown(old(Shown()), id, args)
      ensures Narrated() == Noted(old(Narrated()), ToolCallStart(id, name, None))
    {
      WholeCall(Shown(), id, args);
      EmitCallStart(id, name);
      EmitArgsAndEnd(id, args);
    }

    /** The end of a streamed call, after its full arguments if none were streamed. */
    method EmitStreamedEnd(id: ID, args: Args)
      requires Scan(emitter.out).phase.Running? && (Shown().View? ==> Shown().agent == activeAgent)
      requires Shown().Has(id) ==> (id in hadPartialArgs <==> Shown().calls.open[id] != "")
      modifies emitter`out
      ensures Scan(emitter.out) == Client(Running, CallFinished(old(Shown()), true, id, args))
      ensures Narrated() == old(Narrated())
    {
      StreamedCallShown(Shown(), activeAgent, id, args, id in hadPartialArgs);
      if args.Json? && id !in hadPartialArgs {
        Emit(ToolCallArgs(id, args.text));
      }
      Emit(ToolCallEnd(id));
    }

    method EmitCallEnd(id: ID)
      requires Scan(emitter.out).phase.Running? && (Shown().View? ==> Shown().agent == activeAgent)
      modifies emitter`out
      ensures Scan(emitter.out) == Client(Running, CallEnded(old(Shown()), id)) && Narrated() == old(Narrated())
    {
      Emit(ToolCallEnd(id));
    }

    method EmitFragment(id: ID, fragment: string)
      requires Scan(emitter.out).phase.Running? && (Shown().View? ==> Shown().agent == activeAgent) && fragment != ""
      modifies emitter`out
      ensures Scan(emitter.out) == Client(Running, FragmentsArrive(old(Shown()), id, fragment)) && Narrated() == old(Narrated())
    {
      Emit(ToolCallArgs(id, fragment));
    }

    method EmitStepStarted(name: string)
      requires Scan(emitter.out).phase.Running? && (Shown().View? ==> Shown().agent == activeAgent && Shown().step.None?)
      modifies emitter`out
      ensures Scan(emitter.out) == Client(Running, Stepping(old(Shown()), name)) && Narrated() == old(Narrated())
    {
      Emit(StepStarted(name));
    }

    method EmitStepFinished(name: string)
      requires Scan(emitter.out).phase.Running? && (Shown().View? ==> Shown().agent == activeAgent && Shown().step == Some(name))
      modifies emitter`out
      ensures Scan(emitter.out) == Client(Running, StepClosed(old(Shown()))) && Narrated() == old(Narrated())
    {
      Emit(StepFinished(name));
    }

    method EmitSubagentStarted(run: ID, author: string)
      requires Scan(emitter.out).phase.Running? && (Shown().View? ==> Shown().agent.None?)
      modifies emitter`out
      ensures Scan(emitter.out) == Client(Running, AgentIs(old(Shown()), Some(run)))
      ensures Narrated() == NotedAbove(old(Narrated()), SubagentStarted(run, author))
    {
      EmitLifecycle(SubagentStarted(run, author));
    }

    method EmitSubagentEnd(e: Event)
      requires e.SubagentFinished? || e.SubagentError?
      requires Scan(emitter.out).phase.Running? && (Shown().View? ==> Shown().agent == Some(e.id))
      modifies emitter`out
      ensures Scan(emitter.out) == Client(Running, AgentIs(old(Shown()), None))
      ensures Narrated() == if e.SubagentError? then NotedAbove(old(Narrated()), e) else old(Narrated())
    {
      EmitLifecycle(e);
    }

    method EmitTextStart(id: ID, name: string)
      requires Scan(emitter.out).phase.Running?
      requires Shown().View? ==> Shown().agent == activeAgent && Shown().text.None? && Shown().thought.None?
      modifies emitter`out
      ensures Scan(emitter.out) == Client(Running, TextOpened(old(Shown()), id))
      ensures Narrated() == Noted(old(Narrated()), TextStart(id, Some("assistant"), name))
    {
      Emit(TextStart(id, Some("assistant"), name));
    }

    // ----- Steps -----

    method StartStep(name: string)
      requires Valid() && !stepOpen
      modifies this`stepOpen, this`stepName, emitter`out
      ensures Valid() && Shown() == Stepping(old(Shown()), name)
      ensures Narrated() == old(Narrated())
    {
      EmitStepStarted(name);
      stepOpen, stepName := true, name;
    }

    method CloseOpenStep()
      requires Valid()
      modifies this`stepOpen, emitter`out
      ensures Valid() && !stepOpen && Shown() == StepClosed(old(Shown()))
      ensures Narrated() == old(Narrated())
    {
      if stepOpen {
        EmitStepFinished(stepName);
        stepOpen := false;
      }
    }

    // ----- Text and reasoning -----

    method CloseOpenReasoning()
      requires Valid()
      modifies this`reasoningOpen, this`prevThoughtText, this`currentReasoningID, emitter`out
      ensures Valid() && !reasoningOpen && Shown() == ThoughtClosed(old(Shown()))
      ensures Narrated() == old(Narrated()).(thinking := None)
    {
      if reasoningOpen {
        EmitReasoningEnd(currentReasoningID);
        HideThought();
      }
    }

    method EndText()
      requires Valid()
      modifies this`msgOpen, this`prevText, emitter`out
      ensures Valid() && !msgOpen && Shown() == TextClosed(old(Shown()))
      ensures Narrated() == old(Narrated()).(speaking := false)
    {
      if msgOpen {
        Emit(TextEnd(currentMsgID));
        HideText();
      }
    }

    method CloseOpenMessage()
      requires Valid()
      modifies this`msgOpen, this`prevText
      modifies this`reasoningOpen, this`prevThoughtText, this`currentReasoningID, emitter`out
      ensures Valid() && !msgOpen && !reasoningOpen
      ensures Shown() == ThoughtClosed(TextClosed(old(Shown())))
      ensures Told() == ThoughtEnds(TextEnds(old(Told())))
      ensures Narrated() == Silenced(old(Narrated()))
    {
      TextEndsHeard(Shown(), startedTools);
      ThoughtEndsHeard(TextClosed(Shown()), startedTools);
      EndText();
      CloseOpenReasoning();
    }

    method OpenText(author: string)
      requires Valid() && !reasoningOpen
      modifies this`msgOpen, this`prevText, this`currentMsgID, emitter
      ensures Valid() && msgOpen && Shown() == TextOpened(old(Shown()), Generated(old(emitter.serial)))
      ensures emitter.serial >= old(emitter.serial)
      ensures Narrated() == TextBegun(config, old(Narrated()), author)
    {
      if !msgOpen {
        var id := DrawID();
        BeginText(id, if config.RootAuthor(author) then "" else author);
      }
    }

    method BeginText(id: ID, name: string)
      requires Valid() && !reasoningOpen && !msgOpen
      modifies this`msgOpen, this`prevText, this`currentMsgID, emitter`out
      ensures Valid() && msgOpen && Shown() == TextOpened(old(Shown()), id)
      ensures Narrated() == Noted(old(Narrated()).(speaking := true), TextStart(id, Some("assistant"), name))
    {
      EmitTextStart(id, name);
      ShowText(id);
    }

    method StreamText(text: string)
      requires Valid() && msgOpen
      modifies this`prevText, emitter`out
      ensures Valid() && Shown() == TextStreamed(old(Shown()), text)
      ensures Narrated() == old(Narrated())
    {
      var delta := DeltaOf(prevText, text);
      if delta != "" {
        Emit(TextContent(currentMsgID, delta));
      }
      prevText := prevText + delta;
    }

    method EmitText(text: string, partial: bool, author: string)
      requires Valid()
      modifies this`msgOpen, this`prevText, this`currentMsgID
      modifies this`reasoningOpen, this`prevThoughtText, this`currentReasoningID, emitter
      ensures Valid()
      ensures Shown() == TextArrives(old(Shown()), Generated(old(emitter.serial)), text, partial)
      ensures Told() == TextTold(old(Told()), text, partial)
      ensures emitter.serial >= old(emitter.serial)
      ensures Narrated() == TextNoted(config, old(Narrated()), partial, author)
    {
      TextHeard(Shown(), startedTools, Generated(emitter.serial), text, partial);
      CloseOpenReasoning();
      OpenText(author);
      StreamText(text);
      if !partial {
        EndText();
      }
    }

    method OpenThought()
      requires Valid() && !msgOpen
      modifies this`reasoningOpen, this`prevThoughtText, this`currentReasoningID, emitter
      ensures Valid() && reasoningOpen && Shown() == ThoughtOpened(old(Shown()), Generated(old(emitter.serial)))
      ensures emitter.serial >= old(emitter.serial)
      ensures Narrated() == ThoughtBegun(old(Narrated()))
    {
      if !reasoningOpen {
        var id := DrawID();
        BeginThought(id);
      }
    }

    method BeginThought(id: ID)
      requires Valid() && !reasoningOpen && !msgOpen
      modifies this`reasoningOpen, this`prevThoughtText, this`currentReasoningID, emitter`out
      ensures Valid() && reasoningOpen && Shown() == ThoughtOpened(old(Shown()), id)
      ensures Narrated() == old(Narrated()).(thinking := Some(id))
    {
      EmitReasoningStart(id);
      ShowThought(id);
    }

    method StreamThought(text: string)
      requires Valid() && reasoningOpen
      modifies this`prevThoughtText, emitter`out
      ensures Valid() && Shown() == ThoughtStreamed(old(Shown()), text)
      ensures Narrated() == old(Narrated())
    {
      var delta := DeltaOf(prevThoughtText, text);
      if delta != "" {
        Emit(ReasoningContent(currentReasoningID, delta));
      }
      prevThoughtText := prevThoughtText + delta;
    }

    method EmitSignature(signature: string)
      requires Valid() && reasoningOpen
      modifies emitter`out
      ensures Valid() && Shown() == old(Shown())
      ensures Narrated() == SignatureNoted(old(Narrated()), signature)
    {
      if signature != "" {
        Emit(ReasoningEncrypted(currentReasoningID, signature));
      }
    }

    method EmitThought(text: string, signature: string, partial: bool)
      requires Valid()
      modifies this`msgOpen, this`prevText
      modifies this`reasoningOpen, this`prevThoughtText, this`currentReasoningID, emitter
      ensures Valid()
      ensures Shown() == ThoughtArrives(old(Shown()), Generated(old(emitter.serial)), text, partial)
      ensures Told() == ThoughtTold(old(Told()), text, partial)
      ensures emitter.serial >= old(emitter.serial)
      ensures Narrated() == ThoughtNoted(old(Narrated()), signature, partial)
    {
      ThoughtHeard(Shown(), startedTools, Generated(emitter.serial), text, partial);
      EndText();
      OpenThought();
      StreamThought(text);
      EmitSignature(signature);
      if !partial {
        CloseOpenReasoning();
      }
    }

    // ----- Tool calls -----

    method EmitToolUseActivity(toolName: string, args: Args)
      requires Valid()
      modifies emitter
      ensures Valid() && Shown() == old(Shown()) && emitter.serial >= old(emitter.serial)
      ensures Narrated() == ToolUseNoted(old(Narrated()), toolName, args)
    {
      var argsJSON := if args.Json? then args.text else "{}";
      var id := DrawID();
      Emit(ActivitySnapshot(id, "tool_use", "Running " + toolName + "(" + argsJSON + ")"));
    }

    method EndCall(id: ID)
      requires Valid() && id in openTools
      modifies this`openTools, this`hadPartialArgs, emitter`out
      ensures Valid() && openTools == old(openTools) - {id}
      ensures Shown() == CallEnded(old(Shown()), id)
      ensures Narrated() == old(Narrated())
    {
      EmitCallEnd(id);
      openTools := openTools - {id};
      hadPartialArgs := hadPartialArgs - {id};
    }

    method EndAnyCall(ghost start: View)
      requires Valid() && openTools != {} && PartlyClosed(start, Shown())
      modifies this`openTools, this`hadPartialArgs, emitter`out
      ensures Valid() && openTools < old(openTools) && PartlyClosed(start, Shown())
      ensures CallsEnd(Told()) == CallsEnd(old(Told()))
      ensures Narrated() == old(Narrated())
    {
      var id :| id in openTools;
      ClosingOne(start, Shown(), id);
      if Shown().calls.Calls? {
        CallEndedHeard(Shown(), startedTools, id);
      }
      EndCall(id);
    }

    /** Calls still open are ended in whatever order the map yields them. */
    method CloseStreamedToolCalls()
      requires Valid()
      modifies this`openTools, this`hadPartialArgs, emitter`out
      ensures Valid() && openTools == {} && CallsClosed(old(Shown()), Shown())
      ensures Told() == CallsEnd(old(Told()))
      ensures Narrated() == old(Narrated())
    {
      while openTools != {}
        invariant Valid() && PartlyClosed(old(Shown()), Shown()) && Narrated() == old(Narrated())
        invariant CallsEnd(Told()) == CallsEnd(old(Told()))
        decreases openTools
      {
        EndAnyCall(old(Shown()));
      }
      NoCallsEnd(Shown(), startedTools);
    }

    method StreamFragment(id: ID, fragment: string)
      requires Valid() && id in startedTools
      modifies this`hadPartialArgs, emitter`out
      ensures Valid() && Shown() == FragmentsArrive(old(Shown()), id, fragment)
      ensures Narrated() == if fragment == "" then old(Narrated()) else ProgressNoted(config, old(Narrated()), id, fragment)
    {
      if fragment != "" {
        EmitFragment(id, fragment);
        hadPartialArgs := hadPartialArgs + {id};
        EmitProgressDelta(id, fragment);
      }
    }

    /** Fragments of a call that was announced earlier. */
    method StreamFragments(id: ID, fragments: seq<string>)
      requires Valid() && id in startedTools
      modifies this`hadPartialArgs, emitter`out
      ensures Valid() && Shown() == FragmentsArrive(old(Shown()), id, Concat(fragments))
      ensures Narrated() == FragmentsNoted(config, old(Narrated()), id, fragments)
    {
      for i := 0 to |fragments|
        invariant Valid() && Narrated() == FragmentsNoted(config, old(Narrated()), id, fragments[..i])
        invariant Shown() == FragmentsArrive(old(Shown()), id, Concat(fragments[..i]))
      {
        assert fragments[..i + 1][..i] == fragments[..i];
        FragmentsCompose(old(Shown()), id, Concat(fragments[..i]), fragments[i]);
        StreamFragment(id, fragments[i]);
      }
      assert fragments[..|fragments|] == fragments;
    }

    method EmitProgressActivity(id: ID, name: string)
      requires Valid()
      modifies this`activityMsgIDs, emitter
      ensures Valid() && Shown() == old(Shown()) && emitter.serial >= old(emitter.serial)
      ensures Narrated() == ProgressBegun(config, old(Narrated()), id, name)
    {
      if config.emitActivityDeltas {
        var actMsgID := DrawID();
        activityMsgIDs := activityMsgIDs[id := actMsgID];
        Emit(ActivitySnapshot(actMsgID, "tool_use", "Running " + name + "..."));
      }
    }

    method EmitProgressDelta(id: ID, fragment: string)
      requires Valid()
      modifies emitter`out
      ensures Valid() && Shown() == old(Shown())
      ensures Narrated() == ProgressNoted(config, old(Narrated()), id, fragment)
    {
      if config.emitActivityDeltas && id in activityMsgIDs {
        Emit(ActivityDelta(activityMsgIDs[id], "tool_use", fragment));
      }
    }

    method OpenCall(id: ID, name: string)
      requires Valid() && id !in startedTools
      modifies this`startedTools, this`openTools, emitter`out
      ensures Valid() && startedTools == old(startedTools) + {id} && openTools == old(openTools) + {id}
      ensures Shown() == CallOpened(old(Shown()), id)
      ensures Narrated() == Noted(old(Narrated()), ToolCallStart(id, name, None)).(started := old(startedTools) + {id})
    {
      if Shown().calls.Calls? {
        CallsAgreeOpened(Shown().calls.open, openTools, hadPartialArgs, startedTools, id);
      }
      EmitCallStart(id, name);
      MarkStarted(id);
    }

    /** A call seen for the first time while streaming. */
    method AnnounceCall(id: ID, name: string)
      requires Valid() && id !in startedTools
      modifies this`startedTools, this`openTools, this`activityMsgIDs, emitter
      ensures Valid() && emitter.serial >= old(emitter.serial)
      ensures startedTools == old(startedTools) + {id} && openTools == old(openTools) + {id}
      ensures Shown() == CallOpened(old(Shown()), id)
      ensures Narrated() == Announced(config, old(Narrated()), id, name)
    {
      OpenCall(id, name);
      EmitProgressActivity(id, name);
    }

    method EmitWholeCall(id: ID, name: string, args: Args)
      requires Valid()
      modifies emitter`out
      ensures Valid()
      ensures Shown() == CallShown(old(Shown()), id, args)
      ensures Narrated() == Noted(old(Narrated()), ToolCallStart(id, name, None))
    {
      EmitCall(id, name, args);
    }

    method FinishStreamedCall(id: ID, args: Args)
      requires Valid() && id in startedTools
      modifies this`openTools, this`hadPartialArgs, emitter`out
      ensures Valid() && openTools == old(openTools) - {id}
      ensures Shown() == CallFinished(old(Shown()), true, id, args)
      ensures Narrated() == old(Narrated())
    {
      EmitStreamedEnd(id, args);
      openTools := openTools - {id};
      hadPartialArgs := hadPartialArgs - {id};
    }

    method RecordCall(suppliedID: string, name: string, id: ID, args: Args)
      requires Valid()
      modifies this`toolCallIDs, this`toolCallDetails
      ensures Valid()
      ensures Narrated() == Recorded(old(Narrated()), suppliedID, name, id, args)
    {
      RecordID(suppliedID, name, id);
      if name != "" || !args.NoArgs? {
        RecordDetail(id, ToolCallDetail(name, args));
      }
    }

    method RecordID(suppliedID: string, name: string, id: ID)
      modifies this`toolCallIDs
      ensures Narrated() == old(Narrated()).(known := Known(old(toolCallIDs), suppliedID, name, id))
    {
      if suppliedID != "" {
        toolCallIDs := toolCallIDs[suppliedID := id];
      }
      if name != "" {
        toolCallIDs := toolCallIDs[name := id];
      }
    }

    method RecordDetail(id: ID, detail: ToolCallDetail)
      modifies this`toolCallDetails
      ensures Narrated() == old(Narrated()).(details := old(toolCallDetails)[id := detail])
    {
      toolCallDetails := toolCallDetails[id := detail];
    }

    method ProposePartial(id: ID, fc: FunctionCall)
      requires Valid()
      modifies this`startedTools, this`openTools, this`hadPartialArgs, this`activityMsgIDs, emitter
      ensures Valid() && emitter.serial >= old(emitter.serial)
      ensures startedTools == old(startedTools) + {id}
      ensures openTools == old(openTools) + if id in old(startedTools) then {} else {id}
      ensures Shown() == CallStreamed(old(Shown()), id in old(startedTools), id, fc.fragments)
      ensures Narrated() ==
        var n := old(Narrated());
        FragmentsNoted(config, if id in n.started then n else Announced(config, n, id, fc.name), id, fc.fragments)
    {
      if id !in startedTools {
        AnnounceCall(id, fc.name);
      }
      StreamFragments(id, fc.fragments);
    }

    method ProposeFinal(id: ID, fc: FunctionCall)
      requires Valid() && !fc.args.Unmarshallable?
      modifies this`openTools, this`hadPartialArgs, emitter`out
      ensures Valid()
      ensures openTools == old(openTools) - if id in startedTools then {id} else {}
      ensures Shown() == CallFinished(old(Shown()), id in startedTools, id, fc.args)
      ensures Narrated() == if id in startedTools then old(Narrated()) else Noted(old(Narrated()), ToolCallStart(id, fc.name, None))
    {
      if id in startedTools {
        FinishStreamedCall(id, fc.args);
        return;
      }
      EmitWholeCall(id, fc.name, fc.args);
    }

    method ProposeCall(id: ID, fc: FunctionCall, partial: bool)
      requires Valid() && config.Proposed(fc, partial)
      modifies this`toolCallIDs, this`toolCallDetails
      modifies this`startedTools, this`openTools, this`hadPartialArgs, this`activityMsgIDs, emitter
      ensures Valid() && emitter.serial >= old(emitter.serial)
      ensures Told() == CallTold(old(Told()), config, fc, partial, id)
      ensures Shown() == CallArrives(old(Shown()), id in old(startedTools), id, fc, partial)
      ensures Narrated() == ProposalNoted(config, Recorded(old(Narrated()), fc.id, fc.name, id, fc.args), fc, partial, id)
    {
      if partial {
        PartialCallHeard(Shown(), startedTools, id, config, fc);
      } else {
        FinalCallHeard(Shown(), startedTools, id, config, fc);
      }
      RecordCall(fc.id, fc.name, id, fc.args);
      if partial {
        ProposePartial(id, fc);
      } else {
        ProposeFinal(id, fc);
      }
    }

    /** A suppressed call becomes a state delta; its partial events are dropped. */
    method MapToState(fc: FunctionCall, partial: bool) returns (handled: bool)
      requires Valid()
      modifies emitter`out
      ensures Valid() && Shown() == old(Shown()) && handled == config.Suppressed(fc, partial)
      ensures Narrated() == if handled then CallNoted(config, old(Narrated()), fc, partial) else old(Narrated())
    {
      if !config.suppressTools || config.mapper.None? {
        return false;
      }
      if partial {
        return true;
      }
      var mapped := config.mapper.value(fc.name, fc.args);
      if mapped.suppress && mapped.ops.Some? {
        Emit(StateDelta(mapped.ops.value));
      }
      return mapped.suppress;
    }

    /** A server-side call is only announced as an activity. */
    method NoteServerCall(id: ID, fc: FunctionCall, partial: bool)
      requires Valid()
      modifies this`toolCallIDs, this`toolCallDetails, emitter
      ensures Valid() && Shown() == old(Shown()) && emitter.serial >= old(emitter.serial)
      ensures Narrated() == var n := Recorded(old(Narrated()), fc.id, fc.name, id, fc.args);
        if partial then n else ToolUseNoted(n, fc.name, fc.args)
    {
      RecordCall(fc.id, fc.name, id, fc.args);
      if !partial {
        EmitToolUseActivity(fc.name, fc.args);
      }
    }

    /** A malformed call is answered with an error result instead of being proposed. */
    method RejectCall(id: ID, message: string)
      requires Valid()
      modifies emitter
      ensures Valid() && Shown() == old(Shown()) && emitter.serial >= old(emitter.serial)
      ensures Narrated() == Noted(Drawn(old(Narrated())), ToolCallResult(Generated(old(emitter.serial)), id, message))
    {
      var msgID := DrawID();
      Emit(ToolCallResult(msgID, id, message));
    }

    /** A call that is not proposed to the client. */
    method DeclineCall(id: ID, fc: FunctionCall, partial: bool)
      requires Valid() && !config.Suppressed(fc, partial) && !config.Proposed(fc, partial)
      modifies this`toolCallIDs, this`toolCallDetails, emitter
      ensures Valid() && Shown() == old(Shown()) && emitter.serial >= old(emitter.serial)
      ensures Narrated() == IdentifiedNoted(config, old(Narrated()), fc, partial, id)
    {
      if config.ServerSide(fc.name) {
        NoteServerCall(id, fc, partial);
      } else {
        RejectCall(id, MalformedCall(fc));
      }
    }

    /** A call that is not suppressed. */
    method EmitIdentifiedCall(id: ID, fc: FunctionCall, partial: bool)
      requires Valid() && !config.Suppressed(fc, partial)
      modifies this`toolCallIDs, this`toolCallDetails
      modifies this`startedTools, this`openTools, this`hadPartialArgs, this`activityMsgIDs, emitter
      ensures Valid() && emitter.serial >= old(emitter.serial)
      ensures Told() == CallTold(old(Told()), config, fc, partial, id)
      ensures Shown() ==
        if config.Proposed(fc, partial) then CallArrives(old(Shown()), id in old(startedTools), id, fc, partial) else old(Shown())
      ensures Narrated() == IdentifiedNoted(config, old(Narrated()), fc, partial, id)
    {
      if config.ServerSide(fc.name) || (!partial && (fc.name == "" || fc.args.Unmarshallable?)) {
        DeclineCall(id, fc, partial);
      } else {
        ProposeCall(id, fc, partial);
      }
    }

    method EmitFunctionCall(fc: FunctionCall, partial: bool)
      requires Valid()
      modifies this`toolCallIDs, this`toolCallDetails
      modifies this`startedTools, this`openTools, this`hadPartialArgs, this`activityMsgIDs, emitter
      ensures Valid() && emitter.serial >= old(emitter.serial)
      ensures Told() == CallTold(old(Told()), config, fc, partial, Identified(fc.id, old(emitter.serial)))
      ensures Shown() ==
        var id := Identified(fc.id, old(emitter.serial));
        if config.Proposed(fc, partial) then CallArrives(old(Shown()), id in old(startedTools), id, fc, partial) else old(Shown())
      ensures Narrated() == CallNoted(config, old(Narrated()), fc, partial)
    {
      var handled := MapToState(fc, partial);
      if handled {
        return;
      }
      var id := Given(fc.id);
      if fc.id == "" {
        id := DrawID();
      }
      EmitIdentifiedCall(id, fc, partial);
    }

    method EmitResult(id: ID, content: string)
      requires Valid()
      modifies emitter
      ensures Valid() && Shown() == old(Shown()) && emitter.serial >= old(emitter.serial)
      ensures Narrated() == ResultNoted(old(Narrated()), id, content)
      ensures emitter.out != [] && emitter.out[|emitter.out| - 1] == Emitted(activeAgent, ToolCallResult(ResultOf(id), id, content))
    {
      if id in toolCallDetails {
        EmitToolUseActivity(toolCallDetails[id].name, toolCallDetails[id].args);
      }
      Emit(ToolCallResult(ResultOf(id), id, content));
    }

    /** Results are correlated by identifier, then by name; unknown ones are skipped. */
    method EmitResponse(id: string, name: string, content: string)
      requires Valid()
      modifies emitter
      ensures Valid() && Shown() == old(Shown()) && emitter.serial >= old(emitter.serial)
      ensures Narrated() == ResponseNoted(old(Narrated()), id, name, content)
      ensures id !in toolCallIDs && name !in toolCallIDs ==> emitter.out == old(emitter.out)
      ensures id in toolCallIDs || name in toolCallIDs ==>
        var call := if id in toolCallIDs then toolCallIDs[id] else toolCallIDs[name];
        && emitter.out != []
        && emitter.out[|emitter.out| - 1] == Emitted(activeAgent, ToolCallResult(ResultOf(call), call, content))
    {
      if id in toolCallIDs {
        EmitResult(toolCallIDs[id], content);
      } else if name in toolCallIDs {
        EmitResult(toolCallIDs[name], content);
      }
    }

    method EmitBuiltinToolCall(tc: BuiltinCall)
      requires Valid()
      modifies this`toolCallIDs, this`toolCallDetails, emitter
      ensures Valid() && emitter.serial >= old(emitter.serial)
      ensures Told() == BuiltinTold(old(Told()), config, tc, Identified(tc.id, old(emitter.serial)))
      ensures Shown() ==
        var id := Identified(tc.id, old(emitter.serial));
        if config.ServerSide(BuiltinName(tc)) then old(Shown()) else CallShown(old(Shown()), id, tc.args)
      ensures Narrated() == BuiltinNoted(config, old(Narrated()), tc)
    {
      var id := Given(tc.id);
      if tc.id == "" {
        id := DrawID();
      }
      var toolName := BuiltinName(tc);
      RecordCall(tc.id, toolName, id, tc.args);
      if config.ServerSide(toolName) {
        EmitToolUseActivity(toolName, tc.args);
        return;
      }
      BuiltinHeard(Shown(), startedTools, id, config, tc);
      EmitWholeCall(id, toolName, tc.args);
    }

    method EmitCustom(name: string, details: seq<string>)
      requires Valid()
      modifies emitter`out
      ensures Valid() && Shown() == old(Shown())
      ensures Narrated() == Noted(old(Narrated()), Custom(name, details))
    {
      Emit(Custom(name, details));
    }

    // ----- Sub-agents -----

    method FinishSubagent()
      requires Valid() && activeSubagentRun.Some?
      modifies this`activeSubagentRun, this`currentAuthor, this`subagentEmitted, this`activeAgent, emitter`out
      ensures Valid() && activeSubagentRun.None?
      ensures Shown() == AgentIs(old(Shown()), None)
      ensures Narrated() == AgentLeft(old(Narrated()))
    {
      EmitSubagentEnd(SubagentFinished(activeSubagentRun.value));
      SetAgent(None, "");
    }

    method CloseOpenSubagent()
      requires Valid()
      modifies this`activeSubagentRun, this`currentAuthor, this`subagentEmitted, this`activeAgent, emitter`out
      ensures Valid() && activeSubagentRun.None?
      ensures Shown() == AgentIs(old(Shown()), None)
      ensures Narrated() == AgentLeft(old(Narrated()))
    {
      if activeSubagentRun.Some? {
        FinishSubagent();
      }
    }

    method EnterSubagent(run: ID, author: string)
      requires Valid() && activeSubagentRun.None? && !config.RootAuthor(author)
      modifies this`activeSubagentRun, this`currentAuthor, this`subagentEmitted, this`activeAgent, emitter`out
      ensures Valid() && activeSubagentRun == Some(run) && currentAuthor == author
      ensures Shown() == AgentIs(old(Shown()), Some(run))
      ensures Narrated() == NotedAbove(old(Narrated()), SubagentStarted(run, author)).(agent := Some(run), author := author)
    {
      EmitSubagentStarted(run, author);
      SetAgent(Some(run), author);
    }

    method StartSubagent(author: string)
      requires Valid() && activeSubagentRun.None? && !config.RootAuthor(author)
      modifies this`activeSubagentRun, this`currentAuthor, this`subagentEmitted, this`activeAgent, emitter
      ensures Valid() && activeSubagentRun == Some(Generated(old(emitter.serial))) && currentAuthor == author
      ensures emitter.serial >= old(emitter.serial)
      ensures Shown() == AgentIs(old(Shown()), activeSubagentRun)
      ensures Narrated() == var run := Generated(old(emitter.serial));
        NotedAbove(Drawn(old(Narrated())), SubagentStarted(run, author)).(agent := Some(run), author := author)
    {
      var run := DrawID();
      EnterSubagent(run, author);
    }

    /** A new author finishes the active sub-agent and, unless it is the root, starts its own. */
    method MaybeEmitSubagentLifecycle(author: string)
      requires Valid()
      modifies this`activeSubagentRun, this`currentAuthor, this`subagentEmitted, this`activeAgent, emitter
      ensures Valid() && emitter.serial >= old(emitter.serial)
      ensures currentAuthor == if config.RootAuthor(author) then "" else author
      ensures Shown() == AgentIs(old(Shown()), activeSubagentRun)
      ensures author == old(currentAuthor) ==> Shown() == old(Shown())
      ensures Narrated() == AuthorNoted(config, old(Narrated()), author)
    {
      if config.RootAuthor(author) {
        CloseOpenSubagent();
        return;
      }
      if author != currentAuthor {
        CloseOpenSubagent();
        StartSubagent(author);
      }
    }

    method FinishSubagentWithError(message: string, code: string)
      requires Valid() && activeSubagentRun.Some?
      modifies this`activeSubagentRun, this`currentAuthor, this`subagentEmitted, this`activeAgent, emitter`out
      ensures Valid() && activeSubagentRun.None? && Shown() == AgentIs(old(Shown()), None)
      ensures Narrated() == AgentLeft(NotedAbove(old(Narrated()), SubagentError(old(activeSubagentRun).value, message, code)))
    {
      EmitSubagentEnd(SubagentError(activeSubagentRun.value, message, code));
      SetAgent(None, "");
    }

    /** Message (with reasoning), then tool calls, then step. */
    method CloseStreams()
      requires Valid()
      modifies this`msgOpen, this`prevText, this`reasoningOpen, this`prevThoughtText, this`currentReasoningID
      modifies this`openTools, this`hadPartialArgs, this`stepOpen, emitter`out
      ensures Valid()
      ensures Told() == CallsEnd(ThoughtEnds(TextEnds(old(Told()))))
      ensures AgentIs(Shown(), None).Resting()
      ensures Narrated() == Silenced(old(Narrated()))
    {
      CloseOpenMessage();
      CloseStreamedToolCalls();
      CloseOpenStep();
    }

    // ----- Whole events -----

    method EmitStateDelta(delta: map<string, string>)
      requires Valid()
      modifies emitter`out
      ensures Valid() && Shown() == old(Shown())
      ensures Narrated() == DeltaNoted(old(Narrated()), delta)
    {
      if delta != map[] {
        Emit(StateDelta(Replacements(delta)));
      }
    }

    method SwitchStep(name: string)
      requires Valid()
      modifies this`stepOpen, this`stepName, emitter`out
      ensures Valid() && Shown() == Stepping(old(Shown()), name)
      ensures Narrated() == old(Narrated())
    {
      CloseOpenStep();
      StartStep(name);
    }

    method ManageSteps(ev: AdkEvent)
      requires Valid()
      modifies this`stepOpen, this`stepName, emitter`out
      ensures Valid()
      ensures Shown() == if !config.emitSteps then old(Shown()) else StepFor(old(Shown()), ev)
      ensures Narrated() == old(Narrated())
    {
      var hasFunctionCall, hasFunctionResponse := false, false;
      for i := 0 to |ev.parts|
        invariant hasFunctionCall == HasCall(ev.parts[..i])
        invariant hasFunctionResponse == HasResponse(ev.parts[..i])
      {
        if ev.parts[i].Some? {
          if ev.parts[i].value.functionCall.Some? { hasFunctionCall := true; }
          if ev.parts[i].value.functionResponse.Some? { hasFunctionResponse := true; }
        }
      }
      assert ev.parts[..|ev.parts|] == ev.parts;
      if config.emitSteps {
        if hasFunctionResponse {
          SwitchStep("llm");
        } else if hasFunctionCall && !ev.partial {
          SwitchStep("tools");
        } else if !stepOpen && !ev.partial {
          StartStep("llm");
        }
      }
    }

    method TranslateFunctionCall(fc: FunctionCall, partial: bool)
      requires Valid()
      modifies this, emitter
      ensures Valid() && emitter.serial >= old(emitter.serial)
      ensures usageEntries == old(usageEntries)
      ensures Told() == CallTold(ThoughtEnds(TextEnds(old(Told()))), config, fc, partial, Identified(fc.id, old(emitter.serial)))
      ensures Narrated() == CallNoted(config, Silenced(old(Narrated())), fc, partial)
    {
      CloseOpenMessage();
      EmitFunctionCall(fc, partial);
    }

    method TranslateResponse(id: string, name: string, content: string)
      requires Valid()
      modifies this, emitter
      ensures Valid() && emitter.serial >= old(emitter.serial)
      ensures usageEntries == old(usageEntries)
      ensures Told() == ThoughtEnds(TextEnds(old(Told())))
      ensures Narrated() == ResponseNoted(Silenced(old(Narrated())), id, name, content)
    {
      CloseOpenMessage();
      EmitResponse(id, name, content);
    }

    method TranslateBuiltinCall(tc: BuiltinCall)
      requires Valid()
      modifies this, emitter
      ensures Valid() && emitter.serial >= old(emitter.serial)
      ensures usageEntries == old(usageEntries)
      ensures Told() == BuiltinTold(ThoughtEnds(TextEnds(old(Told()))), config, tc, Identified(tc.id, old(emitter.serial)))
      ensures Narrated() == BuiltinNoted(config, Silenced(old(Narrated())), tc)
    {
      CloseOpenMessage();
      EmitBuiltinToolCall(tc);
    }

    /** A part that calls a tool or answers a call. */
    method TranslateCallPart(p: Part, partial: bool)
      requires Valid() && p.ToolPart()
      modifies this, emitter
      ensures Valid() && emitter.serial >= old(emitter.serial)
      ensures usageEntries == old(usageEntries)
      ensures Told() == PartTold(old(Told()), config, Some(p.(thought := false)), partial, old(emitter.serial))
      ensures Narrated() == ToolPartNoted(config, Silenced(old(Narrated())), p, partial)
    {
      if p.functionCall.Some? {
        TranslateFunctionCall(p.functionCall.value, partial);
        return;
      }
      if p.functionResponse.Some? {
        var fr := p.functionResponse.value;
        TranslateResponse(fr.id, fr.name, fr.content);
      } else if p.toolCall.Some? {
        TranslateBuiltinCall(p.toolCall.value);
      } else {
        var tr := p.toolResponse.value;
        TranslateResponse(tr.id, tr.toolType, tr.content);
      }
    }

    /** A part that says, thinks or shows something. */
    method TranslateSpeech(p: Part, partial: bool, author: string)
      requires Valid() && (p.Reasoning() || !p.ToolPart())
      modifies this, emitter
      ensures Valid() && emitter.serial >= old(emitter.serial)
      ensures usageEntries == old(usageEntries)
      ensures Told() == PartTold(old(Told()), config, Some(p), partial, old(emitter.serial))
      ensures Narrated() == SpeechNoted(config, old(Narrated()), p, partial, author)
    {
      if p.thought && p.text != "" {
        EmitThought(p.text, p.signature, partial);
      } else if p.text != "" {
        EmitText(p.text, partial, author);
      } else if p.fileData.Some? {
        EmitText(FileText(p.fileData.value), partial, author);
      } else if p.inlineData.Some? {
        EmitText(BinaryText(p.inlineData.value), partial, author);
      } else if p.executableCode.Some? {
        EmitCustom("executable_code", [p.executableCode.value.0, p.executableCode.value.1]);
      } else if p.codeResult.Some? {
        EmitCustom("code_execution_result", [p.codeResult.value.0, p.codeResult.value.1]);
      }
    }

    /** Reasoning comes first, then tools, then everything else. */
    method TranslatePart(p: Part, partial: bool, author: string)
      requires Valid()
      modifies this, emitter
      ensures Valid() && emitter.serial >= old(emitter.serial)
      ensures usageEntries == old(usageEntries)
      ensures Told() == PartTold(old(Told()), config, Some(p), partial, old(emitter.serial))
      ensures Narrated() == PartNoted(config, old(Narrated()), p, partial, author)
    {
      if p.ToolPart() && !p.Reasoning() {
        TranslateCallPart(p, partial);
      } else {
        TranslateSpeech(p, partial, author);
      }
    }

    method TranslateParts(ev: AdkEvent)
      requires Valid()
      modifies this, emitter
      ensures Valid() && emitter.serial >= old(emitter.serial)
      ensures usageEntries == old(usageEntries)
      ensures Told() == AllPartsTold(old(Told()), old(Narrated()), config, ev)
      ensures Narrated() == AllPartsNoted(config, old(Narrated()), ev)
    {
      if ev.parts == [] {
        return;
      }
      EmitMetadata(ev);
      for i := 0 to |ev.parts|
        invariant Valid() && emitter.serial >= old(emitter.serial)
        invariant usageEntries == old(usageEntries)
        invariant Told() == PartsTold(old(Told()), MetadataNoted(old(Narrated()), ev), config, ev.parts[..i], ev.partial, ev.author)
        invariant Narrated() == PartsNoted(config, MetadataNoted(old(Narrated()), ev), ev.parts[..i], ev.partial, ev.author)
      {
        OneMoreTold(old(Told()), MetadataNoted(old(Narrated()), ev), config, ev.parts, i, ev.partial, ev.author);
        OneMorePart(config, MetadataNoted(old(Narrated()), ev), ev.parts, i, ev.partial, ev.author);
        TranslateOptional(ev.parts[i], ev.partial, ev.author);
      }
      assert ev.parts[..|ev.parts|] == ev.parts;
    }

    /** Absent parts are skipped. */
    method TranslateOptional(part: Option<Part>, partial: bool, author: string)
      requires Valid()
      modifies this, emitter
      ensures Valid() && emitter.serial >= old(emitter.serial)
      ensures usageEntries == old(usageEntries)
      ensures Told() == PartTold(old(Told()), config, part, partial, old(emitter.serial))
      ensures Narrated() == OptionalNoted(config, old(Narrated()), part, partial, author)
    {
      if part.Some? {
        TranslatePart(part.value, partial, author);
      }
    }

    method EmitMetadata(ev: AdkEvent)
      requires Valid() && ev.parts != []
      modifies emitter`out
      ensures Valid() && Shown() == old(Shown())
      ensures Narrated() == MetadataNoted(old(Narrated()), ev)
    {
      if ev.citations.Some? {
        EmitCustom("citation_metadata", [ev.citations.value]);
      }
      if ev.grounding.Some? {
        EmitCustom("grounding_metadata", [ev.grounding.value]);
      }
    }

    /** What precedes the content: attribution, state and steps. */
    method TranslateHeader(ev: AdkEvent)
      requires Valid()
      modifies this`activeSubagentRun, this`currentAuthor, this`subagentEmitted, this`activeAgent
      modifies this`stepOpen, this`stepName, emitter
      ensures Valid() && emitter.serial >= old(emitter.serial)
      ensures activeSubagentRun.Some? <==> !config.RootAuthor(ev.author)
      ensures Told() == old(Told())
      ensures Shown() == var v := AgentIs(old(Shown()), activeSubagentRun); if config.emitSteps then StepFor(v, ev) else v
      ensures Narrated() == HeaderNoted(config, old(Narrated()), ev)
    {
      MaybeEmitSubagentLifecycle(ev.author);
      HeaderUnheard(old(Shown()), startedTools, activeSubagentRun, ev);
      EmitStateDelta(ev.stateDelta);
      ManageSteps(ev);
    }

    /** The content of an event whose author is active; a sub-agent's model error replaces it. */
    method TranslateContent(ev: AdkEvent)
      requires Valid() && (activeSubagentRun.Some? <==> !config.RootAuthor(ev.author))
      modifies this, emitter
      ensures Valid() && emitter.serial >= old(emitter.serial)
      ensures usageEntries == old(usageEntries)
      ensures Told() == ContentTold(old(Told()), old(Narrated()), config, ev)
      ensures Narrated() == ContentNoted(config, old(Narrated()), ev)
    {
      if ev.Failed() {
        if activeSubagentRun.Some? {
          CloseStreams();
          FinishSubagentWithError(SubagentFailure(ev.errorCode, ev.errorMessage), ev.errorCode);
          return;
        }
        EmitCustom("model_error", [ev.errorCode, ev.errorMessage]);
      }
      TranslateParts(ev);
    }

    /** One ADK event. */
    method Translate(ev: AdkEvent)
      requires Valid()
      modifies this, emitter
      ensures Valid() && emitter.serial >= old(emitter.serial)
      ensures usageEntries == old(usageEntries) + ev.Billed()
      ensures Told() == EventTold(old(Told()), old(Narrated()), config, ev)
      ensures Narrated() == EventNoted(config, old(Narrated()), ev)
    {
      usageEntries := usageEntries + ev.Billed();
      TranslateHeader(ev);
      TranslateContent(ev);
    }

    /** Closing at a terminal boundary: message, tool calls, step, sub-agent. */
    method CloseAll()
      requires Valid()
      modifies this, emitter
      ensures Valid() && emitter.serial >= old(emitter.serial)
      ensures usageEntries == old(usageEntries)
      ensures Told() == CallsEnd(ThoughtEnds(TextEnds(old(Told()))))
      ensures Shown().Resting()
      ensures Narrated() == AgentLeft(Silenced(old(Narrated())))
    {
      CloseStreams();
      CloseOpenSubagent();
    }
  }

  lemma ReasoningBegun(v: View, agent: Option<ID>, id: ID)
    requires v.View? ==> v.agent == agent && v.text.None? && v.thought.None?
    ensures NextView(NextView(v, Emitted(agent, ReasoningStart(id))), Emitted(agent, ReasoningMessageStart(id))) == ThoughtOpened(v, id)
  {
  }

  lemma ReasoningEnded(v: View, agent: Option<ID>, id: ID)
    requires v.View? ==> v.agent == agent && v.thought.Some? && v.thought.value.id == id && v.thoughtBody
    ensures NextView(NextView(v, Emitted(agent, ReasoningMessageEnd(id))), Emitted(agent, ReasoningEnd(id))) == ThoughtClosed(v)
  {
  }

  lemma ClosingOne(v: View, w: View, id: ID)
    requires PartlyClosed(v, w) && (!Deaf(w) ==> id in w.calls.open)
    ensures PartlyClosed(v, CallEnded(w, id))
  {
    if !Deaf(v) {
      var u := CallEnded(w, id);
      assert w.calls.open.Keys == u.calls.open.Keys + {id};
      assert u.spans[|v.spans|..] == w.spans[|v.spans|..] + [Call(id, w.calls.open[id])];
    }
  }

  lemma ArgsAndEndShown(v: View, agent: Option<ID>, id: ID, args: Args)
    requires v.View? ==> v.agent == agent
    ensures
      var w := if args.Json? then NextView(v, Emitted(agent, ToolCallArgs(id, args.text))) else v;
      NextView(w, Emitted(agent, ToolCallEnd(id))) == ArgsAndEnd(v, id, args)
  {
    if v.Has(id) {
      assert v.calls.open[id := v.calls.open[id] + ArgsText(args)] - {id} == v.calls.open - {id};
      assert v.calls.open[id] + "" == v.calls.open[id];
    }
  }

  lemma WholeCall(v: View, id: ID, args: Args)
    ensures ArgsAndEnd(if v.Has(id) then CallsLost(v) else CallOpened(v, id), id, args) == CallShown(v, id, args)
  {
    if !Deaf(v) && !v.Has(id) {
      assert v.calls.open[id := ""] - {id} == v.calls.open;
      assert "" + ArgsText(args) == ArgsText(args);
    }
  }

  /** The full arguments are only sent when none were streamed. */
  lemma StreamedCallShown(v: View, agent: Option<ID>, id: ID, args: Args, streamed: bool)
    requires (v.View? ==> v.agent == agent) && (v.Has(id) ==> (streamed <==> v.calls.open[id] != ""))
    ensures
      var v1 := if args.Json? && !streamed then NextView(v, Emitted(agent, ToolCallArgs(id, args.text))) else v;
      NextView(v1, Emitted(agent, ToolCallEnd(id))) == CallFinished(v, true, id, args)
  {
    if v.Has(id) {
      assert v.calls.open[id := v.calls.open[id] + ArgsText(args)] - {id} == v.calls.open - {id};
      assert "" + ArgsText(args) == ArgsText(args);
    }
  }

  lemma FragmentsCompose(v: View, id: ID, a: string, b: string)
    ensures FragmentsArrive(FragmentsArrive(v, id, a), id, b) == FragmentsArrive(v, id, a + b)
  {
    if a == "" {
      assert a + b == b;
    } else if b == "" {
      assert a + b == a;
    } else if v.Has(id) {
      assert v.calls.open[id] + a + b == v.calls.open[id] + (a + b);
      assert v.calls.open[id := v.calls.open[id] + a][id := v.calls.open[id] + (a + b)] == v.calls.open[id := v.calls.open[id] + (a + b)];
    }
  }
}
