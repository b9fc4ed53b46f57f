/** What transcripts promise: streamed messages come out whole, and which streams are disciplined. */
module TranscriptLaws {
  import opened Events
  import opened Adk
  import opened Effects
  import opened Narratives
  import opened NarrativeLaws
  import opened Transcripts

  // ----- Messages come out whole -----

  /** The text accumulated by a run of partial chunks. */
  function Streamed(chunks: seq<string>): string {
    if chunks == [] then "" else Absorb(Streamed(chunks[..|chunks| - 1]), chunks[|chunks| - 1])
  }

  /** Each chunk carries the whole text so far. */
  predicate Cumulative(chunks: seq<string>) {
    forall i :: 0 < i < |chunks| ==> chunks[i - 1] <= chunks[i]
  }

  /** Each chunk carries only what is new, and none could be mistaken for the whole. */
  predicate Fragmented(chunks: seq<string>) {
    forall i :: 0 <= i < |chunks| ==> Concat(chunks[..i]) == "" || !(Concat(chunks[..i]) <= chunks[i])
  }

  lemma {:induction false} CumulativeStream(chunks: seq<string>)
    requires Cumulative(chunks)
    ensures Streamed(chunks) == if chunks == [] then "" else chunks[|chunks| - 1]
  {
    if chunks != [] {
      CumulativeStream(chunks[..|chunks| - 1]);
    }
  }

  lemma {:induction false} FragmentStream(chunks: seq<string>)
    requires Fragmented(chunks)
    ensures Streamed(chunks) == Concat(chunks)
  {
    if chunks != [] {
      var before := chunks[..|chunks| - 1];
      assert forall i :: 0 <= i < |before| ==> before[..i] == chunks[..i];
      FragmentStream(before);
    }
  }

  function PartialTexts(t: Transcript, chunks: seq<string>): Transcript {
    if chunks == [] then t else TextTold(PartialTexts(t, chunks[..|chunks| - 1]), chunks[|chunks| - 1], true)
  }

  function PartialThoughts(t: Transcript, chunks: seq<string>): Transcript {
    if chunks == [] then t else ThoughtTold(PartialThoughts(t, chunks[..|chunks| - 1]), chunks[|chunks| - 1], true)
  }

  lemma {:induction false} TextSoFar(t: Transcript, chunks: seq<string>)
    requires t.text.None? && t.thought.None? && chunks != []
    ensures PartialTexts(t, chunks) == t.(text := Some(Streamed(chunks)))
  {
    if |chunks| > 1 {
      TextSoFar(t, chunks[..|chunks| - 1]);
    } else {
      assert chunks[..0] == [];
      assert PartialTexts(t, chunks[..0]) == t;
    }
  }

  lemma {:induction false} ThoughtSoFar(t: Transcript, chunks: seq<string>)
    requires t.text.None? && t.thought.None? && chunks != []
    ensures PartialThoughts(t, chunks) == t.(thought := Some(Streamed(chunks)))
  {
    if |chunks| > 1 {
      ThoughtSoFar(t, chunks[..|chunks| - 1]);
    } else {
      assert chunks[..0] == [];
      assert PartialThoughts(t, chunks[..0]) == t;
    }
  }

  /** A streamed message or reasoning block ends up as the final text exactly when what
      was streamed before is a prefix of that text. */
  lemma StreamedContentExact(t: Transcript, chunks: seq<string>, full: string)
    requires t.text.None? && t.thought.None?
    ensures TextTold(PartialTexts(t, chunks), full, false) == t.(utterances := t.utterances + [Said(full)])
      <==> Streamed(chunks) <= full
    ensures ThoughtTold(PartialThoughts(t, chunks), full, false) == t.(utterances := t.utterances + [Thought(full)])
      <==> Streamed(chunks) <= full
  {
    var whole := Absorb(Streamed(chunks), full);
    if chunks != [] {
      TextSoFar(t, chunks);
      ThoughtSoFar(t, chunks);
    }
    assert TextTold(PartialTexts(t, chunks), full, false).utterances == t.utterances + [Said(whole)];
    assert ThoughtTold(PartialThoughts(t, chunks), full, false).utterances == t.utterances + [Thought(whole)];
    assert (t.utterances + [Said(whole)])[|t.utterances|] == Said(whole);
    assert (t.utterances + [Said(full)])[|t.utterances|] == Said(full);
    assert (t.utterances + [Thought(whole)])[|t.utterances|] == Thought(whole);
    assert (t.utterances + [Thought(full)])[|t.utterances|] == Thought(full);
  }

  /** Both streaming styles meet the condition. */
  lemma StreamingStylesAreExact(chunks: seq<string>, full: string)
    requires Cumulative(chunks + [full]) || (Fragmented(chunks) && full == Concat(chunks))
    ensures Streamed(chunks) <= full
  {
    if Cumulative(chunks + [full]) {
      assert forall i :: 0 <= i < |chunks| ==> (chunks + [full])[i] == chunks[i];
      CumulativeStream(chunks);
      if chunks != [] {
        assert (chunks + [full])[|chunks| - 1] <= (chunks + [full])[|chunks|];
      }
    } else {
      FragmentStream(chunks);
    }
  }

  // ----- Whole events say their parts -----

  /** What a part says: its reasoning, its text, or what stands for its attachment. */
  function SpeechOf(p: Part): seq<Utterance> {
    if p.thought && p.text != "" then [Thought(p.text)]
    else if p.functionCall.Some? || p.functionResponse.Some? || p.toolCall.Some? || p.toolResponse.Some? then []
    else if p.text != "" then [Said(p.text)]
    else if p.fileData.Some? then [Said("[File: " + p.fileData.value.mimeType + "](" + p.fileData.value.reference + ")")]
    else if p.inlineData.Some? then
      [Said("[Binary data: " + p.inlineData.value.mimeType + ", " + p.inlineData.value.reference + " bytes]")]
    else []
  }

  function SpeechOfAll(parts: seq<Option<Part>>): seq<Utterance> {
    if parts == [] then []
    else
      var last := parts[|parts| - 1];
      SpeechOfAll(parts[..|parts| - 1]) + if last.Some? then SpeechOf(last.value) else []
  }

  predicate Quiet(t: Transcript) { t.text.None? && t.thought.None? }

  lemma WholePartSays(t: Transcript, config: Config, part: Option<Part>, serial: nat)
    requires Quiet(t)
    ensures
      var u := PartTold(t, config, part, false, serial);
      Quiet(u) && u.utterances == t.utterances + if part.Some? then SpeechOf(part.value) else []
  {
    assert t.utterances + [] == t.utterances;
  }

  lemma {:induction false} WholePartsSay(t: Transcript, n: Narrative, config: Config, parts: seq<Option<Part>>, author: string)
    requires Quiet(t)
    ensures
      var u := PartsTold(t, n, config, parts, false, author);
      Quiet(u) && u.utterances == t.utterances + SpeechOfAll(parts)
  {
    if parts == [] {
      assert t.utterances + [] == t.utterances;
    } else {
      var before, last := parts[..|parts| - 1], parts[|parts| - 1];
      WholePartsSay(t, n, config, before, author);
      WholePartSays(PartsTold(t, n, config, before, false, author), config, last, PartsNoted(config, n, before, false, author).serial);
    }
  }

  /** Whole events, except the model errors of sub-agents, which say nothing. */
  function SpeechIn(config: Config, evs: seq<AdkEvent>): seq<Utterance> {
    if evs == [] then []
    else
      var last := evs[|evs| - 1];
      SpeechIn(config, evs[..|evs| - 1]) + if last.Failed() && !config.RootAuthor(last.author) then [] else SpeechOfAll(last.parts)
  }

  /** Without streaming, a run says its parts, one by one. */
  lemma {:induction false} WholeEventsSayTheirParts(t: Transcript, n: Narrative, config: Config, evs: seq<AdkEvent>)
    requires Quiet(t) && forall i :: 0 <= i < |evs| ==> !evs[i].partial
    ensures
      var u := EventsTold(t, n, config, evs);
      Quiet(u) && u.utterances == t.utterances + SpeechIn(config, evs)
  {
    if evs == [] {
      assert t.utterances + [] == t.utterances;
    } else {
      var before, last := evs[..|evs| - 1], evs[|evs| - 1];
      WholeEventsSayTheirParts(t, n, config, before);
      WholeEventSays(EventsTold(t, n, config, before), EventsNoted(config, n, before), config, last);
    }
  }

  lemma WholeEventSays(t: Transcript, n: Narrative, config: Config, ev: AdkEvent)
    requires Quiet(t) && !ev.partial
    ensures
      var u := EventTold(t, n, config, ev);
      Quiet(u) && u.utterances == t.utterances + if ev.Failed() && !config.RootAuthor(ev.author) then [] else SpeechOfAll(ev.parts)
  {
    if ev.Failed() && !config.RootAuthor(ev.author) {
      assert t.utterances + [] == t.utterances;
    } else {
      WholePartsSay(t, MetadataNoted(FailureNoted(HeaderNoted(config, n, ev), ev), ev), config, ev.parts, ev.author);
    }
  }

  // ----- Earlier calls do not matter -----

  function Behind(calls: multiset<(ID, string)>, c: Ledger): Ledger {
    if c.Violated? then c else c.(called := calls + c.called)
  }

  function After(calls: multiset<(ID, string)>, t: Transcript): Transcript { t.(calls := Behind(calls, t.calls)) }

  lemma SpeechAfter(calls: multiset<(ID, string)>, t: Transcript, text: string, partial: bool)
    ensures TextTold(After(calls, t), text, partial) == After(calls, TextTold(t, text, partial))
    ensures ThoughtTold(After(calls, t), text, partial) == After(calls, ThoughtTold(t, text, partial))
    ensures ThoughtEnds(TextEnds(After(calls, t))) == After(calls, ThoughtEnds(TextEnds(t)))
  {
  }

  lemma CallAfter(calls: multiset<(ID, string)>, t: Transcript, config: Config, fc: FunctionCall, partial: bool, id: ID)
    ensures CallTold(After(calls, t), config, fc, partial, id) == After(calls, CallTold(t, config, fc, partial, id))
  {
    var c := t.calls;
    if c.Ledger? && !partial {
      var args := if id in c.streaming && c.streaming[id] != "" then c.streaming[id] else ArgsText(fc.args);
      assert calls + (c.called + multiset{(id, args)}) == (calls + c.called) + multiset{(id, args)};
    }
    assert CallEntered(Behind(calls, c), fc, partial, id) == Behind(calls, CallEntered(c, fc, partial, id));
  }

  lemma BuiltinAfter(calls: multiset<(ID, string)>, t: Transcript, config: Config, tc: BuiltinCall, id: ID)
    ensures BuiltinTold(After(calls, t), config, tc, id) == After(calls, BuiltinTold(t, config, tc, id))
  {
    assert BuiltinEntered(Behind(calls, t.calls), tc, id) == Behind(calls, BuiltinEntered(t.calls, tc, id));
  }

  lemma PartAfter(calls: multiset<(ID, string)>, t: Transcript, config: Config, part: Option<Part>, partial: bool, serial: nat)
    ensures PartTold(After(calls, t), config, part, partial, serial) == After(calls, PartTold(t, config, part, partial, serial))
  {
    if part.Some? {
      var p, u := part.value, ThoughtEnds(TextEnds(t));
      SpeechAfter(calls, t, p.text, partial);
      if p.Reasoning() {
      } else if p.functionCall.Some? {
        CallAfter(calls, u, config, p.functionCall.value, partial, Identified(p.functionCall.value.id, serial));
      } else if p.functionResponse.Some? {
      } else if p.toolCall.Some? {
        BuiltinAfter(calls, u, config, p.toolCall.value, Identified(p.toolCall.value.id, serial));
      } else if p.toolResponse.None? && p.text == "" {
        AttachmentAfter(calls, t, config, p, partial, serial);
      }
    }
  }

  lemma AttachmentAfter(calls: multiset<(ID, string)>, t: Transcript, config: Config, p: Part, partial: bool, serial: nat)
    requires p.text == "" && !p.ToolPart()
    ensures PartTold(After(calls, t), config, Some(p), partial, serial) == After(calls, PartTold(t, config, Some(p), partial, serial))
  {
    if p.fileData.Some? {
      SpeechAfter(calls, t, FileText(p.fileData.value), partial);
    } else if p.inlineData.Some? {
      SpeechAfter(calls, t, BinaryText(p.inlineData.value), partial);
    }
  }

  lemma {:induction false} PartsAfter(calls: multiset<(ID, string)>, t: Transcript, n: Narrative, config: Config,
                                      parts: seq<Option<Part>>, partial: bool, author: string)
    ensures PartsTold(After(calls, t), n, config, parts, partial, author) == After(calls, PartsTold(t, n, config, parts, partial, author))
  {
    if parts != [] {
      var before := parts[..|parts| - 1];
      PartsAfter(calls, t, n, config, before, partial, author);
      PartAfter(calls, PartsTold(t, n, config, before, partial, author), config, parts[|parts| - 1], partial,
                PartsNoted(config, n, before, partial, author).serial);
    }
  }

  lemma EventAfter(calls: multiset<(ID, string)>, t: Transcript, n: Narrative, config: Config, ev: AdkEvent)
    ensures EventTold(After(calls, t), n, config, ev) == After(calls, EventTold(t, n, config, ev))
  {
    var m := HeaderNoted(config, n, ev);
    if ev.Failed() && !config.RootAuthor(ev.author) {
      SpeechAfter(calls, t, "", true);
      CallsEndAfter(calls, ThoughtEnds(TextEnds(t)));
    } else {
      PartsAfter(calls, t, MetadataNoted(FailureNoted(m, ev), ev), config, ev.parts, ev.partial, ev.author);
    }
  }

  lemma CallsEndAfter(calls: multiset<(ID, string)>, t: Transcript)
    ensures CallsEnd(After(calls, t)) == After(calls, CallsEnd(t))
  {
    assert AllEnded(Behind(calls, t.calls)) == Behind(calls, AllEnded(t.calls));
  }

  lemma {:induction false} EventsAfter(calls: multiset<(ID, string)>, t: Transcript, n: Narrative, config: Config, evs: seq<AdkEvent>)
    ensures EventsTold(After(calls, t), n, config, evs) == After(calls, EventsTold(t, n, config, evs))
  {
    if evs != [] {
      var before := evs[..|evs| - 1];
      EventsAfter(calls, t, n, config, before);
      EventAfter(calls, EventsTold(t, n, config, before), EventsNoted(config, n, before), config, evs[|evs| - 1]);
    }
  }

  lemma RunAfter(calls: multiset<(ID, string)>, t: Transcript, n: Narrative, config: Config, evs: seq<AdkEvent>)
    ensures RunTold(After(calls, t), n, config, evs) == After(calls, RunTold(t, n, config, evs))
  {
    EventsAfter(calls, t, n, config, evs);
    SpeechAfter(calls, EventsTold(t, n, config, evs), "", true);
    CallsEndAfter(calls, ThoughtEnds(TextEnds(EventsTold(t, n, config, evs))));
  }

  // ----- Disciplined streams -----

  /** What matters for the order of calls: fragments of a call, its final event, a built-in
      call, and the error of a sub-agent, which closes every call that is streaming. */
  datatype Occurrence = Fragments(id: ID, text: string) | Final(id: ID) | Builtin(id: ID) | CutOff

  function CallOccurs(config: Config, fc: FunctionCall, partial: bool): seq<Occurrence> {
    if fc.id == "" || !config.Proposed(fc, partial) then []
    else if partial then [Fragments(Given(fc.id), Concat(fc.fragments))]
    else [Final(Given(fc.id))]
  }

  function PartOccurs(config: Config, part: Option<Part>, partial: bool): seq<Occurrence> {
    if part.None? || part.value.Reasoning() then []
    else if part.value.functionCall.Some? then CallOccurs(config, part.value.functionCall.value, partial)
    else if part.value.functionResponse.Some? || part.value.toolCall.None? then []
    else
      var tc := part.value.toolCall.value;
      if tc.id == "" || config.ServerSide(BuiltinName(tc)) then [] else [Builtin(Given(tc.id))]
  }

  function PartsOccur(config: Config, parts: seq<Option<Part>>, partial: bool): seq<Occurrence> {
    if parts == [] then []
    else PartsOccur(config, parts[..|parts| - 1], partial) + PartOccurs(config, parts[|parts| - 1], partial)
  }

  function EventOccurs(config: Config, ev: AdkEvent): seq<Occurrence> {
    if ev.Failed() && !config.RootAuthor(ev.author) then [CutOff] else PartsOccur(config, ev.parts, ev.partial)
  }

  function Occurrences(config: Config, evs: seq<AdkEvent>): seq<Occurrence> {
    if evs == [] then [] else Occurrences(config, evs[..|evs| - 1]) + EventOccurs(config, evs[|evs| - 1])
  }

  /** The calls streaming and those streamed and closed, as long as the protocol is kept. */
  datatype Standing = Lost | Standing(streaming: set<ID>, closed: set<ID>)

  function Next(s: Standing, o: Occurrence): Standing {
    if s.Lost? then s
    else match o
      case Fragments(id, text) =>
        if id in s.streaming then s
        else if id !in s.closed then s.(streaming := s.streaming + {id})
        else if text == "" then s
        else Lost
      case Final(id) =>
        if id in s.streaming then Standing(s.streaming - {id}, s.closed + {id})
        else if id in s.closed then Lost
        else s
      case Builtin(id) => if id in s.streaming then Lost else s
      case CutOff => Standing({}, s.closed + s.streaming)
  }

  function Follow(s: Standing, os: seq<Occurrence>): Standing {
    if os == [] then s else Next(Follow(s, os[..|os| - 1]), os[|os| - 1])
  }

  function Supplied(ids: set<ID>): set<ID> { set id | id in ids && id.Given? }

  /** Only supplied identifiers can come again. */
  function StandingOf(t: Transcript): Standing {
    if t.calls.Violated? then Lost else Standing(Supplied(t.calls.streaming.Keys), Supplied(t.calls.finished))
  }

  predicate DrawnBefore(id: ID, serial: nat) { id.Given? || (id.Generated? && id.serial < serial) }

  /** The identifiers drawn for calls so far are below the serial. */
  predicate Below(t: Transcript, serial: nat) {
    t.calls.Ledger? ==>
      && (forall id :: id in t.calls.streaming ==> DrawnBefore(id, serial))
      && forall id :: id in t.calls.finished ==> DrawnBefore(id, serial)
  }

  lemma {:induction false} FollowConcat(s: Standing, a: seq<Occurrence>, b: seq<Occurrence>)
    ensures Follow(s, a + b) == Follow(Follow(s, a), b)
  {
    if b == [] {
      assert a + b == a;
    } else {
      assert (a + b)[..|a + b| - 1] == a + b[..|b| - 1];
      FollowConcat(s, a, b[..|b| - 1]);
    }
  }

  lemma FollowOne(s: Standing, o: Occurrence)
    ensures Follow(s, [o]) == Next(s, o)
  {
    assert [o][..0] == [];
    assert Follow(s, [o][..0]) == s;
  }

  lemma CallFollows(t: Transcript, config: Config, fc: FunctionCall, partial: bool, serial: nat)
    requires Below(t, serial)
    ensures
      var os, u := CallOccurs(config, fc, partial), CallTold(t, config, fc, partial, Identified(fc.id, serial));
      && StandingOf(u) == (if os == [] then StandingOf(t) else Next(StandingOf(t), os[0]))
      && Below(u, serial + if fc.id == "" && config.Proposed(fc, partial) then 1 else 0)
  {
  }

  lemma BuiltinFollows(t: Transcript, config: Config, tc: BuiltinCall, serial: nat)
    requires Below(t, serial)
    ensures
      var u := BuiltinTold(t, config, tc, Identified(tc.id, serial));
      && StandingOf(u) == (if tc.id == "" || config.ServerSide(BuiltinName(tc)) then StandingOf(t)
                           else Next(StandingOf(t), Builtin(Given(tc.id))))
      && Below(u, serial)
  {
  }

  lemma CallPartFollows(t: Transcript, n: Narrative, config: Config, p: Part, partial: bool)
    requires Below(t, n.serial) && !p.Reasoning() && p.functionCall.Some?
    ensures
      var u := PartTold(t, config, Some(p), partial, n.serial);
      && StandingOf(u) == Follow(StandingOf(t), PartOccurs(config, Some(p), partial))
      && Below(u, CallNoted(config, Silenced(n), p.functionCall.value, partial).serial)
  {
    var fc := p.functionCall.value;
    var os := CallOccurs(config, fc, partial);
    if os != [] {
      assert os == [os[0]];
      FollowOne(StandingOf(t), os[0]);
    }
    CallFollows(ThoughtEnds(TextEnds(t)), config, fc, partial, n.serial);
    CallDraws(config, Silenced(n), fc, partial);
  }

  lemma BuiltinPartFollows(t: Transcript, config: Config, p: Part, partial: bool, serial: nat)
    requires Below(t, serial) && !p.Reasoning() && p.functionCall.None? && p.functionResponse.None? && p.toolCall.Some?
    ensures
      var u := PartTold(t, config, Some(p), partial, serial);
      StandingOf(u) == Follow(StandingOf(t), PartOccurs(config, Some(p), partial)) && Below(u, serial)
  {
    var tc := p.toolCall.value;
    BuiltinFollows(ThoughtEnds(TextEnds(t)), config, tc, serial);
    FollowOne(StandingOf(t), Builtin(Given(tc.id)));
  }

  lemma OtherPartFollows(t: Transcript, config: Config, part: Option<Part>, partial: bool, serial: nat)
    requires Below(t, serial)
    requires part.None? || part.value.Reasoning() || (part.value.functionCall.None? && (part.value.functionResponse.Some? || part.value.toolCall.None?))
    ensures
      var u := PartTold(t, config, part, partial, serial);
      StandingOf(u) == Follow(StandingOf(t), PartOccurs(config, part, partial)) && Below(u, serial)
  {
  }

  lemma PartFollows(t: Transcript, n: Narrative, config: Config, part: Option<Part>, partial: bool, author: string)
    requires Below(t, n.serial)
    ensures
      var u := PartTold(t, config, part, partial, n.serial);
      && StandingOf(u) == Follow(StandingOf(t), PartOccurs(config, part, partial))
      && Below(u, OptionalNoted(config, n, part, partial, author).serial)
  {
    PartFresh(config, n, part, partial, author);
    if part.None? || part.value.Reasoning() {
      OtherPartFollows(t, config, part, partial, n.serial);
    } else if part.value.functionCall.Some? {
      CallPartFollows(t, n, config, part.value, partial);
    } else if part.value.functionResponse.None? && part.value.toolCall.Some? {
      BuiltinPartFollows(t, config, part.value, partial, n.serial);
    } else {
      OtherPartFollows(t, config, part, partial, n.serial);
    }
  }

  /** A call without an identifier takes the next one. */
  lemma CallDraws(config: Config, n: Narrative, fc: FunctionCall, partial: bool)
    ensures CallNoted(config, n, fc, partial).serial >= n.serial + if fc.id == "" && config.Proposed(fc, partial) then 1 else 0
  {
    IdentifiedFresh(config, n, fc, partial, Given(fc.id));
    IdentifiedFresh(config, Drawn(n), fc, partial, Generated(n.serial));
  }

  lemma {:induction false} PartsFollow(t: Transcript, n: Narrative, config: Config, parts: seq<Option<Part>>, partial: bool, author: string)
    requires Below(t, n.serial)
    ensures
      var u := PartsTold(t, n, config, parts, partial, author);
      && StandingOf(u) == Follow(StandingOf(t), PartsOccur(config, parts, partial))
      && Below(u, PartsNoted(config, n, parts, partial, author).serial)
  {
    if parts != [] {
      var before, last := parts[..|parts| - 1], parts[|parts| - 1];
      PartsFollow(t, n, config, before, partial, author);
      PartFollows(PartsTold(t, n, config, before, partial, author), PartsNoted(config, n, before, partial, author), config, last, partial, author);
      FollowConcat(StandingOf(t), PartsOccur(config, before, partial), PartOccurs(config, last, partial));
    }
  }

  lemma ContentFollows(t: Transcript, n: Narrative, config: Config, ev: AdkEvent)
    requires Below(t, n.serial)
    ensures
      var u := AllPartsTold(t, n, config, ev);
      && StandingOf(u) == Follow(StandingOf(t), PartsOccur(config, ev.parts, ev.partial))
      && Below(u, AllPartsNoted(config, n, ev).serial)
  {
    PartsFollow(t, MetadataNoted(n, ev), config, ev.parts, ev.partial, ev.author);
  }

  lemma EventFollows(t: Transcript, n: Narrative, config: Config, ev: AdkEvent)
    requires Below(t, n.serial)
    ensures StandingOf(EventTold(t, n, config, ev)) == Follow(StandingOf(t), EventOccurs(config, ev))
    ensures Below(EventTold(t, n, config, ev), EventNoted(config, n, ev).serial)
  {
    var m := HeaderNoted(config, n, ev);
    HeaderFresh(config, n, ev);
    AgentActive(config, n, ev);
    if ev.Failed() && !config.RootAuthor(ev.author) {
      var u := CallsEnd(ThoughtEnds(TextEnds(t)));
      assert EventTold(t, n, config, ev) == u && EventOccurs(config, ev) == [CutOff];
      ContentFresh(config, m, ev);
      FollowOne(StandingOf(t), CutOff);
      CutOffFollows(t, n.serial);
    } else {
      ContentFollows(t, FailureNoted(m, ev), config, ev);
    }
  }

  /** The active agent of an event is that of its author. */
  lemma AgentActive(config: Config, n: Narrative, ev: AdkEvent)
    ensures config.RootAuthor(ev.author) ==> HeaderNoted(config, n, ev).agent.None?
  {
  }

  lemma CutOffFollows(t: Transcript, serial: nat)
    requires Below(t, serial)
    ensures Below(CallsEnd(ThoughtEnds(TextEnds(t))), serial)
    ensures StandingOf(CallsEnd(ThoughtEnds(TextEnds(t)))) == Next(StandingOf(t), CutOff)
  {
    var c := t.calls;
    if c.Ledger? {
      assert Supplied(c.finished + c.streaming.Keys) == Supplied(c.finished) + Supplied(c.streaming.Keys);
    }
  }

  lemma {:induction false} EventsFollow(n: Narrative, config: Config, evs: seq<AdkEvent>)
    ensures
      var u := EventsTold(Silence, n, config, evs);
      && StandingOf(u) == Follow(Standing({}, {}), Occurrences(config, evs))
      && Below(u, EventsNoted(config, n, evs).serial)
  {
    if evs == [] {
      assert StandingOf(Silence) == Standing({}, {});
    } else {
      var before, last := evs[..|evs| - 1], evs[|evs| - 1];
      EventsFollow(n, config, before);
      EventFollows(EventsTold(Silence, n, config, before), EventsNoted(config, n, before), config, last);
      FollowConcat(Standing({}, {}), Occurrences(config, before), EventOccurs(config, last));
    }
  }

  // ----- The closed form -----

  predicate StreamedBefore(os: seq<Occurrence>, n: nat, id: ID)
    requires n <= |os|
  {
    exists m :: 0 <= m < n && os[m].Fragments? && os[m].id == id
  }

  predicate Closes(o: Occurrence, id: ID) { o.CutOff? || o == Final(id) }

  /** A call that was streamed and then closed, by a final event or by a sub-agent's error. */
  predicate ClosedBefore(os: seq<Occurrence>, n: nat, id: ID)
    requires n <= |os|
  {
    exists c :: 0 <= c < n && Closes(os[c], id) && StreamedBefore(os, c, id)
  }

  /** The n-th occurrence fits: a closed call gets no final event and no further text, and a
      built-in call does not reuse the identifier of a call that is streaming. */
  predicate Fits(os: seq<Occurrence>, n: nat)
    requires n < |os|
  {
    match os[n]
    case Fragments(id, text) => text == "" || !ClosedBefore(os, n, id)
    case Final(id) => !ClosedBefore(os, n, id)
    case Builtin(id) => StreamedBefore(os, n, id) ==> ClosedBefore(os, n, id)
    case CutOff => true
  }

  predicate InOrder(os: seq<Occurrence>) { forall n :: 0 <= n < |os| ==> Fits(os, n) }

  lemma BeforeOneMore(os: seq<Occurrence>, o: Occurrence, n: nat, id: ID)
    requires n <= |os|
    ensures StreamedBefore(os + [o], n, id) == StreamedBefore(os, n, id)
    ensures ClosedBefore(os + [o], n, id) == ClosedBefore(os, n, id)
  {
    var all := os + [o];
    forall c | 0 <= c <= n ensures StreamedBefore(all, c, id) == StreamedBefore(os, c, id) {
      assert forall m :: 0 <= m < c ==> all[m] == os[m];
    }
    assert forall c :: 0 <= c < n ==> all[c] == os[c];
  }

  /** How the last occurrence changes what was streamed and closed. */
  lemma AfterOneMore(os: seq<Occurrence>, o: Occurrence, id: ID)
    ensures
      var all, n := os + [o], |os|;
      && (StreamedBefore(all, n + 1, id) <==> StreamedBefore(os, n, id) || (o.Fragments? && o.id == id))
      && (ClosedBefore(all, n + 1, id) <==> ClosedBefore(os, n, id) || (Closes(o, id) && StreamedBefore(os, n, id)))
  {
    var all, n := os + [o], |os|;
    assert all[n] == o;
    BeforeOneMore(os, o, n, id);
    assert forall m :: 0 <= m < n ==> all[m] == os[m];
    if c :| 0 <= c < n && Closes(os[c], id) && StreamedBefore(os, c, id) {
      BeforeOneMore(os, o, c, id);
    }
    if Closes(o, id) && StreamedBefore(os, n, id) {
      assert Closes(all[n], id) && StreamedBefore(all, n, id);
    }
    if c :| 0 <= c < n + 1 && Closes(all[c], id) && StreamedBefore(all, c, id) {
      BeforeOneMore(os, o, c, id);
    }
  }

  ghost predicate Reflects(s: Standing, os: seq<Occurrence>)
    requires s.Standing?
  {
    && (forall id :: id in s.closed <==> ClosedBefore(os, |os|, id))
    && forall id :: id in s.streaming <==> StreamedBefore(os, |os|, id) && !ClosedBefore(os, |os|, id)
  }

  lemma InOrderOneMore(os: seq<Occurrence>, o: Occurrence)
    ensures InOrder(os + [o]) <==> InOrder(os) && Fits(os + [o], |os|)
  {
    var all := os + [o];
    forall n | 0 <= n < |os| ensures Fits(all, n) <==> Fits(os, n) {
      assert all[n] == os[n];
      if !os[n].CutOff? {
        BeforeOneMore(os, o, n, os[n].id);
      }
    }
  }

  lemma NextReflects(s: Standing, os: seq<Occurrence>, o: Occurrence)
    requires s.Standing? && Reflects(s, os)
    ensures Next(s, o).Standing? <==> Fits(os + [o], |os|)
    ensures Next(s, o).Standing? ==> Reflects(Next(s, o), os + [o])
  {
    var all, t := os + [o], Next(s, o);
    assert all[|os|] == o;
    if !o.CutOff? {
      BeforeOneMore(os, o, |os|, o.id);
    }
    if t.Standing? {
      forall id
        ensures id in t.closed <==> ClosedBefore(all, |all|, id)
        ensures id in t.streaming <==> StreamedBefore(all, |all|, id) && !ClosedBefore(all, |all|, id)
      {
        AfterOneMore(os, o, id);
      }
    }
  }

  lemma {:induction false} FollowReflects(os: seq<Occurrence>)
    ensures Follow(Standing({}, {}), os).Standing? <==> InOrder(os)
    ensures InOrder(os) ==> Reflects(Follow(Standing({}, {}), os), os)
  {
    if os != [] {
      var before, last := os[..|os| - 1], os[|os| - 1];
      FollowReflects(before);
      assert os == before + [last];
      InOrderOneMore(before, last);
      if InOrder(before) {
        NextReflects(Follow(Standing({}, {}), before), before, last);
      }
    }
  }

  /** The events can be streamed within the protocol exactly when no call that was streamed and
      closed gets another final event or more text, whether a final event or a sub-agent's
      error closed it, and no built-in call takes the identifier of a streaming call. */
  lemma DisciplinedExactly(config: Config, evs: seq<AdkEvent>)
    ensures Disciplined(config, evs) <==> InOrder(Occurrences(config, evs))
  {
    EventsFollow(Beginning(0, []), config, evs);
    FollowReflects(Occurrences(config, evs));
  }

  /** What was said before does not matter: drawn identifiers never break the protocol. */
  lemma DisciplinedAnywhere(n: Narrative, config: Config, evs: seq<AdkEvent>)
    ensures EventsTold(Silence, n, config, evs).calls.Ledger? <==> Disciplined(config, evs)
  {
    EventsFollow(n, config, evs);
    EventsFollow(Beginning(0, []), config, evs);
  }

  /** After its final event a call does not occur again. */
  predicate FinalIsLast(os: seq<Occurrence>) {
    forall m, n :: 0 <= m < n < |os| && os[m].Final? && !os[n].CutOff? ==> os[m].id != os[n].id
  }

  /** A call that a sub-agent's error cut off does not occur again. */
  predicate CutOffIsLast(os: seq<Occurrence>) {
    forall m, c, n :: 0 <= m < c < n < |os| && os[m].Fragments? && os[c].CutOff? && !os[n].CutOff? ==> os[m].id != os[n].id
  }

  predicate BuiltinsApart(os: seq<Occurrence>) {
    forall m, n :: 0 <= m < n < |os| && os[m].Fragments? && os[n].Builtin? ==> os[m].id != os[n].id
  }

  /** In particular, partials followed by at most one final event per call are disciplined, as
      long as no call goes on after an error of a sub-agent and built-in calls bring identifiers
      of their own. */
  lemma OrdinaryIsDisciplined(config: Config, evs: seq<AdkEvent>)
    requires var os := Occurrences(config, evs); FinalIsLast(os) && CutOffIsLast(os) && BuiltinsApart(os)
    ensures Disciplined(config, evs)
  {
    var os := Occurrences(config, evs);
    forall n | 0 <= n < |os| && !os[n].CutOff? ensures !ClosedBefore(os, n, os[n].id) {
    }
    DisciplinedExactly(config, evs);
  }

  // ----- Undisciplined streams exist -----

  function CallPart(id: string, name: string, fragments: seq<string>): Part {
    Part(false, "", "", Some(FunctionCall(id, name, NoArgs, fragments)), None, None, None, None, None, None, None)
  }

  function CallEvent(author: string, part: Part, partial: bool, error: string): AdkEvent {
    AdkEvent(author, partial, false, None, map[], error, "", [Some(part)], None, None, [], None)
  }

  /** A streamed call that is finished twice, and one that is finished after the error of
      its sub-agent already closed it, cannot be streamed within the protocol. */
  lemma UndisciplinedExamples()
    ensures
      var config := Config(false, None, false, false, "root", None);
      var start := CallEvent("helper", CallPart("c1", "lookup", ["{}"]), true, "");
      var finish := CallEvent("helper", CallPart("c1", "lookup", []), false, "");
      var failure := CallEvent("helper", CallPart("c2", "other", []), false, "overloaded");
      && Disciplined(config, [start, finish])
      && !Disciplined(config, [start, finish, finish])
      && !Disciplined(config, [start, failure, finish])
  {
    var config := Config(false, None, false, false, "root", None);
    var part0, part1 := CallPart("c1", "lookup", ["{}"]), CallPart("c1", "lookup", []);
    var start, finish := CallEvent("helper", part0, true, ""), CallEvent("helper", part1, false, "");
    var failure := CallEvent("helper", CallPart("c2", "other", []), false, "overloaded");
    var c1 := Given("c1");
    OneOccurs(config, start, part0);
    OneOccurs(config, finish, part1);
    FinishedTwice(c1, Concat(["{}"]));
    ThreeEvents(config, start, finish, finish, Fragments(c1, Concat(["{}"])), Final(c1), Final(c1));
    ThreeEvents(config, start, failure, finish, Fragments(c1, Concat(["{}"])), CutOff, Final(c1));
  }

  lemma FinishedTwice(id: ID, text: string)
    ensures
      var begun := Next(Standing({}, {}), Fragments(id, text));
      && Next(begun, Final(id)).Standing? && Next(Next(begun, Final(id)), Final(id)).Lost?
      && Next(Next(begun, CutOff), Final(id)).Lost?
  {
  }

  lemma OneOccurs(config: Config, ev: AdkEvent, part: Part)
    requires ev.parts == [Some(part)] && !ev.Failed() && !part.Reasoning() && part.functionCall.Some?
    ensures EventOccurs(config, ev) == CallOccurs(config, part.functionCall.value, ev.partial)
  {
    assert ev.parts[..0] == [];
    assert PartsOccur(config, ev.parts[..0], ev.partial) == [];
  }

  lemma ThreeEvents(config: Config, a: AdkEvent, b: AdkEvent, c: AdkEvent, o: Occurrence, p: Occurrence, q: Occurrence)
    requires EventOccurs(config, a) == [o] && EventOccurs(config, b) == [p] && EventOccurs(config, c) == [q]
    ensures
      var two := Next(Next(Standing({}, {}), o), p);
      && (Disciplined(config, [a, b]) <==> two.Standing?)
      && (Disciplined(config, [a, b, c]) <==> Next(two, q).Standing?)
  {
    assert [a, b, c][..2] == [a, b] && [a, b][..1] == [a] && [a][..0] == [];
    assert Occurrences(config, []) == [];
    assert Occurrences(config, [a]) == [o] && Occurrences(config, [a, b]) == [o] + [p];
    FollowOne(Standing({}, {}), o);
    FollowConcat(Standing({}, {}), [o], [p]);
    FollowOne(Next(Standing({}, {}), o), p);
    FollowConcat(Standing({}, {}), [o] + [p], [q]);
    FollowOne(Next(Next(Standing({}, {}), o), p), q);
    EventsFollow(Beginning(0, []), config, [a, b]);
    EventsFollow(Beginning(0, []), config, [a, b, c]);
  }
}
