/** What a run reports as its usage, told by the counts of its events. */
module UsageLaws {
  import opened Events
  import opened Adk
  import opened TokenUsage
  import Bridge

  /** Which of the model's counts a counter reports. */
  function CountOf(m: UsageMetadata, c: Counter): int {
    match c
    case Input => m.prompt
    case Output => m.candidates
    case Whole => m.total
    case Reasoning => m.thoughts
    case Cached => m.cached
  }

  /** The provider that goes by the prefix of the model's name. */
  predicate Provides(provider: string, model: string) {
    if "gemini-" <= model then provider == "google"
    else if "gpt-" <= model then provider == "openai"
    else if "claude-" <= model then provider == "anthropic"
    else provider == ""
  }

  /** The complete event counts something for the model and its provider. */
  predicate Charges(ev: AdkEvent, provider: string, model: string, c: Counter) {
    && !ev.partial && ev.usage.Some? && ev.usage.value.modelVersion == model && Provides(provider, model)
    && CountOf(ev.usage.value, c) > 0
  }

  function Charged(evs: seq<AdkEvent>, provider: string, model: string, c: Counter): int {
    if evs == [] then 0
    else
      var last := evs[|evs| - 1];
      Charged(evs[..|evs| - 1], provider, model, c) + if Charges(last, provider, model, c) then CountOf(last.usage.value, c) else 0
  }

  lemma SameKey(e: Usage, provider: string, model: string)
    requires '\0' !in provider && '\0' !in e.provider
    ensures KeyOf(e) == provider + ['\0'] + model <==> e.provider == provider && e.model == model
  {
    var key, mine := provider + ['\0'] + model, KeyOf(e);
    assert key[|provider|] == '\0' && forall i :: 0 <= i < |provider| ==> key[i] != '\0';
    assert mine[|e.provider|] == '\0' && forall i :: 0 <= i < |e.provider| ==> mine[i] != '\0';
    if mine == key {
      assert |e.provider| == |provider|;
      assert mine[..|provider|] == e.provider && key[..|provider|] == provider;
      assert mine[|provider| + 1..] == e.model && key[|provider| + 1..] == model;
    }
  }

  lemma EntryCharges(ev: AdkEvent, provider: string, model: string, c: Counter)
    requires '\0' !in provider
    ensures
      var entries := ev.Billed();
      && |entries| <= 1
      && (entries != [] && KeyOf(entries[0]) == provider + ['\0'] + model && Reading(entries[0], c).Some? <==> Charges(ev, provider, model, c))
      && (Charges(ev, provider, model, c) ==> Reading(entries[0], c).value == CountOf(ev.usage.value, c))
  {
    if ev.Billed() != [] {
      var e, m := ev.Billed()[0], ev.usage.value;
      SameKey(e, provider, model);
      assert Provides(provider, model) && m.modelVersion == model <==> e.provider == provider && e.model == model;
      assert Reading(e, c) == if CountOf(m, c) > 0 then Some(CountOf(m, c)) else None;
    }
  }

  predicate SomeCharges(evs: seq<AdkEvent>, provider: string, model: string, c: Counter) {
    exists i :: 0 <= i < |evs| && Charges(evs[i], provider, model, c)
  }

  lemma SomeMoreCharges(evs: seq<AdkEvent>, ev: AdkEvent, provider: string, model: string, c: Counter)
    ensures SomeCharges(evs + [ev], provider, model, c) <==> SomeCharges(evs, provider, model, c) || Charges(ev, provider, model, c)
  {
    var all := evs + [ev];
    assert all[|evs|] == ev && forall i :: 0 <= i < |evs| ==> all[i] == evs[i];
  }

  /** A run reports a counter for a model exactly if some complete event counted something, and
      then the sum of what the complete events counted. */
  lemma {:induction false} UsageOfRun(evs: seq<AdkEvent>, provider: string, model: string, c: Counter)
    requires '\0' !in provider
    ensures
      var reported := Reading(TokenUsage.Total(Bridge.Billed(evs), provider + ['\0'] + model), c);
      && (reported.Some? <==> SomeCharges(evs, provider, model, c))
      && Charged(evs, provider, model, c) == if reported.Some? then reported.value else 0
  {
    if evs != [] {
      var before, last := evs[..|evs| - 1], evs[|evs| - 1];
      UsageOfRun(before, provider, model, c);
      EntryCharges(last, provider, model, c);
      SomeMoreCharges(before, last, provider, model, c);
      assert before + [last] == evs;
      OneMoreEntry(Bridge.Billed(before), last.Billed(), provider + ['\0'] + model, c);
    }
  }

  lemma OneMoreEntry(billed: seq<Usage>, entries: seq<Usage>, key: string, c: Counter)
    requires |entries| <= 1
    ensures
      var before, after := Reading(TokenUsage.Total(billed, key), c), Reading(TokenUsage.Total(billed + entries, key), c);
      after == if entries == [] || KeyOf(entries[0]) != key then before else Plus(before, Reading(entries[0], c))
  {
    if entries == [] {
      assert billed + entries == billed;
    } else {
      assert (billed + entries)[..|billed|] == billed && (billed + entries)[|billed|] == entries[0];
      MergedReading(TokenUsage.Total(billed, key), entries[0], c);
    }
  }
}
