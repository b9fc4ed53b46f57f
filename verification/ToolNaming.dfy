/** Bounded, collision-free names for MCP tools (agui/mcp_naming.go). */
module ToolNaming {
  import opened Decimals

  const MAX_LENGTH: nat := 64
  const PREFIX: string := "mcp"

  /** The largest number of entries a map can hold. */
  const MAX_ENTRIES: nat := 0x7fff_ffff_ffff_ffff

  // ----- Segments -----

  predicate Allowed(c: char) {
    'a' <= c <= 'z' || 'A' <= c <= 'Z' || '0' <= c <= '9' || c == '_' || c == '-'
  }

  predicate AllAllowed(s: string) { forall i :: 0 <= i < |s| ==> Allowed(s[i]) }

  function Replaced(s: string): string {
    if s == "" then "" else [if Allowed(s[0]) then s[0] else '_'] + Replaced(s[1..])
  }

  function TrimLeft(s: string): string { if s != "" && s[0] == '_' then TrimLeft(s[1..]) else s }

  function TrimRight(s: string): string { if s != "" && s[|s| - 1] == '_' then TrimRight(s[..|s| - 1]) else s }

  lemma {:induction false} ReplacedMeans(s: string, r: string)
    requires r == Replaced(s)
    ensures |r| == |s| && AllAllowed(r)
    ensures forall i :: 0 <= i < |s| ==> r[i] == if Allowed(s[i]) then s[i] else '_'
  {
    if s != "" {
      ReplacedMeans(s[1..], r[1..]);
    }
  }

  lemma {:induction false} TrimLeftMeans(s: string, r: string)
    requires r == TrimLeft(s)
    ensures |r| <= |s| && r == s[|s| - |r|..] && (forall i :: 0 <= i < |s| - |r| ==> s[i] == '_') && (r != "" ==> r[0] != '_')
  {
    if s != "" && s[0] == '_' {
      TrimLeftMeans(s[1..], r);
      forall i | 0 < i < |s| - |r| ensures s[i] == '_' {
        assert s[1..][i - 1] == s[i];
      }
    }
  }

  lemma {:induction false} TrimRightMeans(s: string, r: string)
    requires r == TrimRight(s)
    ensures |r| <= |s| && r == s[..|r|] && (forall i :: |r| <= i < |s| ==> s[i] == '_') && (r != "" ==> r[|r| - 1] != '_')
  {
    if s != "" && s[|s| - 1] == '_' {
      TrimRightMeans(s[..|s| - 1], r);
      forall i | |r| <= i < |s| - 1 ensures s[i] == '_' {
        assert s[..|s| - 1][i] == s[i];
      }
    }
  }

  function SanitizeSegment(s: string): string { TrimRight(TrimLeft(Replaced(s))) }

  predicate Clean(s: string) { AllAllowed(s) && (s != "" ==> s[0] != '_' && s[|s| - 1] != '_') }

  /** The result is the stretch of the segment that starts there, with underscores for what is
      not allowed, and nothing but such characters and underscores is cut off around it. */
  predicate SanitizedAt(s: string, r: string, start: int) {
    && 0 <= start <= |s| - |r|
    && (forall i :: 0 <= i < |r| ==> r[i] == if Allowed(s[start + i]) then s[start + i] else '_')
    && forall i :: 0 <= i < |s| && !(start <= i < start + |r|) ==> s[i] == '_' || !Allowed(s[i])
  }

  lemma CutOut(s: string, all: string, left: string, r: string)
    requires |all| == |s| && AllAllowed(all) && forall i :: 0 <= i < |s| ==> all[i] == if Allowed(s[i]) then s[i] else '_'
    requires |left| <= |all| && left == all[|all| - |left|..] && (forall i :: 0 <= i < |all| - |left| ==> all[i] == '_') && (left != "" ==> left[0] != '_')
    requires |r| <= |left| && r == left[..|r|] && (forall i :: |r| <= i < |left| ==> left[i] == '_') && (r != "" ==> r[|r| - 1] != '_')
    ensures SanitizedAt(s, r, |s| - |left|) && Clean(r)
  {
    var start := |all| - |left|;
    forall i | 0 <= i < |left| ensures left[i] == all[start + i] {
      assert left[i] == all[start..][i];
    }
    forall i | start + |r| <= i < |s| ensures all[i] == '_' {
      assert left[i - start] == all[i];
    }
  }

  /** Sanitizing cuts the segment to a clean one and replaces what is not allowed. */
  lemma SanitizedIsCut(s: string) returns (start: nat)
    ensures SanitizedAt(s, SanitizeSegment(s), start) && Clean(SanitizeSegment(s))
  {
    var all := Replaced(s);
    var left := TrimLeft(all);
    var r := TrimRight(left);
    ReplacedMeans(s, all);
    TrimLeftMeans(all, left);
    TrimRightMeans(left, r);
    CutOut(s, all, left, r);
    start := |s| - |left|;
  }

  lemma NothingToTrim(s: string)
    requires Clean(s)
    ensures TrimLeft(s) == s && TrimRight(s) == s && Replaced(s) == s
  {
    ReplacedMeans(s, Replaced(s));
    assert Replaced(s) == s;
  }

  /** Sanitizing makes a segment clean and leaves clean segments alone. */
  lemma SanitizedIsClean(s: string)
    ensures Clean(SanitizeSegment(s))
    ensures Clean(s) ==> SanitizeSegment(s) == s
  {
    var _ := SanitizedIsCut(s);
    if Clean(s) {
      NothingToTrim(s);
    }
  }

  // ----- Suffixes -----

  function Suffix(i: nat): string { "_" + Decimal(i) }

  lemma EnoughDigits()
    ensures Power10(19) > MAX_ENTRIES + 3
  {
    PowersMultiply(9, 10);
    PowersMultiply(4, 5);
    PowersMultiply(5, 5);
    assert Power10(4) == 10_000;
    assert Power10(5) == 10 * Power10(4);
  }

  /** Suffixes stay short, whatever the number of names in use. */
  lemma SuffixLength(i: nat)
    requires i <= MAX_ENTRIES + 2
    ensures |Suffix(i)| <= 20
  {
    EnoughDigits();
    DecimalLength(i, 19);
  }

  // ----- Candidates -----

  /** A name cut to a length. */
  function Cut(name: string, length: int): string {
    if |name| <= length then name else if length < 0 then "" else name[..length]
  }

  function Joined(server: string, tool: string): string { PREFIX + "__" + server + "__" + tool }

  function Base(serverID: string, toolName: string): string {
    Cut(Joined(SanitizeSegment(serverID), SanitizeSegment(toolName)), MAX_LENGTH)
  }

  /** The i-th name to try: the base itself, then the base cut to make room for a suffix. */
  function Candidate(base: string, i: nat): string {
    if i < 2 then base else Cut(base, MAX_LENGTH - |Suffix(i)|) + Suffix(i)
  }

  predicate Valid(name: string) {
    |name| <= MAX_LENGTH && AllAllowed(name) && PREFIX + "__" <= name
  }

  /** What is left of a name when room is made for its end. */
  predicate Reads(name: string, full: string, end: string) {
    var n := if |full| + |end| <= 64 then |full| else 64 - |end|;
    0 <= n <= |full| && name == full[..n] + end
  }

  lemma CutReads(full: string, i: nat)
    requires i <= MAX_ENTRIES + 2
    ensures Reads(Candidate(Cut(full, MAX_LENGTH), i), full, if i < 2 then "" else "_" + Decimal(i))
  {
    var base := Cut(full, MAX_LENGTH);
    assert full[..|full|] == full && base[..|base|] == base;
    if i < 2 {
      assert base + "" == base;
    } else {
      SuffixLength(i);
      if |full| > 64 {
        assert full[..64][..64 - |Suffix(i)|] == full[..64 - |Suffix(i)|];
      }
    }
  }

  lemma JoinedReads(server: string, tool: string, i: nat)
    requires i <= MAX_ENTRIES + 2
    ensures Reads(Candidate(Cut(Joined(server, tool), MAX_LENGTH), i), "mcp__" + server + "__" + tool, if i < 2 then "" else "_" + Decimal(i))
  {
    assert PREFIX + "__" == "mcp__";
    CutReads(Joined(server, tool), i);
  }

  /** A name reads "mcp", the server and the tool, cut to 64 characters; a later candidate ends
      with its number, and is cut only as far as that needs room. */
  lemma CandidateReads(serverID: string, toolName: string, server: string, tool: string, base: string, i: nat)
    requires server == SanitizeSegment(serverID) && tool == SanitizeSegment(toolName) && base == Base(serverID, toolName)
    requires i <= MAX_ENTRIES + 2
    ensures Reads(Candidate(base, i), "mcp__" + server + "__" + tool, if i < 2 then "" else "_" + Decimal(i))
  {
    JoinedReads(server, tool, i);
  }

  lemma JoinedIsAllowed(server: string, tool: string)
    requires AllAllowed(server) && AllAllowed(tool)
    ensures AllAllowed(Joined(server, tool)) && PREFIX + "__" <= Joined(server, tool)
  {
    assert PREFIX + "__" == "mcp__";
    assert Joined(server, tool) == "mcp__" + (server + ("__" + tool));
  }

  lemma BaseIsValid(serverID: string, toolName: string)
    ensures Valid(Base(serverID, toolName))
  {
    SanitizedIsClean(serverID);
    SanitizedIsClean(toolName);
    JoinedIsAllowed(SanitizeSegment(serverID), SanitizeSegment(toolName));
  }

  lemma CandidateIsValid(base: string, i: nat)
    requires Valid(base) && (i >= 2 ==> |Suffix(i)| <= 20)
    ensures Valid(Candidate(base, i))
  {
  }

  /** A suffixed candidate ends in an underscore and digits only. */
  lemma SuffixedEnd(base: string, i: nat)
    requires i >= 2
    ensures var a := Candidate(base, i);
      var m := |a| - |Decimal(i)|;
      m > 0 && a[m..] == Decimal(i) && a[m - 1] == '_' && forall k :: m <= k < |a| ==> a[k] != '_'
  {
    var a := Candidate(base, i);
    var m := |a| - |Decimal(i)|;
    assert a[m..] == Decimal(i);
    assert forall k :: m <= k < |a| ==> a[k] == a[m..][k - m];
  }

  /** Suffixed candidates differ: the digits after the last underscore tell them apart. */
  lemma CandidatesDiffer(base: string, i: nat, j: nat)
    requires 2 <= i < j
    ensures Candidate(base, i) != Candidate(base, j)
  {
    SuffixedEnd(base, i);
    SuffixedEnd(base, j);
    if Candidate(base, i) == Candidate(base, j) {
      DecimalInjective(i, j);
    }
  }

  ghost predicate EndsWith(s: string, end: string) { |end| <= |s| && s[|s| - |end|..] == end }

  /** A full-length base whose end is a suffix that may be tried. */
  ghost predicate EndsLikeSuffix(base: string) {
    |base| == MAX_LENGTH && exists i: nat :: 2 <= i <= MAX_ENTRIES + 1 && EndsWith(base, Suffix(i))
  }

  /** A valid base is its own i-th candidate exactly when it has full length and ends in the suffix. */
  lemma SelfCandidate(base: string, i: nat)
    requires |base| <= MAX_LENGTH && i >= 2
    ensures Candidate(base, i) == base <==> |base| == MAX_LENGTH && EndsWith(base, Suffix(i))
  {
    if |base| == MAX_LENGTH && EndsWith(base, Suffix(i)) {
      assert base == base[..MAX_LENGTH - |Suffix(i)|] + Suffix(i);
    } else if Candidate(base, i) == base {
      EndOf(Cut(base, MAX_LENGTH - |Suffix(i)|), Suffix(i));
    }
  }

  lemma EndOf(s: string, end: string)
    ensures EndsWith(s + end, end)
  {
  }

  // ----- Unique names -----

  /** Pigeonhole: distinct names in use are no more than the names in use. */
  lemma {:induction false} DistinctFit(names: seq<string>, used: set<string>)
    requires forall i, j :: 0 <= i < j < |names| ==> names[i] != names[j]
    requires forall i :: 0 <= i < |names| ==> names[i] in used
    ensures |names| <= |used|
  {
    if names != [] {
      var last := names[|names| - 1];
      DistinctFit(names[..|names| - 1], used - {last});
    }
  }

  /** If all candidates before the i-th are in use, there are not many. */
  lemma AllTriedInUse(base: string, used: set<string>, i: nat)
    requires i >= 2 && forall j :: 1 <= j < i ==> Candidate(base, j) in used
    ensures i <= |used| + 2
  {
    var names := seq(i - 2, k requires 0 <= k => Candidate(base, k + 2));
    forall k, l | 0 <= k < l < |names| ensures names[k] != names[l] {
      CandidatesDiffer(base, k + 2, l + 2);
    }
    DistinctFit(names, used);
  }

  /** The first candidates. */
  function Firsts(base: string, n: nat): (names: seq<string>)
    ensures |names| == n && forall k :: 0 <= k < n ==> names[k] == Candidate(base, k + 1)
  {
    if n == 0 then [] else Firsts(base, n - 1) + [Candidate(base, n)]
  }

  lemma AllDiffer(base: string, k: nat, l: nat)
    requires |base| <= MAX_LENGTH && 1 <= k < l <= MAX_ENTRIES + 1 && !EndsLikeSuffix(base)
    ensures Candidate(base, k) != Candidate(base, l)
  {
    if k >= 2 {
      CandidatesDiffer(base, k, l);
    } else {
      SelfCandidate(base, l);
    }
  }

  /** One try more than there are names is enough unless the base is its own candidate. */
  lemma TriesBound(base: string, used: set<string>, i: nat)
    requires |base| <= MAX_LENGTH && |used| <= MAX_ENTRIES && i >= 1 && !EndsLikeSuffix(base)
    requires forall j :: 1 <= j < i ==> Candidate(base, j) in used
    ensures i <= |used| + 1
  {
    if i >= 2 {
      AllTriedInUse(base, used, i);
    }
    var names := Firsts(base, i - 1);
    forall k, l | 0 <= k < l < |names| ensures names[k] != names[l] {
      AllDiffer(base, k + 1, l + 1);
    }
    DistinctFit(names, used);
  }

  method TryNext(base: string, i: nat) returns (name: string)
    requires 2 <= i <= MAX_ENTRIES + 2
    ensures name == Candidate(base, i) && |Suffix(i)| <= 20
  {
    SuffixLength(i);
    var suffix := Suffix(i);
    name := base;
    if |name| + |suffix| > MAX_LENGTH {
      name := name[..MAX_LENGTH - |suffix|];
    }
    name := name + suffix;
  }

  method FirstFree(base: string, used: set<string>) returns (name: string, tries: nat)
    requires Valid(base) && |used| <= MAX_ENTRIES
    ensures Valid(name) && name !in used
    ensures 1 <= tries <= |used| + 2 && name == Candidate(base, tries)
    ensures forall j :: 1 <= j < tries ==> Candidate(base, j) in used
    ensures !EndsLikeSuffix(base) ==> tries <= |used| + 1
  {
    name, tries := base, 1;
    while name in used
      invariant tries >= 1 && name == Candidate(base, tries) && Valid(name)
      invariant forall j :: 1 <= j < tries ==> Candidate(base, j) in used
      decreases |used| + 3 - tries
    {
      AllTriedInUse(base, used, tries + 1);
      tries := tries + 1;
      name := TryNext(base, tries);
      CandidateIsValid(base, tries);
    }
    if tries >= 2 {
      AllTriedInUse(base, used, tries);
    }
    if !EndsLikeSuffix(base) {
      TriesBound(base, used, tries);
    }
  }

  /** The first candidate not in use, found with at most one try more than there are names in
      use, or two if the base ends like one of its own suffixes. */
  method MakeUniqueToolName(serverID: string, toolName: string, used: set<string>) returns (name: string, after: set<string>, tries: nat)
    requires |used| <= MAX_ENTRIES
    ensures Valid(name) && name !in used && after == used + {name}
    ensures 1 <= tries <= |used| + 2 && name == Candidate(Base(serverID, toolName), tries)
    ensures forall j :: 1 <= j < tries ==> Candidate(Base(serverID, toolName), j) in used
    ensures !EndsLikeSuffix(Base(serverID, toolName)) ==> tries <= |used| + 1
  {
    var base := Joined(SanitizeSegment(serverID), SanitizeSegment(toolName));
    if |base| > MAX_LENGTH {
      base := base[..MAX_LENGTH];
    }
    assert base == Base(serverID, toolName);
    BaseIsValid(serverID, toolName);
    name, tries := FirstFree(base, used);
    after := used + {name};
  }

  datatype Listed = Listed(serverID: string, toolName: string)

  predicate Distinct(names: seq<string>) { forall i, j :: 0 <= i < j < |names| ==> names[i] != names[j] }

  predicate NewIn(names: seq<string>, existing: set<string>, used: set<string>) {
    forall i :: 0 <= i < |names| ==> names[i] in used && names[i] !in existing
  }

  predicate AllValid(names: seq<string>) { forall i :: 0 <= i < |names| ==> Valid(names[i]) }

  lemma OneMore(names: seq<string>, existing: set<string>, used: set<string>, name: string)
    requires Distinct(names) && NewIn(names, existing, used) && existing <= used && name !in used
    ensures Distinct(names + [name]) && NewIn(names + [name], existing, used + {name})
  {
  }

  /** The name is the first candidate that is not in use. */
  ghost predicate NamedFor(base: string, name: string, used: set<string>) {
    exists n :: FirstOf(base, name, used, n)
  }

  predicate FirstOf(base: string, name: string, used: set<string>, n: int) {
    n >= 1 && name !in used && name == Candidate(base, n) && forall j :: 1 <= j < n ==> Candidate(base, j) in used
  }

  function Bases(listed: seq<Listed>): (bases: seq<string>)
    ensures |bases| == |listed|
  {
    if listed == [] then []
    else
      var last := listed[|listed| - 1];
      Bases(listed[..|listed| - 1]) + [Base(last.serverID, last.toolName)]
  }

  lemma {:induction false} BasesAt(listed: seq<Listed>, n: nat)
    requires n < |listed|
    ensures Bases(listed)[n] == Base(listed[n].serverID, listed[n].toolName)
  {
    if n < |listed| - 1 {
      BasesAt(listed[..|listed| - 1], n);
    }
  }

  function Taken(existing: set<string>, names: seq<string>): set<string> { existing + set n | n in names }

  lemma OneMoreNamed(bases: seq<string>, existing: set<string>, names: seq<string>, all: seq<string>, i: nat)
    requires i < |all| <= |bases| && |all| == |names| + 1 && all[..|names|] == names
    requires i < |names| ==> NamedFor(bases[i], names[i], Taken(existing, names[..i]))
    requires i == |names| ==> NamedFor(bases[i], all[i], Taken(existing, names))
    ensures NamedFor(bases[i], all[i], Taken(existing, all[..i]))
  {
    if i < |names| {
      assert names[i] == all[..|names|][i] && all[..i] == all[..|names|][..i];
    }
  }

  method NameTool(listed: seq<Listed>, n: nat, used: set<string>) returns (name: string, after: set<string>)
    requires n < |listed| && |used| <= MAX_ENTRIES
    ensures AllValid([name]) && name !in used && after == used + {name} && NamedFor(Bases(listed)[n], name, used)
  {
    var tries;
    name, after, tries := MakeUniqueToolName(listed[n].serverID, listed[n].toolName, used);
    BasesAt(listed, n);
    assert FirstOf(Bases(listed)[n], name, used, tries);
  }

  lemma ValidAppend(names: seq<string>, name: string)
    requires AllValid(names) && AllValid([name])
    ensures AllValid(names + [name])
  {
    assert [name][0] == name;
  }

  /** Names for all listed tools: each the tool's first candidate that is neither an existing name
      nor given to an earlier tool, valid, pairwise distinct, and none of the existing ones. */
  method ResolveTools(listed: seq<Listed>, existing: set<string>) returns (names: seq<string>)
    requires |existing| + |listed| <= MAX_ENTRIES
    ensures |names| == |listed| && Distinct(names) && AllValid(names)
    ensures forall i :: 0 <= i < |names| ==> names[i] !in existing
    ensures forall i :: 0 <= i < |names| ==> NamedFor(Bases(listed)[i], names[i], Taken(existing, names[..i]))
  {
    var used := existing;
    names := [];
    for n := 0 to |listed|
      invariant |names| == n && |used| == |existing| + n && existing <= used
      invariant Distinct(names) && NewIn(names, existing, used) && AllValid(names)
      invariant used == Taken(existing, names)
      invariant forall i :: 0 <= i < |names| ==> NamedFor(Bases(listed)[i], names[i], Taken(existing, names[..i]))
    {
      var name, after := NameTool(listed, n, used);
      OneMore(names, existing, used, name);
      ValidAppend(names, name);
      forall i | 0 <= i < n + 1 ensures NamedFor(Bases(listed)[i], (names + [name])[i], Taken(existing, (names + [name])[..i])) {
        OneMoreNamed(Bases(listed), existing, names, names + [name], i);
      }
      names := names + [name];
      used := after;
    }
  }

  // ----- How many tries are needed -----

  /** The first candidate not in use. */
  ghost predicate FirstUnused(base: string, used: set<string>, tries: nat) {
    1 <= tries && Candidate(base, tries) !in used && forall j :: 1 <= j < tries ==> Candidate(base, j) in used
  }

  /** Among the names that fill one map, every base finds its candidate with at most one try
      more than there are names exactly when it does not end like one of its own suffixes:
      such a base, in use with all its candidates before that suffix, blocks one more. */
  lemma OneMoreTryExactly(base: string)
    requires Valid(base)
    ensures (forall used: set<string>, tries: nat :: |used| <= MAX_ENTRIES && FirstUnused(base, used, tries) ==> tries <= |used| + 1)
      <==> !EndsLikeSuffix(base)
  {
    if EndsLikeSuffix(base) {
      var i: nat :| 2 <= i <= MAX_ENTRIES + 1 && EndsWith(base, Suffix(i));
      var used := Tried(base, i);
      Blocked(base, i);
      assert |used| <= MAX_ENTRIES && FirstUnused(base, used, i + 1);
      assert i + 1 > |used| + 1;
    } else {
      forall used: set<string>, tries: nat | |used| <= MAX_ENTRIES && FirstUnused(base, used, tries) ensures tries <= |used| + 1 {
        TriesBound(base, used, tries);
      }
    }
  }

  function Tried(base: string, i: nat): (names: set<string>)
    ensures forall j :: 1 <= j < i ==> Candidate(base, j) in names
    ensures forall name :: name in names ==> exists j :: 1 <= j < i && name == Candidate(base, j)
    ensures i >= 1 ==> |names| <= i - 1
  {
    if i <= 1 then {} else Tried(base, i - 1) + {Candidate(base, i - 1)}
  }

  /** The names before the i-th candidate, which equals the base, block the i-th as well. */
  lemma Blocked(base: string, i: nat)
    requires Valid(base) && 2 <= i && EndsWith(base, Suffix(i)) && |base| == MAX_LENGTH
    ensures |Tried(base, i)| <= i - 1 && FirstUnused(base, Tried(base, i), i + 1)
  {
    SelfCandidate(base, i);
    var used := Tried(base, i);
    assert Candidate(base, 1) in used;
    if Candidate(base, i + 1) in used {
      var j :| 1 <= j < i && Candidate(base, i + 1) == Candidate(base, j);
      if j >= 2 {
        CandidatesDiffer(base, j, i + 1);
      } else {
        CandidatesDiffer(base, i, i + 1);
      }
      assert false;
    }
  }

  lemma EndsLikeTwo(base: string)
    requires Valid(base) && |base| == MAX_LENGTH && base[62..] == "_2"
    ensures EndsLikeSuffix(base) && FirstUnused(base, {base}, 3)
  {
    assert Decimal(2) == ['0' + 2 as char] == ['2'];
    assert Suffix(2) == "_2";
    assert EndsWith(base, Suffix(2));
    SelfCandidate(base, 2);
    CandidatesDiffer(base, 2, 3);
  }

  lemma CleanBase(server: string, tool: string)
    requires Clean(server) && Clean(tool) && |server| + |tool| == MAX_LENGTH - 7 && |tool| >= 2
    ensures Valid(Base(server, tool)) && |Base(server, tool)| == MAX_LENGTH
    ensures Base(server, tool)[62..] == tool[|tool| - 2..]
  {
    NothingToTrim(server);
    NothingToTrim(tool);
    BaseIsValid(server, tool);
    EndOf(PREFIX + "__" + server + "__", tool);
    var base := Joined(server, tool);
    assert |base| == MAX_LENGTH && base[MAX_LENGTH - |tool|..] == tool;
    assert base[62..] == base[MAX_LENGTH - |tool|..][|tool| - 2..];
  }

  function LongTool(): (s: string)
    ensures |s| == 56 && Clean(s) && s[54..] == "_2"
  {
    var s := seq(54, i => 'x') + "_2";
    assert s[0] == 'x' && s[55] == '2';
    s
  }

  /** Such bases occur: this tool needs its third candidate although one name is in use. */
  lemma ThirdTryWithOneName()
    ensures var base := Base("s", LongTool()); EndsLikeSuffix(base) && FirstUnused(base, {base}, 3)
  {
    CleanBase("s", LongTool());
    EndsLikeTwo(Base("s", LongTool()));
  }
}
