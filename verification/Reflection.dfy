/** The self-review after collection: concerns about the state, and the follow-up
    actions the actionable ones yield. */
module Reflection {
  import opened Options
  import opened Sorting
  import opened OrderedDict
  import opened State
  import opened Planner

  datatype Category = Coverage | Gap | Unverified | Contradiction

  datatype Issue = Issue(category: Category, action: Option<Planned>)

  function HitValues(hits: seq<IOC>): set<string> { set i | 0 <= i < |hits| :: Lower(hits[i].value) }

  function MaliciousSources(sources: seq<SourceVerdict>): nat {
    if sources == [] then 0
    else MaliciousSources(sources[1..]) + if sources[0].verdict.Malicious? then 1 else 0
  }

  /** Malicious on the word of at most one source. */
  predicate SingleSource(e: EnrichedIOC) {
    e.judgement.verdict.Malicious? && MaliciousSources(e.judgement.sources) <= 1
  }

  predicate Contradicted(e: EnrichedIOC) {
    && (exists i :: 0 <= i < |e.judgement.sources| && e.judgement.sources[i].verdict.Malicious?)
    && (exists i :: 0 <= i < |e.judgement.sources| && e.judgement.sources[i].verdict.Benign?)
  }

  function SuspiciousUnhunted(s: Snapshot): seq<string> {
    Sort(StringLe, Filter(k => k in s.enriched.vals && s.enriched.vals[k].judgement.verdict.Suspicious? && k !in s.hunted,
                          s.enriched.keys))
  }

  function DetonationIssues(attachments: seq<Attachment>): seq<Issue> {
    seq(|attachments|, i requires 0 <= i < |attachments| => Issue(Coverage, Some(Detonate(attachments[i]))))
  }

  function UnverifiedIssue(s: Snapshot, k: string): seq<Issue> {
    if k !in s.enriched.vals || !SingleSource(s.enriched.vals[k]) then []
    else if Lower(s.enriched.vals[k].ioc.value) in HitValues(s.hits) then []
    else [Issue(Unverified, if k !in s.hunted then Some(HuntEdr([k])) else None)]
  }

  function UnverifiedIssues(s: Snapshot, keys: seq<string>): seq<Issue> {
    if keys == [] then []
    else UnverifiedIssues(s, keys[..|keys| - 1]) + UnverifiedIssue(s, keys[|keys| - 1])
  }

  function ContradictionIssues(s: Snapshot, keys: seq<string>): seq<Issue> {
    if keys == [] then []
    else
      var k := keys[|keys| - 1];
      ContradictionIssues(s, keys[..|keys| - 1]) +
      if k in s.enriched.vals && Contradicted(s.enriched.vals[k]) then [Issue(Contradiction, None)] else []
  }

  function CoverageIssues(s: Snapshot): seq<Issue> {
    (if s.pending.vals.Keys != {} then [Issue(Coverage, Some(EnrichIocs))] else []) +
    DetonationIssues(Undetonated(Attachments(s.emailMsg), s.detonated))
  }

  function GapIssues(s: Snapshot): seq<Issue> {
    if SuspiciousUnhunted(s) != [] then [Issue(Gap, Some(HuntEdr(SuspiciousUnhunted(s))))] else []
  }

  function Analyze(s: Snapshot): seq<Issue> {
    CoverageIssues(s) + GapIssues(s) + UnverifiedIssues(s, s.enriched.keys) + ContradictionIssues(s, s.enriched.keys)
  }

  /** The distinct actions of the issues, in order of first appearance. */
  function Actions(issues: seq<Issue>): seq<Planned> {
    if issues == [] then []
    else
      var rest, last := Actions(issues[..|issues| - 1]), issues[|issues| - 1].action;
      if last.Some? && last.value !in rest then rest + [last.value] else rest
  }

  function Suggest(s: Snapshot): seq<Planned> { Actions(Analyze(s)) }

  // ---------------------------------------------------------------- what it proposes

  ghost predicate Yields(issues: seq<Issue>, a: Planned) {
    exists i :: 0 <= i < |issues| && issues[i].action == Some(a)
  }

  lemma YieldsAppend(x: seq<Issue>, y: seq<Issue>, a: Planned)
    ensures Yields(x + y, a) <==> Yields(x, a) || Yields(y, a)
  {
    if i :| 0 <= i < |x| && x[i].action == Some(a) { assert (x + y)[i].action == Some(a); }
    if i :| 0 <= i < |y| && y[i].action == Some(a) { assert (x + y)[|x| + i].action == Some(a); }
  }

  lemma YieldsOne(issue: Issue, a: Planned)
    ensures Yields([issue], a) <==> issue.action == Some(a)
  {
    if issue.action == Some(a) { assert [issue][0].action == Some(a); }
  }

  lemma {:induction false} ActionsAre(issues: seq<Issue>)
    ensures forall a :: a in Actions(issues) <==> Yields(issues, a)
    ensures Distinct(Actions(issues))
  {
    if issues == [] {
    } else {
      var n := |issues| - 1;
      ActionsAre(issues[..n]);
      assert issues == issues[..n] + [issues[n]];
      forall a ensures a in Actions(issues) <==> Yields(issues, a) {
        YieldsAppend(issues[..n], [issues[n]], a);
        YieldsOne(issues[n], a);
      }
    }
  }

  /** Malicious on one source's word, never hunted and not seen on a host. */
  predicate Unconfirmed(s: Snapshot, k: string) {
    && k in s.enriched.vals && k !in s.hunted && SingleSource(s.enriched.vals[k])
    && Lower(s.enriched.vals[k].ioc.value) !in HitValues(s.hits)
  }

  lemma {:induction false} UnverifiedYield(s: Snapshot, keys: seq<string>, a: Planned)
    ensures Yields(UnverifiedIssues(s, keys), a) <==>
      a.HuntEdr? && |a.keys| == 1 && a.keys[0] in keys && Unconfirmed(s, a.keys[0])
  {
    hide SingleSource, HitValues, Lower;
    if keys == [] {
    } else {
      var n := |keys| - 1;
      UnverifiedYield(s, keys[..n], a);
      YieldsAppend(UnverifiedIssues(s, keys[..n]), UnverifiedIssue(s, keys[n]), a);
      if UnverifiedIssue(s, keys[n]) != [] {
        YieldsOne(UnverifiedIssue(s, keys[n])[0], a);
      }
      assert a.HuntEdr? && |a.keys| == 1 ==> (a.keys == [keys[n]] <==> a.keys[0] == keys[n]);
    }
  }

  lemma {:induction false} ContradictionsYield(s: Snapshot, keys: seq<string>, a: Planned)
    ensures !Yields(ContradictionIssues(s, keys), a)
  {
    hide Contradicted;
    if keys == [] {
    } else {
      ContradictionsYield(s, keys[..|keys| - 1], a);
      YieldsAppend(ContradictionIssues(s, keys[..|keys| - 1]), [Issue(Contradiction, None)], a);
      YieldsOne(Issue(Contradiction, None), a);
    }
  }

  lemma CoverageYields(s: Snapshot, a: Planned)
    ensures Yields(CoverageIssues(s), a) <==>
      || (a.EnrichIocs? && s.pending.vals.Keys != {})
      || (a.Detonate? && a.attachment in Attachments(s.emailMsg) && a.attachment.sha256 !in s.detonated)
  {
    hide Undetonated;
    var todo := Undetonated(Attachments(s.emailMsg), s.detonated);
    UndetonatedAre(Attachments(s.emailMsg), s.detonated);
    YieldsAppend(if s.pending.vals.Keys != {} then [Issue(Coverage, Some(EnrichIocs))] else [], DetonationIssues(todo), a);
    YieldsOne(Issue(Coverage, Some(EnrichIocs)), a);
    if a.Detonate? && a.attachment in todo {
      var i :| 0 <= i < |todo| && todo[i] == a.attachment;
      assert DetonationIssues(todo)[i].action == Some(a);
    }
  }

  lemma SuspiciousAre(s: Snapshot)
    requires s.WellKeyed()
    ensures forall k :: k in SuspiciousUnhunted(s) <==>
      k in s.enriched.vals && s.enriched.vals[k].judgement.verdict.Suspicious? && k !in s.hunted
  {
    StringOrder();
    SortCorrect(StringLe, Filter(k => k in s.enriched.vals && s.enriched.vals[k].judgement.verdict.Suspicious? && k !in s.hunted,
                                 s.enriched.keys));
  }

  /** Two sources, at least, call the indicator malicious. */
  ghost predicate TwoSources(sources: seq<SourceVerdict>) {
    exists i, j :: 0 <= i < j < |sources| && sources[i].verdict.Malicious? && sources[j].verdict.Malicious?
  }

  lemma {:induction false} SourcesCounted(sources: seq<SourceVerdict>)
    ensures MaliciousSources(sources) == 0 <==> forall i :: 0 <= i < |sources| ==> !sources[i].verdict.Malicious?
    ensures MaliciousSources(sources) <= 1 <==> !TwoSources(sources)
  {
    if sources == [] {
    } else {
      var rest := sources[1..];
      SourcesCounted(rest);
      assert forall i :: 0 <= i < |rest| ==> rest[i] == sources[i + 1];
      if TwoSources(rest) {
        var i, j :| 0 <= i < j < |rest| && rest[i].verdict.Malicious? && rest[j].verdict.Malicious?;
        assert sources[i + 1].verdict.Malicious? && sources[j + 1].verdict.Malicious?;
      }
      if TwoSources(sources) {
        var i, j :| 0 <= i < j < |sources| && sources[i].verdict.Malicious? && sources[j].verdict.Malicious?;
        assert rest[j - 1].verdict.Malicious?;
        assert i > 0 ==> rest[i - 1].verdict.Malicious?;
      }
      if sources[0].verdict.Malicious? && MaliciousSources(rest) > 0 {
        var j :| 0 <= j < |rest| && rest[j].verdict.Malicious?;
        assert sources[0].verdict.Malicious? && sources[j + 1].verdict.Malicious?;
      }
    }
  }

  /** The indicator was seen on a host, in whatever spelling. */
  ghost predicate Seen(hits: seq<IOC>, value: string) {
    exists i :: 0 <= i < |hits| && SameLetters(hits[i].value, value)
  }

  lemma SeenIs(hits: seq<IOC>, value: string)
    ensures Lower(value) in HitValues(hits) <==> Seen(hits, value)
  {
    forall i | 0 <= i < |hits| ensures Lower(hits[i].value) == Lower(value) <==> SameLetters(hits[i].value, value) {
      LowerIgnoresCase(hits[i].value, value);
    }
    hide Lower, SameLetters;
  }

  /** An indicator the review doubts: malicious, not by two sources, and seen on no host. */
  ghost predicate Doubtful(e: EnrichedIOC, hits: seq<IOC>) {
    e.judgement.verdict.Malicious? && !TwoSources(e.judgement.sources) && !Seen(hits, e.ioc.value)
  }

  lemma UnconfirmedIs(s: Snapshot, k: string)
    ensures Unconfirmed(s, k) <==> k in s.enriched.vals && k !in s.hunted && Doubtful(s.enriched.vals[k], s.hits)
  {
    if k in s.enriched.vals {
      SourcesCounted(s.enriched.vals[k].judgement.sources);
      SeenIs(s.hits, s.enriched.vals[k].ioc.value);
    }
    hide Lower, HitValues, TwoSources, Seen, MaliciousSources;
  }

  /** The follow-ups, exactly. */
  predicate Proposes(s: Snapshot, a: Planned) {
    match a
    case EnrichIocs => s.pending.vals.Keys != {}
    case Detonate(att) => att in Attachments(s.emailMsg) && att.sha256 !in s.detonated
    case HuntEdr(keys) =>
      || (keys != [] && keys == SuspiciousUnhunted(s))
      || (|keys| == 1 && Unconfirmed(s, keys[0]))
    case _ => false
  }

  /** Reflection proposes, each once: enriching what still waits, detonating what is
      undetonated, hunting the unhunted suspicious indicators together, and
      hunting each unconfirmed single-source malicious indicator. */
  lemma SuggestIs(s: Snapshot)
    requires s.WellKeyed()
    ensures forall a :: a in Suggest(s) <==> Proposes(s, a)
    ensures Distinct(Suggest(s))
  {
    ActionsAre(Analyze(s));
    forall a ensures a in Suggest(s) <==> Proposes(s, a) {
      ProposedIff(s, a);
    }
  }

  lemma ProposedIff(s: Snapshot, a: Planned)
    requires s.WellKeyed()
    ensures Yields(Analyze(s), a) <==> Proposes(s, a)
  {
    hide Unconfirmed, UnverifiedIssues, ContradictionIssues, SuspiciousUnhunted, CoverageIssues, Yields;
    var c, g, u, d := CoverageIssues(s), GapIssues(s), UnverifiedIssues(s, s.enriched.keys), ContradictionIssues(s, s.enriched.keys);
    YieldsAppend(c + g + u, d, a);
    YieldsAppend(c + g, u, a);
    YieldsAppend(c, g, a);
    CoverageYields(s, a);
    YieldsOne(Issue(Gap, Some(HuntEdr(SuspiciousUnhunted(s)))), a);
    YieldsNone(a);
    UnverifiedYield(s, s.enriched.keys, a);
    ContradictionsYield(s, s.enriched.keys, a);
    if a.HuntEdr? && |a.keys| == 1 && Unconfirmed(s, a.keys[0]) {
      UnconfirmedKnown(s, a.keys[0]);
    }
  }

  lemma YieldsNone(a: Planned)
    ensures !Yields([], a)
  {}

  lemma UnconfirmedKnown(s: Snapshot, k: string)
    requires s.WellKeyed() && Unconfirmed(s, k)
    ensures k in s.enriched.keys && k !in s.hunted && s.enriched.vals[k].judgement.verdict.Malicious?
  {}

  /** A proposal other than the suspicious hunt shows that the planner has work. */
  lemma ProposalShows(s: Snapshot, a: Planned)
    requires s.WellKeyed() && Proposes(s, a)
    ensures a.EnrichIocs? || a.Detonate? || a.HuntEdr?
    ensures a.EnrichIocs? ==> s.pending.vals.Keys != {}
    ensures a.Detonate? ==> Undetonated(Attachments(s.emailMsg), s.detonated) != []
    ensures a.HuntEdr? ==> (a.keys == SuspiciousUnhunted(s) && a.keys != []) || s.MaliciousUnhunted() != []
  {
    hide SuspiciousUnhunted, Unconfirmed, Undetonated;
    UndetonatedAre(Attachments(s.emailMsg), s.detonated);
    if a.HuntEdr? && a.keys != SuspiciousUnhunted(s) {
      UnconfirmedKnown(s, a.keys[0]);
      assert a.keys[0] in s.MaliciousUnhunted();
    }
  }

  /** When the planner has nothing left, at most one follow-up remains: hunting the
      suspicious indicators nobody hunted. */
  lemma AfterConvergence(s: Snapshot)
    requires s.WellKeyed() && NextActions(s) == []
    ensures Suggest(s) == if SuspiciousUnhunted(s) == [] then [] else [HuntEdr(SuspiciousUnhunted(s))]
  {
    hide SuspiciousUnhunted, Suggest, Unconfirmed;
    SuggestIs(s);
    assert s.MaliciousUnhunted() == [];
    forall a | a in Suggest(s) ensures a == HuntEdr(SuspiciousUnhunted(s)) && SuspiciousUnhunted(s) != [] {
      ProposalShows(s, a);
    }
    var hunt: Planned := HuntEdr(SuspiciousUnhunted(s));
    if SuspiciousUnhunted(s) != [] {
      assert Proposes(s, hunt);
      OnlyElement(Suggest(s), hunt);
    } else {
      NoElement(Suggest(s));
    }
  }

  // ---------------------------------------------------------------- what it finds

  ghost predicate Disputed(e: EnrichedIOC) {
    exists i, j :: 0 <= i < |e.judgement.sources| && 0 <= j < |e.judgement.sources|
      && e.judgement.sources[i].verdict.Malicious? && e.judgement.sources[j].verdict.Benign?
  }

  ghost predicate Doubts(s: Snapshot, k: string) { k in s.enriched.vals && Doubtful(s.enriched.vals[k], s.hits) }

  ghost predicate Disputes(s: Snapshot, k: string) { k in s.enriched.vals && Disputed(s.enriched.vals[k]) }

  ghost function DoubtfulKeys(s: Snapshot, keys: seq<string>): set<string> { set k | k in keys && Doubts(s, k) }

  ghost function DisputedKeys(s: Snapshot, keys: seq<string>): set<string> { set k | k in keys && Disputes(s, k) }

  lemma LastKey(keys: seq<string>)
    requires Distinct(keys) && keys != []
    ensures var n := |keys| - 1; Distinct(keys[..n]) && keys[n] !in keys[..n]
    ensures forall k :: k in keys <==> k in keys[..|keys| - 1] || k == keys[|keys| - 1]
  {
    assert keys == keys[..|keys| - 1] + [keys[|keys| - 1]];
  }

  lemma DoubtfulLast(s: Snapshot, keys: seq<string>)
    requires Distinct(keys) && keys != []
    ensures var n := |keys| - 1;
      |DoubtfulKeys(s, keys)| == |DoubtfulKeys(s, keys[..n])| + if Doubts(s, keys[n]) then 1 else 0
  {
    hide Doubts, Distinct;
    LastKey(keys);
    var n := |keys| - 1;
    assert DoubtfulKeys(s, keys) == DoubtfulKeys(s, keys[..n]) + if Doubts(s, keys[n]) then {keys[n]} else {};
  }

  lemma DisputedLast(s: Snapshot, keys: seq<string>)
    requires Distinct(keys) && keys != []
    ensures var n := |keys| - 1;
      |DisputedKeys(s, keys)| == |DisputedKeys(s, keys[..n])| + if Disputes(s, keys[n]) then 1 else 0
  {
    hide Disputes, Distinct;
    LastKey(keys);
    var n := |keys| - 1;
    assert DisputedKeys(s, keys) == DisputedKeys(s, keys[..n]) + if Disputes(s, keys[n]) then {keys[n]} else {};
  }

  ghost predicate All(issues: seq<Issue>, category: Category) {
    forall i :: 0 <= i < |issues| ==> issues[i].category == category
  }

  lemma OneDoubt(s: Snapshot, k: string)
    ensures |UnverifiedIssue(s, k)| == (if Doubts(s, k) then 1 else 0) && All(UnverifiedIssue(s, k), Unverified)
  {
    if k in s.enriched.vals {
      SourcesCounted(s.enriched.vals[k].judgement.sources);
      SeenIs(s.hits, s.enriched.vals[k].ioc.value);
    }
    hide Lower, HitValues, TwoSources, Seen, MaliciousSources;
  }

  lemma {:induction false} DoubtsCounted(s: Snapshot, keys: seq<string>)
    requires Distinct(keys)
    ensures |UnverifiedIssues(s, keys)| == |DoubtfulKeys(s, keys)| && All(UnverifiedIssues(s, keys), Unverified)
  {
    hide Doubts, UnverifiedIssue, Distinct;
    if keys == [] {
    } else {
      var n := |keys| - 1;
      LastKey(keys);
      DoubtsCounted(s, keys[..n]);
      OneDoubt(s, keys[n]);
      DoubtfulLast(s, keys);
      hide DoubtfulKeys;
    }
  }

  lemma OneDispute(s: Snapshot, k: string)
    ensures Disputes(s, k) <==> k in s.enriched.vals && Contradicted(s.enriched.vals[k])
  {
  }

  lemma {:induction false} DisputesCounted(s: Snapshot, keys: seq<string>)
    requires Distinct(keys)
    ensures |ContradictionIssues(s, keys)| == |DisputedKeys(s, keys)| && All(ContradictionIssues(s, keys), Contradiction)
  {
    hide Disputes, Contradicted, Distinct;
    if keys == [] {
    } else {
      var n := |keys| - 1;
      LastKey(keys);
      DisputesCounted(s, keys[..n]);
      OneDispute(s, keys[n]);
      DisputedLast(s, keys);
      hide DisputedKeys;
    }
  }

  lemma FourParts(a: seq<Issue>, b: seq<Issue>, c: seq<Issue>, d: seq<Issue>)
    requires All(a, Coverage) && All(b, Gap) && All(c, Unverified) && All(d, Contradiction)
    ensures var all, i, j, k := a + b + c + d, |a|, |a| + |b|, |a| + |b| + |c|;
      forall n :: 0 <= n < |all| ==>
        all[n].category == if n < i then Coverage else if n < j then Gap else if n < k then Unverified else Contradiction
  {
  }

  lemma CoverageCounted(s: Snapshot)
    ensures All(CoverageIssues(s), Coverage) && All(GapIssues(s), Gap)
    ensures |CoverageIssues(s)|
      == (if s.pending.vals.Keys != {} then 1 else 0) + |Undetonated(Attachments(s.emailMsg), s.detonated)|
    ensures |GapIssues(s)| == if SuspiciousUnhunted(s) != [] then 1 else 0
  {
    hide SuspiciousUnhunted, Undetonated;
  }

  /** The issues in order: one for waiting indicators and each undetonated attachment, one for
      suspicious indicators nobody hunted, one for each doubtful indicator, one for each the
      sources dispute. */
  lemma IssuesCounted(s: Snapshot)
    requires s.WellKeyed()
    ensures var issues := Analyze(s);
      var c := (if s.pending.vals.Keys != {} then 1 else 0) + |Undetonated(Attachments(s.emailMsg), s.detonated)|;
      var g := if SuspiciousUnhunted(s) != [] then 1 else 0;
      var u, d := |DoubtfulKeys(s, s.enriched.keys)|, |DisputedKeys(s, s.enriched.keys)|;
      && |issues| == c + g + u + d
      && forall i :: 0 <= i < |issues| ==>
           issues[i].category == if i < c then Coverage else if i < c + g then Gap else if i < c + g + u then Unverified else Contradiction
  {
    hide SuspiciousUnhunted, UnverifiedIssues, ContradictionIssues, DoubtfulKeys, DisputedKeys, Undetonated, CoverageIssues,
      GapIssues, All, Attachments;
    DoubtsCounted(s, s.enriched.keys);
    DisputesCounted(s, s.enriched.keys);
    CoverageCounted(s);
    FourParts(CoverageIssues(s), GapIssues(s), UnverifiedIssues(s, s.enriched.keys), ContradictionIssues(s, s.enriched.keys));
    hide Snapshot.WellKeyed;
  }

  // ---------------------------------------------------------------- the program

  method Review(state: InvestigationState) returns (issues: seq<Issue>)
    requires state.Dump().WellKeyed()
    ensures issues == Analyze(state.Dump())
  {
    hide SingleSource, Contradicted, HitValues, Lower, SuspiciousUnhunted;
    ghost var s := state.Dump();
    issues := [];
    if state.pending.vals.Keys != {} {
      issues := issues + [Issue(Coverage, Some(EnrichIocs))];
    }
    ghost var first := issues;
    var attachments := Attachments(state.emailMsg);
    for i := 0 to |attachments|
      invariant issues == first + DetonationIssues(Undetonated(attachments[..i], s.detonated))
    {
      assert attachments[..i + 1][..i] == attachments[..i];
      if attachments[i].sha256 !in state.detonated {
        issues := issues + [Issue(Coverage, Some(Detonate(attachments[i])))];
      }
    }
    assert attachments[..|attachments|] == attachments;
    assert issues == CoverageIssues(s);
    var suspicious := SuspiciousUnhunted(state.Dump());
    if suspicious != [] {
      issues := issues + [Issue(Gap, Some(HuntEdr(suspicious)))];
    }
    assert issues == CoverageIssues(s) + GapIssues(s);
    issues := ReviewSources(state, issues);
  }

  lemma SourceStep(s: Snapshot, keys: seq<string>, i: nat)
    requires i < |keys|
    ensures UnverifiedIssues(s, keys[..i + 1]) == UnverifiedIssues(s, keys[..i]) + UnverifiedIssue(s, keys[i])
    ensures ContradictionIssues(s, keys[..i + 1]) == ContradictionIssues(s, keys[..i])
      + if keys[i] in s.enriched.vals && Contradicted(s.enriched.vals[keys[i]]) then [Issue(Contradiction, None)] else []
  {
    hide UnverifiedIssue, Contradicted;
    assert keys[..i + 1][..i] == keys[..i];
  }

  lemma NoSources(s: Snapshot)
    ensures UnverifiedIssues(s, []) == [] && ContradictionIssues(s, []) == []
  {}

  method ReviewSources(state: InvestigationState, before: seq<Issue>) returns (issues: seq<Issue>)
    requires state.Dump().WellKeyed()
    ensures var s := state.Dump();
      issues == before + UnverifiedIssues(s, s.enriched.keys) + ContradictionIssues(s, s.enriched.keys)
  {
    hide SingleSource, Contradicted, HitValues, Lower, UnverifiedIssues, ContradictionIssues;
    ghost var s := state.Dump();
    issues := before;
    NoSources(s);
    var onHost, keys := HitValues(state.hits), state.enriched.keys;
    for i := 0 to |keys|
      invariant issues == before + UnverifiedIssues(s, keys[..i])
    {
      SourceStep(s, keys, i);
      assert keys[i] in s.enriched.vals;
      var e := state.enriched.vals[keys[i]];
      if SingleSource(e) && Lower(e.ioc.value) !in onHost {
        issues := issues + [Issue(Unverified, if keys[i] !in state.hunted then Some(HuntEdr([keys[i]])) else None)];
      }
    }
    assert keys[..|keys|] == keys;
    ghost var unverified := issues;
    for i := 0 to |keys|
      invariant issues == unverified + ContradictionIssues(s, keys[..i])
    {
      SourceStep(s, keys, i);
      assert keys[i] in s.enriched.vals;
      if Contradicted(state.enriched.vals[keys[i]]) {
        issues := issues + [Issue(Contradiction, None)];
      }
    }
  }

  /** Follow-up actions to re-open as tasks. */
  method SuggestActions(state: InvestigationState) returns (actions: seq<Planned>)
    requires state.Dump().WellKeyed()
    ensures actions == Suggest(state.Dump())
  {
    hide Analyze;
    var seen: set<Planned> := {};
    actions := [];
    var issues := Review(state);
    for i := 0 to |issues|
      invariant actions == Actions(issues[..i])
      invariant forall a :: a in seen <==> a in actions
    {
      assert issues[..i + 1][..i] == issues[..i];
      if issues[i].action.None? {
        continue;
      }
      var a := issues[i].action.value;
      if a !in seen {
        seen, actions := seen + {a}, actions + [a];
      }
    }
    assert issues[..|issues|] == issues;
  }
}
