/** What each source votes and how the votes decide, in numbers. */
module Votes {
  import opened OrderedDict
  import opened State
  import opened Rounding
  import opened Consensus

  // ---------------------------------------------------------------- threat intel

  ghost predicate Found(iocs: seq<EnrichedIOC>, e: EnrichedIOC, verdict: Verdict) {
    e in iocs && e.judgement.verdict == verdict
  }

  ghost predicate SomeFound(iocs: seq<EnrichedIOC>, verdict: Verdict) {
    exists e :: Found(iocs, e, verdict)
  }

  /** A score that a source gave while calling a malicious indicator malicious. */
  ghost predicate Scored(iocs: seq<EnrichedIOC>, x: real) {
    exists e, s :: Found(iocs, e, Malicious) && s in e.judgement.sources && s.verdict == Malicious && s.score == x
  }

  ghost predicate Confident(iocs: seq<EnrichedIOC>, x: real) {
    exists e :: Found(iocs, e, Malicious) && e.judgement.confidence == x
  }

  /** `v` is the vote on malicious indicators: as sure as the surest of them, as malicious as
      the highest score, or as the surest is sure where no source gave one. */
  ghost predicate VotesMalicious(iocs: seq<EnrichedIOC>, v: Voter) {
    && v.source == ThreatIntel && v.verdict == Malicious
    && Confident(iocs, v.confidence) && (forall x :: Confident(iocs, x) ==> x <= v.confidence)
    && exists raw: real :: Strongest(iocs, v.confidence, raw) && v.malice == if raw <= 1.0 then raw else 1.0
  }

  ghost predicate Strongest(iocs: seq<EnrichedIOC>, otherwise: real, x: real) {
    if exists y :: Scored(iocs, y) then Scored(iocs, x) && forall y :: Scored(iocs, y) ==> y <= x
    else x == otherwise
  }

  lemma {:induction false} TopConfidenceIs(iocs: seq<EnrichedIOC>)
    requires iocs != []
    ensures forall e :: e in iocs ==> e.judgement.confidence <= TopConfidence(iocs)
    ensures exists e :: e in iocs && e.judgement.confidence == TopConfidence(iocs)
  {
    assert iocs[0] in iocs;
    if |iocs| > 1 {
      TopConfidenceIs(iocs[1..]);
      assert iocs == [iocs[0]] + iocs[1..];
      assert forall e :: e in iocs <==> e == iocs[0] || e in iocs[1..];
    }
  }

  ghost predicate Calls(sources: seq<SourceVerdict>, x: real) {
    exists s :: s in sources && s.verdict == Malicious && s.score == x
  }

  lemma {:induction false} TopScoreIs(sources: seq<SourceVerdict>)
    ensures TopScore(sources).None? <==> forall x :: !Calls(sources, x)
    ensures TopScore(sources).Some? ==>
      Calls(sources, TopScore(sources).value) && forall x :: Calls(sources, x) ==> x <= TopScore(sources).value
  {
    if sources == [] {
    } else {
      TopScoreIs(sources[1..]);
      assert sources == [sources[0]] + sources[1..];
      forall x ensures Calls(sources, x) <==> Calls(sources[1..], x) || (sources[0].verdict == Malicious && sources[0].score == x) {
        CallsFirst(sources, x);
      }
      CallsFirst(sources, sources[0].score);
      hide Calls;
    }
  }

  lemma CallsFirst(sources: seq<SourceVerdict>, x: real)
    requires sources != []
    ensures Calls(sources, x) <==> Calls(sources[1..], x) || (sources[0].verdict == Malicious && sources[0].score == x)
  {
    assert sources[0] in sources && sources == [sources[0]] + sources[1..];
  }

  ghost predicate CalledIn(iocs: seq<EnrichedIOC>, x: real) {
    exists e :: e in iocs && Calls(e.judgement.sources, x)
  }

  lemma CalledFirst(iocs: seq<EnrichedIOC>, x: real)
    requires iocs != []
    ensures CalledIn(iocs, x) <==> CalledIn(iocs[1..], x) || Calls(iocs[0].judgement.sources, x)
  {
    hide Calls;
    assert iocs[0] in iocs && iocs == [iocs[0]] + iocs[1..];
  }

  lemma {:induction false} StrongestIs(iocs: seq<EnrichedIOC>)
    ensures StrongestScore(iocs).None? <==> forall x :: !CalledIn(iocs, x)
    ensures StrongestScore(iocs).Some? ==>
      CalledIn(iocs, StrongestScore(iocs).value) && forall x :: CalledIn(iocs, x) ==> x <= StrongestScore(iocs).value
  {
    if iocs == [] {
    } else {
      StrongestIs(iocs[1..]);
      TopScoreIs(iocs[0].judgement.sources);
      hide Calls, TopScore;
      forall x ensures CalledIn(iocs, x) <==> CalledIn(iocs[1..], x) || Calls(iocs[0].judgement.sources, x) {
        CalledFirst(iocs, x);
      }
      hide CalledIn;
    }
  }

  /** The judged indicators of a verdict. */
  lemma JudgedAre(iocs: seq<EnrichedIOC>, verdict: Verdict)
    requires verdict != Unknown
    ensures forall e :: e in Judged(Rated(iocs), verdict) <==> Found(iocs, e, verdict)
    ensures Judged(Rated(iocs), verdict) != [] <==> SomeFound(iocs, verdict)
  {
    var found := Judged(Rated(iocs), verdict);
    if found != [] {
      assert found[0] in found;
    }
  }

  lemma RatedIs(iocs: seq<EnrichedIOC>)
    ensures Rated(iocs) != [] <==> SomeFound(iocs, Malicious) || SomeFound(iocs, Suspicious) || SomeFound(iocs, Benign)
  {
    var rated := Rated(iocs);
    if rated != [] {
      assert rated[0] in rated && Found(iocs, rated[0], rated[0].judgement.verdict);
    }
  }

  lemma ScoredIs(iocs: seq<EnrichedIOC>, x: real)
    ensures Scored(iocs, x) <==> CalledIn(Judged(Rated(iocs), Malicious), x)
  {
    JudgedAre(iocs, Malicious);
    hide Found, Judged, Rated;
  }

  lemma MaliciousVote(iocs: seq<EnrichedIOC>)
    requires SomeFound(iocs, Malicious)
    ensures |IntelVote(iocs)| == 1 && VotesMalicious(iocs, IntelVote(iocs)[0])
  {
    RatedIs(iocs);
    JudgedAre(iocs, Malicious);
    var mal := Judged(Rated(iocs), Malicious);
    TopConfidenceIs(mal);
    StrongestIs(mal);
    forall x ensures Scored(iocs, x) <==> CalledIn(mal, x) {
      ScoredIs(iocs, x);
    }
    hide Found, SomeFound, Judged, Rated, TopConfidence, StrongestScore, CalledIn, Scored;
    var top, strongest := TopConfidence(mal), StrongestScore(mal);
    var raw := if strongest.Some? then strongest.value else top;
    assert Strongest(iocs, top, raw);
    assert Confident(iocs, top) && forall x :: Confident(iocs, x) ==> x <= top;
    hide Strongest, Confident;
    assert IntelVote(iocs) == [Voter(ThreatIntel, Malicious, Min(1.0, raw), top)];
  }

  /** The vote of threat intel: on the malicious indicators if there are any, else on the
      suspicious, else on the benign; none if nothing is rated. */
  lemma IntelVoteIs(iocs: seq<EnrichedIOC>)
    ensures SomeFound(iocs, Malicious) ==> |IntelVote(iocs)| == 1 && VotesMalicious(iocs, IntelVote(iocs)[0])
    ensures !SomeFound(iocs, Malicious) ==>
      IntelVote(iocs)
      == if SomeFound(iocs, Suspicious) then [Voter(ThreatIntel, Suspicious, 0.5, 0.5)]
         else if SomeFound(iocs, Benign) then [Voter(ThreatIntel, Benign, 0.1, 0.6)]
         else []
  {
    RatedIs(iocs);
    JudgedAre(iocs, Malicious);
    JudgedAre(iocs, Suspicious);
    hide SomeFound, Judged, Rated, VotesMalicious;
    if SomeFound(iocs, Malicious) {
      MaliciousVote(iocs);
    }
  }

  // ---------------------------------------------------------------- the other sources

  /** The verdict that a malice score stands for. */
  lemma VerdictIs(x: real)
    ensures VerdictFor(x) == Malicious <==> 10.0 * x >= 7.0
    ensures VerdictFor(x) == Suspicious <==> 4.0 <= 10.0 * x < 7.0
    ensures VerdictFor(x) == Benign <==> 10.0 * x < 4.0
  {
  }

  lemma {:induction false} WorstIs(detections: seq<Severity>)
    requires detections != []
    ensures SeverityMalice(Worst(detections))
      == if Critical in detections then 0.9 else if High in detections then 0.75 else if Medium in detections then 0.5
         else if Low in detections then 0.3 else 0.15
  {
    if |detections| > 1 {
      WorstIs(detections[1..]);
      assert forall s :: s in detections <==> s == detections[0] || s in detections[1..];
    }
  }

  predicate HighSeverity(tactic: string) {
    || tactic == "impact" || tactic == "credential-access" || tactic == "command-and-control"
    || tactic == "exfiltration" || tactic == "lateral-movement"
  }

  /** The four other sources. A technique counts as often as it is listed. */
  lemma OtherVotesAre(e: Evidence)
    ensures EdrVote(e) == if e.edrHits > 0 then [Voter(Edr, Malicious, 0.9, 0.9)] else []
    ensures SandboxVote(e) == if e.malscore > 0.0 then [Voter(Sandbox, VerdictFor(e.malscore), e.malscore, 0.8)] else []
    ensures if e.detections == [] then DetectionVote(e) == []
      else
        var malice := if Critical in e.detections then 0.9 else if High in e.detections then 0.75
                      else if Medium in e.detections then 0.5 else if Low in e.detections then 0.3 else 0.15;
        DetectionVote(e) == [Voter(Detections, VerdictFor(malice), malice, 0.7)]
    ensures if e.tactics == [] then MitreVote(e) == []
      else
        var n := |set i: nat | i < |e.tactics| && HighSeverity(e.tactics[i])|;
        var malice := if n <= 4 then 0.3 + 0.12 * n as real else 0.8;
        MitreVote(e) == [Voter(Mitre, VerdictFor(malice), malice, 0.5)]
  {
    if e.detections != [] {
      WorstIs(e.detections);
    }
    TacticsAre(e.tactics);
    hide Worst, VerdictFor;
  }

  lemma TacticsAre(tactics: seq<string>)
    ensures var n := |set i: nat | i < |tactics| && HighSeverity(tactics[i])|;
      TacticsMalice(tactics) == if n <= 4 then 0.3 + 0.12 * n as real else 0.8
  {
    var p := (t: string) => t in HIGH_SEVERITY_TACTICS;
    FilterCount(p, tactics);
    assert (set i: nat | i < |tactics| && HighSeverity(tactics[i])) == Positions(p, tactics);
    assert TacticsMalice(tactics) == Min(0.8, 0.3 + 0.12 * |Filter(p, tactics)| as real);
  }

  // ---------------------------------------------------------------- the decision

  /** What one source contributes: its weight if it votes, its weighted malice, and its weight
      behind a verdict. */
  function Cast(votes: seq<Voter>, weight: real): real { if votes == [] then 0.0 else weight }

  function Blames(votes: seq<Voter>, weight: real): real { if votes == [] then 0.0 else weight * votes[0].malice }

  function Backs(votes: seq<Voter>, weight: real, verdict: Verdict): real {
    if votes == [] || votes[0].verdict != verdict then 0.0 else weight
  }

  lemma OneMore(vs: seq<Voter>, votes: seq<Voter>, weight: real, verdict: Verdict)
    requires |votes| <= 1 && forall v :: v in votes ==> Weight(v.source) == weight
    ensures TotalWeight(vs + votes) == TotalWeight(vs) + Cast(votes, weight)
    ensures MaliceSum(vs + votes) == MaliceSum(vs) + Blames(votes, weight)
    ensures WeightFor(vs + votes, verdict) == WeightFor(vs, verdict) + Backs(votes, weight, verdict)
  {
    if votes == [] {
      assert vs + votes == vs;
    } else {
      assert (vs + votes)[..|vs|] == vs && votes[0] in votes;
    }
  }

  function AllCast(e: Evidence): real {
    Cast(IntelVote(e.iocs), 0.25) + Cast(EdrVote(e), 0.30) + Cast(SandboxVote(e), 0.20)
    + Cast(DetectionVote(e), 0.15) + Cast(MitreVote(e), 0.10)
  }

  function AllBlame(e: Evidence): real {
    Blames(IntelVote(e.iocs), 0.25) + Blames(EdrVote(e), 0.30) + Blames(SandboxVote(e), 0.20)
    + Blames(DetectionVote(e), 0.15) + Blames(MitreVote(e), 0.10)
  }

  function AllBack(e: Evidence, verdict: Verdict): real {
    Backs(IntelVote(e.iocs), 0.25, verdict) + Backs(EdrVote(e), 0.30, verdict) + Backs(SandboxVote(e), 0.20, verdict)
    + Backs(DetectionVote(e), 0.15, verdict) + Backs(MitreVote(e), 0.10, verdict)
  }

  lemma NoVoters(verdict: Verdict)
    ensures TotalWeight([]) == MaliceSum([]) == WeightFor([], verdict) == 0.0
  {
  }

  lemma VotersAre(e: Evidence)
    ensures Voters(e) == [] + IntelVote(e.iocs) + EdrVote(e) + SandboxVote(e) + DetectionVote(e) + MitreVote(e)
  {
    hide IntelVote, EdrVote, SandboxVote, DetectionVote, MitreVote;
  }

  lemma SumsAre(e: Evidence, verdict: Verdict)
    ensures TotalWeight(Voters(e)) == AllCast(e) && MaliceSum(Voters(e)) == AllBlame(e)
    ensures WeightFor(Voters(e), verdict) == AllBack(e, verdict)
  {
    OneVoteOf(e);
    NoVoters(verdict);
    var a, b, c, d, f := IntelVote(e.iocs), EdrVote(e), SandboxVote(e), DetectionVote(e), MitreVote(e);
    VotersAre(e);
    hide Voters, IntelVote, EdrVote, SandboxVote, DetectionVote, MitreVote, TotalWeight, MaliceSum, WeightFor, Weight, Cast, Blames, Backs;
    OneMore([], a, 0.25, verdict);
    OneMore([] + a, b, 0.30, verdict);
    OneMore([] + a + b, c, 0.20, verdict);
    OneMore([] + a + b + c, d, 0.15, verdict);
    OneMore([] + a + b + c + d, f, 0.10, verdict);
  }

  /** At most one vote a source, of its own weight. */
  lemma OneVoteOf(e: Evidence)
    ensures |IntelVote(e.iocs)| <= 1 && forall v :: v in IntelVote(e.iocs) ==> Weight(v.source) == 0.25
    ensures |EdrVote(e)| <= 1 && forall v :: v in EdrVote(e) ==> Weight(v.source) == 0.30
    ensures |SandboxVote(e)| <= 1 && forall v :: v in SandboxVote(e) ==> Weight(v.source) == 0.20
    ensures |DetectionVote(e)| <= 1 && forall v :: v in DetectionVote(e) ==> Weight(v.source) == 0.15
    ensures |MitreVote(e)| <= 1 && forall v :: v in MitreVote(e) ==> Weight(v.source) == 0.10
  {
    hide TopConfidence, StrongestScore, Judged, Rated, Worst, TacticsMalice, SeverityMalice, VerdictFor;
  }

  lemma Scaled(x: real, y: real, s: real)
    requires s > 0.0
    ensures x >= y <==> x * s >= y * s
  {
  }

  lemma Thresholds(sum: real, total: real)
    requires total > 0.0
    ensures sum / total >= 0.70 <==> 10.0 * sum >= 7.0 * total
    ensures sum / total >= 0.40 <==> 10.0 * sum >= 4.0 * total
  {
    assert (sum / total) * total == sum;
    Scaled(sum / total, 0.70, total);
    Scaled(sum / total, 0.40, total);
  }

  /** The verdict goes by the weighted malice, exactly. */
  lemma VerdictByMalice(e: Evidence)
    requires Voters(e) != []
    ensures var d := DecisionOf(Voters(e)).verdict;
      && (d == Malicious <==> 10.0 * AllBlame(e) >= 7.0 * AllCast(e))
      && (d == Suspicious <==> 4.0 * AllCast(e) <= 10.0 * AllBlame(e) < 7.0 * AllCast(e))
      && (d == Benign <==> 10.0 * AllBlame(e) < 4.0 * AllCast(e))
  {
    SumsAre(e, Malicious);
    var vs := Voters(e);
    TotalPositive(vs);
    hide Voters, TotalWeight, MaliceSum, AllBlame, AllCast, Confidence, Agreement, Hypotheses, Supporting, Rejected;
    Thresholds(MaliceSum(vs), TotalWeight(vs));
    VerdictIs(WeightedMalice(vs));
    hide VerdictFor;
  }

  /** Confidence mixes the agreement with how many of the five sources voted and how far the
      malice is from 0.4, and is cut for a lone voter. */
  function Sure(agreed: real, malice: real, n: nat): real {
    var far := if malice >= 0.4 then (malice - 0.4) / 0.6 else (0.4 - malice) / 0.6;
    var raw := 0.4 * agreed + 0.06 * n as real + 0.3 * (if far <= 1.0 then far else 1.0);
    var sure := if n == 1 then 0.6 * raw else raw;
    if sure <= 1.0 then sure else 1.0
  }

  lemma ConfidenceOf(vs: seq<Voter>)
    requires vs != []
    ensures Confidence(vs) == Sure(Agreement(vs), WeightedMalice(vs), |vs|)
  {
    hide Agreement, WeightedMalice;
  }

  /** The two figures beside the verdict, to the nearest thousandth; agreement is the share of
      the weight behind it. */
  lemma FiguresAre(e: Evidence)
    requires Voters(e) != []
    ensures AllCast(e) > 0.0
    ensures var d := DecisionOf(Voters(e));
      var agreed := AllBack(e, d.verdict) / AllCast(e);
      && 1000.0 * d.agreement == Nearest(1000.0 * agreed) as real
      && 1000.0 * d.confidence == Nearest(1000.0 * Sure(agreed, AllBlame(e) / AllCast(e), |Voters(e)|)) as real
  {
    hide *;
    var vs := Voters(e);
    AveragesAre(e);
    ConfidenceOf(vs);
    Thousandth(Agreement(vs));
    Thousandth(Confidence(vs));
    DecisionFigures(vs);
  }

  lemma AveragesAre(e: Evidence)
    requires Voters(e) != []
    ensures AllCast(e) > 0.0 && WeightedMalice(Voters(e)) == AllBlame(e) / AllCast(e)
    ensures Agreement(Voters(e)) == AllBack(e, Chosen(Voters(e))) / AllCast(e)
  {
    SumsAre(e, Chosen(Voters(e)));
    TotalPositive(Voters(e));
    hide Voters, TotalWeight, MaliceSum, WeightFor, AllBlame, AllCast, AllBack, VerdictFor;
  }

  lemma DecisionFigures(vs: seq<Voter>)
    requires vs != []
    ensures var d := DecisionOf(vs);
      d.verdict == Chosen(vs) && d.agreement == Round3(Agreement(vs)) && d.confidence == Round3(Confidence(vs))
  {
    hide Chosen, Agreement, Confidence, Round3, Hypotheses, Supporting, Rejected;
  }

  lemma Thousandth(x: real)
    ensures 1000.0 * Round3(x) == Nearest(1000.0 * x) as real
  {
    hide Nearest;
  }
}
