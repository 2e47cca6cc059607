/** The consensus engine: independent sources vote, weighted by reliability, and the
    weighted malice decides. Exact numbers stand for the floating-point scores. */
module Consensus {
  import opened Options
  import opened Sorting
  import opened OrderedDict
  import opened State
  import opened Rounding

  datatype Source = ThreatIntel | Edr | Sandbox | Detections | Mitre

  function Weight(s: Source): real {
    match s
    case Edr => 0.30
    case ThreatIntel => 0.25
    case Sandbox => 0.20
    case Detections => 0.15
    case Mitre => 0.10
  }

  const SOURCES := 5

  datatype Severity = Critical | High | Medium | Low | Info

  function SeverityMalice(s: Severity): real {
    match s
    case Critical => 0.9
    case High => 0.75
    case Medium => 0.5
    case Low => 0.3
    case Info => 0.15
  }

  function SeverityRank(s: Severity): nat {
    match s
    case Critical => 0
    case High => 1
    case Medium => 2
    case Low => 3
    case Info => 4
  }

  const HIGH_SEVERITY_TACTICS := {
    "impact", "credential-access", "command-and-control", "exfiltration", "lateral-movement"}

  datatype Evidence = Evidence(
    iocs: seq<EnrichedIOC>,
    edrHits: int,
    malscore: real,
    detections: seq<Severity>,
    tactics: seq<string>)

  datatype Voter = Voter(source: Source, verdict: Verdict, malice: real, confidence: real)

  function VerdictFor(malice: real): Verdict {
    if malice >= 0.70 then Malicious
    else if malice >= 0.40 then Suspicious
    else Benign
  }

  // ---------------------------------------------------------------- the voters

  function Rated(iocs: seq<EnrichedIOC>): seq<EnrichedIOC> {
    Filter((e: EnrichedIOC) => e.judgement.verdict != Unknown, iocs)
  }

  function Judged(iocs: seq<EnrichedIOC>, verdict: Verdict): seq<EnrichedIOC> {
    Filter((e: EnrichedIOC) => e.judgement.verdict == verdict, iocs)
  }

  function TopConfidence(iocs: seq<EnrichedIOC>): real
    requires iocs != []
  {
    if |iocs| == 1 then iocs[0].judgement.confidence
    else Max(iocs[0].judgement.confidence, TopConfidence(iocs[1..]))
  }

  /** The strongest score a source gave while calling the indicator malicious. */
  function TopScore(sources: seq<SourceVerdict>): Option<real> {
    if sources == [] then None
    else
      var rest := TopScore(sources[1..]);
      if sources[0].verdict != Malicious then rest
      else if rest.None? then Some(sources[0].score)
      else Some(Max(sources[0].score, rest.value))
  }

  function StrongestScore(iocs: seq<EnrichedIOC>): Option<real> {
    if iocs == [] then None
    else
      var top, rest := TopScore(iocs[0].judgement.sources), StrongestScore(iocs[1..]);
      if top.None? then rest else if rest.None? then top else Some(Max(top.value, rest.value))
  }

  function IntelVote(iocs: seq<EnrichedIOC>): seq<Voter> {
    var rated := Rated(iocs);
    if rated == [] then []
    else
      var mal := Judged(rated, Malicious);
      if mal != [] then
        var top := TopConfidence(mal);
        var strongest := StrongestScore(mal);
        [Voter(ThreatIntel, Malicious, Min(1.0, if strongest.Some? then strongest.value else top), top)]
      else if Judged(rated, Suspicious) != [] then [Voter(ThreatIntel, Suspicious, 0.5, 0.5)]
      else [Voter(ThreatIntel, Benign, 0.1, 0.6)]
  }

  function Worst(detections: seq<Severity>): Severity
    requires detections != []
  {
    if |detections| == 1 then detections[0]
    else
      var rest := Worst(detections[1..]);
      if SeverityRank(detections[0]) <= SeverityRank(rest) then detections[0] else rest
  }

  function TacticsMalice(tactics: seq<string>): real {
    Min(0.8, 0.3 + 0.12 * |Filter(t => t in HIGH_SEVERITY_TACTICS, tactics)| as real)
  }

  function EdrVote(e: Evidence): seq<Voter> {
    if e.edrHits > 0 then [Voter(Edr, Malicious, 0.9, 0.9)] else []
  }

  function SandboxVote(e: Evidence): seq<Voter> {
    if e.malscore > 0.0 then [Voter(Sandbox, VerdictFor(e.malscore), e.malscore, 0.8)] else []
  }

  function DetectionVote(e: Evidence): seq<Voter> {
    if e.detections == [] then []
    else
      var malice := SeverityMalice(Worst(e.detections));
      [Voter(Detections, VerdictFor(malice), malice, 0.7)]
  }

  function MitreVote(e: Evidence): seq<Voter> {
    if e.tactics == [] then []
    else [Voter(Mitre, VerdictFor(TacticsMalice(e.tactics)), TacticsMalice(e.tactics), 0.5)]
  }

  /** A source votes only when it has evidence. */
  function Voters(e: Evidence): seq<Voter> {
    IntelVote(e.iocs) + EdrVote(e) + SandboxVote(e) + DetectionVote(e) + MitreVote(e)
  }

  // ---------------------------------------------------------------- the vote

  function TotalWeight(vs: seq<Voter>): real {
    if vs == [] then 0.0 else TotalWeight(vs[..|vs| - 1]) + Weight(vs[|vs| - 1].source)
  }

  function WeighedVote(v: Voter): real { Weight(v.source) * v.malice }

  function MaliceSum(vs: seq<Voter>): real {
    if vs == [] then 0.0 else MaliceSum(vs[..|vs| - 1]) + WeighedVote(vs[|vs| - 1])
  }

  /** The weight behind one verdict. */
  function WeightFor(vs: seq<Voter>, verdict: Verdict): real {
    if vs == [] then 0.0
    else
      WeightFor(vs[..|vs| - 1], verdict)
      + if vs[|vs| - 1].verdict == verdict then Weight(vs[|vs| - 1].source) else 0.0
  }

  lemma {:induction false} TotalPositive(vs: seq<Voter>)
    ensures TotalWeight(vs) >= 0.10 * |vs| as real
    ensures vs != [] ==> TotalWeight(vs) > 0.0
  {
    if vs == [] {
    } else {
      TotalPositive(vs[..|vs| - 1]);
    }
  }

  function WeightedMalice(vs: seq<Voter>): real
    requires vs != []
  {
    TotalPositive(vs);
    MaliceSum(vs) / TotalWeight(vs)
  }

  function Chosen(vs: seq<Voter>): Verdict
    requires vs != []
  {
    VerdictFor(WeightedMalice(vs))
  }

  function Agreement(vs: seq<Voter>): real
    requires vs != []
  {
    TotalPositive(vs);
    WeightFor(vs, Chosen(vs)) / TotalWeight(vs)
  }

  function Abs(x: real): real { if x >= 0.0 then x else -x }

  function Confidence(vs: seq<Voter>): real
    requires vs != []
  {
    var participation := |vs| as real / SOURCES as real;
    var decisiveness := Abs(WeightedMalice(vs) - 0.4) / 0.6;
    var raw := 0.4 * Agreement(vs) + 0.3 * participation + 0.3 * Min(1.0, decisiveness);
    Min(1.0, if |vs| == 1 then raw * 0.6 else raw)
  }

  /** `round(x, 3)` */
  function Round3(x: real): real {
    Nearest(x * 1000.0) as real / 1000.0
  }

  // ---------------------------------------------------------------- the decision

  datatype Hypothesis = Hypothesis(verdict: Verdict, probability: real)

  datatype Decision = Decision(
    verdict: Verdict,
    confidence: real,
    agreement: real,
    hypotheses: seq<Hypothesis>,
    supporting: seq<Voter>,
    rejected: seq<Voter>,
    loneVoterNote: bool)

  function Bucket(buckets: Dict<Verdict, real>, verdict: Verdict): real {
    if verdict in buckets.vals then buckets.vals[verdict] else 0.0
  }

  function Buckets(vs: seq<Voter>): Dict<Verdict, real> {
    if vs == [] then Empty()
    else
      var head, last := Buckets(vs[..|vs| - 1]), vs[|vs| - 1];
      head.Put(last.verdict, Bucket(head, last.verdict) + Weight(last.source))
  }

  lemma LastBucket(vs: seq<Voter>, v: Verdict)
    requires vs != []
    ensures var before, last := Buckets(vs[..|vs| - 1]), vs[|vs| - 1];
      && (v in Buckets(vs).vals <==> v == last.verdict || v in before.vals)
      && Bucket(Buckets(vs), v) == Bucket(before, v) + (if v == last.verdict then Weight(last.source) else 0.0)
      && WeightFor(vs, v) == WeightFor(vs[..|vs| - 1], v) + (if v == last.verdict then Weight(last.source) else 0.0)
  {
  }

  lemma {:induction false} BucketsValid(vs: seq<Voter>)
    ensures Buckets(vs).Valid()
  {
    if vs == [] {
    } else {
      var head, last := vs[..|vs| - 1], vs[|vs| - 1];
      BucketsValid(head);
      Buckets(head).PutValid(last.verdict, Bucket(Buckets(head), last.verdict) + Weight(last.source));
    }
  }

  lemma NoBuckets()
    ensures Buckets([]) == Empty() && forall v :: v !in Buckets([]).vals && Bucket(Buckets([]), v) == WeightFor([], v)
  {
  }

  /** The buckets hold exactly the verdicts voted for, with the weight behind each. */
  lemma {:induction false} BucketsAre(vs: seq<Voter>)
    ensures Buckets(vs).Valid()
    ensures forall v :: v in Buckets(vs).vals <==> exists i :: 0 <= i < |vs| && vs[i].verdict == v
    ensures forall v :: Bucket(Buckets(vs), v) == WeightFor(vs, v)
  {
    hide Buckets, Bucket, WeightFor, Dict.Valid;
    BucketsValid(vs);
    if vs == [] {
      NoBuckets();
    } else {
      BucketsAre(vs[..|vs| - 1]);
      forall v
        ensures v in Buckets(vs).vals <==> exists i :: 0 <= i < |vs| && vs[i].verdict == v
        ensures Bucket(Buckets(vs), v) == WeightFor(vs, v)
      {
        LastBucket(vs, v);
        SomeVoter(vs, v);
      }
    }
  }

  lemma SomeVoter(vs: seq<Voter>, v: Verdict)
    requires vs != []
    ensures var head, last := vs[..|vs| - 1], vs[|vs| - 1];
      (exists i :: 0 <= i < |vs| && vs[i].verdict == v)
      <==> last.verdict == v || exists i :: 0 <= i < |head| && head[i].verdict == v
  {
    var head := vs[..|vs| - 1];
    if i :| 0 <= i < |head| && head[i].verdict == v {
      assert vs[i].verdict == v;
    }
    if i :| 0 <= i < |vs| && vs[i].verdict == v {
      assert i < |head| ==> head[i].verdict == v;
    }
  }

  type Share = (Verdict, real)

  function Shares(buckets: Dict<Verdict, real>): seq<Share>
    requires buckets.Valid()
  {
    var values := buckets.Values();
    seq(|buckets.keys|, i requires 0 <= i < |buckets.keys| => (buckets.keys[i], values[i]))
  }

  predicate Heavier(a: Share, b: Share) { a.1 >= b.1 }

  /** `sorted(buckets.items(), key=weight, reverse=True)` */
  function Ranked(vs: seq<Voter>): seq<Share> {
    BucketsAre(vs);
    Sort(Heavier, Shares(Buckets(vs)))
  }

  function Listed(ranked: seq<Share>, total: real): seq<Hypothesis>
    requires total > 0.0
  {
    seq(|ranked|, i requires 0 <= i < |ranked| => Hypothesis(ranked[i].0, Round3(ranked[i].1 / total)))
  }

  lemma ListedLength(ranked: seq<Share>, total: real)
    requires total > 0.0
    ensures |Listed(ranked, total)| == |ranked|
  {
  }

  lemma ListedNext(ranked: seq<Share>, total: real, i: nat)
    requires total > 0.0 && i < |ranked|
    ensures Listed(ranked, total)[..i + 1]
         == Listed(ranked, total)[..i] + [Hypothesis(ranked[i].0, Round3(ranked[i].1 / total))]
  {
    hide Round3;
  }

  function Hypotheses(vs: seq<Voter>): seq<Hypothesis>
    requires vs != []
  {
    TotalPositive(vs);
    var out := Listed(Ranked(vs), TotalWeight(vs));
    if exists i :: 0 <= i < |out| && out[i].verdict == Chosen(vs) then out
    else [Hypothesis(Chosen(vs), 0.0)] + out
  }

  function Supporting(vs: seq<Voter>, verdict: Verdict): seq<Voter> {
    Filter((v: Voter) => v.verdict == verdict, vs)
  }

  function Rejected(vs: seq<Voter>, verdict: Verdict): seq<Voter> {
    Filter((v: Voter) => v.verdict != verdict, vs)
  }

  function DecisionOf(vs: seq<Voter>): Decision {
    if vs == [] then Decision(Unknown, 0.0, 0.0, [], [], [], false)
    else
      Decision(Chosen(vs), Round3(Confidence(vs)), Round3(Agreement(vs)), Hypotheses(vs),
               Supporting(vs, Chosen(vs)), Rejected(vs, Chosen(vs)), |vs| == 1)
  }

  // ---------------------------------------------------------------- the program

  /** One bucket per verdict, in the order of the first vote for it. */
  method FillBuckets(vs: seq<Voter>) returns (buckets: Dict<Verdict, real>)
    ensures buckets == Buckets(vs)
  {
    hide Weight;
    buckets := Empty();
    for i := 0 to |vs|
      invariant buckets == Buckets(vs[..i])
    {
      assert vs[..i + 1][..i] == vs[..i];
      buckets := buckets.Put(vs[i].verdict, Bucket(buckets, vs[i].verdict) + Weight(vs[i].source));
    }
    assert vs[..|vs|] == vs;
  }

  /** The ranked alternatives: the voters are gathered into one bucket per verdict. */
  method RankHypotheses(vs: seq<Voter>) returns (out: seq<Hypothesis>)
    requires vs != []
    ensures out == Hypotheses(vs)
  {
    hide Round3, Chosen, Sort, WeightFor, Buckets, TotalWeight, Shares;
    TotalPositive(vs);
    BucketsAre(vs);
    var buckets := FillBuckets(vs);
    var ranked, total := Sort(Heavier, Shares(buckets)), TotalWeight(vs);
    ListedLength(ranked, total);
    out := [];
    for i := 0 to |ranked|
      invariant out == Listed(ranked, total)[..i]
    {
      ListedNext(ranked, total, i);
      out := out + [Hypothesis(ranked[i].0, Round3(ranked[i].1 / total))];
    }
    assert out == Listed(ranked, total);
    if !(exists i :: 0 <= i < |out| && out[i].verdict == Chosen(vs)) {
      out := [Hypothesis(Chosen(vs), 0.0)] + out;
    }
  }

  method Decide(e: Evidence) returns (d: Decision)
    ensures d == DecisionOf(Voters(e))
  {
    hide Voters, Confidence, Agreement, Chosen, Hypotheses;
    var voters := Voters(e);
    if voters == [] {
      return Decision(Unknown, 0.0, 0.0, [], [], [], false);
    }
    var verdict := Chosen(voters);
    var hypotheses := RankHypotheses(voters);
    d := Decision(verdict, Round3(Confidence(voters)), Round3(Agreement(voters)), hypotheses,
                  Supporting(voters, verdict), Rejected(voters, verdict), |voters| == 1);
  }

  // ---------------------------------------------------------------- fractions

  ghost predicate Fraction(x: real) { 0.0 <= x <= 1.0 }

  /** The ranges the evidence schemas enforce. */
  ghost predicate InRange(e: Evidence) {
    && e.malscore <= 1.0
    && forall i :: 0 <= i < |e.iocs| ==>
      && Fraction(e.iocs[i].judgement.confidence)
      && forall k :: 0 <= k < |e.iocs[i].judgement.sources| ==> Fraction(e.iocs[i].judgement.sources[k].score)
  }

  ghost predicate Sound(vs: seq<Voter>) {
    && (forall i :: 0 <= i < |vs| ==> Fraction(vs[i].malice) && Fraction(vs[i].confidence))
    && (forall i, j :: 0 <= i < j < |vs| ==> vs[i].source != vs[j].source)
  }

  lemma {:induction false} TopScoreFraction(sources: seq<SourceVerdict>)
    requires forall k :: 0 <= k < |sources| ==> Fraction(sources[k].score)
    ensures TopScore(sources).Some? ==> Fraction(TopScore(sources).value)
  {
    if sources == [] {
    } else {
      TopScoreFraction(sources[1..]);
    }
  }

  lemma {:induction false} StrongestFraction(iocs: seq<EnrichedIOC>)
    requires forall e :: e in iocs ==>
      forall k :: 0 <= k < |e.judgement.sources| ==> Fraction(e.judgement.sources[k].score)
    ensures StrongestScore(iocs).Some? ==> Fraction(StrongestScore(iocs).value)
  {
    if iocs == [] {
    } else {
      assert iocs[0] in iocs;
      TopScoreFraction(iocs[0].judgement.sources);
      StrongestFraction(iocs[1..]);
    }
  }

  lemma {:induction false} TopConfidenceFraction(iocs: seq<EnrichedIOC>)
    requires iocs != [] && forall e :: e in iocs ==> Fraction(e.judgement.confidence)
    ensures Fraction(TopConfidence(iocs))
  {
    assert iocs[0] in iocs;
    if |iocs| == 1 {
    } else {
      TopConfidenceFraction(iocs[1..]);
    }
  }

  lemma IntelSound(iocs: seq<EnrichedIOC>)
    requires InRange(Evidence(iocs, 0, 0.0, [], []))
    ensures |IntelVote(iocs)| <= 1
    ensures forall i :: 0 <= i < |IntelVote(iocs)| ==>
      IntelVote(iocs)[i].source == ThreatIntel && Fraction(IntelVote(iocs)[i].malice) && Fraction(IntelVote(iocs)[i].confidence)
  {
    var mal := Judged(Rated(iocs), Malicious);
    forall e | e in mal
      ensures Fraction(e.judgement.confidence)
      ensures forall k :: 0 <= k < |e.judgement.sources| ==> Fraction(e.judgement.sources[k].score)
    {
      assert e in iocs;
    }
    StrongestFraction(mal);
    if mal != [] {
      TopConfidenceFraction(mal);
    }
    hide StrongestScore, TopConfidence, InRange;
  }

  /** The sources in the order they vote. */
  function Place(s: Source): nat {
    match s
    case ThreatIntel => 0
    case Edr => 1
    case Sandbox => 2
    case Detections => 3
    case Mitre => 4
  }

  ghost predicate SoundUpTo(vs: seq<Voter>, n: nat) {
    Sound(vs) && |vs| <= n && forall i :: 0 <= i < |vs| ==> Place(vs[i].source) < n
  }

  /** At most one vote, of the source in place `n`. */
  ghost predicate VoteOf(vote: seq<Voter>, n: nat) {
    |vote| <= 1 && forall i :: 0 <= i < |vote| ==>
      Place(vote[i].source) == n && Fraction(vote[i].malice) && Fraction(vote[i].confidence)
  }

  lemma OneVoteEach(e: Evidence)
    requires InRange(e)
    ensures VoteOf(IntelVote(e.iocs), 0) && VoteOf(EdrVote(e), 1) && VoteOf(SandboxVote(e), 2)
    ensures VoteOf(DetectionVote(e), 3) && VoteOf(MitreVote(e), 4)
  {
    IntelSound(e.iocs);
    TacticsFraction(e.tactics);
    hide IntelVote, TacticsMalice, Worst;
  }

  lemma OneMoreSource(vs: seq<Voter>, n: nat, vote: seq<Voter>)
    requires SoundUpTo(vs, n) && VoteOf(vote, n)
    ensures SoundUpTo(vs + vote, n + 1)
  {
  }

  /** Evidence within its schema's ranges gives at most one vote per source, all with
      malice and confidence in [0, 1]. */
  lemma VotersSound(e: Evidence)
    requires InRange(e)
    ensures Sound(Voters(e)) && |Voters(e)| <= SOURCES
  {
    hide IntelVote, InRange, SoundUpTo, VoteOf;
    NobodyYet();
    OneVoteEach(e);
    hide EdrVote, SandboxVote, DetectionVote, MitreVote, Place, Fraction;
    var v1 := IntelVote(e.iocs);
    var v2 := v1 + EdrVote(e);
    var v3 := v2 + SandboxVote(e);
    var v4 := v3 + DetectionVote(e);
    assert [] + v1 == v1;
    OneMoreSource([], 0, v1);
    OneMoreSource(v1, 1, EdrVote(e));
    OneMoreSource(v2, 2, SandboxVote(e));
    OneMoreSource(v3, 3, DetectionVote(e));
    OneMoreSource(v4, 4, MitreVote(e));
    FullHouse(Voters(e));
  }

  lemma NobodyYet()
    ensures SoundUpTo([], 0)
  {
  }

  lemma FullHouse(vs: seq<Voter>)
    requires SoundUpTo(vs, SOURCES)
    ensures Sound(vs) && |vs| <= SOURCES
  {
  }

  lemma TacticsFraction(tactics: seq<string>)
    ensures Fraction(TacticsMalice(tactics))
  {
  }

  ghost predicate Between(sum: real, total: real, lo: real, hi: real) {
    lo * total <= sum <= hi * total
  }

  /** The weighted malice is an average: it lies between any bounds on the votes. */
  lemma {:induction false} MaliceSumBetween(vs: seq<Voter>, lo: real, hi: real)
    requires forall i :: 0 <= i < |vs| ==> lo <= vs[i].malice <= hi
    ensures Between(MaliceSum(vs), TotalWeight(vs), lo, hi)
  {
    hide Between, WeighedVote, Weight;
    if vs == [] {
      NoVotes(lo, hi);
    } else {
      var head, last := vs[..|vs| - 1], vs[|vs| - 1];
      MaliceSumBetween(head, lo, hi);
      OneMoreVote(MaliceSum(head), TotalWeight(head), last, lo, hi);
    }
  }

  lemma NoVotes(lo: real, hi: real)
    ensures Between(0.0, 0.0, lo, hi)
  {
  }

  lemma OneMoreVote(sum: real, total: real, v: Voter, lo: real, hi: real)
    requires Between(sum, total, lo, hi) && lo <= v.malice <= hi
    ensures Between(sum + WeighedVote(v), total + Weight(v.source), lo, hi)
  {
    var w := Weight(v.source);
    assert w * lo <= w * v.malice <= w * hi;
  }

  lemma Quotient(x: real, total: real, lo: real, hi: real)
    requires total > 0.0 && lo * total <= x <= hi * total
    ensures lo <= x / total <= hi
  {
    var q := x / total;
    assert q * total == x;
  }

  lemma MaliceBetween(vs: seq<Voter>, lo: real, hi: real)
    requires vs != [] && forall i :: 0 <= i < |vs| ==> lo <= vs[i].malice <= hi
    ensures lo <= WeightedMalice(vs) <= hi
  {
    TotalPositive(vs);
    MaliceSumBetween(vs, lo, hi);
    Quotient(MaliceSum(vs), TotalWeight(vs), lo, hi);
  }

  lemma {:induction false} WeightForBounds(vs: seq<Voter>, verdict: Verdict)
    ensures 0.0 <= WeightFor(vs, verdict) <= TotalWeight(vs)
    ensures WeightFor(vs, verdict) == TotalWeight(vs) <==> forall i :: 0 <= i < |vs| ==> vs[i].verdict == verdict
    ensures WeightFor(vs, verdict) == 0.0 <==> forall i :: 0 <= i < |vs| ==> vs[i].verdict != verdict
  {
    if vs == [] {
    } else {
      WeightForBounds(vs[..|vs| - 1], verdict);
      EveryVoter(vs, verdict);
    }
  }

  lemma EveryVoter(vs: seq<Voter>, verdict: Verdict)
    requires vs != []
    ensures var head, last := vs[..|vs| - 1], vs[|vs| - 1];
      && ((forall i :: 0 <= i < |vs| ==> vs[i].verdict == verdict)
          <==> (forall i :: 0 <= i < |head| ==> head[i].verdict == verdict) && last.verdict == verdict)
      && ((forall i :: 0 <= i < |vs| ==> vs[i].verdict != verdict)
          <==> (forall i :: 0 <= i < |head| ==> head[i].verdict != verdict) && last.verdict != verdict)
  {
    var head := vs[..|vs| - 1];
    assert vs == head + [vs[|vs| - 1]];
  }

  /** Agreement is a fraction: 1 exactly when every voter holds the chosen verdict, and 0
      exactly when none does. */
  lemma AgreementIs(vs: seq<Voter>)
    requires vs != []
    ensures Fraction(Agreement(vs))
    ensures Agreement(vs) == 1.0 <==> forall i :: 0 <= i < |vs| ==> vs[i].verdict == Chosen(vs)
    ensures Agreement(vs) == 0.0 <==> forall i :: 0 <= i < |vs| ==> vs[i].verdict != Chosen(vs)
  {
    hide Chosen;
    TotalPositive(vs);
    WeightForBounds(vs, Chosen(vs));
    hide WeightFor, TotalWeight;
    QuotientEnds(WeightFor(vs, Chosen(vs)), TotalWeight(vs));
  }

  lemma QuotientEnds(x: real, total: real)
    requires 0.0 <= x <= total && total > 0.0
    ensures Fraction(x / total)
    ensures x / total == 1.0 <==> x == total
    ensures x / total == 0.0 <==> x == 0.0
  {
    Quotient(x, total, 0.0, 1.0);
    var q := x / total;
    assert q * total == x;
  }

  /** Confidence is a fraction, before and after rounding, and a lone voter can never be
      more than 0.456 confident. */
  lemma ConfidenceIs(vs: seq<Voter>)
    requires vs != [] && Sound(vs) && |vs| <= SOURCES
    ensures Fraction(Confidence(vs)) && Fraction(Round3(Confidence(vs)))
    ensures |vs| == 1 ==> Confidence(vs) <= 0.456 && Round3(Confidence(vs)) <= 0.456
  {
    AgreementIs(vs);
    MaliceBetween(vs, 0.0, 1.0);
    hide Agreement, WeightedMalice;
    Rounded(0.0, Confidence(vs));
    Rounded(Confidence(vs), 1.0);
    if |vs| == 1 {
      Rounded(Confidence(vs), 0.456);
    }
    RoundedPoints();
  }

  lemma Rounded(x: real, y: real)
    requires x <= y
    ensures Round3(x) <= Round3(y)
  {
    NearestMonotone(x * 1000.0, y * 1000.0);
  }

  lemma RoundedPoints()
    ensures Round3(0.0) == 0.0 && Round3(0.456) == 0.456 && Round3(1.0) == 1.0
  {
    NearestWithin(0.0);
    NearestWithin(456.0);
    NearestWithin(1000.0);
  }

  /** What any evidence can lead to. */
  lemma DecisionsAreFractions(e: Evidence)
    requires InRange(e)
    ensures var d := DecisionOf(Voters(e));
      && Fraction(d.confidence) && Fraction(d.agreement)
      && (d.verdict == Unknown <==> Voters(e) == [])
      && (d.loneVoterNote ==> d.confidence <= 0.456)
  {
    var vs := Voters(e);
    VotersSound(e);
    hide Voters, Sound;
    if vs != [] {
      AgreementIs(vs);
      ConfidenceIs(vs);
      Rounded(0.0, Agreement(vs));
      Rounded(Agreement(vs), 1.0);
      RoundedPoints();
      hide Confidence, Agreement, WeightedMalice, Hypotheses, Round3;
    }
  }

  /** Every voter is listed once, as supporting or as rejected, by its own verdict. */
  lemma VotersArePartitioned(vs: seq<Voter>, verdict: Verdict)
    ensures multiset(Supporting(vs, verdict)) + multiset(Rejected(vs, verdict)) == multiset(vs)
    ensures forall v :: v in Supporting(vs, verdict) ==> v.verdict == verdict
    ensures forall v :: v in Rejected(vs, verdict) ==> v.verdict != verdict
  {
    FilterSplits((v: Voter) => v.verdict == verdict, (v: Voter) => v.verdict != verdict, vs);
  }

  // ---------------------------------------------------------------- the hypotheses

  function ShareSum(s: seq<Share>): real {
    if s == [] then 0.0 else s[0].1 + ShareSum(s[1..])
  }

  lemma {:induction false} ShareSumAppend(s: seq<Share>, x: Share)
    ensures ShareSum(s + [x]) == ShareSum(s) + x.1
  {
    if s == [] {
      assert s + [x] == [x];
    } else {
      ShareSumAppend(s[1..], x);
      assert (s + [x])[1..] == s[1..] + [x];
    }
  }

  lemma {:induction false} ShareSumUpdate(s: seq<Share>, i: nat, x: Share)
    requires i < |s|
    ensures ShareSum(s[i := x]) == ShareSum(s) - s[i].1 + x.1
  {
    if i == 0 {
      assert s[i := x][1..] == s[1..];
    } else {
      ShareSumUpdate(s[1..], i - 1, x);
      assert s[i := x][1..] == s[1..][i - 1 := x];
    }
  }

  lemma {:induction false} ShareSumSort(s: seq<Share>)
    ensures ShareSum(Sort(Heavier, s)) == ShareSum(s)
  {
    if s == [] {
    } else {
      ShareSumSort(s[1..]);
      ShareSumInsert(s[0], Sort(Heavier, s[1..]));
    }
  }

  lemma {:induction false} ShareSumInsert(x: Share, s: seq<Share>)
    ensures ShareSum(Insert(Heavier, x, s)) == x.1 + ShareSum(s)
  {
    if s == [] || Heavier(x, s[0]) {
      assert ([x] + s)[1..] == s;
    } else {
      ShareSumInsert(x, s[1..]);
      assert ([s[0]] + Insert(Heavier, x, s[1..]))[1..] == Insert(Heavier, x, s[1..]);
    }
  }

  lemma BucketSum(d: Dict<Verdict, real>, k: Verdict, w: real)
    requires d.Valid() && d.Put(k, Bucket(d, k) + w).Valid()
    ensures ShareSum(Shares(d.Put(k, Bucket(d, k) + w))) == ShareSum(Shares(d)) + w
  {
    var next := d.Put(k, Bucket(d, k) + w);
    if k in d.vals {
      assert k in d.keys;
      var i :| 0 <= i < |d.keys| && d.keys[i] == k;
      ShareSumUpdate(Shares(d), i, (k, Bucket(d, k) + w));
      assert Shares(next) == Shares(d)[i := (k, Bucket(d, k) + w)];
    } else {
      ShareSumAppend(Shares(d), (k, w));
      assert Shares(next) == Shares(d) + [(k, w)];
    }
  }

  lemma {:induction false} BucketsSum(vs: seq<Voter>)
    ensures Buckets(vs).Valid() && ShareSum(Shares(Buckets(vs))) == TotalWeight(vs)
  {
    BucketsValid(vs);
    hide ShareSum, Shares, Bucket, Weight, Dict.Valid, Dict.Put;
    if vs == [] {
      NoShares();
    } else {
      BucketsValid(vs[..|vs| - 1]);
      BucketsSum(vs[..|vs| - 1]);
      BucketSum(Buckets(vs[..|vs| - 1]), vs[|vs| - 1].verdict, Weight(vs[|vs| - 1].source));
    }
  }

  lemma NoShares()
    ensures Empty<Verdict, real>().Valid() && ShareSum(Shares(Empty())) == 0.0
  {
  }

  /** The probability of each ranked verdict before rounding. */
  function Probabilities(ranked: seq<Share>, total: real): real
    requires total > 0.0
  {
    if ranked == [] then 0.0 else ranked[0].1 / total + Probabilities(ranked[1..], total)
  }

  lemma {:induction false} ProbabilitiesAre(ranked: seq<Share>, total: real)
    requires total > 0.0
    ensures Probabilities(ranked, total) == ShareSum(ranked) / total
  {
    if ranked == [] {
    } else {
      ProbabilitiesAre(ranked[1..], total);
    }
  }

  /** Before rounding, the hypotheses' probabilities sum to 1. */
  lemma ProbabilitiesSumToOne(vs: seq<Voter>)
    requires vs != []
    ensures TotalWeight(vs) > 0.0 && Probabilities(Ranked(vs), TotalWeight(vs)) == 1.0
  {
    TotalPositive(vs);
    BucketsSum(vs);
    ShareSumSort(Shares(Buckets(vs)));
    ProbabilitiesAre(Ranked(vs), TotalWeight(vs));
    assert ShareSum(Ranked(vs)) == TotalWeight(vs);
    hide Ranked, TotalWeight, Probabilities, ShareSum;
    Quotient(TotalWeight(vs), TotalWeight(vs), 1.0, 1.0);
  }

  lemma HeavierOrder()
    ensures TotalPreorder(Heavier)
  {
  }

  /** The ranking holds each verdict voted for once, with its weight, heaviest first. */
  lemma RankedAre(vs: seq<Voter>)
    ensures forall i, j :: 0 <= i < j < |Ranked(vs)| ==> Ranked(vs)[i].0 != Ranked(vs)[j].0
    ensures forall i, j :: 0 <= i < j < |Ranked(vs)| ==> Ranked(vs)[i].1 >= Ranked(vs)[j].1
    ensures forall i :: 0 <= i < |Ranked(vs)| ==>
      Ranked(vs)[i].1 == WeightFor(vs, Ranked(vs)[i].0) && exists k :: 0 <= k < |vs| && vs[k].verdict == Ranked(vs)[i].0
    ensures forall k :: 0 <= k < |vs| ==> (vs[k].verdict, WeightFor(vs, vs[k].verdict)) in Ranked(vs)
  {
    hide WeightFor;
    BucketsAre(vs);
    HeavierOrder();
    var shares := Shares(Buckets(vs));
    SharesAre(Buckets(vs));
    SortCorrect(Heavier, shares);
    SortKeepsDistinct(Heavier, shares);
    hide Buckets, Shares, Sort;
    forall i | 0 <= i < |Ranked(vs)| ensures Ranked(vs)[i] in shares {
      assert Ranked(vs)[i] in Ranked(vs);
    }
    forall i, j | 0 <= i < j < |Ranked(vs)| ensures Ranked(vs)[i].0 != Ranked(vs)[j].0 {
      assert Ranked(vs)[i] != Ranked(vs)[j];
    }
  }

  lemma SharesAre(d: Dict<Verdict, real>)
    requires d.Valid()
    ensures Distinct(Shares(d))
    ensures forall s :: s in Shares(d) <==> s.0 in d.vals && s.1 == d.vals[s.0]
  {
    var values := d.Values();
    forall s ensures s in Shares(d) <==> s.0 in d.vals && s.1 == d.vals[s.0] {
      if s.0 in d.vals && s.1 == d.vals[s.0] {
        assert s.0 in d.keys;
        var i :| 0 <= i < |d.keys| && d.keys[i] == s.0;
        assert Shares(d)[i] == s;
      }
    }
  }

  /** The hypotheses offered: every verdict voted for and the chosen one, each once, each
      with the share of the weight behind it; in particular the chosen verdict's
      probability is the agreement, also when no voter holds it. */
  lemma HypothesesAre(vs: seq<Voter>)
    requires vs != []
    ensures forall i, j :: 0 <= i < j < |Hypotheses(vs)| ==> Hypotheses(vs)[i].verdict != Hypotheses(vs)[j].verdict
    ensures TotalWeight(vs) > 0.0
    ensures forall i :: 0 <= i < |Hypotheses(vs)| ==>
      Hypotheses(vs)[i].probability == Round3(WeightFor(vs, Hypotheses(vs)[i].verdict) / TotalWeight(vs))
    ensures forall k :: 0 <= k < |vs| ==> Names(Hypotheses(vs), vs[k].verdict)
    ensures Hypothesis(Chosen(vs), Round3(Agreement(vs))) in Hypotheses(vs)
  {
    hide Chosen, Ranked, Round3, WeightFor, Listed, Agreement, TotalWeight, Names;
    TotalPositive(vs);
    UnvotedIsZero(vs);
    var out := Listed(Ranked(vs), TotalWeight(vs));
    ListedAre(vs, out);
    var chosen := Hypothesis(Chosen(vs), 0.0);
    if i :| 0 <= i < |out| && out[i].verdict == Chosen(vs) {
      assert out[i] in Hypotheses(vs);
    } else {
      assert Hypotheses(vs) == [chosen] + out && ([chosen] + out)[0] == chosen;
      forall k | 0 <= k < |vs| ensures Names([chosen] + out, vs[k].verdict) && vs[k].verdict != Chosen(vs) {
        NamesLater(out, chosen, vs[k].verdict);
      }
    }
  }

  lemma NamesLater(out: seq<Hypothesis>, h: Hypothesis, verdict: Verdict)
    requires Names(out, verdict)
    ensures Names([h] + out, verdict) && exists i :: 0 <= i < |out| && out[i].verdict == verdict
  {
    var i :| 0 <= i < |out| && out[i].verdict == verdict;
    assert ([h] + out)[i + 1] == out[i];
  }

  lemma ListedAt(ranked: seq<Share>, total: real, i: nat)
    requires total > 0.0 && i < |ranked|
    ensures |Listed(ranked, total)| == |ranked|
    ensures Listed(ranked, total)[i] == Hypothesis(ranked[i].0, Round3(ranked[i].1 / total))
  {
    hide Round3;
  }

  lemma RankedHas(vs: seq<Voter>, k: nat) returns (i: nat)
    requires k < |vs|
    ensures i < |Ranked(vs)| && Ranked(vs)[i].0 == vs[k].verdict
  {
    hide Ranked, WeightFor;
    RankedAre(vs);
    var share: Share := (vs[k].verdict, WeightFor(vs, vs[k].verdict));
    assert share in Ranked(vs);
    i :| 0 <= i < |Ranked(vs)| && Ranked(vs)[i] == share;
  }

  ghost predicate Names(out: seq<Hypothesis>, verdict: Verdict) {
    exists i :: 0 <= i < |out| && out[i].verdict == verdict
  }

  lemma ListedAre(vs: seq<Voter>, out: seq<Hypothesis>)
    requires vs != [] && TotalWeight(vs) > 0.0 && out == Listed(Ranked(vs), TotalWeight(vs))
    ensures forall i, j :: 0 <= i < j < |out| ==> out[i].verdict != out[j].verdict
    ensures forall i :: 0 <= i < |out| ==> out[i].probability == Round3(WeightFor(vs, out[i].verdict) / TotalWeight(vs))
    ensures forall k :: 0 <= k < |vs| ==> Names(out, vs[k].verdict)
  {
    hide Ranked, Round3, WeightFor, TotalWeight, Listed;
    var ranked, total := Ranked(vs), TotalWeight(vs);
    ListedLength(ranked, total);
    forall i | 0 <= i < |ranked| ensures out[i] == Hypothesis(ranked[i].0, Round3(ranked[i].1 / total)) {
      ListedAt(ranked, total, i);
    }
    RankedAre(vs);
    forall k | 0 <= k < |vs| ensures Names(out, vs[k].verdict) {
      var i := RankedHas(vs, k);
      assert out[i].verdict == vs[k].verdict;
    }
  }

  ghost predicate VotedFor(vs: seq<Voter>, verdict: Verdict) {
    exists k :: 0 <= k < |vs| && vs[k].verdict == verdict
  }

  /** From `from` on, no hypothesis has more weight behind it than the ones before it. */
  ghost predicate Descending(vs: seq<Voter>, out: seq<Hypothesis>, from: nat) {
    forall i, j :: from <= i < j < |out| ==> WeightFor(vs, out[i].verdict) >= WeightFor(vs, out[j].verdict)
  }

  lemma ListedOrder(vs: seq<Voter>, out: seq<Hypothesis>)
    requires TotalWeight(vs) > 0.0 && out == Listed(Ranked(vs), TotalWeight(vs))
    ensures Descending(vs, out, 0)
    ensures forall i :: 0 <= i < |out| ==> VotedFor(vs, out[i].verdict)
  {
    var ranked, total := Ranked(vs), TotalWeight(vs);
    RankedAre(vs);
    forall i | 0 <= i < |ranked| ensures VotedFor(vs, ranked[i].0) {}
    hide *;
    ListedLength(ranked, total);
    forall i, j | 0 <= i < j < |out| ensures WeightFor(vs, out[i].verdict) >= WeightFor(vs, out[j].verdict) {
      ListedAt(ranked, total, i);
      ListedAt(ranked, total, j);
    }
    DescendingIs(vs, out);
    forall i | 0 <= i < |out| ensures VotedFor(vs, out[i].verdict) {
      ListedAt(ranked, total, i);
    }
  }

  lemma DescendingIs(vs: seq<Voter>, out: seq<Hypothesis>)
    requires forall i, j :: 0 <= i < j < |out| ==> WeightFor(vs, out[i].verdict) >= WeightFor(vs, out[j].verdict)
    ensures Descending(vs, out, 0)
  {
    hide WeightFor;
  }

  lemma DescendingLater(vs: seq<Voter>, out: seq<Hypothesis>, h: Hypothesis)
    requires Descending(vs, out, 0)
    ensures Descending(vs, [h] + out, 1)
  {
    hide WeightFor;
  }

  /** The hypotheses come heaviest first; a chosen verdict that nobody voted for leads. */
  lemma HypothesesOrder(vs: seq<Voter>)
    requires vs != []
    ensures var out := Hypotheses(vs);
      if VotedFor(vs, Chosen(vs)) then Descending(vs, out, 0)
      else |out| > 0 && out[0].verdict == Chosen(vs) && Descending(vs, out, 1)
  {
    hide Ranked, Round3, WeightFor, Chosen, Listed, Descending, TotalWeight;
    TotalPositive(vs);
    var out := Listed(Ranked(vs), TotalWeight(vs));
    ListedAre(vs, out);
    ListedOrder(vs, out);
    DescendingLater(vs, out, Hypothesis(Chosen(vs), 0.0));
    if VotedFor(vs, Chosen(vs)) {
      assert Names(out, Chosen(vs));
      assert Hypotheses(vs) == out;
    } else {
      assert Hypotheses(vs) == [Hypothesis(Chosen(vs), 0.0)] + out;
    }
  }

  lemma UnvotedIsZero(vs: seq<Voter>)
    requires vs != []
    ensures TotalWeight(vs) > 0.0 && Agreement(vs) == WeightFor(vs, Chosen(vs)) / TotalWeight(vs)
    ensures (forall k :: 0 <= k < |vs| ==> vs[k].verdict != Chosen(vs)) ==> Round3(Agreement(vs)) == 0.0
  {
    TotalPositive(vs);
    WeightForBounds(vs, Chosen(vs));
    RoundedPoints();
  }

  // ---------------------------------------------------------------- more evidence

  function VerdictRank(v: Verdict): nat {
    match v
    case Unknown => 0
    case Benign => 1
    case Suspicious => 2
    case Malicious => 3
  }

  ghost predicate Raises(vs: seq<Voter>, ws: seq<Voter>) {
    && |vs| == |ws|
    && forall i :: 0 <= i < |vs| ==> vs[i].source == ws[i].source && vs[i].malice <= ws[i].malice
  }

  lemma {:induction false} RaisedSum(vs: seq<Voter>, ws: seq<Voter>)
    requires Raises(vs, ws)
    ensures TotalWeight(vs) == TotalWeight(ws) && MaliceSum(vs) <= MaliceSum(ws)
  {
    if vs == [] {
    } else {
      var v, w := vs[|vs| - 1], ws[|ws| - 1];
      assert v.source == w.source && v.malice <= w.malice;
      RaisedSum(vs[..|vs| - 1], ws[..|ws| - 1]);
      RaisedVote(v, w);
      hide WeighedVote;
    }
  }

  lemma RaisedVote(v: Voter, w: Voter)
    requires v.source == w.source && v.malice <= w.malice
    ensures WeighedVote(v) <= WeighedVote(w)
  {
  }

  /** Among the same voters, more malice never softens the verdict. */
  lemma VerdictMonotone(vs: seq<Voter>, ws: seq<Voter>)
    requires vs != [] && Raises(vs, ws)
    ensures WeightedMalice(vs) <= WeightedMalice(ws)
    ensures VerdictRank(Chosen(vs)) <= VerdictRank(Chosen(ws))
  {
    RaisedSum(vs, ws);
    TotalPositive(vs);
    DivideBoth(MaliceSum(vs), MaliceSum(ws), TotalWeight(vs));
    hide MaliceSum, TotalWeight;
  }

  lemma DivideBoth(x: real, y: real, total: real)
    requires x <= y && total > 0.0
    ensures x / total <= y / total
  {
  }

  // ---------------------------------------------------------------- a further voter

  /** `vs` with one more vote in place `k`. */
  function Joined(vs: seq<Voter>, v: Voter, k: nat): (ws: seq<Voter>)
    requires k <= |vs|
    ensures |ws| == |vs| + 1
  {
    vs[..k] + [v] + vs[k..]
  }

  lemma {:induction false} JoinedSums(vs: seq<Voter>, v: Voter, k: nat)
    requires k <= |vs|
    ensures TotalWeight(Joined(vs, v, k)) == TotalWeight(vs) + Weight(v.source)
    ensures MaliceSum(Joined(vs, v, k)) == MaliceSum(vs) + WeighedVote(v)
    decreases |vs|
  {
    hide Weight, WeighedVote;
    var ws := Joined(vs, v, k);
    if k == |vs| {
      assert ws[..|ws| - 1] == vs;
    } else {
      var n := |vs| - 1;
      JoinedSums(vs[..n], v, k);
      assert ws[..|ws| - 1] == Joined(vs[..n], v, k);
      assert ws[|ws| - 1] == vs[n];
    }
  }

  /** How far the votes together are above `t`, by weight. */
  function Excess(vs: seq<Voter>, t: real): real {
    MaliceSum(vs) - t * TotalWeight(vs)
  }

  lemma ExcessSign(vs: seq<Voter>, t: real)
    requires vs != []
    ensures WeightedMalice(vs) < t <==> Excess(vs, t) < 0.0
    ensures WeightedMalice(vs) == t <==> Excess(vs, t) == 0.0
  {
    TotalPositive(vs);
    hide MaliceSum, TotalWeight;
    Sign(MaliceSum(vs), TotalWeight(vs), t);
  }

  lemma Sign(sum: real, total: real, t: real)
    requires total > 0.0
    ensures sum / total < t <==> sum - t * total < 0.0
    ensures sum / total == t <==> sum - t * total == 0.0
  {
    var q := sum / total;
    assert q * total == sum;
    assert sum - t * total == (q - t) * total;
  }

  lemma JoinedExcess(vs: seq<Voter>, v: Voter, k: nat, t: real)
    requires k <= |vs|
    ensures Excess(Joined(vs, v, k), t) == Excess(vs, t) - Weight(v.source) * (t - v.malice)
  {
    hide MaliceSum, TotalWeight, Joined, Weight;
    var ws := Joined(vs, v, k);
    JoinedSums(vs, v, k);
    Regroup(MaliceSum(ws), TotalWeight(ws), MaliceSum(vs), TotalWeight(vs), Weight(v.source), v.malice, t);
  }

  lemma Regroup(a: real, b: real, sum: real, total: real, w: real, m: real, t: real)
    requires a == sum + w * m && b == total + w
    ensures a - t * b == (sum - t * total) - w * (t - m)
  {
  }

  /** A further voter, wherever it is listed, raises the weighted malice exactly when it is
      at least as malicious as the average so far. */
  lemma FurtherVoter(vs: seq<Voter>, v: Voter, k: nat)
    requires vs != [] && k <= |vs|
    ensures WeightedMalice(Joined(vs, v, k)) >= WeightedMalice(vs) <==> v.malice >= WeightedMalice(vs)
  {
    var average := WeightedMalice(vs);
    hide Excess, WeightedMalice, Joined;
    ExcessSign(vs, average);
    ExcessSign(Joined(vs, v, k), average);
    JoinedExcess(vs, v, k, average);
  }

  /** The votes reach `t`, and a vote of weight `w` and malice `m` falls further short of
      it than they are above it. */
  predicate Outweighs(vs: seq<Voter>, w: real, m: real, t: real)
    requires vs != []
  {
    WeightedMalice(vs) >= t && w * (t - m) > Excess(vs, t)
  }

  /** A further voter softens the verdict exactly when it outweighs the others' excess over
      one of the two thresholds they reach. */
  lemma FurtherVoterSoftens(vs: seq<Voter>, v: Voter, k: nat)
    requires vs != [] && k <= |vs|
    ensures VerdictRank(Chosen(Joined(vs, v, k))) < VerdictRank(Chosen(vs))
      <==> Outweighs(vs, Weight(v.source), v.malice, 0.70) || Outweighs(vs, Weight(v.source), v.malice, 0.40)
  {
    hide WeightedMalice, Excess, Weight, Joined;
    Crosses(vs, v, k, 0.70);
    Crosses(vs, v, k, 0.40);
  }

  lemma Crosses(vs: seq<Voter>, v: Voter, k: nat, t: real)
    requires vs != [] && k <= |vs|
    ensures Outweighs(vs, Weight(v.source), v.malice, t) <==> WeightedMalice(Joined(vs, v, k)) < t <= WeightedMalice(vs)
  {
    hide Excess, WeightedMalice, Joined;
    ExcessSign(Joined(vs, v, k), t);
    JoinedExcess(vs, v, k, t);
  }

  lemma SandboxJoins(e: Evidence, x: real)
    requires e.malscore <= 0.0 < x
    ensures var k := |IntelVote(e.iocs)| + |EdrVote(e)|;
      && k <= |Voters(e)|
      && Voters(e.(malscore := x)) == Joined(Voters(e), Voter(Sandbox, VerdictFor(x), x, 0.8), k)
  {
    hide IntelVote, DetectionVote, MitreVote, EdrVote;
    OthersKeep(e, x);
    var intel, edr, rest := IntelVote(e.iocs), EdrVote(e), DetectionVote(e) + MitreVote(e);
    var vote := [Voter(Sandbox, VerdictFor(x), x, 0.8)];
    var vs := Voters(e);
    assert vs == intel + edr + rest;
    assert vs[..|intel| + |edr|] == intel + edr && vs[|intel| + |edr|..] == rest;
    assert Voters(e.(malscore := x)) == intel + edr + vote + rest;
  }

  lemma OthersKeep(e: Evidence, x: real)
    ensures var f := e.(malscore := x);
      EdrVote(f) == EdrVote(e) && DetectionVote(f) == DetectionVote(e) && MitreVote(f) == MitreVote(e)
  {
  }

  /** A detonation beside other evidence softens the decision exactly when its score falls
      further short of a threshold, at the sandbox's weight, than the rest is above it. */
  lemma SandboxSoftens(e: Evidence, x: real)
    requires e.malscore <= 0.0 < x && Voters(e) != []
    ensures Voters(e.(malscore := x)) != []
    ensures VerdictRank(Chosen(Voters(e.(malscore := x)))) < VerdictRank(Chosen(Voters(e)))
      <==> Outweighs(Voters(e), 0.20, x, 0.70) || Outweighs(Voters(e), 0.20, x, 0.40)
  {
    hide Voters, Outweighs, Chosen, Joined, VerdictRank, IntelVote, EdrVote;
    SandboxJoins(e, x);
    FurtherVoterSoftens(Voters(e), Voter(Sandbox, VerdictFor(x), x, 0.8), |IntelVote(e.iocs)| + |EdrVote(e)|);
  }

  /** A higher score of a detonation that already counts never softens the decision. */
  lemma HigherScoreHardens(e: Evidence, x: real)
    requires 0.0 < e.malscore <= x
    ensures Voters(e) != [] && Voters(e.(malscore := x)) != []
    ensures VerdictRank(Chosen(Voters(e))) <= VerdictRank(Chosen(Voters(e.(malscore := x))))
  {
    hide IntelVote, DetectionVote, MitreVote, EdrVote, Chosen;
    OthersKeep(e, x);
    VerdictMonotone(Voters(e), Voters(e.(malscore := x)));
  }

  /** Beside nothing but an on-host sighting, a malicious verdict survives a detonation
      exactly when it scores at least 0.4; a lower score makes it suspicious. */
  lemma WeakEvidenceSoftens(x: real)
    requires x > 0.0
    ensures var sighting := Evidence([], 1, 0.0, [], []);
      && Voters(sighting) != [] && Chosen(Voters(sighting)) == Malicious
      && Voters(sighting.(malscore := x)) != []
      && Chosen(Voters(sighting.(malscore := x))) == if x >= 0.4 then Malicious else Suspicious
  {
    var edr, sandbox := Voter(Edr, Malicious, 0.9, 0.9), Voter(Sandbox, VerdictFor(x), x, 0.8);
    assert Voters(Evidence([], 1, 0.0, [], [])) == [edr];
    assert Voters(Evidence([], 1, x, [], [])) == [edr, sandbox];
    assert [edr][..0] == [] && [edr, sandbox][..1] == [edr];
    var none: seq<Voter> := [];
    assert TotalWeight(none) == 0.0 && MaliceSum(none) == 0.0;
    assert TotalWeight([edr]) == 0.3 && MaliceSum([edr]) == 0.27;
    assert TotalWeight([edr, sandbox]) == 0.5 && MaliceSum([edr, sandbox]) == 0.27 + 0.2 * x;
    hide TotalWeight, MaliceSum;
    Sign(0.27 + 0.2 * x, 0.5, 0.70);
    Sign(0.27 + 0.2 * x, 0.5, 0.40);
  }
}
