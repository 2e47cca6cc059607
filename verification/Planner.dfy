/** The rule-driven planner: the next batch of actions, read off the state. */
module Planner {
  import opened Options
  import opened OrderedDict
  import opened Sorting
  import opened State

  /** One tool call. The key lists of hunts are sequences in the program (`K` is
      `seq<string>`) and sets in the keyed view (`K` is `set<string>`). The
      program's deduplication key is a rendering of the whole action, so two
      actions have the same key exactly when they are equal. */
  datatype Action<K> =
    | RunDetections
    | FetchEmail
    | ExtractIocs
    | EnrichIocs
    | Detonate(attachment: Attachment)
    | HuntEdr(keys: K)

  type Planned = Action<seq<string>>
  type LedgerAction = Action<set<string>>

  datatype Budget = Budget(maxIterations: nat, maxToolCalls: int)

  const DEFAULT_BUDGET := Budget(8, 32)

  function KeySet(keys: seq<string>): set<string> { set k | k in keys }

  function AbstractAction(a: Planned): LedgerAction {
    match a
    case RunDetections => RunDetections
    case FetchEmail => FetchEmail
    case ExtractIocs => ExtractIocs
    case EnrichIocs => EnrichIocs
    case Detonate(att) => Detonate(att)
    case HuntEdr(keys) => HuntEdr(KeySet(keys))
  }

  function AbstractActions(s: seq<Planned>): seq<LedgerAction> {
    seq(|s|, i requires 0 <= i < |s| => AbstractAction(s[i]))
  }

  // ---------------------------------------------------------------- the rules

  function Undetonated(attachments: seq<Attachment>, detonated: set<string>): seq<Attachment> {
    if attachments == [] then []
    else
      var n := |attachments| - 1;
      Undetonated(attachments[..n], detonated) +
      (if attachments[n].sha256 !in detonated then [attachments[n]] else [])
  }

  lemma {:induction false} UndetonatedAre(attachments: seq<Attachment>, detonated: set<string>)
    ensures forall a :: a in Undetonated(attachments, detonated) <==> a in attachments && a.sha256 !in detonated
    ensures |Undetonated(attachments, detonated)| <= |attachments|
  {
    if attachments == [] {
    } else {
      var n := |attachments| - 1;
      UndetonatedAre(attachments[..n], detonated);
      assert attachments == attachments[..n] + [attachments[n]];
    }
  }

  /** The attachments to detonate are listed as the message lists them. */
  lemma {:induction false} UndetonatedAt(attachments: seq<Attachment>, detonated: set<string>) returns (at: seq<nat>)
    ensures Lists((a: Attachment) => a.sha256 !in detonated, attachments, at) && |at| == |Undetonated(attachments, detonated)|
    ensures forall i :: 0 <= i < |at| ==> at[i] < |attachments| && Undetonated(attachments, detonated)[i] == attachments[at[i]]
  {
    if attachments == [] {
      at := [];
    } else {
      var n := |attachments| - 1;
      var before := UndetonatedAt(attachments[..n], detonated);
      at := before + if attachments[n].sha256 !in detonated then [n] else [];
      ListsNext((a: Attachment) => a.sha256 !in detonated, attachments, before);
      hide Lists;
    }
  }

  function Attachments(email: Option<seq<Attachment>>): seq<Attachment> {
    if email.Some? then email.value else []
  }

  function Detonations<K>(attachments: seq<Attachment>): (r: seq<Action<K>>)
  {
    seq(|attachments|, i requires 0 <= i < |attachments| => Detonate(attachments[i]))
  }

  function FirstBatch<K>(l: Ledger): seq<Action<K>> {
    (if !l.detectionsRan then [RunDetections] else []) +
    (if l.alert.LooksLikePhishing() && !l.emailChecked then [FetchEmail] else [])
  }

  function EvidenceBatch<K>(l: Ledger): seq<Action<K>> {
    (if l.pending != {} then [EnrichIocs] else []) + Detonations(Undetonated(Attachments(l.emailMsg), l.detonated))
  }

  /** The phases in order; `hunt` is what the last phase would do. */
  function Phases<K>(l: Ledger, hunt: seq<Action<K>>): seq<Action<K>> {
    if FirstBatch<K>(l) != [] then FirstBatch(l)
    else if !l.extracted then [ExtractIocs]
    else if EvidenceBatch<K>(l) != [] then EvidenceBatch(l)
    else hunt
  }

  function HuntBatch(s: Snapshot): seq<Planned> {
    if s.MaliciousUnhunted() != [] then [HuntEdr(s.MaliciousUnhunted())]
    else if s.hunted == {} && s.Unhunted() != [] then [HuntEdr(s.Unhunted())]
    else []
  }

  function NextActions(s: Snapshot): seq<Planned> {
    Phases(LedgerOf(s), HuntBatch(s))
  }

  function MaliciousKeys(l: Ledger): set<string> {
    set k | k in l.judged && l.judged[k].verdict.Malicious? && k !in l.hunted
  }

  function LedgerHunt(l: Ledger): seq<LedgerAction> {
    if MaliciousKeys(l) != {} then [HuntEdr(MaliciousKeys(l))]
    else if l.hunted == {} && l.judged.Keys != {} then [HuntEdr(l.judged.Keys)]
    else []
  }

  function LedgerPlan(l: Ledger): seq<LedgerAction> {
    Phases(l, LedgerHunt(l))
  }

  lemma MaliciousRefines(s: Snapshot)
    requires s.WellKeyed()
    ensures KeySet(s.MaliciousUnhunted()) == MaliciousKeys(LedgerOf(s))
    ensures s.MaliciousUnhunted() != [] <==> MaliciousKeys(LedgerOf(s)) != {}
  {
    var l, malicious := LedgerOf(s), s.MaliciousUnhunted();
    assert l.judged == Judgements(s.enriched.vals);
    forall k ensures k in malicious <==> k in MaliciousKeys(l) {
      assert k in s.enriched.keys <==> k in s.enriched.vals;
    }
    if malicious != [] { assert malicious[0] in MaliciousKeys(l); }
  }

  lemma UnhuntedRefines(s: Snapshot)
    requires s.WellKeyed() && s.hunted == {}
    ensures KeySet(s.Unhunted()) == s.enriched.vals.Keys
    ensures s.Unhunted() != [] <==> s.enriched.vals.Keys != {}
  {
    forall k ensures k in s.Unhunted() <==> k in s.enriched.vals {
      assert k in s.enriched.keys <==> k in s.enriched.vals;
    }
    if s.Unhunted() != [] { assert s.Unhunted()[0] in s.enriched.vals; }
  }

  lemma AbstractOne(a: Planned)
    ensures AbstractActions([a]) == [AbstractAction(a)]
  {}

  lemma NothingAbstract()
    ensures AbstractActions([]) == []
  {}

  lemma FirstRefines(l: Ledger)
    ensures AbstractActions(FirstBatch(l)) == FirstBatch<set<string>>(l)
  {
    hide Alert.LooksLikePhishing;
  }

  lemma EvidenceRefines(l: Ledger)
    ensures AbstractActions(EvidenceBatch(l)) == EvidenceBatch<set<string>>(l)
  {
    hide Undetonated;
  }

  lemma EmptyAbstract(actions: seq<Planned>)
    ensures AbstractActions(actions) == [] <==> actions == []
  {}

  lemma HuntRefines(s: Snapshot)
    requires s.WellKeyed()
    ensures AbstractActions(HuntBatch(s)) == LedgerHunt(LedgerOf(s))
  {
    hide MaliciousKeys, Snapshot.MaliciousUnhunted, Snapshot.Unhunted, Snapshot.WellKeyed, AbstractActions;
    NothingAbstract();
    MaliciousRefines(s);
    var malicious, unhunted := s.MaliciousUnhunted(), s.Unhunted();
    if malicious != [] {
      AbstractOne(HuntEdr(malicious));
    } else if s.hunted == {} {
      UnhuntedRefines(s);
      if unhunted != [] { AbstractOne(HuntEdr(unhunted)); }
    }
  }

  /** The plan depends on the state only through its keyed view; dictionary order
      shows only in the order of a hunt's key list. */
  lemma PlanRefines(s: Snapshot)
    requires s.WellKeyed()
    ensures AbstractActions(NextActions(s)) == LedgerPlan(LedgerOf(s))
  {
    hide FirstBatch, EvidenceBatch, HuntBatch, LedgerHunt, AbstractActions, Snapshot.WellKeyed, LedgerOf;
    var l := LedgerOf(s);
    HuntRefines(s);
    FirstRefines(l);
    EvidenceRefines(l);
    EmptyAbstract(FirstBatch(l));
    EmptyAbstract(EvidenceBatch(l));
    AbstractOne(ExtractIocs);
  }

  // ---------------------------------------------------------------- what is planned when

  predicate Opening(s: Snapshot) {
    !s.detectionsRan || (s.alert.LooksLikePhishing() && !s.emailChecked)
  }

  predicate ToDetonate(s: Snapshot, a: Attachment) {
    s.emailMsg.Some? && a in s.emailMsg.value && a.sha256 !in s.detonated
  }

  predicate ToHunt(s: Snapshot, k: string) {
    k in s.enriched.vals && k !in s.hunted && s.enriched.vals[k].judgement.verdict.Malicious?
  }

  /** Evidence is complete: hunting may start. */
  predicate Collected(s: Snapshot) {
    !Opening(s) && s.extracted && s.pending.vals.Keys == {}
    && forall a :: a in Attachments(s.emailMsg) ==> a.sha256 in s.detonated
  }

  /** What a hunt covers: the malicious keys not hunted yet, or everything if no key is
      malicious and nothing was ever hunted. */
  predicate Covers(s: Snapshot, keys: seq<string>) {
    && (forall k :: k in keys ==> k in s.enriched.vals)
    && (forall k :: k in s.enriched.vals ==>
         (k in keys <==> ToHunt(s, k) || (s.hunted == {} && forall m :: m in s.enriched.vals ==> !ToHunt(s, m))))
  }

  /** When each action is planned, read off the state. */
  ghost predicate PlanIs(s: Snapshot, plan: seq<Planned>) {
    && (RunDetections in plan <==> !s.detectionsRan)
    && (FetchEmail in plan <==> s.alert.LooksLikePhishing() && !s.emailChecked)
    && (ExtractIocs in plan <==> !Opening(s) && !s.extracted)
    && (EnrichIocs in plan <==> !Opening(s) && s.extracted && s.pending.vals.Keys != {})
    && (forall a :: Detonate(a) in plan <==> !Opening(s) && s.extracted && ToDetonate(s, a))
    && (forall keys :: HuntEdr(keys) in plan ==> Collected(s) && keys != [] && Distinct(keys) && Covers(s, keys))
    && (plan == [] ==> Collected(s) && Covers(s, []))
    && (forall i, j :: 0 <= i < j < |plan| && plan[i] == plan[j] ==> plan[i].Detonate?)
    && (EnrichIocs in plan ==> plan[0] == EnrichIocs)
    && (RunDetections in plan ==> plan[0] == RunDetections)
  }

  lemma EvidenceExactly(s: Snapshot)
    requires s.WellKeyed()
    ensures var plan := EvidenceBatch<seq<string>>(LedgerOf(s));
      && (EnrichIocs in plan <==> s.pending.vals.Keys != {})
      && (forall a :: Detonate(a) in plan <==> ToDetonate(s, a))
      && (plan == [] <==> s.pending.vals.Keys == {} && forall a :: a in Attachments(s.emailMsg) ==> a.sha256 in s.detonated)
      && (forall p :: p in plan ==> p.EnrichIocs? || p.Detonate?)
      && (forall i :: 0 < i < |plan| ==> plan[i].Detonate?)
      && (EnrichIocs in plan ==> plan[0] == EnrichIocs)
  {
    var waiting := Undetonated(Attachments(s.emailMsg), s.detonated);
    UndetonatedAre(Attachments(s.emailMsg), s.detonated);
    hide Undetonated, Snapshot.WellKeyed;
    var detonations := Detonations<seq<string>>(waiting);
    forall a ensures Detonate(a) in detonations <==> a in waiting {
      if a in waiting {
        var i :| 0 <= i < |waiting| && waiting[i] == a;
        assert detonations[i] == Detonate(a);
      }
    }
    if waiting != [] { assert waiting[0] in waiting; }
  }

  lemma HuntKeys(s: Snapshot)
    requires s.WellKeyed()
    ensures Distinct(s.MaliciousUnhunted()) && Distinct(s.Unhunted())
    ensures forall k :: k in s.MaliciousUnhunted() <==> ToHunt(s, k)
    ensures forall k :: k in s.Unhunted() <==> k in s.enriched.vals && k !in s.hunted
  {
    FilterDistinct(k => k !in s.hunted, s.enriched.keys);
    FilterDistinct(k => k in s.enriched.vals && s.enriched.vals[k].judgement.verdict.Malicious? && k !in s.hunted, s.enriched.keys);
    hide Filter;
  }

  lemma MaliciousCovered(s: Snapshot, keys: seq<string>)
    requires (forall k :: k in keys <==> ToHunt(s, k)) && (keys != [] || s.hunted != {})
    ensures Covers(s, keys)
  {
    if keys != [] { assert keys[0] in keys; }
  }

  lemma AllCovered(s: Snapshot, keys: seq<string>)
    requires s.hunted == {} && forall k :: !ToHunt(s, k)
    requires forall k :: k in keys <==> k in s.enriched.vals && k !in s.hunted
    ensures Covers(s, keys)
  {
  }

  lemma HuntExactly(s: Snapshot)
    requires s.WellKeyed()
    ensures var plan := HuntBatch(s);
      && (plan == [] ==> Covers(s, []))
      && |plan| <= 1
      && forall p :: p in plan ==> p.HuntEdr? && p.keys != [] && Distinct(p.keys) && Covers(s, p.keys)
  {
    HuntKeys(s);
    hide Covers, Snapshot.WellKeyed, Snapshot.MaliciousUnhunted, Snapshot.Unhunted, Distinct;
    var malicious, unhunted := s.MaliciousUnhunted(), s.Unhunted();
    if malicious != [] || s.hunted != {} {
      MaliciousCovered(s, malicious);
    } else {
      forall k ensures !ToHunt(s, k) { assert k !in malicious; }
      AllCovered(s, unhunted);
    }
  }

  lemma OpeningExactly(s: Snapshot)
    requires Opening(s) || !s.extracted
    ensures PlanIs(s, NextActions(s))
  {
    hide EvidenceBatch, HuntBatch, Covers, ToDetonate, Distinct, Alert.LooksLikePhishing;
    var l := LedgerOf(s);
    assert FirstBatch<seq<string>>(l) == [] <==> !Opening(s);
    if !Opening(s) { assert NextActions(s) == [ExtractIocs]; }
  }

  lemma LaterPlan(s: Snapshot)
    requires !Opening(s) && s.extracted
    ensures var l := LedgerOf(s);
      NextActions(s) == if EvidenceBatch<seq<string>>(l) != [] then EvidenceBatch(l) else HuntBatch(s)
  {
    hide EvidenceBatch, HuntBatch, Alert.LooksLikePhishing;
  }

  lemma OpeningPlan(s: Snapshot)
    ensures var first: seq<Planned> := (if !s.detectionsRan then [RunDetections] else []) +
        (if s.alert.LooksLikePhishing() && !s.emailChecked then [FetchEmail] else []);
      && (first == [] <==> !Opening(s))
      && (first != [] ==> NextActions(s) == first)
      && (first == [] && !s.extracted ==> NextActions(s) == [ExtractIocs])
  {
    hide EvidenceBatch, HuntBatch, Alert.LooksLikePhishing;
  }

  lemma CollectingExactly(s: Snapshot)
    requires s.WellKeyed() && !Opening(s) && s.extracted && EvidenceBatch<seq<string>>(LedgerOf(s)) != []
    ensures PlanIs(s, NextActions(s))
  {
    hide NextActions, EvidenceBatch, Snapshot.WellKeyed, Covers, ToDetonate, Distinct, Alert.LooksLikePhishing, LedgerOf;
    LaterPlan(s);
    EvidenceExactly(s);
    var plan := NextActions(s);
    assert plan[0] in plan;
    forall i | 0 <= i < |plan| ensures plan[i].EnrichIocs? || plan[i].Detonate? { assert plan[i] in plan; }
  }

  lemma HuntingExactly(s: Snapshot)
    requires s.WellKeyed() && !Opening(s) && s.extracted && EvidenceBatch<seq<string>>(LedgerOf(s)) == []
    ensures PlanIs(s, NextActions(s))
  {
    hide NextActions, EvidenceBatch, HuntBatch, Snapshot.WellKeyed, Covers, Distinct, Alert.LooksLikePhishing, LedgerOf;
    LaterPlan(s);
    EvidenceExactly(s);
    HuntExactly(s);
  }

  /** Every plan is exactly that, whatever the state. */
  lemma PlannedExactly(s: Snapshot)
    requires s.WellKeyed()
    ensures PlanIs(s, NextActions(s))
  {
    if Opening(s) || !s.extracted {
      OpeningExactly(s);
    } else if EvidenceBatch<seq<string>>(LedgerOf(s)) != [] {
      CollectingExactly(s);
    } else {
      HuntingExactly(s);
    }
  }

  // ---------------------------------------------------------------- the program

  lemma UndetonatedNext(attachments: seq<Attachment>, detonated: set<string>, i: nat)
    requires i < |attachments|
    ensures var before, after := Undetonated(attachments[..i], detonated), Undetonated(attachments[..i + 1], detonated);
      Detonations<seq<string>>(after) == Detonations(before)
        + if attachments[i].sha256 !in detonated then [Detonate(attachments[i])] else []
  {
    assert attachments[..i + 1][..i] == attachments[..i];
  }

  lemma NothingUndetonated(detonated: set<string>)
    ensures Detonations<seq<string>>(Undetonated([], detonated)) == []
  {}

  method PlanNext(state: InvestigationState) returns (actions: seq<Planned>)
    requires state.Dump().WellKeyed()
    ensures actions == NextActions(state.Dump())
  {
    hide NextActions, Judgements, Alert.LooksLikePhishing, Undetonated, Detonations, Snapshot.MaliciousUnhunted, Snapshot.Unhunted,
      Snapshot.WellKeyed;
    ghost var s := state.Dump();
    OpeningPlan(s);
    var firstBatch: seq<Planned> := [];
    if !state.detectionsRan {
      firstBatch := firstBatch + [RunDetections];
    }
    if state.alert.LooksLikePhishing() && !state.emailChecked {
      firstBatch := firstBatch + [FetchEmail];
    }
    if firstBatch != [] {
      return firstBatch;
    }
    if !state.extracted {
      return [ExtractIocs];
    }
    LaterPlan(s);
    actions := [];
    if state.pending.vals.Keys != {} {
      actions := actions + [EnrichIocs];
    }
    ghost var enrich := actions;
    NothingUndetonated(state.detonated);
    if state.emailMsg.Some? {
      var attachments := state.emailMsg.value;
      for i := 0 to |attachments|
        invariant actions == enrich + Detonations(Undetonated(attachments[..i], state.detonated))
      {
        UndetonatedNext(attachments, state.detonated, i);
        if attachments[i].sha256 !in state.detonated {
          actions := actions + [Detonate(attachments[i])];
        }
      }
      assert attachments[..|attachments|] == attachments;
    }
    assert actions == EvidenceBatch(state.Ledger());
    if actions == [] {
      var malicious := state.Dump().MaliciousUnhunted();
      if malicious != [] {
        actions := actions + [HuntEdr(malicious)];
      } else if state.hunted == {} && state.Dump().Unhunted() != [] {
        actions := actions + [HuntEdr(state.Dump().Unhunted())];
      }
    }
  }
}
