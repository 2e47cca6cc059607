/** The six investigation tools as coroutines, cut at their awaits. A frame is a
    tool call between two awaits; one step runs it to the next await or to its
    end. What the outside world answers is the tool call's `Reply`. */
module Tools {
  import opened Options
  import opened State
  import opened Planner
  import opened Rounding

  /** How a tool call ends. `Early`: it raises before changing the state.
      `Mid`: only for the two-await email fetch, it raises at the second await.
      `Late`: it raises after its keyed effects, while storing evidence. */
  datatype Fate = Ok | Early | Mid | Late {
    predicate Lands() { Ok? || Late? }
  }

  /** `judge` is the threat-intel answer per indicator, `iocs` the indicators a
      corpus scan or a detonation yields. */
  datatype Reply = Reply(
    fate: Fate,
    attachments: seq<Attachment>,
    iocs: seq<IOC>,
    judge: string -> Judgement,
    malscore: real,
    hits: seq<IOC>)

  /** A tool call in flight. `B` holds the enrichment snapshot: a list of
      indicators in the program, the set of their keys in the keyed view. */
  datatype Frame<B, K> =
    | Fresh(action: Action<K>, reply: Reply)
    | Enriching(batch: B, reply: Reply)
    | Detonating(sha256: string, reply: Reply)
    | Hunting(keys: K, reply: Reply)
    | AwaitingMessage(reply: Reply)
    | AwaitingRecipients(reply: Reply)
    | Finished(ok: bool)
  {
    function Remaining(): nat {
      match this
      case Fresh(_, _) => 3
      case AwaitingMessage(_) => 2
      case Finished(_) => 0
      case _ => 1
    }
  }

  type ProgramFrame = Frame<seq<IOC>, seq<string>>
  type LedgerFrame = Frame<set<string>, set<string>>

  function AbstractFrame(f: ProgramFrame): LedgerFrame {
    match f
    case Fresh(a, r) => Fresh(AbstractAction(a), r)
    case Enriching(batch, r) => Enriching(KeysOf(batch), r)
    case Detonating(sha, r) => Detonating(sha, r)
    case Hunting(keys, r) => Hunting(KeySet(keys), r)
    case AwaitingMessage(r) => AwaitingMessage(r)
    case AwaitingRecipients(r) => AwaitingRecipients(r)
    case Finished(ok) => Finished(ok)
  }

  // ---------------------------------------------------------------- program level

  function Start(s: Snapshot, a: Planned, r: Reply): (Snapshot, ProgramFrame)
    requires s.WellKeyed()
  {
    match a
    case RunDetections =>
      if r.fate.Lands() then (s.(detectionsRan := true), Finished(r.fate.Ok?)) else (s, Finished(false))
    case FetchEmail => (s, AwaitingMessage(r))
    case ExtractIocs =>
      if r.fate.Ok? then (s.AddIocs(r.iocs).(extracted := true), Finished(true)) else (s, Finished(false))
    case EnrichIocs =>
      if s.pending.keys == [] then (s, Finished(true)) else (s, Enriching(s.pending.Values(), r))
    case Detonate(att) => (s, Detonating(att.sha256, r))
    case HuntEdr(keys) =>
      if forall k :: k in keys ==> k !in s.enriched.vals then (s, Finished(true)) else (s, Hunting(keys, r))
  }

  function Step(s: Snapshot, f: ProgramFrame): (Snapshot, ProgramFrame)
    requires s.WellKeyed() && !f.Finished?
  {
    match f
    case Fresh(a, r) => Start(s, a, r)
    case Enriching(batch, r) =>
      if r.fate.Lands() then (s.RecordEnrichment(Results(batch, r.judge)), Finished(r.fate.Ok?))
      else (s, Finished(false))
    case Detonating(sha, r) =>
      if r.fate.Lands()
      then (s.(detonated := s.detonated + {sha}, malscore := Max(s.malscore, r.malscore)).AddIocs(r.iocs),
            Finished(r.fate.Ok?))
      else (s, Finished(false))
    case Hunting(keys, r) =>
      if r.fate.Lands()
      then (s.(hunted := s.hunted + KeySet(keys), hits := s.hits + r.hits), Finished(r.fate.Ok?))
      else (s, Finished(false))
    case AwaitingMessage(r) =>
      if r.fate.Early? then (s, Finished(false))
      else (s.(emailMsg := Some(r.attachments), emailChecked := true), AwaitingRecipients(r))
    case AwaitingRecipients(r) =>
      // evidence is stored before the corpus is marked stale, so a late failure keeps the mark
      if r.fate.Ok? then (s.(extracted := false), Finished(true)) else (s, Finished(false))
  }

  // ---------------------------------------------------------------- keyed view

  function LedgerStart(l: Ledger, a: LedgerAction, r: Reply): (Ledger, LedgerFrame)
  {
    match a
    case RunDetections =>
      if r.fate.Lands() then (l.(detectionsRan := true), Finished(r.fate.Ok?)) else (l, Finished(false))
    case FetchEmail => (l, AwaitingMessage(r))
    case ExtractIocs =>
      if r.fate.Ok? then (l.AddKeys(KeysOf(r.iocs)).(extracted := true), Finished(true)) else (l, Finished(false))
    case EnrichIocs =>
      if l.pending == {} then (l, Finished(true)) else (l, Enriching(l.pending, r))
    case Detonate(att) => (l, Detonating(att.sha256, r))
    case HuntEdr(keys) =>
      if keys !! l.judged.Keys then (l, Finished(true)) else (l, Hunting(keys, r))
  }

  function LedgerDetonate(l: Ledger, sha: string, malscore: real, dropped: set<string>): Ledger {
    l.(detonated := l.detonated + {sha}, malscore := Max(l.malscore, malscore)).AddKeys(dropped)
  }

  function LedgerStep(l: Ledger, f: LedgerFrame): (r: (Ledger, LedgerFrame))
    requires !f.Finished?
    ensures r.1.Remaining() < f.Remaining()
  {
    match f
    case Fresh(a, r) => LedgerStart(l, a, r)
    case Enriching(keys, r) =>
      if r.fate.Lands() then (l.Judge(keys, r.judge), Finished(r.fate.Ok?)) else (l, Finished(false))
    case Detonating(sha, r) =>
      if r.fate.Lands()
      then (LedgerDetonate(l, sha, r.malscore, KeysOf(r.iocs)), Finished(r.fate.Ok?))
      else (l, Finished(false))
    case Hunting(keys, r) =>
      if r.fate.Lands() then (l.(hunted := l.hunted + keys, hits := l.hits + r.hits), Finished(r.fate.Ok?))
      else (l, Finished(false))
    case AwaitingMessage(r) =>
      if r.fate.Early? then (l, Finished(false))
      else (l.(emailMsg := Some(r.attachments), emailChecked := true), AwaitingRecipients(r))
    case AwaitingRecipients(r) =>
      if r.fate.Ok? then (l.(extracted := false), Finished(true)) else (l, Finished(false))
  }

  lemma NothingPending(s: Snapshot)
    requires s.WellKeyed()
    ensures s.pending.keys == [] <==> s.pending.vals.Keys == {}
  {
    s.pending.EmptyKeys();
  }

  lemma StartRefines(s: Snapshot, a: Planned, r: Reply)
    requires s.WellKeyed()
    ensures Start(s, a, r).0.WellKeyed()
    ensures LedgerStart(LedgerOf(s), AbstractAction(a), r)
         == (LedgerOf(Start(s, a, r).0), AbstractFrame(Start(s, a, r).1))
  {
    hide KeysOf, Snapshot.AddIocs, Judgements, Ledger.AddKeys;
    match a
    case RunDetections =>
    case FetchEmail =>
    case ExtractIocs =>
      AddIocsWellKeyed(s, r.iocs);
      AddIocsLedger(s, r.iocs);
    case EnrichIocs =>
      NothingPending(s);
      PendingKeys(s);
    case Detonate(att) =>
    case HuntEdr(keys) =>
      assert (forall k :: k in keys ==> k !in s.enriched.vals) <==> KeySet(keys) !! s.enriched.vals.Keys;
  }

  lemma EnrichingRefines(s: Snapshot, batch: seq<IOC>, r: Reply)
    requires s.WellKeyed()
    ensures var f: ProgramFrame := Enriching(batch, r);
      && Step(s, f).0.WellKeyed()
      && LedgerStep(LedgerOf(s), AbstractFrame(f)) == (LedgerOf(Step(s, f).0), AbstractFrame(Step(s, f).1))
  {
    hide KeysOf, Snapshot.RecordEnrichment, Snapshot.WellKeyed, Judgements, Ledger.Judge, Results;
    if r.fate.Lands() {
      var results := Results(batch, r.judge);
      var t := s.RecordEnrichment(results);
      RecordWellKeyed(s, results);
      RecordLedger(s, batch, r.judge);
      var f: ProgramFrame := Enriching(batch, r);
      assert Step(s, f) == (t, Finished(r.fate.Ok?));
      assert LedgerStep(LedgerOf(s), AbstractFrame(f)) == (LedgerOf(t), Finished(r.fate.Ok?));
    }
  }

  lemma DetonatingRefines(s: Snapshot, sha: string, r: Reply)
    requires s.WellKeyed()
    ensures var f: ProgramFrame := Detonating(sha, r);
      && Step(s, f).0.WellKeyed()
      && LedgerStep(LedgerOf(s), AbstractFrame(f)) == (LedgerOf(Step(s, f).0), AbstractFrame(Step(s, f).1))
  {
    hide KeysOf, Snapshot.AddIocs, Judgements, Ledger.AddKeys;
    var t := s.(detonated := s.detonated + {sha}, malscore := Max(s.malscore, r.malscore));
    AddIocsWellKeyed(t, r.iocs);
    AddIocsLedger(t, r.iocs);
  }

  /** The tools act on keys: a step of the program is the same step of the keyed
      view, whatever the dictionaries' order and the indicators' spelling. */
  lemma StepRefines(s: Snapshot, f: ProgramFrame)
    requires s.WellKeyed() && !f.Finished?
    ensures Step(s, f).0.WellKeyed()
    ensures LedgerStep(LedgerOf(s), AbstractFrame(f)) == (LedgerOf(Step(s, f).0), AbstractFrame(Step(s, f).1))
  {
    hide KeysOf, Judgements, Start, LedgerStart, Snapshot.RecordEnrichment, Ledger.Judge, Snapshot.AddIocs, LedgerDetonate;
    match f
    case Fresh(a, r) => StartRefines(s, a, r);
    case Enriching(batch, r) => EnrichingRefines(s, batch, r);
    case Detonating(sha, r) => DetonatingRefines(s, sha, r);
    case Hunting(_, _) =>
    case AwaitingMessage(_) =>
    case AwaitingRecipients(_) =>
  }

  /** No step removes or reorders an enriched indicator. */
  lemma StepAppends(s: Snapshot, f: ProgramFrame)
    requires s.WellKeyed() && !f.Finished?
    ensures s.enriched.keys <= Step(s, f).0.enriched.keys
  {
    hide Snapshot.RecordEnrichment, Snapshot.AddIocs, Results;
    match f
    case Enriching(batch, r) => RecordAppends(s, Results(batch, r.judge));
    case Detonating(sha, r) =>
      AddIocsKeepsEnriched(s.(detonated := s.detonated + {sha}, malscore := Max(s.malscore, r.malscore)), r.iocs);
    case Fresh(_, r) => AddIocsKeepsEnriched(s, r.iocs);
    case _ =>
  }

  // ---------------------------------------------------------------- the program

  /** Runs one tool call from the await it is suspended at to its next await. */
  method Resume(state: InvestigationState, f: ProgramFrame) returns (next: ProgramFrame)
    requires state.Dump().WellKeyed() && !f.Finished?
    modifies state
    ensures (state.Dump(), next) == Step(old(state.Dump()), f)
  {
    match f
    case Fresh(action, reply) =>
      next := Begin(state, action, reply);
    case Enriching(batch, reply) =>
      if !reply.fate.Lands() { return Finished(false); }
      state.RecordEnrichment(Results(batch, reply.judge));
      next := Finished(reply.fate.Ok?);
    case Detonating(sha256, reply) =>
      next := FinishDetonation(state, sha256, reply);
    case Hunting(keys, reply) =>
      if !reply.fate.Lands() { return Finished(false); }
      state.hunted := state.hunted + KeySet(keys);
      state.hits := state.hits + reply.hits;
      next := Finished(reply.fate.Ok?);
    case AwaitingMessage(reply) =>
      if reply.fate.Early? { return Finished(false); }
      state.emailMsg := Some(reply.attachments);
      state.emailChecked := true;
      next := AwaitingRecipients(reply);
    case AwaitingRecipients(reply) =>
      if !reply.fate.Ok? { return Finished(false); }
      state.extracted := false;
      next := Finished(true);
  }

  method FinishDetonation(state: InvestigationState, sha256: string, reply: Reply) returns (next: ProgramFrame)
    requires state.Dump().WellKeyed()
    modifies state
    ensures (state.Dump(), next) == Step(old(state.Dump()), Detonating(sha256, reply))
  {
    hide Snapshot.AddIocs, Max, KeysOf, IOC.Key;
    if !reply.fate.Lands() { return Finished(false); }
    state.detonated := state.detonated + {sha256};
    state.malscore := Max(state.malscore, reply.malscore);
    var _ := state.AddIocs(reply.iocs);
    next := Finished(reply.fate.Ok?);
  }

  /** Runs a tool call from its start to its first await. */
  method Begin(state: InvestigationState, action: Planned, reply: Reply) returns (next: ProgramFrame)
    requires state.Dump().WellKeyed()
    modifies state
    ensures (state.Dump(), next) == Start(old(state.Dump()), action, reply)
  {
    match action
    case RunDetections =>
      if !reply.fate.Lands() { return Finished(false); }
      state.detectionsRan := true;
      next := Finished(reply.fate.Ok?);
    case FetchEmail =>
      next := AwaitingMessage(reply);
    case ExtractIocs =>
      if !reply.fate.Ok? { return Finished(false); }
      var _ := state.AddIocs(reply.iocs);
      state.extracted := true;
      next := Finished(true);
    case EnrichIocs =>
      var batch := state.pending.Values();
      if batch == [] { return Finished(true); }
      next := Enriching(batch, reply);
    case Detonate(attachment) =>
      next := Detonating(attachment.sha256, reply);
    case HuntEdr(keys) =>
      if forall k :: k in keys ==> k !in state.enriched.vals { return Finished(true); }
      next := Hunting(keys, reply);
  }
}
