/** The working memory of one investigation: what the planner reads and the
    tools change. */
module State {
  import opened Options
  import opened OrderedDict

  datatype Verdict = Malicious | Suspicious | Benign | Unknown

  datatype IOC = IOC(kind: string, value: string) {
    function Key(): string { kind + ":" + Lower(value) }
  }

  datatype SourceVerdict = SourceVerdict(verdict: Verdict, score: real)

  datatype Judgement = Judgement(verdict: Verdict, confidence: real, sources: seq<SourceVerdict>)

  datatype EnrichedIOC = EnrichedIOC(ioc: IOC, judgement: Judgement)

  datatype Attachment = Attachment(filename: string, sha256: string)

  datatype Alert = Alert(title: string, description: string, hasMessageId: bool) {
    predicate LooksLikePhishing() {
      Contains(Lower(title + " " + description), "phish") || hasMessageId
    }
  }

  function Lower(s: string): string {
    seq(|s|, i requires 0 <= i < |s| => if 'A' <= s[i] <= 'Z' then s[i] - 'A' + 'a' else s[i])
  }

  predicate Contains(text: string, word: string) {
    exists i :: 0 <= i <= |text| && word <= text[i..]
  }

  /** The same character, or one letter of the alphabet in either case. */
  predicate SameLetter(c: char, d: char) {
    c == d || exists n :: 0 <= n < 26 && Letter(n, c) && Letter(n, d)
  }

  predicate Letter(n: nat, c: char) {
    n < 26 && (c == 'A' + n as char || c == 'a' + n as char)
  }

  lemma LowerLetter(c: char, d: char)
    ensures Lower([c])[0] == Lower([d])[0] <==> SameLetter(c, d)
  {
    var x, y := Lower([c])[0], Lower([d])[0];
    if x == y && c != d {
      assert Letter((x - 'a') as int, c) && Letter((x - 'a') as int, d);
    }
  }

  predicate SameLetters(s: string, t: string) {
    |s| == |t| && forall i :: 0 <= i < |s| ==> SameLetter(s[i], t[i])
  }

  lemma LowerIgnoresCase(s: string, t: string)
    ensures Lower(s) == Lower(t) <==> SameLetters(s, t)
  {
    hide SameLetter;
    forall i | 0 <= i < |s| && i < |t| ensures Lower(s)[i] == Lower(t)[i] <==> SameLetter(s[i], t[i]) {
      LowerLetter(s[i], t[i]);
      assert Lower([s[i]])[0] == Lower(s)[i] && Lower([t[i]])[0] == Lower(t)[i];
    }
    if SameLetters(s, t) {
      assert Lower(s) == Lower(t);
    }
    if Lower(s) == Lower(t) {
      assert |Lower(s)| == |s| && |Lower(t)| == |t|;
    }
  }

  /** Two indicators share a key exactly when they are of one kind and spell one value, in
      whatever case. Kinds are written without a colon. */
  lemma SameKeyIs(a: IOC, b: IOC)
    requires ':' !in a.kind && ':' !in b.kind
    ensures a.Key() == b.Key() <==> a.kind == b.kind && SameLetters(a.value, b.value)
  {
    LowerIgnoresCase(a.value, b.value);
    hide Lower, SameLetters;
    if a.Key() == b.Key() {
      OneColon(a.kind, b.kind, Lower(a.value), Lower(b.value));
    }
  }

  /** The word is looked for in the title and the description, in whatever case. */
  lemma PhishingIs(alert: Alert)
    ensures alert.LooksLikePhishing() <==>
      || alert.hasMessageId
      || exists i :: 0 <= i <= |alert.title| + |alert.description| - 4 && SpellsPhish(alert.title + " " + alert.description, i)
  {
    hide Lower, SameLetters;
    var text := alert.title + " " + alert.description;
    var lower := Lower(text);
    assert |lower| == |text| by { LowerLength(text); }
    forall i | 0 <= i <= |text| - 5 ensures SpellsPhish(text, i) <==> "phish" <= lower[i..] {
      WordAt(text, i);
    }
    if alert.LooksLikePhishing() && !alert.hasMessageId {
      var i :| 0 <= i <= |lower| && "phish" <= lower[i..];
      assert SpellsPhish(text, i);
    }
    if i :| 0 <= i <= |text| - 5 && SpellsPhish(text, i) {
      assert "phish" <= lower[i..];
    }
  }

  predicate SpellsPhish(text: string, i: nat) {
    i + 5 <= |text| && SameLetters(text[i..i + 5], "phish")
  }

  lemma LowerLength(s: string)
    ensures |Lower(s)| == |s|
  {
  }

  lemma WordAt(text: string, i: nat)
    requires i + 5 <= |text|
    ensures i <= |Lower(text)| && (SpellsPhish(text, i) <==> "phish" <= Lower(text)[i..])
  {
    LowerIgnoresCase(text[i..i + 5], "phish");
    hide SameLetters;
    assert Lower(text)[i..][..5] == Lower(text[i..i + 5]);
    assert Lower("phish") == "phish";
  }

  lemma {:induction false} OneColon(k: string, l: string, x: string, y: string)
    requires k + ":" + x == l + ":" + y && ':' !in k && ':' !in l
    ensures k == l && x == y
  {
    var s, t := k + ":" + x, l + ":" + y;
    assert s[0] == if k == "" then ':' else k[0];
    assert t[0] == if l == "" then ':' else l[0];
    if k == "" {
      assert s[1..] == x && t[1..] == y;
    } else {
      assert s[1..] == k[1..] + ":" + x && t[1..] == l[1..] + ":" + y;
      OneColon(k[1..], l[1..], x, y);
    }
  }

  function KeysOf(iocs: seq<IOC>): set<string> { set i | 0 <= i < |iocs| :: iocs[i].Key() }

  /** The serialized state: a value, as the durable workflow checkpoints it. */
  datatype Snapshot = Snapshot(
    alert: Alert,
    detectionsRan: bool,
    emailMsg: Option<seq<Attachment>>,
    emailChecked: bool,
    extracted: bool,
    pending: Dict<string, IOC>,
    enriched: Dict<string, EnrichedIOC>,
    hunted: set<string>,
    detonated: set<string>,
    malscore: real,
    hits: seq<IOC>)
  {
    /** Both dictionaries are keyed by the indicator they store. */
    ghost predicate WellKeyed() {
      && pending.Valid() && enriched.Valid()
      && (forall k :: k in pending.vals ==> pending.vals[k].Key() == k)
      && (forall k :: k in enriched.vals ==> enriched.vals[k].ioc.Key() == k)
    }

    function AddIoc(ioc: IOC): Snapshot {
      if ioc.Key() !in enriched.vals && ioc.Key() !in pending.vals
      then this.(pending := pending.Put(ioc.Key(), ioc))
      else this
    }

    function AddIocs(iocs: seq<IOC>): Snapshot {
      if iocs == [] then this
      else AddIocs(iocs[..|iocs| - 1]).AddIoc(iocs[|iocs| - 1])
    }

    function Record(e: EnrichedIOC): Snapshot {
      this.(enriched := enriched.Put(e.ioc.Key(), e), pending := pending.Pop(e.ioc.Key()))
    }

    function RecordEnrichment(results: seq<EnrichedIOC>): Snapshot {
      if results == [] then this
      else RecordEnrichment(results[..|results| - 1]).Record(results[|results| - 1])
    }

    function Unhunted(): seq<string> {
      Filter(k => k !in hunted, enriched.keys)
    }

    function MaliciousUnhunted(): seq<string> {
      Filter(k => k in enriched.vals && enriched.vals[k].judgement.verdict.Malicious? && k !in hunted,
             enriched.keys)
    }
  }

  // ---------------------------------------------------------------- keyed view

  /** The investigation state up to dictionary order and the spelling of an
      indicator: which keys are where, and what is known about each. */
  datatype Ledger = Ledger(
    alert: Alert,
    detectionsRan: bool,
    emailMsg: Option<seq<Attachment>>,
    emailChecked: bool,
    extracted: bool,
    pending: set<string>,
    judged: map<string, Judgement>,
    hunted: set<string>,
    detonated: set<string>,
    malscore: real,
    hits: seq<IOC>)
  {
    function AddKeys(keys: set<string>): Ledger {
      this.(pending := pending + (keys - judged.Keys))
    }

    function Judge(keys: set<string>, judge: string -> Judgement): Ledger {
      this.(pending := pending - keys, judged := judged + map k | k in keys :: judge(k))
    }

    /** An indicator waits for enrichment or is enriched, never both, and only
        enriched indicators have been hunted. */
    ghost predicate Consistent() {
      pending !! judged.Keys && hunted <= judged.Keys
    }

    /** What no step of any investigation undoes: an indicator once judged keeps
        its judgement, hunts and detonations are not forgotten. */
    ghost predicate GrowsTo(later: Ledger) {
      && judged.Keys <= later.judged.Keys
      && (forall k :: k in judged ==> later.judged[k] == judged[k])
      && hunted <= later.hunted
      && detonated <= later.detonated
      && malscore <= later.malscore
      && hits <= later.hits
      && (detectionsRan ==> later.detectionsRan)
      && (emailChecked ==> later.emailChecked)
      && later.alert == alert
    }
  }

  function Judgements(enriched: map<string, EnrichedIOC>): (j: map<string, Judgement>)
    ensures j.Keys == enriched.Keys
    ensures forall k :: k in enriched ==> j[k] == enriched[k].judgement
  {
    map k | k in enriched :: enriched[k].judgement
  }

  function LedgerOf(s: Snapshot): Ledger {
    Ledger(s.alert, s.detectionsRan, s.emailMsg, s.emailChecked, s.extracted,
           s.pending.vals.Keys, Judgements(s.enriched.vals),
           s.hunted, s.detonated, s.malscore, s.hits)
  }

  lemma AddIocWellKeyed(s: Snapshot, ioc: IOC)
    requires s.WellKeyed()
    ensures s.AddIoc(ioc).WellKeyed()
  {
    s.pending.PutValid(ioc.Key(), ioc);
  }

  lemma AddIocLedger(s: Snapshot, ioc: IOC)
    ensures LedgerOf(s.AddIoc(ioc)) == LedgerOf(s).AddKeys({ioc.Key()})
  {
    var k := ioc.Key();
    if k in s.enriched.vals {
      assert s.pending.vals.Keys + ({k} - s.enriched.vals.Keys) == s.pending.vals.Keys;
    } else {
      assert {k} - s.enriched.vals.Keys == {k};
    }
  }

  lemma AddKeysTwice(l: Ledger, a: set<string>, b: set<string>)
    ensures l.AddKeys(a).AddKeys(b) == l.AddKeys(a + b)
  {
    assert l.pending + (a - l.judged.Keys) + (b - l.judged.Keys) == l.pending + (a + b - l.judged.Keys);
  }

  lemma AddIocsWellKeyed(s: Snapshot, iocs: seq<IOC>)
    requires s.WellKeyed()
    ensures s.AddIocs(iocs).WellKeyed()
  {
    if iocs == [] {
    } else {
      AddIocsWellKeyed(s, iocs[..|iocs| - 1]);
      AddIocWellKeyed(s.AddIocs(iocs[..|iocs| - 1]), iocs[|iocs| - 1]);
    }
  }

  lemma {:induction false} AddIocsLedger(s: Snapshot, iocs: seq<IOC>)
    ensures LedgerOf(s.AddIocs(iocs)) == LedgerOf(s).AddKeys(KeysOf(iocs))
  {
    if iocs == [] {
      assert KeysOf(iocs) == {};
      assert LedgerOf(s).pending + {} == LedgerOf(s).pending;
    } else {
      var n := |iocs| - 1;
      AddIocsLedger(s, iocs[..n]);
      AddIocLedger(s.AddIocs(iocs[..n]), iocs[n]);
      KeysOfLast(iocs);
      AddKeysTwice(LedgerOf(s), KeysOf(iocs[..n]), {iocs[n].Key()});
    }
  }

  lemma KeysOfLast(iocs: seq<IOC>)
    requires iocs != []
    ensures KeysOf(iocs) == KeysOf(iocs[..|iocs| - 1]) + {iocs[|iocs| - 1].Key()}
  {
    var n := |iocs| - 1;
    forall k | k in KeysOf(iocs) ensures k in KeysOf(iocs[..n]) + {iocs[n].Key()} {
      var i :| 0 <= i < |iocs| && iocs[i].Key() == k;
      if i < n { assert iocs[..n][i] == iocs[i]; }
    }
    forall k | k in KeysOf(iocs[..n]) ensures k in KeysOf(iocs) {
      var i :| 0 <= i < n && iocs[..n][i].Key() == k;
      assert iocs[i].Key() == k;
    }
  }

  lemma Cardinality<T>(a: set<T>, b: set<T>)
    ensures |a + b| == |a| + |b - a|
  {
    assert a + b == a + (b - a);
  }

  /** `add_iocs` reports how many keys were new to the investigation. */
  lemma {:induction false} AddIocsCount(s: Snapshot, iocs: seq<IOC>)
    requires s.WellKeyed()
    ensures |s.AddIocs(iocs).pending.vals| - |s.pending.vals|
         == |KeysOf(iocs) - s.enriched.vals.Keys - s.pending.vals.Keys|
  {
    AddIocsLedger(s, iocs);
    var before, after := s.pending.vals.Keys, s.AddIocs(iocs).pending.vals.Keys;
    assert after == before + (KeysOf(iocs) - s.enriched.vals.Keys);
    Cardinality(before, KeysOf(iocs) - s.enriched.vals.Keys);
    assert KeysOf(iocs) - s.enriched.vals.Keys - before == KeysOf(iocs) - s.enriched.vals.Keys - s.pending.vals.Keys;
  }

  function Results(batch: seq<IOC>, judge: string -> Judgement): seq<EnrichedIOC> {
    seq(|batch|, i requires 0 <= i < |batch| => EnrichedIOC(batch[i], judge(batch[i].Key())))
  }

  lemma RecordOneWellKeyed(s: Snapshot, e: EnrichedIOC)
    requires s.WellKeyed()
    ensures s.Record(e).WellKeyed()
  {
    s.enriched.PutValid(e.ioc.Key(), e);
    s.pending.PopValid(e.ioc.Key());
  }

  lemma JudgementsPut(m: map<string, EnrichedIOC>, k: string, e: EnrichedIOC, judge: string -> Judgement)
    requires e.judgement == judge(k)
    ensures Judgements(m[k := e]) == Judgements(m) + map x | x in {k} :: judge(x)
  {}

  lemma RecordOneLedger(s: Snapshot, e: EnrichedIOC, judge: string -> Judgement)
    requires e.judgement == judge(e.ioc.Key())
    ensures LedgerOf(s.Record(e)) == LedgerOf(s).Judge({e.ioc.Key()}, judge)
  {
    hide Judgements, Filter, Lower;
    JudgementsPut(s.enriched.vals, e.ioc.Key(), e, judge);
  }

  lemma JudgeTwice(l: Ledger, a: set<string>, b: set<string>, judge: string -> Judgement)
    ensures l.Judge(a, judge).Judge(b, judge) == l.Judge(a + b, judge)
  {
    assert l.pending - a - b == l.pending - (a + b);
    assert (l.judged + map k | k in a :: judge(k)) + (map k | k in b :: judge(k))
        == l.judged + map k | k in a + b :: judge(k);
  }

  lemma RecordWellKeyed(s: Snapshot, results: seq<EnrichedIOC>)
    requires s.WellKeyed()
    ensures s.RecordEnrichment(results).WellKeyed()
  {
    if results == [] {
    } else {
      RecordWellKeyed(s, results[..|results| - 1]);
      RecordOneWellKeyed(s.RecordEnrichment(results[..|results| - 1]), results[|results| - 1]);
    }
  }

  lemma {:induction false} RecordLedger(s: Snapshot, batch: seq<IOC>, judge: string -> Judgement)
    ensures LedgerOf(s.RecordEnrichment(Results(batch, judge))) == LedgerOf(s).Judge(KeysOf(batch), judge)
  {
    hide Judgements, Snapshot.Record, Lower;
    var results := Results(batch, judge);
    if batch == [] {
      assert KeysOf(batch) == {};
      assert LedgerOf(s).judged + (map k | k in {} :: judge(k)) == LedgerOf(s).judged;
      assert LedgerOf(s).pending - {} == LedgerOf(s).pending;
    } else {
      var n := |batch| - 1;
      RecordLedger(s, batch[..n], judge);
      assert results[..n] == Results(batch[..n], judge);
      RecordOneLedger(s.RecordEnrichment(results[..n]), results[n], judge);
      KeysOfLast(batch);
      JudgeTwice(LedgerOf(s), KeysOf(batch[..n]), {batch[n].Key()}, judge);
    }
  }

  /** Enriched indicators keep their place: recording only appends keys. */
  lemma {:induction false} RecordAppends(s: Snapshot, results: seq<EnrichedIOC>)
    ensures s.enriched.keys <= s.RecordEnrichment(results).enriched.keys
  {
    if results == [] {
    } else {
      RecordAppends(s, results[..|results| - 1]);
    }
  }

  lemma {:induction false} AddIocsKeepsEnriched(s: Snapshot, iocs: seq<IOC>)
    ensures s.AddIocs(iocs).enriched == s.enriched
  {
    if iocs == [] {
    } else {
      AddIocsKeepsEnriched(s, iocs[..|iocs| - 1]);
    }
  }

  /** `v` is the first indicator listed under its key. */
  ghost predicate FirstListed(iocs: seq<IOC>, v: IOC) {
    exists i :: 0 <= i < |iocs| && iocs[i] == v && forall j :: 0 <= j < i ==> iocs[j].Key() != v.Key()
  }

  /** An indicator that waits keeps its place and spelling; new ones are appended as they are
      first spelled. */
  lemma {:induction false} AddIocsSpelling(s: Snapshot, iocs: seq<IOC>)
    requires s.WellKeyed()
    ensures var after := s.AddIocs(iocs).pending;
      && s.pending.keys <= after.keys
      && forall k :: k in after.vals ==>
           if k in s.pending.vals then after.vals[k] == s.pending.vals[k] else FirstListed(iocs, after.vals[k])
  {
    if iocs == [] {
    } else {
      var n := |iocs| - 1;
      AddIocsSpelling(s, iocs[..n]);
      AddIocsWellKeyed(s, iocs[..n]);
      AddIocsLedger(s, iocs[..n]);
      AddIocsKeepsEnriched(s, iocs[..n]);
      hide IOC.Key, Ledger.AddKeys, LedgerOf;
      var before, after := s.AddIocs(iocs[..n]), s.AddIocs(iocs);
      forall k | k in after.pending.vals && k !in s.pending.vals ensures FirstListed(iocs, after.pending.vals[k]) {
        if k in before.pending.vals {
          ListedLonger(iocs, n, before.pending.vals[k]);
        } else {
          NotYetListed(s, iocs, n);
        }
      }
    }
  }

  lemma ListedLonger(iocs: seq<IOC>, n: nat, v: IOC)
    requires n <= |iocs| && FirstListed(iocs[..n], v)
    ensures FirstListed(iocs, v)
  {
    hide IOC.Key;
    var i :| 0 <= i < n && iocs[..n][i] == v && forall j :: 0 <= j < i ==> iocs[..n][j].Key() != v.Key();
    forall j | 0 <= j < i ensures iocs[j].Key() != v.Key() {
      assert iocs[..n][j] == iocs[j];
    }
  }

  lemma AllQueued(s: Snapshot, iocs: seq<IOC>)
    ensures KeysOf(iocs) <= s.AddIocs(iocs).pending.vals.Keys + s.enriched.vals.Keys
  {
    AddIocsLedger(s, iocs);
    hide IOC.Key, KeysOf, Snapshot.AddIocs;
  }

  lemma KeyListed(iocs: seq<IOC>, j: nat)
    requires j < |iocs|
    ensures iocs[j].Key() in KeysOf(iocs)
  {
  }

  lemma NotYetListed(s: Snapshot, iocs: seq<IOC>, n: nat)
    requires n < |iocs|
    requires iocs[n].Key() !in s.AddIocs(iocs[..n]).pending.vals && iocs[n].Key() !in s.enriched.vals
    ensures FirstListed(iocs, iocs[n])
  {
    hide IOC.Key, KeysOf, Snapshot.AddIocs;
    AllQueued(s, iocs[..n]);
    forall j | 0 <= j < n ensures iocs[j].Key() != iocs[n].Key() {
      KeyListed(iocs[..n], j);
    }
  }

  lemma PendingKeys(s: Snapshot)
    requires s.WellKeyed()
    ensures KeysOf(s.pending.Values()) == s.pending.vals.Keys
  {
    var vs := s.pending.Values();
    forall k | k in s.pending.vals ensures k in KeysOf(vs) {
      var i :| 0 <= i < |s.pending.keys| && s.pending.keys[i] == k;
      assert vs[i].Key() == k;
    }
  }

  // ---------------------------------------------------------------- the object

  class InvestigationState {
    const alert: Alert
    var detectionsRan: bool
    var emailMsg: Option<seq<Attachment>>
    var emailChecked: bool
    var extracted: bool
    var pending: Dict<string, IOC>
    var enriched: Dict<string, EnrichedIOC>
    var hunted: set<string>
    var detonated: set<string>
    var malscore: real
    var hits: seq<IOC>

    function Dump(): Snapshot
      reads this
    {
      Snapshot(alert, detectionsRan, emailMsg, emailChecked, extracted, pending, enriched,
               hunted, detonated, malscore, hits)
    }

    ghost function Ledger(): Ledger
      reads this
    {
      LedgerOf(Dump())
    }

    constructor (a: Alert)
      ensures Dump() == Snapshot(a, false, None, false, false, Empty(), Empty(), {}, {}, 0.0, [])
    {
      alert := a;
      detectionsRan, emailMsg, emailChecked, extracted := false, None, false, false;
      pending, enriched, hunted, detonated := Empty(), Empty(), {}, {};
      malscore, hits := 0.0, [];
    }

    /** Restores a checkpoint. */
    constructor Load(s: Snapshot)
      ensures Dump() == s
    {
      alert := s.alert;
      detectionsRan, emailMsg, emailChecked, extracted := s.detectionsRan, s.emailMsg, s.emailChecked, s.extracted;
      pending, enriched, hunted, detonated := s.pending, s.enriched, s.hunted, s.detonated;
      malscore, hits := s.malscore, s.hits;
    }

    method AddIocs(iocs: seq<IOC>) returns (added: nat)
      requires Dump().WellKeyed()
      modifies this`pending
      ensures Dump() == old(Dump()).AddIocs(iocs)
      ensures added == |KeysOf(iocs) - old(enriched.vals.Keys) - old(pending.vals.Keys)|
    {
      added := 0;
      for i := 0 to |iocs|
        invariant Dump() == old(Dump()).AddIocs(iocs[..i])
        invariant added == |pending.vals| - old(|pending.vals|)
      {
        assert iocs[..i + 1][..i] == iocs[..i];
        var key := iocs[i].Key();
        if key !in enriched.vals && key !in pending.vals {
          pending := pending.Put(key, iocs[i]);
          added := added + 1;
        }
      }
      assert iocs[..|iocs|] == iocs;
      AddIocsCount(old(Dump()), iocs);
    }

    method RecordEnrichment(results: seq<EnrichedIOC>)
      modifies this`pending, this`enriched
      ensures Dump() == old(Dump()).RecordEnrichment(results)
    {
      for i := 0 to |results|
        invariant Dump() == old(Dump()).RecordEnrichment(results[..i])
      {
        assert results[..i + 1][..i] == results[..i];
        var key := results[i].ioc.Key();
        enriched := enriched.Put(key, results[i]);
        pending := pending.Pop(key);
      }
      assert results[..|results|] == results;
    }
  }
}
