/** What a batch can and cannot change, read off the kinds of its calls. */
module Effects {
  import opened Options
  import opened State
  import opened Planner
  import opened Rounding
  import opened Tools
  import opened Concurrency

  predicate AllFresh(frames: seq<LedgerFrame>) {
    forall i :: 0 <= i < |frames| ==> frames[i].Fresh?
  }

  predicate Without(frames: seq<LedgerFrame>, kind: Kind) {
    forall i :: 0 <= i < |frames| ==> KindOf(frames[i]) != kind
  }

  /** What a successful call leaves true. */
  predicate Landed(l: Ledger, a: LedgerAction) {
    match a
    case RunDetections => l.detectionsRan
    case FetchEmail => l.emailChecked
    case Detonate(att) => att.sha256 in l.detonated
    case _ => true
  }

  /** What no call undoes. */
  ghost predicate Onward(l: Ledger, m: Ledger) {
    && m.alert == l.alert && (l.detectionsRan ==> m.detectionsRan) && (l.emailChecked ==> m.emailChecked)
    && l.detonated <= m.detonated
  }

  lemma CompleteStarted(l: Ledger, a: LedgerAction, r: Reply)
    ensures var (m, g) := LedgerStart(l, a, r);
      !g.Fresh? && Complete(l, Fresh(a, r)) == (Outcome(m, g), Succeeds(g))
  {
    var (m, g) := LedgerStart(l, a, r);
    CompleteOutcome(m, g);
    hide KeysOf;
  }

  lemma CompleteLands(l: Ledger, a: LedgerAction, r: Reply)
    ensures Onward(l, Complete(l, Fresh(a, r)).0)
    ensures Complete(l, Fresh(a, r)).1 ==> Landed(Complete(l, Fresh(a, r)).0, a)
  {
    CompleteStarted(l, a, r);
    hide KeysOf, Max, Complete;
  }

  /** Each kind of call touches its own part of the ledger. */
  lemma CompleteTouches(l: Ledger, a: LedgerAction, r: Reply)
    ensures var m := Complete(l, Fresh(a, r)).0;
      && (!a.FetchEmail? && !a.ExtractIocs? ==>
            (m.extracted, m.emailMsg, m.emailChecked) == (l.extracted, l.emailMsg, l.emailChecked))
      && (!a.ExtractIocs? ==> m.extracted ==> l.extracted)
      && (!a.Detonate? ==> m.detonated == l.detonated)
      && (!a.HuntEdr? ==> m.hunted == l.hunted)
      && (!a.EnrichIocs? ==> m.judged == l.judged && l.pending <= m.pending)
      && (!a.EnrichIocs? && !a.Detonate? && !a.ExtractIocs? ==> m.pending == l.pending)
  {
    CompleteStarted(l, a, r);
    hide KeysOf, Max, Complete;
  }

  /** A call that has nothing to do succeeds without asking anyone. */
  predicate Idle(l: Ledger, a: LedgerAction) {
    (a.EnrichIocs? && l.pending == {}) || (a.HuntEdr? && a.keys !! l.judged.Keys)
  }

  /** What a call leaves of the marks, for every way it can end. */
  lemma CallMarks(l: Ledger, a: LedgerAction, r: Reply)
    ensures var (m, ok) := Complete(l, Fresh(a, r));
      var lands := (r.fate.Ok? || r.fate.Late?) && !Idle(l, a);
      && (ok <==> r.fate.Ok? || Idle(l, a)) && m.alert == l.alert
      && (m.detectionsRan <==> l.detectionsRan || (a.RunDetections? && lands))
      && (m.emailMsg, m.emailChecked)
         == (if a.FetchEmail? && !r.fate.Early? then (Some(r.attachments), true) else (l.emailMsg, l.emailChecked))
      && (m.extracted <==> (a.ExtractIocs? && r.fate.Ok?) || (l.extracted && !(a.FetchEmail? && r.fate.Ok?)))
      && m.detonated == (if a.Detonate? && lands then l.detonated + {a.attachment.sha256} else l.detonated)
      && (m.hunted, m.hits)
         == (if a.HuntEdr? && lands then (l.hunted + a.keys, l.hits + r.hits) else (l.hunted, l.hits))
  {
    CompleteStarted(l, a, r);
    hide Max, Complete, KeysOf;
  }

  /** What a call leaves of the indicators, for every way it can end. */
  lemma CallIndicators(l: Ledger, a: LedgerAction, r: Reply)
    ensures var m := Complete(l, Fresh(a, r)).0;
      var judges := a.EnrichIocs? && (r.fate.Ok? || r.fate.Late?);
      var finds := (r.fate.Ok? && (a.ExtractIocs? || a.Detonate?)) || (r.fate.Late? && a.Detonate?);
      && m.pending == (if judges then {} else l.pending) + (if finds then KeysOf(r.iocs) - l.judged.Keys else {})
      && m.judged.Keys == l.judged.Keys + (if judges then l.pending else {})
      && forall k :: k in m.judged ==> m.judged[k] == if judges && k in l.pending then r.judge(k) else l.judged[k]
  {
    hide Max, Complete, KeysOf;
    CompleteStarted(l, a, r);
    match a
    case RunDetections =>
    case FetchEmail =>
    case ExtractIocs =>
    case EnrichIocs =>
      hide *;
      EnrichmentEffect(l, r);
    case Detonate(att) =>
    case HuntEdr(keys) =>
  }

  lemma EnrichmentEffect(l: Ledger, r: Reply)
    ensures var m := Complete(l, Fresh(EnrichIocs, r)).0;
      if r.fate.Ok? || r.fate.Late?
      then m.pending == {} && m.judged == l.judged + map k | k in l.pending :: r.judge(k)
      else m == l
  {
    CompleteStarted(l, EnrichIocs, r);
    hide Complete;
  }

  // ---------------------------------------------------------------- the sandbox score

  /** A detonation whose report was recorded. */
  predicate Scores(f: LedgerFrame) {
    f.Fresh? && f.action.Detonate? && (f.reply.fate.Ok? || f.reply.fate.Late?)
  }

  /** `x` is the highest of the score at the start and those of the recorded detonations. */
  ghost predicate Highest(x: real, start: real, frames: seq<LedgerFrame>) {
    && x >= start && (forall f :: f in frames && Scores(f) ==> x >= f.reply.malscore)
    && (x == start || exists f :: f in frames && Scores(f) && x == f.reply.malscore)
  }

  lemma CallScore(l: Ledger, a: LedgerAction, r: Reply)
    ensures Highest(Complete(l, Fresh(a, r)).0.malscore, l.malscore, [Fresh(a, r)])
  {
    CompleteStarted(l, a, r);
    hide Complete, KeysOf;
    var frames: seq<LedgerFrame> := [Fresh(a, r)];
    assert frames[0] in frames;
  }

  /** The score after calls one after another. */
  lemma {:induction false} SequentialScore(l: Ledger, frames: seq<LedgerFrame>)
    requires AllFresh(frames)
    ensures Highest(Sequential(l, frames).0.malscore, l.malscore, frames)
    decreases |frames|
  {
    hide Complete;
    if frames == [] {
    } else {
      var f := frames[0];
      CallScore(l, f.action, f.reply);
      SequentialScore(Complete(l, f).0, frames[1..]);
      HighestFirst(Sequential(l, frames).0.malscore, Complete(l, f).0.malscore, l.malscore, frames);
    }
  }

  lemma HighestFirst(x: real, y: real, start: real, frames: seq<LedgerFrame>)
    requires frames != [] && Highest(y, start, [frames[0]]) && Highest(x, y, frames[1..])
    ensures Highest(x, start, frames)
  {
    hide Scores;
    assert frames == [frames[0]] + frames[1..];
    assert forall f :: f in frames <==> f in [frames[0]] || f in frames[1..];
  }

  lemma CompleteHunt(l: Ledger, keys: set<string>, r: Reply)
    ensures Complete(l, Fresh(HuntEdr(keys), r)).0
      in {l, l.(hunted := l.hunted + keys, hits := l.hits + r.hits)}
  {
    CompleteStarted(l, HuntEdr(keys), r);
    hide Complete;
  }

  /** An extraction succeeds or does nothing; an enrichment with nothing waiting does nothing. */
  lemma CompleteExtraction(l: Ledger, r: Reply)
    ensures var (m, ok) := Complete(l, Fresh(ExtractIocs, r));
      if ok then m.extracted else m == l
  {
    hide KeysOf;
  }

  lemma CompleteIdleEnrichment(l: Ledger, r: Reply)
    requires l.pending == {}
    ensures Complete(l, Fresh(EnrichIocs, r)) == (l, true)
  {
  }

  // ---------------------------------------------------------------- one after another

  lemma SequentialCons(l: Ledger, frames: seq<LedgerFrame>)
    requires frames != []
    ensures var (next, ok) := Complete(l, frames[0]);
      Sequential(l, frames) == (Sequential(next, frames[1..]).0, [ok] + Sequential(next, frames[1..]).1)
  {
  }

  lemma {:induction false} SequentialAppend(l: Ledger, a: seq<LedgerFrame>, b: seq<LedgerFrame>)
    ensures var (m, oks) := Sequential(l, a);
      Sequential(l, a + b) == (Sequential(m, b).0, oks + Sequential(m, b).1)
    decreases |a|
  {
    hide Complete;
    if a == [] {
      assert a + b == b;
      assert Sequential(l, b).1 == [] + Sequential(l, b).1;
    } else {
      var (next, ok) := Complete(l, a[0]);
      SequentialAppend(next, a[1..], b);
      assert (a + b)[1..] == a[1..] + b;
      var (m, oks) := Sequential(next, a[1..]);
      assert [ok] + (oks + Sequential(m, b).1) == ([ok] + oks) + Sequential(m, b).1;
    }
  }

  lemma {:induction false} SequentialOks(l: Ledger, frames: seq<LedgerFrame>)
    ensures |Sequential(l, frames).1| == |frames|
    decreases |frames|
  {
    hide Complete;
    if frames == [] {
    } else {
      SequentialOks(Complete(l, frames[0]).0, frames[1..]);
    }
  }

  lemma {:induction false} BatchOnward(l: Ledger, frames: seq<LedgerFrame>)
    requires AllFresh(frames)
    ensures Onward(l, Sequential(l, frames).0)
    decreases |frames|
  {
    hide Complete;
    if frames == [] {
    } else {
      CompleteLands(l, frames[0].action, frames[0].reply);
      BatchOnward(Complete(l, frames[0]).0, frames[1..]);
    }
  }

  /** Every successful call of a batch has landed when the batch ends. */
  lemma {:induction false} BatchLands(l: Ledger, frames: seq<LedgerFrame>, i: nat)
    requires AllFresh(frames) && i < |frames| == |Sequential(l, frames).1| && Sequential(l, frames).1[i]
    ensures Landed(Sequential(l, frames).0, frames[i].action)
    decreases |frames|
  {
    hide Complete;
    var next := Complete(l, frames[0]).0;
    SequentialCons(l, frames);
    SequentialOks(next, frames[1..]);
    if i == 0 {
      CompleteLands(l, frames[0].action, frames[0].reply);
      BatchOnward(next, frames[1..]);
    } else {
      BatchLands(next, frames[1..], i - 1);
    }
  }

  lemma {:induction false} BatchKeepsEmail(l: Ledger, frames: seq<LedgerFrame>)
    requires AllFresh(frames) && Without(frames, Email) && Without(frames, Extraction)
    ensures var m := Sequential(l, frames).0;
      (m.extracted, m.emailMsg, m.emailChecked) == (l.extracted, l.emailMsg, l.emailChecked)
    decreases |frames|
  {
    hide Complete;
    if frames == [] {
    } else {
      CompleteTouches(l, frames[0].action, frames[0].reply);
      BatchKeepsEmail(Complete(l, frames[0]).0, frames[1..]);
    }
  }

  lemma {:induction false} BatchExtracted(l: Ledger, frames: seq<LedgerFrame>)
    requires AllFresh(frames) && Without(frames, Extraction)
    ensures Sequential(l, frames).0.extracted ==> l.extracted
    decreases |frames|
  {
    hide Complete;
    if frames == [] {
    } else {
      CompleteTouches(l, frames[0].action, frames[0].reply);
      BatchExtracted(Complete(l, frames[0]).0, frames[1..]);
    }
  }

  lemma {:induction false} BatchDetonated(l: Ledger, frames: seq<LedgerFrame>)
    requires AllFresh(frames) && Without(frames, Detonation)
    ensures Sequential(l, frames).0.detonated == l.detonated
    decreases |frames|
  {
    hide Complete;
    if frames == [] {
    } else {
      CompleteTouches(l, frames[0].action, frames[0].reply);
      BatchDetonated(Complete(l, frames[0]).0, frames[1..]);
    }
  }

  lemma {:induction false} BatchJudged(l: Ledger, frames: seq<LedgerFrame>)
    requires AllFresh(frames) && Without(frames, Enrichment)
    ensures Sequential(l, frames).0.judged == l.judged && l.pending <= Sequential(l, frames).0.pending
    decreases |frames|
  {
    hide Complete;
    if frames == [] {
    } else {
      CompleteTouches(l, frames[0].action, frames[0].reply);
      BatchJudged(Complete(l, frames[0]).0, frames[1..]);
    }
  }

  /** Enrichments are listed ahead of whatever finds indicators. */
  predicate EnrichmentFirst(frames: seq<LedgerFrame>) {
    forall i, j :: 0 <= i < j < |frames| && KindOf(frames[j]).Enrichment? ==>
      !KindOf(frames[i]).Detonation? && !KindOf(frames[i]).Extraction?
  }

  /** With nothing waiting such a batch judges nothing. */
  lemma {:induction false} IdleBatch(l: Ledger, frames: seq<LedgerFrame>)
    requires AllFresh(frames) && EnrichmentFirst(frames) && l.pending == {}
    ensures Sequential(l, frames).0.judged == l.judged
    decreases |frames|
  {
    hide Complete;
    if frames == [] {
    } else {
      var f := frames[0];
      CompleteTouches(l, f.action, f.reply);
      if f.action.EnrichIocs? {
        CompleteIdleEnrichment(l, f.reply);
        IdleBatch(l, frames[1..]);
      } else if f.action.Detonate? || f.action.ExtractIocs? {
        forall i | 0 <= i < |frames[1..]| ensures KindOf(frames[1..][i]) != Enrichment {
          assert frames[1..][i] == frames[i + 1];
        }
        BatchJudged(Complete(l, f).0, frames[1..]);
      } else {
        IdleBatch(Complete(l, f).0, frames[1..]);
      }
    }
  }

  lemma {:induction false} BatchHunted(l: Ledger, frames: seq<LedgerFrame>, keys: set<string>)
    requires AllFresh(frames)
    requires forall i :: 0 <= i < |frames| && frames[i].action.HuntEdr? ==> frames[i].action.keys == keys
    ensures Sequential(l, frames).0.hunted in {l.hunted, l.hunted + keys}
    decreases |frames|
  {
    hide Complete;
    if frames == [] {
    } else {
      var f := frames[0];
      CompleteTouches(l, f.action, f.reply);
      if f.action.HuntEdr? {
        CompleteHunt(l, keys, f.reply);
      }
      BatchHunted(Complete(l, f).0, frames[1..], keys);
      assert l.hunted + keys + keys == l.hunted + keys;
    }
  }
}
