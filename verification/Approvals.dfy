/** The human-approval workflow: pending requests, four-eyes decisions, expiry, execution. */
module Approvals {
  import opened Options
  import opened Sorting
  import opened OrderedDict

  datatype Status = Pending | Approved | Rejected | Executed | Expired

  datatype Request = Request(
    tenant: string,
    id: string,
    investigation: string,
    action: string,
    requestedBy: string,
    requestedAt: int,
    expiresAt: int,
    status: Status,
    decidedBy: Option<string>,
    decidedAt: Option<int>,
    decisionNote: Option<string>,
    executedBy: Option<string>,
    executedAt: Option<int>,
    executionNote: Option<string>)

  type Store = map<string, Dict<string, Request>>

  datatype PlaybookStep = PlaybookStep(action: string, requiresApproval: bool)

  /** One call of the service, with the clock readings it takes. `Decide` reads the clock
      once for the expiry check and once more for the stamp; a listing reads it once for
      each request it looks at. */
  datatype Event =
    | Create(tenant: string, investigation: string, steps: seq<PlaybookStep>, requester: string, ids: seq<string>, now: int)
    | Get(tenant: string, id: string, now: int)
    | ListAll(tenant: string, clocks: map<string, int>)
    | Decide(tenant: string, id: string, actor: string, approve: bool, note: string, checkedAt: int, decidedAt: int)
    | Execute(tenant: string, id: string, actor: string, note: string, now: int)

  datatype Reply = NotFound | Refused | Done(request: Request)

  // ---------------------------------------------------------------- one request

  function Expire(r: Request, now: int): Request {
    if r.status.Pending? && now >= r.expiresAt then r.(status := Expired) else r
  }

  function NoteOf(note: string): Option<string> {
    if note == "" then None else Some(note)
  }

  predicate Decidable(r: Request, actor: string, checkedAt: int) {
    r.status.Pending? && checkedAt < r.expiresAt && actor != r.requestedBy
  }

  function Decided(r: Request, actor: string, approve: bool, note: string, decidedAt: int): Request {
    r.(status := if approve then Approved else Rejected,
       decidedBy := Some(actor), decidedAt := Some(decidedAt), decisionNote := NoteOf(note))
  }

  /** What a call does to one stored request. */
  function Effect(r: Request, e: Event): Request {
    match e
    case Create(_, _, _, _, _, _) => r
    case Get(tenant, id, now) => if (tenant, id) == (r.tenant, r.id) then Expire(r, now) else r
    case ListAll(tenant, clocks) => if tenant == r.tenant && r.id in clocks then Expire(r, clocks[r.id]) else r
    case Decide(tenant, id, actor, approve, note, checkedAt, decidedAt) =>
      if (tenant, id) != (r.tenant, r.id) then r
      else if Decidable(r, actor, checkedAt) then Decided(r, actor, approve, note, decidedAt)
      else Expire(r, checkedAt)
    case Execute(tenant, id, actor, note, now) =>
      if (tenant, id) == (r.tenant, r.id) && r.status.Approved?
      then r.(status := Executed, executedBy := Some(actor), executedAt := Some(now), executionNote := NoteOf(note))
      else r
  }

  function Answer(found: Option<Request>, e: Event): Reply {
    if found.None? then NotFound
    else
      match e
      case Decide(_, _, actor, _, _, checkedAt, _) =>
        if Decidable(found.value, actor, checkedAt) then Done(Effect(found.value, e)) else Refused
      case Execute(_, _, _, _, _) => if found.value.status.Approved? then Done(Effect(found.value, e)) else Refused
      case _ => Done(Effect(found.value, e))
  }

  // ---------------------------------------------------------------- the store

  function Lookup(store: Store, tenant: string, id: string): Option<Request> {
    if tenant in store && id in store[tenant].vals then Some(store[tenant].vals[id]) else None
  }

  function Bucket(store: Store, tenant: string): Dict<string, Request> {
    if tenant in store then store[tenant] else Empty()
  }

  function Save(store: Store, r: Request): Store {
    store[r.tenant := Bucket(store, r.tenant).Put(r.id, r)]
  }

  function SaveAll(store: Store, rs: seq<Request>): Store {
    if rs == [] then store else Save(SaveAll(store, rs[..|rs| - 1]), rs[|rs| - 1])
  }

  predicate NeedsApproval(step: PlaybookStep) { step.requiresApproval }

  /** The playbook steps that need approval. */
  function NeedApproval(steps: seq<PlaybookStep>): (needed: seq<PlaybookStep>)
    ensures |needed| == |Positions(NeedsApproval, steps)|
  {
    FilterCount(NeedsApproval, steps);
    Filter(NeedsApproval, steps)
  }

  function NewRequest(e: Event, ttl: int, i: nat): Request
    requires e.Create? && i < |e.ids| == |Positions(NeedsApproval, e.steps)|
  {
    Request(e.tenant, e.ids[i], e.investigation, NeedApproval(e.steps)[i].action, e.requester, e.now, e.now + ttl,
            Pending, None, None, None, None, None, None)
  }

  function NewRequests(e: Event, ttl: int): (rs: seq<Request>)
    requires e.Create? && |e.ids| == |Positions(NeedsApproval, e.steps)|
    ensures |rs| == |e.ids|
  {
    seq(|e.ids|, i requires 0 <= i < |e.ids| => NewRequest(e, ttl, i))
  }

  /** The positions, in order, of the steps that need approval. */
  ghost predicate Needing(steps: seq<PlaybookStep>, at: seq<nat>) {
    && (forall i, j :: 0 <= i < j < |at| ==> at[i] < at[j])
    && forall i: nat :: i in at <==> i < |steps| && steps[i].requiresApproval
  }

  lemma NeedingListed(steps: seq<PlaybookStep>, at: seq<nat>)
    requires Lists(NeedsApproval, steps, at)
    ensures Needing(steps, at)
  {
  }

  /** `rs` are new pending requests, one for the step at each of the positions `at`. */
  ghost predicate OnePerStep(rs: seq<Request>, steps: seq<PlaybookStep>, at: seq<nat>, tenant: string, investigation: string,
                             requester: string, ids: seq<string>, now: int, ttl: int) {
    && |rs| == |at| == |ids|
    && forall i :: 0 <= i < |rs| ==>
         && at[i] < |steps|
         && rs[i] == Request(tenant, ids[i], investigation, steps[at[i]].action, requester, now, now + ttl,
                             Pending, None, None, None, None, None, None)
  }

  lemma RequestsAre(e: Event, ttl: int, at: seq<nat>)
    requires e.Create? && |e.ids| == |Positions(NeedsApproval, e.steps)| == |at|
    requires forall i :: 0 <= i < |at| ==> at[i] < |e.steps| && NeedApproval(e.steps)[i] == e.steps[at[i]]
    ensures OnePerStep(NewRequests(e, ttl), e.steps, at, e.tenant, e.investigation, e.requester, e.ids, e.now, ttl)
  {
    hide NeedApproval, Positions;
    var rs := NewRequests(e, ttl);
    forall i | 0 <= i < |rs| ensures rs[i] == NewRequest(e, ttl, i) {}
    hide NewRequests;
  }

  /** Every step that needs approval gets one request, and no other step does. */
  lemma RequestedOnce(e: Event, ttl: int)
    requires e.Create? && |e.ids| == |Positions(NeedsApproval, e.steps)|
    ensures exists at ::
      && Needing(e.steps, at)
      && OnePerStep(NewRequests(e, ttl), e.steps, at, e.tenant, e.investigation, e.requester, e.ids, e.now, ttl)
  {
    hide Lists, Needing, Positions, Filter, NewRequests, OnePerStep;
    assert NeedApproval(e.steps) == Filter(NeedsApproval, e.steps);
    hide NeedApproval;
    var at := FilterAt(NeedsApproval, e.steps);
    NeedingListed(e.steps, at);
    RequestsAre(e, ttl, at);
  }

  function Touch(d: Dict<string, Request>, e: Event): Dict<string, Request> {
    Dict(d.keys, map id | id in d.vals :: Effect(d.vals[id], e))
  }

  /** Fresh ids for a creation, a clock reading for every request listed. */
  ghost predicate Enabled(store: Store, e: Event) {
    && (e.Create? ==> |e.ids| == |Positions(NeedsApproval, e.steps)| && Distinct(e.ids))
    && (e.Create? ==> forall t, i :: t in store && i in store[t].vals ==> i !in e.ids)
    && (e.ListAll? ==> Bucket(store, e.tenant).vals.Keys <= e.clocks.Keys)
  }

  ghost function Apply(store: Store, e: Event, ttl: int): Store
    requires Enabled(store, e)
  {
    if e.Create? then SaveAll(store, NewRequests(e, ttl)) else map t | t in store :: Touch(store[t], e)
  }

  /** Every request is stored under its own tenant and id, and its fields agree with its status. */
  ghost predicate StoreInv(store: Store) {
    forall t :: t in store ==>
      && store[t].Valid()
      && (forall i :: i in store[t].vals ==> store[t].vals[i].tenant == t && store[t].vals[i].id == i)
      && (forall i :: i in store[t].vals ==> Coherent(store[t].vals[i]))
  }

  ghost predicate Coherent(r: Request) {
    match r.status
    case Pending => Undecided(r) && Unexecuted(r)
    case Expired => Undecided(r) && Unexecuted(r)
    case Executed => FourEyes(r) && r.executedBy.Some? && r.executedAt.Some?
    case _ => FourEyes(r) && Unexecuted(r)
  }

  ghost predicate Undecided(r: Request) { r.decidedBy == None && r.decidedAt == None && r.decisionNote == None }

  ghost predicate Unexecuted(r: Request) { r.executedBy == None && r.executedAt == None && r.executionNote == None }

  ghost predicate FourEyes(r: Request) {
    r.decidedBy.Some? && r.decidedBy.value != r.requestedBy && r.decidedAt.Some?
  }

  lemma ApplyCreate(store: Store, e: Event, ttl: int)
    requires e.Create? && Enabled(store, e)
    ensures Apply(store, e, ttl) == SaveAll(store, NewRequests(e, ttl))
  {
  }

  lemma SaveAllSteps(store: Store, rs: seq<Request>)
    ensures SaveAll(store, rs[..0]) == store && rs[..|rs|] == rs
    ensures forall n :: 0 <= n < |rs| ==> SaveAll(store, rs[..n + 1]) == Save(SaveAll(store, rs[..n]), rs[n])
  {
    hide Save;
    forall n | 0 <= n < |rs| ensures SaveAll(store, rs[..n + 1]) == Save(SaveAll(store, rs[..n]), rs[n]) {
      assert rs[..n + 1][..n] == rs[..n];
    }
  }

  lemma SaveSame(store: Store, r: Request)
    requires Lookup(store, r.tenant, r.id) == Some(r)
    ensures Save(store, r) == store
  {
    assert Bucket(store, r.tenant).Put(r.id, r).vals == store[r.tenant].vals;
  }

  lemma SaveTwice(store: Store, r: Request, r': Request)
    requires Lookup(store, r.tenant, r.id).Some? && r'.tenant == r.tenant && r'.id == r.id
    ensures forall r1: Request :: r1.tenant == r.tenant && r1.id == r.id ==> Save(Save(store, r1), r') == Save(store, r')
  {
    forall r1: Request | r1.tenant == r.tenant && r1.id == r.id ensures Save(Save(store, r1), r') == Save(store, r') {
      assert Save(store, r1)[r.tenant].vals[r.id := r'] == store[r.tenant].vals[r.id := r'];
    }
  }

  /** A call about one request is about the request of that tenant with that id ... */
  lemma EffectElsewhere(r: Request, e: Event)
    requires (e.Get? || e.Decide? || e.Execute?) && (e.tenant, e.id) != (r.tenant, r.id)
    ensures Effect(r, e) == r
  {
  }

  /** ... a listing is about the requests of its tenant ... */
  lemma EffectOfListing(r: Request, e: Event)
    requires e.ListAll?
    ensures Effect(r, e) == if e.tenant == r.tenant && r.id in e.clocks then Expire(r, e.clocks[r.id]) else r
  {
  }

  /** ... and no call changes who a request is or makes its fields disagree. */
  lemma EffectCoherent(r: Request, e: Event)
    ensures Effect(r, e).tenant == r.tenant && Effect(r, e).id == r.id
    ensures Coherent(r) ==> Coherent(Effect(r, e))
  {
  }

  /** A request that is not found leaves the store as it was ... */
  lemma MissingUntouched(store: Store, e: Event, ttl: int)
    requires StoreInv(store) && (e.Get? || e.Decide? || e.Execute?) && Lookup(store, e.tenant, e.id).None?
    ensures Apply(store, e, ttl) == store
  {
    hide Effect, Coherent;
    forall t | t in store ensures Touch(store[t], e) == store[t] {
      forall i | i in store[t].vals ensures Effect(store[t].vals[i], e) == store[t].vals[i] {
        EffectElsewhere(store[t].vals[i], e);
      }
      assert Touch(store[t], e).vals == store[t].vals;
    }
  }

  /** ... and one that is found is replaced, alone. */
  lemma OneTouched(store: Store, e: Event, ttl: int)
    requires StoreInv(store) && (e.Get? || e.Decide? || e.Execute?) && Lookup(store, e.tenant, e.id).Some?
    ensures var r := Lookup(store, e.tenant, e.id).value;
      r.tenant == e.tenant && r.id == e.id && Apply(store, e, ttl) == Save(store, Effect(r, e))
  {
    hide Effect, Coherent, Touch;
    var r := Lookup(store, e.tenant, e.id).value;
    EffectCoherent(r, e);
    forall t | t in store ensures Touch(store[t], e) == Save(store, Effect(r, e))[t] {
      TouchBucket(store, e, t);
    }
  }

  lemma TouchBucket(store: Store, e: Event, t: string)
    requires StoreInv(store) && (e.Get? || e.Decide? || e.Execute?) && t in store
    requires Lookup(store, e.tenant, e.id).Some?
    ensures Touch(store[t], e)
      == if t == e.tenant then store[t].Put(e.id, Effect(store[t].vals[e.id], e)) else store[t]
  {
    hide Effect, Coherent;
    forall i | i in store[t].vals && (t, i) != (e.tenant, e.id)
      ensures Effect(store[t].vals[i], e) == store[t].vals[i]
    {
      EffectElsewhere(store[t].vals[i], e);
    }
    if t == e.tenant {
      assert Touch(store[t], e).vals == store[t].vals[e.id := Effect(store[t].vals[e.id], e)];
    } else {
      assert Touch(store[t], e).vals == store[t].vals;
    }
  }

  function Stored(store: Store, tenant: string): seq<Request>
    requires tenant in store ==> store[tenant].Valid()
  {
    Bucket(store, tenant).Values()
  }

  /** A listing that has looked at the first `n` requests of its tenant. */
  ghost function Looked(d: Dict<string, Request>, e: Event, n: nat): Dict<string, Request>
    requires n <= |d.keys|
  {
    Dict(d.keys, map id | id in d.vals :: if id in d.keys[..n] then Effect(d.vals[id], e) else d.vals[id])
  }

  ghost function Listed(store: Store, e: Event, n: nat): Store
    requires e.ListAll? && n <= |Bucket(store, e.tenant).keys|
  {
    if e.tenant !in store then store else store[e.tenant := Looked(store[e.tenant], e, n)]
  }

  ghost function ListedItems(store: Store, e: Event, n: nat): seq<Request>
    requires StoreInv(store) && e.ListAll? && n <= |Bucket(store, e.tenant).keys|
  {
    var d := Bucket(store, e.tenant);
    seq(n, i requires 0 <= i < n => assert d.keys[i] in d.vals; Effect(d.vals[d.keys[i]], e))
  }

  lemma ListStart(store: Store, e: Event)
    requires StoreInv(store) && e.ListAll?
    ensures Listed(store, e, 0) == store && ListedItems(store, e, 0) == []
  {
    hide Effect, Coherent;
    if e.tenant in store {
      assert Looked(store[e.tenant], e, 0).vals == store[e.tenant].vals;
    }
  }

  lemma LookedNext(d: Dict<string, Request>, e: Event, n: nat)
    requires d.Valid() && n < |d.keys|
    ensures d.keys[n] in d.vals && d.keys[n] in Looked(d, e, n).vals
    ensures Looked(d, e, n).vals[d.keys[n]] == d.vals[d.keys[n]]
    ensures Looked(d, e, n + 1) == Looked(d, e, n).Put(d.keys[n], Effect(d.vals[d.keys[n]], e))
  {
    hide Effect;
    var key := d.keys[n];
    assert key in d.keys;
    assert d.keys[..n + 1] == d.keys[..n] + [key];
    assert key !in d.keys[..n];
    assert Looked(d, e, n + 1).vals == Looked(d, e, n).vals[key := Effect(d.vals[key], e)];
  }

  lemma ListStep(store: Store, e: Event, n: nat)
    requires StoreInv(store) && e.ListAll? && Enabled(store, e) && n < |Bucket(store, e.tenant).keys|
    ensures e.tenant in store
    ensures var key := store[e.tenant].keys[n]; key in e.clocks && key in store[e.tenant].vals
    ensures var key := store[e.tenant].keys[n]; var r := store[e.tenant].vals[key];
      && r.tenant == e.tenant && r.id == key
      && Lookup(Listed(store, e, n), e.tenant, key) == Some(r)
    ensures var key := store[e.tenant].keys[n]; var r := store[e.tenant].vals[key];
      Listed(store, e, n + 1) == Save(Listed(store, e, n), Expire(r, e.clocks[key]))
    ensures var key := store[e.tenant].keys[n]; var r := store[e.tenant].vals[key];
      ListedItems(store, e, n + 1) == ListedItems(store, e, n) + [Expire(r, e.clocks[key])]
  {
    hide Effect, Looked, Coherent, Expire;
    var d := store[e.tenant];
    LookedNext(d, e, n);
    EffectOfListing(d.vals[d.keys[n]], e);
    EffectCoherent(d.vals[d.keys[n]], e);
    var next := Looked(d, e, n).Put(d.keys[n], Effect(d.vals[d.keys[n]], e));
    assert store[e.tenant := Looked(d, e, n)][e.tenant := next] == store[e.tenant := next];
    assert ListedItems(store, e, n + 1) == ListedItems(store, e, n) + [Effect(d.vals[d.keys[n]], e)];
  }

  lemma ListedInv(store: Store, e: Event, n: nat)
    requires StoreInv(store) && e.ListAll? && n <= |Bucket(store, e.tenant).keys|
    ensures StoreInv(Listed(store, e, n))
  {
    hide Effect, Coherent;
    forall t, i | t in store && i in store[t].vals
      ensures Coherent(Effect(store[t].vals[i], e)) && Effect(store[t].vals[i], e).tenant == t
      ensures Effect(store[t].vals[i], e).id == i
    {
      EffectCoherent(store[t].vals[i], e);
    }
  }

  lemma LookedAll(d: Dict<string, Request>, e: Event)
    requires d.Valid()
    ensures Looked(d, e, |d.keys|) == Touch(d, e)
  {
    hide Effect;
    assert d.keys[..|d.keys|] == d.keys;
    assert Looked(d, e, |d.keys|).vals == Touch(d, e).vals;
  }

  lemma ListEnd(store: Store, e: Event, ttl: int)
    requires StoreInv(store) && e.ListAll? && Enabled(store, e)
    ensures var n := |Bucket(store, e.tenant).keys|; var after := Apply(store, e, ttl);
      && Listed(store, e, n) == after
      && (e.tenant in after ==> after[e.tenant].Valid())
      && ListedItems(store, e, n) == Stored(after, e.tenant)
  {
    hide Effect, Coherent, Looked;
    forall t | t in store ensures Touch(store[t], e) == Listed(store, e, |Bucket(store, e.tenant).keys|)[t] {
      LookedAll(store[t], e);
      if t != e.tenant {
        OtherTenant(store, e, t);
      }
    }
  }

  lemma OtherTenant(store: Store, e: Event, t: string)
    requires StoreInv(store) && e.ListAll? && t in store && t != e.tenant
    ensures Touch(store[t], e) == store[t]
  {
    hide Effect, Coherent;
    forall i | i in store[t].vals ensures Effect(store[t].vals[i], e) == store[t].vals[i] {
      EffectOfListing(store[t].vals[i], e);
    }
    assert Touch(store[t], e).vals == store[t].vals;
  }

  // ---------------------------------------------------------------- the program

  class ApprovalService {
    const ttl: int
    var store: Store

    constructor (ttl: int)
      ensures this.ttl == ttl && store == map[] && StoreInv(store)
    {
      this.ttl, store := ttl, map[];
    }

    method CreateForPackage(tenant: string, investigation: string, playbook: seq<PlaybookStep>, requester: string,
                            ids: seq<string>, now: int) returns (requests: seq<Request>)
      requires StoreInv(store) && Enabled(store, Create(tenant, investigation, playbook, requester, ids, now))
      modifies this
      ensures requests == NewRequests(Create(tenant, investigation, playbook, requester, ids, now), ttl)
      ensures exists at :: Needing(playbook, at) && OnePerStep(requests, playbook, at, tenant, investigation, requester, ids, now, ttl)
      ensures store == Apply(old(store), Create(tenant, investigation, playbook, requester, ids, now), ttl)
    {
      hide Apply, SaveAll, Save, StoreInv, NeedApproval;
      ghost var e := Create(tenant, investigation, playbook, requester, ids, now);
      SaveAllSteps(store, NewRequests(e, ttl));
      ApplyCreate(store, e, ttl);
      requests := [];
      var needed := NeedApproval(playbook);
      for i := 0 to |needed|
        invariant requests == NewRequests(e, ttl)[..i]
      {
        requests := requests + [Request(tenant, ids[i], investigation, needed[i].action, requester, now, now + ttl,
                                        Pending, None, None, None, None, None, None)];
      }
      for i := 0 to |requests|
        invariant store == SaveAll(old(store), requests[..i])
      {
        store := Save(store, requests[i]);
      }
      assert requests[..|requests|] == requests == NewRequests(e, ttl);
      RequestedOnce(e, ttl);
    }

    method ExpireIfDue(r: Request, now: int) returns (after: Request)
      requires StoreInv(store) && Lookup(store, r.tenant, r.id) == Some(r)
      modifies this
      ensures after == Expire(r, now) && store == Save(old(store), after)
    {
      after := r;
      if r.status == Pending && now >= r.expiresAt {
        after := r.(status := Expired);
        store := Save(store, after);
      } else {
        SaveSame(store, r);
      }
    }

    method GetRequest(tenant: string, id: string, now: int) returns (reply: Reply)
      requires StoreInv(store)
      modifies this
      ensures reply == Answer(Lookup(old(store), tenant, id), Get(tenant, id, now))
      ensures store == Apply(old(store), Get(tenant, id, now), ttl)
    {
      hide StoreInv, Apply, Save;
      ghost var e := Get(tenant, id, now);
      var found := Lookup(store, tenant, id);
      if found.None? {
        MissingUntouched(store, e, ttl);
        return NotFound;
      }
      OneTouched(store, e, ttl);
      var after := ExpireIfDue(found.value, now);
      reply := Done(after);
    }

    method Decide(tenant: string, id: string, actor: string, approve: bool, note: string,
                  checkedAt: int, decidedAt: int) returns (reply: Reply)
      requires StoreInv(store)
      modifies this
      ensures reply == Answer(Lookup(old(store), tenant, id), Event.Decide(tenant, id, actor, approve, note, checkedAt, decidedAt))
      ensures store == Apply(old(store), Event.Decide(tenant, id, actor, approve, note, checkedAt, decidedAt), ttl)
    {
      hide StoreInv, Apply, Save;
      ghost var e := Event.Decide(tenant, id, actor, approve, note, checkedAt, decidedAt);
      var found := Lookup(store, tenant, id);
      if found.None? {
        MissingUntouched(store, e, ttl);
        return NotFound;
      }
      OneTouched(store, e, ttl);
      var r := ExpireIfDue(found.value, checkedAt);
      if r.status != Pending {
        return Refused;
      }
      if actor == r.requestedBy {
        return Refused;
      }
      r := r.(status := if approve then Approved else Rejected);
      r := r.(decidedBy := Some(actor));
      r := r.(decidedAt := Some(decidedAt));
      r := r.(decisionNote := if note != "" then Some(note) else None);
      SaveTwice(old(store), found.value, r);
      store := Save(store, r);
      reply := Done(r);
    }

    method MarkExecuted(tenant: string, id: string, actor: string, note: string, now: int) returns (reply: Reply)
      requires StoreInv(store)
      modifies this
      ensures reply == Answer(Lookup(old(store), tenant, id), Execute(tenant, id, actor, note, now))
      ensures store == Apply(old(store), Execute(tenant, id, actor, note, now), ttl)
    {
      hide StoreInv, Apply, Save;
      ghost var e := Execute(tenant, id, actor, note, now);
      var found := Lookup(store, tenant, id);
      if found.None? {
        MissingUntouched(store, e, ttl);
        return NotFound;
      }
      OneTouched(store, e, ttl);
      var r := found.value;
      if r.status != Approved {
        SaveSame(store, r);
        return Refused;
      }
      r := r.(status := Executed, executedBy := Some(actor), executedAt := Some(now));
      r := r.(executionNote := if note != "" then Some(note) else None);
      store := Save(store, r);
      reply := Done(r);
    }

    /** Newest first, after expiring what is due. */
    method List(tenant: string, status: Option<Status>, investigation: Option<string>, clocks: map<string, int>)
      returns (items: seq<Request>)
      requires StoreInv(store) && Enabled(store, ListAll(tenant, clocks))
      modifies this
      ensures store == Apply(old(store), ListAll(tenant, clocks), ttl)
      ensures items == Sort(Newer, Filter(r => Wanted(r, status, investigation), Stored(store, tenant)))
    {
      ghost var e, before := ListAll(tenant, clocks), store;
      var keys := Bucket(store, tenant).keys;
      items := [];
      ListStart(before, e);
      for i := 0 to |keys|
        invariant store == Listed(before, e, i) && StoreInv(store)
        invariant items == ListedItems(before, e, i)
      {
        hide StoreInv, Effect, Listed, ListedItems, Save;
        ListStep(before, e, i);
        ListedInv(before, e, i + 1);
        var r := store[tenant].vals[keys[i]];
        var after := ExpireIfDue(r, clocks[keys[i]]);
        items := items + [after];
      }
      ListEnd(before, e, ttl);
      items := Sort(Newer, Filter(r => Wanted(r, status, investigation), items));
    }
  }

  predicate Newer(a: Request, b: Request) { a.requestedAt >= b.requestedAt }

  predicate Wanted(r: Request, status: Option<Status>, investigation: Option<string>) {
    && (status.None? || r.status == status.value)
    && (investigation.None? || r.investigation == investigation.value)
  }

  // ---------------------------------------------------------------- one call

  /** The lifecycle's edges, and the paths they make. */
  ghost predicate Moves(s: Status, t: Status) {
    s == t || (s.Pending? && (t.Approved? || t.Rejected? || t.Expired?)) || (s.Approved? && t.Executed?)
  }

  ghost predicate Reaches(s: Status, t: Status) {
    Moves(s, t) || (s.Pending? && t.Executed?)
  }

  /** `r'` is a later version of `r`: it moved along the lifecycle, nothing it was created
      with changed, and what a decision or an execution wrote is still there. */
  ghost predicate Follows(r: Request, r': Request) {
    && r' == r.(status := r'.status,
                decidedBy := r'.decidedBy, decidedAt := r'.decidedAt, decisionNote := r'.decisionNote,
                executedBy := r'.executedBy, executedAt := r'.executedAt, executionNote := r'.executionNote)
    && Reaches(r.status, r'.status)
    && (r.decidedBy.Some? ==>
      (r'.decidedBy, r'.decidedAt, r'.decisionNote) == (r.decidedBy, r.decidedAt, r.decisionNote))
    && (r.executedBy.Some? ==>
      (r'.executedBy, r'.executedAt, r'.executionNote) == (r.executedBy, r.executedAt, r.executionNote))
  }

  lemma FollowsTransitive(a: Request, b: Request, c: Request)
    requires Follows(a, b) && Follows(b, c)
    ensures Follows(a, c)
  {
  }

  /** The clock reading a call compares with the expiry of `r`. */
  function Reading(e: Event, r: Request): Option<int> {
    match e
    case Create(_, _, _, _, _, _) => None
    case Get(tenant, id, now) => if tenant == r.tenant && id == r.id then Some(now) else None
    case ListAll(tenant, clocks) => if tenant == r.tenant && r.id in clocks then Some(clocks[r.id]) else None
    case Decide(tenant, id, _, _, _, checkedAt, _) => if tenant == r.tenant && id == r.id then Some(checkedAt) else None
    case Execute(_, _, _, _, _) => None
  }

  /** A decision that goes through: by another than the requester, on a pending request, the
      first reading before the expiry. */
  predicate Accepts(r: Request, e: Event) {
    && e.Decide? && e.tenant == r.tenant && e.id == r.id
    && r.status.Pending? && e.checkedAt < r.expiresAt && e.actor != r.requestedBy
  }

  /** When exactly a call changes a request, to what, and what it answers. */
  lemma CallIs(r: Request, e: Event)
    ensures var s, read := Effect(r, e), Reading(e, r);
      var expires := r.status.Pending? && read.Some? && r.expiresAt <= read.value;
      var executes := e.Execute? && e.tenant == r.tenant && e.id == r.id && r.status.Approved?;
      && s.status == (if expires then Expired
                      else if Accepts(r, e) then (if e.approve then Approved else Rejected)
                      else if executes then Executed else r.status)
      && (s.decidedBy, s.decidedAt, s.decisionNote)
         == (if Accepts(r, e) then (Some(e.actor), Some(e.decidedAt), if |e.note| > 0 then Some(e.note) else None)
             else (r.decidedBy, r.decidedAt, r.decisionNote))
      && (s.executedBy, s.executedAt, s.executionNote)
         == (if executes then (Some(e.actor), Some(e.now), if |e.note| > 0 then Some(e.note) else None)
             else (r.executedBy, r.executedAt, r.executionNote))
    ensures (e.Decide? || e.Execute?) && (e.tenant, e.id) == (r.tenant, r.id) ==>
      (Answer(Some(r), e).Refused? <==> Effect(r, e) == r || Effect(r, e).status.Expired?)
    ensures !Answer(Some(r), e).Refused? ==> Answer(Some(r), e) == Done(Effect(r, e))
    ensures !e.Decide? && !e.Execute? ==> Answer(Some(r), e).Done?
  {
  }

  lemma EffectMoves(r: Request, e: Event)
    requires Coherent(r)
    ensures Moves(r.status, Effect(r, e).status) && Follows(r, Effect(r, e))
  {
  }

  lemma {:induction false} SaveAllLookup(store: Store, rs: seq<Request>, t: string, i: string)
    requires forall j, k :: 0 <= j < k < |rs| ==> rs[j].id != rs[k].id
    ensures forall k :: 0 <= k < |rs| && (rs[k].tenant, rs[k].id) == (t, i) ==> Lookup(SaveAll(store, rs), t, i) == Some(rs[k])
    ensures (forall k :: 0 <= k < |rs| ==> (rs[k].tenant, rs[k].id) != (t, i))
      ==> Lookup(SaveAll(store, rs), t, i) == Lookup(store, t, i)
  {
    hide Save, Lookup;
    if rs == [] {
    } else {
      SaveAllLookup(store, rs[..|rs| - 1], t, i);
      SaveLookup(SaveAll(store, rs[..|rs| - 1]), rs[|rs| - 1], t, i);
    }
  }

  lemma SaveLookup(store: Store, r: Request, t: string, i: string)
    ensures Lookup(Save(store, r), t, i) == if (t, i) == (r.tenant, r.id) then Some(r) else Lookup(store, t, i)
  {
  }

  /** `r` is a request that call `e` creates. */
  ghost predicate Created(e: Event, ttl: int, r: Request) {
    e.Create? && |e.ids| == |Positions(NeedsApproval, e.steps)| && r in NewRequests(e, ttl)
  }

  /** A call changes each stored request by its own effect on it, loses none, and adds
      only what it creates. */
  lemma ApplyLookup(store: Store, e: Event, ttl: int, t: string, i: string)
    requires StoreInv(store) && Enabled(store, e)
    ensures var before, after := Lookup(store, t, i), Lookup(Apply(store, e, ttl), t, i);
      && (before.Some? ==> after == Some(Effect(before.value, e)))
      && (before.None? && after.Some? ==>
        Created(e, ttl, after.value) && (after.value.tenant, after.value.id) == (t, i))
  {
    hide Effect, Coherent;
    if e.Create? {
      hide NeedApproval;
      var rs := NewRequests(e, ttl);
      SaveAllLookup(store, rs, t, i);
      if k :| 0 <= k < |rs| && (rs[k].tenant, rs[k].id) == (t, i) {
        assert e.ids[k] == i && i in e.ids && rs[k] in rs;
        assert Lookup(store, t, i).None?;
      } else if Lookup(store, t, i).Some? {
        EffectOfCreate(Lookup(store, t, i).value, e);
      }
    }
  }

  lemma EffectOfCreate(r: Request, e: Event)
    requires e.Create?
    ensures Effect(r, e) == r
  {
  }

  lemma SaveInv(store: Store, r: Request)
    requires StoreInv(store) && Coherent(r)
    ensures StoreInv(Save(store, r))
  {
    hide Coherent;
    Bucket(store, r.tenant).PutValid(r.id, r);
  }

  lemma {:induction false} SaveAllInv(store: Store, rs: seq<Request>)
    requires StoreInv(store) && forall k :: 0 <= k < |rs| ==> Coherent(rs[k])
    ensures StoreInv(SaveAll(store, rs))
  {
    hide Coherent, StoreInv;
    if rs == [] {
    } else {
      SaveAllInv(store, rs[..|rs| - 1]);
      SaveInv(SaveAll(store, rs[..|rs| - 1]), rs[|rs| - 1]);
    }
  }

  lemma ApplyInv(store: Store, e: Event, ttl: int)
    requires StoreInv(store) && Enabled(store, e)
    ensures StoreInv(Apply(store, e, ttl))
  {
    hide Effect;
    if e.Create? {
      SaveAllInv(store, NewRequests(e, ttl));
    } else {
      hide Coherent;
      forall t, i | t in store && i in store[t].vals
        ensures Coherent(Effect(store[t].vals[i], e))
        ensures Effect(store[t].vals[i], e).tenant == t && Effect(store[t].vals[i], e).id == i
      {
        EffectCoherent(store[t].vals[i], e);
      }
    }
  }

  /** A call that raises changes nothing, except that a decision which comes too late
      turns the pending request it found into an expired one. */
  lemma RaisingChangesOnlyExpiry(store: Store, e: Event, ttl: int)
    requires StoreInv(store) && (e.Get? || e.Decide? || e.Execute?)
    requires !Answer(Lookup(store, e.tenant, e.id), e).Done?
    ensures var found := Lookup(store, e.tenant, e.id);
      Apply(store, e, ttl) ==
      if e.Decide? && found.Some? && found.value.status.Pending? && e.checkedAt >= found.value.expiresAt
      then Save(store, found.value.(status := Expired)) else store
  {
    var found := Lookup(store, e.tenant, e.id);
    if found.None? {
      MissingUntouched(store, e, ttl);
    } else {
      hide Apply, Save, StoreInv;
      OneTouched(store, e, ttl);
      SaveSame(store, found.value);
    }
  }

  // ---------------------------------------------------------------- whole runs

  ghost predicate Runs(store: Store, events: seq<Event>, ttl: int)
    decreases |events|, 0
  {
    events == []
    || (Runs(store, events[..|events| - 1], ttl)
        && Enabled(Run(store, events[..|events| - 1], ttl), events[|events| - 1]))
  }

  ghost function Run(store: Store, events: seq<Event>, ttl: int): Store
    requires Runs(store, events, ttl)
    decreases |events|, 1
  {
    if events == [] then store else Apply(Run(store, events[..|events| - 1], ttl), events[|events| - 1], ttl)
  }

  lemma {:induction false} RunInv(store: Store, events: seq<Event>, ttl: int)
    requires StoreInv(store) && Runs(store, events, ttl)
    ensures StoreInv(Run(store, events, ttl))
  {
    hide StoreInv, Enabled, Apply;
    if events == [] {
    } else {
      RunInv(store, events[..|events| - 1], ttl);
      ApplyInv(Run(store, events[..|events| - 1], ttl), events[|events| - 1], ttl);
    }
  }

  lemma LookupCoherent(store: Store, t: string, i: string)
    requires StoreInv(store) && Lookup(store, t, i).Some?
    ensures var r := Lookup(store, t, i).value; Coherent(r) && (r.tenant, r.id) == (t, i)
  {
  }

  /** Over any run, no request is lost, statuses only move along the lifecycle, and
      decisions and executions are written once. */
  lemma {:induction false} RunFollows(store: Store, events: seq<Event>, ttl: int, t: string, i: string)
    requires StoreInv(store) && Runs(store, events, ttl) && Lookup(store, t, i).Some?
    ensures Lookup(Run(store, events, ttl), t, i).Some?
    ensures Follows(Lookup(store, t, i).value, Lookup(Run(store, events, ttl), t, i).value)
  {
    hide StoreInv, Enabled, Apply, Effect, Follows, Lookup;
    var r := Lookup(store, t, i).value;
    if events == [] {
      FollowsItself(r);
    } else {
      var head, last := events[..|events| - 1], events[|events| - 1];
      var before := Run(store, head, ttl);
      RunFollows(store, head, ttl, t, i);
      RunInv(store, head, ttl);
      ApplyLookup(before, last, ttl, t, i);
      LookupCoherent(before, t, i);
      EffectMoves(Lookup(before, t, i).value, last);
      FollowsTransitive(r, Lookup(before, t, i).value, Lookup(Run(store, events, ttl), t, i).value);
    }
  }

  lemma FollowsItself(r: Request)
    ensures Follows(r, r)
  {
  }

  /** `e` is the decision recorded in `r`: by someone other than the requester, checked
      strictly before the request expired. */
  ghost predicate Decides(e: Event, r: Request) {
    && e.Decide? && (e.tenant, e.id) == (r.tenant, r.id)
    && e.actor != r.requestedBy && e.checkedAt < r.expiresAt
    && e.approve == !r.status.Rejected?
    && (r.decidedBy, r.decidedAt, r.decisionNote) == (Some(e.actor), Some(e.decidedAt), NoteOf(e.note))
  }

  ghost predicate Executes(e: Event, r: Request) {
    && e.Execute? && (e.tenant, e.id) == (r.tenant, r.id)
    && (r.executedBy, r.executedAt, r.executionNote) == (Some(e.actor), Some(e.now), NoteOf(e.note))
  }

  /** The run contains the decision and, after it, the execution that `r` records. */
  ghost predicate Justified(r: Request, events: seq<Event>) {
    match r.status
    case Pending => true
    case Expired => true
    case Executed => exists j, k :: 0 <= j < k < |events| && Decides(events[j], r) && Executes(events[k], r)
    case _ => exists j :: 0 <= j < |events| && Decides(events[j], r)
  }

  lemma JustifiedStep(r: Request, events: seq<Event>, e: Event)
    requires Coherent(r) && Justified(r, events)
    ensures Justified(Effect(r, e), events + [e])
  {
    var r', later := Effect(r, e), events + [e];
    assert later[|events|] == e;
    if r.status.Pending? {
      if r'.status.Approved? || r'.status.Rejected? {
        assert Decides(later[|events|], r');
      }
    } else if r.status.Executed? {
      var j, k :| 0 <= j < k < |events| && Decides(events[j], r) && Executes(events[k], r);
      assert Decides(later[j], r') && Executes(later[k], r');
    } else if !r.status.Expired? {
      var j :| 0 <= j < |events| && Decides(events[j], r);
      assert Decides(later[j], r');
      if r'.status.Executed? {
        assert Executes(later[|events|], r');
      }
    }
  }

  /** From an empty store: every executed (approved, rejected) request was decided by
      someone other than its requester, at an expiry check strictly before it expired. */
  lemma {:induction false} NothingRunsUnapproved(events: seq<Event>, ttl: int, t: string, i: string)
    requires Runs(map[], events, ttl) && Lookup(Run(map[], events, ttl), t, i).Some?
    ensures Justified(Lookup(Run(map[], events, ttl), t, i).value, events)
  {
    hide StoreInv, Enabled, Apply, Effect, Justified, Coherent, NewRequests;
    if events == [] {
    } else {
      var head, last := events[..|events| - 1], events[|events| - 1];
      var before := Run(map[], head, ttl);
      EmptyInv();
      RunInv(map[], head, ttl);
      ApplyLookup(before, last, ttl, t, i);
      if Lookup(before, t, i).Some? {
        NothingRunsUnapproved(head, ttl, t, i);
        LookupCoherent(before, t, i);
        JustifiedStep(Lookup(before, t, i).value, head, last);
        assert head + [last] == events;
      } else {
        CreatedPending(last, ttl, Lookup(Run(map[], events, ttl), t, i).value, events);
      }
    }
  }

  lemma EmptyInv()
    ensures StoreInv(map[])
  {
  }

  lemma CreatedPending(e: Event, ttl: int, r: Request, events: seq<Event>)
    requires Created(e, ttl, r)
    ensures r.status.Pending? && r.requestedAt == e.now && Coherent(r) && Justified(r, events)
  {
  }

  /** No clock reading of `e` that an expiry check uses lies before `time`. */
  ghost predicate ChecksFrom(e: Event, time: int) {
    match e
    case Get(_, _, now) => now >= time
    case ListAll(_, clocks) => forall i :: i in clocks ==> clocks[i] >= time
    case Decide(_, _, _, _, _, checkedAt, _) => checkedAt >= time
    case _ => true
  }

  /** Once its time has passed, a pending request can only expire: no later call approves,
      rejects or executes it. */
  lemma {:induction false} TooLate(store: Store, events: seq<Event>, ttl: int, t: string, i: string)
    requires StoreInv(store) && Runs(store, events, ttl) && Lookup(store, t, i).Some?
    requires var r := Lookup(store, t, i).value;
      r.status.Pending? && forall k :: 0 <= k < |events| ==> ChecksFrom(events[k], r.expiresAt)
    ensures var r := Lookup(store, t, i).value;
      Lookup(Run(store, events, ttl), t, i) in {Some(r), Some(r.(status := Expired))}
  {
    hide StoreInv, Enabled, Apply, Effect, Lookup;
    if events == [] {
    } else {
      var head, last := events[..|events| - 1], events[|events| - 1];
      TooLate(store, head, ttl, t, i);
      RunInv(store, head, ttl);
      ApplyLookup(Run(store, head, ttl), last, ttl, t, i);
      LateEffect(Lookup(Run(store, head, ttl), t, i).value, last);
    }
  }

  lemma LateEffect(r: Request, e: Event)
    requires r.status.Pending? || r.status.Expired?
    requires ChecksFrom(e, r.expiresAt)
    ensures Effect(r, e) in {r, r.(status := Expired)}
  {
  }

  // ---------------------------------------------------------------- stamps

  function Stamp(e: Event): Option<int> {
    match e
    case Create(_, _, _, _, _, now) => Some(now)
    case Decide(_, _, _, _, _, _, decidedAt) => Some(decidedAt)
    case Execute(_, _, _, _, now) => Some(now)
    case _ => None
  }

  ghost predicate StampsBy(events: seq<Event>, clock: int) {
    && (forall k :: 0 <= k < |events| && Stamp(events[k]).Some? ==> Stamp(events[k]).value <= clock)
    && (forall j, k ::
          0 <= j < k < |events| && Stamp(events[j]).Some? && Stamp(events[k]).Some? ==>
            Stamp(events[j]).value <= Stamp(events[k]).value)
  }

  ghost predicate InOrder(r: Request, clock: int) {
    && r.requestedAt <= clock
    && (r.decidedAt.Some? ==> r.requestedAt <= r.decidedAt.value <= clock)
    && (r.executedAt.Some? ==> r.decidedAt.Some? && r.decidedAt.value <= r.executedAt.value <= clock)
  }

  lemma OrderStep(r: Request, e: Event, clock: int, later: int)
    requires Coherent(r) && InOrder(r, clock) && clock <= later
    requires Stamp(e).Some? ==> Stamp(e).value == later
    ensures InOrder(Effect(r, e), later)
  {
  }

  /** If the clock does not run backwards, every request is requested, decided and
      executed in that order. */
  lemma {:induction false} StampsInOrder(events: seq<Event>, ttl: int, clock: int, t: string, i: string)
    requires Runs(map[], events, ttl) && StampsBy(events, clock) && Lookup(Run(map[], events, ttl), t, i).Some?
    ensures InOrder(Lookup(Run(map[], events, ttl), t, i).value, clock)
  {
    hide StoreInv, Enabled, Apply, Effect, InOrder, Coherent, Created;
    if events == [] {
    } else {
      var head, last := events[..|events| - 1], events[|events| - 1];
      var before := Run(map[], head, ttl);
      var time := if Stamp(last).Some? then Stamp(last).value else clock;
      EmptyInv();
      RunInv(map[], head, ttl);
      ApplyLookup(before, last, ttl, t, i);
      if Lookup(before, t, i).Some? {
        StampsInOrder(head, ttl, time, t, i);
        LookupCoherent(before, t, i);
        OrderStep(Lookup(before, t, i).value, last, time, time);
        OrderLater(Effect(Lookup(before, t, i).value, last), time, clock);
      } else {
        CreatedInOrder(last, ttl, Lookup(Run(map[], events, ttl), t, i).value, clock);
      }
    }
  }

  lemma OrderLater(r: Request, clock: int, later: int)
    requires InOrder(r, clock) && clock <= later
    ensures InOrder(r, later)
  {
  }

  lemma CreatedInOrder(e: Event, ttl: int, r: Request, clock: int)
    requires Created(e, ttl, r) && (Stamp(e).Some? ==> Stamp(e).value <= clock)
    ensures InOrder(r, clock)
  {
  }

  // ---------------------------------------------------------------- late stamps

  /** One package with one step to approve, and one decision on it. */
  function CreatedThenDecided(tenant: string, investigation: string, action: string, requester: string, id: string, now: int,
                              actor: string, approve: bool, note: string, checkedAt: int, decidedAt: int): seq<Event> {
    [Create(tenant, investigation, [PlaybookStep(action, true)], requester, [id], now),
     Event.Decide(tenant, id, actor, approve, note, checkedAt, decidedAt)]
  }

  function Pristine(tenant: string, investigation: string, action: string, requester: string, id: string, now: int, ttl: int): Request {
    Request(tenant, id, investigation, action, requester, now, now + ttl, Pending, None, None, None, None, None, None)
  }

  /** The check and the stamp are two readings of the clock. From an empty store, under a
      clock that never runs backwards, a decision checked in time and stamped at or after
      the expiry is accepted all the same. */
  lemma StampMayBeLate(ttl: int, tenant: string, investigation: string, action: string, requester: string, id: string,
                       now: int, actor: string, approve: bool, note: string, checkedAt: int, decidedAt: int)
    requires now <= checkedAt < now + ttl <= decidedAt && actor != requester
    ensures var events := CreatedThenDecided(tenant, investigation, action, requester, id, now,
                                             actor, approve, note, checkedAt, decidedAt);
      && Runs(map[], events, ttl) && StampsBy(events, decidedAt)
      && var found := Lookup(Run(map[], events, ttl), tenant, id);
         && found.Some? && found.value.status == (if approve then Approved else Rejected)
         && found.value.decidedAt == Some(decidedAt) && decidedAt >= found.value.expiresAt
  {
    var events := CreatedThenDecided(tenant, investigation, action, requester, id, now, actor, approve, note, checkedAt, decidedAt);
    hide Apply, Enabled, Runs, Run, Lookup, StoreInv;
    var r := Pristine(tenant, investigation, action, requester, id, now, ttl);
    CreatedRun(events[0], ttl, action, r);
    DecidedRun(events[0], events[1], ttl, r);
    assert events == [events[0], events[1]];
  }

  /** The run of one creation ... */
  lemma CreatedRun(e: Event, ttl: int, action: string, r: Request)
    requires e.Create? && e.steps == [PlaybookStep(action, true)] && |e.ids| == 1
    requires r == Pristine(e.tenant, e.investigation, action, e.requester, e.ids[0], e.now, ttl)
    ensures Runs(map[], [e], ttl) && StoreInv(Run(map[], [e], ttl))
    ensures Lookup(Run(map[], [e], ttl), r.tenant, r.id) == Some(r)
  {
    hide Apply, Enabled, Runs, Run, Lookup, StoreInv;
    OneCreated(e, ttl, action, r);
    OneAfter(map[], [], e, ttl);
    assert [] + [e] == [e];
  }

  /** ... and of a decision after it. */
  lemma DecidedRun(create: Event, e: Event, ttl: int, r: Request)
    requires Runs(map[], [create], ttl) && StoreInv(Run(map[], [create], ttl))
    requires Lookup(Run(map[], [create], ttl), r.tenant, r.id) == Some(r)
    requires e.Decide? && (e.tenant, e.id) == (r.tenant, r.id) && Decidable(r, e.actor, e.checkedAt)
    ensures Runs(map[], [create, e], ttl)
    ensures Lookup(Run(map[], [create, e], ttl), r.tenant, r.id) == Some(Decided(r, e.actor, e.approve, e.note, e.decidedAt))
  {
    hide Apply, Enabled, Runs, Run, Lookup, StoreInv, Created;
    DecideEnabled(Run(map[], [create], ttl), e);
    OneAfter(map[], [create], e, ttl);
    assert [create] + [e] == [create, e];
    ApplyLookup(Run(map[], [create], ttl), e, ttl, r.tenant, r.id);
  }

  lemma DecideEnabled(store: Store, e: Event)
    requires e.Decide?
    ensures Enabled(store, e)
  {
  }

  lemma OneAfter(store: Store, head: seq<Event>, e: Event, ttl: int)
    requires head == [] || (Runs(store, head, ttl) && Enabled(Run(store, head, ttl), e))
    requires head == [] ==> Enabled(store, e)
    ensures Runs(store, head, ttl) && Runs(store, head + [e], ttl)
    ensures head == [] ==> Run(store, head, ttl) == store
    ensures Enabled(Run(store, head, ttl), e) && Run(store, head + [e], ttl) == Apply(Run(store, head, ttl), e, ttl)
  {
    hide Enabled, Apply;
    assert (head + [e])[..|head|] == head;
  }

  lemma OneCreated(e: Event, ttl: int, action: string, r: Request)
    requires e.Create? && e.steps == [PlaybookStep(action, true)] && |e.ids| == 1
    requires r == Pristine(e.tenant, e.investigation, action, e.requester, e.ids[0], e.now, ttl)
    ensures Enabled(map[], e)
    ensures Lookup(Apply(map[], e, ttl), r.tenant, r.id) == Some(r) && StoreInv(Apply(map[], e, ttl))
  {
    OneStep(action);
    hide NeedApproval;
    var rs := NewRequests(e, ttl);
    assert rs == [r];
    SaveAllLookup(map[], rs, r.tenant, r.id);
    EmptyInv();
    ApplyInv(map[], e, ttl);
    ApplyCreate(map[], e, ttl);
    assert rs[0] == r;
  }

  lemma OneStep(action: string)
    ensures NeedApproval([PlaybookStep(action, true)]) == [PlaybookStep(action, true)]
  {
    var steps := [PlaybookStep(action, true)];
    assert steps[1..] == [];
    var p := NeedsApproval;
    assert Filter(p, steps[1..]) == [];
    assert Filter(p, steps) == [steps[0]] + [];
  }

  /** Call `j` of the run is a decision on the request that the service accepts. */
  ghost predicate AcceptedAt(events: seq<Event>, ttl: int, t: string, i: string, j: nat) {
    && j < |events| && Runs(map[], events[..j], ttl)
    && events[j].Decide? && (events[j].tenant, events[j].id) == (t, i)
    && var found := Lookup(Run(map[], events[..j], ttl), t, i);
       found.Some? && Decidable(found.value, events[j].actor, events[j].checkedAt)
  }

  /** Over every run: a request carries a stamp exactly when a decision on it was accepted,
      that happens at most once, and the stamp is that call's second reading of the clock,
      so it lies before the expiry exactly when that reading does; the first always did. */
  lemma {:induction false} StampExact(events: seq<Event>, ttl: int, t: string, i: string)
    requires Runs(map[], events, ttl)
    ensures var found := Lookup(Run(map[], events, ttl), t, i);
      && (found.Some? && found.value.decidedAt.Some? ==> exists j: nat :: AcceptedAt(events, ttl, t, i, j))
      && forall j: nat :: AcceptedAt(events, ttl, t, i, j) ==>
           found.Some? && found.value.decidedAt == Some(events[j].decidedAt) && events[j].checkedAt < found.value.expiresAt
    ensures forall j: nat, k: nat :: AcceptedAt(events, ttl, t, i, j) && AcceptedAt(events, ttl, t, i, k) ==> j == k
  {
    hide StoreInv, Enabled, Apply, Effect, Coherent, Created, AcceptedAt, Decidable, Lookup, Runs, Run;
    if events == [] {
      NoneAccepted(ttl, t, i);
    } else {
      var n := |events| - 1;
      var head, last := events[..n], events[n];
      RunLast(events, ttl);
      StampExact(head, ttl, t, i);
      var before, after := Lookup(Run(map[], head, ttl), t, i), Lookup(Run(map[], events, ttl), t, i);
      EmptyInv();
      RunInv(map[], head, ttl);
      ApplyLookup(Run(map[], head, ttl), last, ttl, t, i);
      forall j: nat | j < n ensures AcceptedAt(events, ttl, t, i, j) <==> AcceptedAt(head, ttl, t, i, j) && head[j] == events[j] {
        AcceptedEarlier(events, ttl, t, i, j);
      }
      AcceptedLast(events, ttl, t, i);
      if before.Some? {
        LookupCoherent(Run(map[], head, ttl), t, i);
        StampEffect(before.value, last);
        if before.value.decidedAt.Some? {
          var j: nat :| AcceptedAt(head, ttl, t, i, j);
          AcceptedWithin(head, ttl, t, i, j);
          assert AcceptedAt(events, ttl, t, i, j);
        }
      } else if after.Some? {
        CreatedUnstamped(last, ttl, after.value);
      }
    }
  }

  lemma NoneAccepted(ttl: int, t: string, i: string)
    ensures Lookup(Run(map[], [], ttl), t, i).None? && forall j: nat :: !AcceptedAt([], ttl, t, i, j)
  {
  }

  lemma AcceptedWithin(events: seq<Event>, ttl: int, t: string, i: string, j: nat)
    requires AcceptedAt(events, ttl, t, i, j)
    ensures j < |events|
  {
  }

  lemma RunLast(events: seq<Event>, ttl: int)
    requires events != [] && Runs(map[], events, ttl)
    ensures var head, last := events[..|events| - 1], events[|events| - 1];
      && Runs(map[], head, ttl) && Enabled(Run(map[], head, ttl), last)
      && Run(map[], events, ttl) == Apply(Run(map[], head, ttl), last, ttl)
  {
  }

  lemma AcceptedEarlier(events: seq<Event>, ttl: int, t: string, i: string, j: nat)
    requires j < |events| - 1
    ensures var head := events[..|events| - 1];
      head[j] == events[j] && (AcceptedAt(events, ttl, t, i, j) <==> AcceptedAt(head, ttl, t, i, j))
  {
    hide Runs, Run, Lookup, Decidable;
    assert events[..|events| - 1][..j] == events[..j];
  }

  lemma AcceptedLast(events: seq<Event>, ttl: int, t: string, i: string)
    requires events != [] && Runs(map[], events[..|events| - 1], ttl)
    ensures var n := |events| - 1; var last := events[n]; var before := Lookup(Run(map[], events[..n], ttl), t, i);
      && (forall j: nat :: AcceptedAt(events, ttl, t, i, j) ==> j <= n)
      && (AcceptedAt(events, ttl, t, i, n) <==>
            last.Decide? && (last.tenant, last.id) == (t, i) && before.Some? && Decidable(before.value, last.actor, last.checkedAt))
  {
    hide Runs, Run, Lookup, Decidable;
  }

  lemma StampEffect(r: Request, e: Event)
    requires Coherent(r)
    ensures Effect(r, e).expiresAt == r.expiresAt
    ensures var accepted := e.Decide? && (e.tenant, e.id) == (r.tenant, r.id) && Decidable(r, e.actor, e.checkedAt);
      if accepted then r.decidedAt.None? && Effect(r, e).decidedAt == Some(e.decidedAt) && e.checkedAt < r.expiresAt
      else Effect(r, e).decidedAt == r.decidedAt
  {
  }

  lemma CreatedUnstamped(e: Event, ttl: int, r: Request)
    requires Created(e, ttl, r)
    ensures r.decidedAt.None?
  {
  }

  // ---------------------------------------------------------------- listings

  lemma StoredAre(store: Store, tenant: string)
    requires StoreInv(store)
    ensures forall r :: r in Stored(store, tenant) <==> Lookup(store, tenant, r.id) == Some(r)
    ensures Distinct(Stored(store, tenant))
  {
    hide Coherent;
    var d := Bucket(store, tenant);
    var all := Stored(store, tenant);
    forall r ensures r in all <==> Lookup(store, tenant, r.id) == Some(r) {
      if r in all {
        var i :| 0 <= i < |all| && all[i] == r;
        assert d.keys[i] in d.vals && r.id == d.keys[i];
      }
      if Lookup(store, tenant, r.id) == Some(r) {
        var i :| 0 <= i < |d.keys| && d.keys[i] == r.id;
        assert all[i] == r;
      }
    }
    forall i, j | 0 <= i < j < |all| ensures all[i] != all[j] {
      assert all[i].id == d.keys[i] && all[j].id == d.keys[j];
    }
  }

  lemma NewestFirst(all: seq<Request>, status: Option<Status>, investigation: Option<string>)
    requires Distinct(all)
    ensures var items := Sort(Newer, Filter(r => Wanted(r, status, investigation), all));
      && (forall j, k :: 0 <= j < k < |items| ==> items[j].requestedAt >= items[k].requestedAt && items[j] != items[k])
      && (forall r :: r in items <==>
            r in all && (status == None || status == Some(r.status)) && (investigation == None || investigation == Some(r.investigation)))
  {
    hide Sort, Filter;
    FilterDistinct(r => Wanted(r, status, investigation), all);
    SortCorrect(Newer, Filter(r => Wanted(r, status, investigation), all));
    SortKeepsDistinct(Newer, Filter(r => Wanted(r, status, investigation), all));
  }

  /** A listing is a newest-first arrangement of exactly the tenant's requests that match,
      each once, and shows none as pending that was due when it was looked at. */
  lemma ListingIs(store: Store, e: Event, ttl: int, status: Option<Status>, investigation: Option<string>)
    requires StoreInv(store) && Enabled(store, e) && e.ListAll?
    ensures StoreInv(Apply(store, e, ttl))
    ensures var after := Apply(store, e, ttl);
      var items := Sort(Newer, Filter(r => Wanted(r, status, investigation), Stored(after, e.tenant)));
      && (forall j, k :: 0 <= j < k < |items| ==> items[j].requestedAt >= items[k].requestedAt && items[j] != items[k])
      && (forall r :: r in items <==>
            && Lookup(after, e.tenant, r.id) == Some(r)
            && (status == None || status == Some(r.status)) && (investigation == None || investigation == Some(r.investigation)))
      && (forall r :: r in items && r.status.Pending? ==> r.id in e.clocks && e.clocks[r.id] < r.expiresAt)
  {
    ApplyInv(store, e, ttl);
    hide Apply, Enabled, Sort, Filter, Lookup, Newer, Wanted, Distinct, Coherent;
    var after := Apply(store, e, ttl);
    var all := Stored(after, e.tenant);
    StoredAre(after, e.tenant);
    hide Stored;
    NewestFirst(all, status, investigation);
    forall r | r in all && r.status.Pending? ensures r.id in e.clocks && e.clocks[r.id] < r.expiresAt {
      ListedFresh(store, e, ttl, r);
    }
  }

  lemma ListedFresh(store: Store, e: Event, ttl: int, r: Request)
    requires StoreInv(store) && Enabled(store, e) && e.ListAll? && StoreInv(Apply(store, e, ttl))
    requires r in Stored(Apply(store, e, ttl), e.tenant) && r.status.Pending?
    ensures r.id in e.clocks && e.clocks[r.id] < r.expiresAt
  {
    hide Effect, Coherent;
    var i := r.id;
    assert i in store[e.tenant].vals;
    EffectOfListing(store[e.tenant].vals[i], e);
  }
}
