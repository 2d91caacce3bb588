/** The polling pipeline of the agent (src/index.ts): every poll filters
    the fetched leads down to those needing attention, keeps the ones
    updated since they were last seen, runs the critical ones through the
    lead workflow and scores the others in batches of ten, writing a score
    row per result and a pending action (and a proposal to the manager)
    per result that asks for one. The CRM, the scorer and Telegram are
    inputs; time is integer seconds. */
module Polling {
  import opened Collections
  import opened AmoCrm
  import opened Scoring
  import opened Store
  import opened Telegram
  import opened LeadWorkflow

  // -------------------------------------------------------- quick filter

  /** Budget from which a lead without active tasks needs attention. */
  const MediumBudget := 50000

  /** `quickFilter`: the five rules, tried in order. The ladder collapses
      to three conditions: a budget of at least 100000, more than seven
      days without update, or no active task together with a budget of at
      least 50000 or more than three days without update. */
  function QuickFilter(l: Lead, now: int): (r: bool)
    ensures r <==>
      l.price >= ImportantBudget
      || StaleMoreThan(l, now, 7)
      || (!HasActiveTasks(l.tasks) && (StaleMoreThan(l, now, 3) || l.price >= MediumBudget))
  {
    if StaleMoreThan(l, now, 3) && !HasActiveTasks(l.tasks) then true
    else if StaleMoreThan(l, now, 7) then true
    else if l.price >= VipBudget then true
    else if l.price >= ImportantBudget then true
    else l.price >= MediumBudget && !HasActiveTasks(l.tasks)
  }

  /** A VIP passes whatever its staleness and tasks; so does a lead more
      than seven days stale, whatever its budget. */
  lemma QuickFilterCriticalPasses(l: Lead, now: int)
    requires l.price >= VipBudget || StaleMoreThan(l, now, 7)
    ensures QuickFilter(l, now)
  {
  }

  /** A small lead with an active task, updated within three days, is
      left alone. */
  lemma QuickFilterQuietLead(l: Lead, now: int)
    requires l.price < MediumBudget && HasActiveTasks(l.tasks) && !StaleMoreThan(l, now, 3)
    ensures !QuickFilter(l, now)
  {
  }

  /** A lead without `updated_at` (or with 0) counts as updated just now:
      only its budget and tasks decide. */
  lemma QuickFilterNoTimestamp(l: Lead, now: int)
    requires l.updatedAt.None? || l.updatedAt == Some(0)
    ensures QuickFilter(l, now) <==>
      l.price >= ImportantBudget || (l.price >= MediumBudget && !HasActiveTasks(l.tasks))
  {
  }

  // ---------------------------------------------------- change detection

  /** `lastChecked.get(id) || 0`. */
  function LastSeen(last: map<int, int>, id: int): int {
    if id in last then last[id] else 0
  }

  /** `lead.updated_at > lastUpdate`; an absent `updated_at` compares
      false. */
  predicate HasChanged(l: Lead, last: map<int, int>) {
    l.updatedAt.Some? && l.updatedAt.value > LastSeen(last, l.id)
  }

  datatype Detection = Detection(changed: seq<Lead>, last: map<int, int>)

  /** The change-detection filter from position `k` on: a changed lead is
      kept and its `updated_at` recorded before the next lead is looked
      at. */
  function DetectFrom(leads: seq<Lead>, k: nat, last: map<int, int>): Detection
    decreases |leads| - k
  {
    if k >= |leads| then Detection([], last)
    else if HasChanged(leads[k], last) then
      var d := DetectFrom(leads, k + 1, last[leads[k].id := leads[k].updatedAt.value]);
      Detection([leads[k]] + d.changed, d.last)
    else DetectFrom(leads, k + 1, last)
  }

  function DetectChanges(leads: seq<Lead>, last: map<int, int>): Detection {
    DetectFrom(leads, 0, last)
  }

  /** Every lead of `leads` from `k` on is unchanged with respect to `last`. */
  predicate SeenAll(leads: seq<Lead>, k: nat, last: map<int, int>) {
    forall i :: k <= i < |leads| ==> !HasChanged(leads[i], last)
  }

  /** `m` remembers at least as much as `last`: no id is forgotten and no
      stored value is lower. */
  ghost predicate NoOlder(last: map<int, int>, m: map<int, int>) {
    last.Keys <= m.Keys && forall id :: LastSeen(m, id) >= LastSeen(last, id)
  }

  /** The kept leads are a subsequence of the list. */
  lemma {:induction false} DetectSubseq(leads: seq<Lead>, k: nat, last: map<int, int>)
    requires k <= |leads|
    ensures IsSubseq(DetectFrom(leads, k, last).changed, leads[k..])
    decreases |leads| - k
  {
    if k < |leads| {
      var l := leads[k];
      assert leads[k..] == [l] + leads[k + 1..];
      if HasChanged(l, last) {
        var m := last[l.id := l.updatedAt.value];
        DetectSubseq(leads, k + 1, m);
        SubseqSkip(DetectFrom(leads, k + 1, m).changed, leads[k + 1..], l);
      } else {
        DetectSubseq(leads, k + 1, last);
        var rest := DetectFrom(leads, k + 1, last);
        if rest.changed != [] {
          SubseqDrop(rest.changed, leads[k + 1..]);
          assert leads[k..][1..] == leads[k + 1..];
        }
      }
    }
  }

  /** Stored values never decrease and no id is forgotten. */
  lemma {:induction false} DetectMonotone(leads: seq<Lead>, k: nat, last: map<int, int>)
    ensures NoOlder(last, DetectFrom(leads, k, last).last)
    decreases |leads| - k
  {
    if k < |leads| {
      var l := leads[k];
      if HasChanged(l, last) {
        var m := last[l.id := l.updatedAt.value];
        DetectMonotone(leads, k + 1, m);
        assert NoOlder(last, m);
      } else {
        DetectMonotone(leads, k + 1, last);
      }
    }
  }

  /** Afterwards no lead of the list counts as changed. */
  lemma {:induction false} DetectSeesAll(leads: seq<Lead>, k: nat, last: map<int, int>)
    ensures SeenAll(leads, k, DetectFrom(leads, k, last).last)
    decreases |leads| - k
  {
    if k < |leads| {
      var l := leads[k];
      var d := DetectFrom(leads, k, last);
      if HasChanged(l, last) {
        var m := last[l.id := l.updatedAt.value];
        DetectSeesAll(leads, k + 1, m);
        DetectMonotone(leads, k + 1, m);
        assert LastSeen(d.last, l.id) >= LastSeen(m, l.id);
      } else {
        DetectSeesAll(leads, k + 1, last);
        DetectMonotone(leads, k + 1, last);
        assert LastSeen(d.last, l.id) >= LastSeen(last, l.id);
      }
    }
  }

  /** A list with nothing changed keeps nothing and writes nothing. */
  lemma {:induction false} DetectNothingNew(leads: seq<Lead>, k: nat, last: map<int, int>)
    requires SeenAll(leads, k, last)
    ensures DetectFrom(leads, k, last) == Detection([], last)
    decreases |leads| - k
  {
    if k < |leads| {
      DetectNothingNew(leads, k + 1, last);
    }
  }

  /** Presenting the same list twice: the second time nothing is kept and
      the map stays as it is. */
  lemma DetectIdempotent(leads: seq<Lead>, last: map<int, int>)
    ensures var d := DetectChanges(leads, last);
      DetectChanges(leads, d.last) == Detection([], d.last)
  {
    DetectSeesAll(leads, 0, last);
    DetectNothingNew(leads, 0, DetectChanges(leads, last).last);
  }

  /** With ids all different, detection is a plain filter against the map
      as it was: a lead is kept iff its `updated_at` exceeds the stored
      value (0 when none). */
  lemma {:induction false} DetectDistinct(leads: seq<Lead>, k: nat, last: map<int, int>)
    requires k <= |leads|
    requires forall i, j :: k <= i < j < |leads| ==> leads[i].id != leads[j].id
    ensures DetectFrom(leads, k, last).changed == Filter(leads[k..], l => HasChanged(l, last))
    decreases |leads| - k
  {
    if k < |leads| {
      var l := leads[k];
      assert leads[k..] == [l] + leads[k + 1..];
      assert leads[k..][1..] == leads[k + 1..];
      if HasChanged(l, last) {
        var m := last[l.id := l.updatedAt.value];
        DetectDistinct(leads, k + 1, m);
        FilterCongruent(leads[k + 1..], l => HasChanged(l, m), l => HasChanged(l, last));
      } else {
        DetectDistinct(leads, k + 1, last);
      }
    } else {
      assert leads[k..] == [];
    }
  }

  /** Entries of ids that no lead of the list carries are untouched. */
  lemma {:induction false} DetectOtherIds(leads: seq<Lead>, k: nat, last: map<int, int>, id: int)
    requires forall i :: k <= i < |leads| ==> leads[i].id != id
    ensures (id in DetectFrom(leads, k, last).last <==> id in last)
    ensures id in last ==> DetectFrom(leads, k, last).last[id] == last[id]
    decreases |leads| - k
  {
    if k < |leads| {
      var l := leads[k];
      if HasChanged(l, last) {
        DetectOtherIds(leads, k + 1, last[l.id := l.updatedAt.value], id);
      } else {
        DetectOtherIds(leads, k + 1, last, id);
      }
    }
  }

  // ------------------------------------------------------------- routing

  /** Critical: a VIP or more than seven days without update. */
  predicate IsCritical(l: Lead, now: int) {
    l.price >= VipBudget || StaleMoreThan(l, now, 7)
  }

  function CriticalLeads(leads: seq<Lead>, now: int): (r: seq<Lead>)
    ensures forall l :: l in r <==> l in leads && IsCritical(l, now)
    ensures IsSubseq(r, leads)
  {
    FilterIsSubseq(leads, l => IsCritical(l, now));
    Filter(leads, l => IsCritical(l, now))
  }

  /** `changedLeads.filter(lead => !criticalLeads.includes(lead))`. */
  function NormalLeads(leads: seq<Lead>, now: int): (r: seq<Lead>)
    ensures forall l :: l in r <==> l in leads && !IsCritical(l, now)
    ensures IsSubseq(r, leads)
  {
    FilterIsSubseq(leads, l => !IsCritical(l, now));
    Filter(leads, l => !IsCritical(l, now))
  }

  /** Critical and normal leads split the changed leads: together they
      are the same leads with the same multiplicities, each side in list
      order, and every critical lead also passes the quick filter. */
  lemma RoutingPartition(leads: seq<Lead>, now: int)
    ensures multiset(CriticalLeads(leads, now)) + multiset(NormalLeads(leads, now)) == multiset(leads)
    ensures forall l :: !(l in CriticalLeads(leads, now) && l in NormalLeads(leads, now))
    ensures forall l :: l in CriticalLeads(leads, now) ==> QuickFilter(l, now)
  {
    FilterPartition(leads, l => IsCritical(l, now), l => !IsCritical(l, now));
  }

  // ------------------------------------------------------------- batches

  const BatchSize := 10

  /** `normalLeads.slice(i, i + 10)` for i = 0, 10, 20, ... */
  function Batches(s: seq<Lead>): seq<seq<Lead>>
    decreases |s|
  {
    if s == [] then []
    else if |s| <= BatchSize then [s]
    else [s[..BatchSize]] + Batches(s[BatchSize..])
  }

  /** The batches put back together are the list; each holds one to ten
      leads, and all but the last exactly ten. */
  lemma {:induction false} BatchesShape(s: seq<Lead>)
    ensures Concat(Batches(s)) == s
    ensures forall b :: 0 <= b < |Batches(s)| ==> 1 <= |Batches(s)[b]| <= BatchSize
    ensures forall b :: 0 <= b < |Batches(s)| - 1 ==> |Batches(s)[b]| == BatchSize
    decreases |s|
  {
    if |s| > BatchSize {
      var rest := s[BatchSize..];
      BatchesShape(rest);
      var bs := Batches(s);
      assert bs == [s[..BatchSize]] + Batches(rest);
      assert bs[1..] == Batches(rest);
      assert Concat(bs) == s[..BatchSize] + Concat(Batches(rest));
      assert s == s[..BatchSize] + rest;
      forall b | 1 <= b < |bs|
        ensures bs[b] == Batches(rest)[b - 1]
      {
      }
    } else if s != [] {
      assert Concat([s]) == s + Concat([]);
    }
  }

  /** Batch number `b` is the slice starting at `10 * b`, and there are
      exactly as many batches as steps of ten below the length. */
  lemma {:induction false} BatchAt(s: seq<Lead>, b: nat)
    ensures b < |Batches(s)| <==> BatchSize * b < |s|
    ensures b < |Batches(s)| ==> Batches(s)[b] == s[BatchSize * b..Min(BatchSize * b + BatchSize, |s|)]
    decreases |s|
  {
    if s == [] {
    } else if |s| <= BatchSize {
      assert Batches(s) == [s];
      if b == 0 {
        assert s[0..Min(BatchSize, |s|)] == s;
      }
    } else {
      var rest := s[BatchSize..];
      var bs := Batches(s);
      assert bs == [s[..BatchSize]] + Batches(rest);
      if b == 0 {
        assert s[0..Min(BatchSize, |s|)] == s[..BatchSize];
      } else {
        BatchAt(rest, b - 1);
        assert |bs| == 1 + |Batches(rest)|;
        if b < |bs| {
          assert bs[b] == Batches(rest)[b - 1];
          var lo := BatchSize * (b - 1);
          var hi := Min(lo + BatchSize, |rest|);
          assert forall j :: lo <= j < hi ==> rest[j] == s[j + BatchSize];
          assert rest[lo..hi] == s[lo + BatchSize..hi + BatchSize];
        }
      }
    }
  }

  // ------------------------------------------------- per-result handling

  /** The tables a poll writes: `pending_actions` with its next id, and
      `lead_scores`. */
  datatype Tables = Tables(actions: map<int, PendingAction>, nextId: int, scores: seq<LeadScore>)

  /** `result.action_needed && result.recommended_action`: the action
      type must be a non-empty string. */
  predicate ActionWanted(r: ScoreResult) {
    r.actionNeeded && r.recommendedAction.Some? && r.recommendedAction.value != ""
  }

  /** The result for position `j` of the batch; a missing element reads
      as an invalid result. */
  function ResultAt(results: seq<Option<ScoreResult>>, j: int): Option<ScoreResult> {
    if 0 <= j < |results| then results[j] else None
  }

  /** The score row written for a valid result: the batch lead's id, the
      scorer's numbers, the poll's clock. */
  function ScoreRow(lead: Lead, r: ScoreResult, now: int): LeadScore {
    LeadScore(lead.id, r.riskScore, r.riskLevel, r.priority, now)
  }

  /** The row inserted for a wanted action: the action type from the
      result, a payload holding only the lead's name, status `pending`. */
  function NewAction(lead: Lead, r: ScoreResult): PendingAction
    requires r.recommendedAction.Some?
  {
    PendingAction(lead.id, r.recommendedAction.value, Json(Store.ActionParams(Some(lead.name), None, None, None)),
      r.riskScore, r.priority, r.reasoning, Pending, None)
  }

  datatype Step = Step(tables: Tables, aborted: bool)

  /** One valid result: the score row, then, when an action is wanted, the
      new action and its proposal. `sent(id)` is the id of the message
      sent for action `id`, `None` when sending raised, which aborts the
      rest of the batch. */
  function HandleResult(lead: Lead, r: ScoreResult, t: Tables, now: int, managerId: Option<string>, sent: int -> Option<int>): (s: Step)
    ensures s.tables.scores == t.scores + [ScoreRow(lead, r, now)]
    ensures s.tables.nextId == t.nextId + (if ActionWanted(r) then 1 else 0)
    ensures s.aborted <==> ActionWanted(r) && ManagerConfigured(managerId) && sent(t.nextId).None?
  {
    var scores := t.scores + [ScoreRow(lead, r, now)];
    if !ActionWanted(r) then Step(Tables(t.actions, t.nextId, scores), false)
    else
      var id := t.nextId;
      var actions := t.actions[id := NewAction(lead, r)];
      if !ManagerConfigured(managerId) then Step(Tables(actions, id + 1, scores), false)
      else if sent(id).None? then Step(Tables(actions, id + 1, scores), true)
      else Step(Tables(WithMessageId(actions, id, sent(id).value), id + 1, scores), false)
  }

  /** The action rows a valid result leaves: none new when no action is
      wanted; otherwise one new `pending` row under the next id, carrying
      the result's action type and the lead's name, whose message id is
      set only when a proposal went out; all other rows as they were. */
  lemma HandleResultActions(lead: Lead, r: ScoreResult, t: Tables, now: int, managerId: Option<string>, sent: int -> Option<int>)
    ensures var s := HandleResult(lead, r, t, now, managerId, sent);
      (!ActionWanted(r) ==> s.tables.actions == t.actions)
      && (ActionWanted(r) ==>
            t.nextId in s.tables.actions
            && s.tables.actions[t.nextId].(messageId := None) == NewAction(lead, r)
            && (s.tables.actions[t.nextId].messageId.Some? <==> ManagerConfigured(managerId) && sent(t.nextId).Some?)
            && s.tables.actions.Keys == t.actions.Keys + {t.nextId}
            && forall id :: id in t.actions && id != t.nextId ==> s.tables.actions[id] == t.actions[id])
  {
  }

  /** The inner loop of one batch from position `j` on. */
  function HandleFrom(batch: seq<Lead>, results: seq<Option<ScoreResult>>, j: nat, t: Tables,
                      now: int, managerId: Option<string>, sent: int -> Option<int>): Step
    decreases |batch| - j
  {
    if j >= |batch| then Step(t, false)
    else match ResultAt(results, j)
      case None => HandleFrom(batch, results, j + 1, t, now, managerId, sent)
      case Some(r) =>
        var s := HandleResult(batch[j], r, t, now, managerId, sent);
        if s.aborted then s else HandleFrom(batch, results, j + 1, s.tables, now, managerId, sent)
  }

  /** The score rows a batch writes when nothing aborts it: one per valid
      result, in batch order. */
  function ScoreRows(batch: seq<Lead>, results: seq<Option<ScoreResult>>, j: nat, now: int): seq<LeadScore>
    decreases |batch| - j
  {
    if j >= |batch| then []
    else match ResultAt(results, j)
      case None => ScoreRows(batch, results, j + 1, now)
      case Some(r) => [ScoreRow(batch[j], r, now)] + ScoreRows(batch, results, j + 1, now)
  }

  /** How many results of the batch ask for an action. */
  function CountWanted(batch: seq<Lead>, results: seq<Option<ScoreResult>>, j: nat): nat
    decreases |batch| - j
  {
    if j >= |batch| then 0
    else match ResultAt(results, j)
      case Some(r) => (if ActionWanted(r) then 1 else 0) + CountWanted(batch, results, j + 1)
      case None => CountWanted(batch, results, j + 1)
  }

  /** Every stored id was handed out before `nextId`. */
  predicate WellFormed(t: Tables) {
    forall id :: id in t.actions ==> id < t.nextId
  }

  /** `r` extends `t`: earlier rows are kept as they were, score rows are
      only appended, and every new row is a `pending` action under a fresh
      id. */
  predicate Extends(t: Tables, r: Tables) {
    WellFormed(r)
    && t.nextId <= r.nextId
    && |t.scores| <= |r.scores| && r.scores[..|t.scores|] == t.scores
    && (forall id :: id in t.actions ==> id in r.actions && r.actions[id] == t.actions[id])
    && (forall id :: id in r.actions && id !in t.actions ==>
          t.nextId <= id && r.actions[id].status == Pending)
  }

  lemma ExtendsTrans(a: Tables, b: Tables, c: Tables)
    requires Extends(a, b) && Extends(b, c)
    ensures Extends(a, c)
  {
    assert c.scores[..|a.scores|] == c.scores[..|b.scores|][..|a.scores|];
  }

  /** One result keeps what was there and adds at most one pending
      action. */
  lemma HandleResultExtends(lead: Lead, r: ScoreResult, t: Tables, now: int, managerId: Option<string>, sent: int -> Option<int>)
    requires WellFormed(t)
    ensures Extends(t, HandleResult(lead, r, t, now, managerId, sent).tables)
  {
    var h := HandleResult(lead, r, t, now, managerId, sent);
    assert h.tables.scores[..|t.scores|] == t.scores;
  }

  /** A batch keeps what was there and adds pending actions only. */
  lemma {:induction false} HandleFromExtends(batch: seq<Lead>, results: seq<Option<ScoreResult>>, j: nat, t: Tables,
                                             now: int, managerId: Option<string>, sent: int -> Option<int>)
    requires WellFormed(t)
    ensures Extends(t, HandleFrom(batch, results, j, t, now, managerId, sent).tables)
    decreases |batch| - j
  {
    if j < |batch| {
      match ResultAt(results, j) {
        case None =>
          HandleFromExtends(batch, results, j + 1, t, now, managerId, sent);
        case Some(r) =>
          var h := HandleResult(batch[j], r, t, now, managerId, sent);
          HandleResultExtends(batch[j], r, t, now, managerId, sent);
          if !h.aborted {
            HandleFromExtends(batch, results, j + 1, h.tables, now, managerId, sent);
            ExtendsTrans(t, h.tables, HandleFrom(batch, results, j + 1, h.tables, now, managerId, sent).tables);
          }
      }
    } else {
      assert t.scores[..|t.scores|] == t.scores;
    }
  }

  /** A batch that is not aborted writes exactly one score row per valid
      result, in order, and one action per result that asks for one; an
      aborted batch writes no more than that. */
  lemma {:induction false} HandleFromCounts(batch: seq<Lead>, results: seq<Option<ScoreResult>>, j: nat, t: Tables,
                                            now: int, managerId: Option<string>, sent: int -> Option<int>)
    ensures var s := HandleFrom(batch, results, j, t, now, managerId, sent);
      t.nextId <= s.tables.nextId <= t.nextId + CountWanted(batch, results, j)
      && |t.scores| <= |s.tables.scores| <= |t.scores| + |ScoreRows(batch, results, j, now)|
      && (!s.aborted ==> s.tables.scores == t.scores + ScoreRows(batch, results, j, now)
                         && s.tables.nextId == t.nextId + CountWanted(batch, results, j))
    decreases |batch| - j
  {
    if j < |batch| {
      match ResultAt(results, j) {
        case None =>
          HandleFromCounts(batch, results, j + 1, t, now, managerId, sent);
        case Some(r) =>
          var h := HandleResult(batch[j], r, t, now, managerId, sent);
          assert ScoreRows(batch, results, j, now) == [ScoreRow(batch[j], r, now)] + ScoreRows(batch, results, j + 1, now);
          assert CountWanted(batch, results, j) == (if ActionWanted(r) then 1 else 0) + CountWanted(batch, results, j + 1);
          if h.aborted {
            assert HandleFrom(batch, results, j, t, now, managerId, sent) == h;
          } else {
            assert HandleFrom(batch, results, j, t, now, managerId, sent)
              == HandleFrom(batch, results, j + 1, h.tables, now, managerId, sent);
            HandleFromCounts(batch, results, j + 1, h.tables, now, managerId, sent);
          }
      }
    }
  }

  /** The rows the fallback result writes for each lead: score 0, `LOW`. */
  function FallbackRows(leads: seq<Lead>, now: int): (r: seq<LeadScore>)
    ensures |r| == |leads|
    ensures forall i :: 0 <= i < |r| ==> r[i] == LeadScore(leads[i].id, 0, "LOW", "LOW", now)
  {
    seq(|leads|, i requires 0 <= i < |leads| => LeadScore(leads[i].id, 0, "LOW", "LOW", now))
  }

  lemma FallbackRowsAppend(a: seq<Lead>, b: seq<Lead>, now: int)
    ensures FallbackRows(a + b, now) == FallbackRows(a, now) + FallbackRows(b, now)
  {
    var l := FallbackRows(a + b, now);
    var r := FallbackRows(a, now) + FallbackRows(b, now);
    assert |l| == |r|;
    forall i | 0 <= i < |l|
      ensures l[i] == r[i]
    {
      if i < |a| {
        assert (a + b)[i] == a[i];
      } else {
        assert (a + b)[i] == b[i - |a|];
      }
    }
  }

  /** A batch in which no result asks for an action is never aborted,
      leaves the actions alone and only appends its score rows. */
  lemma {:induction false} NothingWanted(batch: seq<Lead>, results: seq<Option<ScoreResult>>, j: nat, t: Tables,
                                         now: int, managerId: Option<string>, sent: int -> Option<int>)
    requires CountWanted(batch, results, j) == 0
    ensures HandleFrom(batch, results, j, t, now, managerId, sent)
      == Step(t.(scores := t.scores + ScoreRows(batch, results, j, now)), false)
    decreases |batch| - j
  {
    if j < |batch| {
      match ResultAt(results, j) {
        case None =>
          NothingWanted(batch, results, j + 1, t, now, managerId, sent);
        case Some(r) =>
          var t1 := t.(scores := t.scores + [ScoreRow(batch[j], r, now)]);
          assert HandleResult(batch[j], r, t, now, managerId, sent) == Step(t1, false);
          NothingWanted(batch, results, j + 1, t1, now, managerId, sent);
          assert t1.scores + ScoreRows(batch, results, j + 1, now) == t.scores + ScoreRows(batch, results, j, now);
      }
    }
  }

  /** The fallback results ask for no action and score every lead 0,
      `LOW`. */
  lemma {:induction false} FallbackRowsOf(batch: seq<Lead>, results: seq<Option<ScoreResult>>, j: nat, now: int)
    requires j <= |batch|
    requires forall i :: j <= i < |batch| ==> ResultAt(results, i) == Some(FallbackResult(batch[i]))
    ensures CountWanted(batch, results, j) == 0
    ensures ScoreRows(batch, results, j, now) == FallbackRows(batch[j..], now)
    decreases |batch| - j
  {
    if j < |batch| {
      FallbackRowsOf(batch, results, j + 1, now);
      assert batch[j..] == [batch[j]] + batch[j + 1..];
      FallbackRowsAppend([batch[j]], batch[j + 1..], now);
    } else {
      assert FallbackRows(batch[j..], now) == [];
    }
  }

  /** A batch whose scoring failed writes one `LOW` score row per lead and
      never an action: the fallback results do not ask for one. */
  lemma FallbackBatch(batch: seq<Lead>, t: Tables, now: int, managerId: Option<string>, sent: int -> Option<int>)
    ensures HandleFrom(batch, AnalyzeBatch(batch, ScorerFailed), 0, t, now, managerId, sent)
      == Step(t.(scores := t.scores + FallbackRows(batch, now)), false)
  {
    var results := AnalyzeBatch(batch, ScorerFailed);
    assert forall i :: 0 <= i < |batch| ==> ResultAt(results, i) == Some(FallbackResult(batch[i]));
    FallbackRowsOf(batch, results, 0, now);
    assert batch[0..] == batch;
    NothingWanted(batch, results, 0, t, now, managerId, sent);
  }

  /** The batch loop from batch `b` on; `replies(b)` is the scorer's
      answer for batch `b`. A batch aborted by a failed send only ends
      that batch. */
  function RunBatches(bs: seq<seq<Lead>>, b: nat, t: Tables, now: int, managerId: Option<string>,
                      replies: nat -> BatchReply, sent: int -> Option<int>): Tables
    decreases |bs| - b
  {
    if b >= |bs| then t
    else
      var s := HandleFrom(bs[b], AnalyzeBatch(bs[b], replies(b)), 0, t, now, managerId, sent);
      RunBatches(bs, b + 1, s.tables, now, managerId, replies, sent)
  }

  lemma RunBatchesStep(bs: seq<seq<Lead>>, b: nat, t: Tables, now: int, managerId: Option<string>,
                       replies: nat -> BatchReply, sent: int -> Option<int>)
    requires b < |bs|
    ensures RunBatches(bs, b, t, now, managerId, replies, sent)
      == RunBatches(bs, b + 1, HandleFrom(bs[b], AnalyzeBatch(bs[b], replies(b)), 0, t, now, managerId, sent).tables,
                    now, managerId, replies, sent)
  {
  }

  /** Every poll keeps existing rows and only adds pending actions. */
  lemma {:induction false} RunBatchesExtends(bs: seq<seq<Lead>>, b: nat, t: Tables, now: int, managerId: Option<string>,
                                             replies: nat -> BatchReply, sent: int -> Option<int>)
    requires WellFormed(t)
    ensures Extends(t, RunBatches(bs, b, t, now, managerId, replies, sent))
    decreases |bs| - b
  {
    if b < |bs| {
      var s := HandleFrom(bs[b], AnalyzeBatch(bs[b], replies(b)), 0, t, now, managerId, sent);
      HandleFromExtends(bs[b], AnalyzeBatch(bs[b], replies(b)), 0, t, now, managerId, sent);
      RunBatchesExtends(bs, b + 1, s.tables, now, managerId, replies, sent);
      ExtendsTrans(t, s.tables, RunBatches(bs, b, t, now, managerId, replies, sent));
    } else {
      assert t.scores[..|t.scores|] == t.scores;
    }
  }

  lemma ConcatFallbackRows(bs: seq<seq<Lead>>, b: nat, now: int)
    requires b < |bs|
    ensures FallbackRows(Concat(bs[b..]), now) == FallbackRows(bs[b], now) + FallbackRows(Concat(bs[b + 1..]), now)
  {
    assert bs[b..][1..] == bs[b + 1..];
    assert Concat(bs[b..]) == bs[b] + Concat(bs[b + 1..]);
    FallbackRowsAppend(bs[b], Concat(bs[b + 1..]), now);
  }

  /** When every batch's scoring fails, the poll inserts no action and
      writes one `LOW` score row per normal lead, in order. */
  lemma {:induction false} AllFallback(bs: seq<seq<Lead>>, b: nat, t: Tables, now: int, managerId: Option<string>,
                                       replies: nat -> BatchReply, sent: int -> Option<int>)
    requires b <= |bs|
    requires forall k :: b <= k < |bs| ==> replies(k) == ScorerFailed
    ensures RunBatches(bs, b, t, now, managerId, replies, sent)
      == t.(scores := t.scores + FallbackRows(Concat(bs[b..]), now))
    decreases |bs| - b
  {
    if b < |bs| {
      var t1 := t.(scores := t.scores + FallbackRows(bs[b], now));
      AllFallback(bs, b + 1, t1, now, managerId, replies, sent);
      AllFallbackStep(bs, b, t, now, managerId, replies, sent);
    } else {
      assert bs[b..] == [];
      assert t.scores + FallbackRows([], now) == t.scores;
    }
  }

  /** The step of `AllFallback`: a failed batch followed by the rest. */
  lemma AllFallbackStep(bs: seq<seq<Lead>>, b: nat, t: Tables, now: int, managerId: Option<string>,
                        replies: nat -> BatchReply, sent: int -> Option<int>)
    requires b < |bs| && replies(b) == ScorerFailed
    requires var t1 := t.(scores := t.scores + FallbackRows(bs[b], now));
      RunBatches(bs, b + 1, t1, now, managerId, replies, sent)
      == t1.(scores := t1.scores + FallbackRows(Concat(bs[b + 1..]), now))
    ensures RunBatches(bs, b, t, now, managerId, replies, sent)
      == t.(scores := t.scores + FallbackRows(Concat(bs[b..]), now))
  {
    var first := FallbackRows(bs[b], now);
    var rest := FallbackRows(Concat(bs[b + 1..]), now);
    FallbackBatch(bs[b], t, now, managerId, sent);
    RunBatchesStep(bs, b, t, now, managerId, replies, sent);
    ConcatFallbackRows(bs, b, now);
    assert t.scores + first + rest == t.scores + (first + rest);
  }

  // ---------------------------------------------------------------- poll

  class Poller {
    /** `lastChecked`: lead id to the last `updated_at` seen. */
    var lastChecked: map<int, int>
    const telegram: TelegramService

    constructor(telegram: TelegramService)
      ensures this.telegram == telegram && lastChecked == map[]
    {
      this.telegram := telegram;
      lastChecked := map[];
    }

    /** The change-detection filter over the leads needing attention,
        updating `lastChecked` in place. */
    method DetectChangedLeads(leads: seq<Lead>) returns (changed: seq<Lead>)
      modifies this
      ensures var d := DetectChanges(leads, old(lastChecked));
        changed == d.changed && lastChecked == d.last
    {
      ghost var start := lastChecked;
      changed := [];
      var k := 0;
      while k < |leads|
        invariant 0 <= k <= |leads|
        invariant DetectChanges(leads, start)
          == Detection(changed + DetectFrom(leads, k, lastChecked).changed, DetectFrom(leads, k, lastChecked).last)
      {
        var lead := leads[k];
        var lastUpdate := if lead.id in lastChecked then lastChecked[lead.id] else 0;
        if lead.updatedAt.Some? && lead.updatedAt.value > lastUpdate {
          lastChecked := lastChecked[lead.id := lead.updatedAt.value];
          changed := changed + [lead];
        }
        k := k + 1;
      }
    }

    /** The current tables of the agent's database. */
    function DbTables(): Tables
      reads this, telegram, telegram.executor, telegram.executor.db
    {
      var db := telegram.executor.db;
      Tables(db.actions, db.nextId, db.scores)
    }

    /** The inner loop over one batch's results. */
    method HandleBatch(batch: seq<Lead>, results: seq<Option<ScoreResult>>, now: int,
                       managerId: Option<string>, sent: int -> Option<int>)
      requires telegram.executor.db.Valid()
      modifies telegram.executor.db
      ensures telegram.executor.db.Valid()
      ensures DbTables() == HandleFrom(batch, results, 0, old(DbTables()), now, managerId, sent).tables
      ensures telegram.executor.db.decisions == old(telegram.executor.db.decisions)
    {
      var db := telegram.executor.db;
      ghost var start := DbTables();
      var j := 0;
      while j < |batch|
        invariant 0 <= j <= |batch|
        invariant db.Valid()
        invariant db.decisions == old(db.decisions)
        invariant HandleFrom(batch, results, 0, start, now, managerId, sent)
          == HandleFrom(batch, results, j, DbTables(), now, managerId, sent)
      {
        var lead := batch[j];
        var result := if j < |results| then results[j] else None;
        if result.None? {
          j := j + 1;
          continue;
        }
        var r := result.value;
        ghost var before := DbTables();
        db.AppendScore(ScoreRow(lead, r, now));
        if r.actionNeeded && r.recommendedAction.Some? && r.recommendedAction.value != "" {
          var id := db.InsertAction(lead.id, r.recommendedAction.value,
            Json(Store.ActionParams(Some(lead.name), None, None, None)), r.riskScore, r.priority, r.reasoning);
          var outcome := telegram.SendActionProposal(id, lead, r.reasoning, managerId, now, sent(id));
          if outcome == SendFailed {
            assert DbTables() == HandleResult(lead, r, before, now, managerId, sent).tables;
            return;
          }
        }
        assert DbTables() == HandleResult(lead, r, before, now, managerId, sent).tables;
        j := j + 1;
      }
    }

    /** The loop over the critical leads: one workflow run each, errors
        caught per lead. */
    method RunWorkflows(critical: seq<Lead>, managerId: Option<string>, workflowReplies: nat -> nat -> PassReplies)
      returns (runs: seq<Option<WorkflowState>>)
      ensures |runs| == |critical|
      ensures forall k :: 0 <= k < |runs| && runs[k].Some? ==> runs[k].value.leadId == critical[k].id
    {
      runs := [];
      var k := 0;
      while k < |critical|
        invariant 0 <= k <= |critical|
        invariant |runs| == k
        invariant forall i :: 0 <= i < k && runs[i].Some? ==> runs[i].value.leadId == critical[i].id
      {
        var res;
        ghost var visits, steps;
        res, visits, steps := Process(critical[k].id, managerId, workflowReplies(k));
        runs := runs + [res];
        k := k + 1;
      }
    }

    /** The loop over the batches of normal leads, ten at a time. */
    method RunAllBatches(normal: seq<Lead>, now: int, managerId: Option<string>,
                         batchReplies: nat -> BatchReply, sent: int -> Option<int>)
      requires telegram.executor.db.Valid()
      modifies telegram.executor.db
      ensures telegram.executor.db.Valid()
      ensures telegram.executor.db.decisions == old(telegram.executor.db.decisions)
      ensures DbTables() == RunBatches(Batches(normal), 0, old(DbTables()), now, managerId, batchReplies, sent)
    {
      ghost var bs := Batches(normal);
      ghost var start := DbTables();
      var i := 0;
      ghost var b := 0;
      while i < |normal|
        invariant i == BatchSize * b
        invariant b <= |bs|
        invariant b < |bs| <==> i < |normal|
        invariant telegram.executor.db.Valid()
        invariant telegram.executor.db.decisions == old(telegram.executor.db.decisions)
        invariant RunBatches(bs, 0, start, now, managerId, batchReplies, sent)
          == RunBatches(bs, b, DbTables(), now, managerId, batchReplies, sent)
      {
        BatchAt(normal, b);
        BatchAt(normal, b + 1);
        var batch := normal[i..Min(i + BatchSize, |normal|)];
        assert batch == bs[b];
        assert i / BatchSize == b;
        var results := AnalyzeBatch(batch, batchReplies(i / BatchSize));
        ghost var before := DbTables();
        HandleBatch(batch, results, now, managerId, sent);
        RunBatchesStep(bs, b, before, now, managerId, batchReplies, sent);
        i := i + BatchSize;
        b := b + 1;
      }
    }

    /** One `poll()`. `fetched` is the CRM's lead list (`None`: the request
        failed and the poll only logs it); `workflowReplies(k)` answers the
        workflow run of the `k`-th critical lead; `batchReplies(b)` is the
        scorer's answer for batch `b`; `sent(id)` is the message id of the
        proposal for action `id`. Returns the workflow results, one per
        critical lead. */
    method Poll(fetched: Option<seq<Lead>>, now: int, managerId: Option<string>,
                workflowReplies: nat -> nat -> PassReplies, batchReplies: nat -> BatchReply,
                sent: int -> Option<int>)
      returns (runs: seq<Option<WorkflowState>>)
      requires telegram.executor.db.Valid()
      modifies this, telegram.executor.db
      ensures telegram.executor.db.Valid()
      ensures telegram.executor.db.decisions == old(telegram.executor.db.decisions)
      ensures fetched.None? ==> runs == [] && lastChecked == old(lastChecked) && DbTables() == old(DbTables())
      ensures fetched.Some? ==>
        var d := DetectChanges(Filter(fetched.value, l => QuickFilter(l, now)), old(lastChecked));
        lastChecked == d.last
        && |runs| == |CriticalLeads(d.changed, now)|
        && (forall k :: 0 <= k < |runs| && runs[k].Some? ==> runs[k].value.leadId == CriticalLeads(d.changed, now)[k].id)
        && DbTables() == RunBatches(Batches(NormalLeads(d.changed, now)), 0, old(DbTables()), now, managerId, batchReplies, sent)
    {
      runs := [];
      if fetched.None? {
        return;
      }
      var needsAttention := Filter(fetched.value, l => QuickFilter(l, now));
      var changed := DetectChangedLeads(needsAttention);
      if |changed| == 0 {
        return;
      }
      runs := RunWorkflows(CriticalLeads(changed, now), managerId, workflowReplies);
      RunAllBatches(NormalLeads(changed, now), now, managerId, batchReplies, sent);
    }
  }
}
