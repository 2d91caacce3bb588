/** The amoCRM records the core reads, and the list filters of the CRM
    service (src/services/amocrm.ts). The HTTP requests that fetch the
    lists are not modelled: every filter works on an already fetched list.
    Timestamps are Unix seconds, as amoCRM returns them. */
module AmoCrm {
  import opened Collections
  import opened Text

  const SecondsPerDay := 86400
  /** Budget from which a lead is a VIP ("500K+"). */
  const VipBudget := 500000
  /** Budget from which a lead is important ("100K+"). */
  const ImportantBudget := 100000
  /** Most results `searchLeads` returns. */
  const SearchLimit := 10

  datatype Task = Task(
    id: int,
    text: string,
    entityId: int,
    completeTill: int,
    createdAt: int,
    isCompleted: bool)

  /** A lead as listed by the CRM. A missing `price` is 0; `updatedAt` is
      `None` when the field is absent. */
  datatype Lead = Lead(
    id: int,
    name: string,
    price: int,
    statusId: int,
    pipelineId: int,
    createdAt: int,
    updatedAt: Option<int>,
    tasks: seq<Task>)

  /** `lead.updated_at || now`: an absent or zero timestamp reads as "now". */
  function UpdatedOrNow(updatedAt: Option<int>, now: int): int {
    match updatedAt
    case Some(u) => if u != 0 then u else now
    case None => now
  }

  /** Seconds since the lead's last update, with the `|| now` default. */
  function SecondsSinceUpdate(lead: Lead, now: int): int {
    now - UpdatedOrNow(lead.updatedAt, now)
  }

  /** `(now - (updated_at || now)) / 86400 > days`, the staleness test,
      stated without division. */
  predicate StaleMoreThan(lead: Lead, now: int, days: int) {
    SecondsSinceUpdate(lead, now) > days * SecondsPerDay
  }

  /** Some task is not completed. */
  predicate HasActiveTasks(tasks: seq<Task>) {
    exists i :: 0 <= i < |tasks| && !tasks[i].isCompleted
  }

  // ---------------------------------------------------------------- leads

  /** `getLeadsByRiskLevel(minDays)`: the leads at least `minDays` days
      old, in list order. */
  function LeadsByRiskLevel(leads: seq<Lead>, now: int, minDays: int): (r: seq<Lead>)
    ensures forall l :: l in r <==> l in leads && SecondsSinceUpdate(l, now) >= minDays * SecondsPerDay
    ensures forall l :: l in leads && l.updatedAt.None? ==> (l in r <==> minDays <= 0)
    ensures IsSubseq(r, leads)
  {
    var p := (l: Lead) => SecondsSinceUpdate(l, now) >= minDays * SecondsPerDay;
    FilterIsSubseq(leads, p);
    Filter(leads, p)
  }

  predicate IsVip(l: Lead) {
    l.price >= VipBudget
  }

  predicate IsImportant(l: Lead) {
    ImportantBudget <= l.price < VipBudget
  }

  predicate AtLeastImportant(l: Lead) {
    l.price >= ImportantBudget
  }

  /** `getVIPLeads`: leads whose budget is at least 500000. */
  function VipLeads(leads: seq<Lead>): (r: seq<Lead>)
    ensures forall l :: l in r <==> l in leads && l.price >= VipBudget
  {
    Filter(leads, IsVip)
  }

  /** `getImportantLeads`: leads whose budget is in [100000, 500000). */
  function ImportantLeads(leads: seq<Lead>): (r: seq<Lead>)
    ensures forall l :: l in r <==> l in leads && ImportantBudget <= l.price < VipBudget
  {
    Filter(leads, IsImportant)
  }

  /** No lead is both VIP and important, and together, counted with
      multiplicity, they are exactly the leads with a budget of at least
      100000. */
  lemma VipImportantPartition(leads: seq<Lead>)
    ensures forall l :: !(l in VipLeads(leads) && l in ImportantLeads(leads))
    ensures multiset(VipLeads(leads)) + multiset(ImportantLeads(leads))
         == multiset(Filter(leads, AtLeastImportant))
  {
    var big := Filter(leads, AtLeastImportant);
    FilterFilter(leads, AtLeastImportant, IsVip, IsVip);
    FilterFilter(leads, AtLeastImportant, IsImportant, IsImportant);
    FilterPartition(big, IsVip, IsImportant);
  }

  /** The search condition: the lower-cased name contains the lower-cased
      query, or the decimal id equals the query exactly. */
  predicate MatchesQuery(l: Lead, query: string) {
    Contains(Lower(l.name), Lower(query)) || IntToString(l.id) == query
  }

  /** `searchLeads(query)`: the first ten matching leads, in list order. */
  function SearchLeads(leads: seq<Lead>, query: string): (r: seq<Lead>)
    ensures |r| <= SearchLimit
    ensures forall l :: l in r ==> l in leads && MatchesQuery(l, query)
    ensures |r| < SearchLimit ==> forall l :: l in leads && MatchesQuery(l, query) ==> l in r
    ensures IsSubseq(r, leads)
    ensures var matches := Filter(leads, (l: Lead) => MatchesQuery(l, query));
      |r| <= |matches| && r == matches[..|r|]
  {
    var p := (l: Lead) => MatchesQuery(l, query);
    var matches := Filter(leads, p);
    var r := if |matches| <= SearchLimit then matches else matches[..SearchLimit];
    FilterIsSubseq(leads, p);
    SubseqPrefix(matches, leads, |r|);
    assert r == matches[..|r|];
    r
  }

  // ------------------------------------------------------------- statuses

  datatype Status = Status(id: int, name: string)
  datatype Pipeline = Pipeline(id: int, name: string, statuses: seq<Status>)
  datatype StatusMatch = StatusMatch(id: int, name: string, pipelineId: int, pipelineName: string)

  function AsMatch(p: Pipeline, s: Status): StatusMatch {
    StatusMatch(s.id, s.name, p.id, p.name)
  }

  function StatusCandidates(p: Pipeline, ss: seq<Status>): (r: seq<StatusMatch>)
    ensures |r| == |ss|
    decreases |ss|
  {
    if ss == [] then [] else [AsMatch(p, ss[0])] + StatusCandidates(p, ss[1..])
  }

  /** Every status of every pipeline, pipeline by pipeline, in list order:
      the order in which `findStatusByName` visits them. */
  function Candidates(ps: seq<Pipeline>): seq<StatusMatch>
    decreases |ps|
  {
    if ps == [] then [] else StatusCandidates(ps[0], ps[0].statuses) + Candidates(ps[1..])
  }

  predicate NameMatches(name: string, query: string) {
    Contains(Lower(name), Lower(query))
  }

  /** `cs[k]` matches and nothing before it does. */
  predicate IsFirstMatch(cs: seq<StatusMatch>, query: string, k: int) {
    0 <= k < |cs| && NameMatches(cs[k].name, query)
    && forall j :: 0 <= j < k ==> !NameMatches(cs[j].name, query)
  }

  /** The inner loop of `findStatusByName`. */
  function FindInStatuses(p: Pipeline, ss: seq<Status>, query: string): Option<StatusMatch>
    decreases |ss|
  {
    if ss == [] then None
    else if NameMatches(ss[0].name, query) then Some(AsMatch(p, ss[0]))
    else FindInStatuses(p, ss[1..], query)
  }

  /** `findStatusByName(name)`: the nested loop over pipelines and their
      statuses, returning at the first status whose name contains the
      query, case-insensitively; `None` (`null`) when nothing matches. */
  function FindStatusByName(ps: seq<Pipeline>, query: string): Option<StatusMatch>
    decreases |ps|
  {
    if ps == [] then None
    else match FindInStatuses(ps[0], ps[0].statuses, query)
      case Some(m) => Some(m)
      case None => FindStatusByName(ps[1..], query)
  }

  /** `r` is the outcome of a first-match search over `cs`: `None` when
      nothing in `cs` matches, otherwise the first element that does. */
  ghost predicate IsFirstMatchResult(cs: seq<StatusMatch>, query: string, r: Option<StatusMatch>) {
    match r
    case None => forall k :: 0 <= k < |cs| ==> !NameMatches(cs[k].name, query)
    case Some(m) => exists k :: IsFirstMatch(cs, query, k) && cs[k] == m
  }

  lemma {:induction false} FindInStatusesIsFirst(p: Pipeline, ss: seq<Status>, query: string)
    ensures IsFirstMatchResult(StatusCandidates(p, ss), query, FindInStatuses(p, ss, query))
    decreases |ss|
  {
    if ss != [] {
      FindInStatusesIsFirst(p, ss[1..], query);
      var cs := StatusCandidates(p, ss);
      var rest := StatusCandidates(p, ss[1..]);
      assert cs[0] == AsMatch(p, ss[0]) && cs[1..] == rest;
      if NameMatches(ss[0].name, query) {
        assert FindInStatuses(p, ss, query) == Some(cs[0]);
        assert IsFirstMatch(cs, query, 0);
      } else {
        assert FindInStatuses(p, ss, query) == FindInStatuses(p, ss[1..], query);
        match FindInStatuses(p, ss[1..], query)
        case None =>
          forall k | 0 <= k < |cs| ensures !NameMatches(cs[k].name, query) {
            if k > 0 { assert cs[k] == rest[k - 1]; }
          }
        case Some(m) =>
          var k :| IsFirstMatch(rest, query, k) && rest[k] == m;
          assert cs[k + 1] == rest[k];
          forall j | 0 <= j < k + 1 ensures !NameMatches(cs[j].name, query) {
            if j > 0 { assert cs[j] == rest[j - 1]; }
          }
          assert IsFirstMatch(cs, query, k + 1);
      }
    }
  }

  /** `findStatusByName` returns the first matching status in
      pipeline-then-status order, and `None` exactly when no status matches. */
  lemma {:induction false} FindStatusByNameIsFirst(ps: seq<Pipeline>, query: string)
    ensures IsFirstMatchResult(Candidates(ps), query, FindStatusByName(ps, query))
    decreases |ps|
  {
    if ps != [] {
      FindInStatusesIsFirst(ps[0], ps[0].statuses, query);
      FindStatusByNameIsFirst(ps[1..], query);
      var head := StatusCandidates(ps[0], ps[0].statuses);
      var rest := Candidates(ps[1..]);
      var cs := Candidates(ps);
      assert cs == head + rest;
      match FindInStatuses(ps[0], ps[0].statuses, query)
      case Some(m) =>
        var k :| IsFirstMatch(head, query, k) && head[k] == m;
        assert cs[k] == head[k];
        forall j | 0 <= j < k ensures !NameMatches(cs[j].name, query) {
          assert cs[j] == head[j];
        }
        assert IsFirstMatch(cs, query, k);
      case None =>
        assert forall k :: 0 <= k < |head| ==> !NameMatches(head[k].name, query);
        match FindStatusByName(ps[1..], query)
        case None =>
          forall k | 0 <= k < |cs| ensures !NameMatches(cs[k].name, query) {
            if k < |head| { assert cs[k] == head[k]; } else { assert cs[k] == rest[k - |head|]; }
          }
        case Some(m) =>
          var k :| IsFirstMatch(rest, query, k) && rest[k] == m;
          assert cs[|head| + k] == rest[k];
          forall j | 0 <= j < |head| + k ensures !NameMatches(cs[j].name, query) {
            if j < |head| { assert cs[j] == head[j]; } else { assert cs[j] == rest[j - |head|]; }
          }
          assert IsFirstMatch(cs, query, |head| + k);
    }
  }

  // ---------------------------------------------------------------- tasks

  /** `getOverdueTasks`: the (incomplete) tasks whose deadline has passed. */
  function OverdueTasks(tasks: seq<Task>, now: int): (r: seq<Task>)
    ensures forall t :: t in r <==> t in tasks && t.completeTill < now
  {
    Filter(tasks, (t: Task) => t.completeTill < now)
  }

  /** A time in milliseconds lies in the local day [startOfDayMs, endOfDayMs]. */
  predicate InDay(ms: int, startOfDayMs: int, endOfDayMs: int) {
    startOfDayMs <= ms <= endOfDayMs
  }

  /** The filter of `getTasksForToday`: deadline today or created today.
      The day bounds are the local midnight and 23:59:59.999, in milliseconds. */
  function TasksForToday(tasks: seq<Task>, startOfDayMs: int, endOfDayMs: int): (r: seq<Task>)
    ensures forall t :: t in r <==>
      t in tasks && (InDay(t.completeTill * 1000, startOfDayMs, endOfDayMs)
                     || InDay(t.createdAt * 1000, startOfDayMs, endOfDayMs))
  {
    Filter(tasks, (t: Task) => InDay(t.completeTill * 1000, startOfDayMs, endOfDayMs)
                            || InDay(t.createdAt * 1000, startOfDayMs, endOfDayMs))
  }
}
