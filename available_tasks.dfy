/** The freelancer's task board: each listed task is marked as in one of the
    freelancer's domains or not, and eligible or not under the same bar the
    server applies on apply; a search keeps the tasks whose title or domain
    contains the query, ignoring case; and a successful application removes
    exactly that task from the list. */
module AvailableTasks {
  import opened Common
  import opened UserModel
  import opened TaskModel
  import opened TaskService
  import opened TaskRoutes

  /** `myDomains.find(...)`: the first summary whose name equals the domain,
      ignoring case. */
  function FindSummary(ds: seq<DomainSummary>, domain: string): (r: Option<DomainSummary>)
    ensures r.Some? ==> r.value in ds && SameName(r.value.domainName, domain)
    ensures r.None? <==> forall j :: 0 <= j < |ds| ==> !SameName(ds[j].domainName, domain)
    decreases |ds|
  {
    if ds == [] then None
    else if SameName(ds[0].domainName, domain) then Some(ds[0])
    else FindSummary(ds[1..], domain)
  }

  /** A task as the board shows it. */
  datatype Listed = Listed(task: Task, isInDomain: bool, isEligible: bool, userDomain: Option<DomainSummary>)

  /** One entry of `enriched`: in the domain when some summary matches; on
      the Individual board that is enough, on the Company board the matching
      summary must also show level 3, quality 4 and reliability 85. */
  function Annotate(t: Task, myDomains: seq<DomainSummary>, segment: Segment): Listed {
    var d := FindSummary(myDomains, t.domain);
    var eligible := d.Some? &&
      (segment == Individual || (d.value.level >= 3 && d.value.qualityScore >= 4.0 && d.value.reliabilityScore >= 85.0));
    Listed(t, d.Some?, eligible, d)
  }

  /** `enriched`: every task annotated, in order. */
  function AnnotateAll(ts: seq<Task>, myDomains: seq<DomainSummary>, segment: Segment): (r: seq<Listed>)
    ensures |r| == |ts|
    ensures forall i :: 0 <= i < |r| ==> r[i] == Annotate(ts[i], myDomains, segment)
    decreases |ts|
  {
    if ts == [] then [] else [Annotate(ts[0], myDomains, segment)] + AnnotateAll(ts[1..], myDomains, segment)
  }

  /** In the domain exactly when some summary's name matches; never eligible
      outside one's domains; on the Individual board eligible exactly when in
      the domain. */
  lemma AnnotateFlags(t: Task, myDomains: seq<DomainSummary>, segment: Segment)
    ensures var l := Annotate(t, myDomains, segment);
      && (l.isInDomain <==> exists j :: 0 <= j < |myDomains| && SameName(myDomains[j].domainName, t.domain))
      && (!l.isInDomain ==> !l.isEligible)
      && (segment == Individual ==> (l.isEligible <==> l.isInDomain))
  {
  }

  /** The summaries `my-domains` sends find the summary of the profile the
      server's `getDomain` finds. */
  lemma {:induction false} FindSummaryMirrorsGetDomain(ds: seq<DomainProfile>, domain: string, now: int)
    ensures FindSummary(MyDomains(ds, now), domain)
            == if GetDomain(ds, domain).Some? then Some(Summarize(GetDomain(ds, domain).value, now)) else None
    decreases |ds|
  {
    if ds != [] {
      MyDomainsSplit(ds, now);
      if !SameName(ds[0].domainName, domain) {
        FindSummaryMirrorsGetDomain(ds[1..], domain, now);
        GetDomainSkip(ds, domain);
      }
    }
  }

  /** The summaries of a non-empty list: the first profile's, then the rest's. */
  lemma MyDomainsSplit(ds: seq<DomainProfile>, now: int)
    requires ds != []
    ensures MyDomains(ds, now)[0] == Summarize(ds[0], now)
    ensures MyDomains(ds, now)[1..] == MyDomains(ds[1..], now)
  {
  }

  /** A first profile that does not match is skipped by the lookup. */
  lemma GetDomainSkip(ds: seq<DomainProfile>, domain: string)
    requires ds != [] && !SameName(ds[0].domainName, domain)
    ensures GetDomain(ds, domain) == GetDomain(ds[1..], domain)
  {
    match FindDomainIndex(ds[1..], domain)
    case None =>
    case Some(i) => assert ds[1..][i] == ds[i + 1];
  }

  /** The board and the server agree: on the board of the task's own segment,
      built from the freelancer's `my-domains` summaries, a task is eligible
      exactly when the apply service's domain and Company Zone checks would
      let the freelancer through. */
  lemma BoardGateMatchesServer(t: Task, freelancer: User, now: int)
    ensures var p := GetDomain(freelancer.domains, t.domain);
      Annotate(t, MyDomains(freelancer.domains, now), t.segment).isEligible
      <==> p.Some? && (t.segment == Company ==> MeetsCompanyZone(p.value))
  {
    FindSummaryMirrorsGetDomain(freelancer.domains, t.domain, now);
  }

  /** The search: the lower-cased query occurs in the lower-cased title or
      domain. */
  predicate MatchesSearch(t: Task, query: string) {
    Contains(Lower(t.title), Lower(query)) || Contains(Lower(t.domain), Lower(query))
  }

  /** `filtered`: the entries matching the search, in order. */
  function Filtered(ls: seq<Listed>, query: string): (r: seq<Listed>)
    ensures |r| <= |ls|
    ensures forall x :: x in r <==> x in ls && MatchesSearch(x.task, query)
    decreases |ls|
  {
    if ls == [] then []
    else (if MatchesSearch(ls[0].task, query) then [ls[0]] else []) + Filtered(ls[1..], query)
  }

  /** The search keeps the order of what it keeps: it distributes over
      concatenation. */
  lemma {:induction false} FilteredKeepsOrder(a: seq<Listed>, b: seq<Listed>, query: string)
    ensures Filtered(a + b, query) == Filtered(a, query) + Filtered(b, query)
    decreases |a|
  {
    if a == [] {
      assert a + b == b;
    } else {
      assert (a + b)[0] == a[0];
      assert (a + b)[1..] == a[1..] + b;
      FilteredKeepsOrder(a[1..], b, query);
    }
  }

  /** An empty search keeps every task, in order. */
  lemma {:induction false} EmptySearchKeepsAll(ls: seq<Listed>)
    ensures Filtered(ls, "") == ls
    decreases |ls|
  {
    if ls != [] {
      assert Lower("") == "";
      assert "" <= Lower(ls[0].task.title);
      EmptySearchKeepsAll(ls[1..]);
    }
  }

  /** `prev.filter(t => t._id !== taskId)`. */
  function WithoutTask(ts: seq<Task>, taskId: TaskId): (r: seq<Task>)
    ensures |r| <= |ts|
    ensures forall t :: t in r <==> t in ts && t.id != taskId
    decreases |ts|
  {
    if ts == [] then []
    else (if ts[0].id != taskId then [ts[0]] else []) + WithoutTask(ts[1..], taskId)
  }

  /** Removal keeps the order of what remains: it distributes over
      concatenation. */
  lemma {:induction false} WithoutTaskKeepsOrder(a: seq<Task>, b: seq<Task>, taskId: TaskId)
    ensures WithoutTask(a + b, taskId) == WithoutTask(a, taskId) + WithoutTask(b, taskId)
    decreases |a|
  {
    if a == [] {
      assert a + b == b;
    } else {
      assert (a + b)[0] == a[0];
      assert (a + b)[1..] == a[1..] + b;
      WithoutTaskKeepsOrder(a[1..], b, taskId);
    }
  }

  /** With ids unique on the board, removing a listed id removes exactly one
      task. */
  lemma {:induction false} WithoutTaskRemovesOne(ts: seq<Task>, k: nat)
    requires k < |ts|
    requires forall i, j :: 0 <= i < j < |ts| ==> ts[i].id != ts[j].id
    ensures |WithoutTask(ts, ts[k].id)| == |ts| - 1
    decreases |ts|
  {
    if k == 0 {
      WithoutAbsentTask(ts[1..], ts[0].id);
    } else {
      WithoutTaskRemovesOne(ts[1..], k - 1);
    }
  }

  /** Removing an id that is not listed changes nothing. */
  lemma {:induction false} WithoutAbsentTask(ts: seq<Task>, taskId: TaskId)
    requires forall i :: 0 <= i < |ts| ==> ts[i].id != taskId
    ensures WithoutTask(ts, taskId) == ts
    decreases |ts|
  {
    if ts != [] {
      WithoutAbsentTask(ts[1..], taskId);
    }
  }

  /** The board's state: the fetched tasks, the fetched `my-domains`
      summaries and the search box, for one segment. */
  class Board {
    const segment: Segment
    var tasks: seq<Task>
    var myDomains: seq<DomainSummary>
    var search: string

    constructor (segment: Segment, tasks: seq<Task>, myDomains: seq<DomainSummary>)
      ensures this.segment == segment && this.tasks == tasks && this.myDomains == myDomains && search == ""
    {
      this.segment := segment;
      this.tasks := tasks;
      this.myDomains := myDomains;
      search := "";
    }

    /** What the board renders: the fetched tasks, annotated against the
        summaries, that match the search. */
    function Visible(): (r: seq<Listed>)
      reads this
      ensures |r| <= |tasks|
      ensures forall x :: x in r <==>
        x.task in tasks && x == Annotate(x.task, myDomains, segment) && MatchesSearch(x.task, search)
    {
      Filtered(AnnotateAll(tasks, myDomains, segment), search)
    }

    /** `handleApply` after the apply request answered: on success exactly
      that task leaves the list and the rest keep their order; on failure
      the list stays. */
    method HandleApply(taskId: TaskId, succeeded: bool)
      modifies this
      ensures tasks == if succeeded then WithoutTask(old(tasks), taskId) else old(tasks)
      ensures myDomains == old(myDomains) && search == old(search)
      ensures succeeded ==> forall x :: x in Visible() ==> x.task.id != taskId
    {
      if succeeded {
        tasks := WithoutTask(tasks, taskId);
      }
    }
  }
}
