/**
 * DashboardView: the ticket list. Tickets are filtered by the `status`
 * query parameter ("T", the default, shows all), ordered newest first,
 * and each shown ticket's `recently_updated` flag is recomputed as "last
 * updated within the past seven days".
 */
module Dashboard {
  import opened Wrappers
  import opened Tickets

  /** `paginate_by`: tickets per page. */
  const PaginateBy: nat := 6

  /** The filter value that shows every ticket. */
  const AllStatuses: string := "T"

  /** Seven days in microseconds, the unit of the model's timestamps. */
  const Week: int := 7 * 24 * 3600 * 1000000

  /** `request.GET.get('status', 'T')`. */
  function SelectedStatus(param: Option<string>): string {
    if param.Some? then param.value else AllStatuses
  }

  /** Updated no earlier than seven days before `now`; the boundary counts as recent. */
  predicate IsRecent(atualizadoEm: int, now: int) {
    atualizadoEm >= now - Week
  }

  /** `Ticket.objects.all()` for "T", `filter(status=status)` otherwise. */
  predicate Shown(t: Ticket, status: string)
    reads t
  {
    status == AllStatuses || t.status == status
  }

  /** The tickets the filter keeps, in table order. */
  function FilterByStatus(ts: seq<Ticket>, status: string): seq<Ticket>
    reads ts
  {
    if ts == [] then []
    else (if Shown(ts[0], status) then [ts[0]] else []) + FilterByStatus(ts[1..], status)
  }

  /**
   * The filter keeps exactly the shown tickets, none twice more than the
   * table holds them, and with "T" it keeps the whole table.
   */
  lemma {:induction false} FilterByStatusKeepsShown(ts: seq<Ticket>, status: string)
    ensures var r := FilterByStatus(ts, status);
      && (forall t :: t in r <==> t in ts && Shown(t, status))
      && multiset(r) <= multiset(ts)
      && (status == AllStatuses ==> r == ts)
  {
    if ts != [] {
      FilterByStatusKeepsShown(ts[1..], status);
      assert ts == [ts[0]] + ts[1..];
    }
  }

  /** `order_by('-criado_em')`: creation times never increase along the list. */
  predicate NewestFirst(ts: seq<Ticket>) {
    forall i, j :: 0 <= i < j < |ts| ==> ts[i].criadoEm >= ts[j].criadoEm
  }

  function InsertByCreated(t: Ticket, ts: seq<Ticket>): seq<Ticket> {
    if ts == [] || t.criadoEm >= ts[0].criadoEm then [t] + ts
    else [ts[0]] + InsertByCreated(t, ts[1..])
  }

  /** One ordering the database may return: insertion sort, newest first. */
  function OrderByCreatedDesc(ts: seq<Ticket>): seq<Ticket> {
    if ts == [] then [] else InsertByCreated(ts[0], OrderByCreatedDesc(ts[1..]))
  }

  /** A ticket no younger than everything in a newest-first list can lead it. */
  lemma PrependNewest(x: Ticket, rest: seq<Ticket>)
    requires NewestFirst(rest)
    requires forall y :: y in rest ==> x.criadoEm >= y.criadoEm
    ensures NewestFirst([x] + rest)
  {
    var r := [x] + rest;
    forall i, j | 0 <= i < j < |r| ensures r[i].criadoEm >= r[j].criadoEm {
      assert r[j] == rest[j - 1];
      if i > 0 {
        assert r[i] == rest[i - 1];
      }
    }
  }

  /** In a newest-first list the head is no younger than anything after it. */
  lemma HeadBoundsRest(ts: seq<Ticket>)
    requires NewestFirst(ts) && ts != []
    ensures forall y :: y in ts[1..] ==> ts[0].criadoEm >= y.criadoEm
  {
    forall y | y in ts[1..] ensures ts[0].criadoEm >= y.criadoEm {
      var k :| 0 <= k < |ts[1..]| && ts[1..][k] == y;
      assert ts[k + 1] == y;
    }
  }

  lemma {:induction false} InsertByCreatedSorted(t: Ticket, ts: seq<Ticket>)
    requires NewestFirst(ts)
    ensures NewestFirst(InsertByCreated(t, ts))
    ensures multiset(InsertByCreated(t, ts)) == multiset(ts) + multiset{t}
  {
    if ts == [] {
      PrependNewest(t, ts);
    } else if t.criadoEm >= ts[0].criadoEm {
      HeadBoundsRest(ts);
      assert ts == [ts[0]] + ts[1..];
      PrependNewest(t, ts);
    } else {
      var rest := InsertByCreated(t, ts[1..]);
      InsertByCreatedSorted(t, ts[1..]);
      HeadBoundsRest(ts);
      assert ts == [ts[0]] + ts[1..];
      forall y | y in rest ensures ts[0].criadoEm >= y.criadoEm {
        assert y in multiset(rest);
        assert y == t || y in multiset(ts[1..]);
      }
      PrependNewest(ts[0], rest);
    }
  }

  /** The ordered list holds the same tickets, newest first. */
  lemma {:induction false} OrderByCreatedDescSorts(ts: seq<Ticket>)
    ensures NewestFirst(OrderByCreatedDesc(ts))
    ensures multiset(OrderByCreatedDesc(ts)) == multiset(ts)
  {
    if ts != [] {
      OrderByCreatedDescSorts(ts[1..]);
      InsertByCreatedSorted(ts[0], OrderByCreatedDesc(ts[1..]));
      assert ts == [ts[0]] + ts[1..];
    }
  }

  /** A change to `recently_updated` alone keeps a ticket valid. */
  lemma RecentlyUpdatedIsFree(s: TicketState, id: nat, b: bool)
    requires ValidState(s, id)
    ensures ValidState(s.(recentlyUpdated := b), id)
  {
  }

  /** The loop of `get_queryset`: each listed ticket's flag from its last update time. */
  method MarkRecent(tickets: seq<Ticket>, now: int)
    modifies tickets`recentlyUpdated
    ensures forall t :: t in tickets ==> t.recentlyUpdated == IsRecent(t.atualizadoEm, now)
  {
    var recentemente := now - Week;
    var i := 0;
    while i < |tickets|
      invariant 0 <= i <= |tickets|
      invariant forall k :: 0 <= k < i ==> tickets[k].recentlyUpdated == IsRecent(tickets[k].atualizadoEm, now)
    {
      tickets[i].recentlyUpdated := tickets[i].atualizadoEm >= recentemente;
      i := i + 1;
    }
    forall t | t in tickets ensures t.recentlyUpdated == IsRecent(t.atualizadoEm, now) {
      var k :| 0 <= k < |tickets| && tickets[k] == t;
    }
  }

  /** The query itself: filter, then order newest first. */
  method Select(ts: seq<Ticket>, status: string) returns (r: seq<Ticket>)
    ensures r == OrderByCreatedDesc(FilterByStatus(ts, status))
    ensures NewestFirst(r)
    ensures forall i :: 0 <= i < |r| ==> r[i] in ts
    ensures forall t :: t in r <==> t in ts && Shown(t, status)
  {
    var filtered := FilterByStatus(ts, status);
    FilterByStatusKeepsShown(ts, status);
    r := OrderByCreatedDesc(filtered);
    OrderByCreatedDescSorts(filtered);
    forall t ensures t in r <==> t in filtered {
      assert t in r <==> t in multiset(r);
    }
    forall i | 0 <= i < |r| ensures r[i] in ts {
      assert r[i] in multiset(r);
    }
  }

  /**
   * The loop run over listed tickets of the table: they get their flags;
   * the rest of the table, and every other field, stay as they were, so
   * the table stays valid and the status filter selects as before.
   */
  method MarkListed(store: TicketStore, tickets: seq<Ticket>, status: string, now: int)
    requires store.Valid()
    requires forall i :: 0 <= i < |tickets| ==> tickets[i] in store.tickets
    modifies store.tickets`recentlyUpdated
    ensures store.Valid()
    ensures forall t :: t in tickets ==> t.recentlyUpdated == IsRecent(t.atualizadoEm, now)
    ensures forall t :: t in store.tickets && t !in tickets ==> t.recentlyUpdated == old(t.recentlyUpdated)
    ensures forall t :: t in store.tickets ==> t.State() == old(t.State()).(recentlyUpdated := t.recentlyUpdated)
    ensures FilterByStatus(store.tickets, status) == old(FilterByStatus(store.tickets, status))
  {
    MarkRecent(tickets, now);
    forall t | t in store.tickets
      ensures t.State() == old(t.State()).(recentlyUpdated := t.recentlyUpdated) && t.Valid()
    {
      assert old(t.Valid());
      RecentlyUpdatedIsFree(old(t.State()), t.id, t.recentlyUpdated);
    }
    // Only flags changed, so the filter, suffix by suffix, selects as before.
    ghost var ts := store.tickets;
    ghost var k := 0;
    while k < |ts|
      invariant 0 <= k <= |ts|
      invariant old(FilterByStatus(ts[|ts| - k..], status)) == FilterByStatus(ts[|ts| - k..], status)
    {
      assert ts[|ts| - k - 1] in store.tickets;
      k := k + 1;
    }
    assert ts[|ts| - k..] == ts;
  }

  /**
   * `get_queryset`: the filtered tickets, newest first; every listed ticket
   * has `recently_updated` set exactly when it was updated within the past
   * week; tickets not listed, and every other field, stay as they were.
   * Filtering again afterwards gives the same list.
   */
  method GetQueryset(store: TicketStore, statusParam: Option<string>, now: int) returns (tickets: seq<Ticket>)
    requires store.Valid()
    modifies store.tickets`recentlyUpdated
    ensures store.Valid()
    ensures tickets == old(OrderByCreatedDesc(FilterByStatus(store.tickets, SelectedStatus(statusParam))))
    ensures tickets == OrderByCreatedDesc(FilterByStatus(store.tickets, SelectedStatus(statusParam)))
    ensures NewestFirst(tickets)
    ensures forall t :: t in tickets <==> t in store.tickets && old(Shown(t, SelectedStatus(statusParam)))
    ensures forall t :: t in tickets ==> t.recentlyUpdated == IsRecent(t.atualizadoEm, now)
    ensures forall t :: t in store.tickets && t !in tickets ==> t.recentlyUpdated == old(t.recentlyUpdated)
    ensures forall t :: t in store.tickets ==> t.State() == old(t.State()).(recentlyUpdated := t.recentlyUpdated)
  {
    var status := SelectedStatus(statusParam);
    tickets := Select(store.tickets, status);
    MarkListed(store, tickets, status, now);
  }

  /** What the dashboard template receives. */
  datatype DashboardContext = DashboardContext(
    tickets: seq<Ticket>,       // what the paginator pages through
    pageSize: nat,
    selectedStatus: string,
    referer: string,
    paginationParams: string)

  /**
   * `get_context_data`: recomputes the queryset, pages it six at a time,
   * and keeps the chosen filter in the pagination links.
   */
  method GetContextData(store: TicketStore, statusParam: Option<string>, referer: Option<string>, now: int)
    returns (ctx: DashboardContext)
    requires store.Valid()
    modifies store.tickets`recentlyUpdated
    ensures store.Valid()
    ensures ctx.tickets == old(OrderByCreatedDesc(FilterByStatus(store.tickets, SelectedStatus(statusParam))))
    ensures ctx.pageSize == PaginateBy && ctx.selectedStatus == SelectedStatus(statusParam)
    ensures ctx.referer == (if referer.Some? then referer.value else "/")
    ensures ctx.paginationParams == "&status=" + ctx.selectedStatus
    ensures forall t :: t in ctx.tickets ==> t.recentlyUpdated == IsRecent(t.atualizadoEm, now)
    ensures forall t :: t in store.tickets && t !in ctx.tickets ==> t.recentlyUpdated == old(t.recentlyUpdated)
    ensures forall t :: t in store.tickets ==> t.State() == old(t.State()).(recentlyUpdated := t.recentlyUpdated)
  {
    var tickets := GetQueryset(store, statusParam, now);
    var selected := SelectedStatus(statusParam);
    ctx := DashboardContext(tickets, PaginateBy, selected, if referer.Some? then referer.value else "/",
                            "&status=" + selected);
  }

  /**
   * A dashboard request: the list view builds its queryset and then the
   * context builds it again. The second pass finds the same tickets and
   * leaves the same flags, so the request ends as one pass would.
   */
  method Get(store: TicketStore, statusParam: Option<string>, referer: Option<string>, now: int)
    returns (ctx: DashboardContext)
    requires store.Valid()
    modifies store.tickets`recentlyUpdated
    ensures store.Valid()
    ensures ctx.tickets == old(OrderByCreatedDesc(FilterByStatus(store.tickets, SelectedStatus(statusParam))))
    ensures forall t :: t in ctx.tickets ==> t.recentlyUpdated == IsRecent(t.atualizadoEm, now)
    ensures forall t :: t in store.tickets && t !in ctx.tickets ==> t.recentlyUpdated == old(t.recentlyUpdated)
    ensures forall t :: t in store.tickets ==> t.State() == old(t.State()).(recentlyUpdated := t.recentlyUpdated)
  {
    var objectList := GetQueryset(store, statusParam, now);
    ctx := GetContextData(store, statusParam, referer, now);
  }
}
