/** The service-order list screen: a single-select status filter, a search
    box, and one card per visible order whose button depends on the
    order's status. */
module ServiceOrderList {
  import opened Wrappers
  import opened Seqs
  import opened Text
  import opened Types
  import opened Navigation

  /** The filter value that imposes no status constraint. */
  const AllFilter := "Todos"

  /** The selectable filters: only three of the seven statuses are offered. */
  const FilterChips: seq<string> := [AllFilter, "Por Iniciar", "Iniciada", "Para Orçamento"]

  /** The chips besides "Todos" are exactly the display strings of ForStart,
      Started and ForQuote. */
  lemma FilterChipsAreStatuses()
    ensures |FilterChips| == 4 && FilterChips[0] == AllFilter
    ensures forall i :: 1 <= i < |FilterChips| ==> StatusOfText(FilterChips[i]).Some?
    ensures forall s :: StatusText(s) in FilterChips <==> s in {ForStart, Started, ForQuote}
  {
  }

  predicate StatusKeeps(o: ServiceOrder, activeFilter: string)
  {
    activeFilter == AllFilter || StatusText(o.status) == activeFilter
  }

  /** The search part: the lowercased query occurs in the lowercased client
      name, client address or order number. */
  predicate SearchHit(o: ServiceOrder, query: string)
  {
    var q := ToLower(query);
    Contains(ToLower(o.client.name), q) || Contains(ToLower(o.client.address), q) || Contains(ToLower(o.osNumber), q)
  }

  /** A blank query keeps every order. */
  predicate QueryKeeps(o: ServiceOrder, query: string)
  {
    IsBlank(query) || SearchHit(o, query)
  }

  function StatusFn(activeFilter: string): ServiceOrder -> bool
  {
    (o: ServiceOrder) => StatusText(o.status) == activeFilter
  }

  function QueryFn(query: string): ServiceOrder -> bool
  {
    (o: ServiceOrder) => SearchHit(o, query)
  }

  function KeepsFn(activeFilter: string, query: string): ServiceOrder -> bool
  {
    (o: ServiceOrder) => StatusKeeps(o, activeFilter) && QueryKeeps(o, query)
  }

  /** `filteredServiceOrders`: first the status step, then the search step,
      each skipped when it imposes nothing. */
  function FilteredServiceOrders(orders: seq<ServiceOrder>, activeFilter: string, query: string): (r: seq<ServiceOrder>)
    ensures forall i :: 0 <= i < |r| ==> StatusKeeps(r[i], activeFilter) && QueryKeeps(r[i], query)
  {
    var byStatus := if activeFilter != AllFilter then Filter(orders, StatusFn(activeFilter)) else orders;
    if !IsBlank(query) then Filter(byStatus, QueryFn(query)) else byStatus
  }

  /** The two steps in sequence are one filter by the conjunction of both
      conditions, so the result keeps the orders' relative order. */
  lemma FilteredIsConjunction(orders: seq<ServiceOrder>, activeFilter: string, query: string)
    ensures FilteredServiceOrders(orders, activeFilter, query) == Filter(orders, KeepsFn(activeFilter, query))
    ensures IsSubsequence(FilteredServiceOrders(orders, activeFilter, query), orders)
  {
    var keeps := KeepsFn(activeFilter, query);
    if activeFilter != AllFilter {
      if !IsBlank(query) {
        FilterFilter(orders, StatusFn(activeFilter), QueryFn(query), keeps);
      } else {
        assert forall o :: keeps(o) == StatusFn(activeFilter)(o);
        FilterSame(orders, StatusFn(activeFilter), keeps);
      }
    } else {
      if !IsBlank(query) {
        assert forall o :: keeps(o) == QueryFn(query)(o);
        FilterSame(orders, QueryFn(query), keeps);
      } else {
        FilterAll(orders, keeps);
      }
    }
    FilterIsSubsequence(orders, keeps);
  }

  /** "Todos" keeps every order the search keeps, whatever the other filters keep. */
  lemma AllFilterIsWeakest(orders: seq<ServiceOrder>, activeFilter: string, query: string)
    ensures IsSubsequence(FilteredServiceOrders(orders, activeFilter, query), FilteredServiceOrders(orders, AllFilter, query))
  {
    FilteredIsConjunction(orders, activeFilter, query);
    FilteredIsConjunction(orders, AllFilter, query);
    FilterStrengthen(orders, KeepsFn(AllFilter, query), KeepsFn(activeFilter, query));
  }

  /** Whatever the query, a status chip lists only orders of that status. */
  lemma StatusFilterSound(orders: seq<ServiceOrder>, s: ServiceOrderStatus, query: string)
    ensures forall i :: 0 <= i < |FilteredServiceOrders(orders, StatusText(s), query)| ==>
      FilteredServiceOrders(orders, StatusText(s), query)[i].status == s
  {
    assert StatusText(s) != AllFilter;
    forall t: ServiceOrderStatus ensures StatusText(t) == StatusText(s) <==> t == s {
      StatusTextInjective(t, s);
    }
  }

  /** With a blank query a status chip keeps exactly the orders of that
      status, in order. */
  lemma StatusFilterExact(orders: seq<ServiceOrder>, s: ServiceOrderStatus, query: string)
    requires IsBlank(query)
    ensures forall i :: 0 <= i < |FilteredServiceOrders(orders, StatusText(s), query)| ==>
      FilteredServiceOrders(orders, StatusText(s), query)[i].status == s
    ensures forall i :: 0 <= i < |orders| && orders[i].status == s ==> orders[i] in FilteredServiceOrders(orders, StatusText(s), query)
  {
    StatusFilterSound(orders, s, query);
    assert StatusText(s) != AllFilter;
  }

  /** A card's button: its label, and what pressing it does to the stack. */
  datatype CardAction = CardAction(text: string, effect: Effect)

  /** `getAction`: orders to start and orders waiting for parts, and any other
      status, open the detail screen; started orders go straight to
      execution; quotes and completed orders do nothing. */
  function GetAction(o: ServiceOrder): (r: CardAction)
    ensures r.effect.Push? <==> o.status in {ForStart, Started, AwaitingParts, Pending}
    ensures r.effect.Push? ==>
      ServiceOrderIdOf(r.effect.frame.params) == Some(o.id) && EquipmentIdOf(r.effect.frame.params).None?
    ensures r.effect.Push? ==> r.effect.frame.screen == (if o.status == Started then ExecuteServiceOrder else ServiceOrderDetail)
    ensures !r.effect.Pop?
  {
    match o.status
    case ForStart => CardAction("Iniciar Serviço", Push(Frame(ServiceOrderDetail, OrderParams(o.id))))
    case Started => CardAction("Continuar", Push(Frame(ExecuteServiceOrder, OrderParams(o.id))))
    case ForQuote => CardAction("Gerar Orçamento", NoOp)
    case QuoteSent => CardAction("Ver Orçamento", NoOp)
    case AwaitingParts => CardAction("Ver Detalhes", Push(Frame(ServiceOrderDetail, OrderParams(o.id))))
    case Completed => CardAction("Ver Relatório", NoOp)
    case Pending => CardAction("Ver Detalhes", Push(Frame(ServiceOrderDetail, OrderParams(o.id))))
  }

  /** Pressing a card's button either pushes exactly one frame or leaves the
      stack alone. */
  lemma CardActionStack(o: ServiceOrder, stack: seq<Frame>)
    ensures var after := Apply(stack, GetAction(o).effect);
      if o.status in {ForQuote, QuoteSent, Completed} then after == stack
      else |after| == |stack| + 1 && after[..|stack|] == stack
  {
  }

  /** A status badge's colours. */
  datatype Style = Style(bg: string, text: string)

  /** `statusStyles` */
  const StatusStyles: map<ServiceOrderStatus, Style> := map[
    ForStart := Style("bg-brand-yellow-light", "text-brand-yellow-dark"),
    Started := Style("bg-brand-blue-light", "text-brand-blue-dark"),
    ForQuote := Style("bg-brand-red-light", "text-brand-red-dark"),
    QuoteSent := Style("bg-brand-orange-light", "text-brand-orange-dark"),
    AwaitingParts := Style("bg-brand-purple-light", "text-brand-purple-dark"),
    Completed := Style("bg-brand-green-light", "text-brand-green-dark"),
    Pending := Style("bg-brand-gray-200", "text-brand-gray-700")]

  /** Every status has a style. */
  lemma StatusStylesTotal(s: ServiceOrderStatus)
    ensures s in StatusStyles
  {
    assert StatusStyles.Keys == {ForStart, Started, ForQuote, QuoteSent, AwaitingParts, Completed, Pending};
  }

  /** `styles[status] || styles[Pending]`: a miss falls back to the Pending
      style (and is undefined when that is missing too). */
  function StyleLookup(styles: map<ServiceOrderStatus, Style>, s: ServiceOrderStatus): (r: Option<Style>)
    ensures r.None? <==> s !in styles && Pending !in styles
    ensures s in styles ==> r == Some(styles[s])
    ensures s !in styles && Pending in styles ==> r == Some(styles[Pending])
  {
    if s in styles then Some(styles[s]) else if Pending in styles then Some(styles[Pending]) else None
  }

  /** With the application's table the fallback is never taken. */
  lemma StatusStyleNeverFallsBack(s: ServiceOrderStatus)
    ensures StyleLookup(StatusStyles, s) == Some(StatusStyles[s])
  {
    StatusStylesTotal(s);
  }

  /** The list screen's own state. */
  class ServiceOrderListScreen {
    const serviceOrders: seq<ServiceOrder>
    var activeFilter: string
    var searchQuery: string

    constructor (serviceOrders: seq<ServiceOrder>)
      ensures this.serviceOrders == serviceOrders
      ensures activeFilter == AllFilter && searchQuery == ""
    {
      this.serviceOrders := serviceOrders;
      activeFilter := AllFilter;
      searchQuery := "";
    }

    /** A filter chip's `onClick`. */
    method SetActiveFilter(chip: string)
      modifies this
      ensures activeFilter == chip && searchQuery == old(searchQuery)
    {
      activeFilter := chip;
    }

    /** The search box's `onChange`. */
    method SetSearchQuery(q: string)
      modifies this
      ensures searchQuery == q && activeFilter == old(activeFilter)
    {
      searchQuery := q;
    }

    function Visible(): (r: seq<ServiceOrder>)
      reads this
      ensures forall i :: 0 <= i < |r| ==> StatusKeeps(r[i], activeFilter) && QueryKeeps(r[i], searchQuery)
      ensures r == Filter(serviceOrders, KeepsFn(activeFilter, searchQuery))
    {
      FilteredIsConjunction(serviceOrders, activeFilter, searchQuery);
      FilteredServiceOrders(serviceOrders, activeFilter, searchQuery)
    }
  }

  /** The profile button in the header. */
  function ProfileEffect(): Effect { Push(Frame(Profile, None)) }

  /** The floating + button. */
  function NewOrderEffect(): Effect { Push(Frame(NewServiceOrder, None)) }

  /** A freshly opened list shows every order. */
  method FreshListShowsAll(orders: seq<ServiceOrder>) returns (screen: ServiceOrderListScreen)
    ensures screen.Visible() == orders
  {
    screen := new ServiceOrderListScreen(orders);
    assert IsBlank("");
  }
}
