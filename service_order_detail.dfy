/** The service-order detail screen: the order looked up by id, the date
    and time shown for its appointment, its equipment and history lists,
    and the buttons that navigate from it. */
module ServiceOrderDetail {
  import opened Wrappers
  import opened Text
  import opened Types
  import opened Navigation

  /** `order.scheduled.split(' ')[0]`: the date shown after "Agendado para". */
  function ScheduledDate(o: ServiceOrder): (r: string)
    ensures |r| <= |o.scheduled| && r == o.scheduled[..|r|]
    ensures ' ' !in r
    ensures |r| == |o.scheduled| || o.scheduled[|r|] == ' '
  {
    FirstToken(o.scheduled)
  }

  /** The time shown: the first parenthesised group of `scheduled` when it
      has a `(`, else the order's `time`. A `(` without a well-formed group
      shows nothing. */
  function ScheduledTime(o: ServiceOrder): Option<string>
  {
    if '(' in o.scheduled then ParenGroup(o.scheduled) else Some(o.time)
  }

  /** Without a `(` the order's own time is shown. */
  lemma TimeWithoutParenthesis(o: ServiceOrder)
    requires '(' !in o.scheduled
    ensures ScheduledTime(o) == Some(o.time)
  {
  }

  /** With a `(`, the time shown is the text between the leftmost `(` that
      starts a group and the first `)` after it: non-empty, without `)`. It is
      undefined exactly when no such group exists. */
  lemma TimeFromParenthesis(o: ServiceOrder)
    requires '(' in o.scheduled
    ensures ScheduledTime(o).None? <==> forall a, b :: !GroupAt(o.scheduled, a, b)
    ensures ScheduledTime(o).Some? ==>
      |ScheduledTime(o).value| > 0 && ')' !in ScheduledTime(o).value
      && (exists a, b ::
            && GroupAt(o.scheduled, a, b)
            && ScheduledTime(o).value == o.scheduled[a + 1..b]
            && (forall a', b' :: GroupAt(o.scheduled, a', b') ==> a <= a'))
  {
    if ParenGroup(o.scheduled).Some? { ParenGroupShape(o.scheduled); }
  }

  datatype HistoryIcon = UserIcon | CheckCircleIcon

  /** A history entry shows the user icon when its action mentions an
      assignment (case-sensitive). */
  function HistoryIconFor(action: string): (r: HistoryIcon)
    ensures r == UserIcon <==> Contains(action, "atribuído")
  {
    if Contains(action, "atribuído") then UserIcon else CheckCircleIcon
  }

  datatype ItemIcon = SnowflakeIcon | RefrigeratorIcon

  /** An equipment entry shows the snowflake when its lowercased name contains "ar". */
  function EquipmentIconFor(name: string): (r: ItemIcon)
    ensures r == SnowflakeIcon <==> Contains(ToLower(name), "ar")
  {
    if Contains(ToLower(name), "ar") then SnowflakeIcon else RefrigeratorIcon
  }

  datatype EquipmentItem = EquipmentItem(id: string, name: string, model: string, icon: ItemIcon)

  datatype HistoryItem = HistoryItem(action: string, date: string, icon: HistoryIcon)

  /** What the screen shows: the not-found message, or the order with its
      derived fields. */
  datatype DetailView =
    | NotFound
    | Found(order: ServiceOrder, date: string, time: Option<string>,
            equipmentItems: seq<EquipmentItem>, historyItems: seq<HistoryItem>)

  function EquipmentItems(equipment: seq<Equipment>): (r: seq<EquipmentItem>)
    ensures |r| == |equipment|
    ensures forall i :: 0 <= i < |r| ==>
      && r[i].id == equipment[i].id
      && r[i].name == equipment[i].name
      && r[i].model == equipment[i].model
      && r[i].icon == EquipmentIconFor(equipment[i].name)
  {
    seq(|equipment|, i requires 0 <= i < |equipment| =>
      var eq := equipment[i]; EquipmentItem(eq.id, eq.name, eq.model, EquipmentIconFor(eq.name)))
  }

  function HistoryItems(history: seq<HistoryEntry>): (r: seq<HistoryItem>)
    ensures |r| == |history|
    ensures forall i :: 0 <= i < |r| ==>
      && r[i].action == history[i].action
      && r[i].date == history[i].date
      && r[i].icon == HistoryIconFor(history[i].action)
  {
    seq(|history|, i requires 0 <= i < |history| =>
      var h := history[i]; HistoryItem(h.action, h.date, HistoryIconFor(h.action)))
  }

  /** The screen for `serviceOrderId`: not found for an undefined id or one no
      order carries, otherwise the first order with that id. */
  function DetailScreen(orders: seq<ServiceOrder>, serviceOrderId: Option<string>): (v: DetailView)
    ensures v.NotFound? <==> serviceOrderId.None? || forall i :: 0 <= i < |orders| ==> orders[i].id != serviceOrderId.value
    ensures v.Found? ==> v.order.id == serviceOrderId.value && v.order in orders
    ensures v.Found? ==> exists i ::
      && 0 <= i < |orders|
      && orders[i] == v.order
      && (forall j :: 0 <= j < i ==> orders[j].id != serviceOrderId.value)
    ensures v.Found? ==> v.date == ScheduledDate(v.order) && v.time == ScheduledTime(v.order)
    ensures v.Found? ==>
      v.equipmentItems == EquipmentItems(v.order.equipment) && v.historyItems == HistoryItems(v.order.history)
  {
    match FindById(orders, OrderId, serviceOrderId)
    case None => NotFound
    case Some(o) =>
      Found(o, ScheduledDate(o), ScheduledTime(o), EquipmentItems(o.equipment), HistoryItems(o.history))
  }

  /** The buttons of the screen. */
  datatype DetailAction =
    | Back                      // the header arrow, or "Voltar" when not found
    | SelectEquipment(i: nat)   // the i-th equipment entry
    | ManageEquipment           // "Gerenciar Equipamentos"
    | NavigateButton            // "Navegar", which has no handler
    | StartService              // "Iniciar Serviço"

  /** What pressing a button does; None when the screen does not show it. */
  function ActionEffect(v: DetailView, a: DetailAction): (r: Option<Effect>)
    ensures a == Back ==> r == Some(Pop)
    ensures v.NotFound? ==> (r.Some? <==> a == Back)
    ensures v.Found? && a.SelectEquipment? ==> (r.Some? <==> a.i < |v.order.equipment|)
    ensures v.Found? && a.SelectEquipment? && r.Some? ==>
      r.value == Push(Frame(EquipmentDetail, EquipmentParams(v.order.equipment[a.i].id)))
    ensures v.Found? && a == ManageEquipment ==> r == Some(Push(Frame(EquipmentList, None)))
    ensures v.Found? && a == StartService ==> r == Some(Push(Frame(ExecuteServiceOrder, OrderParams(v.order.id))))
    ensures v.Found? && a == NavigateButton ==> r == Some(NoOp)
  {
    match a
    case Back => Some(Pop)
    case SelectEquipment(i) =>
      if v.Found? && i < |v.order.equipment| then Some(Push(Frame(EquipmentDetail, EquipmentParams(v.order.equipment[i].id))))
      else None
    case ManageEquipment => if v.Found? then Some(Push(Frame(EquipmentList, None))) else None
    case NavigateButton => if v.Found? then Some(NoOp) else None
    case StartService => if v.Found? then Some(Push(Frame(ExecuteServiceOrder, OrderParams(v.order.id)))) else None
  }

  /** Starting the service from a found order opens the execution screen for
      that same order. */
  lemma StartServiceRoutesToSameOrder(orders: seq<ServiceOrder>, id: string, isDarkMode: bool, stack: seq<Frame>)
    requires DetailScreen(orders, Some(id)).Found?
    ensures var e := ActionEffect(DetailScreen(orders, Some(id)), StartService).value;
      RenderScreen(Current(Apply(stack, e)), isDarkMode) == ExecuteServiceOrderView(Some(id))
  {
  }
}
