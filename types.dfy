/** The domain entities of the field-service application. Every entity is
    a value: the core never creates, changes or deletes one. */
module Types {
  import opened Wrappers

  /** The seven statuses a service order can have; each has a Portuguese
      display string, which is also the value compared by the list filter. */
  datatype ServiceOrderStatus =
    | Pending
    | ForQuote
    | QuoteSent
    | AwaitingParts
    | Started
    | Completed
    | ForStart

  function StatusText(s: ServiceOrderStatus): string
  {
    match s
    case Pending => "Pendente"
    case ForQuote => "Para Orçamento"
    case QuoteSent => "Orçamento Enviado"
    case AwaitingParts => "Aguardando Peças"
    case Started => "Iniciada"
    case Completed => "Concluída"
    case ForStart => "Por Iniciar"
  }

  /** The status whose display string is `t`, if any. */
  function StatusOfText(t: string): (r: Option<ServiceOrderStatus>)
    ensures r.Some? ==> StatusText(r.value) == t
    ensures r.None? ==> forall s :: StatusText(s) != t
  {
    if t == "Pendente" then Some(Pending)
    else if t == "Para Orçamento" then Some(ForQuote)
    else if t == "Orçamento Enviado" then Some(QuoteSent)
    else if t == "Aguardando Peças" then Some(AwaitingParts)
    else if t == "Iniciada" then Some(Started)
    else if t == "Concluída" then Some(Completed)
    else if t == "Por Iniciar" then Some(ForStart)
    else None
  }

  /** Distinct statuses have distinct display strings. */
  lemma StatusTextInjective(a: ServiceOrderStatus, b: ServiceOrderStatus)
    ensures StatusText(a) == StatusText(b) <==> a == b
  {
    assert StatusOfText(StatusText(a)) == Some(a);
    assert StatusOfText(StatusText(b)) == Some(b);
  }

  datatype Client = Client(id: string, name: string, phone: string, email: string, address: string)

  datatype EquipmentStatus = Active | Inactive

  function EquipmentStatusText(s: EquipmentStatus): string
  {
    match s
    case Active => "Ativo"
    case Inactive => "Inativo"
  }

  datatype AttachmentKind = Pdf | Doc

  datatype Attachment = Attachment(id: string, name: string, size: string, date: string, kind: AttachmentKind)

  datatype ServiceRecord = ServiceRecord(id: string, title: string, technician: string, date: string, observations: string)

  datatype Equipment = Equipment(
    id: string,
    name: string,
    kind: string,   // `type` in the source: a free-text category
    serial: string,
    model: string,
    status: EquipmentStatus,
    location: string,
    installDate: string,
    lastMaintenance: string,
    nextMaintenance: string,
    attachments: seq<Attachment>,
    serviceHistory: seq<ServiceRecord>)

  datatype HistoryEntry = HistoryEntry(id: string, action: string, date: string)

  datatype ServiceOrder = ServiceOrder(
    id: string,
    osNumber: string,
    client: Client,
    status: ServiceOrderStatus,
    serviceType: string,
    date: string,
    time: string,
    description: string,
    scheduled: string,
    equipment: seq<Equipment>,
    history: seq<HistoryEntry>)

  function OrderId(o: ServiceOrder): string { o.id }

  function EquipmentId(e: Equipment): string { e.id }

  /** `xs.find(x => x.id === id)`, with `idOf` reading the id: the first
      element with that id. An undefined id equals no element's id. */
  function FindById<T>(xs: seq<T>, idOf: T -> string, id: Option<string>): (r: Option<T>)
    ensures r.None? <==> id.None? || forall i :: 0 <= i < |xs| ==> idOf(xs[i]) != id.value
    ensures r.Some? ==> exists i ::
      && 0 <= i < |xs|
      && xs[i] == r.value
      && idOf(r.value) == id.value
      && (forall j :: 0 <= j < i ==> idOf(xs[j]) != id.value)
  {
    if id.None? || |xs| == 0 then None
    else if idOf(xs[0]) == id.value then Some(xs[0])
    else
      var r := FindById(xs[1..], idOf, id);
      assert forall i :: 1 <= i < |xs| ==> xs[i] == xs[1..][i - 1];
      r
  }
}
