/** The new-service-order form: a client select fed by the distinct client
    names, an equipment select over all equipment, three text fields, and a
    submit that only returns to the previous screen. */
module NewServiceOrder {
  import opened Seqs
  import opened Types
  import opened Navigation

  /** `[...new Set(serviceOrders.map(so => so.client.name))]` */
  function Clients(orders: seq<ServiceOrder>): (r: seq<string>)
    ensures NoDuplicates(r)
    ensures forall i :: 0 <= i < |r| ==> exists j :: 0 <= j < |orders| && orders[j].client.name == r[i]
    ensures forall j :: 0 <= j < |orders| ==> orders[j].client.name in r
  {
    var names := ClientNames(orders);
    var r := Distinct(names);
    assert forall i :: 0 <= i < |r| ==> r[i] in names;
    r
  }

  function ClientNames(orders: seq<ServiceOrder>): (names: seq<string>)
    ensures |names| == |orders| && forall j :: 0 <= j < |orders| ==> names[j] == orders[j].client.name
  {
    seq(|orders|, j requires 0 <= j < |orders| => orders[j].client.name)
  }

  /** The client options appear in the order in which each name first occurs. */
  lemma ClientsInFirstOccurrenceOrder(orders: seq<ServiceOrder>, i: nat, j: nat)
    requires i < j < |Clients(orders)|
    ensures Clients(orders)[i] in ClientNames(orders) && Clients(orders)[j] in ClientNames(orders)
    ensures FirstIndex(ClientNames(orders), Clients(orders)[i]) < FirstIndex(ClientNames(orders), Clients(orders)[j])
  {
    DistinctFirstOccurrenceOrder(ClientNames(orders), i, j);
  }

  /** An `<option>`: the submitted value and the text shown. */
  datatype SelectOption = SelectOption(value: string, text: string)

  /** The equipment options: every equipment, valued by its id, whatever client
      is selected. */
  function EquipmentOptions(equipments: seq<Equipment>): (r: seq<SelectOption>)
    ensures |r| == |equipments|
    ensures forall i :: 0 <= i < |r| ==>
      r[i].value == equipments[i].id && r[i].text == equipments[i].name + " (" + equipments[i].serial + ")"
  {
    seq(|equipments|, i requires 0 <= i < |equipments| =>
      SelectOption(equipments[i].id, equipments[i].name + " (" + equipments[i].serial + ")"))
  }

  /** The five form fields, each marked `required`. */
  datatype Field = ClientField | EquipmentField | ServiceTypeField | DescriptionField | ScheduleDateField

  class NewServiceOrderForm {
    var client: string
    var equipment: string
    var serviceType: string
    var description: string
    var scheduleDate: string

    constructor ()
      ensures client == "" && equipment == "" && serviceType == "" && description == "" && scheduleDate == ""
    {
      client, equipment, serviceType, description, scheduleDate := "", "", "", "", "";
    }

    function Get(f: Field): string
      reads this
    {
      match f
      case ClientField => client
      case EquipmentField => equipment
      case ServiceTypeField => serviceType
      case DescriptionField => description
      case ScheduleDateField => scheduleDate
    }

    /** A field's `onChange`. */
    method Set(f: Field, value: string)
      modifies this
      ensures Get(f) == value
      ensures forall g :: g != f ==> Get(g) == old(Get(g))
    {
      match f
      case ClientField => client := value;
      case EquipmentField => equipment := value;
      case ServiceTypeField => serviceType := value;
      case DescriptionField => description := value;
      case ScheduleDateField => scheduleDate := value;
    }

    /** The browser lets the form submit only when no required field is empty.
        A value of spaces counts as filled. */
    predicate CanSubmit()
      reads this
    {
      forall f: Field :: Get(f) != ""
    }

    /** Pressing "Criar Ordem de Serviço": when every field is filled the
        handler logs, alerts and goes back one screen; otherwise the browser
        blocks the submit. The order collections are not touched. */
    method Submit(app: App) returns (submitted: bool)
      requires app.Valid()
      modifies app
      ensures app.Valid()
      ensures submitted == old(CanSubmit())
      ensures submitted ==> app.navigationStack == Popped(old(app.navigationStack))
      ensures !submitted ==> app.navigationStack == old(app.navigationStack)
      ensures app.isDarkMode == old(app.isDarkMode)
    {
      submitted := client != "" && equipment != "" && serviceType != "" && description != "" && scheduleDate != "";
      assert submitted == CanSubmit() by {
        assert Get(ClientField) == client && Get(EquipmentField) == equipment;
        assert Get(ServiceTypeField) == serviceType && Get(DescriptionField) == description;
        assert Get(ScheduleDateField) == scheduleDate;
      }
      if submitted {
        app.GoBack();
      }
    }
  }

  /** A freshly opened form cannot be submitted. */
  method FreshFormBlocked(app: App) returns (submitted: bool)
    requires app.Valid()
    modifies app
    ensures !submitted && app.navigationStack == old(app.navigationStack)
  {
    var form := new NewServiceOrderForm();
    assert form.Get(ClientField) == "";
    submitted := form.Submit(app);
  }
}
