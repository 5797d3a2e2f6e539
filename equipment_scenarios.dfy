/** Worked examples of the equipment list's filters on the sample data. */
module EquipmentScenarios {
  import opened Wrappers
  import opened Seqs
  import opened Text
  import opened Types
  import opened SampleData
  import EquipmentList

  /** The sample equipment list, one element at a time. */
  lemma EquipmentsSplit()
    ensures Equipments == [E1] + [E2, E3, E4, E5]
    ensures [E2, E3, E4, E5] == [E2] + [E3, E4, E5]
    ensures [E3, E4, E5] == [E3] + [E4, E5]
    ensures [E4, E5] == [E4] + [E5]
    ensures [E5] == [E5] + []
  {
  }

  /** `Filter` over the sample equipment list is the concatenation of what
      each element contributes. */
  lemma FilterEquipments(p: Equipment -> bool, k1: seq<Equipment>, k2: seq<Equipment>,
                         k3: seq<Equipment>, k4: seq<Equipment>, k5: seq<Equipment>)
    requires k1 == (if p(E1) then [E1] else [])
    requires k2 == (if p(E2) then [E2] else [])
    requires k3 == (if p(E3) then [E3] else [])
    requires k4 == (if p(E4) then [E4] else [])
    requires k5 == (if p(E5) then [E5] else [])
    ensures Filter(Equipments, p) == k1 + (k2 + (k3 + (k4 + k5)))
  {
    EquipmentsSplit();
    FilterCons(E5, [], p);
    FilterCons(E4, [E5], p);
    FilterCons(E3, [E4, E5], p);
    FilterCons(E2, [E3, E4, E5], p);
    FilterCons(E1, [E2, E3, E4, E5], p);
  }

  /** With an empty query only the category lists decide. */
  lemma EmptyQueryMatch(eq: Equipment, f: EquipmentList.Filters)
    ensures EquipmentList.Matches(eq, "", f) == (EquipmentList.TypeMatch(eq, f) && EquipmentList.StatusMatch(eq, f))
  {
    assert IsBlank("");
  }

  /** Type filter {"Ar Condicionado"}: the two air conditioners, e1 before e4. */
  lemma AirConditionerTypeFilter()
    ensures EquipmentList.FilteredEquipments(Equipments, "", EquipmentList.Filters(["Ar Condicionado"], [])) == [E1, E4]
  {
    var f := EquipmentList.Filters(["Ar Condicionado"], []);
    var p := EquipmentList.MatchesFn("", f);
    EmptyQueryMatch(E1, f); EmptyQueryMatch(E2, f); EmptyQueryMatch(E3, f);
    EmptyQueryMatch(E4, f); EmptyQueryMatch(E5, f);
    FilterEquipments(p, [E1], [], [], [E4], []);
  }

  /** Type filter {"Bomba"}: only the pump. */
  lemma PumpTypeFilter()
    ensures EquipmentList.FilteredEquipments(Equipments, "", EquipmentList.Filters(["Bomba"], [])) == [E2]
  {
    var f := EquipmentList.Filters(["Bomba"], []);
    EmptyQueryMatch(E1, f); EmptyQueryMatch(E2, f); EmptyQueryMatch(E3, f);
    EmptyQueryMatch(E4, f); EmptyQueryMatch(E5, f);
    FilterEquipments(EquipmentList.MatchesFn("", f), [], [E2], [], [], []);
  }

  /** Type filter {"Bomba", "Gerador"}: the pump and the generator. */
  lemma PumpOrGeneratorTypeFilter()
    ensures EquipmentList.FilteredEquipments(Equipments, "", EquipmentList.Filters(["Bomba", "Gerador"], [])) == [E2, E3]
  {
    var g := EquipmentList.Filters(["Bomba", "Gerador"], []);
    EmptyQueryMatch(E1, g); EmptyQueryMatch(E2, g); EmptyQueryMatch(E3, g);
    EmptyQueryMatch(E4, g); EmptyQueryMatch(E5, g);
    FilterEquipments(EquipmentList.MatchesFn("", g), [], [E2], [E3], [], []);
  }

  /** Ticking a second type adds results: {"Bomba"} lists one equipment,
      {"Bomba", "Gerador"} lists two. */
  lemma SecondTypeWidens()
    ensures |EquipmentList.FilteredEquipments(Equipments, "", EquipmentList.Filters(["Bomba"], [])) |
      < |EquipmentList.FilteredEquipments(Equipments, "", EquipmentList.Filters(["Bomba", "Gerador"], []))|
  {
    PumpTypeFilter();
    PumpOrGeneratorTypeFilter();
  }

  /** Status filter {"Inativo"}: only the generator is inactive. */
  lemma InactiveStatusFilter()
    ensures EquipmentList.FilteredEquipments(Equipments, "", EquipmentList.Filters([], ["Inativo"])) == [E3]
  {
    var f := EquipmentList.Filters([], ["Inativo"]);
    EmptyQueryMatch(E1, f); EmptyQueryMatch(E2, f); EmptyQueryMatch(E3, f);
    EmptyQueryMatch(E4, f); EmptyQueryMatch(E5, f);
    FilterEquipments(EquipmentList.MatchesFn("", f), [], [], [E3], [], []);
  }

  /** A route to an unknown equipment id finds nothing. */
  lemma UnknownEquipment()
    ensures FindById(Equipments, EquipmentId, Some("e999")).None?
  {
  }
}
