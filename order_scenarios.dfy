/** Worked examples of the service-order list's chips and search on the
    sample data. */
module OrderScenarios {
  import opened Wrappers
  import opened Seqs
  import opened Text
  import opened Types
  import opened SampleData
  import ServiceOrderList
  import ServiceOrderDetail

  /** The sample service orders, one element at a time. */
  lemma ServiceOrdersSplit()
    ensures ServiceOrders == [SO1] + [SO2, SO3, SO4, SO5, SO6, SO7]
    ensures [SO2, SO3, SO4, SO5, SO6, SO7] == [SO2] + [SO3, SO4, SO5, SO6, SO7]
    ensures [SO3, SO4, SO5, SO6, SO7] == [SO3] + [SO4, SO5, SO6, SO7]
    ensures [SO4, SO5, SO6, SO7] == [SO4] + [SO5, SO6, SO7]
    ensures [SO5, SO6, SO7] == [SO5] + [SO6, SO7]
    ensures [SO6, SO7] == [SO6] + [SO7]
    ensures [SO7] == [SO7] + []
  {
  }

  /** `Filter` over the sample service orders is the concatenation of what
      each order contributes. */
  lemma FilterServiceOrders(p: ServiceOrder -> bool, k1: seq<ServiceOrder>, k2: seq<ServiceOrder>,
                            k3: seq<ServiceOrder>, k4: seq<ServiceOrder>, k5: seq<ServiceOrder>,
                            k6: seq<ServiceOrder>, k7: seq<ServiceOrder>)
    requires k1 == (if p(SO1) then [SO1] else [])
    requires k2 == (if p(SO2) then [SO2] else [])
    requires k3 == (if p(SO3) then [SO3] else [])
    requires k4 == (if p(SO4) then [SO4] else [])
    requires k5 == (if p(SO5) then [SO5] else [])
    requires k6 == (if p(SO6) then [SO6] else [])
    requires k7 == (if p(SO7) then [SO7] else [])
    ensures Filter(ServiceOrders, p) == k1 + (k2 + (k3 + (k4 + (k5 + (k6 + k7)))))
  {
    ServiceOrdersSplit();
    FilterCons(SO7, [], p);
    FilterCons(SO6, [SO7], p);
    FilterCons(SO5, [SO6, SO7], p);
    FilterCons(SO4, [SO5, SO6, SO7], p);
    FilterCons(SO3, [SO4, SO5, SO6, SO7], p);
    FilterCons(SO2, [SO3, SO4, SO5, SO6, SO7], p);
    FilterCons(SO1, [SO2, SO3, SO4, SO5, SO6, SO7], p);
  }

  /** The "Por Iniciar" chip keeps only so1. */
  lemma ForStartChip()
    ensures ServiceOrderList.FilteredServiceOrders(ServiceOrders, "Por Iniciar", "") == [SO1]
  {
    assert IsBlank("");
    var p := ServiceOrderList.StatusFn("Por Iniciar");
    FilterServiceOrders(p, [SO1], [], [], [], [], [], []);
  }

  /** "central" is not blank and is already lower case. */
  lemma CentralQuery()
    ensures !IsBlank("central") && ToLower("central") == "central"
  {
    BlankIffAllWhitespace("central");
    assert !IsWhitespace("central"[0]);
    ToLowerOfLower("central");
  }

  /** An order whose client name holds the (lower-case) query at `i`, up to case, is a hit. */
  lemma NameHit(o: ServiceOrder, q: string, i: nat)
    requires ToLower(q) == q && i + |q| <= |o.client.name|
    requires forall k :: 0 <= k < |q| ==> LowerChar(o.client.name[i + k]) == q[k]
    ensures ServiceOrderList.SearchHit(o, q)
  {
    LoweredOccurrence(o.client.name, q, i);
  }

  /** so1's client, "Condomínio Central", matches "central". */
  lemma CondominioMatches(q: string)
    requires q == "central"
    ensures ServiceOrderList.SearchHit(SO1, q)
  {
    CentralQuery();
    NameHit(SO1, q, 11);
  }

  /** so3's client, "Hospital Central", matches "central". */
  lemma HospitalMatches(q: string)
    requires q == "central"
    ensures ServiceOrderList.SearchHit(SO3, q)
  {
    CentralQuery();
    NameHit(SO3, q, 9);
  }

  /** An order is not a hit for "central" when each searched field lacks, in
      both cases, some letter of the query: `kn` for the client name, `ka`
      for the address, `ko` for the order number. */
  lemma CentralMiss(o: ServiceOrder, q: string, kn: int, ka: int, ko: int)
    requires q == "central" && 0 <= kn < |q| && 0 <= ka < |q| && 0 <= ko < |q|
    requires q[kn] !in o.client.name && (q[kn] as int - 32) as char !in o.client.name
    requires q[ka] !in o.client.address && (q[ka] as int - 32) as char !in o.client.address
    requires q[ko] !in o.osNumber && (q[ko] as int - 32) as char !in o.osNumber
    ensures !ServiceOrderList.SearchHit(o, q)
  {
    CentralQuery();
    AbsentLetter(o.client.name, q, kn);
    AbsentLetter(o.client.address, q, ka);
    AbsentLetter(o.osNumber, q, ko);
  }

  /** The searched fields of so2: "Loja do Zé" has no 'c', "Av. Principal, 500" no 'e' and
      "2024-1139" no 'c', in either case. */
  lemma LojaLetters(name: string, address: string, osNumber: string)
    requires name == "Loja do Zé" && address == "Av. Principal, 500" && osNumber == "2024-1139"
    ensures 'c' !in name && 'C' !in name
    ensures 'e' !in address && 'E' !in address
    ensures 'c' !in osNumber && 'C' !in osNumber
  {
  }

  /** so2 is not a hit for "central". */
  lemma LojaMisses(q: string)
    requires q == "central"
    ensures !ServiceOrderList.SearchHit(SO2, q)
  {
    LojaLetters(SO2.client.name, SO2.client.address, SO2.osNumber);
    CentralMiss(SO2, q, 0, 1, 0);
  }

  /** The searched fields of so4: "Padaria Pão Quente" has no 'c', "Rua do Comércio, 321" no 'n' and
      "2024-1140" no 'c', in either case. */
  lemma PadariaLetters(name: string, address: string, osNumber: string)
    requires name == "Padaria Pão Quente" && address == "Rua do Comércio, 321" && osNumber == "2024-1140"
    ensures 'c' !in name && 'C' !in name
    ensures 'n' !in address && 'N' !in address
    ensures 'c' !in osNumber && 'C' !in osNumber
  {
  }

  /** so4 is not a hit for "central". */
  lemma PadariaMisses(q: string)
    requires q == "central"
    ensures !ServiceOrderList.SearchHit(SO4, q)
  {
    PadariaLetters(SO4.client.name, SO4.client.address, SO4.osNumber);
    CentralMiss(SO4, q, 0, 2, 0);
  }

  /** The searched fields of so5: "Academia Corpo em Forma" has no 'n', "Avenida de Esportes, 999" no 'c' and
      "2024-1141" no 'c', in either case. */
  lemma AcademiaLetters(name: string, address: string, osNumber: string)
    requires name == "Academia Corpo em Forma" && address == "Avenida de Esportes, 999" && osNumber == "2024-1141"
    ensures 'n' !in name && 'N' !in name
    ensures 'c' !in address && 'C' !in address
    ensures 'c' !in osNumber && 'C' !in osNumber
  {
  }

  /** so5 is not a hit for "central". */
  lemma AcademiaMisses(q: string)
    requires q == "central"
    ensures !ServiceOrderList.SearchHit(SO5, q)
  {
    AcademiaLetters(SO5.client.name, SO5.client.address, SO5.osNumber);
    CentralMiss(SO5, q, 2, 0, 0);
  }

  /** The searched fields of so6: "Escritório Advogados" has no 'n', "Praça da Sé, 45" no 'c' and
      "2024-1135" no 'c', in either case. */
  lemma EscritorioLetters(name: string, address: string, osNumber: string)
    requires name == "Escritório Advogados" && address == "Praça da Sé, 45" && osNumber == "2024-1135"
    ensures 'n' !in name && 'N' !in name
    ensures 'c' !in address && 'C' !in address
    ensures 'c' !in osNumber && 'C' !in osNumber
  {
  }

  /** so6 is not a hit for "central". */
  lemma EscritorioMisses(q: string)
    requires q == "central"
    ensures !ServiceOrderList.SearchHit(SO6, q)
  {
    EscritorioLetters(SO6.client.name, SO6.client.address, SO6.osNumber);
    CentralMiss(SO6, q, 2, 0, 0);
  }

  /** The searched fields of so7: "Ana Silva" has no 'c', "Av. Paulista, 1578 - Bela Vista, São Paulo, SP - 01310-200" no 'c' and
      "2024-152" no 'c', in either case. */
  lemma AnaSilvaLetters(name: string, address: string, osNumber: string)
    requires name == "Ana Silva" && osNumber == "2024-152"
    requires address == "Av. Paulista, 1578 - " + "Bela Vista, São Paulo, " + "SP - 01310-200"
    ensures 'c' !in name && 'C' !in name
    ensures 'c' !in address && 'C' !in address
    ensures 'c' !in osNumber && 'C' !in osNumber
  {
  }

  /** so7 is not a hit for "central". */
  lemma AnaSilvaMisses(q: string)
    requires q == "central"
    ensures !ServiceOrderList.SearchHit(SO7, q)
  {
    AnaSilvaLetters(SO7.client.name, SO7.client.address, SO7.osNumber);
    CentralMiss(SO7, q, 0, 0, 0);
  }

  /** With the "Todos" chip and the query "central", the list keeps so1 and
      so3 and drops the other five orders. */
  lemma CentralKeeps(q: string)
    requires q == "central"
    ensures var keeps := ServiceOrderList.KeepsFn(ServiceOrderList.AllFilter, q);
      keeps(SO1) && !keeps(SO2) && keeps(SO3) && !keeps(SO4) && !keeps(SO5) && !keeps(SO6) && !keeps(SO7)
  {
    CentralQuery();
    CondominioMatches(q);
    HospitalMatches(q);
    LojaMisses(q);
    PadariaMisses(q);
    AcademiaMisses(q);
    EscritorioMisses(q);
    AnaSilvaMisses(q);
  }

  /** Searching "central" with the "Todos" chip lists exactly so1 and so3, in
      that order. The query is a parameter so that the string functions stay
      unexpanded. */
  lemma CentralSearch(q: string)
    requires q == "central"
    ensures ServiceOrderList.FilteredServiceOrders(ServiceOrders, "Todos", q) == [SO1, SO3]
  {
    CentralKeeps(q);
    FilterServiceOrders(ServiceOrderList.KeepsFn(ServiceOrderList.AllFilter, q), [SO1], [], [SO3], [], [], [], []);
    ServiceOrderList.FilteredIsConjunction(ServiceOrders, ServiceOrderList.AllFilter, q);
  }

  /** A route to an unknown order shows the "not found" view. */
  lemma UnknownOrderNotFound()
    ensures ServiceOrderDetail.DetailScreen(ServiceOrders, Some("so999")).NotFound?
  {
  }

  /** A route to so7 shows so7. */
  lemma KnownOrderFound()
    ensures var v := ServiceOrderDetail.DetailScreen(ServiceOrders, Some("so7"));
      v.Found? && v.order == SO7
  {
    assert ServiceOrders[6].id == "so7";
  }
}

