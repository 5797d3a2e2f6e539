/** The equipment list screen: a search box, a filter modal with two
    multi-select category lists (type and status), chips that remove one
    applied value, and the filtered list itself. */
module EquipmentList {
  import opened Wrappers
  import opened Seqs
  import opened Text
  import opened Types
  import opened Navigation

  /** The selected values of each category (`type` and `status` in the source). */
  datatype Filters = Filters(types: seq<string>, statuses: seq<string>)

  datatype Category = TypeCategory | StatusCategory

  const NoFilters := Filters([], [])

  function Other(c: Category): Category
  {
    if c == TypeCategory then StatusCategory else TypeCategory
  }

  function Selected(f: Filters, c: Category): seq<string>
  {
    if c == TypeCategory then f.types else f.statuses
  }

  /** `{ ...f, [c]: values }` */
  function WithSelected(f: Filters, c: Category, values: seq<string>): (r: Filters)
    ensures Selected(r, c) == values
    ensures Selected(r, Other(c)) == Selected(f, Other(c))
  {
    if c == TypeCategory then f.(types := values) else f.(statuses := values)
  }

  /** `values.filter(x => x !== v)`: every occurrence of `v` removed. */
  function Without(values: seq<string>, v: string): (r: seq<string>)
    ensures v !in r
    ensures IsSubsequence(r, values)
    ensures multiset(r) == multiset(values)[v := 0]
  {
    var keep := x => x != v;
    FilterIsSubsequence(values, keep);
    FilterOut(values, keep, v);
    Filter(values, keep)
  }

  /** The checkbox toggle on one list: a present value is removed (every
      occurrence), an absent one is appended. */
  function Toggled(values: seq<string>, v: string): (r: seq<string>)
    ensures v in values ==> v !in r && IsSubsequence(r, values)
    ensures v in values ==> multiset(r) == multiset(values)[v := 0]
    ensures v !in values ==> |r| == |values| + 1 && r[..|values|] == values && r[|values|] == v
  {
    if v in values then Without(values, v) else values + [v]
  }

  /** Checking an unchecked box and then unchecking it restores the list. */
  lemma ToggleTwiceRestores(values: seq<string>, v: string)
    requires v !in values
    ensures Toggled(Toggled(values, v), v) == values
  {
    assert v in values + [v];
    FilterAppend(values, [v], x => x != v);
    FilterAll(values, x => x != v);
    assert Filter([v], x => x != v) == [];
  }

  /** `handleCheckboxChange(c, v)` on the modal's local selection. */
  function CheckboxChanged(f: Filters, c: Category, v: string): (r: Filters)
    ensures Selected(r, c) == Toggled(Selected(f, c), v)
    ensures Selected(r, Other(c)) == Selected(f, Other(c))
  {
    WithSelected(f, c, Toggled(Selected(f, c), v))
  }

  /** `removeFilter(c, v)` on the applied selection. */
  function FilterRemoved(f: Filters, c: Category, v: string): (r: Filters)
    ensures v !in Selected(r, c)
    ensures IsSubsequence(Selected(r, c), Selected(f, c))
    ensures multiset(Selected(r, c)) == multiset(Selected(f, c))[v := 0]
    ensures forall x :: x in Selected(f, c) && x != v ==> x in Selected(r, c)
    ensures Selected(r, Other(c)) == Selected(f, Other(c))
  {
    WithSelected(f, c, Without(Selected(f, c), v))
  }

  /** `activeFilterCount`: the number of chips shown. */
  function ActiveFilterCount(f: Filters): (n: nat)
    ensures n == 0 <==> f == NoFilters
  {
    |f.types| + |f.statuses|
  }

  /** Removing a chip never raises the count, and removes at least one when
      the value was selected. */
  lemma RemoveFilterCount(f: Filters, c: Category, v: string)
    ensures ActiveFilterCount(FilterRemoved(f, c, v)) <= ActiveFilterCount(f)
    ensures v in Selected(f, c) ==> ActiveFilterCount(FilterRemoved(f, c, v)) < ActiveFilterCount(f)
  {
    var r := FilterRemoved(f, c, v);
    SubsequenceLength(Selected(r, c), Selected(f, c));
    if v in Selected(f, c) && |Selected(r, c)| == |Selected(f, c)| {
      SubsequenceSameLength(Selected(r, c), Selected(f, c));
    }
  }

  /** The search part of the filter: a blank query matches everything,
      otherwise the lowercased query must occur in the lowercased name,
      model or serial. The query itself is not trimmed. */
  predicate SearchMatch(eq: Equipment, query: string)
  {
    var q := ToLower(query);
    IsBlank(query) || Contains(ToLower(eq.name), q) || Contains(ToLower(eq.model), q) || Contains(ToLower(eq.serial), q)
  }

  /** An empty list imposes no constraint; otherwise the value must be selected. */
  predicate TypeMatch(eq: Equipment, f: Filters)
  {
    |f.types| == 0 || eq.kind in f.types
  }

  predicate StatusMatch(eq: Equipment, f: Filters)
  {
    |f.statuses| == 0 || EquipmentStatusText(eq.status) in f.statuses
  }

  predicate Matches(eq: Equipment, query: string, f: Filters)
  {
    SearchMatch(eq, query) && TypeMatch(eq, f) && StatusMatch(eq, f)
  }

  /** The filter's predicate as a value, so that every use names the same function. */
  function MatchesFn(query: string, f: Filters): Equipment -> bool
  {
    e => Matches(e, query, f)
  }

  /** `filteredEquipments`: the equipments that pass search, type and status,
      in their original order. */
  function FilteredEquipments(equipments: seq<Equipment>, query: string, f: Filters): (r: seq<Equipment>)
    ensures IsSubsequence(r, equipments)
    ensures forall i :: 0 <= i < |r| ==> Matches(r[i], query, f)
    ensures forall i :: 0 <= i < |equipments| && Matches(equipments[i], query, f) ==> equipments[i] in r
    ensures forall x {:trigger multiset(r)[x]} :: multiset(r)[x] == if Matches(x, query, f) then multiset(equipments)[x] else 0
  {
    FilterIsSubsequence(equipments, MatchesFn(query, f));
    FilterMultiset(equipments, MatchesFn(query, f));
    Filter(equipments, MatchesFn(query, f))
  }

  /** With no category selected and a blank query every equipment is listed. */
  lemma BlankQueryNoFiltersListsAll(equipments: seq<Equipment>, query: string)
    requires IsBlank(query)
    ensures FilteredEquipments(equipments, query, NoFilters) == equipments
  {
    FilterAll(equipments, MatchesFn(query, NoFilters));
  }

  /** Category selections only ever remove equipments: any result is a
      subsequence of the result with both lists empty. */
  lemma CategoriesOnlyNarrow(equipments: seq<Equipment>, query: string, f: Filters)
    ensures IsSubsequence(FilteredEquipments(equipments, query, f), FilteredEquipments(equipments, query, NoFilters))
  {
    FilterStrengthen(equipments, MatchesFn(query, NoFilters), MatchesFn(query, f));
  }

  /** Typing more text into the search box never adds equipments. */
  lemma LongerQueryNarrows(equipments: seq<Equipment>, query: string, more: string, f: Filters)
    ensures IsSubsequence(FilteredEquipments(equipments, query + more, f), FilteredEquipments(equipments, query, f))
    ensures |FilteredEquipments(equipments, query + more, f)| <= |FilteredEquipments(equipments, query, f)|
  {
    forall eq | Matches(eq, query + more, f) ensures Matches(eq, query, f) {
      if !IsBlank(query) {
        NotBlankExtend(query, more);
        ToLowerAppend(query, more);
        var q, m := ToLower(query), ToLower(more);
        if Contains(ToLower(eq.name), q + m) { ContainsPrefix(ToLower(eq.name), q, m); }
        else if Contains(ToLower(eq.model), q + m) { ContainsPrefix(ToLower(eq.model), q, m); }
        else { ContainsPrefix(ToLower(eq.serial), q, m); }
      }
    }
    FilterStrengthen(equipments, MatchesFn(query, f), MatchesFn(query + more, f));
    SubsequenceLength(FilteredEquipments(equipments, query + more, f), FilteredEquipments(equipments, query, f));
  }

  /** Selecting the first type narrows the result ... */
  lemma FirstTypeNarrows(equipments: seq<Equipment>, query: string, f: Filters, v: string)
    requires |f.types| == 0
    ensures IsSubsequence(FilteredEquipments(equipments, query, f.(types := [v])), FilteredEquipments(equipments, query, f))
  {
    var g := f.(types := [v]);
    forall eq | Matches(eq, query, g) ensures Matches(eq, query, f) {
      assert SearchMatch(eq, query) && StatusMatch(eq, g);
    }
    FilterStrengthen(equipments, MatchesFn(query, f), MatchesFn(query, g));
  }

  /** ... but selecting a further type widens it: values within one category
      are alternatives. */
  lemma FurtherTypeWidens(equipments: seq<Equipment>, query: string, f: Filters, v: string)
    requires |f.types| > 0
    ensures IsSubsequence(FilteredEquipments(equipments, query, f), FilteredEquipments(equipments, query, f.(types := f.types + [v])))
  {
    var g := f.(types := f.types + [v]);
    forall eq | Matches(eq, query, f) ensures Matches(eq, query, g) {
      assert SearchMatch(eq, query) && StatusMatch(eq, f);
      assert eq.kind in f.types;
    }
    FilterStrengthen(equipments, MatchesFn(query, g), MatchesFn(query, f));
  }

  /** `equipment.map(e => e.type)` */
  function EquipmentKinds(equipments: seq<Equipment>): (kinds: seq<string>)
    ensures |kinds| == |equipments| && forall j :: 0 <= j < |equipments| ==> kinds[j] == equipments[j].kind
  {
    seq(|equipments|, j requires 0 <= j < |equipments| => equipments[j].kind)
  }

  /** `equipment.map(e => e.status)` */
  function EquipmentStatusTexts(equipments: seq<Equipment>): (texts: seq<string>)
    ensures |texts| == |equipments|
    ensures forall j :: 0 <= j < |equipments| ==> texts[j] == EquipmentStatusText(equipments[j].status)
  {
    seq(|equipments|, j requires 0 <= j < |equipments| => EquipmentStatusText(equipments[j].status))
  }

  /** `[...new Set(equipment.map(e => e.type))]`: the type options of the modal. */
  function EquipmentTypes(equipments: seq<Equipment>): (r: seq<string>)
    ensures NoDuplicates(r)
    ensures forall i :: 0 <= i < |r| ==> exists j :: 0 <= j < |equipments| && equipments[j].kind == r[i]
    ensures forall j :: 0 <= j < |equipments| ==> equipments[j].kind in r
  {
    var kinds := EquipmentKinds(equipments);
    var r := Distinct(kinds);
    assert forall i :: 0 <= i < |r| ==> r[i] in kinds;
    r
  }

  /** The type options appear in the order in which each type first occurs. */
  lemma TypesInFirstOccurrenceOrder(equipments: seq<Equipment>, i: nat, j: nat)
    requires i < j < |EquipmentTypes(equipments)|
    ensures EquipmentTypes(equipments)[i] in EquipmentKinds(equipments)
    ensures EquipmentTypes(equipments)[j] in EquipmentKinds(equipments)
    ensures FirstIndex(EquipmentKinds(equipments), EquipmentTypes(equipments)[i])
          < FirstIndex(EquipmentKinds(equipments), EquipmentTypes(equipments)[j])
  {
    DistinctFirstOccurrenceOrder(EquipmentKinds(equipments), i, j);
  }

  /** `[...new Set(equipment.map(e => e.status))]`: the status options of the modal. */
  function EquipmentStatuses(equipments: seq<Equipment>): (r: seq<string>)
    ensures NoDuplicates(r)
    ensures forall i :: 0 <= i < |r| ==> exists j :: 0 <= j < |equipments| && EquipmentStatusText(equipments[j].status) == r[i]
    ensures forall j :: 0 <= j < |equipments| ==> EquipmentStatusText(equipments[j].status) in r
  {
    var texts := EquipmentStatusTexts(equipments);
    var r := Distinct(texts);
    assert forall i :: 0 <= i < |r| ==> r[i] in texts;
    r
  }

  /** The status options appear in the order in which each status first occurs. */
  lemma StatusesInFirstOccurrenceOrder(equipments: seq<Equipment>, i: nat, j: nat)
    requires i < j < |EquipmentStatuses(equipments)|
    ensures EquipmentStatuses(equipments)[i] in EquipmentStatusTexts(equipments)
    ensures EquipmentStatuses(equipments)[j] in EquipmentStatusTexts(equipments)
    ensures FirstIndex(EquipmentStatusTexts(equipments), EquipmentStatuses(equipments)[i])
          < FirstIndex(EquipmentStatusTexts(equipments), EquipmentStatuses(equipments)[j])
  {
    DistinctFirstOccurrenceOrder(EquipmentStatusTexts(equipments), i, j);
  }

  datatype EquipmentIcon = SnowflakeIcon | PumpIcon | BoltIcon

  /** `getIcon(type)`: the first keyword found in the lowercased type decides;
      air conditioners and unknown types get the snowflake. */
  function GetIcon(kind: string): (r: EquipmentIcon)
    ensures r == PumpIcon <==> !Contains(ToLower(kind), "ar condicionado") && Contains(ToLower(kind), "bomba")
    ensures r == BoltIcon <==>
      && !Contains(ToLower(kind), "ar condicionado")
      && !Contains(ToLower(kind), "bomba")
      && Contains(ToLower(kind), "gerador")
  {
    var lower := ToLower(kind);
    if Contains(lower, "ar condicionado") then SnowflakeIcon
    else if Contains(lower, "bomba") then PumpIcon
    else if Contains(lower, "gerador") then BoltIcon
    else SnowflakeIcon
  }

  /** Selecting an equipment card opens its detail screen. */
  function CardEffect(eq: Equipment): (e: Effect)
    ensures e.Push? && e.frame.screen == EquipmentDetail && EquipmentIdOf(e.frame.params) == Some(eq.id)
  {
    Push(Frame(EquipmentDetail, EquipmentParams(eq.id)))
  }

  /** The screen's state: the search text, whether the modal is open, the
      applied selection, and the modal's own working copy of it. The modal
      stays mounted while closed, so its copy is initialised once and is
      only overwritten by Limpar. */
  class EquipmentListScreen {
    const equipments: seq<Equipment>
    var searchQuery: string
    var isFilterModalOpen: bool
    var activeFilters: Filters
    var localFilters: Filters

    constructor (equipments: seq<Equipment>)
      ensures this.equipments == equipments
      ensures searchQuery == "" && !isFilterModalOpen
      ensures activeFilters == NoFilters && localFilters == NoFilters
    {
      this.equipments := equipments;
      searchQuery := "";
      isFilterModalOpen := false;
      activeFilters := NoFilters;
      localFilters := NoFilters;
    }

    /** The search box's `onChange`. */
    method SetSearchQuery(q: string)
      modifies this
      ensures searchQuery == q
      ensures isFilterModalOpen == old(isFilterModalOpen)
      ensures activeFilters == old(activeFilters) && localFilters == old(localFilters)
    {
      searchQuery := q;
    }

    /** The filter button. */
    method OpenFilterModal()
      modifies this
      ensures isFilterModalOpen
      ensures searchQuery == old(searchQuery)
      ensures activeFilters == old(activeFilters) && localFilters == old(localFilters)
    {
      isFilterModalOpen := true;
    }

    /** `onClose`: a click on the backdrop. */
    method CloseFilterModal()
      modifies this
      ensures !isFilterModalOpen
      ensures searchQuery == old(searchQuery)
      ensures activeFilters == old(activeFilters) && localFilters == old(localFilters)
    {
      isFilterModalOpen := false;
    }

    /** `handleCheckboxChange(c, v)`: toggles `v` in the modal's copy. */
    method HandleCheckboxChange(c: Category, v: string)
      requires isFilterModalOpen
      modifies this
      ensures localFilters == CheckboxChanged(old(localFilters), c, v)
      ensures searchQuery == old(searchQuery) && isFilterModalOpen == old(isFilterModalOpen)
      ensures activeFilters == old(activeFilters)
    {
      var current := Selected(localFilters, c);
      var next := if v in current then Without(current, v) else current + [v];
      localFilters := WithSelected(localFilters, c, next);
    }

    /** `handleApply`: the modal's copy becomes the applied selection. */
    method HandleApply()
      modifies this
      ensures activeFilters == old(localFilters) && localFilters == old(localFilters)
      ensures !isFilterModalOpen
      ensures searchQuery == old(searchQuery)
    {
      activeFilters := localFilters;
      isFilterModalOpen := false;
    }

    /** `handleClear`: both selections emptied and applied. */
    method HandleClear()
      modifies this
      ensures activeFilters == NoFilters && localFilters == NoFilters
      ensures !isFilterModalOpen
      ensures searchQuery == old(searchQuery)
    {
      localFilters := NoFilters;
      activeFilters := NoFilters;
      isFilterModalOpen := false;
    }

    /** `removeFilter(c, v)`: a chip's ×, on the applied selection only. */
    method RemoveFilter(c: Category, v: string)
      modifies this
      ensures activeFilters == FilterRemoved(old(activeFilters), c, v)
      ensures localFilters == old(localFilters)
      ensures searchQuery == old(searchQuery) && isFilterModalOpen == old(isFilterModalOpen)
    {
      activeFilters := WithSelected(activeFilters, c, Without(Selected(activeFilters, c), v));
    }

    /** The list shown for the current state. */
    function Visible(): (r: seq<Equipment>)
      reads this
      ensures IsSubsequence(r, equipments)
      ensures forall i :: 0 <= i < |r| ==> Matches(r[i], searchQuery, activeFilters)
      ensures forall i :: 0 <= i < |equipments| && Matches(equipments[i], searchQuery, activeFilters) ==> equipments[i] in r
      ensures forall x {:trigger multiset(r)[x]} :: multiset(r)[x] == if Matches(x, searchQuery, activeFilters) then multiset(equipments)[x] else 0
    {
      FilteredEquipments(equipments, searchQuery, activeFilters)
    }

    /** The badge on the filter button. */
    function FilterCount(): nat
      reads this
    {
      ActiveFilterCount(activeFilters)
    }
  }

  /** After Limpar nothing is selected and the badge shows zero. */
  method ClearResetsCount(screen: EquipmentListScreen)
    modifies screen
    ensures screen.FilterCount() == 0
    ensures screen.Visible() == FilteredEquipments(screen.equipments, old(screen.searchQuery), NoFilters)
  {
    screen.HandleClear();
  }

  /** A chip removed from the applied selection is still checked in the
      modal, so Aplicar selects it again. */
  method RemovedChipReturnsOnApply(screen: EquipmentListScreen, c: Category, v: string)
    requires v in Selected(screen.localFilters, c)
    modifies screen
    ensures v in Selected(screen.activeFilters, c)
  {
    screen.RemoveFilter(c, v);
    screen.HandleApply();
  }
}
