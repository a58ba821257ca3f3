/** The activity panel of the current web client (frontend/src/components/Activity.tsx): the
    filters on type, department and line, the comparator for the five sort keys with its
    asc/desc direction, the sort toggle, and the department and line option lists. The
    filtering and sorting are shared with the older panel (src/components/Activity.tsx),
    which has the same code. */
module ActivityClient {
  import opened Common
  import opened Sorting
  import opened ActivityFeed

  datatype SortKey = ByDate | ByDepartment | ByType | ByLine | ByDescription

  datatype SortOrder = Asc | Desc

  /** The comparison for department and line names: two missing (or empty) names tie, a
      missing name comes after a present one, present names compare as strings. */
  function NameCmp(a: Option<string>, b: Option<string>): int
  {
    if !Present(a) && !Present(b) then 0
    else if !Present(a) then 1
    else if !Present(b) then -1
    else Compare(a.value, b.value)
  }

  function KeyCmp(key: SortKey, a: Item, b: Item): int
  {
    match key
    case ByDate => a.date - b.date
    case ByDepartment => NameCmp(a.departmentName, b.departmentName)
    case ByType => Compare(Tag(a.kind), Tag(b.kind))
    case ByLine => NameCmp(a.lineName, b.lineName)
    case ByDescription => Compare(a.description, b.description)
  }

  /** The comparator handed to `sort`: the key's comparison, negated for descending order. */
  function Directed(key: SortKey, order: SortOrder, a: Item, b: Item): int
  {
    if order == Asc then KeyCmp(key, a, b) else -KeyCmp(key, a, b)
  }

  /** "a may stay before b" under the comparator. */
  function Before(key: SortKey, order: SortOrder): (Item, Item) -> bool
  {
    (a: Item, b: Item) => Directed(key, order, a, b) <= 0
  }

  lemma NameCmpAntisymmetric(a: Option<string>, b: Option<string>)
    ensures NameCmp(a, b) == -NameCmp(b, a)
  {
    if Present(a) && Present(b) {
      CompareAntisymmetric(a.value, b.value);
    }
  }

  lemma NameCmpTransitive(a: Option<string>, b: Option<string>, c: Option<string>)
    requires NameCmp(a, b) <= 0 && NameCmp(b, c) <= 0
    ensures NameCmp(a, c) <= 0
  {
    if Present(a) && Present(b) && Present(c) {
      CompareTransitive(a.value, b.value, c.value);
    }
  }

  lemma KeyCmpAntisymmetric(key: SortKey, a: Item, b: Item)
    ensures KeyCmp(key, a, b) == -KeyCmp(key, b, a)
  {
    match key
    case ByDate =>
    case ByDepartment => NameCmpAntisymmetric(a.departmentName, b.departmentName);
    case ByType => CompareAntisymmetric(Tag(a.kind), Tag(b.kind));
    case ByLine => NameCmpAntisymmetric(a.lineName, b.lineName);
    case ByDescription => CompareAntisymmetric(a.description, b.description);
  }

  lemma KeyCmpTransitive(key: SortKey, a: Item, b: Item, c: Item)
    requires KeyCmp(key, a, b) <= 0 && KeyCmp(key, b, c) <= 0
    ensures KeyCmp(key, a, c) <= 0
  {
    match key
    case ByDate =>
    case ByDepartment => NameCmpTransitive(a.departmentName, b.departmentName, c.departmentName);
    case ByType => CompareTransitive(Tag(a.kind), Tag(b.kind), Tag(c.kind));
    case ByLine => NameCmpTransitive(a.lineName, b.lineName, c.lineName);
    case ByDescription => CompareTransitive(a.description, b.description, c.description);
  }

  /** Every key in either direction is a consistent comparator, so `sort` orders by it. */
  lemma BeforeTotal(key: SortKey, order: SortOrder)
    ensures TotalPreorder(Before(key, order))
  {
    var le := Before(key, order);
    forall a: Item, b: Item ensures le(a, b) || le(b, a) {
      KeyCmpAntisymmetric(key, a, b);
    }
    forall a: Item, b: Item, c: Item | le(a, b) && le(b, c) ensures le(a, c) {
      if order == Asc {
        KeyCmpTransitive(key, a, b, c);
      } else {
        KeyCmpAntisymmetric(key, a, b);
        KeyCmpAntisymmetric(key, b, c);
        KeyCmpAntisymmetric(key, a, c);
        KeyCmpTransitive(key, c, b, a);
      }
    }
  }

  // ---------------------------------------------------------------------------------------
  // Filters

  datatype TypeFilter = AnyType | OnlyType(kind: Kind)

  /** A department or line filter: 'all', or one name. */
  datatype NameFilter = AnyName | OnlyName(name: string)

  datatype Filters = Filters(kind: TypeFilter, department: NameFilter, line: NameFilter)

  const NoFilters := Filters(AnyType, AnyName, AnyName)

  predicate NameMatches(f: NameFilter, name: Option<string>)
  {
    f.AnyName? || name == Some(f.name)
  }

  function MatchType(f: TypeFilter): Item -> bool
  {
    (a: Item) => f.AnyType? || a.kind == f.kind
  }

  function MatchDepartment(f: NameFilter): Item -> bool
  {
    (a: Item) => NameMatches(f, a.departmentName)
  }

  function MatchLine(f: NameFilter): Item -> bool
  {
    (a: Item) => NameMatches(f, a.lineName)
  }

  function Both(p: Item -> bool, q: Item -> bool): Item -> bool
  {
    (a: Item) => p(a) && q(a)
  }

  function Matches(f: Filters): Item -> bool
  {
    Both(Both(MatchType(f.kind), MatchDepartment(f.department)), MatchLine(f.line))
  }

  /** The items the three filters let through, in their order. */
  function Select(items: seq<Item>, f: Filters): seq<Item>
  {
    Filter(items, Matches(f))
  }

  /** The filters combine with AND: an item is kept exactly when every filter that is not
      'all' accepts it. */
  lemma SelectExactly(items: seq<Item>, f: Filters, a: Item)
    ensures a in Select(items, f) <==>
              && a in items
              && (f.kind.OnlyType? ==> a.kind == f.kind.kind)
              && (f.department.OnlyName? ==> a.departmentName == Some(f.department.name))
              && (f.line.OnlyName? ==> a.lineName == Some(f.line.name))
  {
    FilterKeeps(items, Matches(f), a);
  }

  /** With every filter at 'all' nothing is dropped. */
  lemma SelectAll(items: seq<Item>)
    ensures Select(items, NoFilters) == items
  {
    FilterAllPass(items, Matches(NoFilters));
  }

  /** An item without a department name never passes a department filter, and one with an
      empty name passes none of the names the option list offers. */
  lemma MissingNameExcluded(items: seq<Item>, f: Filters, a: Item)
    requires f.department.OnlyName? && f.department.name != ""
    requires !Present(a.departmentName)
    ensures a !in Select(items, f)
  {
    FilterKeeps(items, Matches(f), a);
  }

  /** The filtered list, then sorted by the comparator. */
  function Arrange(items: seq<Item>, f: Filters, key: SortKey, order: SortOrder): seq<Item>
  {
    Sort(Select(items, f), Before(key, order))
  }

  /** The result is a permutation of the filtered items, ordered by the comparator. */
  lemma ArrangeProperties(items: seq<Item>, f: Filters, key: SortKey, order: SortOrder)
    ensures multiset(Arrange(items, f, key, order)) == multiset(Select(items, f))
    ensures Sorted(Arrange(items, f, key, order), Before(key, order))
  {
    BeforeTotal(key, order);
    SortSorted(Select(items, f), Before(key, order));
  }

  function NameOf(key: SortKey, a: Item): Option<string>
    requires key == ByDepartment || key == ByLine
  {
    if key == ByDepartment then a.departmentName else a.lineName
  }

  /** By department or line: ascending puts the items without a name after every named one;
      descending negates the comparison and puts them first. */
  lemma MissingNamesPlacement(items: seq<Item>, f: Filters, key: SortKey, order: SortOrder)
    requires key == ByDepartment || key == ByLine
    ensures var r := Arrange(items, f, key, order);
            forall i, j :: 0 <= i < j < |r| ==>
              (order == Asc ==> (!Present(NameOf(key, r[i])) ==> !Present(NameOf(key, r[j]))))
              && (order == Desc ==> (!Present(NameOf(key, r[j])) ==> !Present(NameOf(key, r[i]))))
  {
    ArrangeProperties(items, f, key, order);
  }

  /** By date: ascending is oldest first, descending newest first. */
  lemma DateOrder(items: seq<Item>, f: Filters, order: SortOrder)
    ensures var r := Arrange(items, f, ByDate, order);
            forall i, j :: 0 <= i < j < |r| ==>
              (order == Asc ==> r[i].date <= r[j].date) && (order == Desc ==> r[j].date <= r[i].date)
  {
    ArrangeProperties(items, f, ByDate, order);
  }

  /** `getFilteredAndSortedActivities`: a copy of the list is narrowed by each filter that is
      not 'all', then sorted. */
  method FilterAndSort(activities: seq<Item>, f: Filters, key: SortKey, order: SortOrder)
    returns (r: seq<Item>)
    ensures r == Arrange(activities, f, key, order)
  {
    var filtered := activities;
    if f.kind.OnlyType? {
      filtered := Filter(filtered, MatchType(f.kind));
    } else {
      FilterAllPass(activities, MatchType(f.kind));
    }
    if f.department.OnlyName? {
      filtered := Filter(filtered, MatchDepartment(f.department));
    } else {
      FilterAllPass(filtered, MatchDepartment(f.department));
    }
    FilterFilter(activities, MatchType(f.kind), MatchDepartment(f.department),
                 Both(MatchType(f.kind), MatchDepartment(f.department)));
    if f.line.OnlyName? {
      filtered := Filter(filtered, MatchLine(f.line));
    } else {
      FilterAllPass(filtered, MatchLine(f.line));
    }
    FilterFilter(activities, Both(MatchType(f.kind), MatchDepartment(f.department)),
                 MatchLine(f.line), Matches(f));
    r := Sort(filtered, Before(key, order));
  }

  // ---------------------------------------------------------------------------------------
  // Sort toggle and option lists

  /** `toggleSort(field)`: the same field flips the direction, another field is selected in
      ascending order. */
  function NextSort(key: SortKey, order: SortOrder, field: SortKey): (r: (SortKey, SortOrder))
    ensures r.0 == field
    ensures key == field ==> r.1 != order
    ensures key != field ==> r.1 == Asc
  {
    if key == field then (key, if order == Asc then Desc else Asc) else (field, Asc)
  }

  /** Clicking the same header twice restores the direction. */
  lemma ToggleTwice(key: SortKey, order: SortOrder, field: SortKey)
    ensures var (k1, o1) := NextSort(key, order, field);
            NextSort(k1, o1, field) == (field, if key == field then order else Desc)
  {
  }

  /** The names with a missing one read as "". */
  function NameTexts(names: seq<Option<string>>): (r: seq<string>)
    ensures |r| == |names|
    ensures forall i :: 0 <= i < |names| ==> r[i] == names[i].GetOr("")
  {
    if names == [] then [] else [names[0].GetOr("")] + NameTexts(names[1..])
  }

  function NonEmpty(): string -> bool
  {
    (s: string) => s != ""
  }

  /** `Array.from(new Set(names.filter(Boolean))).sort()`: the distinct non-empty names in
      ascending order. */
  function UniqueNames(names: seq<Option<string>>): seq<string>
  {
    Sort(Dedupe(Filter(NameTexts(names), NonEmpty())), StrLe)
  }

  lemma StrLeTotalPreorder()
    ensures TotalPreorder(StrLe)
  {
    forall a: string, b: string ensures StrLe(a, b) || StrLe(b, a) {
      StrLeTotal(a, b);
    }
    forall a: string, b: string, c: string | StrLe(a, b) && StrLe(b, c) ensures StrLe(a, c) {
      CompareTransitive(a, b, c);
    }
  }

  /** Exactly the non-empty names occur in the option list. */
  lemma UniqueNamesMembers(names: seq<Option<string>>, x: string)
    ensures x in UniqueNames(names) <==> x != "" && Some(x) in names
  {
    var texts := NameTexts(names);
    var d := Dedupe(Filter(texts, NonEmpty()));
    FilterKeeps(texts, NonEmpty(), x);
    SortMembers(d, StrLe, x);
    if x != "" {
      NameTextsMembers(names, x);
    }
  }

  /** A non-empty text comes from a present name. */
  lemma NameTextsMembers(names: seq<Option<string>>, x: string)
    requires x != ""
    ensures x in NameTexts(names) <==> Some(x) in names
  {
    var texts := NameTexts(names);
    if Some(x) in names {
      var k :| 0 <= k < |names| && names[k] == Some(x);
      assert texts[k] == x;
    }
    if x in texts {
      var k :| 0 <= k < |texts| && texts[k] == x;
      assert names[k] == Some(x);
    }
  }

  /** The option list ascends strictly: each name occurs once. */
  lemma UniqueNamesAscending(names: seq<Option<string>>)
    ensures var r := UniqueNames(names);
            forall i, j :: 0 <= i < j < |r| ==> r[i] != r[j] && StrLe(r[i], r[j])
  {
    var d := Dedupe(Filter(NameTexts(names), NonEmpty()));
    var r := Sort(d, StrLe);
    StrLeTotalPreorder();
    SortSorted(d, StrLe);
    assert forall x :: multiset(r)[x] <= 1;
    forall i, j | 0 <= i < j < |r| ensures r[i] != r[j] {
      NoRepeats(r, i, j);
    }
  }

  function DepartmentNames(items: seq<Item>): (r: seq<Option<string>>)
    ensures |r| == |items|
    ensures forall i :: 0 <= i < |items| ==> r[i] == items[i].departmentName
  {
    if items == [] then [] else [items[0].departmentName] + DepartmentNames(items[1..])
  }

  function LineNames(items: seq<Item>): (r: seq<Option<string>>)
    ensures |r| == |items|
    ensures forall i :: 0 <= i < |items| ==> r[i] == items[i].lineName
  {
    if items == [] then [] else [items[0].lineName] + LineNames(items[1..])
  }

  /** The department and line option lists of a loaded timeline. */
  method OptionLists(items: seq<Item>) returns (departments: seq<string>, lines: seq<string>)
    ensures departments == UniqueNames(DepartmentNames(items))
    ensures lines == UniqueNames(LineNames(items))
  {
    departments := UniqueNames(DepartmentNames(items));
    lines := UniqueNames(LineNames(items));
  }

  // ---------------------------------------------------------------------------------------
  // The component's state

  class Panel {
    var activities: seq<Item>
    var departments: seq<string>
    var lines: seq<string>
    var sortBy: SortKey
    var sortOrder: SortOrder
    var filters: Filters
    var selected: Option<Details>

    /** Newest first, no filter, nothing loaded. */
    constructor ()
      ensures activities == [] && departments == [] && lines == []
      ensures sortBy == ByDate && sortOrder == Desc && filters == NoFilters && selected == None
    {
      activities, departments, lines := [], [], [];
      sortBy, sortOrder, filters := ByDate, Desc, NoFilters;
      selected := None;
    }

    /** `fetchActivities` once the timeline has arrived: the list and both option lists. */
    method Load(data: seq<Item>)
      modifies this
      ensures activities == data
      ensures departments == UniqueNames(DepartmentNames(data)) && lines == UniqueNames(LineNames(data))
      ensures sortBy == old(sortBy) && sortOrder == old(sortOrder) && filters == old(filters)
      ensures selected == old(selected)
    {
      departments, lines := OptionLists(data);
      activities := data;
    }

    method ToggleSort(field: SortKey)
      modifies this
      ensures (sortBy, sortOrder) == NextSort(old(sortBy), old(sortOrder), field)
      ensures activities == old(activities) && filters == old(filters)
      ensures departments == old(departments) && lines == old(lines) && selected == old(selected)
    {
      if sortBy == field {
        sortOrder := if sortOrder == Asc then Desc else Asc;
      } else {
        sortBy := field;
        sortOrder := Asc;
      }
    }

    /** `fetchActivityDetails`: the item's own details, when it carries any. */
    method ShowDetails(a: Item)
      modifies this
      ensures selected == if a.details.Some? then a.details else old(selected)
      ensures activities == old(activities) && filters == old(filters)
      ensures sortBy == old(sortBy) && sortOrder == old(sortOrder)
      ensures departments == old(departments) && lines == old(lines)
    {
      if a.details.Some? {
        selected := a.details;
      }
    }

    /** What the table shows; the stored list is left as it is. */
    method Shown() returns (r: seq<Item>)
      ensures r == Arrange(activities, filters, sortBy, sortOrder)
    {
      r := FilterAndSort(activities, filters, sortBy, sortOrder);
    }
  }
}
