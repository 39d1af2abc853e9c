/**
 * frontend/src/components/TaskFilter.jsx: five filter fields, chip toggles
 * for status and priority, date inputs, and "clear all". Each change is
 * reported to the owner's `onFilterChange`; the component keeps the last
 * filter it emitted through `emitChange` in `latestFilters`.
 */
module TaskFilter {
  import opened Wrappers

  /** The object passed to `onFilterChange`. */
  datatype Filters = Filters(search: string, status: string, priority: string, dateFrom: string, dateTo: string)

  const NoFilters: Filters := Filters("", "", "", "", "")

  /** The argument of `emitChange`: the fields present replace the current ones. */
  datatype Overrides = Overrides(
    search: Option<string>,
    status: Option<string>,
    priority: Option<string>,
    dateFrom: Option<string>,
    dateTo: Option<string>)

  function Pick(overridden: Option<string>, current: string): string
  {
    if overridden.Some? then overridden.value else current
  }

  /** `{ search, status, priority, dateFrom, dateTo, ...overrides }`. */
  function Override(current: Filters, o: Overrides): (r: Filters)
    ensures r.search == (if o.search.Some? then o.search.value else current.search)
    ensures r.status == (if o.status.Some? then o.status.value else current.status)
    ensures r.priority == (if o.priority.Some? then o.priority.value else current.priority)
    ensures r.dateFrom == (if o.dateFrom.Some? then o.dateFrom.value else current.dateFrom)
    ensures r.dateTo == (if o.dateTo.Some? then o.dateTo.value else current.dateTo)
    ensures o == Overrides(None, None, None, None, None) ==> r == current
  {
    Filters(Pick(o.search, current.search), Pick(o.status, current.status), Pick(o.priority, current.priority),
            Pick(o.dateFrom, current.dateFrom), Pick(o.dateTo, current.dateTo))
  }

  /** The new value of a chip field when chip `chip` is clicked. */
  function Toggled(current: string, chip: string): (r: string)
    ensures r == "" || r == chip
    ensures r == "" <==> current == chip || chip == ""
  {
    if chip == current then "" else chip
  }

  /** Clicking the same chip twice: a selected chip stays selected, anything else ends unselected. */
  lemma ToggleTwice(current: string, chip: string)
    ensures Toggled(Toggled(current, chip), chip) == (if current == chip then chip else "")
  {
  }

  /** Clicking a chip twice starting from no selection leaves no selection. */
  lemma ToggleTwiceFromNone(chip: string)
    ensures Toggled(Toggled("", chip), chip) == ""
  {
    ToggleTwice("", chip);
  }

  class FilterPanel {
    var search: string
    var status: string
    var priority: string
    var dateFrom: string
    var dateTo: string
    /** `latestFilters.current`; `None` stands for the initial `{}`. */
    var latestFilters: Option<Filters>
    /** The arguments of every `onFilterChange` call, in order. */
    var emitted: seq<Filters>

    function Current(): Filters
      reads this
    {
      Filters(search, status, priority, dateFrom, dateTo)
    }

    /** `hasActiveFilters()`: some field is non-empty. */
    predicate HasActiveFilters()
      reads this
      ensures HasActiveFilters() <==> Current() != NoFilters
    {
      search != "" || status != "" || priority != "" || dateFrom != "" || dateTo != ""
    }

    constructor()
      ensures Current() == NoFilters && latestFilters.None? && emitted == []
    {
      search, status, priority, dateFrom, dateTo := "", "", "", "", "";
      latestFilters := None;
      emitted := [];
    }

    /** `emitChange(overrides)`: reports the current fields with the overrides applied and remembers them. */
    method EmitChange(o: Overrides)
      modifies this
      ensures latestFilters == Some(Override(old(Current()), o))
      ensures emitted == old(emitted) + [Override(old(Current()), o)]
      ensures Current() == old(Current())
    {
      var next := Override(Current(), o);
      latestFilters := Some(next);
      emitted := emitted + [next];
    }

    /** `handleSearchChange(value)` up to the debounce timer: the search field changes, nothing is emitted yet. */
    method HandleSearchChange(value: string)
      modifies this
      ensures Current() == old(Current()).(search := value)
      ensures latestFilters == old(latestFilters) && emitted == old(emitted)
    {
      search := value;
    }

    /** `toggleStatusChip(type)`: the field toggles and the new filters are emitted. */
    method ToggleStatusChip(chip: string)
      modifies this
      ensures Current() == old(Current()).(status := Toggled(old(status), chip))
      ensures latestFilters == Some(Current()) && emitted == old(emitted) + [Current()]
    {
      if chip == status {
        status := "";
        EmitChange(Overrides(None, Some(""), None, None, None));
      } else {
        status := chip;
        EmitChange(Overrides(None, Some(chip), None, None, None));
      }
    }

    /** `togglePriorityChip(type)`: the same rule for priority. */
    method TogglePriorityChip(chip: string)
      modifies this
      ensures Current() == old(Current()).(priority := Toggled(old(priority), chip))
      ensures latestFilters == Some(Current()) && emitted == old(emitted) + [Current()]
    {
      if chip == priority {
        priority := "";
        EmitChange(Overrides(None, None, Some(""), None, None));
      } else {
        priority := chip;
        EmitChange(Overrides(None, None, Some(chip), None, None));
      }
    }

    /** `handleDateFrom(value)`. */
    method HandleDateFrom(value: string)
      modifies this
      ensures Current() == old(Current()).(dateFrom := value)
      ensures latestFilters == Some(Current()) && emitted == old(emitted) + [Current()]
    {
      dateFrom := value;
      EmitChange(Overrides(None, None, None, Some(value), None));
    }

    /** `handleDateTo(value)`. */
    method HandleDateTo(value: string)
      modifies this
      ensures Current() == old(Current()).(dateTo := value)
      ensures latestFilters == Some(Current()) && emitted == old(emitted) + [Current()]
    {
      dateTo := value;
      EmitChange(Overrides(None, None, None, None, Some(value)));
    }

    /** `clearAll()`: every field empties and the empty filters are reported directly, bypassing `latestFilters`. */
    method ClearAll()
      modifies this
      ensures Current() == NoFilters && !HasActiveFilters()
      ensures emitted == old(emitted) + [NoFilters]
      ensures latestFilters == old(latestFilters)
    {
      search, status, priority, dateFrom, dateTo := "", "", "", "", "";
      emitted := emitted + [NoFilters];
    }
  }

  /** Clicking the same status chip twice from no selection: both clicks are reported, the first with the chip selected, the second with it cleared. */
  method ClickStatusTwice(panel: FilterPanel, chip: string)
    modifies panel
    requires panel.status == ""
    ensures panel.status == ""
    ensures |panel.emitted| == |old(panel.emitted)| + 2
    ensures panel.emitted[|panel.emitted| - 1] == panel.Current()
    ensures panel.emitted[|panel.emitted| - 2] == panel.Current().(status := chip)
  {
    panel.ToggleStatusChip(chip);
    panel.ToggleStatusChip(chip);
  }
}
