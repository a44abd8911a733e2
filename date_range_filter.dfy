/**
 * The date-range picker: a candidate range is staged while the user clicks in the
 * calendar, and only an explicit "apply" writes it into the filter store.
 */
module DateRangeFilter {
  import opened Wrappers
  import opened UnifiedFiltersContext

  /** What the calendar reports on a click: either endpoint may be missing. */
  datatype Selection = Selection(from: Option<int>, to: Option<int>)

  class DateRangePicker {
    const store: UnifiedFilters
    var tempRange: Option<DateRange>

    constructor (store: UnifiedFilters)
      ensures this.store == store && tempRange == None
    {
      this.store := store;
      tempRange := None;
    }

    /** `handleRangeSelect` */
    method HandleRangeSelect(range: Option<Selection>)
      modifies this`tempRange
      ensures range.Some? && range.value.from.Some? && range.value.to.Some? ==>
        tempRange == Some(DateRange(range.value.from.value, range.value.to.value))
      ensures range.Some? && range.value.from.Some? && range.value.to.None? ==>
        tempRange == Some(DateRange(range.value.from.value, range.value.from.value))
      ensures range.None? || range.value.from.None? ==> tempRange == old(tempRange)
    {
      if range.Some? && range.value.from.Some? && range.value.to.Some? {
        tempRange := Some(DateRange(range.value.from.value, range.value.to.value));
      } else if range.Some? && range.value.from.Some? {
        tempRange := Some(DateRange(range.value.from.value, range.value.from.value));
      }
    }

    /** Whether the "apply" button is enabled. */
    predicate CanApply()
      reads this
    {
      tempRange.Some?
    }

    /**
     * `applyRange`: the staged range is committed as it is, without checking that its
     * start precedes its end; with nothing staged the store is left alone.
     */
    method ApplyRange()
      modifies store
      ensures CanApply() ==> store.state == old(store.state).(dateRange := tempRange.value)
      ensures !CanApply() ==> store.state == old(store.state)
    {
      if tempRange.Some? {
        store.SetDateRange(tempRange.value);
      }
    }
  }

}
