/**
 * Request schemas of the dashboard API: the validated date range, the optional source
 * and product filters (an empty list means "all"), and the overview request.
 * Datetimes are integer seconds.
 */
module FilterSchemas {
  import opened Wrappers

  datatype DateRangeSchema = DateRangeSchema(from: int, to: int)

  /**
   * `validate_date_range`. `from` is absent when the start itself failed validation;
   * then there is nothing to compare with and the end is accepted.
   */
  function ValidateDateRange(from: Option<int>, to: int): (r: Result<int>)
    ensures r.Err? <==> from.Some? && to < from.value
    ensures r.Ok? ==> r.value == to
  {
    if from.Some? && to < from.value then Err("'to' date must be after or equal to 'from' date")
    else Ok(to)
  }

  /** A one-instant range is accepted. */
  lemma EqualEndsAccepted(t: int)
    ensures ValidateDateRange(Some(t), t) == Ok(t)
  {
  }

  /** Builds a range through the validator. */
  function MakeDateRange(from: int, to: int): (r: Result<DateRangeSchema>)
    ensures r.Ok? <==> from <= to
    ensures r.Ok? ==> r.value == DateRangeSchema(from, to)
  {
    match ValidateDateRange(Some(from), to)
    case Ok(t) => Ok(DateRangeSchema(from, t))
    case Err(e) => Err(e)
  }

  datatype FiltersSchema = FiltersSchema(sources: seq<string>, products: seq<string>)

  /** `FiltersSchema()` with nothing given: both lists empty, that is, no filtering. */
  const DefaultFilters: FiltersSchema := FiltersSchema([], [])

  datatype OverviewRequest = OverviewRequest(dateRange: DateRangeSchema, filters: FiltersSchema)

  /** An overview request, with the filters defaulted when the body has none. */
  function MakeOverviewRequest(dateRange: DateRangeSchema, filters: Option<FiltersSchema>): (r: OverviewRequest)
    ensures filters.None? ==> r.filters.sources == [] && r.filters.products == []
    ensures filters.Some? ==> r.filters == filters.value
    ensures r.dateRange == dateRange
  {
    OverviewRequest(dateRange, filters.GetOr(DefaultFilters))
  }
}
