/**
 * The sources widget: toggling one source, clearing, and the button caption.
 */
module SourcesFilter {
  import opened Wrappers
  import Seqs
  import Strings
  import opened UnifiedFiltersContext

  /** `toggleSource` */
  method ToggleSource(store: UnifiedFilters, source: string)
    modifies store
    ensures store.state == old(store.state).(sources := Seqs.Toggle(old(store.state).sources, source))
  {
    var current := store.state.sources;
    var next := if source in current then Seqs.Remove(current, source) else current + [source];
    store.SetSources(next);
  }

  /** `clearSources` */
  method ClearSources(store: UnifiedFilters)
    modifies store
    ensures store.state == old(store.state).(sources := [])
  {
    store.SetSources([]);
  }

  /** `getSelectedSourcesText` */
  function SelectedSourcesText(selected: seq<string>, available: seq<SourceOption>): (r: string)
    ensures |selected| == 0 ==> r == "Все источники"
    ensures |selected| == 1 ==>
      var found := Seqs.FindFirst(available, (s: SourceOption) => s.value, selected[0]);
      r == if found.Some? && found.value.title != "" then found.value.title else "1 источник"
    ensures |selected| > 1 ==> r == Strings.NatToString(|selected|) + " источников"
  {
    if |selected| == 0 then "Все источники"
    else if |selected| == 1 then
      var found := Seqs.FindFirst(available, (s: SourceOption) => s.value, selected[0]);
      if found.Some? && found.value.title != "" then found.value.title else "1 источник"
    else Strings.NatToString(|selected|) + " источников"
  }
}
