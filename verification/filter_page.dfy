/** frontend src/pages/FilterPage.tsx: the filter panel shared by the
    project and hackathon catalogues. It offers the tags found on the
    listed items and computes the new filter each control hands back to the
    page; the filter itself is `ProjectPage.CatalogueFilter`. */
module FilterPage {
  import opened Common
  import opened Lists
  import opened ProjectPage

  /** The tags of one listed item; an item without tags counts as none. */
  function TagsOf(tags: Option<seq<string>>): seq<string> {
    tags.GetOr([])
  }

  /** `allTags`: every tag of every item, each once, in order of first
      occurrence. */
  function AllTags(items: seq<Option<seq<string>>>): (r: seq<string>)
    ensures NoDuplicates(r)
    ensures forall t :: t in r <==> exists i :: 0 <= i < |items| && t in TagsOf(items[i])
  {
    var lists := Map(items, TagsOf);
    Distinct(Flatten(lists))
  }

  /** The tags of the earlier items are offered first, in their own order:
      listing more items only adds tags at the end. */
  lemma AllTagsPrefix(items: seq<Option<seq<string>>>, more: seq<Option<seq<string>>>)
    ensures |AllTags(items)| <= |AllTags(items + more)|
    ensures AllTags(items + more)[..|AllTags(items)|] == AllTags(items)
  {
    assert Map(items + more, TagsOf) == Map(items, TagsOf) + Map(more, TagsOf);
    FlattenAppend(Map(items, TagsOf), Map(more, TagsOf));
    DistinctPrefix(Flatten(Map(items, TagsOf)), Flatten(Map(more, TagsOf)));
  }

  /** An item without tags adds nothing to the list. */
  lemma UntaggedAddsNothing(items: seq<Option<seq<string>>>)
    ensures AllTags(items + [None]) == AllTags(items)
  {
    var lists := Map(items, TagsOf);
    var none: seq<seq<string>> := [[]];
    assert Map(items + [None], TagsOf) == lists + none;
    FlattenAppend(lists, none);
    assert Flatten(none) == [];
    assert Flatten(lists) + [] == Flatten(lists);
  }

  /** The ✕ on a theme chip: that theme goes, with every repeat of it, and
      the other fields stay. */
  function RemoveTheme(f: CatalogueFilter, theme: string): (r: CatalogueFilter)
    ensures theme !in r.themes
    ensures forall t :: t != theme ==> (t in r.themes <==> t in f.themes)
    ensures r.status == f.status && r.format == f.format && r.location == f.location && r.search == f.search
  {
    f.(themes := RemoveAll(f.themes, theme))
  }

  /** A click on a theme in the drop-down: a selected theme is removed, an
      unselected one is appended. */
  function ToggleTheme(f: CatalogueFilter, theme: string): (r: CatalogueFilter)
    ensures theme in r.themes <==> theme !in f.themes
    ensures theme !in f.themes ==> r.themes == f.themes + [theme]
    ensures forall t :: t != theme ==> (t in r.themes <==> t in f.themes)
    ensures r.status == f.status && r.format == f.format && r.location == f.location && r.search == f.search
  {
    if theme in f.themes then RemoveTheme(f, theme) else f.(themes := f.themes + [theme])
  }

  /** Two clicks on a theme that was not selected give back the filter. */
  lemma ToggleTwice(f: CatalogueFilter, theme: string)
    requires theme !in f.themes
    ensures ToggleTheme(ToggleTheme(f, theme), theme) == f
  {
    RemoveAllAppended(f.themes, theme);
  }

  /** The three other controls of the panel. */
  datatype Control = StatusSelect | FormatSelect | LocationInput

  /** The filter after a control is set to `v`: that field alone changes. */
  function Edited(f: CatalogueFilter, c: Control, v: string): (r: CatalogueFilter)
    ensures r.status == (if c == StatusSelect then v else f.status)
    ensures r.format == (if c == FormatSelect then v else f.format)
    ensures r.location == (if c == LocationInput then v else f.location)
    ensures r.themes == f.themes && r.search == f.search
  {
    match c
    case StatusSelect => f.(status := v)
    case FormatSelect => f.(format := v)
    case LocationInput => f.(location := v)
  }
}
