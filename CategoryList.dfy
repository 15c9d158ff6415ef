/**
 * One category list with its "Ver Mais" / "Ver Menos" button, as
 * `displayItemsInCategory` builds it in a container and as its click handler
 * expands and collapses it (script.js:21-103).
 *
 * The container is modelled as the sequence of its children: a card for item
 * `i` (marked "extra" when it lies beyond the initial limit), the toggle
 * button, or the "no items" message.
 */
module CategoryList {
  import opened Wrappers
  import opened Escolas
  import opened Sequences

  datatype Entry = Item(index: nat, extra: bool) | ToggleButton | EmptyMessage

  /** The toggle button's text: "Ver Mais (<n> restantes)" or "Ver Menos". */
  datatype Label = VerMais(restantes: int) | VerMenos

  /** The number of items shown before the list is expanded, when the caller gives none. */
  const DefaultLimit: nat := 3

  function Min(a: int, b: int): int {
    if a < b then a else b
  }

  /** The cards `renderItemsChunk` appends for items `lo` up to `hi - 1`. */
  function Chunk(lo: nat, hi: nat, limit: nat): seq<Entry> {
    seq(if lo <= hi then hi - lo else 0, k requires 0 <= k => Item(lo + k, lo + k >= limit))
  }

  predicate IsExtra(e: Entry) {
    e.Item? && e.extra
  }

  /** What the collapse branch leaves: every extra card removed, everything else in place. */
  function RemoveExtras(es: seq<Entry>): seq<Entry> {
    Filter(es, (e: Entry) => !IsExtra(e))
  }

  /** The container right after the initial render, for a list of `n` items. */
  function Collapsed(n: nat, limit: nat): seq<Entry> {
    if n == 0 then [EmptyMessage]
    else Chunk(0, Min(limit, n), limit) + (if n > limit then [ToggleButton] else [])
  }

  /** The container once the extra items have been appended after the button. */
  function Expanded(n: nat, limit: nat): seq<Entry> {
    Collapsed(n, limit) + Chunk(limit, n, limit)
  }

  function View(n: nat, limit: nat, expanded: bool): seq<Entry> {
    if expanded then Expanded(n, limit) else Collapsed(n, limit)
  }

  /** The button's text: none when there is no button. */
  function ButtonLabel(n: nat, limit: nat, expanded: bool): Option<Label> {
    if n > limit then Some(if expanded then VerMenos else VerMais(n - limit)) else None
  }

  /** How many cards a view shows. */
  function Shown(n: nat, limit: nat, expanded: bool): nat {
    if expanded then n else Min(limit, n)
  }

  /** The cards of a view are items 0 up to the number shown, and a card is extra exactly when its index is at least the limit. */
  lemma ViewCards(n: nat, limit: nat, expanded: bool, i: nat)
    requires expanded ==> n > limit
    ensures Item(i, i >= limit) in View(n, limit, expanded) <==> i < Shown(n, limit, expanded)
    ensures Item(i, i < limit) !in View(n, limit, expanded)
  {
    var v := View(n, limit, expanded);
    if i < Shown(n, limit, expanded) {
      if i < Min(limit, n) {
        assert v[i] == Item(i, i >= limit);
      } else {
        var c := Collapsed(n, limit);
        assert |c| == Min(limit, n) + 1;
        assert v[|c| + (i - limit)] == Item(i, i >= limit);
      }
    }
  }

  /** An empty list shows only the message; otherwise the button is there exactly when the list is longer than the limit. */
  lemma ButtonIffOverLimit(n: nat, limit: nat)
    ensures n == 0 ==> Collapsed(n, limit) == [EmptyMessage] && ButtonLabel(n, limit, false) == None
    ensures n > 0 ==> (ToggleButton in Collapsed(n, limit) <==> n > limit)
    ensures n > limit ==> ButtonLabel(n, limit, false) == Some(VerMais(n - limit))
  {
    if n > 0 && ToggleButton in Collapsed(n, limit) {
      var c := Chunk(0, Min(limit, n), limit);
      assert ToggleButton !in c;
    }
  }

  /** Collapsing an expanded list restores exactly the contents of the initial render. */
  lemma CollapseUndoesExpand(n: nat, limit: nat)
    requires n > limit
    ensures RemoveExtras(Expanded(n, limit)) == Collapsed(n, limit)
  {
    var keep := (e: Entry) => !IsExtra(e);
    FilterConcat(Collapsed(n, limit), Chunk(limit, n, limit), keep);
    FilterKeepsAll(Collapsed(n, limit), keep);
    FilterKeepsNone(Chunk(limit, n, limit), keep);
  }

  /** The container of one category list, with the state its click handler closes over. */
  class CategoryView {
    /** The container's children, in document order. */
    var entries: seq<Entry>
    /** The list given to the last render (empty when it was absent). */
    var items: seq<Escola>
    var limit: nat
    /** The closure flag `isExpanded`. */
    var expanded: bool
    /** The toggle button's text; `None` when no button was created. */
    var buttonText: Option<Label>

    ghost predicate Valid()
      reads this
    {
      && (expanded ==> |items| > limit)
      && entries == View(|items|, limit, expanded)
      && buttonText == ButtonLabel(|items|, limit, expanded)
    }

    /** An empty container, as the page's markup provides it; the view is `Valid()` only once `Display` has rendered a list into it. */
    constructor ()
      ensures entries == [] && items == [] && !expanded && buttonText == None
    {
      entries, items, limit, expanded, buttonText := [], [], DefaultLimit, false, None;
    }

    /** `displayItemsInCategory(items, containerId, limit)`: replace the container's contents with the collapsed list. */
    method Display(list: Option<seq<Escola>>, lim: nat := DefaultLimit)
      modifies this
      ensures items == (if list.Some? then list.value else [])
      ensures limit == lim && !expanded
      ensures entries == Collapsed(|items|, limit)
      ensures buttonText == ButtonLabel(|items|, limit, false)
      ensures Valid()
    {
      entries := [];
      items := if list.Some? then list.value else [];
      limit := lim;
      expanded := false;
      buttonText := None;
      if |items| == 0 {
        entries := [EmptyMessage];
        return;
      }
      RenderChunk(0, limit);
      if |items| > limit {
        buttonText := Some(VerMais(|items| - limit));
        entries := entries + [ToggleButton];
      }
    }

    /** `renderItemsChunk(startIndex, endIndex)`: append cards for items `startIndex` up to the smaller of `endIndex` and the list length. */
    method RenderChunk(start: nat, end: nat)
      modifies this`entries
      ensures entries == old(entries) + Chunk(start, Min(end, |items|), limit)
    {
      var actualEnd := Min(end, |items|);
      var i := start;
      while i < actualEnd
        invariant start <= i
        invariant i <= actualEnd || i == start
        invariant entries == old(entries) + Chunk(start, i, limit)
      {
        assert Chunk(start, i + 1, limit) == Chunk(start, i, limit) + [Item(i, i >= limit)];
        entries := entries + [Item(i, i >= limit)];
        i := i + 1;
      }
    }

    /** `container.querySelectorAll('.category-item-extra').forEach(removeChild)`. */
    method RemoveExtraItems()
      modifies this`entries
      ensures entries == RemoveExtras(old(entries))
    {
      var kept: seq<Entry> := [];
      var i := 0;
      while i < |entries|
        invariant 0 <= i <= |entries|
        invariant entries == old(entries)
        invariant kept == RemoveExtras(entries[..i])
      {
        assert entries[..i + 1] == entries[..i] + [entries[i]];
        FilterConcat(entries[..i], [entries[i]], (e: Entry) => !IsExtra(e));
        if !IsExtra(entries[i]) {
          kept := kept + [entries[i]];
        }
        i := i + 1;
      }
      assert entries[..i] == entries;
      entries := kept;
    }

    /** A click on the toggle button: flip the flag, then append the extra items or remove them, and relabel. Without a button there is nothing to click. */
    method Click()
      requires Valid()
      modifies this
      ensures Valid()
      ensures items == old(items) && limit == old(limit)
      ensures expanded == (if old(buttonText).Some? then !old(expanded) else old(expanded))
      ensures old(buttonText) == None ==> entries == old(entries)
    {
      if buttonText == None {
        return;
      }
      expanded := !expanded;
      if expanded {
        RenderChunk(limit, |items|);
        buttonText := Some(VerMenos);
      } else {
        RemoveExtraItems();
        CollapseUndoesExpand(|items|, limit);
        buttonText := Some(VerMais(|items| - limit));
      }
    }
  }

  /** Expanding and then collapsing a list brings its container back to the initial render. */
  method ExpandThenCollapse(view: CategoryView)
    requires view.Valid() && !view.expanded
    modifies view
    ensures view.Valid() && view.entries == old(view.entries) && view.buttonText == old(view.buttonText)
  {
    view.Click();
    view.Click();
  }
}
