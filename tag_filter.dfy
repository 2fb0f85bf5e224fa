/** The tag-filter dropdown. It owns only whether its menu is open; the
    selected tags belong to the application state, which it changes
    through the setter it is given. */
module TagFilter {
  import opened Text
  import opened TagLists
  import App

  /** The dropdown's own state. */
  class Dropdown {
    var isOpen: bool

    constructor ()
      ensures !isOpen
    {
      isOpen := false;
    }

    /** A click on the dropdown button flips the menu. */
    method ToggleOpen()
      modifies this`isOpen
      ensures isOpen == !old(isOpen)
    {
      isOpen := !isOpen;
    }

    /** A mouse press anywhere in the page: one outside the dropdown closes
        the menu, one inside leaves it as it was. Where the press landed is
        given, since the page's element tree is not modelled. */
    method MouseDown(insideDropdown: bool)
      modifies this`isOpen
      ensures isOpen == (old(isOpen) && insideDropdown)
    {
      if !insideDropdown {
        isOpen := false;
      }
    }
  }

  /** Clicking a tag in the menu or its remove button on a chip: a selected
      tag is filtered out, any other is appended. */
  method ToggleTag(app: App.AppState, tag: Tag)
    modifies app`selectedTags
    ensures app.selectedTags == Toggle(old(app.selectedTags), tag)
    ensures tag in app.selectedTags <==> tag !in old(app.selectedTags)
    ensures forall t :: t != tag ==> (t in app.selectedTags <==> t in old(app.selectedTags))
    ensures Distinct(old(app.selectedTags)) ==> Distinct(app.selectedTags)
  {
    ghost var before := app.selectedTags;
    ToggleFlips(before, tag);
    if Distinct(before) {
      ToggleKeepsDistinct(before, tag);
    }
    if tag in app.selectedTags {
      app.selectedTags := RemoveAll(app.selectedTags, tag);
    } else {
      app.selectedTags := app.selectedTags + [tag];
    }
  }

  /** "Clear all" empties the selection. */
  method ClearTags(app: App.AppState)
    modifies app`selectedTags
    ensures app.selectedTags == []
  {
    app.selectedTags := [];
  }

  /** Toggling never introduces a repeat: the selection the dropdown builds
      from an empty list stays free of duplicates. */
  lemma ToggleKeepsDistinct(xs: seq<Tag>, x: Tag)
    requires Distinct(xs)
    ensures Distinct(Toggle(xs, x))
  {
    if x in xs {
      RemoveAllDistinct(xs, x);
    } else {
      AppendIfAbsentDistinct(xs, x);
    }
  }

  /** The button's caption: a fixed prompt when nothing is selected, and
      otherwise the count in decimal followed by "tag" or "tags". */
  function Label(count: nat): (r: string)
    ensures r == "Filter by tags" <==> count == 0
    ensures count >= 1 ==> exists digits: string ::
      (forall i :: 0 <= i < |digits| ==> '0' <= digits[i] <= '9') &&
      (|digits| > 1 ==> digits[0] != '0') &&
      DecimalValue(digits) == count &&
      r == digits + " tag" + (if count > 1 then "s" else "") + " selected"
  {
    if count == 0 then "Filter by tags"
    else
      var digits := NatToString(count);
      DecimalRoundTrip(count);
      var r := digits + " tag" + (if count > 1 then "s" else "") + " selected";
      assert r[0] == digits[0];
      assert "Filter by tags"[0] == 'F';
      r
  }
}
