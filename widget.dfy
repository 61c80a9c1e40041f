/** The state machine of the `MemeGenerator` component: one field per
    state hook, one method per event handler, and the conditions that
    decide what is on screen. Each handler runs to completion before the
    next event is handled. */
module Widget {
  import opened Catalog

  /** What the component shows, as far as its state decides it. */
  datatype Screen = Screen(
    spinner: bool,               // the catalog spinner instead of the strip
    strip: seq<Meme>,            // the templates in the carousel
    loadMoreButton: bool,        // the "Load More" button
    loadMoreDisabled: bool,      // that button is disabled
    panel: Option<Meme>          // the customization panel, for this template
  )

  /** The conditional parts of the component's output for a given state. */
  function Render(loading: bool, memes: seq<Meme>, visible: seq<Meme>,
                  moreLoading: bool, selected: Option<Meme>): Screen
  {
    Screen(
      spinner := loading,
      strip := if loading then [] else visible,
      loadMoreButton := !loading && |visible| < |memes|,
      loadMoreDisabled := moreLoading,
      panel := selected)
  }

  /** While the strip is a prefix of the catalog, the "Load More" button
      is on screen exactly when pressing it would reveal something. */
  lemma LoadMoreButtonIff(loading: bool, memes: seq<Meme>, visible: seq<Meme>,
                          moreLoading: bool, selected: Option<Meme>)
    requires IsPrefix(visible, memes)
    ensures Render(loading, memes, visible, moreLoading, selected).loadMoreButton
            <==> !loading && NextVisible(memes, visible) != visible
  {
  }

  /** The customization panel is on screen exactly when a template is
      selected, and it shows that template. */
  lemma PanelIff(loading: bool, memes: seq<Meme>, visible: seq<Meme>,
                 moreLoading: bool, selected: Option<Meme>)
    ensures Render(loading, memes, visible, moreLoading, selected).panel.Some? <==> selected.Some?
    ensures selected.Some? ==> Render(loading, memes, visible, moreLoading, selected).panel.value == selected.value
  {
  }

  class MemeGenerator {
    var memes: seq<Meme>
    var visibleMemes: seq<Meme>
    var selectedMeme: Option<Meme>
    var text: string
    var textPosition: Position
    var loading: bool
    var moreLoading: bool
    /** Number of "Load More" presses since the catalog arrived. */
    ghost var loadMores: nat

    /** The visible strip is the catalog's first pages: a prefix of the
        catalog of length `min(4 * (loadMores + 1), |memes|)`. */
    ghost predicate Valid()
      reads this
    {
      IsPrefix(visibleMemes, memes) && visibleMemes == Pages(memes, loadMores)
    }

    function View(): Screen
      reads this
    {
      Render(loading, memes, visibleMemes, moreLoading, selectedMeme)
    }

    /** The initial hook values. */
    constructor ()
      ensures Valid() && loadMores == 0
      ensures memes == [] && visibleMemes == [] && selectedMeme == None
      ensures text == "" && textPosition == Position(0, 0)
      ensures loading && !moreLoading
      ensures View().spinner && View().panel == None
    {
      memes := [];
      visibleMemes := [];
      selectedMeme := None;
      text := "";
      textPosition := Position(0, 0);
      loading := true;
      moreLoading := false;
      loadMores := 0;
    }

    /** The start of the catalog fetch raises the loading flag. */
    method StartFetch()
      modifies this`loading
      ensures loading && View().spinner
    {
      loading := true;
    }

    /** The catalog fetch completed with `catalog`: store it, show its
        first page and clear the loading flag. */
    method CatalogArrived(catalog: seq<Meme>)
      modifies this`memes, this`visibleMemes, this`loading, this`loadMores
      ensures Valid() && loadMores == 0
      ensures memes == catalog && !loading
      ensures |visibleMemes| == Min(MemesPerLoad, |catalog|)
      ensures visibleMemes == catalog[..|visibleMemes|]
      ensures !View().spinner && View().strip == visibleMemes
    {
      memes := catalog;
      visibleMemes := Take(catalog, MemesPerLoad);
      loading := false;
      loadMores := 0;
    }

    /** "Load More": reveal the next page of the catalog. */
    method LoadMoreMemes()
      requires Valid()
      modifies this`visibleMemes, this`moreLoading, this`loadMores
      ensures Valid() && loadMores == old(loadMores) + 1
      ensures |visibleMemes| == Min(|old(visibleMemes)| + MemesPerLoad, |memes|)
      ensures |visibleMemes| == Min(MemesPerLoad * (loadMores + 1), |memes|)
      ensures IsPrefix(old(visibleMemes), visibleMemes) && IsPrefix(visibleMemes, memes)
      ensures |old(visibleMemes)| == |memes| ==> visibleMemes == old(visibleMemes)
      ensures !moreLoading
    {
      if |visibleMemes| == |memes| {
        LoadMoreAtEnd(memes, visibleMemes);
      }
      moreLoading := true;
      var newVisibleMemes := NextVisible(memes, visibleMemes);
      visibleMemes := newVisibleMemes;
      moreLoading := false;
      loadMores := loadMores + 1;
      PagesIsTake(memes, loadMores);
    }

    /** A click on a template in the strip. */
    method SelectMeme(meme: Meme)
      requires Valid()
      modifies this`selectedMeme
      ensures Valid()
      ensures selectedMeme == Some(meme) && View().panel == Some(meme)
    {
      selectedMeme := Some(meme);
    }

    /** The caption was released after a drag at offset (`x`, `y`); the
        offset is taken as reported, without clamping. */
    method DragStop(x: int, y: int)
      requires Valid()
      modifies this`textPosition
      ensures Valid()
      ensures textPosition == Position(x, y)
    {
      textPosition := Position(x, y);
    }

    /** The caption field's content changed to `value`; any string is
        stored as it is. */
    method TextChange(value: string)
      requires Valid()
      modifies this`text
      ensures Valid()
      ensures text == value
    {
      text := value;
    }
  }

  /** A catalog of five templates: the first page holds four, one press
      reveals the fifth, a second press changes nothing and the button is
      gone. */
  method FiveTemplateScenario()
  {
    var t1 := Meme("1", "Drake", "u1");
    var t2 := Meme("2", "Woman Yelling", "u2");
    var t3 := Meme("3", "Distracted", "u3");
    var t4 := Meme("4", "Two Buttons", "u4");
    var t5 := Meme("5", "Change My Mind", "u5");
    var g := new MemeGenerator();
    assert g.View().spinner && g.View().strip == [];
    g.CatalogArrived([t1, t2, t3, t4, t5]);
    assert g.visibleMemes == [t1, t2, t3, t4];
    assert g.View().loadMoreButton;
    g.LoadMoreMemes();
    assert g.visibleMemes == [t1, t2, t3, t4, t5];
    assert !g.View().loadMoreButton;
    g.LoadMoreMemes();
    assert g.visibleMemes == [t1, t2, t3, t4, t5];
    assert !g.View().loadMoreButton;
  }

  /** Select the second template, type a caption and drag it twice to the
      same place; every other part of the state is as before. */
  method CustomizeScenario()
  {
    var t1 := Meme("1", "Drake", "u1");
    var t2 := Meme("2", "Woman Yelling", "u2");
    var g := new MemeGenerator();
    g.CatalogArrived([t1, t2]);
    assert !g.View().loadMoreButton;
    g.SelectMeme(t2);
    g.TextChange("");
    assert g.text == "";
    g.TextChange("  \n  ");
    assert g.text == "  \n  ";
    g.TextChange("TOP TEXT");
    g.DragStop(40, 15);
    g.DragStop(40, 15);
    assert g.textPosition == Position(40, 15);
    g.DragStop(-500, 9000);
    assert g.textPosition == Position(-500, 9000);
    assert g.selectedMeme == Some(t2) && g.text == "TOP TEXT";
    assert g.visibleMemes == [t1, t2] && !g.loading;
  }
}
