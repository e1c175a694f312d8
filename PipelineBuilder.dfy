/** The pipeline-builder widget: an ordered list of filter widgets with one
    selected entry, the up/down buttons that move the selection by one
    place, adding and removing widgets, and the Go/Cancel button that
    assembles the pipeline by walking the list in order. Widgets are plain
    values with an identity; drawing, styles and the worker thread are not
    part of this model. */
module PipelineBuilder {
  import opened Wrappers
  import QtText

  /** An entry of the filter layout: a filter widget wrapping the named
      filter, or any other widget the layout may hold. */
  datatype Widget = FilterWidget(id: nat, filter: string) | OtherWidget(id: nat)

  /** No widget occurs twice, position by position. */
  predicate Distinct(l: seq<Widget>) {
    forall i, j :: 0 <= i < |l| && 0 <= j < |l| && i != j ==> l[i] != l[j]
  }

  /** The same property stated along the list: the first widget does not
      occur again, and neither does any later one. */
  predicate NoRepeats(l: seq<Widget>) {
    |l| == 0 || (l[0] !in l[1..] && NoRepeats(l[1..]))
  }

  lemma {:induction false} NoRepeatsIsDistinct(l: seq<Widget>)
    ensures NoRepeats(l) <==> Distinct(l)
  {
    if |l| > 0 {
      var t := l[1..];
      NoRepeatsIsDistinct(t);
      if NoRepeats(l) {
        forall i, j | 0 <= i < |l| && 0 <= j < |l| && i != j
          ensures l[i] != l[j]
        {
          if i == 0 {
            assert l[j] == t[j - 1];
          } else if j == 0 {
            assert l[i] == t[i - 1];
          } else {
            assert l[i] == t[i - 1] && l[j] == t[j - 1];
          }
        }
      }
      if Distinct(l) {
        forall k | 0 <= k < |t|
          ensures t[k] != l[0]
        {
          assert t[k] == l[k + 1];
        }
        forall i, j | 0 <= i < |t| && 0 <= j < |t| && i != j
          ensures t[i] != t[j]
        {
          assert t[i] == l[i + 1] && t[j] == l[j + 1];
        }
      }
    }
  }

  // ---------------------------------------------------------------------------
  // The layout operations
  // ---------------------------------------------------------------------------

  /** QLayout::indexOf: the position of the first occurrence, -1 if absent. */
  function IndexOf(l: seq<Widget>, w: Widget): (i: int)
    ensures -1 <= i < |l|
    ensures i == -1 <==> w !in l
    ensures 0 <= i ==> l[i] == w && w !in l[..i]
  {
    if |l| == 0 then -1
    else if l[0] == w then 0
    else
      var j := IndexOf(l[1..], w);
      if j < 0 then -1
      else
        assert l[..j + 1] == [l[0]] + l[1..][..j];
        j + 1
  }

  /** QLayout::removeWidget: the first occurrence is taken out. */
  function Remove(l: seq<Widget>, w: Widget): seq<Widget> {
    var i := IndexOf(l, w);
    if i < 0 then l else l[..i] + l[i + 1..]
  }

  /** QBoxLayout::insertWidget: a negative index appends. */
  function Insert(l: seq<Widget>, i: int, w: Widget): seq<Widget>
    requires i <= |l|
  {
    if i < 0 then l + [w] else l[..i] + [w] + l[i..]
  }

  /** Positions i and i+1 exchanged. */
  function Swap(l: seq<Widget>, i: nat): seq<Widget>
    requires i + 1 < |l|
  {
    l[i := l[i + 1]][i + 1 := l[i]]
  }

  /** The list after a click on "down" with `selected` selected: the widget is
      taken out and put back one place later, provided it is in the list and
      not last. */
  function MovedDown(l: seq<Widget>, selected: Option<Widget>): seq<Widget> {
    if selected.None? then l
    else
      var i := IndexOf(l, selected.value);
      if 0 <= i < |l| - 1 then Insert(Remove(l, selected.value), i + 1, selected.value) else l
  }

  /** The list after a click on "up": the widget is taken out and put back
      one place earlier, provided it is in the list and not first. */
  function MovedUp(l: seq<Widget>, selected: Option<Widget>): seq<Widget> {
    if selected.None? then l
    else
      var i := IndexOf(l, selected.value);
      if i > 0 then Insert(Remove(l, selected.value), i - 1, selected.value) else l
  }

  /** Moving down from position i < count-1 exchanges positions i and i+1. */
  lemma MoveDownSwaps(l: seq<Widget>, w: Widget)
    requires 0 <= IndexOf(l, w) < |l| - 1
    ensures MovedDown(l, Some(w)) == Swap(l, IndexOf(l, w))
  {
    var i := IndexOf(l, w);
    var r := l[..i] + l[i + 1..];
    assert Remove(l, w) == r;
    var m := r[..i + 1] + [w] + r[i + 1..];
    assert |m| == |l|;
    forall k | 0 <= k < |l|
      ensures m[k] == Swap(l, i)[k]
    {
      if k < i {
        assert m[k] == r[k] == l[k];
      } else if k == i {
        assert m[k] == r[i] == l[i + 1];
      } else if k == i + 1 {
        assert m[k] == w == l[i];
      } else {
        assert m[k] == r[k - 1] == l[k];
      }
    }
  }

  /** Moving up from position i > 0 exchanges positions i-1 and i. */
  lemma MoveUpSwaps(l: seq<Widget>, w: Widget)
    requires IndexOf(l, w) > 0
    ensures MovedUp(l, Some(w)) == Swap(l, IndexOf(l, w) - 1)
  {
    var i := IndexOf(l, w);
    var r := l[..i] + l[i + 1..];
    assert Remove(l, w) == r;
    var m := r[..i - 1] + [w] + r[i - 1..];
    assert |m| == |l|;
    forall k | 0 <= k < |l|
      ensures m[k] == Swap(l, i - 1)[k]
    {
      if k < i - 1 {
        assert m[k] == r[k] == l[k];
      } else if k == i - 1 {
        assert m[k] == w == l[i];
      } else if k == i {
        assert m[k] == r[i - 1] == l[i - 1];
      } else {
        assert m[k] == r[k - 1] == l[k];
      }
    }
  }

  /** An exchange of neighbours is a permutation that keeps the list free of
      repetitions and leaves every other position alone. */
  lemma SwapIsPermutation(l: seq<Widget>, i: nat)
    requires i + 1 < |l|
    ensures multiset(Swap(l, i)) == multiset(l)
    ensures Distinct(l) ==> Distinct(Swap(l, i))
    ensures forall k :: 0 <= k < |l| && k != i && k != i + 1 ==> Swap(l, i)[k] == l[k]
  {
    SwapSameMultiset(l, i);
    if Distinct(l) {
      SwapKeepsDistinct(l, i);
    }
  }

  lemma SwapSameMultiset(l: seq<Widget>, i: nat)
    requires i + 1 < |l|
    ensures multiset(Swap(l, i)) == multiset(l)
  {
    var s := Swap(l, i);
    assert s == l[..i] + [l[i + 1], l[i]] + l[i + 2..];
    assert l == l[..i] + [l[i], l[i + 1]] + l[i + 2..];
  }

  lemma SwapKeepsDistinct(l: seq<Widget>, i: nat)
    requires i + 1 < |l| && Distinct(l)
    ensures Distinct(Swap(l, i))
  {
    var s := Swap(l, i);
    forall a, b | 0 <= a < |s| && 0 <= b < |s| && a != b
      ensures s[a] != s[b]
    {
      var pa := if a == i then i + 1 else if a == i + 1 then i else a;
      var pb := if b == i then i + 1 else if b == i + 1 then i else b;
      assert s[a] == l[pa] && s[b] == l[pb];
    }
  }

  /** "Down" changes the list exactly when the selection is in it and not
      last; otherwise (no selection, not found, last) nothing changes. */
  lemma MoveDownChangesIff(l: seq<Widget>, selected: Option<Widget>)
    requires Distinct(l)
    ensures MovedDown(l, selected) != l <==>
      selected.Some? && 0 <= IndexOf(l, selected.value) < |l| - 1
  {
    if selected.Some? && 0 <= IndexOf(l, selected.value) < |l| - 1 {
      var i := IndexOf(l, selected.value);
      MoveDownSwaps(l, selected.value);
      assert Swap(l, i)[i] == l[i + 1] != l[i];
    }
  }

  /** "Up" changes the list exactly when the selection is in it and not first. */
  lemma MoveUpChangesIff(l: seq<Widget>, selected: Option<Widget>)
    requires Distinct(l)
    ensures MovedUp(l, selected) != l <==>
      selected.Some? && IndexOf(l, selected.value) > 0
  {
    if selected.Some? && IndexOf(l, selected.value) > 0 {
      var i := IndexOf(l, selected.value);
      MoveUpSwaps(l, selected.value);
      assert Swap(l, i - 1)[i] == l[i - 1] != l[i];
    }
  }

  /** "Up" then "down" on the same widget restores the list. */
  lemma UpThenDownRestores(l: seq<Widget>, w: Widget)
    requires IndexOf(l, w) > 0
    ensures MovedDown(MovedUp(l, Some(w)), Some(w)) == l
  {
    var i := IndexOf(l, w);
    MoveUpSwaps(l, w);
    var u := Swap(l, i - 1);
    assert w !in u[..i - 1] by {
      assert u[..i - 1] == l[..i - 1] == l[..i][..i - 1];
    }
    IndexOfFirst(u, w, i - 1);
    MoveDownSwaps(u, w);
    SwapTwice(l, i - 1);
  }

  lemma SwapTwice(l: seq<Widget>, i: nat)
    requires i + 1 < |l|
    ensures Swap(Swap(l, i), i) == l
  {
  }

  /** "Down" then "up" on the same widget restores a list without repetitions. */
  lemma DownThenUpRestores(l: seq<Widget>, w: Widget)
    requires Distinct(l)
    requires 0 <= IndexOf(l, w) < |l| - 1
    ensures MovedUp(MovedDown(l, Some(w)), Some(w)) == l
  {
    var i := IndexOf(l, w);
    MoveDownSwaps(l, w);
    var d := Swap(l, i);
    assert d[i + 1] == w;
    assert w !in d[..i + 1] by {
      assert d[..i + 1] == l[..i] + [l[i + 1]];
      assert l[i + 1] != l[i];
    }
    IndexOfFirst(d, w, i + 1);
    MoveUpSwaps(d, w);
    SwapTwice(l, i);
  }

  // ---------------------------------------------------------------------------
  // The up/down enable rule
  // ---------------------------------------------------------------------------

  datatype Buttons = Buttons(up: bool, down: bool)

  /** The enable rule of setSelectedFilterWidget, for the selection's index
      and the layout's count: both follow "more than one entry", then index 0
      disables up, or else index count-1 disables down. */
  function EnableRule(index: int, count: int): Buttons {
    var both := count > 1;
    if index == 0 then Buttons(false, both)
    else if index == count - 1 then Buttons(both, false)
    else Buttons(both, both)
  }

  /** The rule case by case: one entry or none disables both; otherwise up is
      disabled only at index 0 and down only at index count-1. */
  lemma EnableRuleCases(index: int, count: int)
    ensures count <= 1 ==> !EnableRule(index, count).up && !EnableRule(index, count).down
    ensures count > 1 ==> (EnableRule(index, count).up <==> index != 0)
    ensures count > 1 ==> (EnableRule(index, count).down <==> index != count - 1)
  {
  }

  /** For a selection in the list, each button is enabled exactly when its
      move would change the list. */
  lemma EnableRuleMatchesMoves(l: seq<Widget>, w: Widget)
    requires Distinct(l) && w in l
    ensures EnableRule(IndexOf(l, w), |l|).up <==> MovedUp(l, Some(w)) != l
    ensures EnableRule(IndexOf(l, w), |l|).down <==> MovedDown(l, Some(w)) != l
  {
    MoveUpChangesIff(l, Some(w));
    MoveDownChangesIff(l, Some(w));
  }

  // ---------------------------------------------------------------------------
  // Pipeline assembly
  // ---------------------------------------------------------------------------

  /** The filters of the filter widgets, in list order; other widgets are skipped. */
  function FiltersOf(l: seq<Widget>): seq<string> {
    if |l| == 0 then []
    else
      var rest := FiltersOf(l[1..]);
      if l[0].FilterWidget? then [l[0].filter] + rest else rest
  }

  /** Assembly distributes over concatenation of layouts. */
  lemma {:induction false} FiltersOfAppend(a: seq<Widget>, b: seq<Widget>)
    ensures FiltersOf(a + b) == FiltersOf(a) + FiltersOf(b)
  {
    if |a| > 0 {
      assert (a + b)[1..] == a[1..] + b;
      FiltersOfAppend(a[1..], b);
    } else {
      assert a + b == b;
    }
  }

  /** A layout made only of filter widgets yields its filters position by
      position; one without filter widgets yields an empty pipeline. */
  lemma {:induction false} FiltersOfAllFilters(l: seq<Widget>)
    requires forall k :: 0 <= k < |l| ==> l[k].FilterWidget?
    ensures |FiltersOf(l)| == |l|
    ensures forall k :: 0 <= k < |l| ==> FiltersOf(l)[k] == l[k].filter
  {
    if |l| > 0 {
      FiltersOfAllFilters(l[1..]);
    }
  }

  lemma {:induction false} FiltersOfNoFilters(l: seq<Widget>)
    requires forall k :: 0 <= k < |l| ==> l[k].OtherWidget?
    ensures FiltersOf(l) == []
  {
    if |l| > 0 {
      FiltersOfNoFilters(l[1..]);
    }
  }

  /** The loop of on_m_GoBtn_clicked: walk the layout and push back the
      filter of every filter widget. */
  method CollectFilters(layout: seq<Widget>) returns (pipeline: seq<string>)
    ensures pipeline == FiltersOf(layout)
  {
    pipeline := [];
    var i := 0;
    while i < |layout|
      invariant 0 <= i <= |layout|
      invariant pipeline == FiltersOf(layout[..i])
    {
      assert layout[..i + 1] == layout[..i] + [layout[i]];
      FiltersOfAppend(layout[..i], [layout[i]]);
      if layout[i].FilterWidget? {
        pipeline := pipeline + [layout[i].filter];
      }
      i := i + 1;
    }
    assert layout[..|layout|] == layout;
  }

  // ---------------------------------------------------------------------------
  // The widget
  // ---------------------------------------------------------------------------

  class PipelineBuilderWidget {
    var layout: seq<Widget>
    var selected: Option<Widget>
    var upEnabled: bool
    var downEnabled: bool
    var goText: string
    /** m_FilterPipeline: None for NULL, otherwise the filters pushed into it. */
    var pipeline: Option<seq<string>>
    /** The number of cancelPipeline signals emitted. */
    var cancelsEmitted: nat
    var widgetListEnabled: bool
    var progress: int
    /** The identity the next created widget receives. */
    var nextId: nat

    /** The layout holds each widget once, and every widget in it was
        created before the next one. */
    predicate Valid()
      reads this
    {
      LayoutValid(layout, nextId)
    }

    constructor ()
      ensures Valid()
      ensures layout == [] && selected.None? && pipeline.None?
      ensures goText == "Go" && cancelsEmitted == 0
      ensures !upEnabled && !downEnabled && widgetListEnabled && progress == 0 && nextId == 0
    {
      layout, selected := [], None;
      upEnabled, downEnabled := false, false;
      goText := "Go";
      pipeline := None;
      cancelsEmitted := 0;
      widgetListEnabled := true;
      progress := 0;
      nextId := 0;
    }

    /** setSelectedFilterWidget: the widget becomes the selection and, when it
        is not null, the buttons follow the enable rule. */
    method SetSelectedFilterWidget(w: Option<Widget>)
      modifies this
      ensures selected == w
      ensures layout == old(layout) && nextId == old(nextId)
      ensures pipeline == old(pipeline) && goText == old(goText) && cancelsEmitted == old(cancelsEmitted)
      ensures widgetListEnabled == old(widgetListEnabled) && progress == old(progress)
      ensures w.Some? ==> Buttons(upEnabled, downEnabled) == EnableRule(IndexOf(layout, w.value), |layout|)
      ensures w.None? ==> upEnabled == old(upEnabled) && downEnabled == old(downEnabled)
    {
      selected := w;
      if w.Some? {
        var selectedIndex := IndexOf(layout, w.value);
        var count := |layout|;
        if count > 1 {
          upEnabled, downEnabled := true, true;
        } else {
          upEnabled, downEnabled := false, false;
        }
        if selectedIndex == 0 {
          upEnabled := false;
        } else if selectedIndex == count - 1 {
          downEnabled := false;
        }
      }
    }

    /** addFilter: a new widget for the filter is appended and selected. */
    method AddFilter(filterName: string)
      requires Valid()
      modifies this
      ensures Valid()
      ensures |layout| == |old(layout)| + 1 && layout[..|old(layout)|] == old(layout)
      ensures layout[|old(layout)|] == FilterWidget(old(nextId), filterName)
      ensures selected == Some(layout[|old(layout)|])
      ensures Buttons(upEnabled, downEnabled) == EnableRule(|layout| - 1, |layout|)
      ensures nextId == old(nextId) + 1
      ensures pipeline == old(pipeline) && goText == old(goText) && cancelsEmitted == old(cancelsEmitted)
      ensures widgetListEnabled == old(widgetListEnabled) && progress == old(progress)
    {
      var w := FilterWidget(nextId, filterName);
      AppendFresh(layout, w, nextId);
      AppendedFoundLast(layout, w);
      nextId := nextId + 1;
      layout := layout + [w];
      SetSelectedFilterWidget(Some(w));
    }

    /** removeFilterWidget: the sender, if any, is taken out of the layout, and
        the selection is cleared in every case. */
    method RemoveFilterWidget(sender: Option<Widget>)
      requires Valid()
      modifies this
      ensures Valid()
      ensures selected.None?
      ensures sender.None? ==> layout == old(layout)
      ensures sender.Some? ==> layout == Remove(old(layout), sender.value)
      ensures sender.Some? ==> sender.value !in layout
      ensures forall v :: v in old(layout) && (sender.None? || v != sender.value) ==> v in layout
      ensures upEnabled == old(upEnabled) && downEnabled == old(downEnabled) && nextId == old(nextId)
      ensures pipeline == old(pipeline) && goText == old(goText) && cancelsEmitted == old(cancelsEmitted)
      ensures widgetListEnabled == old(widgetListEnabled) && progress == old(progress)
    {
      if sender.Some? {
        RemoveKeepsOthers(layout, sender.value);
        layout := Remove(layout, sender.value);
      }
      selected := None;
    }

    /** on_filterDown_clicked. */
    method FilterDown()
      requires Valid()
      modifies this
      ensures Valid()
      ensures layout == MovedDown(old(layout), old(selected))
      ensures selected == old(selected)
      ensures layout != old(layout) ==>
        Buttons(upEnabled, downEnabled) == EnableRule(IndexOf(layout, selected.value), |layout|)
      ensures layout == old(layout) ==> upEnabled == old(upEnabled) && downEnabled == old(downEnabled)
      ensures nextId == old(nextId)
      ensures pipeline == old(pipeline) && goText == old(goText) && cancelsEmitted == old(cancelsEmitted)
      ensures widgetListEnabled == old(widgetListEnabled) && progress == old(progress)
    {
      ghost var moved := MovedDown(layout, selected);
      if selected.Some? {
        var w := selected.value;
        var selectedIndex := IndexOf(layout, w);
        var count := |layout|;
        if selectedIndex >= 0 && selectedIndex < count - 1 {
          MoveDownStep(layout, w, nextId);
          layout := Insert(Remove(layout, w), selectedIndex + 1, w);
          assert layout == moved;
          SetSelectedFilterWidget(selected);
        }
      }
    }

    /** on_filterUp_clicked. */
    method FilterUp()
      requires Valid()
      modifies this
      ensures Valid()
      ensures layout == MovedUp(old(layout), old(selected))
      ensures selected == old(selected)
      ensures layout != old(layout) ==>
        Buttons(upEnabled, downEnabled) == EnableRule(IndexOf(layout, selected.value), |layout|)
      ensures layout == old(layout) ==> upEnabled == old(upEnabled) && downEnabled == old(downEnabled)
      ensures nextId == old(nextId)
      ensures pipeline == old(pipeline) && goText == old(goText) && cancelsEmitted == old(cancelsEmitted)
      ensures widgetListEnabled == old(widgetListEnabled) && progress == old(progress)
    {
      ghost var moved := MovedUp(layout, selected);
      if selected.Some? {
        var w := selected.value;
        var selectedIndex := IndexOf(layout, w);
        if selectedIndex > 0 {
          MoveUpStep(layout, w, nextId);
          layout := Insert(Remove(layout, w), selectedIndex - 1, w);
          assert layout == moved;
          SetSelectedFilterWidget(selected);
        }
      }
    }

    /** on_m_GoBtn_clicked: while the button reads "Cancel" it only signals
        cancellation, and only when a pipeline exists; otherwise a new
        pipeline receives the filters of the layout in order, the list is
        disabled and the button turns into "Cancel". */
    method GoClicked()
      modifies this
      ensures layout == old(layout) && selected == old(selected) && nextId == old(nextId)
      ensures upEnabled == old(upEnabled) && downEnabled == old(downEnabled) && progress == old(progress)
      ensures Valid() <==> old(Valid())
      ensures old(goText) == "Cancel" ==>
        && pipeline == old(pipeline) && goText == old(goText)
        && widgetListEnabled == old(widgetListEnabled)
        && cancelsEmitted == old(cancelsEmitted) + (if old(pipeline).Some? then 1 else 0)
      ensures old(goText) != "Cancel" ==>
        && pipeline == Some(FiltersOf(layout))
        && !widgetListEnabled && goText == "Cancel"
        && cancelsEmitted == old(cancelsEmitted)
    {
      if QtText.Compare(goText, "Cancel") == 0 {
        if pipeline.Some? {
          cancelsEmitted := cancelsEmitted + 1;
        }
        return;
      }
      var filters := CollectFilters(layout);
      pipeline := Some(filters);
      widgetListEnabled := false;
      goText := "Cancel";
    }

    /** pipelineComplete: the button reads "Go" again, the list is enabled and
        the progress bar reset. The pipeline object is scheduled for deletion
        but the pointer is not cleared. */
    method PipelineComplete()
      modifies this
      ensures goText == "Go" && widgetListEnabled && progress == 0
      ensures layout == old(layout) && selected == old(selected) && pipeline == old(pipeline)
      ensures upEnabled == old(upEnabled) && downEnabled == old(downEnabled)
      ensures nextId == old(nextId) && cancelsEmitted == old(cancelsEmitted)
      ensures Valid() <==> old(Valid())
    {
      goText := "Go";
      widgetListEnabled := true;
      progress := 0;
    }

    /** pipelineProgress: the progress bar shows the value. */
    method PipelineProgress(value: int)
      modifies this
      ensures progress == value
      ensures layout == old(layout) && goText == old(goText) && pipeline == old(pipeline)
      ensures selected == old(selected) && nextId == old(nextId) && cancelsEmitted == old(cancelsEmitted)
      ensures upEnabled == old(upEnabled) && downEnabled == old(downEnabled)
      ensures widgetListEnabled == old(widgetListEnabled)
      ensures Valid() <==> old(Valid())
    {
      progress := value;
    }
  }

  /** Taking a widget out of a list without repetitions removes it and keeps
      everything else. */
  lemma RemoveKeepsOthers(l: seq<Widget>, w: Widget)
    requires NoRepeats(l)
    ensures NoRepeats(Remove(l, w))
    ensures w !in Remove(l, w)
    ensures forall v :: v in l && v != w ==> v in Remove(l, w)
    ensures forall v :: v in Remove(l, w) ==> v in l
  {
    NoRepeatsIsDistinct(l);
    NoRepeatsIsDistinct(Remove(l, w));
    var i := IndexOf(l, w);
    if i >= 0 {
      var r := l[..i] + l[i + 1..];
      assert forall k :: 0 <= k < |r| ==> r[k] == l[if k < i then k else k + 1];
      forall v | v in l && v != w
        ensures v in r
      {
        var k :| 0 <= k < |l| && l[k] == v;
        assert r[if k < i then k else k - 1] == v;
      }
    }
  }

  /** The position of a widget is the first place it occurs. */
  lemma IndexOfFirst(l: seq<Widget>, w: Widget, i: nat)
    requires i < |l| && l[i] == w && w !in l[..i]
    ensures IndexOf(l, w) == i
  {
  }

  /** The layout invariant: no widget twice, and every widget created
      before the identity `bound` is handed out. */
  predicate LayoutValid(l: seq<Widget>, bound: nat) {
    NoRepeats(l) && IdsBelow(l, bound)
  }

  /** Every widget of the list has an identity below `bound`. */
  predicate IdsBelow(l: seq<Widget>, bound: nat) {
    forall k :: 0 <= k < |l| ==> l[k].id < bound
  }

  /** An exchange of neighbours keeps the identities of the list. */
  lemma SwapKeepsIds(l: seq<Widget>, i: nat, bound: nat)
    requires i + 1 < |l| && IdsBelow(l, bound)
    ensures IdsBelow(Swap(l, i), bound)
  {
    var s := Swap(l, i);
    forall k | 0 <= k < |s|
      ensures s[k].id < bound
    {
      if k == i {
        assert s[k] == l[i + 1];
      } else if k == i + 1 {
        assert s[k] == l[i];
      } else {
        assert s[k] == l[k];
      }
    }
  }

  /** A move down that happens keeps a list without repetitions of widgets
      created so far, and changes it. */
  lemma MoveDownStep(l: seq<Widget>, w: Widget, bound: nat)
    requires LayoutValid(l, bound)
    requires 0 <= IndexOf(l, w) < |l| - 1
    ensures var m := Insert(Remove(l, w), IndexOf(l, w) + 1, w);
      m == MovedDown(l, Some(w)) && m == Swap(l, IndexOf(l, w)) && LayoutValid(m, bound) && m != l
  {
    var i := IndexOf(l, w);
    NoRepeatsIsDistinct(l);
    NoRepeatsIsDistinct(Swap(l, i));
    MoveDownSwaps(l, w);
    SwapIsPermutation(l, i);
    SwapKeepsIds(l, i, bound);
    MoveDownChangesIff(l, Some(w));
  }

  /** A move up that happens keeps a list without repetitions of widgets
      created so far, and changes it. */
  lemma MoveUpStep(l: seq<Widget>, w: Widget, bound: nat)
    requires LayoutValid(l, bound)
    requires IndexOf(l, w) > 0
    ensures var m := Insert(Remove(l, w), IndexOf(l, w) - 1, w);
      m == MovedUp(l, Some(w)) && m == Swap(l, IndexOf(l, w) - 1) && LayoutValid(m, bound) && m != l
  {
    var i := IndexOf(l, w);
    NoRepeatsIsDistinct(l);
    NoRepeatsIsDistinct(Swap(l, i - 1));
    MoveUpSwaps(l, w);
    SwapIsPermutation(l, i - 1);
    SwapKeepsIds(l, i - 1, bound);
    MoveUpChangesIff(l, Some(w));
  }

  /** A widget with an identity never handed out before can be appended
      keeping the layout valid. */
  lemma AppendFresh(l: seq<Widget>, w: Widget, nextId: nat)
    requires LayoutValid(l, nextId)
    requires w.id == nextId
    ensures LayoutValid(l + [w], nextId + 1)
  {
    var m := l + [w];
    NoRepeatsIsDistinct(l);
    NoRepeatsIsDistinct(m);
    assert w !in l;
    forall i, j | 0 <= i < |m| && 0 <= j < |m| && i != j
      ensures m[i] != m[j]
    {
      if i < |l| && j < |l| {
        assert m[i] == l[i] && m[j] == l[j];
      } else if i < |l| {
        assert m[i] == l[i];
      } else {
        assert m[j] == l[j];
      }
    }
  }

  /** An appended widget that was not in the list is found at the end. */
  lemma AppendedFoundLast(l: seq<Widget>, w: Widget)
    requires w !in l
    ensures IndexOf(l + [w], w) == |l|
  {
    assert (l + [w])[..|l|] == l;
    IndexOfFirst(l + [w], w, |l|);
  }
}
