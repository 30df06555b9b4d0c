/** The outline beside the editor
    (packages/tiles-playground/plugins/TableOfContentsPlugin/index.tsx):
    the entries' kinds and class names, the vertical-position tests, the
    scroll handler that walks the selected entry up or down to follow the
    page, and the labels shown. Positions are integers, and where a
    heading is on screen is a function parameter from node keys to the
    `y` of its element (`None` when the editor has no element for it). */
module TableOfContents {
  import opened Common

  const MarginAboveEditor := 624
  const HeadingWidth := 9

  datatype HeadingType = H1 | H2 | H3 | ListItem | TableItem | CodeItem | QuoteItem

  /** The tag an entry carries: a string, an object with optional `tag`
      and `type` properties, or any other value. */
  datatype TagValue = TagString(s: string) | TagObject(tag: Option<string>, nodeType: Option<string>) | TagOther

  function HeadingTag(s: string): Option<HeadingType>
  {
    if s == "h1" then Some(H1) else if s == "h2" then Some(H2) else if s == "h3" then Some(H3) else None
  }

  function NodeKind(s: string): Option<HeadingType>
  {
    if s == "list" then Some(ListItem) else if s == "table" then Some(TableItem)
    else if s == "code" then Some(CodeItem) else if s == "quote" then Some(QuoteItem) else None
  }

  /** `getHeadingType`: a recognised heading tag, else a recognised node
      type of an object, else `h1`. */
  function GetHeadingType(node: TagValue): (r: HeadingType)
    ensures node.TagString? && HeadingTag(node.s).Some? ==> r == HeadingTag(node.s).value
    ensures node.TagObject? && node.tag.Some? && HeadingTag(node.tag.value).Some? ==> r == HeadingTag(node.tag.value).value
    ensures r != H1 ==> node.TagObject? || (node.TagString? && HeadingTag(node.s) == Some(r))
  {
    match node
    case TagString(s) => if HeadingTag(s).Some? then HeadingTag(s).value else H1
    case TagObject(tag, nodeType) =>
      if tag.Some? && HeadingTag(tag.value).Some? then HeadingTag(tag.value).value
      else if nodeType.Some? && NodeKind(nodeType.value).Some? then NodeKind(nodeType.value).value
      else H1
    case TagOther => H1
  }

  /** Deeper headings and unknown values are all shown as `h1`; a string
      never names one of the block kinds. */
  lemma HeadingTypeDefaults()
    ensures GetHeadingType(TagString("h4")) == H1
    ensures GetHeadingType(TagString("list")) == H1
    ensures GetHeadingType(TagObject(None, Some("list"))) == ListItem
    ensures GetHeadingType(TagObject(Some("h2"), Some("quote"))) == H2
    ensures GetHeadingType(TagOther) == H1
  {
  }

  /** `indent`: the class name of an entry of each kind. */
  function Indent(t: HeadingType): (r: string)
  {
    match t
    case H1 => "heading1"
    case H2 => "heading2"
    case H3 => "heading3"
    case ListItem => "list-item"
    case TableItem => "table-item"
    case CodeItem => "code-item"
    case QuoteItem => "quote-item"
  }

  /** Every kind has a class, and no two kinds share one. */
  lemma IndentDistinct(a: HeadingType, b: HeadingType)
    ensures Indent(a) != ""
    ensures Indent(a) == Indent(b) ==> a == b
  {
    if Indent(a) == Indent(b) {
      assert Indent(a)[0] == Indent(b)[0];
      assert |Indent(a)| == |Indent(b)|;
      if Indent(a)[0] == 'h' {
        assert Indent(a)[7] == Indent(b)[7];
      }
    }
  }

  predicate AtTheTop(y: int)
  {
    MarginAboveEditor <= y <= MarginAboveEditor + HeadingWidth
  }

  predicate AboveViewport(y: int)
  {
    y < MarginAboveEditor
  }

  predicate BelowTheTop(y: int)
  {
    y >= MarginAboveEditor + HeadingWidth
  }

  /** Every position is in one of the three bands; above excludes both
      others, and at-the-top and below share exactly one position. */
  lemma PositionBands(y: int)
    ensures AboveViewport(y) || AtTheTop(y) || BelowTheTop(y)
    ensures AboveViewport(y) ==> !AtTheTop(y) && !BelowTheTop(y)
    ensures AtTheTop(y) && BelowTheTop(y) <==> y == 633
  {
  }

  /** `TableOfContentsEntry`: key, text and tag. */
  datatype TocEntry = TocEntry(key: string, text: string, tag: TagValue)

  type Positions = string -> Option<int>

  /** The upward walk from entry `k`; `current` is whether the heading
      last looked at is found and below the top. The previous heading is
      taken when it is above the viewport or below the top, and the walk
      goes on only while that heading is below the top. */
  function WalkUp(toc: seq<TocEntry>, y: Positions, k: nat, current: bool): (r: nat)
    requires k < |toc|
    ensures r <= k
    decreases k, current
  {
    if !current || k == 0 then k
    else
      var prev := y(toc[k - 1].key);
      if prev.Some? && (AboveViewport(prev.value) || BelowTheTop(prev.value)) then
        WalkUp(toc, y, k - 1, BelowTheTop(prev.value))
      else
        WalkUp(toc, y, k, false)
  }

  /** The downward walk: the next heading is taken when it is at the top
      or above the viewport, and the walk goes on only while that heading
      is above the viewport. */
  function WalkDown(toc: seq<TocEntry>, y: Positions, k: nat, current: bool): (r: nat)
    requires k < |toc|
    ensures k <= r < |toc|
    decreases |toc| - k, current
  {
    if !current || k == |toc| - 1 then k
    else
      var next := y(toc[k + 1].key);
      if next.Some? && (AtTheTop(next.value) || AboveViewport(next.value)) then
        WalkDown(toc, y, k + 1, AboveViewport(next.value))
      else
        WalkDown(toc, y, k, false)
  }

  /** Every heading the upward walk steps over is below the top, and the
      one it stops on, when it moved, is above the viewport or below the top. */
  lemma {:induction false} WalkUpPasses(toc: seq<TocEntry>, y: Positions, k: nat)
    requires k < |toc|
    ensures var r := WalkUp(toc, y, k, true);
      (forall m :: r < m < k ==> y(toc[m].key).Some? && BelowTheTop(y(toc[m].key).value))
      && (r < k ==> y(toc[r].key).Some? && (AboveViewport(y(toc[r].key).value) || BelowTheTop(y(toc[r].key).value)))
    decreases k
  {
    if k > 0 {
      var prev := y(toc[k - 1].key);
      if prev.Some? && BelowTheTop(prev.value) {
        WalkUpPasses(toc, y, k - 1);
      }
    }
  }

  /** Every heading the downward walk steps over is above the viewport,
      and the one it stops on, when it moved, is at the top or above. */
  lemma {:induction false} WalkDownPasses(toc: seq<TocEntry>, y: Positions, k: nat)
    requires k < |toc|
    ensures var r := WalkDown(toc, y, k, true);
      (forall m :: k < m < r ==> y(toc[m].key).Some? && AboveViewport(y(toc[m].key).value))
      && (k < r ==> y(toc[r].key).Some? && (AtTheTop(y(toc[r].key).value) || AboveViewport(y(toc[r].key).value)))
    decreases |toc| - k
  {
    if k < |toc| - 1 {
      var next := y(toc[k + 1].key);
      if next.Some? && AboveViewport(next.value) {
        WalkDownPasses(toc, y, k + 1);
      }
    }
  }

  /** The selected index and key after one run of `scrollCallback`. */
  datatype TocState = TocState(selectedIndex: nat, selectedKey: string)

  function AfterScroll(toc: seq<TocEntry>, y: Positions, s: TocState): (t: TocState)
    ensures |toc| == 0 || s.selectedIndex >= |toc| - 1 ==> t == TocState(0, s.selectedKey)
    ensures |toc| > 0 ==> t.selectedIndex < |toc|
  {
    if |toc| != 0 && s.selectedIndex < |toc| - 1 then
      var current := y(toc[s.selectedIndex].key);
      if current.None? then s
      else if BelowTheTop(current.value) then
        var i := WalkUp(toc, y, s.selectedIndex, true);
        TocState(i, toc[i].key)
      else if AboveViewport(current.value) then
        var i := WalkDown(toc, y, s.selectedIndex, true);
        TocState(i, toc[i].key)
      else s
    else TocState(0, s.selectedKey)
  }

  /** A scroll moves the selection up only when the selected heading has
      gone below the top, down only when it is above the viewport, never
      past either end, and always selects the key of the entry it lands on. */
  lemma ScrollDirections(toc: seq<TocEntry>, y: Positions, s: TocState)
    requires |toc| != 0 && s.selectedIndex < |toc| - 1
    ensures var t := AfterScroll(toc, y, s);
      var current := y(toc[s.selectedIndex].key);
      (current.Some? && BelowTheTop(current.value) ==> t.selectedIndex <= s.selectedIndex && t.selectedKey == toc[t.selectedIndex].key)
      && (current.Some? && AboveViewport(current.value) ==> t.selectedIndex >= s.selectedIndex && t.selectedKey == toc[t.selectedIndex].key)
      && (current.None? || (AtTheTop(current.value) && !BelowTheTop(current.value)) ==> t == s)
  {
  }

  /** The outline state: lexical's `selectedKey` and the `selectedIndex` ref. */
  class TocList {
    var selectedIndex: nat
    var selectedKey: string

    constructor ()
      ensures State() == TocState(0, "")
    {
      selectedIndex := 0;
      selectedKey := "";
    }

    function State(): TocState
      reads this
    {
      TocState(selectedIndex, selectedKey)
    }

    /** `scrollToNode` for an entry whose element `found` tells whether the
        editor has; the smooth scroll itself is not modelled. */
    method ScrollToNode(key: string, currIndex: nat, found: bool)
      modifies this
      ensures State() == if found then TocState(currIndex, key) else old(State())
    {
      if found {
        selectedKey := key;
        selectedIndex := currIndex;
      }
    }

    /** `scrollCallback`, with its two loops. */
    method ScrollCallback(toc: seq<TocEntry>, y: Positions)
      modifies this
      ensures State() == AfterScroll(toc, y, old(State()))
    {
      if |toc| != 0 && selectedIndex < |toc| - 1 {
        var currentHeading := y(toc[selectedIndex].key);
        if currentHeading.Some? {
          if BelowTheTop(currentHeading.value) {
            ghost var start := selectedIndex;
            while currentHeading.Some? && BelowTheTop(currentHeading.value) && selectedIndex > 0
              invariant selectedIndex <= start < |toc|
              invariant WalkUp(toc, y, selectedIndex, currentHeading.Some? && BelowTheTop(currentHeading.value))
                     == WalkUp(toc, y, start, true)
              decreases selectedIndex, if currentHeading.Some? && BelowTheTop(currentHeading.value) then 1 else 0
            {
              var prevHeading := y(toc[selectedIndex - 1].key);
              if prevHeading.Some? && (AboveViewport(prevHeading.value) || BelowTheTop(prevHeading.value)) {
                selectedIndex := selectedIndex - 1;
              }
              currentHeading := prevHeading;
            }
            selectedKey := toc[selectedIndex].key;
          } else if AboveViewport(currentHeading.value) {
            ghost var start := selectedIndex;
            while currentHeading.Some? && AboveViewport(currentHeading.value) && selectedIndex < |toc| - 1
              invariant start <= selectedIndex < |toc|
              invariant WalkDown(toc, y, selectedIndex, currentHeading.Some? && AboveViewport(currentHeading.value))
                     == WalkDown(toc, y, start, true)
              decreases |toc| - selectedIndex, if currentHeading.Some? && AboveViewport(currentHeading.value) then 1 else 0
            {
              var nextHeading := y(toc[selectedIndex + 1].key);
              if nextHeading.Some? && (AtTheTop(nextHeading.value) || AboveViewport(nextHeading.value)) {
                selectedIndex := selectedIndex + 1;
              }
              currentHeading := nextHeading;
            }
            selectedKey := toc[selectedIndex].key;
          }
        }
      } else {
        selectedIndex := 0;
      }
    }
  }

  /** What an entry shows: its text, its class name, and whether it is
      marked selected. */
  datatype Item = Item(text: string, className: string, selected: bool)

  /** The first entry is cut at 20 characters and styled as the first
      heading; the others at 27, with their kind's class. */
  function RenderEntry(index: nat, e: TocEntry, selectedKey: string): Item
  {
    if index == 0 then Item(TruncateText(e.text, 20), "first-heading", false)
    else Item(TruncateText(e.text, 27), Indent(GetHeadingType(e.tag)), selectedKey == e.key)
  }

  /** Labels are at most 23 and 30 characters; a short text is shown as
      it is and a long one is cut with `...`; only a later entry can be
      marked selected, and it is exactly when its key is the selected one. */
  lemma RenderedEntries(index: nat, e: TocEntry, selectedKey: string)
    ensures var item := RenderEntry(index, e, selectedKey);
      var limit := if index == 0 then 20 else 27;
      |item.text| <= limit + 3
      && (|e.text| <= limit ==> item.text == e.text)
      && (|e.text| > limit ==> StartsWith(item.text, e.text[..limit]) && EndsWith(item.text, "..."))
      && (item.selected <==> index > 0 && selectedKey == e.key)
  {
    TruncateProperties(e.text, if index == 0 then 20 else 27);
  }
}
