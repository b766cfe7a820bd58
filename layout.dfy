/**
  The layout policy of the sidebar: the width constants, the `limit` clamp,
  the narrow flag and the width published as the `--sidebar-width` CSS
  variable (app/components/sidebar.tsx, `useDragSideBar`).
*/
module Layout {
  import opened Wrappers
  import Decimal

  // The four width constants are defined in a file that is not part of this
  // model; their values are left abstract.
  const DefaultSidebarWidth: int
  const MaxSidebarWidth: int
  const MinSidebarWidth: int
  const NarrowSidebarWidth: int

  /** The ordering of the constants that several lemmas rely on. */
  predicate WidthsOrdered() {
    NarrowSidebarWidth < MinSidebarWidth <= DefaultSidebarWidth <= MaxSidebarWidth
  }

  /** A stored width the controller can produce: the narrow sentinel or a width in bounds. */
  predicate WidthInRange(w: int) {
    w == NarrowSidebarWidth || MinSidebarWidth <= w <= MaxSidebarWidth
  }

  /** `limit`: caps a width at the maximum and never raises it. */
  function Limit(x: int): (r: int)
    ensures r <= MaxSidebarWidth && r <= x
    ensures x <= MaxSidebarWidth ==> r == x
    ensures r == x || r == MaxSidebarWidth
  {
    if x < MaxSidebarWidth then x else MaxSidebarWidth
  }

  /** `shouldNarrow`: never narrow on a mobile screen, else narrow exactly below the minimum. */
  function ShouldNarrow(width: int, isMobile: bool): (r: bool)
    ensures isMobile ==> !r
    ensures !isMobile ==> (r <==> width < MinSidebarWidth)
  {
    !isMobile && width < MinSidebarWidth
  }

  /** `barWidth` of the layout effect (the stored width is always present in this model). */
  function BarWidth(width: int, isMobile: bool): (b: int)
    ensures ShouldNarrow(width, isMobile) ==> b == NarrowSidebarWidth
    ensures !ShouldNarrow(width, isMobile) ==> b <= MaxSidebarWidth && b <= width
    ensures !ShouldNarrow(width, isMobile) && width <= MaxSidebarWidth ==> b == width
    ensures !ShouldNarrow(width, isMobile) && width > MaxSidebarWidth ==> b == MaxSidebarWidth
  {
    if ShouldNarrow(width, isMobile) then NarrowSidebarWidth else Limit(width)
  }

  /** What the published CSS value denotes. */
  datatype Published = FullViewport | Pixels(px: int)

  function PublishedWidth(width: int, isMobile: bool): (p: Published)
    ensures p == FullViewport <==> isMobile
    ensures !isMobile && width < MinSidebarWidth ==> p == Pixels(NarrowSidebarWidth)
    ensures !isMobile && width >= MinSidebarWidth ==> p == Pixels(Limit(width))
  {
    if isMobile then FullViewport else Pixels(BarWidth(width, isMobile))
  }

  /** The string written to `--sidebar-width`: "100vw" or "<n>px". */
  function CssWidth(width: int, isMobile: bool): (s: string)
    ensures s == "100vw" <==> isMobile
    ensures !isMobile ==> |s| >= 3 && s[|s| - 2..] == "px"
  {
    if isMobile then "100vw"
    else
      var digits := Decimal.ShowInt(BarWidth(width, isMobile));
      assert (digits + "px")[|digits| + 1] == 'x';
      digits + "px"
  }

  /** Reads a CSS width of the two forms CssWidth produces. */
  function ParseCssWidth(s: string): Option<Published> {
    if s == "100vw" then Some(FullViewport)
    else if |s| >= 2 && s[|s| - 2..] == "px" then
      match Decimal.ReadInt(s[..|s| - 2])
      case Some(n) => Some(Pixels(n))
      case None => None
    else None
  }

  /** The published string denotes exactly the width the policy derives. */
  lemma CssWidthRoundTrip(width: int, isMobile: bool)
    ensures ParseCssWidth(CssWidth(width, isMobile)) == Some(PublishedWidth(width, isMobile))
  {
    if !isMobile {
      var b := BarWidth(width, isMobile);
      var digits := Decimal.ShowInt(b);
      var s := CssWidth(width, isMobile);
      assert s == digits + "px";
      assert s[|s| - 1] == 'x';
      assert s[|s| - 2..] == "px";
      assert s[..|s| - 2] == digits;
      Decimal.ReadShowInt(b);
    }
  }

  /** Two inputs publish the same string only if they lay the sidebar out the same way. */
  lemma CssWidthDeterminesLayout(w1: int, m1: bool, w2: int, m2: bool)
    requires CssWidth(w1, m1) == CssWidth(w2, m2)
    ensures PublishedWidth(w1, m1) == PublishedWidth(w2, m2)
  {
    CssWidthRoundTrip(w1, m1);
    CssWidthRoundTrip(w2, m2);
  }

  /** On a desktop screen, every width the controller can store is published as itself. */
  lemma PublishedIsStoredWidth(width: int)
    requires WidthsOrdered() && WidthInRange(width)
    ensures PublishedWidth(width, false) == Pixels(width)
    ensures ShouldNarrow(width, false) <==> width == NarrowSidebarWidth
  {
  }
}
