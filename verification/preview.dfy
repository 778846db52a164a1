/** Live preview of a camera that is not recording: which display mode is in
    force, which picture lands in the small and the large preview buffers,
    and how the histogram view shades its bars. Pixels are not modelled: a
    picture records the frame it was made from and the transform applied. */
module Preview {

  /** An image from the camera, opaque to the model (a cv::Mat in the source). */
  datatype Frame = Frame(id: nat)

  datatype DisplayMode = Normal | FocusPeak | Overexposed | Histogram

  /** A picture held in a preview buffer:
      - RawFrame: the frame itself, unprocessed;
      - Overlay: the full-resolution colour overlay (focus peaking or
        overexposure) composed from the frame;
      - Rendered: the small preview rendered from the frame in a display mode,
        with the black level that was current. */
  datatype Picture =
    | RawFrame(frame: Frame)
    | Overlay(mode: DisplayMode, frame: Frame)
    | Rendered(mode: DisplayMode, frame: Frame, blackLevel: int)

  /** The operator's three display flags resolve by precedence:
      focus peaking, then overexposure, then histogram, else normal. */
  function SelectMode(focusPeak: bool, overexposed: bool, histogram: bool): (m: DisplayMode)
    ensures m == FocusPeak <==> focusPeak
    ensures m == Overexposed <==> !focusPeak && overexposed
    ensures m == Histogram <==> !focusPeak && !overexposed && histogram
    ensures m == Normal <==> !focusPeak && !overexposed && !histogram
  {
    if focusPeak then FocusPeak
    else if overexposed then Overexposed
    else if histogram then Histogram
    else Normal
  }

  /** What the large preview buffer receives. The focus-peak and overexposed
      renderers write their colour overlay back over the incoming image
      before it is cloned, so in those two modes the large preview holds the
      overlay and not the raw frame. */
  function LargePreviewOf(mode: DisplayMode, frame: Frame): (p: Picture)
    ensures p.frame == frame
    ensures p.RawFrame? <==> mode == Normal || mode == Histogram
    ensures p.Overlay? <==> mode == FocusPeak || mode == Overexposed
    ensures p.Overlay? ==> p.mode == mode
  {
    match mode
    case FocusPeak | Overexposed => Overlay(mode, frame)
    case Normal | Histogram => RawFrame(frame)
  }

  /** Number of histogram bins, and how many bins past the end bin are
      highlighted at each end. */
  const HistSize: nat := 256
  const ExtremeWidth: nat := 4

  /** Bar shades of the histogram canvas: 255 for the extreme bins, 200 elsewhere. */
  datatype Shade = Highlight | Grey

  function ShadeIntensity(s: Shade): (v: int)
    ensures v == 255 <==> s == Highlight
    ensures v == 200 <==> s == Grey
  {
    match s
    case Highlight => 255
    case Grey => 200
  }

  function BarShade(i: nat): (s: Shade)
    requires i < HistSize
    ensures s == Highlight <==> i <= 4 || i >= 251
  {
    if i <= ExtremeWidth || i >= HistSize - 1 - ExtremeWidth then Highlight else Grey
  }

  /** Number of highlighted bars among bins 0 .. n-1. */
  function HighlightedBars(n: nat): nat
    requires n <= HistSize
  {
    if n == 0 then 0 else HighlightedBars(n - 1) + (if BarShade(n - 1) == Highlight then 1 else 0)
  }

  lemma {:induction false} InteriorBarsGrey(n: nat)
    requires ExtremeWidth + 1 <= n <= HistSize - 1 - ExtremeWidth
    ensures HighlightedBars(n) == ExtremeWidth + 1
    decreases n
  {
    if n > ExtremeWidth + 1 {
      InteriorBarsGrey(n - 1);
    } else {
      assert HighlightedBars(5) == 5 by {
        assert HighlightedBars(1) == 1;
        assert HighlightedBars(3) == 3;
      }
    }
  }

  /** Bins 0..4 and 251..255 are highlighted: five bars at each end, ten in
      all, and every other bar is grey. */
  lemma HighlightedBarCount()
    ensures HighlightedBars(HistSize) == 2 * (ExtremeWidth + 1)
  {
    InteriorBarsGrey(HistSize - 1 - ExtremeWidth);
    assert HighlightedBars(HistSize - 1 - ExtremeWidth) == 5;
  }

  /** Bars drawn at intensity 255 are exactly the five lowest and the five
      highest bins; every other bar is drawn at 200. */
  lemma BarIntensity(i: nat)
    requires i < HistSize
    ensures ShadeIntensity(BarShade(i)) == 255 <==> i < 5 || 250 < i
    ensures ShadeIntensity(BarShade(i)) == 200 <==> 5 <= i <= 250
  {
  }

  /** The shading is symmetric: bin i and bin 255 - i look the same. */
  lemma BarShadeMirrored(i: nat)
    requires i < HistSize
    ensures BarShade(i) == BarShade(HistSize - 1 - i)
  {
  }
}
