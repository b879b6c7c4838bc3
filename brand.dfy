/**
 * The brand page of app/brand/page.tsx: the file-size label, the SVG size
 * read from `viewBox` or from `width`/`height`, the per-download record built
 * from what the file system reports, and the separator placed before the
 * first "incorrect" logo example.
 */
module Brand {
  import opened Wrappers
  import opened Text

  // ---- formatFileSize ----

  const KiB: nat := 1024
  const MiB: nat := 1024 * 1024

  /** `x.toFixed(1)` for a non-negative value given in whole tenths. */
  function Fixed1(t: nat): (s: string)
    ensures |s| >= 3 && s[|s| - 2] == '.' && IsDigit(s[|s| - 1])
  {
    NatToString(t / 10) + "." + [DigitChar(t % 10)]
  }

  /** The unit `formatFileSize` picks for a size: its divisor and its name. */
  function UnitOf(bytes: nat): (u: (nat, string))
    ensures u.0 > 0 && (u.0 <= bytes || bytes < KiB)
    ensures u.1 == "B" <==> bytes < KiB
    ensures u.1 == "KB" <==> KiB <= bytes < MiB
    ensures u.1 == "MB" <==> MiB <= bytes
  {
    if bytes < KiB then (1, "B") else if bytes < MiB then (KiB, "KB") else (MiB, "MB")
  }

  /**
   * `formatFileSize(bytes)`. A size below one kibibyte is shown in bytes;
   * otherwise it is divided by 1024 or 1024 * 1024 and shown to one decimal.
   * Both divisors are powers of two, so the quotient is exact and `toFixed(1)`
   * rounds it half up.
   */
  function FormatFileSize(bytes: nat): (s: string)
    ensures var (d, unit) := UnitOf(bytes);
      |s| > |unit| + 1 && s[|s| - |unit| - 1..] == " " + unit
  {
    var (d, unit) := UnitOf(bytes);
    if bytes < KiB then NatToString(bytes) + " " + unit
    else Fixed1(Tenths(bytes, d)) + " " + unit
  }

  /** A label in bytes reads back as the size itself. */
  lemma {:induction false} BytesLabelReadBack(bytes: nat)
    requires bytes < KiB
    ensures ParseInt(FormatFileSize(bytes)) == Some(bytes)
  {
    var rest := " B";
    assert FormatFileSize(bytes) == NatToString(bytes) + rest;
    assert NatToString(bytes) == IntToString(bytes);
    ParseIntOfIntToStringThen(bytes, rest);
  }

  /**
   * A label in KB or MB reads back as the whole part of the size in that unit
   * rounded to the nearest tenth (`Tenths` states the rounding).
   */
  lemma {:induction false} ScaledLabelReadBack(bytes: nat)
    requires bytes >= KiB
    ensures ParseInt(FormatFileSize(bytes)) == Some(Tenths(bytes, UnitOf(bytes).0) / 10)
  {
    var d := UnitOf(bytes).0;
    var unit := UnitOf(bytes).1;
    var t := Tenths(bytes, d);
    assert 0 <= t by {
      assert 2 * d * t + 2 * d > 0;
    }
    var rest := "." + [DigitChar(t % 10)] + " " + unit;
    assert FormatFileSize(bytes) == NatToString(t / 10) + rest;
    assert NatToString(t / 10) == IntToString(t / 10);
    ParseIntOfIntToStringThen(t / 10, rest);
  }

  // ---- getSvgDimensions ----

  predicate IsQuote(c: char) { c == '"' || c == '\'' }

  /** The longest prefix of `s` with no quote character: what `[^"']+` consumes greedily. */
  function NonQuoteRun(s: string): (r: string)
    ensures r <= s
    ensures forall k :: 0 <= k < |r| ==> !IsQuote(r[k])
    ensures |r| < |s| ==> IsQuote(s[|r|])
  {
    if s != [] && !IsQuote(s[0]) then [s[0]] + NonQuoteRun(s[1..]) else []
  }

  /**
   * The pattern `name=["']([^"']+)["']` with the `i` flag matches at position
   * `p` of `s`; `name` is given in lower case, ending with `=`.
   */
  predicate AttrMatchAt(s: string, name: string, p: nat) {
    p + |name| < |s|
    && ToLower(s[p..p + |name|]) == name
    && IsQuote(s[p + |name|])
    && var run := NonQuoteRun(s[p + |name| + 1..]);
    run != [] && |run| < |s| - (p + |name| + 1)
  }

  /** The captured value of a match at `p`. */
  function Capture(s: string, name: string, p: nat): string
    requires p + |name| < |s|
  {
    NonQuoteRun(s[p + |name| + 1..])
  }

  /** `s.match(/name["']([^"']+)["']/i)?.[1]`: the capture of the leftmost match, searching from `from`. */
  function AttrValueFrom(s: string, name: string, from: nat): (r: Option<string>)
    ensures r.None? <==> forall p: nat :: from <= p ==> !AttrMatchAt(s, name, p)
    ensures r.Some? ==>
      exists p: nat :: (from <= p && AttrMatchAt(s, name, p) && r.value == Capture(s, name, p)
        && forall q: nat :: from <= q < p ==> !AttrMatchAt(s, name, q))
    decreases |s| - from
  {
    if from + |name| >= |s| then
      assert forall p: nat :: from <= p ==> !AttrMatchAt(s, name, p);
      None
    else if AttrMatchAt(s, name, from) then Some(Capture(s, name, from))
    else AttrValueFrom(s, name, from + 1)
  }

  function AttrValue(s: string, name: string): (r: Option<string>)
    ensures r.None? <==> forall p: nat :: !AttrMatchAt(s, name, p)
    ensures r.Some? ==>
      exists p: nat :: (AttrMatchAt(s, name, p) && r.value == Capture(s, name, p)
        && forall q: nat :: q < p ==> !AttrMatchAt(s, name, q))
  {
    AttrValueFrom(s, name, 0)
  }

  /**
   * The width and height found; `None` in a component is NaN, which the
   * `viewBox` branch does not reject.
   */
  datatype Dims = Dims(width: Option<int>, height: Option<int>)

  /**
   * `getSvgDimensions(svgContent)`. `measure` stands for
   * `Math.round(parseFloat(x))`, with `None` for NaN.
   */
  function SvgDimensions(content: string, measure: string -> Option<int>): (r: Option<Dims>)
    ensures (var vb := AttrValue(content, "viewbox=");
      vb.Some? && |SplitSpaces(vb.value)| >= 4 ==>
        var parts := SplitSpaces(vb.value);
        r == Some(Dims(measure(parts[2]), measure(parts[3]))))
    ensures (var vb := AttrValue(content, "viewbox=");
      !(vb.Some? && |SplitSpaces(vb.value)| >= 4) ==>
        (r.Some? <==>
          (var w, h := AttrValue(content, "width="), AttrValue(content, "height=");
          w.Some? && h.Some? && measure(w.value).Some? && measure(h.value).Some?))
        && (r.Some? ==>
          r.value == Dims(measure(AttrValue(content, "width=").value), measure(AttrValue(content, "height=").value))
          && r.value.width.Some? && r.value.height.Some?))
  {
    var vb := AttrValue(content, "viewbox=");
    if vb.Some? && |SplitSpaces(vb.value)| >= 4 then
      var parts := SplitSpaces(vb.value);
      Some(Dims(measure(parts[2]), measure(parts[3])))
    else
      var w, h := AttrValue(content, "width="), AttrValue(content, "height=");
      if w.Some? && h.Some? && measure(w.value).Some? && measure(h.value).Some? then
        Some(Dims(measure(w.value), measure(h.value)))
      else None
  }

  /** An opening tag `<svg viewBox="0 0 w h">`. */
  function ViewBoxTag(w: nat, h: nat): string {
    "<svg viewBox=\"" + Join(["0", "0", NatToString(w), NatToString(h)], ' ') + "\">"
  }

  lemma {:induction false} JoinNoQuote(words: seq<string>)
    requires |words| >= 1
    requires forall i :: 0 <= i < |words| ==> AllDigits(words[i])
    ensures forall k :: 0 <= k < |Join(words, ' ')| ==> !IsQuote(Join(words, ' ')[k])
  {
    if |words| > 1 {
      JoinNoQuote(words[1..]);
    }
  }

  lemma {:induction false} NonQuoteRunPrefix(a: string, b: string)
    requires forall k :: 0 <= k < |a| ==> !IsQuote(a[k])
    requires b != [] && IsQuote(b[0])
    ensures NonQuoteRun(a + b) == a
  {
    if a != [] {
      assert (a + b)[1..] == a[1..] + b;
      NonQuoteRunPrefix(a[1..], b);
    }
  }

  /** No match of `viewbox=` starts inside the `<svg ` prefix. */
  lemma NoEarlyViewBox(s: string)
    requires |s| >= 13 && s[..5] == "<svg "
    ensures forall q: nat :: q < 5 ==> !AttrMatchAt(s, "viewbox=", q)
  {
    forall q: nat | q < 5 ensures !AttrMatchAt(s, "viewbox=", q) {
      if q == 2 {
        assert ToLower(s[q..q + 8])[1] == 'g';
      } else {
        assert ToLower(s[q..q + 8])[0] != 'v';
      }
    }
  }

  /** The `viewBox` value of the tag is the four numerals joined by spaces. */
  lemma {:induction false} ViewBoxTagValue(w: nat, h: nat)
    ensures AttrValue(ViewBoxTag(w, h), "viewbox=") == Some(Join(["0", "0", NatToString(w), NatToString(h)], ' '))
  {
    var words := ["0", "0", NatToString(w), NatToString(h)];
    var value := Join(words, ' ');
    var s := ViewBoxTag(w, h);
    var name := "viewbox=";
    var tail := "\">";
    assert s == "<svg viewBox=\"" + (value + tail);
    JoinNoQuote(words);
    NonQuoteRunPrefix(value, tail);
    assert s[14..] == value + tail;
    assert ToLower(s[5..13]) == name;
    assert AttrMatchAt(s, name, 5);
    NoEarlyViewBox(s);
    assert AttrValueFrom(s, name, 1) == AttrValueFrom(s, name, 2);
    assert AttrValueFrom(s, name, 5) == Some(value);
  }

  /** A `viewBox` of four or more fields decides the dimensions on its own. */
  lemma ViewBoxDecides(content: string, measure: string -> Option<int>, parts: seq<string>)
    requires AttrValue(content, "viewbox=").Some?
    requires parts == SplitSpaces(AttrValue(content, "viewbox=").value) && |parts| >= 4
    ensures SvgDimensions(content, measure) == Some(Dims(measure(parts[2]), measure(parts[3])))
  {
  }

  /**
   * For a tag whose `viewBox` is "0 0 w h", and a number reader that reads the
   * two numerals back, the dimensions are `w` by `h`.
   */
  lemma {:induction false} ViewBoxTagDimensions(w: nat, h: nat, measure: string -> Option<int>)
    requires measure(NatToString(w)) == Some(w) && measure(NatToString(h)) == Some(h)
    ensures SvgDimensions(ViewBoxTag(w, h), measure) == Some(Dims(Some(w), Some(h)))
  {
    var words := ["0", "0", NatToString(w), NatToString(h)];
    forall i | 0 <= i < |words| ensures words[i] != [] && NoSpaces(words[i]) {
      assert AllDigits(words[i]);
    }
    SplitSpacesJoin(words);
    ViewBoxTagValue(w, h);
    ViewBoxDecides(ViewBoxTag(w, h), measure, words);
  }

  // ---- getDownloadInfo ----

  datatype Format = Svg | Pdf

  /** A downloadable asset: its label, description, public URL, format and path on disk. */
  datatype Download = Download(name: string, description: string, url: string, format: Format, filePath: string)

  const Downloads: seq<Download> := [
    Download("White Logo", "High-resolution logo for use on dark backgrounds",
      "/images/logo.svg", Svg, "public/images/logo.svg"),
    Download("Black Logo", "High-resolution logo for use on light backgrounds",
      "/images/logo-black.svg", Svg, "public/images/logo-black.svg"),
    Download("With Text", "Full logo with 24358 Ragnarok text in preferred font",
      "/images/brand/with-text.pdf", Pdf, "public/images/brand/with-text.pdf")
  ]

  /**
   * What the file system reports for a path: the size from `statSync`, and the
   * text from `readFileSync`; `None` where that call throws.
   */
  datatype FileStatus = FileStatus(size: Option<nat>, content: Option<string>)

  /** A download with its size label and, for an SVG, its dimensions label. */
  datatype DownloadInfo = DownloadInfo(download: Download, fileSize: string, dimensions: Option<string>)

  const UnknownSize: string := "Unknown"

  /** A number in a template literal: NaN prints as "NaN". */
  function ShowNumber(n: Option<int>): string {
    if n.Some? then IntToString(n.value) else "NaN"
  }

  /** `${width} × ${height} px`. */
  function DimensionsLabel(d: Dims): (s: string)
    ensures ShowNumber(d.width) <= s
    ensures |s| == |ShowNumber(d.width)| + 3 + |ShowNumber(d.height)| + 3
    ensures s[|ShowNumber(d.width)|..|ShowNumber(d.width)| + 3] == " × "
    ensures s[|s| - 3 - |ShowNumber(d.height)|..|s| - 3] == ShowNumber(d.height)
    ensures |s| >= 3 && s[|s| - 3..] == " px"
  {
    ShowNumber(d.width) + " × " + ShowNumber(d.height) + " px"
  }

  /** A printed number, NaN included, holds no space and `parseInt` reads it back. */
  lemma ShowNumberReadBack(n: Option<int>)
    ensures ' ' !in ShowNumber(n)
    ensures ParseInt(ShowNumber(n)) == n
  {
    if n.Some? {
      IntToStringChars(n.value);
      ParseIntOfIntToString(n.value);
    } else {
      TrimStartNoSpace("NaN");
      assert DigitPrefix("NaN") == [];
    }
  }

  /** Two space-free words around " × " and before " px" split back into the four words. */
  lemma {:induction false} DimensionsWords(w: string, h: string)
    requires ' ' !in w && ' ' !in h
    ensures Split(w + " × " + h + " px", ' ') == [w, "×", h, "px"]
  {
    var fields := [w, "×", h, "px"];
    assert fields[1..] == ["×", h, "px"];
    Join3("×", h, "px", ' ');
    assert Join(fields, ' ') == w + [' '] + Join(fields[1..], ' ');
    assert w + [' '] + ("×" + [' '] + h + [' '] + "px") == w + " × " + h + " px";
    assert forall i :: 0 <= i < |fields| ==> ' ' !in fields[i] by {
      assert fields[0] == w && fields[2] == h;
    }
    JoinSplit(fields, ' ');
  }

  /** The dimensions label splits on spaces into width, "×", height and "px", which read back. */
  lemma {:induction false} DimensionsLabelReadBack(d: Dims)
    ensures var parts := Split(DimensionsLabel(d), ' ');
      |parts| == 4 && parts[1] == "×" && parts[3] == "px"
      && ParseInt(parts[0]) == d.width && ParseInt(parts[2]) == d.height
  {
    var w, h := ShowNumber(d.width), ShowNumber(d.height);
    ShowNumberReadBack(d.width);
    ShowNumberReadBack(d.height);
    DimensionsWords(w, h);
    assert DimensionsLabel(d) == w + " × " + h + " px";
  }

  /** Whether the `try` block throws: `statSync` fails, or `readFileSync` does for an SVG. */
  predicate Throws(d: Download, st: FileStatus) {
    st.size.None? || (d.format == Svg && st.content.None?)
  }

  /** The mapping of one download inside `getDownloadInfo`. */
  function Info(d: Download, st: FileStatus, measure: string -> Option<int>): (r: DownloadInfo)
    ensures r.download == d
    ensures Throws(d, st) ==> r.fileSize == UnknownSize && r.dimensions.None?
    ensures !Throws(d, st) ==> r.fileSize == FormatFileSize(st.size.value)
    ensures d.format != Svg ==> r.dimensions.None?
    ensures !Throws(d, st) && d.format == Svg ==>
      (r.dimensions.Some? <==> SvgDimensions(st.content.value, measure).Some?)
    ensures !Throws(d, st) && d.format == Svg && SvgDimensions(st.content.value, measure).Some? ==>
      r.dimensions == Some(DimensionsLabel(SvgDimensions(st.content.value, measure).value))
  {
    if Throws(d, st) then DownloadInfo(d, UnknownSize, None)
    else
      var size := FormatFileSize(st.size.value);
      if d.format == Svg then
        var dims := SvgDimensions(st.content.value, measure);
        DownloadInfo(d, size, if dims.Some? then Some(DimensionsLabel(dims.value)) else None)
      else DownloadInfo(d, size, None)
  }

  /** `getDownloadInfo()`, with the file system as a function from path to status. */
  function DownloadInfos(fs: string -> FileStatus, measure: string -> Option<int>): (r: seq<DownloadInfo>)
    ensures |r| == |Downloads|
    ensures forall i :: 0 <= i < |r| ==> r[i] == Info(Downloads[i], fs(Downloads[i].filePath), measure)
  {
    seq(|Downloads|, i requires 0 <= i < |Downloads| => Info(Downloads[i], fs(Downloads[i].filePath), measure))
  }

  /** The size label says "Unknown" exactly when a read failed. */
  lemma UnknownOnlyOnError(d: Download, st: FileStatus, measure: string -> Option<int>)
    ensures Info(d, st, measure).fileSize == UnknownSize <==> Throws(d, st)
  {
    if !Throws(d, st) {
      var s := FormatFileSize(st.size.value);
      var unit := UnitOf(st.size.value).1;
      assert s[|s| - |unit| - 1..] == " " + unit;
      assert s[|s| - 1] == 'B';
    }
  }

  /** The PDF is never measured, and its label is read even when it has no text. */
  lemma PdfHasNoDimensions(fs: string -> FileStatus, measure: string -> Option<int>)
    ensures var r := DownloadInfos(fs, measure);
      r[2].dimensions.None?
      && (fs(Downloads[2].filePath).size.Some? ==> r[2].fileSize == FormatFileSize(fs(Downloads[2].filePath).size.value))
  {
  }

  // ---- The separator before the first incorrect example ----

  /** `isCorrect` of each entry of `logoExamples`, in order. */
  const LogoExamples: seq<bool> := [true, true, false, false, false, false, false, false, false, false]

  /** `isFirstIncorrect` at `index`. */
  function SeparatorBefore(correct: seq<bool>, i: nat): (b: bool)
    requires i < |correct|
    ensures i == 0 ==> !b
    ensures b ==> correct[i - 1] != correct[i]
    ensures 0 < i && correct[i - 1] && !correct[i] ==> b
  {
    !correct[i] && i > 0 && correct[i - 1]
  }

  /**
   * When the correct examples all come before the incorrect ones and both
   * groups are non-empty, exactly one separator is drawn: before the first
   * incorrect example.
   */
  lemma OneSeparatorBetweenGroups(correct: seq<bool>, k: nat)
    requires 0 < k < |correct|
    requires forall i :: 0 <= i < |correct| ==> (correct[i] <==> i < k)
    ensures forall i :: 0 <= i < |correct| ==> (SeparatorBefore(correct, i) <==> i == k)
  {
  }

  /** The page's list: two correct examples then eight incorrect ones, one separator at index 2. */
  lemma LogoExamplesSeparator()
    ensures forall i :: 0 <= i < |LogoExamples| ==> (SeparatorBefore(LogoExamples, i) <==> i == 2)
  {
    OneSeparatorBetweenGroups(LogoExamples, 2);
  }
}
