/**
 * The report strings the engine derives: the flattened instrument list, the
 * monitor location taken from the sheet's label, the image caption with the
 * location spliced in, and the picture type chosen from a file name.
 */
module ReportText {
  import opened Wrappers
  import opened JavaText
  import opened DocModel

  // ---------------------------------------------------------------------------
  // Instrument list

  /** One instrument entry, a Map<String, String>; a key may be mapped to null (None). */
  type Instrument = map<string, Option<string>>

  /** item.getOrDefault(key, "") as StringBuilder.append sees it: a null value prints as "null". */
  function FieldOrEmpty(item: Instrument, key: string): string {
    if key in item then item[key].GetOr("null") else ""
  }

  /** One entry's fields, two spaces apart: measurement, certificate number, certificate date. */
  function InstrumentFields(item: Instrument): string {
    FieldOrEmpty(item, "measurement") + "  " + FieldOrEmpty(item, "certificateNo") + "  "
      + FieldOrEmpty(item, "certificateDate")
  }

  /** The line one entry contributes. */
  function InstrumentLine(item: Instrument): string {
    InstrumentFields(item) + "\n"
  }

  /** The builder after one entry's six appends. */
  function AppendEntry(sb: string, item: Instrument): string {
    sb + FieldOrEmpty(item, "measurement") + "  " + FieldOrEmpty(item, "certificateNo") + "  "
      + FieldOrEmpty(item, "certificateDate") + "\n"
  }

  /** The six appends add exactly the entry's line. */
  lemma AppendEntryAddsLine(sb: string, item: Instrument)
    ensures AppendEntry(sb, item) == sb + InstrumentLine(item)
  {
    var m, c, d := FieldOrEmpty(item, "measurement"), FieldOrEmpty(item, "certificateNo"), FieldOrEmpty(item, "certificateDate");
    assert AppendEntry(sb, item) == sb + m + "  " + c + "  " + d + "\n";
    assert InstrumentLine(item) == m + "  " + c + "  " + d + "\n";
  }

  /** The StringBuilder's content after the loop. */
  function InstrumentLines(items: seq<Instrument>): string {
    if items == [] then "" else InstrumentLines(items[..|items| - 1]) + InstrumentLine(items[|items| - 1])
  }

  /** The value stored under "measurement": empty for a null or empty list, else the lines trimmed. */
  function MeasurementText(list: Option<seq<Instrument>>): (r: string)
    ensures list.None? || list.value == [] ==> r == ""
    ensures IsTrimmed(r)
  {
    if list.None? || list.value == [] then "" else Trim(InstrumentLines(list.value))
  }

  /** The loop at the heart of the instrument flattening, with its StringBuilder. */
  method FlattenInstruments(measurementList: Option<seq<Instrument>>) returns (text: string)
    ensures text == MeasurementText(measurementList)
  {
    if measurementList.Some? && measurementList.value != [] {
      var items := measurementList.value;
      var sb := "";
      var i := 0;
      while i < |items|
        invariant 0 <= i <= |items|
        invariant sb == InstrumentLines(items[..i])
      {
        var measurement := FieldOrEmpty(items[i], "measurement");
        var certNo := FieldOrEmpty(items[i], "certificateNo");
        var certDate := FieldOrEmpty(items[i], "certificateDate");
        ghost var prefix := sb;
        sb := sb + measurement + "  ";
        sb := sb + certNo + "  ";
        sb := sb + certDate + "\n";
        assert sb == AppendEntry(prefix, items[i]);
        AppendEntryAddsLine(prefix, items[i]);
        assert items[..i + 1][..i] == items[..i];
        i := i + 1;
      }
      assert items[..|items|] == items;
      text := Trim(sb);
    } else {
      text := "";
    }
  }

  /** The lines of a list are the lines of its first part followed by the lines of the rest. */
  lemma {:induction false} InstrumentLinesAppend(a: seq<Instrument>, b: seq<Instrument>)
    ensures InstrumentLines(a + b) == InstrumentLines(a) + InstrumentLines(b)
    decreases |b|
  {
    if b == [] {
      assert a + b == a;
    } else {
      var b' := b[..|b| - 1];
      assert (a + b)[..|a + b| - 1] == a + b';
      assert (a + b)[|a + b| - 1] == b[|b| - 1];
      InstrumentLinesAppend(a, b');
    }
  }

  /**
   * When the first field of the list starts with a non-blank and the last date
   * ends with one, trimming removes exactly the final line break: the value is
   * every entry's line, in order, without the last "\n".
   */
  lemma {:induction false} MeasurementTextIsLinesWithoutFinalBreak(items: seq<Instrument>)
    requires items != []
    requires var m := FieldOrEmpty(items[0], "measurement"); m != [] && !IsBlank(m[0])
    requires var d := FieldOrEmpty(items[|items| - 1], "certificateDate"); d != [] && !IsBlank(d[|d| - 1])
    ensures MeasurementText(Some(items)) == InstrumentLines(items[..|items| - 1]) + InstrumentFields(items[|items| - 1])
    ensures MeasurementText(Some(items)) + "\n" == InstrumentLines(items)
  {
    var last := items[|items| - 1];
    var init := items[..|items| - 1];
    var body := InstrumentLines(init) + InstrumentFields(last);
    assert InstrumentLines(items) == body + "\n";
    var d := FieldOrEmpty(last, "certificateDate");
    assert InstrumentFields(last)[|InstrumentFields(last)| - 1] == d[|d| - 1];
    assert IsTrimmed(body) by {
      var m := FieldOrEmpty(items[0], "measurement");
      assert InstrumentFields(items[0])[0] == m[0];
      if init != [] {
        InstrumentLinesAppend([items[0]], init[1..]);
        assert [items[0]] + init[1..] == init;
        assert [items[0]][..0] == [];
        assert InstrumentLines([items[0]]) == InstrumentLine(items[0]);
        assert body[0] == InstrumentLines(init)[0] == InstrumentLine(items[0])[0];
      }
    }
    TrimDropsFinalBreak(body);
  }

  /** A trimmed text followed by one line break trims back to the text. */
  lemma TrimDropsFinalBreak(body: string)
    requires IsTrimmed(body)
    ensures Trim(body + "\n") == body
  {
    assert body + "\n" == [] + body + "\n";
    TrimOfPadded([], body, "\n");
  }

  /** An entry holding all three fields, none of them null. */
  function Entry(measurement: string, certificateNo: string, certificateDate: string): Instrument {
    map["measurement" := Some(measurement), "certificateNo" := Some(certificateNo),
        "certificateDate" := Some(certificateDate)]
  }

  /** Two complete entries flatten to two lines, fields two spaces apart, with the trailing break trimmed. */
  lemma TwoInstrumentsScenario(m1: string, c1: string, d1: string, m2: string, c2: string, d2: string)
    requires m1 != [] && !IsBlank(m1[0])
    requires d2 != [] && !IsBlank(d2[|d2| - 1])
    ensures MeasurementText(Some([Entry(m1, c1, d1), Entry(m2, c2, d2)]))
      == (m1 + "  " + c1 + "  " + d1) + "\n" + (m2 + "  " + c2 + "  " + d2)
  {
    var a := Entry(m1, c1, d1);
    var b := Entry(m2, c2, d2);
    assert FieldOrEmpty(a, "measurement") == m1;
    assert FieldOrEmpty(b, "certificateDate") == d2;
    MeasurementTextIsLinesWithoutFinalBreak([a, b]);
    assert [a, b][..1] == [a];
    assert [a][..0] == [];
    assert InstrumentLines([a]) == InstrumentLine(a);
    assert InstrumentFields(a) == m1 + "  " + c1 + "  " + d1;
    assert InstrumentFields(b) == m2 + "  " + c2 + "  " + d2;
  }

  // ---------------------------------------------------------------------------
  // Monitor location

  /** The characters the regex dot does not match. */
  predicate IsLineTerminator(c: char) {
    c == '\n' || c == '\r' || c == '\U{0085}' || c == '\U{2028}' || c == '\U{2029}'
  }

  /** The colons of the pattern `[：:]`: full-width and ASCII. */
  predicate IsColon(c: char) {
    c == ':' || c == '：'
  }

  predicate ColonFree(s: string) {
    forall i :: 0 <= i < |s| ==> !IsColon(s[i])
  }

  predicate SingleLine(s: string) {
    forall i :: 0 <= i < |s| ==> !IsLineTerminator(s[i])
  }

  /** Index of the last colon of `s`, or -1. */
  function LastColon(s: string): (r: int)
    ensures -1 <= r < |s|
    ensures r >= 0 ==> IsColon(s[r])
    ensures forall j :: r < j < |s| ==> !IsColon(s[j])
  {
    if s == [] then -1
    else if IsColon(s[|s| - 1]) then |s| - 1
    else LastColon(s[..|s| - 1])
  }

  /** Index of the first line terminator, or |s|. */
  function LineEnd(s: string): (n: nat)
    ensures n <= |s|
    ensures SingleLine(s[..n])
    ensures n < |s| ==> IsLineTerminator(s[n])
  {
    if s == [] || IsLineTerminator(s[0]) then 0 else 1 + LineEnd(s[1..])
  }

  /**
   * replaceAll(".*[：:]", ""): within each line the greedy match runs from the
   * line's start to its last colon and is deleted; a line without a colon is
   * kept; the line terminators themselves are kept.
   */
  function StripLabelPrefixes(s: string): string
    decreases |s|
  {
    var n := LineEnd(s);
    var line := s[..n];
    var kept := line[LastColon(line) + 1..];
    if n == |s| then kept else kept + [s[n]] + StripLabelPrefixes(s[n + 1..])
  }

  /** The monitor location: the label with its descriptive prefixes removed, then trimmed. */
  function MonitorPosition(rawLabel: string): string {
    Trim(StripLabelPrefixes(rawLabel))
  }

  /** A single line loses everything up to and including its last colon. */
  lemma StripSingleLine(s: string)
    requires SingleLine(s)
    ensures StripLabelPrefixes(s) == s[LastColon(s) + 1..]
  {
    SingleLineEnd(s);
    assert s[..|s|] == s;
  }

  /**
   * For a one-line label: if it has a colon the location is the text after the
   * last colon, trimmed, and so holds no colon; otherwise it is the whole label
   * trimmed.
   */
  lemma MonitorPositionOfSingleLine(rawLabel: string)
    requires SingleLine(rawLabel)
    ensures LastColon(rawLabel) >= 0 ==> MonitorPosition(rawLabel) == Trim(rawLabel[LastColon(rawLabel) + 1..])
    ensures LastColon(rawLabel) == -1 ==> MonitorPosition(rawLabel) == Trim(rawLabel)
    ensures LastColon(rawLabel) >= 0 ==> ColonFree(MonitorPosition(rawLabel))
  {
    StripSingleLine(rawLabel);
    var after := rawLabel[LastColon(rawLabel) + 1..];
    ColonFreeAfterLastColon(rawLabel);
    TrimKeepsColonFree(after);
  }

  /** Nothing after the last colon is a colon. */
  lemma ColonFreeAfterLastColon(s: string)
    ensures ColonFree(s[LastColon(s) + 1..])
  {
    var k := LastColon(s);
    var t := s[k + 1..];
    forall i | 0 <= i < |t| ensures !IsColon(t[i]) {
      assert t[i] == s[k + 1 + i];
    }
  }

  /** Trimming a colon-free text leaves it colon-free. */
  lemma TrimKeepsColonFree(s: string)
    requires ColonFree(s)
    ensures ColonFree(Trim(s))
  {
    var t := Trim(s);
    var off := LeadingBlanks(s);
    forall i | 0 <= i < |t| ensures !IsColon(t[i]) {
      assert t[i] == s[off + i];
    }
  }

  lemma {:induction false} SingleLineEnd(s: string)
    requires SingleLine(s)
    ensures LineEnd(s) == |s|
  {
    if s != [] {
      assert SingleLine(s[1..]) by {
        forall i | 0 <= i < |s[1..]| ensures !IsLineTerminator(s[1..][i]) {
          assert s[1..][i] == s[i + 1];
        }
      }
      SingleLineEnd(s[1..]);
    }
  }

  /** The last colon of a text that ends in a colon-free part is the colon just before that part. */
  lemma {:induction false} LastColonBefore(pre: string, colon: char, post: string)
    requires IsColon(colon)
    requires ColonFree(post)
    ensures LastColon(pre + [colon] + post) == |pre|
    decreases |post|
  {
    var s := pre + [colon] + post;
    if post == [] {
      assert s[|s| - 1] == colon;
    } else {
      assert s[|s| - 1] == post[|post| - 1];
      assert s[..|s| - 1] == pre + [colon] + post[..|post| - 1];
      LastColonBefore(pre, colon, post[..|post| - 1]);
    }
  }

  /**
   * A one-line label "<name><colon><blanks><site>" yields exactly the site,
   * whichever of the two colons it uses, when the site holds no colon and has
   * no blank at either end.
   */
  lemma {:induction false} MonitorPositionAfterLabel(name: string, colon: char, pad: string, site: string)
    requires IsColon(colon)
    requires SingleLine(name) && SingleLine(pad) && SingleLine(site)
    requires AllBlank(pad)
    requires ColonFree(site) && IsTrimmed(site)
    ensures MonitorPosition(name + [colon] + pad + site) == site
  {
    var post := pad + site;
    var raw := name + [colon] + post;
    assert raw == name + [colon] + pad + site;
    assert ColonFree(post) by {
      forall i | 0 <= i < |post| ensures !IsColon(post[i]) {
        if i < |pad| {
          assert post[i] == pad[i];
          assert IsBlank(pad[i]);
        } else {
          assert post[i] == site[i - |pad|];
        }
      }
    }
    assert SingleLine(raw) by {
      forall i | 0 <= i < |raw| ensures !IsLineTerminator(raw[i]) {
        if i < |name| {
          assert raw[i] == name[i];
        } else if i == |name| {
          assert raw[i] == colon;
        } else if i < |name| + 1 + |pad| {
          assert raw[i] == pad[i - |name| - 1];
        } else {
          assert raw[i] == site[i - |name| - 1 - |pad|];
        }
      }
    }
    assert post == pad + site + [];
    TrimOfPadded(pad, site, []);
    assert raw[|name| + 1..] == post;
    LastColonBefore(name, colon, post);
    MonitorPositionOfSingleLine(raw);
  }

  /** The full-width-colon label of the reports: "监测点：变电站A" gives "变电站A". */
  lemma FullWidthLabelScenario()
    ensures MonitorPosition("监测点" + ['：'] + "" + "变电站A") == "变电站A"
  {
    MonitorPositionAfterLabel("监测点", '：', "", "变电站A");
  }

  /**
   * A label holding both colon kinds: the greedy `.*` runs to the last one,
   * so "监测点：线路: Site-A" gives "Site-A", not "线路: Site-A".
   */
  lemma MixedColonLabelScenario()
    ensures MonitorPosition("监测点：线路" + [':'] + " " + "Site-A") == "Site-A"
  {
    MonitorPositionAfterLabel("监测点：线路", ':', " ", "Site-A");
  }

  // ---------------------------------------------------------------------------
  // Image caption

  /** The caption prefix that is exempt from the location splice. */
  const EXEMPT_CAPTION := "图1.1"

  predicate CaptionExempt(caption: string) {
    StartsWith(Trim(caption), EXEMPT_CAPTION)
  }

  /** Where the location is spliced: after the first space, or at the end when there is none or it is last. */
  function SpliceIndex(caption: string): (j: nat)
    ensures j <= |caption|
  {
    var f := IndexOfChar(caption, ' ');
    if f != -1 && f + 1 < |caption| then f + 1 else |caption|
  }

  /** The rewritten caption: unchanged when exempt, else " " + location spliced in. */
  function CaptionWithPosition(caption: string, position: string): string {
    if CaptionExempt(caption) then caption
    else
      var f := IndexOfChar(caption, ' ');
      if f != -1 && f + 1 < |caption| then
        caption[..f + 1] + (" " + position) + caption[f + 1..]
      else
        caption + (" " + position)
  }

  /**
   * The splice is undone by deleting its insertion: a non-exempt caption gets
   * exactly " " + location inserted at SpliceIndex and nothing else changes;
   * an exempt caption is unchanged. So the caption changes iff it is not exempt.
   */
  lemma CaptionSpliceInverse(caption: string, position: string)
    ensures var r := CaptionWithPosition(caption, position);
      var j := SpliceIndex(caption);
      !CaptionExempt(caption) ==>
        |r| == |caption| + |position| + 1 &&
        r[..j] == caption[..j] && r[j..j + |position| + 1] == " " + position &&
        r[j + |position| + 1..] == caption[j..]
    ensures CaptionExempt(caption) <==> CaptionWithPosition(caption, position) == caption
  {
    if !CaptionExempt(caption) {
      CaptionSpliceShape(caption, position);
      var j := SpliceIndex(caption);
      var head, mid, tail := caption[..j], " " + position, caption[j..];
      var r := head + mid + tail;
      assert |r| == |caption| + |position| + 1;
      assert r[..j] == head;
      assert r[j..j + |mid|] == mid;
      assert r[j + |mid|..] == tail;
    }
  }

  /** A caption that is not exempt is its part up to the splice point, " " + location, then the rest. */
  lemma CaptionSpliceShape(caption: string, position: string)
    requires !CaptionExempt(caption)
    ensures CaptionWithPosition(caption, position)
      == caption[..SpliceIndex(caption)] + (" " + position) + caption[SpliceIndex(caption)..]
  {
    var f := IndexOfChar(caption, ' ');
    if !(f != -1 && f + 1 < |caption|) {
      var mid := " " + position;
      assert caption[..|caption|] == caption;
      assert caption[|caption|..] == [];
      assert caption + mid == caption + mid + [];
    }
  }

  /** Before the splice point there is exactly one space, the last character, when the caption has an inner space. */
  lemma SpliceFollowsFirstToken(caption: string)
    requires 0 <= IndexOfChar(caption, ' ') < |caption| - 1
    ensures var j := SpliceIndex(caption);
      j >= 1 && caption[j - 1] == ' ' && forall i :: 0 <= i < j - 1 ==> caption[i] != ' '
  {
  }

  // ---------------------------------------------------------------------------
  // Picture type

  /** detectImageType: from the lower-cased suffix; PNG for a null name or an unknown suffix. */
  function DetectImageType(filename: Option<string>): PictureType {
    if filename.None? then Png else TypeOfLowerName(ToLower(filename.value))
  }

  /** The suffix tests, in the source's order, on the lower-cased name. */
  function TypeOfLowerName(lower: string): PictureType {
    if EndsWith(lower, ".png") then Png
    else if EndsWith(lower, ".jpg") || EndsWith(lower, ".jpeg") then Jpeg
    else if EndsWith(lower, ".bmp") then Bmp
    else if EndsWith(lower, ".gif") then Gif
    else Png
  }

  /** The type each known (lower-case) extension selects. */
  function ExtensionType(le: string): PictureType {
    if le == ".png" then Png
    else if le == ".jpg" || le == ".jpeg" then Jpeg
    else if le == ".bmp" then Bmp
    else Gif
  }

  predicate KnownSuffix(lower: string) {
    EndsWith(lower, ".png") || EndsWith(lower, ".jpg") || EndsWith(lower, ".jpeg")
      || EndsWith(lower, ".bmp") || EndsWith(lower, ".gif")
  }

  /**
   * The type follows the extension whatever its letter case: any base name with
   * an extension spelled in any mix of cases maps to that extension's type.
   */
  lemma DetectImageTypeByExtension(base: string, ext: string)
    requires ToLower(ext) in [".png", ".jpg", ".jpeg", ".bmp", ".gif"]
    ensures DetectImageType(Some(base + ext)) == ExtensionType(ToLower(ext))
  {
    ToLowerConcat(base, ext);
    TypeOfLowerNameByExtension(ToLower(base), ToLower(ext));
  }

  /** On a lower-case name the type is the one of its known extension, whatever precedes it. */
  lemma TypeOfLowerNameByExtension(lb: string, le: string)
    requires le in [".png", ".jpg", ".jpeg", ".bmp", ".gif"]
    ensures TypeOfLowerName(lb + le) == ExtensionType(le)
  {
    if le == ".png" {
      SuffixOfConcat(lb, le, ".png");
    } else if le == ".jpg" {
      JpgName(lb);
    } else if le == ".jpeg" {
      JpegName(lb);
    } else if le == ".bmp" {
      BmpName(lb);
    } else {
      GifName(lb);
    }
  }

  lemma JpgName(lb: string)
    ensures TypeOfLowerName(lb + ".jpg") == Jpeg
  {
    SuffixOfConcat(lb, ".jpg", ".png");
    SuffixOfConcat(lb, ".jpg", ".jpg");
  }

  lemma JpegName(lb: string)
    ensures TypeOfLowerName(lb + ".jpeg") == Jpeg
  {
    SuffixOfConcat(lb, ".jpeg", ".png");
    SuffixOfConcat(lb, ".jpeg", ".jpg");
    SuffixOfConcat(lb, ".jpeg", ".jpeg");
  }

  lemma BmpName(lb: string)
    ensures TypeOfLowerName(lb + ".bmp") == Bmp
  {
    SuffixOfConcat(lb, ".bmp", ".png");
    SuffixOfConcat(lb, ".bmp", ".jpg");
    SuffixOfConcat(lb, ".bmp", ".jpeg");
    assert ".jpeg"[1..] != ".bmp";
    SuffixOfConcat(lb, ".bmp", ".bmp");
  }

  lemma GifName(lb: string)
    ensures TypeOfLowerName(lb + ".gif") == Gif
  {
    SuffixOfConcat(lb, ".gif", ".png");
    SuffixOfConcat(lb, ".gif", ".jpg");
    SuffixOfConcat(lb, ".gif", ".jpeg");
    assert ".jpeg"[1..] != ".gif";
    SuffixOfConcat(lb, ".gif", ".bmp");
    SuffixOfConcat(lb, ".gif", ".gif");
  }

  /**
   * Whether `a + b` ends in `suffix` is decided by `b` alone: directly when the
   * suffix is no longer than `b`, and otherwise `b` must be the suffix's tail.
   */
  lemma SuffixOfConcat(a: string, b: string, suffix: string)
    ensures |suffix| <= |b| ==> (EndsWith(a + b, suffix) <==> EndsWith(b, suffix))
    ensures |suffix| > |b| && EndsWith(a + b, suffix) ==> b == suffix[|suffix| - |b|..]
  {
    var s := a + b;
    if |suffix| <= |b| {
      assert s[|s| - |suffix|..] == b[|b| - |suffix|..];
    } else if EndsWith(s, suffix) {
      assert s[|s| - |b|..] == b;
      assert suffix[|suffix| - |b|..] == s[|s| - |suffix|..][|suffix| - |b|..];
    }
  }

  /** A name without any of the five known suffixes, in any letter case, is taken for PNG. */
  lemma UnknownSuffixIsPng(filename: string)
    requires !KnownSuffix(ToLower(filename))
    ensures DetectImageType(Some(filename)) == Png
  {
  }

  // ---------------------------------------------------------------------------
  // Image placeholder

  predicate AllDigits(s: string) {
    forall k :: 0 <= k < |s| ==> '0' <= s[k] <= '9'
  }

  /** String concatenation of a non-negative int: its decimal digits, most significant first. */
  function DecimalString(n: nat): (s: string)
    ensures |s| >= 1 && AllDigits(s)
    ensures s[0] == '0' <==> n == 0
    decreases n
  {
    var d := [('0' as int + n % 10) as char];
    if n < 10 then d else DecimalString(n / 10) + d
  }

  /** The number a string of decimal digits denotes. */
  function DecimalValue(s: string): nat
    requires AllDigits(s)
  {
    if s == [] then 0 else 10 * DecimalValue(s[..|s| - 1]) + (s[|s| - 1] as int - '0' as int)
  }

  /** Reading the digits back gives the number. */
  lemma {:induction false} DecimalRoundTrip(n: nat)
    ensures DecimalValue(DecimalString(n)) == n
    decreases n
  {
    var s := DecimalString(n);
    if n >= 10 {
      DecimalRoundTrip(n / 10);
      assert s[..|s| - 1] == DecimalString(n / 10);
    }
  }

  /** The placeholder of the i-th uploaded image (counting from 0): {{image1}}, {{image2}}, ... */
  function ImagePlaceholder(i: nat): string {
    "{{image" + DecimalString(i + 1) + "}}"
  }

  /** Different images look for different placeholders. */
  lemma ImagePlaceholdersDistinct(i: nat, j: nat)
    requires i != j
    ensures ImagePlaceholder(i) != ImagePlaceholder(j)
  {
    var a, b := ImagePlaceholder(i), ImagePlaceholder(j);
    if a == b {
      var di, dj := DecimalString(i + 1), DecimalString(j + 1);
      assert |di| == |dj|;
      assert a[7..|a| - 2] == di;
      assert b[7..|b| - 2] == dj;
      DecimalRoundTrip(i + 1);
      DecimalRoundTrip(j + 1);
    }
  }
}
