/**
Model-facing instruction rendering within a byte budget (agentinstructions/render.go).  A string
is a sequence of bytes, one per character.
 */
module Render {
  import opened SessionLog

  // ----- Cutting at character boundaries -----

  /** The byte is not a UTF-8 continuation byte. */
  predicate RuneStart(c: char) {
    !(0x80 <= c as int < 0xC0)
  }

  predicate Boundary(s: string, k: nat) {
    k <= |s| && (k == 0 || k == |s| || RuneStart(s[k]))
  }

  /** The largest boundary at or below k. */
  function LastBoundary(s: string, k: int): (b: nat)
    ensures Boundary(s, b) && (k >= 0 ==> b <= k)
    ensures forall j :: b < j <= k ==> !Boundary(s, j)
    ensures k < 0 ==> b == 0
    decreases k
  {
    if |s| <= k then |s|
    else if k <= 0 then 0
    else if RuneStart(s[k]) then k
    else LastBoundary(s, k - 1)
  }

  /** Cuts to a byte budget without splitting a code point. */
  method TruncateUtf8(value: string, maxBytes: int) returns (r: string)
    ensures r == value[..LastBoundary(value, maxBytes)]
  {
    if |value| <= maxBytes { return value; }
    var end := if maxBytes < 0 then 0 else maxBytes;
    while end > 0 && end < |value| && !RuneStart(value[end])
      invariant 0 <= end <= |value| && LastBoundary(value, end) == LastBoundary(value, maxBytes)
    {
      end := end - 1;
    }
    return value[..end];
  }

  // ----- Escaping -----

  const Close: string := "</system-reminder>"
  const Open: string := "<system-reminder>"
  const Escaped: string := "<\\/system-reminder>"

  predicate At(s: string, k: int) {
    0 <= k <= |s| - |Close| && s[k..k + |Close|] == Close
  }

  /** Every occurrence of the closing tag, from left to right, replaced. */
  function Escape(s: string): string {
    if |s| < |Close| then s
    else if At(s, 0) then Escaped + Escape(s[|Close|..])
    else [s[0]] + Escape(s[1..])
  }

  /** How often the closing tag occurs. */
  function Occurrences(s: string): nat {
    if |s| < |Close| then 0 else (if At(s, 0) then 1 else 0) + Occurrences(s[1..])
  }

  predicate NoOpener(s: string) {
    forall k :: 0 <= k < |s| ==> s[k] != '<'
  }

  lemma TagFacts()
    ensures |Close| == 18 && |Escaped| == 19 && |Open| == 17
    ensures Close[0] == '<' == Escaped[0] && Close[1] == '/' && Escaped[1] == '\\'
    ensures NoOpener(Close[1..]) && NoOpener(Escaped[1..])
    ensures forall k :: 0 <= k < |Close| ==> Close[k] != '\n' && !('0' <= Close[k] <= '9')
  {
  }

  lemma {:induction false} SkipPlain(s: string, k: nat)
    requires k <= |s| && NoOpener(s[..k])
    ensures Occurrences(s) == Occurrences(s[k..])
  {
    if k > 0 {
      assert s[..k][0] == s[0];
      assert s[1..][..k - 1] == s[..k][1..];
      assert |s| >= |Close| ==> s[0..|Close|][0] == s[0];
      SkipPlain(s[1..], k - 1);
      assert s[1..][k - 1..] == s[k..];
    } else {
      assert s[k..] == s;
    }
  }

  lemma {:induction false} EscapedLength(s: string)
    ensures |Escape(s)| == |s| + Occurrences(s)
  {
    if |s| >= |Close| {
      if At(s, 0) {
        assert s[1..][..17] == s[0..18][1..];
        SkipPlain(s[1..], 17);
        assert s[1..][17..] == s[18..];
        EscapedLength(s[18..]);
      } else {
        EscapedLength(s[1..]);
      }
    }
  }

  /** A longer text has no fewer occurrences. */
  lemma {:induction false} LongerHasMore(s: string, t: string)
    requires s <= t
    ensures Occurrences(s) <= Occurrences(t)
  {
    if |s| >= |Close| {
      assert t[0..|Close|] == s[0..|Close|];
      assert s[1..] <= t[1..];
      LongerHasMore(s[1..], t[1..]);
    }
  }

  predicate Digits(d: string) {
    d != "" && forall k :: 0 <= k < |d| ==> '0' <= d[k] <= '9'
  }

  /** No tag spans a number. */
  lemma {:induction false} NumberSplits(a: string, d: string, b: string)
    requires Digits(d)
    ensures Occurrences(a + d + b) == Occurrences(a) + Occurrences(b)
  {
    var s := a + d + b;
    if a == "" {
      assert s == d + b && s[..|d|] == d;
      SkipPlain(s, |d|);
      assert s[|d|..] == b;
    } else {
      NumberSplits(a[1..], d, b);
      assert s[1..] == a[1..] + d + b;
      if |s| >= |Close| {
        if |a| >= |Close| {
          assert s[0..|Close|] == a[0..|Close|];
        } else {
          assert s[0..|Close|][|a|] == d[0];
        }
      }
    }
  }

  lemma Window(s: string, k: nat, i: nat)
    requires k <= i < k + |Close| <= |s| && s[i] != Close[i - k]
    ensures !At(s, k)
  {
    assert s[k..k + |Close|][i - k] == s[i];
  }

  lemma AtShift(a: string, b: string, k: nat)
    ensures At(a + b, |a| + k) <==> At(b, k)
  {
    if k + |Close| <= |b| { assert (a + b)[|a| + k..|a| + k + |Close|] == b[k..k + |Close|]; }
  }

  lemma ReplacementOpens(s: string)
    ensures At(s, 0) ==> Escape(s) != "" && Escape(s)[0] == '<'
  {
  }

  /** Bytes of the escaped text before its first `<` are copied. */
  lemma {:induction false} PlainIsCopied(s: string, m: nat)
    requires m <= |Escape(s)| && NoOpener(Escape(s)[..m])
    ensures m <= |s| && s[..m] == Escape(s)[..m]
  {
    var e := Escape(s);
    if |s| >= |Close| && m > 0 {
      assert e[..m][0] == e[0];
      ReplacementOpens(s);
      assert e[..m][1..] == Escape(s[1..])[..m - 1];
      PlainIsCopied(s[1..], m - 1);
    }
  }

  lemma CopiedByteStartsNoTag(s: string)
    requires |s| >= |Close| && !At(s, 0)
    ensures !At([s[0]] + Escape(s[1..]), 0)
  {
    TagFacts();
    var rest := Escape(s[1..]);
    var e := [s[0]] + rest;
    if |rest| >= 17 {
      if NoOpener(rest[..17]) {
        PlainIsCopied(s[1..], 17);
        assert e[0..18] == [s[0]] + rest[..17] == s[0..18];
      } else {
        var i :| 0 <= i < 17 && rest[..17][i] == '<';
        assert Close[1..][i] == Close[i + 1];
        Window(e, 0, i + 1);
      }
    }
  }

  lemma ReplacementHasNoTag(rest: string, k: nat)
    requires k < |Escaped|
    ensures !At(Escaped + rest, k)
  {
    TagFacts();
    var e := Escaped + rest;
    if k + |Close| <= |e| {
      if k == 0 {
        Window(e, 0, 1);
      } else {
        assert Escaped[1..][k - 1] == e[k];
        Window(e, k, k);
      }
    }
  }

  /** Escaped text does not contain the closing tag, not even across a replacement. */
  lemma {:induction false} EscapedHasNoTag(s: string, k: int)
    ensures !At(Escape(s), k)
    decreases |s|
  {
    if |s| >= |Close| && k >= 0 {
      if At(s, 0) {
        var rest := Escape(s[|Close|..]);
        if k < |Escaped| {
          ReplacementHasNoTag(rest, k);
        } else {
          EscapedHasNoTag(s[|Close|..], k - |Escaped|);
          AtShift(Escaped, rest, k - |Escaped|);
        }
      } else if k == 0 {
        CopiedByteStartsNoTag(s);
      } else {
        EscapedHasNoTag(s[1..], k - 1);
        AtShift([s[0]], Escape(s[1..]), k - 1);
      }
    }
  }

  /** Text without the closing tag is not changed. */
  lemma {:induction false} PlainIsUnchanged(s: string)
    requires forall k :: !At(s, k)
    ensures Escape(s) == s
  {
    if |s| >= |Close| {
      assert s == [s[0]] + s[1..];
      forall k ensures !At(s[1..], k) { if k >= 0 { AtShift([s[0]], s[1..], k); } }
      PlainIsUnchanged(s[1..]);
    }
  }

  /** The first closing tag becomes the escaped form, what precedes it is kept, and what follows is
      escaped in turn. */
  lemma {:induction false} FirstTagIsReplaced(s: string, n: nat)
    requires At(s, n) && forall k :: 0 <= k < n ==> !At(s, k)
    ensures Escape(s) == s[..n] + Escaped + Escape(s[n + |Close|..])
  {
    if n == 0 {
      assert s[..n] + Escaped == Escaped;
    } else {
      EscapeOneByte(s, n);
      FirstTagIsReplaced(s[1..], n - 1);
      hide Escape, At;
      assert s[1..][n - 1 + |Close|..] == s[n + |Close|..];
      Uncut(s, n, Escaped, Escape(s[n + |Close|..]));
    }
  }

  lemma EscapeOneByte(s: string, n: nat)
    requires n > 0 && At(s, n) && forall k :: 0 <= k < n ==> !At(s, k)
    ensures Escape(s) == [s[0]] + Escape(s[1..])
    ensures At(s[1..], n - 1) && forall k :: 0 <= k < n - 1 ==> !At(s[1..], k)
  {
    assert s == [s[0]] + s[1..];
    forall k: nat | k < n ensures At(s, k + 1) <==> At(s[1..], k) { AtShift([s[0]], s[1..], k); }
  }

  lemma Uncut(s: string, n: nat, x: string, y: string)
    requires 0 < n <= |s|
    ensures [s[0]] + (s[1..][..n - 1] + x + y) == s[..n] + x + y
  {
    assert [s[0]] + s[1..][..n - 1] == s[..n];
  }

  /** The complete frame around a body. */
  function Framed(body: string): string {
    Open + "\n" + Escape(body) + "\n" + Close
  }

  lemma TagAfterLine(e: string, k: nat)
    ensures At(e + ("\n" + Close), k) <==> At(e, k) || k == |e| + 1
  {
    TagFacts();
    var text := e + ("\n" + Close);
    if k + |Close| <= |e| {
      assert text[k..k + |Close|] == e[k..k + |Close|];
    } else if k <= |e| {
      assert text[|e|] == '\n';
      Window(text, k, |e|);
    } else if k == |e| + 1 {
      assert text[k..] == Close && k + |Close| == |text|;
    }
  }

  /** A frame contains the closing tag as its final bytes and nowhere else. */
  lemma FrameClosesOnce(body: string, k: int)
    ensures At(Framed(body), k) <==> k == |Framed(body)| - |Close|
  {
    TagFacts();
    var e := Escape(body);
    var head, tail := Open + "\n", e + ("\n" + Close);
    assert Framed(body) == head + tail;
    hide Escape, Framed;
    if k >= 18 {
      AtShift(head, tail, k - 18);
      TagAfterLine(e, k - 18);
      EscapedHasNoTag(body, k - 18);
    } else if k >= 0 {
      assert (head + tail)[17] == '\n';
      Window(head + tail, k, 17);
    }
  }

  // ----- The rendered text -----

  datatype File = File(absolutePath: string, displayPath: string, content: string)

  datatype Truncation = Truncation(displayPath: string, originalBytes: nat, includedBytes: nat)

  /** A section is a heading, followed by the file's content unless the file was removed. */
  datatype Section = Section(heading: string, carriesContent: bool)

  datatype Style = Style(intro: string, section: (string, string) -> Section)

  function CompactIntro(): string {
    "Workspace instructions were omitted or truncated to fit the configured byte budget."
  }

  function SectionText(style: Style, file: File): string {
    var s := style.section(file.absolutePath, file.displayPath);
    s.heading + if s.carriesContent then file.content else ""
  }

  /** The decimal digits of a number. */
  function Decimal(n: nat): (d: string)
    ensures Digits(d)
  {
    if n < 10 then ['0' + n as char] else Decimal(n / 10) + ['0' + (n % 10) as char]
  }

  /** The number a decimal numeral denotes. */
  function Value(d: string): nat
    requires d == "" || Digits(d)
  {
    if d == "" then 0 else 10 * Value(d[..|d| - 1]) + (d[|d| - 1] - '0') as nat
  }

  /** A printed number reads back, and has no leading zero. */
  lemma {:induction false} DecimalReadsBack(n: nat)
    ensures Value(Decimal(n)) == n && (n > 0 ==> Decimal(n)[0] != '0')
  {
    if n < 10 {
      assert Decimal(n)[..0] == "";
    } else {
      DecimalReadsBack(n / 10);
      assert Decimal(n)[..|Decimal(n)| - 1] == Decimal(n / 10);
    }
  }

  lemma {:induction false} LargerNumbersAreLonger(m: nat, n: nat)
    requires m <= n
    ensures |Decimal(m)| <= |Decimal(n)|
  {
    if m >= 10 { LargerNumbersAreLonger(m / 10, n / 10); }
  }

  /** The separator before each of the parts. */
  function Trailing(parts: seq<string>, separator: string): string {
    if parts == [] then "" else separator + parts[0] + Trailing(parts[1..], separator)
  }

  function Join(parts: seq<string>, separator: string): string {
    if parts == [] then "" else parts[0] + Trailing(parts[1..], separator)
  }

  lemma Regroup(x: string, y: string, z: string)
    ensures x + (y + z) == x + y + z
  {
  }

  lemma {:induction false} TrailingConcat(a: seq<string>, b: seq<string>, separator: string)
    ensures Trailing(a + b, separator) == Trailing(a, separator) + Trailing(b, separator)
  {
    if a == [] {
      assert a + b == b;
    } else {
      TrailingConcat(a[1..], b, separator);
      assert (a + b)[1..] == a[1..] + b && (a + b)[0] == a[0];
      assert Trailing(a + b, separator) == separator + a[0] + Trailing(a[1..] + b, separator);
      hide Trailing;
      Regroup(separator + a[0], Trailing(a[1..], separator), Trailing(b, separator));
    }
  }

  function DisplayPaths(files: seq<File>): seq<string> {
    seq(|files|, i requires 0 <= i < |files| => files[i].displayPath)
  }

  function TruncationTexts(items: seq<Truncation>): seq<string> {
    seq(|items|, i requires 0 <= i < |items| =>
      items[i].displayPath + " from " + Decimal(items[i].originalBytes) + " to " + Decimal(items[i].includedBytes) + " bytes")
  }

  /** The budget diagnostic line. */
  function MarkerText(maxBytes: nat, omitted: seq<File>, truncated: seq<Truncation>): string {
    if omitted == [] && truncated == [] then ""
    else
      var parts := (if omitted == [] then [] else ["omitted " + Join(DisplayPaths(omitted), ", ")])
                 + (if truncated == [] then [] else ["truncated " + Join(TruncationTexts(truncated), ", ")]);
      "Workspace instruction budget " + Decimal(maxBytes) + " bytes: " + Join(parts, "; ")
  }

  /** The block of a text, unless it is empty. */
  function Block(text: string): seq<string> {
    if text == "" then [] else [text]
  }

  function SectionBlocks(style: Style, files: seq<File>): seq<string> {
    if files == [] then [] else SectionBlocks(style, files[..|files| - 1]) + Block(SectionText(style, files[|files| - 1]))
  }

  function Body(files: seq<File>, maxBytes: nat, omitted: seq<File>, truncated: seq<Truncation>, style: Style): string {
    Join(Block(MarkerText(maxBytes, omitted, truncated)) + Block(style.intro) + SectionBlocks(style, files), "\n\n")
  }

  function Text(files: seq<File>, maxBytes: nat, omitted: seq<File>, truncated: seq<Truncation>, style: Style): string {
    Framed(Body(files, maxBytes, omitted, truncated, style))
  }

  method BuildInstructionText(files: seq<File>, maxBytes: nat, omitted: seq<File>, truncated: seq<Truncation>, style: Style) returns (text: string)
    ensures text == Text(files, maxBytes, omitted, truncated, style) && ShowsWhole(text, files, style)
  {
    hide Framed, Join, MarkerText, SectionText, SectionBlocks, ShowsWhole;
    TextShowsFiles(files, maxBytes, omitted, truncated, style);
    var marker := MarkerText(maxBytes, omitted, truncated);
    var blocks := [];
    if marker != "" { blocks := blocks + [marker]; }
    if style.intro != "" { blocks := blocks + [style.intro]; }
    ghost var head := blocks;
    assert head == Block(marker) + Block(style.intro);
    NoSections(style);
    for i := 0 to |files|
      invariant blocks == head + SectionBlocks(style, files[..i])
    {
      SectionBlocksOneMore(style, files[..i], files[i]);
      assert files[..i + 1] == files[..i] + [files[i]];
      var section := SectionText(style, files[i]);
      if section != "" { blocks := blocks + [section]; }
    }
    assert files[..|files|] == files;
    return Framed(Join(blocks, "\n\n"));
  }

  // ----- What the text shows -----

  predicate HasAt(text: string, k: nat, part: string) {
    k + |part| <= |text| && text[k..k + |part|] == part
  }

  /** A file is shown at k: its heading and, if its section carries it, the whole content right after. */
  predicate ShownAt(text: string, k: nat, style: Style, file: File) {
    var s := style.section(file.absolutePath, file.displayPath);
    HasAt(text, k, s.heading) && (s.carriesContent ==> HasAt(text, k + |s.heading|, file.content))
  }

  /** Where the section that starts at k ends. */
  function EndsAt(k: nat, style: Style, file: File): nat {
    var s := style.section(file.absolutePath, file.displayPath);
    k + |s.heading| + if s.carriesContent then |file.content| else 0
  }

  /** Where the i-th section may start: at `from`, or where the one before it ends. */
  function EndBefore(from: nat, at: seq<nat>, style: Style, files: seq<File>, i: nat): nat
    requires i <= |at| == |files|
  {
    if i == 0 then from else EndsAt(at[i - 1], style, files[i - 1])
  }

  /** Nothing, or one blank line, lies between `before` and k. */
  predicate Adjoins(text: string, before: nat, k: nat) {
    k == before || (k == before + 2 && HasAt(text, before, "\n\n"))
  }

  /** All files are shown in order after the first `from` bytes, with nothing but a blank line between
      two of them and nothing after the last. */
  ghost predicate ShownInOrder(text: string, from: nat, at: seq<nat>, style: Style, files: seq<File>) {
    && |at| == |files|
    && (forall i :: 0 <= i < |files| ==> ShownAt(text, at[i], style, files[i]))
    && (forall i :: 0 <= i < |files| ==> Adjoins(text, EndBefore(from, at, style, files, i), at[i]))
    && |text| == EndBefore(from, at, style, files, |files|)
  }

  /** The text frames a body that shows all the files whole, in order. */
  ghost predicate ShowsWhole(text: string, files: seq<File>, style: Style) {
    exists body, from: nat, at :: text == Framed(body) && ShownInOrder(body, from, at, style, files)
  }

  lemma TextShowsFiles(files: seq<File>, maxBytes: nat, omitted: seq<File>, truncated: seq<Truncation>, style: Style)
    ensures ShowsWhole(Text(files, maxBytes, omitted, truncated, style), files, style)
  {
    hide Body, Framed, ShownInOrder, MarkerText;
    var at := BodyShowsFiles(files, maxBytes, omitted, truncated, style);
    var body, opening := Body(files, maxBytes, omitted, truncated, style), Opening(MarkerText(maxBytes, omitted, truncated), style.intro);
    assert Text(files, maxBytes, omitted, truncated, style) == Framed(body) && ShownInOrder(body, |opening|, at, style, files);
  }

  lemma SectionIsShown(style: Style, file: File, before: string)
    ensures var section := SectionText(style, file);
            ShownAt(before + section, |before|, style, file) && EndsAt(|before|, style, file) == |before| + |section|
  {
  }

  lemma JoinLast(parts: seq<string>, last: string, separator: string)
    requires parts != []
    ensures Join(parts + [last], separator) == Join(parts, separator) + (separator + last)
  {
    assert (parts + [last])[1..] == parts[1..] + [last];
    TrailingConcat(parts[1..], [last], separator);
    assert Trailing([last], separator) == separator + last + Trailing([last][1..], separator);
    Regroup(parts[0], Trailing(parts[1..], separator), separator + last);
  }

  lemma ShownStays(text: string, more: string, k: nat, style: Style, file: File)
    requires ShownAt(text, k, style, file)
    ensures ShownAt(text + more, k, style, file)
  {
    var s := style.section(file.absolutePath, file.displayPath);
    HasStays(text, more, k, s.heading);
    if s.carriesContent { HasStays(text, more, k + |s.heading|, file.content); }
  }

  lemma AdjoinsStays(text: string, more: string, before: nat, k: nat)
    requires Adjoins(text, before, k)
    ensures Adjoins(text + more, before, k)
  {
    if k == before + 2 { HasStays(text, more, before, "\n\n"); }
  }

  /** Appending a section, after a blank line or after nothing, shows one file more. */
  lemma OneMoreShown(text: string, gap: string, from: nat, at: seq<nat>, style: Style, files: seq<File>, file: File)
    requires ShownInOrder(text, from, at, style, files) && (gap == "" || gap == "\n\n")
    ensures ShownInOrder(text + gap + SectionText(style, file), from, at + [|text| + |gap|], style, files + [file])
  {
    hide ShownAt, EndsAt, SectionText, HasAt, Adjoins;
    var section, k := SectionText(style, file), |text| + |gap|;
    var text', at', files' := text + gap + section, at + [k], files + [file];
    assert text' == text + (gap + section);
    SectionIsShown(style, file, text + gap);
    GapAdjoins(text, gap, section);
    forall i | 0 <= i < |files'|
      ensures ShownAt(text', at'[i], style, files'[i]) && Adjoins(text', EndBefore(from, at', style, files', i), at'[i])
    {
      SameEnd(from, at, k, style, files, file, i);
      if i < |files| {
        ShownStays(text, gap + section, at[i], style, files[i]);
        AdjoinsStays(text, gap + section, EndBefore(from, at, style, files, i), at[i]);
      }
    }
  }

  lemma SameEnd(from: nat, at: seq<nat>, k: nat, style: Style, files: seq<File>, file: File, i: nat)
    requires i <= |at| == |files|
    ensures EndBefore(from, at + [k], style, files + [file], i) == EndBefore(from, at, style, files, i)
  {
  }

  lemma GapAdjoins(text: string, gap: string, section: string)
    requires gap == "" || gap == "\n\n"
    ensures Adjoins(text + gap + section, |text|, |text| + |gap|)
  {
  }

  lemma {:induction false} SectionsAreShown(head: seq<string>, style: Style, files: seq<File>) returns (at: seq<nat>)
    ensures Join(head, "\n\n") <= Join(head + SectionBlocks(style, files), "\n\n")
    ensures ShownInOrder(Join(head + SectionBlocks(style, files), "\n\n"), |Join(head, "\n\n")|, at, style, files)
  {
    hide SectionText, Join;
    if files == [] {
      assert head + SectionBlocks(style, files) == head;
      return [];
    }
    var init, file := files[..|files| - 1], files[|files| - 1];
    assert files == init + [file];
    var before := SectionsAreShown(head, style, init);
    hide ShownInOrder, Block;
    var blocks, section := head + SectionBlocks(style, init), SectionText(style, file);
    assert head + SectionBlocks(style, files) == blocks + Block(section);
    at := BlockIsShown(blocks, |Join(head, "\n\n")|, before, style, init, file);
  }

  lemma BlockIsShown(blocks: seq<string>, from: nat, before: seq<nat>, style: Style, files: seq<File>, file: File) returns (at: seq<nat>)
    requires ShownInOrder(Join(blocks, "\n\n"), from, before, style, files)
    ensures Join(blocks, "\n\n") <= Join(blocks + Block(SectionText(style, file)), "\n\n")
    ensures ShownInOrder(Join(blocks + Block(SectionText(style, file)), "\n\n"), from, at, style, files + [file])
  {
    hide ShownInOrder, SectionText, Join, Block;
    var text, section := Join(blocks, "\n\n"), SectionText(style, file);
    var gap := if blocks == [] || section == "" then "" else "\n\n";
    OneMoreShown(text, gap, from, before, style, files, file);
    JoinBlock(blocks, section);
    at := before + [|text| + |gap|];
  }

  lemma JoinBlock(blocks: seq<string>, section: string)
    ensures var gap := if blocks == [] || section == "" then "" else "\n\n";
            Join(blocks + Block(section), "\n\n") == Join(blocks, "\n\n") + gap + section
  {
    if section == "" {
      assert blocks + Block(section) == blocks;
    } else if blocks == [] {
      assert blocks + [section] == [section];
      JoinOne(section, "\n\n");
    } else {
      JoinLast(blocks, section, "\n\n");
      Regroup(Join(blocks, "\n\n"), "\n\n", section);
    }
  }

  /** What a body opens with: the diagnostic, the introduction, or both with a blank line between. */
  function Opening(marker: string, intro: string): string {
    if marker == "" then intro else if intro == "" then marker else marker + "\n\n" + intro
  }

  /** A body is its opening followed by the heading and the whole content of every file, in file order. */
  lemma BodyShowsFiles(files: seq<File>, maxBytes: nat, omitted: seq<File>, truncated: seq<Truncation>, style: Style) returns (at: seq<nat>)
    ensures var body, opening := Body(files, maxBytes, omitted, truncated, style), Opening(MarkerText(maxBytes, omitted, truncated), style.intro);
            opening <= body && ShownInOrder(body, |opening|, at, style, files)
  {
    hide MarkerText, SectionText, ShownInOrder;
    var marker := MarkerText(maxBytes, omitted, truncated);
    JoinBlock(Block(marker), style.intro);
    if marker != "" { JoinOne(marker, "\n\n"); }
    assert Join(Block(marker) + Block(style.intro), "\n\n") == Opening(marker, style.intro);
    at := SectionsAreShown(Block(marker) + Block(style.intro), style, files);
  }

  lemma HasStays(text: string, more: string, k: nat, part: string)
    requires HasAt(text, k, part)
    ensures HasAt(text + more, k, part)
  {
    assert (text + more)[k..k + |part|] == text[k..k + |part|];
  }

  /** The parts of a list occur in its joined text in order, separated by exactly the separator. */
  lemma {:induction false} JoinShows(parts: seq<string>, separator: string) returns (at: seq<nat>)
    ensures |at| == |parts| && forall i :: 0 <= i < |parts| ==> HasAt(Join(parts, separator), at[i], parts[i])
    ensures forall i :: 0 < i < |parts| ==> at[i] == at[i - 1] + |parts[i - 1]| + |separator|
    ensures if parts == [] then Join(parts, separator) == "" else at[0] == 0 && |Join(parts, separator)| == at[|parts| - 1] + |parts[|parts| - 1]|
  {
    if parts == [] { return []; }
    var init, last := parts[..|parts| - 1], parts[|parts| - 1];
    assert parts == init + [last];
    var before := JoinShows(init, separator);
    if init == [] {
      JoinOne(last, separator);
      return [0];
    }
    JoinLast(init, last, separator);
    hide Join;
    var text, more := Join(init, separator), separator + last;
    at := before + [|text| + |separator|];
    forall i | 0 <= i < |parts| ensures HasAt(text + more, at[i], parts[i]) {
      if i < |init| { HasStays(text, more, at[i], parts[i]); }
    }
  }

  /** The diagnostic names every omitted file, in order. */
  lemma MarkerNamesOmitted(maxBytes: nat, omitted: seq<File>, truncated: seq<Truncation>) returns (at: seq<nat>)
    requires omitted != []
    ensures |at| == |omitted| && forall i :: 0 <= i < |omitted| ==> HasAt(MarkerText(maxBytes, omitted, truncated), at[i], omitted[i].displayPath)
    ensures forall i :: 0 < i < |omitted| ==> at[i] == at[i - 1] + |omitted[i - 1].displayPath| + 2
  {
    var names := DisplayPaths(omitted);
    assert forall i :: 0 <= i < |omitted| ==> names[i] == omitted[i].displayPath;
    var k := PathsAreInside(maxBytes, omitted, truncated);
    hide Join, MarkerText, DisplayPaths, HasAt;
    at := NamesInside(MarkerText(maxBytes, omitted, truncated), k, names);
  }

  lemma NamesInside(text: string, k: nat, names: seq<string>) returns (at: seq<nat>)
    requires HasAt(text, k, Join(names, ", "))
    ensures |at| == |names| && forall i :: 0 <= i < |names| ==> HasAt(text, at[i], names[i])
    ensures forall i :: 0 < i < |names| ==> at[i] == at[i - 1] + |names[i - 1]| + 2
  {
    hide Join, HasAt;
    var inner := JoinShows(names, ", ");
    at := seq(|inner|, i requires 0 <= i < |inner| => inner[i] + k);
    forall i | 0 <= i < |names| ensures HasAt(text, at[i], names[i]) {
      HasInside(text, k, Join(names, ", "), inner[i], names[i]);
    }
  }

  lemma PathsAreInside(maxBytes: nat, omitted: seq<File>, truncated: seq<Truncation>) returns (k: nat)
    requires omitted != []
    ensures HasAt(MarkerText(maxBytes, omitted, truncated), k, Join(DisplayPaths(omitted), ", "))
  {
    var first := "omitted " + Join(DisplayPaths(omitted), ", ");
    var more := if truncated == [] then [] else ["truncated " + Join(TruncationTexts(truncated), ", ")];
    var head := "Workspace instruction budget " + Decimal(maxBytes) + " bytes: ";
    assert MarkerText(maxBytes, omitted, truncated) == head + Join([first] + more, "; ");
    JoinFirst(first, more, "; ");
    hide Join, Decimal, MarkerText, DisplayPaths, Trailing, TruncationTexts;
    k := |head| + 8;
    NameIsInside(head, Join(DisplayPaths(omitted), ", "), Trailing(more, "; "));
  }

  lemma NameIsInside(head: string, paths: string, tail: string)
    ensures HasAt(head + ("omitted " + paths + tail), |head| + 8, paths)
  {
  }

  lemma HasInside(text: string, k: nat, part: string, m: nat, inner: string)
    requires HasAt(text, k, part) && HasAt(part, m, inner)
    ensures HasAt(text, m + k, inner)
  {
    forall j | 0 <= j < |inner| ensures text[m + k + j] == inner[j] {
      assert part[m..m + |inner|][j] == part[m + j] && text[k..k + |part|][m + j] == text[m + k + j];
    }
    assert text[m + k..m + k + |inner|] == inner;
  }

  // ----- Longer prefixes need more room -----

  function With(file: File, content: string): File {
    file.(content := content)
  }

  /** The text with the file cut to `content` and the cut recorded. */
  function CutText(file: File, content: string, included: seq<File>, maxBytes: nat, omitted: seq<File>, style: Style): string {
    Text(included + [With(file, content)], maxBytes, omitted, [Truncation(file.displayPath, |file.content|, |content|)], style)
  }

  /** The body up to the recorded length, and from it on. */
  function BeforeNumber(file: File, maxBytes: nat, omitted: seq<File>): string {
    var cut := "truncated " + (file.displayPath + " from " + Decimal(|file.content|) + " to ");
    "Workspace instruction budget " + Decimal(maxBytes) + " bytes: "
      + (if omitted == [] then cut else "omitted " + Join(DisplayPaths(omitted), ", ") + "; " + cut)
  }

  function AfterNumber(file: File, content: string, included: seq<File>, style: Style): string {
    " bytes" + Trailing(Block(style.intro) + SectionBlocks(style, included) + Block(SectionText(style, With(file, content))), "\n\n")
  }

  lemma MarkerShape(file: File, n: nat, maxBytes: nat, omitted: seq<File>)
    ensures MarkerText(maxBytes, omitted, [Truncation(file.displayPath, |file.content|, n)])
            == BeforeNumber(file, maxBytes, omitted) + Decimal(n) + " bytes"
  {
    hide Decimal, DisplayPaths;
    var truncated := [Truncation(file.displayPath, |file.content|, n)];
    var item := file.displayPath + " from " + Decimal(|file.content|) + " to " + Decimal(n) + " bytes";
    assert TruncationTexts(truncated) == [item];
    JoinOne(item, ", ");
    var cut := "truncated " + item;
    if omitted == [] {
      assert [] + [cut] == [cut];
      JoinOne(cut, "; ");
    } else {
      var first := "omitted " + Join(DisplayPaths(omitted), ", ");
      assert [first] + [cut] == [first, cut];
      JoinTwo(first, cut, "; ");
    }
  }

  lemma JoinOne(a: string, separator: string)
    ensures Join([a], separator) == a
  {
  }

  lemma JoinTwo(a: string, b: string, separator: string)
    ensures Join([a, b], separator) == a + separator + b
  {
    assert [a, b][1..] == [b];
    assert Trailing([b], separator) == separator + b + Trailing([b][1..], separator);
  }

  lemma NoSections(style: Style)
    ensures SectionBlocks(style, []) == []
  {
  }

  lemma SectionBlocksOneMore(style: Style, files: seq<File>, file: File)
    ensures SectionBlocks(style, files + [file]) == SectionBlocks(style, files) + Block(SectionText(style, file))
  {
    assert (files + [file])[..|files|] == files;
  }

  lemma JoinFirst(first: string, more: seq<string>, separator: string)
    ensures Join([first] + more, separator) == first + Trailing(more, separator)
  {
    assert ([first] + more)[1..] == more;
  }

  lemma MarkerBlock(marker: string, number: string)
    requires exists before :: marker == before + number + " bytes"
    ensures Block(marker) == [marker]
  {
  }

  lemma RegroupBlocks(marker: string, a: seq<string>, b: seq<string>, c: seq<string>)
    ensures [marker] + a + (b + c) == [marker] + (a + b + c)
  {
  }

  lemma BodyShape(file: File, content: string, included: seq<File>, maxBytes: nat, omitted: seq<File>, style: Style)
    ensures Body(included + [With(file, content)], maxBytes, omitted, [Truncation(file.displayPath, |file.content|, |content|)], style)
            == BeforeNumber(file, maxBytes, omitted) + Decimal(|content|) + AfterNumber(file, content, included, style)
  {
    hide MarkerText, BeforeNumber, SectionText, Join, Trailing, SectionBlocks, Decimal, Block;
    var before, number := BeforeNumber(file, maxBytes, omitted), Decimal(|content|);
    var marker := MarkerText(maxBytes, omitted, [Truncation(file.displayPath, |file.content|, |content|)]);
    MarkerShape(file, |content|, maxBytes, omitted);
    MarkerBlock(marker, number);
    SectionBlocksOneMore(style, included, With(file, content));
    var last := Block(SectionText(style, With(file, content)));
    var more := Block(style.intro) + SectionBlocks(style, included) + last;
    RegroupBlocks(marker, Block(style.intro), SectionBlocks(style, included), last);
    JoinFirst(marker, more, "\n\n");
    Regroup(before + number, " bytes", Trailing(more, "\n\n"));
  }

  lemma SectionGrows(style: Style, file: File, p: string, q: string)
    requires p <= q
    ensures Trailing(Block(SectionText(style, With(file, p))), "\n\n") <= Trailing(Block(SectionText(style, With(file, q))), "\n\n")
  {
    var s := style.section(file.absolutePath, file.displayPath);
    assert SectionText(style, With(file, p)) <= SectionText(style, With(file, q));
    TrailingOne(SectionText(style, With(file, p)), "\n\n");
    TrailingOne(SectionText(style, With(file, q)), "\n\n");
  }

  lemma TrailingOne(text: string, separator: string)
    ensures Trailing(Block(text), separator) == if text == "" then "" else separator + text
  {
    assert text != "" ==> Block(text)[1..] == [] && Trailing([], separator) == "";
  }

  lemma AfterNumberGrows(file: File, p: string, q: string, included: seq<File>, style: Style)
    requires p <= q
    ensures AfterNumber(file, p, included, style) <= AfterNumber(file, q, included, style)
  {
    hide Trailing, SectionText, Block;
    var head := Block(style.intro) + SectionBlocks(style, included);
    SectionGrows(style, file, p, q);
    TrailingConcat(head, Block(SectionText(style, With(file, p))), "\n\n");
    TrailingConcat(head, Block(SectionText(style, With(file, q))), "\n\n");
  }

  lemma FramedLength(body: string)
    ensures |Framed(body)| == |body| + Occurrences(body) + 37
  {
    hide Escape;
    EscapedLength(body);
  }

  /** Cutting less never makes the text shorter, although the recorded length and the escapes change. */
  lemma LongerCutsAreLonger(file: File, p: string, q: string, included: seq<File>, maxBytes: nat, omitted: seq<File>, style: Style)
    requires p <= q
    ensures |CutText(file, p, included, maxBytes, omitted, style)| <= |CutText(file, q, included, maxBytes, omitted, style)|
  {
    hide Body, Framed, AfterNumber, BeforeNumber, Occurrences, Decimal;
    BodyShape(file, p, included, maxBytes, omitted, style);
    BodyShape(file, q, included, maxBytes, omitted, style);
    AfterNumberGrows(file, p, q, included, style);
    LongerHasMore(AfterNumber(file, p, included, style), AfterNumber(file, q, included, style));
    LargerNumbersAreLonger(|p|, |q|);
    NumberSplits(BeforeNumber(file, maxBytes, omitted), Decimal(|p|), AfterNumber(file, p, included, style));
    NumberSplits(BeforeNumber(file, maxBytes, omitted), Decimal(|q|), AfterNumber(file, q, included, style));
    FramedLength(BeforeNumber(file, maxBytes, omitted) + Decimal(|p|) + AfterNumber(file, p, included, style));
    FramedLength(BeforeNumber(file, maxBytes, omitted) + Decimal(|q|) + AfterNumber(file, q, included, style));
  }

  predicate Fits(file: File, content: string, included: seq<File>, maxBytes: nat, omitted: seq<File>, style: Style) {
    |CutText(file, content, included, maxBytes, omitted, style)| <= maxBytes
  }

  /** The longest boundary prefix that fits, or the empty one when none does. */
  ghost predicate LongestFit(best: string, file: File, included: seq<File>, maxBytes: nat, omitted: seq<File>, style: Style) {
    && best <= file.content && Boundary(file.content, |best|)
    && (Fits(file, best, included, maxBytes, omitted, style) || best == "")
    && forall k: nat :: |best| < k && Boundary(file.content, k) ==> !Fits(file, file.content[..k], included, maxBytes, omitted, style)
  }

  /** The cut at byte k fits. */
  predicate FitsAt(file: File, k: int, included: seq<File>, maxBytes: nat, omitted: seq<File>, style: Style) {
    Fits(file, file.content[..LastBoundary(file.content, k)], included, maxBytes, omitted, style)
  }

  lemma WiderCutsGrow(file: File, j: int, k: int, included: seq<File>, maxBytes: nat, omitted: seq<File>, style: Style)
    requires j <= k && !FitsAt(file, j, included, maxBytes, omitted, style)
    ensures !FitsAt(file, k, included, maxBytes, omitted, style)
  {
    hide CutText;
    var p, q := LastBoundary(file.content, j), LastBoundary(file.content, k);
    assert p <= q;
    assert file.content[..p] <= file.content[..q];
    LongerCutsAreLonger(file, file.content[..p], file.content[..q], included, maxBytes, omitted, style);
  }

  lemma SearchEnds(file: File, low: nat, included: seq<File>, maxBytes: nat, omitted: seq<File>, style: Style)
    requires low > 0 ==> FitsAt(file, low - 1, included, maxBytes, omitted, style)
    requires forall k :: low <= k <= |file.content| ==> !FitsAt(file, k, included, maxBytes, omitted, style)
    ensures LongestFit(file.content[..LastBoundary(file.content, low - 1)], file, included, maxBytes, omitted, style)
  {
    hide Fits, LastBoundary;
    var content, b := file.content, LastBoundary(file.content, low - 1);
    forall k: nat | b < k && Boundary(content, k) ensures !Fits(file, content[..k], included, maxBytes, omitted, style) {
      assert LastBoundary(content, k) == k;
      assert !FitsAt(file, k, included, maxBytes, omitted, style);
    }
  }

  /** Binary search for the largest prefix that fits with the already included files. */
  method TruncateToFit(file: File, included: seq<File>, maxBytes: nat, omitted: seq<File>, style: Style) returns (best: string)
    ensures LongestFit(best, file, included, maxBytes, omitted, style)
  {
    hide Text, LastBoundary, LongestFit, ShowsWhole;
    var content := file.content;
    var low, high := 0, |content|;
    best := TruncateUtf8(content, 0);
    while low <= high
      invariant 0 <= low <= high + 1 <= |content| + 1
      invariant best == content[..LastBoundary(content, low - 1)]
      invariant low > 0 ==> FitsAt(file, low - 1, included, maxBytes, omitted, style)
      invariant forall k :: high < k <= |content| ==> !FitsAt(file, k, included, maxBytes, omitted, style)
    {
      var mid := (low + high) / 2;
      var candidate := TruncateUtf8(content, mid);
      var text := BuildInstructionText(included + [With(file, candidate)], maxBytes, omitted,
                                       [Truncation(file.displayPath, |content|, |candidate|)], style);
      assert FitsAt(file, mid, included, maxBytes, omitted, style) <==> |text| <= maxBytes;
      if |text| <= maxBytes {
        best, low := candidate, mid + 1;
      } else {
        forall k | mid <= k <= |content| ensures !FitsAt(file, k, included, maxBytes, omitted, style) {
          WiderCutsGrow(file, mid, k, included, maxBytes, omitted, style);
        }
        high := mid - 1;
      }
    }
    SearchEnds(file, low, included, maxBytes, omitted, style);
  }

  // ----- The whole batch -----

  datatype Rendered = Rendered(text: string, omitted: seq<File>, truncated: seq<Truncation>, represented: seq<File>)

  /** Dropping the first `start` files makes the rest fit uncut. */
  predicate SuffixFits(files: seq<File>, start: nat, maxBytes: nat, style: Style)
    requires start <= |files|
  {
    |Text(files[start..], maxBytes, files[..start], [], style)| <= maxBytes
  }

  function Suffix(files: seq<File>, start: nat, maxBytes: nat, style: Style): Rendered
    requires start <= |files|
  {
    Rendered(Text(files[start..], maxBytes, files[..start], [], style), files[..start], [], files[start..])
  }

  /** The most specific file cut to its longest fitting prefix; it counts as represented only if
      some of it is shown. */
  ghost predicate CutLast(r: Rendered, files: seq<File>, maxBytes: nat, style: Style)
    requires files != []
  {
    var last, omitted := files[|files| - 1], files[..|files| - 1];
    exists best: string ::
      && LongestFit(best, last, [], maxBytes, omitted, style) && Fits(last, best, [], maxBytes, omitted, style)
      && r == Rendered(CutText(last, best, [], maxBytes, omitted, style), omitted, [Truncation(last.displayPath, |last.content|, |best|)],
                       if best != "" || last.content == "" then [last] else [])
  }

  /** The budget diagnostic, followed by the file's heading. */
  function Notice(files: seq<File>, maxBytes: nat): string
    requires files != []
  {
    var last := files[|files| - 1];
    Escape(MarkerText(maxBytes, files[..|files| - 1], [Truncation(last.displayPath, |last.content|, 0)]))
  }

  function NoticeWithHeading(files: seq<File>, maxBytes: nat, style: Style): string
    requires files != []
  {
    var last := files[|files| - 1];
    Escape(Join([Notice(files, maxBytes), style.section(last.absolutePath, last.displayPath).heading], "\n\n"))
  }

  /** No frame fits: only the budget diagnostic is shown, with the heading or else perhaps cut. */
  ghost predicate NoticeOnly(r: Rendered, files: seq<File>, maxBytes: nat, style: Style)
    requires files != []
  {
    var last, heading, notice := files[|files| - 1], NoticeWithHeading(files, maxBytes, style), Notice(files, maxBytes);
    && r.omitted == files[..|files| - 1] && r.truncated == [Truncation(last.displayPath, |last.content|, 0)]
    && r.text == (if |heading| <= maxBytes then heading else notice[..LastBoundary(notice, maxBytes)])
    && r.represented == (if |heading| <= maxBytes && last.content == "" then [last] else [])
    && forall k :: !At(r.text, k)
  }

  /** A rendering that cuts nothing shows every represented file whole, in order. */
  lemma UncutShowsFiles(files: seq<File>, start: nat, maxBytes: nat, style: Style) returns (body: string, at: seq<nat>)
    requires start <= |files|
    ensures var r := Suffix(files, start, maxBytes, style);
            && r.omitted + r.represented == files && |r.omitted| == start && r.truncated == []
            && r.text == Open + "\n" + Escape(body) + "\n" + Close
            && var opening := Opening(MarkerText(maxBytes, r.omitted, []), style.intro);
               opening <= body && ShownInOrder(body, |opening|, at, style, r.represented)
  {
    hide Body, Opening, ShownInOrder, Escape, MarkerText;
    body := Body(files[start..], maxBytes, files[..start], [], style);
    at := BodyShowsFiles(files[start..], maxBytes, files[..start], [], style);
  }

  /** A rendering that cuts the last file shows its heading and then the longest fitting part of its
      content, with which the body ends; it counts as represented iff some of it, or all of it, is shown. */
  lemma CutShowsPrefix(r: Rendered, files: seq<File>, maxBytes: nat, style: Style) returns (body: string, best: string, k: nat)
    requires files != [] && CutLast(r, files, maxBytes, style)
    ensures var last := files[|files| - 1];
            && r.text == Framed(body) && best <= last.content && r.truncated == [Truncation(last.displayPath, |last.content|, |best|)]
            && ShownAt(body, k, style, With(last, best)) && |body| == EndsAt(k, style, With(last, best))
            && r.represented == if best != "" || last.content == "" then [last] else []
  {
    best := CutWitness(r, files, maxBytes, style);
    hide CutLast, Body, Framed, Opening, MarkerText, ShownAt, EndsAt, ShownInOrder;
    var last, omitted := files[|files| - 1], files[..|files| - 1];
    var cut := [Truncation(last.displayPath, |last.content|, |best|)];
    body := Body([With(last, best)], maxBytes, omitted, cut, style);
    var at := BodyShowsFiles([With(last, best)], maxBytes, omitted, cut, style);
    k := OnlyShown(body, |Opening(MarkerText(maxBytes, omitted, cut), style.intro)|, at, style, With(last, best));
  }

  lemma OnlyShown(text: string, from: nat, at: seq<nat>, style: Style, file: File) returns (k: nat)
    requires ShownInOrder(text, from, at, style, [file])
    ensures ShownAt(text, k, style, file) && |text| == EndsAt(k, style, file)
  {
    hide ShownAt, EndsAt, Adjoins;
    k := at[0];
  }

  lemma CutWitness(r: Rendered, files: seq<File>, maxBytes: nat, style: Style) returns (best: string)
    requires files != [] && CutLast(r, files, maxBytes, style)
    ensures var last, omitted := files[|files| - 1], files[..|files| - 1];
            var cut := [Truncation(last.displayPath, |last.content|, |best|)];
            && best <= last.content && r.truncated == cut && r.text == Framed(Body([With(last, best)], maxBytes, omitted, cut, style))
            && r.represented == if best != "" || last.content == "" then [last] else []
  {
    hide Body, Framed, Boundary;
    var last, omitted := files[|files| - 1], files[..|files| - 1];
    best :| LongestFit(best, last, [], maxBytes, omitted, style) && Fits(last, best, [], maxBytes, omitted, style)
      && r == Rendered(CutText(last, best, [], maxBytes, omitted, style), omitted, [Truncation(last.displayPath, |last.content|, |best|)],
                       if best != "" || last.content == "" then [last] else []);
    assert [] + [With(last, best)] == [With(last, best)];
  }

  method RenderNotice(files: seq<File>, maxBytes: nat, style: Style) returns (r: Rendered)
    requires files != []
    ensures |r.text| <= maxBytes && |r.truncated| == 1 && NoticeOnly(r, files, maxBytes, style)
  {
    hide MarkerText, Escape, At;
    var last, omitted := files[|files| - 1], files[..|files| - 1];
    var truncated := [Truncation(last.displayPath, |last.content|, 0)];
    var marker := MarkerText(maxBytes, omitted, truncated);
    var notice := Escape(marker);
    var withHeading := Join([notice, SectionText(style, With(last, ""))], "\n\n");
    assert SectionText(style, With(last, "")) == style.section(last.absolutePath, last.displayPath).heading;
    forall k ensures !At(notice, k) && !At(Escape(withHeading), k) {
      EscapedHasNoTag(marker, k);
      EscapedHasNoTag(withHeading, k);
    }
    if |Escape(withHeading)| <= maxBytes {
      return Rendered(Escape(withHeading), omitted, truncated, if last.content == "" then [last] else []);
    }
    var text := notice;
    if |notice| > maxBytes {
      text := TruncateUtf8(notice, maxBytes);
      forall k ensures !At(text, k) { PrefixHasNoTag(notice, |text|, k); }
    }
    return Rendered(text, omitted, truncated, []);
  }

  lemma PrefixHasNoTag(s: string, n: nat, k: int)
    requires n <= |s| && !At(s, k)
    ensures !At(s[..n], k)
  {
    if 0 <= k && k + |Close| <= n { assert s[..n][k..k + |Close|] == s[k..k + |Close|]; }
  }

  method CutMostSpecific(files: seq<File>, maxBytes: nat, style: Style) returns (r: Option<Rendered>)
    requires files != []
    ensures r.Some? <==> Fits(files[|files| - 1], "", [], maxBytes, files[..|files| - 1], style)
    ensures r.Some? ==> |r.value.truncated| == 1 && CutLast(r.value, files, maxBytes, style) && |r.value.text| <= maxBytes && exists body :: r.value.text == Framed(body)
  {
    hide Framed, Body, ShowsWhole;
    var last, omitted := files[|files| - 1], files[..|files| - 1];
    var best := TruncateToFit(last, [], maxBytes, omitted, style);
    var truncated := [Truncation(last.displayPath, |last.content|, |best|)];
    var text := BuildInstructionText([With(last, best)], maxBytes, omitted, truncated, style);
    assert [] + [With(last, best)] == [With(last, best)];
    if |text| <= maxBytes {
      LongerCutsAreLonger(last, "", best, [], maxBytes, omitted, style);
      return Some(Rendered(text, omitted, truncated, if |best| > 0 || |last.content| == 0 then [last] else []));
    }
    return None;
  }

  function Compact(style: Style): Style {
    style.(intro := CompactIntro())
  }

  /** Dropping `start` files is the least drop after which the rest fits uncut. */
  ghost predicate LeastDrop(files: seq<File>, start: nat, maxBytes: nat, style: Style) {
    && (start == 0 || start < |files|) && SuffixFits(files, start, maxBytes, style)
    && forall j: nat :: j < start ==> !SuffixFits(files, j, maxBytes, style)
  }

  method RenderUncut(files: seq<File>, maxBytes: nat, style: Style) returns (r: Option<Rendered>)
    ensures r.Some? ==> |r.value.text| <= maxBytes && exists body :: r.value.text == Framed(body)
    ensures r.Some? ==> r.value.truncated == [] && ShowsWhole(r.value.text, r.value.represented, style)
    ensures forall start: nat :: LeastDrop(files, start, maxBytes, style) ==> r == Some(Suffix(files, start, maxBytes, style))
    ensures r.None? ==> forall start: nat :: !LeastDrop(files, start, maxBytes, style)
    ensures r.Some? ==> exists start: nat :: LeastDrop(files, start, maxBytes, style)
  {
    hide Framed, Body, ShowsWhole;
    var fullText := BuildInstructionText(files, maxBytes, [], [], style);
    assert files[0..] == files && files[..0] == [];
    if |fullText| <= maxBytes {
      assert LeastDrop(files, 0, maxBytes, style);
      return Some(Rendered(fullText, [], [], files));
    }
    var start := 1;
    while start < |files|
      invariant 1 <= start
      invariant forall j: nat :: j < start && j <= |files| ==> !SuffixFits(files, j, maxBytes, style)
    {
      var text := BuildInstructionText(files[start..], maxBytes, files[..start], [], style);
      if |text| <= maxBytes {
        assert LeastDrop(files, start, maxBytes, style);
        return Some(Rendered(text, files[..start], [], files[start..]));
      }
      start := start + 1;
    }
    return None;
  }

  method RenderCut(files: seq<File>, maxBytes: nat, style: Style) returns (r: Rendered)
    requires files != []
    ensures |r.text| <= maxBytes && |r.truncated| == 1
    ensures (exists body :: r.text == Framed(body)) || (forall k :: !At(r.text, k))
    ensures var last, omitted := files[|files| - 1], files[..|files| - 1];
            if Fits(last, "", [], maxBytes, omitted, style) then CutLast(r, files, maxBytes, style)
            else if Fits(last, "", [], maxBytes, omitted, Compact(style)) then CutLast(r, files, maxBytes, Compact(style))
            else NoticeOnly(r, files, maxBytes, style)
  {
    hide Framed, CutLast, Fits, At;
    var own := CutMostSpecific(files, maxBytes, style);
    if own.Some? { return own.value; }
    var compact := CutMostSpecific(files, maxBytes, Compact(style));
    if compact.Some? { return compact.value; }
    r := RenderNotice(files, maxBytes, style);
  }

  /** Deterministic budgeting: drop the broadest files first, then cut the most specific one. */
  method RenderInstructionContext(files: seq<File>, maxBytes: int, style: Style) returns (r: Rendered)
    ensures maxBytes <= 0 ==> r == Rendered("", files, [], [])
    ensures maxBytes > 0 ==> |r.text| <= maxBytes
    // The closing tag is only ever the final bytes.
    ensures forall k :: At(r.text, k) ==> k == |r.text| - |Close|
    // Unless a file was cut, every represented file is shown whole, in order.
    ensures maxBytes > 0 && files != [] && r.truncated == [] ==> ShowsWhole(r.text, r.represented, style)
    // The longest suffix that fits uncut wins.
    ensures forall start: nat :: maxBytes > 0 && LeastDrop(files, start, maxBytes, style) ==> r == Suffix(files, start, maxBytes, style)
    // Otherwise the most specific file is cut, under its own or the compact introduction.
    ensures maxBytes > 0 && (forall start: nat :: !LeastDrop(files, start, maxBytes, style)) ==> (
      if files == [] then r == Rendered("", [], [], [])
      else
        var last, omitted := files[|files| - 1], files[..|files| - 1];
        if Fits(last, "", [], maxBytes, omitted, style) then CutLast(r, files, maxBytes, style)
        else if Fits(last, "", [], maxBytes, omitted, Compact(style)) then CutLast(r, files, maxBytes, Compact(style))
        else NoticeOnly(r, files, maxBytes, style))
  {
    hide LeastDrop, Suffix, Framed, CutLast, Fits, NoticeOnly, ShowsWhole;
    if maxBytes <= 0 { return Rendered("", files, [], []); }
    var uncut := RenderUncut(files, maxBytes, style);
    if uncut.Some? {
      r := uncut.value;
    } else if files == [] {
      r := Rendered("", [], [], []);
    } else {
      r := RenderCut(files, maxBytes, style);
    }
    FramesCloseOnce(r.text);
  }

  lemma FramesCloseOnce(text: string)
    ensures (exists body :: text == Framed(body)) ==> forall k :: At(text, k) ==> k == |text| - |Close|
  {
    hide At, Framed;
    forall body, k | text == Framed(body) && At(text, k) ensures k == |text| - |Close| {
      FrameClosesOnce(body, k);
    }
  }
}
