/** The text forms of programs and images, and reading them back. */
module TextForms {
  import opened Bits
  import opened Wrappers

  // ------------------------------------------------------------ numbers

  function HexDigit(d: nat): (c: char)
    requires d < 16
  {
    if d < 10 then '0' + d as char else 'a' + (d - 10) as char
  }

  function HexValue(c: char): Option<nat> {
    if '0' <= c <= '9' then Some((c - '0') as nat)
    else if 'a' <= c <= 'f' then Some((c - 'a') as nat + 10)
    else if 'A' <= c <= 'F' then Some((c - 'A') as nat + 10)
    else None
  }

  predicate IsHex(c: char) { HexValue(c).Some? }

  predicate IsDigit(c: char) { '0' <= c <= '9' }

  lemma DigitBack(d: nat)
    requires d < 16
    ensures HexValue(HexDigit(d)) == Some(d) && !IsSpace(HexDigit(d)) && HexDigit(d) != '\n' && HexDigit(d) != '#'
  {
  }

  /** `n` hex digits, most significant first. */
  function Hex(x: nat, n: nat): (s: string)
    ensures |s| == n
  {
    if n == 0 then "" else Hex(x / 16, n - 1) + [HexDigit(x % 16)]
  }

  /** The value of a run of hex digits. */
  function HexNumber(s: string): nat
    decreases |s|
  {
    if s == "" then 0
    else 16 * HexNumber(s[..|s| - 1]) + (if IsHex(s[|s| - 1]) then HexValue(s[|s| - 1]).value else 0)
  }

  predicate AllHex(s: string) {
    forall k :: 0 <= k < |s| ==> IsHex(s[k])
  }

  function Pow16(n: nat): (p: nat)
    ensures p >= 1
  {
    if n == 0 then 1 else 16 * Pow16(n - 1)
  }

  lemma {:induction false} HexBack(x: nat, n: nat)
    requires x < Pow16(n)
    ensures AllHex(Hex(x, n)) && HexNumber(Hex(x, n)) == x
    ensures forall k :: 0 <= k < n ==> !IsSpace(Hex(x, n)[k]) && Hex(x, n)[k] != '\n' && Hex(x, n)[k] != '#'
    decreases n
  {
    if n > 0 {
      HexBack(x / 16, n - 1);
      DigitBack(x % 16);
      var s := Hex(x, n);
      assert s[..n - 1] == Hex(x / 16, n - 1) && s[n - 1] == HexDigit(x % 16);
    }
  }

  /** Decimal digits. */
  function Decimal(n: nat): (s: string)
    ensures |s| >= 1
  {
    if n < 10 then [HexDigit(n)] else Decimal(n / 10) + [HexDigit(n % 10)]
  }

  lemma {:induction false} DecimalDigits(n: nat)
    ensures forall k :: 0 <= k < |Decimal(n)| ==> IsDigit(Decimal(n)[k])
  {
    if n >= 10 {
      DecimalDigits(n / 10);
    }
  }

  // ------------------------------------------------------------ lines

  predicate IsSpace(c: char) { c == ' ' || c == '\t' || c == '\n' || c == '\r' }

  /** The first place of `c`, or the length. */
  function Find(s: string, c: char): (k: nat)
    ensures k <= |s| && (k < |s| ==> s[k] == c) && forall j :: 0 <= j < k ==> s[j] != c
  {
    if s == "" || s[0] == c then 0 else 1 + Find(s[1..], c)
  }

  function Lines(text: string): seq<string>
    decreases |text|
  {
    if text == "" then []
    else
      var k := Find(text, '\n');
      if k == |text| then [text] else [text[..k]] + Lines(text[k + 1..])
  }

  function Unlines(ls: seq<string>): string {
    if ls == [] then "" else ls[0] + "\n" + Unlines(ls[1..])
  }

  predicate OneLine(s: string) { forall k :: 0 <= k < |s| ==> s[k] != '\n' }

  lemma {:induction false} LinesBack(ls: seq<string>)
    requires forall i :: 0 <= i < |ls| ==> OneLine(ls[i])
    ensures Lines(Unlines(ls)) == ls
    decreases |ls|
  {
    if ls != [] {
      var rest := Unlines(ls[1..]);
      var text := ls[0] + "\n" + rest;
      LinesBack(ls[1..]);
      var k := Find(text, '\n');
      assert text[|ls[0]|] == '\n';
      forall j | 0 <= j < |ls[0]| ensures text[j] != '\n' {
        assert text[j] == ls[0][j];
      }
      assert k == |ls[0]|;
      assert text[..k] == ls[0] && text[k + 1..] == rest;
    }
  }

  function LeftStrip(s: string): (r: string)
    ensures |r| <= |s| && r == s[|s| - |r|..] && (r != "" ==> !IsSpace(r[0]))
  {
    if s != "" && IsSpace(s[0]) then LeftStrip(s[1..]) else s
  }

  function RightStrip(s: string): (r: string)
    ensures |r| <= |s| && r == s[..|r|] && (r != "" ==> !IsSpace(r[|r| - 1]))
    ensures forall k :: |r| <= k < |s| ==> IsSpace(s[k])
  {
    if s != "" && IsSpace(s[|s| - 1]) then RightStrip(s[..|s| - 1]) else s
  }

  function Strip(s: string): string { RightStrip(LeftStrip(s)) }

  lemma {:induction false} StripIndent(n: nat, s: string)
    requires s != "" && !IsSpace(s[0])
    ensures LeftStrip(Spaces(n) + s) == s
    decreases n
  {
    if n == 0 {
      assert Spaces(0) + s == s;
    } else {
      StripIndent(n - 1, s);
      assert (Spaces(n) + s)[1..] == Spaces(n - 1) + s;
    }
  }

  function Spaces(n: nat): (s: string)
    ensures |s| == n && forall k :: 0 <= k < n ==> s[k] == ' '
  {
    if n == 0 then "" else [' '] + Spaces(n - 1)
  }

  // ------------------------------------------------------------ images

  /** One hex byte per line. */
  function ImageLines(img: seq<Byte>): (ls: seq<string>)
    ensures |ls| == |img| && forall k :: 0 <= k < |img| ==> ls[k] == Hex(img[k], 2)
  {
    if img == [] then [] else ImageLines(img[..|img| - 1]) + [Hex(img[|img| - 1], 2)]
  }

  /** The host's reader: stripped non-empty lines as hex numbers. */
  function ReadHexLines(ls: seq<string>): Option<seq<nat>>
    decreases |ls|
  {
    if ls == [] then Some([])
    else
      var s := Strip(ls[0]);
      var rest := ReadHexLines(ls[1..]);
      if s == "" then rest
      else if rest.None? || !AllHex(s) then None
      else Some([HexNumber(s)] + rest.value)
  }

  function ParseHex(text: string): Option<seq<nat>> { ReadHexLines(Lines(text)) }

  lemma StripHex(x: nat, n: nat)
    requires x < Pow16(n) && n > 0
    ensures Strip(Hex(x, n)) == Hex(x, n)
  {
    HexBack(x, n);
  }

  lemma {:induction false} ReadBack(img: seq<Byte>, i: nat)
    requires i <= |img|
    ensures ReadHexLines(ImageLines(img)[i..]) == Some(img[i..])
    decreases |img| - i
  {
    hide *;
    var ls := ImageLines(img)[i..];
    if i == |img| {
      ReadNone(ls);
      assert img[i..] == [];
    } else {
      ReadBack(img, i + 1);
      ByteLine(img[i]);
      assert ls[0] == Hex(img[i], 2) && ls[1..] == ImageLines(img)[i + 1..];
      ReadOne(ls);
      assert [img[i]] + img[i + 1..] == img[i..];
    }
  }

  lemma ReadNone(ls: seq<string>)
    requires ls == []
    ensures ReadHexLines(ls) == Some([])
  {
  }

  lemma ByteLine(b: Byte)
    ensures Strip(Hex(b, 2)) == Hex(b, 2) && AllHex(Hex(b, 2)) && HexNumber(Hex(b, 2)) == b && OneLine(Hex(b, 2))
  {
    assert Pow16(2) == 256;
    StripHex(b, 2);
    HexBack(b, 2);
    hide Hex;
  }

  lemma ReadOne(ls: seq<string>)
    requires ls != [] && Strip(ls[0]) == ls[0] && ls[0] != "" && AllHex(ls[0]) && ReadHexLines(ls[1..]).Some?
    ensures ReadHexLines(ls) == Some([HexNumber(ls[0])] + ReadHexLines(ls[1..]).value)
  {
    hide Strip, HexNumber, AllHex;
  }

  /** What the assembler writes, the host reads: the same bytes in the same order. */
  lemma ImageTextRoundTrip(img: seq<Byte>)
    ensures ParseHex(Unlines(ImageLines(img))) == Some(img)
  {
    forall i | 0 <= i < |ImageLines(img)| ensures OneLine(ImageLines(img)[i]) {
      ByteLine(img[i]);
    }
    LinesBack(ImageLines(img));
    ReadBack(img, 0);
    assert ImageLines(img)[0..] == ImageLines(img) && img[0..] == img;
  }

  // ------------------------------------------------------------ program listings

  /** A listing line: address in three columns, the word, and any remark after it. */
  function ListingLine(i: nat, w: Word, remark: string): string {
    Spaces(if |Decimal(i)| < 3 then 3 - |Decimal(i)| else 0) + Listed(i, w, remark)
  }

  function Listed(i: nat, w: Word, remark: string): string {
    Decimal(i) + (": " + ("0x" + (Hex(w, 4) + ("  " + remark))))
  }

  /** Where the digits from the start end. */
  function DigitRun(s: string): (k: nat)
    ensures k <= |s| && (forall j :: 0 <= j < k ==> IsDigit(s[j])) && (k < |s| ==> !IsDigit(s[k]))
  {
    if s == "" || !IsDigit(s[0]) then 0 else 1 + DigitRun(s[1..])
  }

  function HexRun(s: string): (k: nat)
    ensures k <= |s| && (forall j :: 0 <= j < k ==> IsHex(s[j])) && (k < |s| ==> !IsHex(s[k]))
  {
    if s == "" || !IsHex(s[0]) then 0 else 1 + HexRun(s[1..])
  }

  predicate IsWordChar(c: char) {
    ('0' <= c <= '9') || ('a' <= c <= 'z') || ('A' <= c <= 'Z') || c == '_'
  }

  /** The pattern's end: no word character follows. */
  predicate Ends(s: string, k: nat) {
    k >= |s| || !IsWordChar(s[k])
  }

  /** A hex number at the start, with or without 0x. */
  function WordAtStart(s: string): Option<nat> {
    if |s| >= 3 && s[0] == '0' && s[1] == 'x' && HexRun(s[2..]) > 0 && Ends(s[2..], HexRun(s[2..])) then
      Some(HexNumber(s[2..][..HexRun(s[2..])]))
    else if HexRun(s) > 0 && Ends(s, HexRun(s)) then Some(HexNumber(s[..HexRun(s)]))
    else None
  }

  /** The line pattern: an optional address and colon, then the number. */
  function MatchLine(s: string): Option<nat> {
    var k := DigitRun(s);
    var after := if 0 < k < |s| && s[k] == ':' then WordAtStart(LeftStrip(s[k + 1..])) else None;
    if after.Some? then after else WordAtStart(s)
  }

  function ReadProgramLines(ls: seq<string>): Option<seq<nat>>
    decreases |ls|
  {
    if ls == [] then Some([])
    else
      var s := Strip(ls[0][..Find(ls[0], '#')]);
      var rest := ReadProgramLines(ls[1..]);
      if s == "" then rest
      else
        var w := MatchLine(s);
        if rest.None? || w.None? then None else Some([w.value] + rest.value)
  }

  /** A remark a listing may carry: one line, no comment sign. */
  predicate Remark(s: string) {
    forall k :: 0 <= k < |s| ==> s[k] != '\n' && s[k] != '#'
  }

  lemma {:induction false} HexRunOf(h: string, tail: string)
    requires AllHex(h) && (tail == "" || !IsHex(tail[0]))
    ensures HexRun(h + tail) == |h|
    decreases |h|
  {
    if h == "" {
      assert h + tail == tail;
    } else {
      assert (h + tail)[1..] == h[1..] + tail;
      HexRunOf(h[1..], tail);
    }
  }

  lemma {:induction false} DigitRunOf(d: string, tail: string)
    requires (forall k :: 0 <= k < |d| ==> IsDigit(d[k])) && (tail == "" || !IsDigit(tail[0]))
    ensures DigitRun(d + tail) == |d|
    decreases |d|
  {
    if d == "" {
      assert d + tail == tail;
    } else {
      assert (d + tail)[1..] == d[1..] + tail;
      DigitRunOf(d[1..], tail);
    }
  }

  /** "0x", the digits, and something that ends them. */
  lemma WordRead(w: Word, tail: string)
    requires tail == "" || tail[0] == ' '
    ensures WordAtStart("0x" + (Hex(w, 4) + tail)) == Some(w)
  {
    var s := "0x" + (Hex(w, 4) + tail);
    assert Pow16(4) == 65536 by {
      assert Pow16(2) == 256;
    }
    HexBack(w, 4);
    HexRunOf(Hex(w, 4), tail);
    hide Hex, HexNumber, HexRun, AllHex, Pow16;
    assert s[2..] == Hex(w, 4) + tail;
    assert (Hex(w, 4) + tail)[..4] == Hex(w, 4);
  }

  lemma MatchAfter(s: string, k: nat)
    requires DigitRun(s) == k && 0 < k < |s| && s[k] == ':' && WordAtStart(LeftStrip(s[k + 1..])).Some?
    ensures MatchLine(s) == WordAtStart(LeftStrip(s[k + 1..]))
  {
    hide DigitRun, WordAtStart, LeftStrip;
  }

  lemma AfterColon(d: string, word: string)
    requires word != "" && !IsSpace(word[0])
    ensures var s := d + (": " + word);
            s[|d|] == ':' && LeftStrip(s[|d| + 1..]) == word
  {
    var s := d + (": " + word);
    assert s[|d| + 1..] == Spaces(1) + word;
    StripIndent(1, word);
    hide LeftStrip;
  }

  lemma SignsBetween(word: string)
    requires word != "" && word[0] == '0'
    ensures !IsSpace(word[0]) && !IsDigit((": " + word)[0])
  {
    assert (": " + word)[0] == ':';
  }

  /** The digits, the colon, and the word, whatever is left of the remark. */
  lemma ListedRead(d: string, w: Word, tail: string)
    requires d != "" && (forall k :: 0 <= k < |d| ==> IsDigit(d[k])) && (tail == "" || tail[0] == ' ')
    ensures MatchLine(d + (": " + ("0x" + (Hex(w, 4) + tail)))) == Some(w)
  {
    hide *;
    var word := "0x" + (Hex(w, 4) + tail);
    assert word[0] == '0';
    SignsBetween(word);
    DigitRunOf(d, ": " + word);
    WordRead(w, tail);
    AfterColon(d, word);
    MatchAfter(d + (": " + word), |d|);
  }

  lemma StripIs(s: string)
    ensures Strip(s) == RightStrip(LeftStrip(s))
  {
  }

  lemma RightKeeps(p: string, rem: string) returns (m: nat)
    requires p != "" && !IsSpace(p[|p| - 1])
    ensures m <= |rem| && RightStrip(p + rem) == p + rem[..m]
  {
    hide *;
    var r := RightStrip(p + rem);
    assert (p + rem)[|p| - 1] == p[|p| - 1];
    assert |r| >= |p|;
    m := |r| - |p|;
    assert (p + rem)[..|r|] == p + rem[..m];
  }

  /** Stripping takes the indent, and of the rest at most spaces after the last sign. */
  lemma StripKeeps(n: nat, p: string, rem: string) returns (m: nat)
    requires p != "" && !IsSpace(p[0]) && !IsSpace(p[|p| - 1])
    ensures m <= |rem| && Strip(Spaces(n) + (p + rem)) == p + rem[..m]
  {
    hide *;
    assert (p + rem)[0] == p[0];
    StripIndent(n, p + rem);
    StripIs(Spaces(n) + (p + rem));
    m := RightKeeps(p, rem);
  }

  /** The part of a listing line before the remark. */
  function Head(i: nat, w: Word): string {
    Decimal(i) + (": " + ("0x" + Hex(w, 4)))
  }

  lemma HeadSigns(i: nat, w: Word)
    ensures var p := Head(i, w); p != "" && !IsSpace(p[0]) && !IsSpace(p[|p| - 1])
  {
    DecimalDigits(i);
    WordFits(w);
    HexBack(w, 4);
    hide Hex, Decimal;
    assert Head(i, w)[0] == Decimal(i)[0];
    assert Head(i, w)[|Head(i, w)| - 1] == Hex(w, 4)[3];
  }

  lemma WordFits(w: Word)
    ensures w < Pow16(4)
  {
    assert Pow16(2) == 256;
    assert Pow16(4) == 16 * 16 * Pow16(2);
  }

  lemma ListedIs(i: nat, w: Word, tail: string)
    ensures Head(i, w) + tail == Decimal(i) + (": " + ("0x" + (Hex(w, 4) + tail)))
  {
    hide Hex, Decimal;
  }

  /** Reading a listing line gives its word, whatever address and remark it carries. */
  lemma LineRoundTrip(i: nat, w: Word, remark: string)
    requires Remark(remark)
    ensures var line := ListingLine(i, w, remark);
            && OneLine(line) && Find(line, '#') == |line| && Strip(line) != "" && MatchLine(Strip(line)) == Some(w)
  {
    NoSigns(i, w, remark);
    HeadSigns(i, w);
    DecimalDigits(i);
    var n, rem := if |Decimal(i)| < 3 then 3 - |Decimal(i)| else 0, "  " + remark;
    ListedIs(i, w, rem);
    assert ListingLine(i, w, remark) == Spaces(n) + (Head(i, w) + rem);
    hide *;
    var m := StripKeeps(n, Head(i, w), rem);
    ListedIs(i, w, rem[..m]);
    ListedRead(Decimal(i), w, rem[..m]);
  }

  lemma NoSigns(i: nat, w: Word, remark: string)
    requires Remark(remark)
    ensures var line := ListingLine(i, w, remark); OneLine(line) && Find(line, '#') == |line|
  {
    var line := ListingLine(i, w, remark);
    DecimalDigits(i);
    WordFits(w);
    HexBack(w, 4);
    hide Hex, Decimal, Pow16, HexNumber;
    assert Remark(": ") && Remark("0x") && Remark("  ") && Remark(Hex(w, 4)) && Remark(Decimal(i));
    assert Remark(line);
  }

  /** A program's listing, with any remarks. */
  function Listing(ws: seq<Word>, remarks: seq<string>, n: nat): (ls: seq<string>)
    requires |remarks| == |ws| && n <= |ws|
    ensures |ls| == n
    ensures forall i :: 0 <= i < n ==> ls[i] == ListingLine(i, ws[i], remarks[i])
  {
    if n == 0 then [] else Listing(ws, remarks, n - 1) + [ListingLine(n - 1, ws[n - 1], remarks[n - 1])]
  }

  lemma ReadProgramOne(ls: seq<string>, w: nat)
    requires ls != [] && Find(ls[0], '#') == |ls[0]| && Strip(ls[0]) != "" && MatchLine(Strip(ls[0])) == Some(w)
    requires ReadProgramLines(ls[1..]).Some?
    ensures ReadProgramLines(ls) == Some([w] + ReadProgramLines(ls[1..]).value)
  {
    assert ls[0][..|ls[0]|] == ls[0];
    hide Strip, MatchLine;
  }

  lemma ReadProgramNone(ls: seq<string>)
    requires ls == []
    ensures ReadProgramLines(ls) == Some([])
  {
  }

  lemma {:induction false} ReadListing(ws: seq<Word>, remarks: seq<string>, i: nat)
    requires |remarks| == |ws| && i <= |ws| && forall k :: 0 <= k < |ws| ==> Remark(remarks[k])
    ensures ReadProgramLines(Listing(ws, remarks, |ws|)[i..]) == Some(ws[i..])
    decreases |ws| - i
  {
    hide *;
    var all := Listing(ws, remarks, |ws|);
    var ls := all[i..];
    if i == |ws| {
      ReadProgramNone(ls);
      assert ws[i..] == [];
    } else {
      ReadListing(ws, remarks, i + 1);
      LineRoundTrip(i, ws[i], remarks[i]);
      assert ls[0] == ListingLine(i, ws[i], remarks[i]) && ls[1..] == all[i + 1..];
      ReadProgramOne(ls, ws[i]);
      assert [ws[i]] + ws[i + 1..] == ws[i..];
    }
  }

  lemma CommentSkipped(note: string, ls: seq<string>)
    ensures ReadProgramLines(["# " + note] + ls) == ReadProgramLines(ls)
  {
    var line := "# " + note;
    assert Find(line, '#') == 0;
    assert line[..0] == "" && Strip("") == "";
    assert ([line] + ls)[1..] == ls;
  }

  /** A listing, under a one-line comment, reads back as the same words, whatever the
      remarks column says. */
  lemma ListingRoundTrip(note: string, ws: seq<Word>, remarks: seq<string>)
    requires |remarks| == |ws| && OneLine(note) && forall k :: 0 <= k < |ws| ==> Remark(remarks[k])
    ensures ReadProgramLines(Lines(Unlines(["# " + note] + Listing(ws, remarks, |ws|)))) == Some(ws)
  {
    var ls := Listing(ws, remarks, |ws|);
    var all := ["# " + note] + ls;
    forall k | 0 <= k < |all| ensures OneLine(all[k]) {
      if k > 0 {
        LineRoundTrip(k - 1, ws[k - 1], remarks[k - 1]);
      }
    }
    hide Listing, ReadProgramLines, Lines, Unlines;
    LinesBack(all);
    CommentSkipped(note, ls);
    ReadListing(ws, remarks, 0);
    assert ls[0..] == ls && ws[0..] == ws;
  }
}
