/** The Internet Archive reference hidden in a keeper inscription (src/lez_client.cpp, deriveIaRef and
    deriveIaCandidates): either a cid "ia:<id>", or a label "Logos Storage: keeper-<id>-<file> → ...". */
module Labels {
  import opened Basics

  const ARROW: char := '\U{2192}'
  const PREFIX := "Logos Storage: keeper-"
  const MAX_CANDIDATES := 4

  // ----- the label pattern: PREFIX, a shortest non-empty run, then optionally white space, an arrow and anything -----

  predicate NoBreak(s: string) {
    '\n' !in s
  }

  // `.*$`: no line break, but for one that ends the subject.
  predicate RestOfLine(s: string) {
    NoBreak(s) || (s != "" && s[|s| - 1] == '\n' && NoBreak(s[..|s| - 1]))
  }

  predicate ArrowAt(t: string, k: int) {
    0 <= k < |t| && t[k] == ARROW && AllSpace(t[..k]) && RestOfLine(t[k + 1..])
  }

  // What may follow the captured text.
  predicate TailMatches(t: string) {
    t == "" || t == "\n" || exists k | 0 <= k < |t| :: ArrowAt(t, k)
  }

  predicate CaptureEndsAt(t: string, m: int) {
    1 <= m <= |t| && NoBreak(t[..m]) && TailMatches(t[m..])
  }

  // The capture is lazy: it takes the shortest run after which the rest of the pattern matches.
  function ShortestCapture(t: string, m: nat): (r: Option<nat>)
    ensures r.Some? ==> m <= r.value <= |t|
    decreases |t| - m
  {
    if m > |t| then None
    else if CaptureEndsAt(t, m) then Some(m)
    else ShortestCapture(t, m + 1)
  }

  // What the pattern captures after the prefix, trimmed.
  function CapturedText(t: string): Option<string> {
    match ShortestCapture(t, 1)
    case None => None
    case Some(m) => Some(Trim(t[..m]))
  }

  // The "<id>-<file>" text of a keeper label.
  function KeeperText(caption: string): Option<string> {
    if !StartsWith(caption, PREFIX) then None else CapturedText(caption[|PREFIX|..])
  }

  // ----- one reference -----

  datatype IaRef = IaRef(id: string, file: string)

  function RefOfText(text: string): IaRef {
    var dot := IndexOf(text, '.');
    if dot < 0 then IaRef(text, "")
    else
      var split := LastIndexOf(text, '-', dot);
      if split <= 0 then IaRef(text, "")
      else SplitAt(text, split)
  }

  function DeriveIaRef(cid: string, caption: string): IaRef {
    if StartsWith(cid, "ia:") then IaRef(cid[3..], "")
    else
      match KeeperText(caption)
      case None => IaRef("", "")
      case Some(text) => RefOfText(text)
  }

  // ----- all plausible references -----

  // A candidate is one string, id and file separated by a bar.
  function Encode(ref: IaRef): string {
    ref.id + "|" + ref.file
  }

  function SplitAt(text: string, p: int): IaRef
    requires 0 <= p < |text|
  {
    IaRef(text[..p], text[p + 1..])
  }

  // The hyphens of `text` strictly between position 0 and `n`, from right to left.
  function HyphensBelow(text: string, n: nat): seq<int>
    requires n <= |text|
  {
    if n <= 1 then []
    else if text[n - 1] == '-' then [n - 1] + HyphensBelow(text, n - 1)
    else HyphensBelow(text, n - 1)
  }

  predicate PositionsIn(text: string, positions: seq<int>) {
    forall i | 0 <= i < |positions| :: 0 <= positions[i] < |text|
  }

  function SplitsAt(text: string, positions: seq<int>): seq<string>
    requires PositionsIn(text, positions)
  {
    if positions == [] then []
    else SplitsAt(text, positions[..|positions| - 1]) + [Encode(SplitAt(text, positions[|positions| - 1]))]
  }

  function FirstFew(h: seq<int>): seq<int> {
    h[..Min(|h|, MAX_CANDIDATES)]
  }

  // The candidates as the design describes them: every hyphen before the first dot is a possible
  // boundary, nearest to the dot first, at most four; without one the whole text is the identifier.
  function CandidatesOfText(text: string): seq<string> {
    var dot := IndexOf(text, '.');
    if dot < 0 || HyphensBelow(text, dot) == [] then [Encode(IaRef(text, ""))]
    else
      FirstFewInRange(text, dot);
      SplitsAt(text, FirstFew(HyphensBelow(text, dot)))
  }

  function Candidates(cid: string, caption: string): seq<string> {
    if StartsWith(cid, "ia:") then [Encode(IaRef(cid[3..], ""))]
    else
      match KeeperText(caption)
      case None => []
      case Some(text) => CandidatesOfText(text)
  }

  // `h` runs down over hyphens strictly between position 0 and `n`.
  predicate Descending(text: string, n: int, h: seq<int>) {
    && n <= |text|
    && (forall i | 0 <= i < |h| :: 0 < h[i] < n && text[h[i]] == '-')
    && (forall i, j | 0 <= i < j < |h| :: h[j] < h[i])
  }

  lemma {:induction false} HyphensDescend(text: string, n: nat, h: seq<int>)
    requires n <= |text| && h == HyphensBelow(text, n)
    ensures Descending(text, n, h)
  {
    if n > 1 {
      var rest := HyphensBelow(text, n - 1);
      HyphensDescend(text, n - 1, rest);
      if text[n - 1] == '-' {
        assert forall i | 0 < i < |h| :: h[i] == rest[i - 1];
      }
    }
  }

  lemma FirstFewInRange(text: string, n: nat)
    requires n <= |text|
    ensures PositionsIn(text, HyphensBelow(text, n)) && PositionsIn(text, FirstFew(HyphensBelow(text, n)))
  {
    var h := HyphensBelow(text, n);
    HyphensDescend(text, n, h);
    forall i | 0 <= i < |FirstFew(h)| ensures 0 <= FirstFew(h)[i] < |text| {
      assert FirstFew(h)[i] == h[i];
    }
  }

  lemma {:induction false} HyphensComplete(text: string, n: nat)
    requires n <= |text|
    ensures forall p | 0 < p < n && text[p] == '-' :: p in HyphensBelow(text, n)
  {
    if n > 1 {
      HyphensComplete(text, n - 1);
    }
  }

  lemma {:induction false} HyphensFromLast(text: string, n: nat)
    requires n <= |text|
    ensures var p := LastIndexOf(text, '-', n - 1);
            HyphensBelow(text, n) == if p <= 0 then [] else [p] + HyphensBelow(text, p)
  {
    if n > 1 && text[n - 1] != '-' {
      HyphensFromLast(text, n - 1);
    }
  }

  lemma {:induction false} SplitsAtPosition(text: string, positions: seq<int>, i: nat)
    requires PositionsIn(text, positions)
    requires i < |positions|
    ensures |SplitsAt(text, positions)| == |positions|
    ensures SplitsAt(text, positions)[i] == Encode(SplitAt(text, positions[i]))
  {
    var n := |positions| - 1;
    var init := positions[..n];
    if i < n {
      SplitsAtPosition(text, init, i);
    } else if n > 0 {
      SplitsAtPosition(text, init, 0);
    }
  }

  // The boundaries still to be visited when the walk stands at hyphen `pos` (none when it ran out).
  function BoundariesFrom(text: string, pos: int): seq<int>
    requires pos < |text|
  {
    if pos <= 0 then [] else [pos] + HyphensBelow(text, pos)
  }

  lemma WalkStep(text: string, h: seq<int>, n: nat, pos: int)
    requires PositionsIn(text, h) && n <= |h| && 0 < pos < |text| && h[n..] == BoundariesFrom(text, pos)
    ensures n < |h|
    ensures SplitsAt(text, h[..n + 1]) == SplitsAt(text, h[..n]) + [text[..pos] + "|" + text[pos + 1..]]
    ensures h[n + 1..] == BoundariesFrom(text, LastIndexOf(text, '-', pos - 1))
  {
    assert h[n] == h[n..][0] == pos;
    assert h[..n + 1][..n] == h[..n];
    assert h[n + 1..] == h[n..][1..];
    HyphensFromLast(text, pos);
  }

  lemma WalkBegins(text: string, dot: nat)
    requires dot < |text| && text[dot] == '.'
    ensures HyphensBelow(text, dot) == BoundariesFrom(text, LastIndexOf(text, '-', dot))
    ensures forall h: seq<int> :: h[..0] == [] && h[0..] == h
    ensures SplitsAt(text, []) == []
  {
    HyphensFromLast(text, dot + 1);
    assert HyphensBelow(text, dot + 1) == HyphensBelow(text, dot);
  }

  lemma WalkEnds(text: string, pos: int)
    requires pos <= 0 && pos < |text|
    ensures BoundariesFrom(text, pos) == []
  {
  }

  // The walk of the source over the hyphens, right to left, stopped at the fourth candidate.
  method CandidatesByWalking(text: string, dot: nat) returns (out: seq<string>)
    requires dot < |text| && text[dot] == '.'
    ensures var h := HyphensBelow(text, dot);
            PositionsIn(text, h) && out == SplitsAt(text, FirstFew(h))
  {
    hide SplitsAt, HyphensBelow, BoundariesFrom;
    ghost var h := HyphensBelow(text, dot);
    FirstFewInRange(text, dot);
    WalkBegins(text, dot);
    out := [];
    var pos := LastIndexOf(text, '-', dot);
    while pos > 0
      invariant -1 <= pos < |text|
      invariant |out| < MAX_CANDIDATES && |out| <= |h|
      invariant out == SplitsAt(text, h[..|out|])
      invariant h[|out|..] == BoundariesFrom(text, pos)
      decreases pos
    {
      WalkStep(text, h, |out|, pos);
      out := out + [text[..pos] + "|" + text[pos + 1..]];
      if |out| >= 4 {
        break;
      }
      pos := LastIndexOf(text, '-', pos - 1);
    }
    if |out| < MAX_CANDIDATES {
      WalkEnds(text, pos);
    }
    assert h[..|out|] == FirstFew(h);
  }

  method DeriveIaCandidates(cid: string, caption: string) returns (out: seq<string>)
    ensures out == Candidates(cid, caption)
  {
    if StartsWith(cid, "ia:") {
      return [cid[3..] + "|" + ""];
    }
    var capture := KeeperText(caption);
    if capture.None? {
      return [];
    }
    var text := capture.value;
    var dot := IndexOf(text, '.');
    if dot < 0 {
      return [text + "|" + ""];
    }
    IndexFromFinds(text, '.', 0);
    out := CandidatesByWalking(text, dot);
    if out == [] {
      out := [text + "|" + ""];
    }
  }

  // ----- what the candidates promise -----

  // `h` lists, from right to left, exactly the possible boundaries of `text`: its hyphens before the first dot.
  ghost predicate Boundaries(text: string, h: seq<int>) {
    && (forall p :: p in h <==> 0 < p < IndexOf(text, '.') && text[p] == '-')
    && (forall i, j | 0 <= i < j < |h| :: h[j] < h[i])
  }

  lemma BoundariesOf(text: string, h: seq<int>)
    requires var dot := IndexOf(text, '.'); h == if dot < 0 then [] else HyphensBelow(text, dot)
    ensures Boundaries(text, h) && PositionsIn(text, h)
  {
    var dot := IndexOf(text, '.');
    if dot >= 0 {
      HyphensComplete(text, dot);
      HyphensDescend(text, dot, h);
    }
  }

  lemma Rejoins(text: string, p: int)
    requires 0 <= p < |text| && text[p] == '-'
    ensures text[..p] + "-" + text[p + 1..] == text
  {
    assert text == text[..p] + [text[p]] + text[p + 1..];
  }

  // For a text with a boundary the candidates are the splits at the first four boundaries, nearest to
  // the dot first, and each split rejoins to the text; without one the whole text is the identifier.
  lemma CandidatesEnumerateBoundaries(text: string) returns (h: seq<int>)
    ensures Boundaries(text, h) && PositionsIn(text, h)
    ensures h == [] ==> CandidatesOfText(text) == [text + "|" + ""]
    ensures h != [] ==> |CandidatesOfText(text)| == Min(|h|, 4)
    ensures h != [] ==> forall i | 0 <= i < Min(|h|, 4) ::
              && CandidatesOfText(text)[i] == text[..h[i]] + "|" + text[h[i] + 1..]
              && text[..h[i]] + "-" + text[h[i] + 1..] == text
  {
    var dot := IndexOf(text, '.');
    h := if dot < 0 then [] else HyphensBelow(text, dot);
    BoundariesOf(text, h);
    if h != [] {
      FirstFewInRange(text, dot);
      var few := FirstFew(h);
      SplitsAtPosition(text, few, 0);
      forall i | 0 <= i < |few|
        ensures CandidatesOfText(text)[i] == text[..h[i]] + "|" + text[h[i] + 1..]
        ensures text[..h[i]] + "-" + text[h[i] + 1..] == text
      {
        SplitsAtPosition(text, few, i);
        assert few[i] == h[i] && h[i] in h;
        Rejoins(text, h[i]);
      }
    }
  }

  // The first candidate is the reference stored with the item; there is none exactly when there is no
  // match; and there are never more than four, so a reseed downloads at most four times.
  lemma HeadAgreesWithRef(cid: string, caption: string)
    ensures var out := Candidates(cid, caption); var ref := DeriveIaRef(cid, caption);
            && (out == [] <==> !StartsWith(cid, "ia:") && KeeperText(caption).None?)
            && (out == [] ==> ref == IaRef("", ""))
            && (out != [] ==> out[0] == Encode(ref))
            && |out| <= MAX_CANDIDATES
  {
    if !StartsWith(cid, "ia:") && KeeperText(caption).Some? {
      HeadOfText(KeeperText(caption).value);
    }
  }

  // Without a CID and a label there is nothing to try.
  lemma NothingToTry()
    ensures Candidates("", "") == []
  {
    assert KeeperText("") == None;
  }

  lemma HeadOfText(text: string)
    ensures var out := CandidatesOfText(text);
            0 < |out| <= MAX_CANDIDATES && out[0] == Encode(RefOfText(text))
  {
    var dot := IndexOf(text, '.');
    if dot >= 0 {
      IndexFromFinds(text, '.', 0);
      HyphensFromLast(text, dot + 1);
      FirstFewInRange(text, dot);
      var h := HyphensBelow(text, dot);
      assert HyphensBelow(text, dot + 1) == h;
      if h != [] {
        SplitsAtPosition(text, FirstFew(h), 0);
      }
    }
  }

  // An item without an identifier has no file either, so deriving the reference again changes nothing.
  lemma NoIdNoFile(cid: string, caption: string)
    ensures DeriveIaRef(cid, caption).id == "" ==> DeriveIaRef(cid, caption).file == ""
  {
    if !StartsWith(cid, "ia:") && KeeperText(caption).Some? {
      var text := KeeperText(caption).value;
      var dot := IndexOf(text, '.');
      if dot >= 0 {
        var split := LastIndexOf(text, '-', dot);
        assert split > 0 ==> |text[..split]| > 0;
      }
    }
  }

  // ----- reading a candidate back -----

  // The text of `s` up to its first bar.
  function UpToBar(s: string): string {
    var bar := IndexOf(s, '|');
    if bar < 0 then s else s[..bar]
  }

  // The first two parts of a candidate split at its bars.
  function Decode(candidate: string): IaRef {
    var id := UpToBar(candidate);
    IaRef(id, if |id| == |candidate| then "" else UpToBar(candidate[|id| + 1..]))
  }

  lemma UpToBarIs(a: string, b: string)
    ensures UpToBar(a + "|" + b) == a <==> '|' !in a
    ensures |UpToBar(a + "|" + b)| <= |a|
  {
    var s := a + "|" + b;
    assert s[|a|] == '|';
    IndexFromFinds(s, '|', 0);
    if '|' !in a {
      forall i | 0 <= i < |a| ensures s[i] != '|' {
        assert s[i] == a[i];
      }
      IndexOfIs(s, '|', |a|);
      assert s[..|a|] == a;
    } else {
      var i :| 0 <= i < |a| && a[i] == '|';
      assert s[i] == '|';
    }
  }

  lemma UpToBarWhole(b: string)
    ensures UpToBar(b) == b <==> '|' !in b
  {
    IndexFromFinds(b, '|', 0);
  }

  // The download uses the intended pair exactly when neither part contains a bar.
  lemma DecodeEncode(ref: IaRef)
    ensures Decode(Encode(ref)) == ref <==> '|' !in ref.id && '|' !in ref.file
  {
    UpToBarIs(ref.id, ref.file);
    UpToBarWhole(ref.file);
    if '|' !in ref.id {
      assert Encode(ref)[|ref.id| + 1..] == ref.file;
    }
  }

  // ----- round trip through the label -----

  function CountHyphens(s: string): nat {
    if s == "" then 0 else CountHyphens(s[..|s| - 1]) + if s[|s| - 1] == '-' then 1 else 0
  }

  function ArrowNote(note: string): string {
    " " + [ARROW] + " " + note
  }

  function KeeperLabel(id: string, file: string, note: string): string {
    PREFIX + (id + "-" + file + ArrowNote(note))
  }

  predicate PlainName(s: string) {
    s != "" && ARROW !in s && '\n' !in s && !IsSpace(s[0]) && !IsSpace(s[|s| - 1])
  }

  lemma {:induction false} CaptureIs(t: string, m: nat, n: nat)
    requires m <= n && CaptureEndsAt(t, n)
    requires forall i | m <= i < n :: !CaptureEndsAt(t, i)
    ensures ShortestCapture(t, m) == Some(n)
    decreases n - m
  {
    if m < n {
      CaptureIs(t, m + 1, n);
    }
  }

  lemma NoCaptureInside(body: string, note: string, m: nat)
    requires PlainName(body) && m < |body|
    ensures !TailMatches((body + ArrowNote(note))[m..])
  {
    var t := body + ArrowNote(note);
    var u := t[m..];
    var last := |body| - m - 1;
    assert u[last] == body[|body| - 1];
    assert |u| >= 4;
    forall k | 0 <= k < |u| ensures !ArrowAt(u, k) {
      if k <= last {
        assert u[k] == body[m + k];
      } else {
        assert u[..k][last] == u[last];
      }
    }
  }

  // The lazy capture of a well-formed keeper label stops right before the blank and the arrow.
  lemma CaptureOfLabel(body: string, note: string)
    requires PlainName(body) && '\n' !in note
    ensures CapturedText(body + ArrowNote(note)) == Some(body)
  {
    var t := body + ArrowNote(note);
    var u := t[|body|..];
    assert u == ArrowNote(note);
    assert u[2..] == " " + note;
    assert ArrowAt(u, 1);
    assert t[..|body|] == body;
    assert CaptureEndsAt(t, |body|);
    forall m | 1 <= m < |body| ensures !CaptureEndsAt(t, m) {
      NoCaptureInside(body, note, m);
    }
    CaptureIs(t, 1, |body|);
  }

  lemma KeeperTextOfLabel(id: string, file: string, note: string)
    requires PlainName(id) && PlainName(file) && '\n' !in note
    ensures KeeperText(KeeperLabel(id, file, note)) == Some(id + "-" + file)
  {
    var text := id + "-" + file;
    assert text[0] == id[0] && text[|text| - 1] == file[|file| - 1];
    CaptureOfLabel(text, note);
    assert KeeperLabel(id, file, note)[|PREFIX|..] == text + ArrowNote(note);
  }

  // In "<id>-<file>" the boundary comes after the hyphens of the file read so far.
  lemma {:induction false} BoundaryPosition(text: string, id: string, file: string, n: nat)
    requires id != "" && n <= |file| && text == id + "-" + file
    ensures var h := HyphensBelow(text, |id| + 1 + n); var k := CountHyphens(file[..n]);
            k < |h| && h[k] == |id|
    decreases n
  {
    if n == 0 {
      assert text[|id|] == '-';
    } else {
      BoundaryPosition(text, id, file, n - 1);
      assert text[|id| + n] == file[n - 1];
      assert file[..n][..n - 1] == file[..n - 1];
    }
  }

  lemma FirstDotOfText(text: string, id: string, file: string)
    requires text == id + "-" + file && '.' !in id && '.' in file
    ensures 0 <= IndexOf(file, '.') && IndexOf(text, '.') == |id| + 1 + IndexOf(file, '.')
  {
    IndexFromFinds(file, '.', 0);
    var dot := IndexOf(file, '.');
    assert text[|id| + 1 + dot] == file[dot];
    forall i | 0 <= i < |id| + 1 + dot ensures text[i] != '.' {
      if i < |id| {
        assert text[i] == id[i];
      } else if i > |id| {
        assert text[i] == file[i - |id| - 1];
      }
    }
    IndexOfIs(text, '.', |id| + 1 + dot);
  }

  // The candidate at index `k` is the split at the k-th boundary; with too many hyphens in the file's
  // stem the intended boundary is cut off.
  lemma IntendedPairAmong(text: string, id: string, file: string, dot: nat)
    requires text == id + "-" + file && id != "" && dot == IndexOf(text, '.') && |id| < dot < |text|
    ensures var out := CandidatesOfText(text); var k := CountHyphens(file[..dot - |id| - 1]);
            if k < MAX_CANDIDATES then k < |out| && out[k] == Encode(IaRef(id, file))
            else '|' !in text ==> Encode(IaRef(id, file)) !in out
  {
    BoundaryPosition(text, id, file, dot - |id| - 1);
    var k := CountHyphens(file[..dot - |id| - 1]);
    var h := HyphensBelow(text, dot);
    FirstFewInRange(text, dot);
    assert SplitAt(text, |id|) == IaRef(id, file);
    var few := FirstFew(h);
    if k < MAX_CANDIDATES {
      SplitsAtPosition(text, few, k);
    } else if '|' !in text {
      SplitsAtPosition(text, few, 0);
      forall i | 0 <= i < |few| ensures SplitsAt(text, few)[i] != Encode(IaRef(id, file)) {
        SplitsAtPosition(text, few, i);
        HyphensDescend(text, dot, h);
        assert few[i] == h[i] > h[k];
        DecodeEncode(SplitAt(text, few[i]));
        DecodeEncode(IaRef(id, file));
      }
    }
  }

  // The text of a label without a note is all that follows the prefix, but for blanks around it.
  lemma KeeperTextOfBareLabel(before: string, text: string, after: string)
    requires PlainName(text) && AllSpace(before) && AllSpace(after) && '\n' !in before + after
    ensures KeeperText(PREFIX + (before + text + after)) == Some(text)
  {
    var t := before + text + after;
    assert (PREFIX + t)[|PREFIX|..] == t && t[|t|..] == "" && t[..|t|] == t;
    assert CaptureEndsAt(t, |t|);
    forall m | 1 <= m < |t| ensures !CaptureEndsAt(t, m) {
      assert t[m] != '\n';
      forall k | 0 <= k < |t| - m ensures !ArrowAt(t[m..], k) {
        assert t[m..][k] == t[m + k];
      }
    }
    CaptureIs(t, 1, |t|);
    TrimIs(before, text, after);
  }

  // A line break that ends the label is no part of it.
  lemma LineBreakAfterLabel(text: string, note: string)
    requires PlainName(text) && '\n' !in note
    ensures KeeperText(PREFIX + (text + "\n")) == Some(text)
    ensures KeeperText(PREFIX + (text + (ArrowNote(note) + "\n"))) == Some(text)
  {
    EndsBeforeBreak(text, "\n");
    var tail := ArrowNote(note) + "\n";
    assert tail[2..] == " " + note + "\n" && (" " + note + "\n")[..|note| + 1] == " " + note;
    assert ArrowAt(tail, 1);
    EndsBeforeBreak(text, tail);
  }

  lemma EndsBeforeBreak(text: string, tail: string)
    requires PlainName(text) && TailMatches(tail)
    requires tail == "\n" || (|tail| > 1 && IsSpace(tail[0]) && tail[1] == ARROW && tail[|tail| - 1] == '\n')
    ensures KeeperText(PREFIX + (text + tail)) == Some(text)
  {
    var t := text + tail;
    assert (PREFIX + t)[|PREFIX|..] == t && t[|text|..] == tail && t[..|text|] == text;
    assert CaptureEndsAt(t, |text|);
    forall m | 1 <= m < |text| ensures !CaptureEndsAt(t, m) {
      var u, last := t[m..], |text| - m - 1;
      assert u[last] == text[|text| - 1] && |u| > last + 1;
      forall k | 0 <= k < |u| ensures !ArrowAt(u, k) {
        if k <= last {
          assert u[k] == text[m + k];
        } else {
          assert u[..k][last] == u[last];
        }
      }
    }
    CaptureIs(t, 1, |text|);
  }

  lemma {:induction false} NoCapture(t: string, m: nat)
    requires forall i | m <= i <= |t| :: !CaptureEndsAt(t, i)
    ensures ShortestCapture(t, m) == None
    decreases |t| - m
  {
    if m <= |t| {
      NoCapture(t, m + 1);
    }
  }

  // A label whose note goes on after a line break is no label.
  lemma LineBreakInNote(text: string, a: string, b: string)
    requires PlainName(text) && ARROW !in a && ARROW !in b && b != ""
    ensures KeeperText(PREFIX + (text + ArrowNote(a + "\n" + b))) == None
  {
    var note := a + "\n" + b;
    var t := text + ArrowNote(note);
    assert (PREFIX + t)[|PREFIX|..] == t;
    var arrow, at := |text| + 1, |text| + 3 + |a|;
    assert t[arrow] == ARROW && t[at] == '\n' && at < |t| - 1;
    forall m | 1 <= m <= |t| ensures !CaptureEndsAt(t, m) {
      if m > at {
        assert t[..m][at] == '\n';
      } else {
        forall k | 0 <= k < |t| - m ensures !ArrowAt(t[m..], k) {
          if m + k != arrow {
            NoOtherArrow(text, note, m + k);
          } else {
            var rest := t[m..][k + 1..];
            assert rest[at - arrow - 1] == '\n' && rest[..|rest| - 1][at - arrow - 1] == '\n';
          }
        }
      }
    }
    NoCapture(t, 1);
  }

  lemma NoOtherArrow(text: string, note: string, i: nat)
    requires ARROW !in text && ARROW !in note && i < |text + ArrowNote(note)| && i != |text| + 1
    ensures (text + ArrowNote(note))[i] != ARROW
  {
    if i < |text| {
      assert text[i] in text;
    } else if i >= |text| + 3 {
      assert note[i - |text| - 3] in note;
    }
  }

  // The same for a label without an arrow note, and for the CID of a collection entry.
  lemma BareLabelRoundTrip(id: string, file: string, cid: string)
    requires PlainName(id) && '.' !in id
    requires PlainName(file) && '.' in file && !StartsWith(cid, "ia:")
    ensures 0 <= IndexOf(file, '.')
    ensures var out := Candidates(cid, PREFIX + (id + "-" + file));
            var k := CountHyphens(file[..IndexOf(file, '.')]);
            if k < MAX_CANDIDATES then k < |out| && out[k] == Encode(IaRef(id, file))
            else '|' !in id + "-" + file ==> Encode(IaRef(id, file)) !in out
    ensures DeriveIaRef("ia:" + id, file) == IaRef(id, "") && Candidates("ia:" + id, file) == [id + "|"]
  {
    var text := id + "-" + file;
    assert text[0] == id[0] && text[|text| - 1] == file[|file| - 1];
    KeeperTextOfBareLabel("", text, "");
    assert "" + text + "" == text;
    FirstDotOfText(text, id, file);
    IntendedPairAmong(text, id, file, IndexOf(text, '.'));
    assert ("ia:" + id)[3..] == id && id + "|" + "" == id + "|";
  }

  // A label the keeper wrote for (id, file) yields that pair among the candidates, at the index that
  // counts the hyphens of the file's stem, when there are at most three; with more it is cut off.
  lemma LabelRoundTrip(id: string, file: string, note: string, cid: string)
    requires PlainName(id) && '.' !in id
    requires PlainName(file) && '.' in file
    requires '\n' !in note && !StartsWith(cid, "ia:")
    ensures 0 <= IndexOf(file, '.')
    ensures var out := Candidates(cid, KeeperLabel(id, file, note));
            var k := CountHyphens(file[..IndexOf(file, '.')]);
            if k < MAX_CANDIDATES then k < |out| && out[k] == Encode(IaRef(id, file))
            else '|' !in id + "-" + file ==> Encode(IaRef(id, file)) !in out
  {
    var text := id + "-" + file;
    KeeperTextOfLabel(id, file, note);
    FirstDotOfText(text, id, file);
    IntendedPairAmong(text, id, file, IndexOf(text, '.'));
  }
}
