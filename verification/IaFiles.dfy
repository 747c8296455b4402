/** The archive.org file manifest (src/ia_files.cpp): the token loop that reads {id}_files.xml and the
    policy that checks a downloaded file against its entry. The XML reader is a stream of tokens; a
    malformed document shows as the token Bad. */
module IaFiles {
  import opened Basics

  datatype Token = Start(tag: string, nameAttr: string) | End(tag: string) | Text(text: string) | Misc | Bad

  datatype IaFileEntry = IaFileEntry(name: string, md5: string, sha1: string, size: int)

  // ----- numbers: QString::toLongLong -----

  const INT64_LIMIT := 0x8000_0000_0000_0000

  predicate AllDigits(s: string) {
    forall i | 0 <= i < |s| :: '0' <= s[i] <= '9'
  }

  function DigitsValue(s: string): nat
    requires AllDigits(s)
  {
    if s == "" then 0 else 10 * DigitsValue(s[..|s| - 1]) + (s[|s| - 1] as int - '0' as int)
  }

  // The value of a decimal numeral, and 0 for anything else or out of the 64-bit range.
  function ToLongLong(s: string): int {
    var negative := StartsWith(s, "-");
    var digits := if negative || StartsWith(s, "+") then s[1..] else s;
    if digits == "" || !AllDigits(digits) then 0
    else
      var magnitude: int := DigitsValue(digits);
      var v := if negative then -magnitude else magnitude;
      if -INT64_LIMIT <= v < INT64_LIMIT then v else 0
  }

  function Digit(d: nat): char
    requires d < 10
  {
    ('0' as int + d) as char
  }

  // The decimal numeral of a number.
  function Numeral(n: nat): string {
    (if n < 10 then "" else Numeral(n / 10)) + [Digit(n % 10)]
  }

  lemma OneMoreDigit(s: string, d: nat)
    requires AllDigits(s) && d < 10
    ensures AllDigits(s + [Digit(d)]) && DigitsValue(s + [Digit(d)]) == 10 * DigitsValue(s) + d
  {
    assert (s + [Digit(d)])[..|s|] == s;
  }

  lemma {:induction false} NumeralRead(n: nat)
    ensures Numeral(n) != "" && AllDigits(Numeral(n)) && DigitsValue(Numeral(n)) == n
  {
    hide DigitsValue, Digit, AllDigits;
    if n >= 10 {
      NumeralRead(n / 10);
      OneMoreDigit(Numeral(n / 10), n % 10);
    } else {
      NoDigits();
      OneMoreDigit("", n);
    }
  }

  lemma NoDigits()
    ensures AllDigits("") && DigitsValue("") == 0
  {
  }

  lemma {:induction false} LeadingZeros(zeros: string, s: string)
    requires (forall i | 0 <= i < |zeros| :: zeros[i] == '0') && AllDigits(s)
    ensures AllDigits(zeros + s) && DigitsValue(zeros + s) == DigitsValue(s)
  {
    if s != "" {
      LeadingZeros(zeros, s[..|s| - 1]);
      assert (zeros + s)[..|zeros + s| - 1] == zeros + s[..|s| - 1];
    } else if zeros != "" {
      LeadingZeros(zeros[..|zeros| - 1], "");
      assert zeros + "" == zeros && zeros[..|zeros| - 1] + "" == zeros[..|zeros| - 1];
    }
  }

  // A numeral is read as its number, with or without a sign, up to the 64-bit range; what is no numeral is 0.
  lemma SignedRead(digits: string)
    requires digits != "" && AllDigits(digits)
    ensures var v: int := DigitsValue(digits);
            && ToLongLong(digits) == (if v < INT64_LIMIT then v else 0) == ToLongLong("+" + digits)
            && ToLongLong("-" + digits) == (if v <= INT64_LIMIT then -v else 0)
  {
    hide DigitsValue;
    assert ("+" + digits)[1..] == digits && ("-" + digits)[1..] == digits && '0' <= digits[0] <= '9';
  }

  lemma NumeralsAreRead(n: nat, zeros: string)
    requires forall i | 0 <= i < |zeros| :: zeros[i] == '0'
    ensures var digits := zeros + Numeral(n);
            && ToLongLong(digits) == (if n < INT64_LIMIT then n else 0) == ToLongLong("+" + digits)
            && ToLongLong("-" + digits) == (if n <= INT64_LIMIT then 0 - n else 0)
  {
    hide ToLongLong, Numeral, DigitsValue;
    NumeralRead(n);
    LeadingZeros(zeros, Numeral(n));
    SignedRead(zeros + Numeral(n));
  }

  lemma OtherTextIsZero(s: string, i: nat)
    requires 0 < i < |s| && !('0' <= s[i] <= '9')
    ensures ToLongLong(s) == 0
  {
    assert s[1..][i - 1] == s[i];
  }

  // ----- the loop -----

  // What readElementText returns: the text up to the end of the element and the tokens after it. A
  // child element or a malformed token is an error.
  function ElementText(tokens: seq<Token>): (r: Option<(string, seq<Token>)>)
    ensures r.Some? ==> |r.value.1| < |tokens|
  {
    if tokens == [] then None
    else match tokens[0]
      case End(_) => Some(("", tokens[1..]))
      case Text(t) =>
        (match ElementText(tokens[1..])
         case None => None
         case Some(more) => Some((t + more.0, more.1)))
      case Misc => ElementText(tokens[1..])
      case Start(_, _) => None
      case Bad => None
  }

  datatype ParseState = ParseState(cur: IaFileEntry, inFile: bool, isSummation: bool, out: seq<IaFileEntry>)

  const NO_ENTRY := IaFileEntry("", "", "", 0)

  predicate IsField(tag: string) {
    tag == "md5" || tag == "sha1" || tag == "size"
  }

  function CleanText(text: string): string {
    ToLower(Trim(text))
  }

  // What stands between white space, letter for letter, with capitals made small.
  lemma TextIsCleaned(before: string, core: string, after: string)
    requires AllSpace(before) && AllSpace(after)
    requires core != "" && !IsSpace(core[0]) && !IsSpace(core[|core| - 1])
    ensures var r := CleanText(before + core + after);
            && |r| == |core|
            && forall i | 0 <= i < |core| ::
                 r[i] as int == core[i] as int + if 'A' <= core[i] <= 'Z' then 'a' as int - 'A' as int else 0
  {
    TrimIs(before, core, after);
  }

  function SetField(entry: IaFileEntry, tag: string, text: string): IaFileEntry {
    if tag == "md5" then entry.(md5 := CleanText(text))
    else if tag == "sha1" then entry.(sha1 := CleanText(text))
    else if tag == "size" then entry.(size := ToLongLong(Trim(text)))
    else entry
  }

  function CloseFile(st: ParseState): ParseState {
    st.(inFile := false,
        out := if st.cur.name != "" && !st.isSummation then st.out + [st.cur] else st.out)
  }

  function StartFile(st: ParseState, name: string): ParseState {
    st.(cur := NO_ENTRY.(name := name), inFile := true, isSummation := false)
  }

  // One turn of the loop at a start tag: the tokens left and the new state, or None for a reader error.
  function AtStart(tag: string, nameAttr: string, rest: seq<Token>, st: ParseState): (r: Option<(seq<Token>, ParseState)>)
    ensures r.Some? ==> |r.value.0| <= |rest|
  {
    if tag == "file" then Some((rest, StartFile(st, nameAttr)))
    else if st.inFile && IsField(tag) then
      match ElementText(rest) {
        case None => None
        case Some(r) => Some((r.1, st.(cur := SetField(st.cur, tag, r.0))))
      }
    else if st.inFile && tag == "summation" then Some((rest, st.(isSummation := true)))
    else Some((rest, st))
  }

  // One turn of the loop.
  function Turn(token: Token, rest: seq<Token>, st: ParseState): (r: Option<(seq<Token>, ParseState)>)
    ensures r.Some? ==> |r.value.0| <= |rest|
  {
    match token
    case Bad => None
    case Start(tag, nameAttr) => AtStart(tag, nameAttr, rest, st)
    case End(tag) => Some((rest, if tag == "file" && st.inFile then CloseFile(st) else st))
    case Text(_) => Some((rest, st))
    case Misc => Some((rest, st))
  }

  // The rest of the loop from one state on; None stands for a reader that ended in error.
  function Scan(tokens: seq<Token>, st: ParseState): Option<seq<IaFileEntry>>
    decreases |tokens|
  {
    if tokens == [] then Some(st.out)
    else
      match Turn(tokens[0], tokens[1..], st)
      case None => None
      case Some(next) => Scan(next.0, next.1)
  }

  lemma ScanTurn(token: Token, rest: seq<Token>, st: ParseState)
    ensures Scan([token] + rest, st) ==
            match Turn(token, rest, st)
            case None => None
            case Some(next) => Scan(next.0, next.1)
  {
    assert ([token] + rest)[1..] == rest;
  }

  const INITIAL := ParseState(NO_ENTRY, false, false, [])

  function Parsed(tokens: seq<Token>): seq<IaFileEntry> {
    match Scan(tokens, INITIAL)
    case None => []
    case Some(out) => out
  }

  method ReadElementText(tokens: seq<Token>, from: nat) returns (ok: bool, text: string, pos: nat)
    requires from <= |tokens|
    ensures from <= pos <= |tokens|
    ensures ok ==> from < pos && ElementText(tokens[from..]) == Some((text, tokens[pos..]))
    ensures !ok ==> ElementText(tokens[from..]).None?
  {
    text := "";
    pos := from;
    assert forall u: string :: "" + u == u;
    while pos < |tokens|
      invariant from <= pos <= |tokens|
      invariant ElementText(tokens[from..]) ==
                match ElementText(tokens[pos..])
                case None => None
                case Some(more) => Some((text + more.0, more.1))
    {
      assert tokens[pos..][0] == tokens[pos] && tokens[pos..][1..] == tokens[pos + 1..];
      match tokens[pos]
      case End(_) =>
        pos := pos + 1;
        assert text + "" == text;
        return true, text, pos;
      case Text(t) =>
        text := text + t;
        pos := pos + 1;
        assert forall u: string :: text + u == text[..|text| - |t|] + (t + u);
      case Misc =>
        pos := pos + 1;
      case Start(_, _) =>
        return false, text, pos;
      case Bad =>
        return false, text, pos;
    }
    ok := false;
  }

  method ParseIaFilesXml(tokens: seq<Token>) returns (out: seq<IaFileEntry>)
    ensures out == Parsed(tokens)
  {
    out := [];
    var cur := NO_ENTRY;
    var inFile, isSummation := false, false;
    var pos := 0;
    assert tokens[0..] == tokens;
    while pos < |tokens|
      invariant 0 <= pos <= |tokens|
      invariant Scan(tokens, INITIAL) == Scan(tokens[pos..], ParseState(cur, inFile, isSummation, out))
    {
      assert tokens[pos..][0] == tokens[pos] && tokens[pos..][1..] == tokens[pos + 1..];
      var token := tokens[pos];
      pos := pos + 1;
      match token
      case Bad =>
        return [];
      case Start(tag, nameAttr) =>
        if tag == "file" {
          cur := NO_ENTRY.(name := nameAttr);
          inFile, isSummation := true, false;
        } else if inFile && (tag == "md5" || tag == "sha1" || tag == "size") {
          var ok, text, next := ReadElementText(tokens, pos);
          if !ok {
            return [];
          }
          pos := next;
          if tag == "md5" {
            cur := cur.(md5 := ToLower(Trim(text)));
          } else if tag == "sha1" {
            cur := cur.(sha1 := ToLower(Trim(text)));
          } else {
            cur := cur.(size := ToLongLong(Trim(text)));
          }
        } else if inFile && tag == "summation" {
          isSummation := true;
        }
      case End(tag) =>
        if tag == "file" && inFile {
          if cur.name != "" && !isSummation {
            out := out + [cur];
          }
          inFile := false;
        }
      case Text(_) =>
      case Misc =>
    }
  }

  // ----- documents -----

  datatype Node = Element(tag: string, nameAttr: string, children: seq<Node>) | Chars(text: string) | Comment

  function Tokens(node: Node): seq<Token>
    decreases node, 1
  {
    match node
    case Element(tag, nameAttr, children) => [Start(tag, nameAttr)] + TokensOf(children) + [End(tag)]
    case Chars(text) => [Text(text)]
    case Comment => [Misc]
  }

  function TokensOf(nodes: seq<Node>): seq<Token>
    decreases nodes, 0
  {
    if nodes == [] then [] else Tokens(nodes[0]) + TokensOf(nodes[1..])
  }

  // The text of an element that has no child elements.
  function TextOf(nodes: seq<Node>): string {
    if nodes == [] then ""
    else (if nodes[0].Chars? then nodes[0].text else "") + TextOf(nodes[1..])
  }

  predicate Leaf(node: Node) {
    node.Element? ==> node.tag != "file" && forall c | c in node.children :: !c.Element?
  }

  // Every file element holds only leaf children.
  predicate WellShaped(node: Node)
    decreases node, 1
  {
    match node
    case Element(tag, _, children) =>
      if tag == "file" then forall c | c in children :: Leaf(c) else AllWellShaped(children)
    case _ => true
  }

  predicate AllWellShaped(nodes: seq<Node>)
    decreases nodes, 0
  {
    nodes == [] || (WellShaped(nodes[0]) && AllWellShaped(nodes[1..]))
  }

  predicate HasChild(nodes: seq<Node>, tag: string) {
    exists i | 0 <= i < |nodes| :: nodes[i].Element? && nodes[i].tag == tag
  }

  // The text of the last child of that name.
  function LastChildText(nodes: seq<Node>, tag: string): string
    requires HasChild(nodes, tag)
  {
    var last := nodes[|nodes| - 1];
    if last.Element? && last.tag == tag then TextOf(last.children)
    else
      var i :| 0 <= i < |nodes| && nodes[i].Element? && nodes[i].tag == tag;
      assert nodes[..|nodes| - 1][i] == nodes[i];
      LastChildText(nodes[..|nodes| - 1], tag)
  }

  // What a file element says, read off the document.
  function EntryOf(name: string, children: seq<Node>): IaFileEntry {
    IaFileEntry(
      name,
      if HasChild(children, "md5") then CleanText(LastChildText(children, "md5")) else "",
      if HasChild(children, "sha1") then CleanText(LastChildText(children, "sha1")) else "",
      if HasChild(children, "size") then ToLongLong(Trim(LastChildText(children, "size"))) else 0)
  }

  // The named files without a summation child, in document order.
  function FilesIn(node: Node): seq<IaFileEntry>
    decreases node, 1
  {
    match node
    case Element(tag, name, children) =>
      if tag != "file" then FilesInAll(children)
      else if name != "" && !HasChild(children, "summation") then [EntryOf(name, children)]
      else []
    case _ => []
  }

  function FilesInAll(nodes: seq<Node>): seq<IaFileEntry>
    decreases nodes, 0
  {
    if nodes == [] then [] else FilesIn(nodes[0]) + FilesInAll(nodes[1..])
  }

  // ----- the loop reads documents as described -----

  predicate NoElements(nodes: seq<Node>) {
    forall c | c in nodes :: !c.Element?
  }

  lemma {:induction false} TokensOfAppend(nodes: seq<Node>, last: Node)
    ensures TokensOf(nodes + [last]) == TokensOf(nodes) + Tokens(last)
  {
    if nodes == [] {
      assert TokensOf([last]) == Tokens(last) + TokensOf([]);
    } else {
      assert (nodes + [last])[1..] == nodes[1..] + [last];
      TokensOfAppend(nodes[1..], last);
    }
  }

  lemma {:induction false} ElementTextOfLeaf(nodes: seq<Node>, tag: string, rest: seq<Token>)
    requires NoElements(nodes)
    ensures ElementText(TokensOf(nodes) + [End(tag)] + rest) == Some((TextOf(nodes), rest))
  {
    var tokens := TokensOf(nodes) + [End(tag)] + rest;
    if nodes == [] {
      assert tokens[1..] == rest;
    } else {
      ElementTextOfLeaf(nodes[1..], tag, rest);
      assert nodes[0] in nodes;
      assert |Tokens(nodes[0])| == 1;
      assert tokens[0] == Tokens(nodes[0])[0];
      assert tokens[1..] == TokensOf(nodes[1..]) + [End(tag)] + rest;
      assert "" + TextOf(nodes[1..]) == TextOf(nodes[1..]);
    }
  }

  lemma {:induction false} ScanText(nodes: seq<Node>, rest: seq<Token>, st: ParseState)
    requires NoElements(nodes)
    ensures Scan(TokensOf(nodes) + rest, st) == Scan(rest, st)
  {
    if nodes == [] {
      assert TokensOf(nodes) + rest == rest;
    } else {
      assert nodes[0] in nodes;
      var token := Tokens(nodes[0])[0];
      var more := TokensOf(nodes[1..]) + rest;
      assert TokensOf(nodes) + rest == [token] + more;
      ScanTurn(token, more, st);
      ScanText(nodes[1..], rest, st);
    }
  }

  // What one leaf child of a file element does to the state of the loop.
  function AfterChild(st: ParseState, c: Node): ParseState {
    if !c.Element? then st
    else if IsField(c.tag) then st.(cur := SetField(st.cur, c.tag, TextOf(c.children)))
    else if c.tag == "summation" then st.(isSummation := true)
    else st
  }

  function AfterChildren(st: ParseState, cs: seq<Node>): ParseState {
    if cs == [] then st else AfterChild(AfterChildren(st, cs[..|cs| - 1]), cs[|cs| - 1])
  }

  lemma {:induction false} StillInFile(st: ParseState, cs: seq<Node>)
    ensures AfterChildren(st, cs).inFile == st.inFile && AfterChildren(st, cs).out == st.out
  {
    if cs != [] {
      StillInFile(st, cs[..|cs| - 1]);
    }
  }

  lemma ScanLeafField(c: Node, rest: seq<Token>, st: ParseState)
    requires c.Element? && IsField(c.tag) && Leaf(c) && st.inFile
    ensures Scan(Tokens(c) + rest, st) == Scan(rest, AfterChild(st, c))
  {
    var more := TokensOf(c.children) + [End(c.tag)] + rest;
    assert Tokens(c) + rest == [Start(c.tag, c.nameAttr)] + more;
    ElementTextOfLeaf(c.children, c.tag, rest);
    ScanTurn(Start(c.tag, c.nameAttr), more, st);
  }

  lemma ScanLeafOther(c: Node, rest: seq<Token>, st: ParseState)
    requires c.Element? && !IsField(c.tag) && Leaf(c) && st.inFile
    ensures Scan(Tokens(c) + rest, st) == Scan(rest, AfterChild(st, c))
  {
    hide Scan, ElementText, SetField, StartFile;
    var end := [End(c.tag)] + rest;
    var more := TokensOf(c.children) + end;
    assert Tokens(c) + rest == [Start(c.tag, c.nameAttr)] + more;
    ScanTurn(Start(c.tag, c.nameAttr), more, st);
    ScanText(c.children, end, AfterChild(st, c));
    ScanTurn(End(c.tag), rest, AfterChild(st, c));
  }

  lemma ScanLeaf(c: Node, rest: seq<Token>, st: ParseState)
    requires Leaf(c) && st.inFile
    ensures Scan(Tokens(c) + rest, st) == Scan(rest, AfterChild(st, c))
  {
    if !c.Element? {
      assert Tokens(c) == [Tokens(c)[0]];
      ScanTurn(Tokens(c)[0], rest, st);
    } else if IsField(c.tag) {
      ScanLeafField(c, rest, st);
    } else {
      ScanLeafOther(c, rest, st);
    }
  }

  lemma {:induction false} ScanLeaves(cs: seq<Node>, rest: seq<Token>, st: ParseState)
    requires (forall c | c in cs :: Leaf(c)) && st.inFile
    ensures Scan(TokensOf(cs) + rest, st) == Scan(rest, AfterChildren(st, cs))
  {
    if cs == [] {
      assert TokensOf(cs) + rest == rest;
    } else {
      var init, last := cs[..|cs| - 1], cs[|cs| - 1];
      assert cs == init + [last];
      TokensOfAppend(init, last);
      assert TokensOf(cs) + rest == TokensOf(init) + (Tokens(last) + rest);
      ScanLeaves(init, Tokens(last) + rest, st);
      StillInFile(st, init);
      assert last in cs;
      ScanLeaf(last, rest, AfterChildren(st, init));
    }
  }

  lemma HasChildSplit(cs: seq<Node>, tag: string)
    requires cs != []
    ensures var init, last := cs[..|cs| - 1], cs[|cs| - 1];
            HasChild(cs, tag) <==> HasChild(init, tag) || (last.Element? && last.tag == tag)
  {
    var init, last := cs[..|cs| - 1], cs[|cs| - 1];
    if HasChild(cs, tag) && !(last.Element? && last.tag == tag) {
      var i :| 0 <= i < |cs| && cs[i].Element? && cs[i].tag == tag;
      assert init[i] == cs[i];
    }
    if HasChild(init, tag) {
      var i :| 0 <= i < |init| && init[i].Element? && init[i].tag == tag;
      assert cs[i] == init[i];
    }
  }

  lemma {:induction false} FieldsOfChildren(name: string, st: ParseState, cs: seq<Node>)
    requires st.cur == NO_ENTRY.(name := name) && !st.isSummation
    ensures AfterChildren(st, cs).cur == EntryOf(name, cs)
    ensures AfterChildren(st, cs).isSummation == HasChild(cs, "summation")
  {
    if cs != [] {
      FieldsOfChildren(name, st, cs[..|cs| - 1]);
      HasChildSplit(cs, "md5");
      HasChildSplit(cs, "sha1");
      HasChildSplit(cs, "size");
      HasChildSplit(cs, "summation");
    }
  }

  // Between file elements the pending entry is irrelevant.
  lemma {:induction false} PendingEntryIrrelevant(tokens: seq<Token>, st: ParseState, cur: IaFileEntry, flag: bool)
    requires !st.inFile
    ensures Scan(tokens, st) == Scan(tokens, st.(cur := cur, isSummation := flag))
    decreases |tokens|
  {
    if tokens != [] && !tokens[0].Bad? && !(tokens[0].Start? && tokens[0].tag == "file") {
      PendingEntryIrrelevant(tokens[1..], st, cur, flag);
    }
  }

  lemma ClosedFile(node: Node, st: ParseState)
    requires node.Element? && node.tag == "file" && !st.inFile
    ensures var closed := CloseFile(AfterChildren(StartFile(st, node.nameAttr), node.children));
            && !closed.inFile
            && closed.out == st.out + FilesIn(node)
  {
    var begun := StartFile(st, node.nameAttr);
    FieldsOfChildren(node.nameAttr, begun, node.children);
    StillInFile(begun, node.children);
  }

  lemma ScanFileElement(node: Node, rest: seq<Token>, st: ParseState)
    requires node.Element? && node.tag == "file" && WellShaped(node) && !st.inFile
    ensures Scan(Tokens(node) + rest, st) == Scan(rest, st.(out := st.out + FilesIn(node)))
  {
    var begun := StartFile(st, node.nameAttr);
    var closing := AfterChildren(begun, node.children);
    var end := [End("file")] + rest;
    calc {
      Scan(Tokens(node) + rest, st);
    == { assert Tokens(node) + rest == [Start("file", node.nameAttr)] + (TokensOf(node.children) + end);
         ScanTurn(Start("file", node.nameAttr), TokensOf(node.children) + end, st); }
      Scan(TokensOf(node.children) + end, begun);
    == { ScanLeaves(node.children, end, begun); }
      Scan(end, closing);
    == { StillInFile(begun, node.children); ScanTurn(End("file"), rest, closing); }
      Scan(rest, CloseFile(closing));
    == { ClosedFile(node, st); PendingEntryIrrelevant(rest, CloseFile(closing), st.cur, st.isSummation); }
      Scan(rest, st.(out := st.out + FilesIn(node)));
    }
  }

  lemma {:induction false} ScanNode(node: Node, rest: seq<Token>, st: ParseState)
    requires WellShaped(node) && !st.inFile
    ensures Scan(Tokens(node) + rest, st) == Scan(rest, st.(out := st.out + FilesIn(node)))
    decreases node, 1
  {
    if node.Element? && node.tag == "file" {
      ScanFileElement(node, rest, st);
    } else if node.Element? {
      var after := st.(out := st.out + FilesIn(node));
      var end := [End(node.tag)] + rest;
      assert Tokens(node) + rest == [Start(node.tag, node.nameAttr)] + (TokensOf(node.children) + end);
      ScanTurn(Start(node.tag, node.nameAttr), TokensOf(node.children) + end, st);
      ScanNodes(node.children, end, st);
      ScanTurn(End(node.tag), rest, after);
    } else {
      assert Tokens(node) == [Tokens(node)[0]];
      ScanTurn(Tokens(node)[0], rest, st);
      assert st.out + [] == st.out;
    }
  }

  lemma {:induction false} ScanNodes(nodes: seq<Node>, rest: seq<Token>, st: ParseState)
    requires AllWellShaped(nodes) && !st.inFile
    ensures Scan(TokensOf(nodes) + rest, st) == Scan(rest, st.(out := st.out + FilesInAll(nodes)))
    decreases nodes, 0
  {
    if nodes == [] {
      assert TokensOf(nodes) + rest == rest && st.out + [] == st.out;
    } else {
      var first, others := FilesIn(nodes[0]), FilesInAll(nodes[1..]);
      var mid := st.(out := st.out + first);
      calc {
        Scan(TokensOf(nodes) + rest, st);
      == { assert TokensOf(nodes) + rest == Tokens(nodes[0]) + (TokensOf(nodes[1..]) + rest); }
        Scan(Tokens(nodes[0]) + (TokensOf(nodes[1..]) + rest), st);
      == { ScanNode(nodes[0], TokensOf(nodes[1..]) + rest, st); }
        Scan(TokensOf(nodes[1..]) + rest, mid);
      == { ScanNodes(nodes[1..], rest, mid); }
        Scan(rest, mid.(out := mid.out + others));
      == { assert mid.out + others == st.out + (first + others); }
        Scan(rest, st.(out := st.out + FilesInAll(nodes)));
      }
    }
  }

  // The loop, run on the tokens of any document whose file elements hold only leaf children, returns
  // exactly the named files without a summation child, in document order.
  lemma ParseReadsDocument(document: Node)
    requires WellShaped(document)
    ensures Parsed(Tokens(document)) == FilesIn(document)
  {
    ScanNode(document, [], INITIAL);
    assert Tokens(document) + [] == Tokens(document);
    assert [] + FilesIn(document) == FilesIn(document);
  }

  lemma {:induction false} ElementTextStopsAtError(tokens: seq<Token>)
    requires Bad in tokens
    ensures ElementText(tokens).Some? ==> Bad in ElementText(tokens).value.1
  {
    if !tokens[0].Bad? {
      assert Bad in tokens[1..];
      if tokens[0].Text? || tokens[0].Misc? {
        ElementTextStopsAtError(tokens[1..]);
      }
    }
  }

  lemma {:induction false} ScanStopsAtError(tokens: seq<Token>, st: ParseState)
    requires Bad in tokens
    ensures Scan(tokens, st).None?
    decreases |tokens|
  {
    var next := Turn(tokens[0], tokens[1..], st);
    if next.Some? {
      assert Bad in tokens[1..];
      ElementTextStopsAtError(tokens[1..]);
      ScanStopsAtError(next.value.0, next.value.1);
    }
  }

  // A document the reader cannot follow to its end yields no files at all.
  lemma ErrorYieldsNoFiles(tokens: seq<Token>)
    requires Bad in tokens
    ensures Parsed(tokens) == []
  {
    ScanStopsAtError(tokens, INITIAL);
  }

  // ----- verification policy -----

  // The digests of a readable downloaded file, in lower-case hexadecimal.
  datatype Digests = Digests(md5: string, sha1: string)

  datatype Verdict = Verified | Unverified | Mismatch

  predicate HasChecksum(entry: IaFileEntry) {
    entry.md5 != "" || entry.sha1 != ""
  }

  // Whether the bytes are good enough to keep: of the listed digests the md5 counts, the sha1 only without one.
  predicate Passing(content: Option<Digests>, entry: IaFileEntry) {
    HasChecksum(entry) ==>
      content.Some? && (if entry.md5 != "" then content.value.md5 == entry.md5 else content.value.sha1 == entry.sha1)
  }

  // `content` is None for bytes that cannot be read.
  function VerifyIaFile(content: Option<Digests>, entry: IaFileEntry): (v: Verdict)
    ensures v.Unverified? <==> !HasChecksum(entry)
    ensures v.Mismatch? <==> !Passing(content, entry)
  {
    var useMd5 := entry.md5 != "";
    if !useMd5 && entry.sha1 == "" then Unverified
    else
      match content
      case None => Mismatch
      case Some(d) =>
        var got := if useMd5 then d.md5 else d.sha1;
        var want := if useMd5 then entry.md5 else entry.sha1;
        if got == want then Verified else Mismatch
  }

  // Every digest the entry lists is the content's.
  predicate Accords(content: Option<Digests>, entry: IaFileEntry) {
    HasChecksum(entry) ==>
      && content.Some?
      && (entry.md5 != "" ==> content.value.md5 == entry.md5)
      && (entry.sha1 != "" ==> content.value.sha1 == entry.sha1)
  }

  // A good download passes, whatever the digests the entry does not list; a wrong one does not. The sha1 is
  // looked at only when no md5 is listed.
  lemma ListedDigestsDecide(content: Option<Digests>, d: Digests, entry: IaFileEntry)
    ensures Accords(content, entry) ==>
              VerifyIaFile(content, entry) == if HasChecksum(entry) then Verified else Unverified
    ensures Accords(content, entry) ==> Passing(content, entry)
    ensures entry.md5 != "" ==> (VerifyIaFile(Some(d), entry) == Verified <==> d.md5 == entry.md5)
    ensures entry.md5 == "" && entry.sha1 != "" ==> (VerifyIaFile(Some(d), entry) == Verified <==> d.sha1 == entry.sha1)
    ensures HasChecksum(entry) ==> VerifyIaFile(None, entry) == Mismatch
  {
  }
}
