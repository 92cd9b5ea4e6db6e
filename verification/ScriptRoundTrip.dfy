/** Which scripts come out of the ConfigMap as they went in, up to their last line break. */
module ScriptRoundTrip {
  import opened Options
  import opened BlockScalar

  // ---- What is promised ----

  /** A text without the line breaks at its end. */
  function Trimmed(s: string): string {
    if s != "" && s[|s|-1] == '\n' then Trimmed(s[..|s|-1]) else s
  }

  /** The text with exactly one line break at its end. */
  function WithOneBreak(s: string): string {
    Trimmed(s) + "\n"
  }

  /** The first character that is not a line break. */
  function FirstChar(s: string): Option<char> {
    if s == "" then None else if s[0] == '\n' then FirstChar(s[1..]) else Some(s[0])
  }

  /** YAML text whose only line breaks are line feeds. */
  predicate Plain(s: string) {
    IsText(s) && '\r' !in s
  }

  /** What a caller can check of a script beforehand. */
  predicate Survives(script: string) {
    Plain(script) && FirstChar(script).Some? && FirstChar(script).value != ' '
  }

  // ---- Blocks of lines below a key ----

  /** Lines of a scalar indented by four: blank ones of at most four, then a line of indentation
      four, then lines that are blank or indented by at least four. */
  predicate Block(ls: seq<string>) {
    && FirstText(ls) < |ls| && Indentation(ls[FirstText(ls)]) == 4
    && (forall j :: 0 <= j < FirstText(ls) ==> |ls[j]| <= 4)
    && (forall j :: 0 <= j < |ls| ==> Blank(ls[j]) || Indentation(ls[j]) >= 4)
  }

  /** A line that can only be a key's: at the indentation of the keys, and no comment. */
  predicate KeyLine(l: string) {
    !Remark(l) && !Blank(l) && Indentation(l) == PARENT
  }

  /** Lines that end a scalar: none, or a key's. */
  predicate Closes(after: seq<string>) {
    after == [] || KeyLine(after[0])
  }

  lemma FirstTextIs(ls: seq<string>, i: nat)
    requires i <= |ls| && (i < |ls| ==> !Blank(ls[i])) && forall j :: 0 <= j < i ==> Blank(ls[j])
    ensures FirstText(ls) == i
  {
  }

  lemma ExtentIs(ls: seq<string>, n: nat, k: nat)
    requires k <= |ls| && (forall j :: 0 <= j < k ==> Blank(ls[j]) || Indentation(ls[j]) >= n)
    requires k < |ls| ==> !Blank(ls[k]) && Indentation(ls[k]) < n
    ensures Extent(ls, n) == k
  {
  }

  /** A block is read to its end, and as its lines without the four. */
  lemma BlockReads(ls: seq<string>, after: seq<string>)
    requires Block(ls) && Closes(after)
    ensures ReadScalar(ls + after) == Some(Scalar(Unlines(Clipped(Contents(ls, 4))), |ls|))
  {
    var all := ls + after;
    FirstTextIs(all, FirstText(ls));
    ExtentIs(all, 4, |ls|);
    assert all[..|ls|] == ls;
  }

  lemma IndentationIs(l: string, n: nat)
    requires n <= |l| && (forall j :: 0 <= j < n ==> l[j] == ' ') && (n < |l| ==> l[n] != ' ')
    ensures Indentation(l) == n
  {
  }

  lemma HeaderReads(key: string)
    requires PlainKey(key)
    ensures ReadHeader(HeaderLine(key)) == Some(key) && KeyLine(HeaderLine(key))
  {
    var l := HeaderLine(key);
    assert l[0] == ' ' && l[1] == ' ' && l[2] == key[0];
    IndentationIs(l, PARENT);
    assert l[|l|-3..] == HEADER_END && l[2..|l|-3] == key;
    HeaderIsKeyLine(l);
  }

  lemma HeaderIsKeyLine(l: string)
    requires ReadHeader(l).Some?
    ensures KeyLine(l)
  {
    assert l[PARENT] == ReadHeader(l).value[0] && KeyChar(l[PARENT]);
    WhiteIs(l, PARENT);
  }

  lemma WhiteIs(l: string, n: nat)
    requires n <= |l| && (forall j :: 0 <= j < n ==> l[j] == ' ' || l[j] == '\t') && (n < |l| ==> l[n] != ' ' && l[n] != '\t')
    ensures White(l) == n
  {
  }

  lemma SkipsNothing(ls: seq<string>)
    requires ls != [] && KeyLine(ls[0])
    ensures Skipped(ls) == 0 && ls[0..] == ls
  {
    HashIsRemark(ls[0]);
  }

  lemma HashIsRemark(l: string)
    ensures Hash(l) || Blank(l) ==> Remark(l)
  {
  }

  lemma OneEntryReads(line: string, key: string, rest: seq<string>)
    requires ReadHeader(line) == Some(key)
    ensures ReadNext([line] + rest) ==
      match ReadScalar(rest)
      case None => Broken
      case Some(s) => Taken(Entry(key, s.value), 1 + s.used)
  {
    HeaderIsKeyLine(line);
    SkipsNothing([line] + rest);
    assert ([line] + rest)[1..] == rest;
  }

  /** An entry in front of other lines. */
  lemma EntryReads(line: string, key: string, rest: seq<string>)
    requires ReadHeader(line) == Some(key)
    ensures ReadEntries([line] + rest) ==
      match ReadScalar(rest)
      case None => None
      case Some(s) =>
        match ReadEntries(rest[s.used..])
        case None => None
        case Some(entries) => Some([Entry(key, s.value)] + entries)
  {
    OneEntryReads(line, key, rest);
    if ReadScalar(rest).Some? {
      FirstTaken(ReadNext, line, rest, Entry(key, ReadScalar(rest).value.value), ReadScalar(rest).value.used);
    }
  }

  lemma FirstTaken(next: seq<string> -> Next, line: string, rest: seq<string>, e: Entry, used: nat)
    requires used <= |rest| && next([line] + rest) == Taken(e, 1 + used)
    ensures EntriesBy(next, [line] + rest) ==
      match EntriesBy(next, rest[used..])
      case None => None
      case Some(entries) => Some([e] + entries)
  {
    assert ([line] + rest)[1 + used..] == rest[used..];
  }

  lemma BlockEntryReads(key: string, ls: seq<string>, after: seq<string>)
    requires PlainKey(key) && Block(ls) && Closes(after)
    ensures ReadEntries([HeaderLine(key)] + (ls + after)) ==
      match ReadEntries(after)
      case None => None
      case Some(entries) => Some([Entry(key, Unlines(Clipped(Contents(ls, 4))))] + entries)
  {
    BlockReads(ls, after);
    HeaderReads(key);
    EntryReads(HeaderLine(key), key, ls + after);
    assert (ls + after)[|ls|..] == after;
  }

  // ---- The script's own lines ----

  /** The rendered lines of a script, with the line of blanks the template puts after them. */
  function ScriptLines(script: string): seq<string> {
    Padded(Lines(script)) + [PAD]
  }

  /** Where the first character is. */
  lemma {:induction false} FirstCharAt(s: string) returns (i: nat)
    ensures i <= |Lines(s)| && forall j :: 0 <= j < i ==> Lines(s)[j] == ""
    ensures FirstChar(s).None? ==> i == |Lines(s)|
    ensures FirstChar(s).Some? ==> i < |Lines(s)| && Lines(s)[i] != "" && Lines(s)[i][0] == FirstChar(s).value
  {
    if s == "" {
      i := 1;
    } else if s[0] == '\n' {
      var k := FirstCharAt(s[1..]);
      i := k + 1;
    } else {
      i := 0;
    }
  }

  lemma PadBlanks()
    ensures Blank(PAD) && Indentation(PAD) == 4
  {
  }

  lemma PaddedIndentation(l: string)
    ensures Indentation(PAD + l) >= 4
    ensures l != "" && l[0] != ' ' ==> Indentation(PAD + l) == 4 && !Blank(PAD + l)
    ensures l != "" && l[0] == ' ' ==> Indentation(PAD + l) > 4
  {
    var p := PAD + l;
    assert forall i :: 0 <= i < 4 ==> p[i] == ' ';
    if l != "" {
      assert p[4] == l[0];
    }
  }

  lemma ScriptIndented(script: string)
    ensures forall j :: 0 <= j < |ScriptLines(script)| ==> Indentation(ScriptLines(script)[j]) >= 4
  {
  }

  lemma SurvivorsAreBlocks(script: string)
    requires FirstChar(script).Some? && FirstChar(script).value != ' '
    ensures Block(ScriptLines(script))
  {
    var i := FirstCharAt(script);
    var ls := ScriptLines(script);
    PadBlanks();
    ScriptIndented(script);
    PaddedIndentation(Lines(script)[i]);
    forall j | 0 <= j < i ensures ls[j] == PAD {
      assert PAD + "" == PAD;
    }
    FirstTextIs(ls, i);
  }

  lemma ScriptContents(script: string)
    ensures Contents(ScriptLines(script), 4) == Lines(script) + [""]
  {
  }

  lemma {:induction false} LastLine(s: string)
    requires s != "" && s[|s|-1] != '\n'
    ensures Lines(s)[|Lines(s)|-1] != ""
  {
    if |s| > 1 {
      assert s[1..][|s[1..]|-1] == s[|s|-1];
      LastLine(s[1..]);
    } else {
      assert s[1..] == "";
    }
  }

  /** Clipping the lines of a text is leaving it one line break. */
  lemma {:induction false} ClippedLines(s: string)
    requires FirstChar(s).Some?
    ensures Unlines(Clipped(Lines(s))) == WithOneBreak(s)
    decreases |s|
  {
    var n := |s| - 1;
    if s[n] == '\n' {
      assert s == s[..n] + "\n" + "";
      LinesJoined(s[..n], "");
      assert Lines(s) == Lines(s[..n]) + [""];
      assert Lines(s)[..|Lines(s)|-1] == Lines(s[..n]);
      assert s == s[..n] + "\n";
      FirstCharWithBreak(s[..n]);
      ClippedLines(s[..n]);
    } else {
      LastLine(s);
      UnlinesLines(s);
    }
  }

  lemma ScriptValue(script: string)
    requires FirstChar(script).Some?
    ensures Unlines(Clipped(Contents(ScriptLines(script), 4))) == WithOneBreak(script)
  {
    ScriptContents(script);
    assert (Lines(script) + [""])[..|Lines(script)|] == Lines(script);
    ClippedLines(script);
  }

  // ---- Scalars never begin with a blank ----

  lemma {:induction false} LinesAreUnbroken(s: string)
    ensures forall l :: l in Lines(s) ==> '\n' !in l
  {
    if s == "" {
    } else {
      LinesAreUnbroken(s[1..]);
      assert Lines(s[1..])[0] in Lines(s[1..]);
    }
  }

  lemma {:induction false} ClippedKeeps(ls: seq<string>, i: nat)
    requires i < |ls| && ls[i] != ""
    ensures i < |Clipped(ls)| <= |ls| && forall j :: 0 <= j < |Clipped(ls)| ==> Clipped(ls)[j] == ls[j]
    decreases |ls|
  {
    if ls[|ls|-1] == "" {
      ClippedKeeps(ls[..|ls|-1], i);
    }
  }

  lemma {:induction false} FirstCharOfLines(ls: seq<string>, i: nat)
    requires i < |ls| && ls[i] != "" && ls[i][0] != '\n' && forall j :: 0 <= j < i ==> ls[j] == ""
    ensures FirstChar(Unlines(ls)) == Some(ls[i][0])
    decreases i
  {
    var u := Unlines(ls);
    assert u == ls[0] + ("\n" + Unlines(ls[1..]));
    if i == 0 {
    } else {
      FirstCharOfLines(ls[1..], i - 1);
      assert u[1..] == Unlines(ls[1..]);
    }
  }

  lemma TextStart(ls: seq<string>, i: nat, n: nat, used: nat)
    requires i < used <= |ls| && n < |ls[i]| && ls[i][n] != ' ' && ls[i][n] != '\n'
    requires forall j :: 0 <= j < i ==> |ls[j]| <= n
    ensures var c := FirstChar(Unlines(Clipped(Contents(ls[..used], n)))); c.Some? && c.value != ' '
  {
    var contents := Contents(ls[..used], n);
    assert contents[i] == ls[i][n..];
    ClippedKeeps(contents, i);
    FirstCharOfLines(Clipped(contents), i);
  }

  lemma ScalarStart(ls: seq<string>)
    requires ReadScalar(ls).Some? && forall l :: l in ls ==> '\n' !in l
    ensures var value := ReadScalar(ls).value.value;
      value == "" || (FirstChar(value).Some? && FirstChar(value).value != ' ')
  {
    var i := FirstText(ls);
    if i < |ls| && Indentation(ls[i]) > PARENT {
      var n := Indentation(ls[i]);
      var used := Extent(ls, n);
      assert used > i;
      assert ls[i][n] in ls[i];
      TextStart(ls, i, n, used);
    }
  }

  lemma {:induction false} FirstCharTrimmed(s: string)
    ensures FirstChar(WithOneBreak(s)) == FirstChar(s)
    decreases |s|
  {
    if s != "" && s[|s|-1] == '\n' {
      FirstCharTrimmed(s[..|s|-1]);
      assert s == s[..|s|-1] + "\n";
      FirstCharWithBreak(s[..|s|-1]);
    } else {
      FirstCharWithBreak(s);
    }
  }

  lemma {:induction false} FirstCharWithBreak(s: string)
    ensures FirstChar(s + "\n") == FirstChar(s)
  {
    if s == "" {
      assert "\n"[1..] == "" && s + "\n" == "\n";
    } else {
      assert (s + "\n")[1..] == s[1..] + "\n";
      FirstCharWithBreak(s[1..]);
    }
  }

  /** A text that begins with a blank, or has nothing but line breaks, is no scalar's value. */
  lemma NoSuchScalar(ls: seq<string>, script: string)
    requires FirstChar(script).None? || FirstChar(script).value == ' '
    requires ReadScalar(ls).Some? && forall l :: l in ls ==> '\n' !in l
    ensures ReadScalar(ls).value.value != WithOneBreak(script)
  {
    ScalarStart(ls);
    FirstCharTrimmed(script);
    assert WithOneBreak(script) != "";
  }

  // ---- Only line feeds come out ----

  predicate NoReturns(ls: seq<string>) {
    forall i :: 0 <= i < |ls| ==> '\r' !in ls[i]
  }

  lemma {:induction false} NormalisedHasNone(s: string)
    ensures '\r' !in Normalised(s)
  {
    if s == "" {
    } else {
      NormalisedHasNone(s[1..]);
    }
  }

  lemma {:induction false} LinesHaveNone(s: string)
    requires '\r' !in s
    ensures NoReturns(Lines(s))
  {
    if s == "" {
    } else {
      LinesHaveNone(s[1..]);
    }
  }

  lemma {:induction false} UnlinesHasNone(ls: seq<string>)
    requires NoReturns(ls)
    ensures '\r' !in Unlines(ls)
  {
    if ls == [] {
    } else {
      UnlinesHasNone(ls[1..]);
    }
  }

  lemma {:induction false} ClippedHasNone(ls: seq<string>)
    requires NoReturns(ls)
    ensures NoReturns(Clipped(ls))
    decreases |ls|
  {
    if ls != [] && ls[|ls|-1] == "" {
      ClippedHasNone(ls[..|ls|-1]);
    }
  }

  lemma ScalarHasNone(ls: seq<string>)
    requires NoReturns(ls) && ReadScalar(ls).Some?
    ensures '\r' !in ReadScalar(ls).value.value
  {
    var i := FirstText(ls);
    if i < |ls| && Indentation(ls[i]) > PARENT {
      var n := Indentation(ls[i]);
      var contents := Contents(ls[..Extent(ls, n)], n);
      assert NoReturns(contents);
      ClippedHasNone(contents);
      UnlinesHasNone(Clipped(contents));
    }
  }

  lemma {:induction false} TrimmedHasReturn(s: string)
    requires '\r' in s
    ensures '\r' in WithOneBreak(s)
    decreases |s|
  {
    if s[|s|-1] == '\n' {
      assert s == s[..|s|-1] + "\n";
      TrimmedHasReturn(s[..|s|-1]);
    }
  }

  // ---- The whole data block ----

  lemma OneLine(s: string)
    requires '\n' !in s
    ensures Lines(s) == [s]
  {
    PrefixedLines(s, "");
    assert s + "" == s;
  }

  lemma LineThen(line: string, rest: string)
    requires '\n' !in line
    ensures Lines(line + "\n" + rest) == [line] + Lines(rest)
  {
    OneLine(line);
    LinesJoined(line, rest);
  }

  /** A fixed entry text of the template: plain, and a block below its key. */
  predicate FixedText(s: string) {
    Plain(s) && Block(Lines(s))
  }

  lemma OtherLines(config: string, launcher: string)
    ensures Lines(OtherEntries(config, launcher)) ==
      [HeaderLine(CONFIG_KEY)] + (Lines(config) + ([HeaderLine(LAUNCHER_KEY)] + Lines(launcher)))
  {
    var last := HeaderLine(LAUNCHER_KEY) + "\n" + launcher;
    LineThen(HeaderLine(LAUNCHER_KEY), launcher);
    LinesJoined(config, last);
    LineThen(HeaderLine(CONFIG_KEY), config + "\n" + last);
  }

  /** The entry a fixed text is read as. */
  function FixedEntry(key: string, text: string): Entry {
    Entry(key, Unlines(Clipped(Contents(Lines(text), 4))))
  }

  function FixedEntries(config: string, launcher: string): seq<Entry> {
    [FixedEntry(CONFIG_KEY, config), FixedEntry(LAUNCHER_KEY, launcher)]
  }

  /** A block in front of lines that are read. */
  lemma BlockBefore(key: string, ls: seq<string>, after: seq<string>, entries: seq<Entry>)
    requires PlainKey(key) && Block(ls) && Closes(after) && ReadEntries(after) == Some(entries)
    ensures ReadEntries([HeaderLine(key)] + (ls + after)) == Some([Entry(key, Unlines(Clipped(Contents(ls, 4))))] + entries)
  {
    BlockEntryReads(key, ls, after);
  }

  lemma NoLinesRead()
    ensures ReadEntries([]) == Some([])
  {
  }

  lemma LastBlockReads(key: string, ls: seq<string>)
    requires PlainKey(key) && Block(ls)
    ensures ReadEntries([HeaderLine(key)] + ls) == Some([Entry(key, Unlines(Clipped(Contents(ls, 4))))])
    ensures Closes([HeaderLine(key)] + ls)
  {
    HeaderReads(key);
    NoLinesRead();
    assert ls + [] == ls;
    BlockBefore(key, ls, [], []);
    var e := Entry(key, Unlines(Clipped(Contents(ls, 4))));
    assert [e] + [] == [e];
  }

  /** Lines that close a scalar and are read as those entries. */
  predicate ReadsAs(others: seq<string>, entries: seq<Entry>) {
    Closes(others) && others != [] && ReadEntries(others) == Some(entries)
  }

  lemma TwoTextsRead(k1: string, t1: string, k2: string, t2: string)
    requires PlainKey(k1) && FixedText(t1) && PlainKey(k2) && FixedText(t2)
    ensures ReadsAs([HeaderLine(k1)] + (Lines(t1) + ([HeaderLine(k2)] + Lines(t2))), [FixedEntry(k1, t1), FixedEntry(k2, t2)])
  {
    var after := [HeaderLine(k2)] + Lines(t2);
    var last := [FixedEntry(k2, t2)];
    HeaderReads(k1);
    LastBlockReads(k2, Lines(t2));
    BlockBefore(k1, Lines(t1), after, last);
    assert [FixedEntry(k1, t1)] + last == [FixedEntry(k1, t1), FixedEntry(k2, t2)];
  }

  lemma FixedKeysArePlain()
    ensures PlainKey(CONFIG_KEY) && PlainKey(LAUNCHER_KEY)
  {
  }

  lemma OthersRead(config: string, launcher: string)
    requires FixedText(config) && FixedText(launcher)
    ensures ReadsAs(Lines(OtherEntries(config, launcher)), FixedEntries(config, launcher))
  {
    FixedKeysArePlain();
    OtherLines(config, launcher);
    TwoTextsRead(CONFIG_KEY, config, LAUNCHER_KEY, launcher);
  }

  lemma DataLines(scriptType: string, script: string, config: string, launcher: string)
    requires '\n' !in scriptType
    ensures Lines(DataText(scriptType, script, config, launcher)) ==
      [HeaderLine(AppKey(scriptType))] + (ScriptLines(script) + Lines(OtherEntries(config, launcher)))
  {
    var others := OtherEntries(config, launcher);
    LineThen(PAD, others);
    LinesJoined(Indent(script), PAD + "\n" + others);
    IndentLines(script);
    LineThen(HeaderLine(AppKey(scriptType)), Indent(script) + "\n" + (PAD + "\n" + others));
    assert Padded(Lines(script)) + ([PAD] + Lines(others)) == ScriptLines(script) + Lines(others);
  }

  lemma TextThen(a: string, b: string)
    ensures IsText(a + b) <==> IsText(a) && IsText(b)
    ensures '\r' in a + b <==> '\r' in a || '\r' in b
  {
    assert (a + b)[..|a|] == a && (a + b)[|a|..] == b;
    if IsText(a + b) {
      forall i | 0 <= i < |b| ensures TextChar(b[i]) {
        assert (a + b)[|a| + i] == b[i];
      }
    }
  }

  lemma {:induction false} IndentKeepsText(s: string)
    ensures IsText(IndentRest(s)) <==> IsText(s)
    ensures '\r' in IndentRest(s) <==> '\r' in s
  {
    if s == "" {
    } else {
      IndentKeepsText(s[1..]);
      var first := if s[0] == '\n' then "\n" + PAD else [s[0]];
      TextThen(first, IndentRest(s[1..]));
      TextThen([s[0]], s[1..]);
      assert s == [s[0]] + s[1..];
    }
  }

  lemma HeaderText(key: string)
    ensures IsText(HeaderLine(key)) <==> IsText(key)
    ensures '\r' in HeaderLine(key) <==> '\r' in key
  {
    TextThen("  ", key);
    TextThen("  " + key, HEADER_END);
  }

  lemma DataIsText(scriptType: string, script: string, config: string, launcher: string)
    requires Plain(scriptType) && Plain(config) && Plain(launcher)
    ensures IsText(DataText(scriptType, script, config, launcher)) <==> IsText(script)
    ensures '\r' in DataText(scriptType, script, config, launcher) <==> '\r' in script
  {
    HeaderText(CONFIG_KEY);
    HeaderText(LAUNCHER_KEY);
    var last := HeaderLine(LAUNCHER_KEY) + "\n" + launcher;
    TextThen(HeaderLine(LAUNCHER_KEY) + "\n", launcher);
    TextThen(HeaderLine(LAUNCHER_KEY), "\n");
    TextThen(config, "\n");
    TextThen(config + "\n", last);
    TextThen(HeaderLine(CONFIG_KEY), "\n");
    TextThen(HeaderLine(CONFIG_KEY) + "\n", config + "\n" + last);
    var others := OtherEntries(config, launcher);
    assert IsText(others) && '\r' !in others;
    ScriptIsText(scriptType, script, others);
  }

  lemma ScriptIsText(scriptType: string, script: string, others: string)
    requires Plain(scriptType) && Plain(others)
    ensures var t := HeaderLine(AppKey(scriptType)) + "\n" + (Indent(script) + "\n" + (PAD + "\n" + others));
      (IsText(t) <==> IsText(script)) && ('\r' in t <==> '\r' in script)
  {
    TextThen("app.", scriptType);
    HeaderText(AppKey(scriptType));
    TextThen(HeaderLine(AppKey(scriptType)), "\n");
    IndentKeepsText(script);
    TextThen(PAD, IndentRest(script));
    TextThen(Indent(script), "\n");
    TextThen(PAD, "\n");
    TextThen(PAD + "\n", others);
    TextThen(Indent(script) + "\n", PAD + "\n" + others);
    TextThen(HeaderLine(AppKey(scriptType)) + "\n", Indent(script) + "\n" + (PAD + "\n" + others));
  }

  lemma {:induction false} PlainStays(s: string)
    requires '\r' !in s
    ensures Normalised(s) == s
  {
    if s == "" {
    } else {
      PlainStays(s[1..]);
    }
  }

  // ---- The results ----

  /** The type a script has been given: anything that can be part of a key. */
  predicate TypeText(scriptType: string) {
    KeyText(scriptType)
  }

  lemma KeysArePlain(s: string)
    requires KeyText(s)
    ensures Plain(s) && '\n' !in s
  {
  }

  /** The keys of the template are such keys, and differ. */
  lemma ThreeDiffer(scriptType: string)
    requires TypeText(scriptType)
    ensures PlainKey(AppKey(scriptType)) && PlainKey(CONFIG_KEY) && PlainKey(LAUNCHER_KEY)
    ensures AppKey(scriptType) != CONFIG_KEY && AppKey(scriptType) != LAUNCHER_KEY && CONFIG_KEY != LAUNCHER_KEY
  {
    FixedKeysArePlain();
    assert CONFIG_KEY[0] == 'j' && LAUNCHER_KEY[0] == 's' && AppKey(scriptType)[0] == 'a';
    assert KeyText("app.");
  }

  /** The entries of a block that is read as three entries with these keys. */
  lemma ThreeAreDistinct(scriptType: string, value: string, config: string, launcher: string)
    requires TypeText(scriptType)
    ensures DistinctKeys([Entry(AppKey(scriptType), value)] + FixedEntries(config, launcher))
  {
    ThreeDiffer(scriptType);
  }

  /** The first entry of the data block is the script under its key, with one line break at its end. */
  predicate ComesOut(scriptType: string, script: string, config: string, launcher: string) {
    var r := Decode(DataText(scriptType, script, config, launcher));
    r.Some? && r.value != [] && r.value[0] == Entry(AppKey(scriptType), WithOneBreak(script))
  }

  lemma DecodedLines(scriptType: string, script: string, config: string, launcher: string)
    requires TypeText(scriptType) && FixedText(config) && FixedText(launcher) && Plain(script)
    ensures Decode(DataText(scriptType, script, config, launcher)) ==
      Distinct(ReadEntries([HeaderLine(AppKey(scriptType))] + (ScriptLines(script) + Lines(OtherEntries(config, launcher)))))
  {
    KeysArePlain(scriptType);
    DataIsText(scriptType, script, config, launcher);
    PlainStays(DataText(scriptType, script, config, launcher));
    DataLines(scriptType, script, config, launcher);
  }

  lemma SurvivorsComeOut(scriptType: string, script: string, config: string, launcher: string)
    requires TypeText(scriptType) && FixedText(config) && FixedText(launcher) && Survives(script)
    ensures ComesOut(scriptType, script, config, launcher)
  {
    DecodedLines(scriptType, script, config, launcher);
    OthersRead(config, launcher);
    SurvivorsAreBlocks(script);
    ThreeDiffer(scriptType);
    BlockBefore(AppKey(scriptType), ScriptLines(script), Lines(OtherEntries(config, launcher)), FixedEntries(config, launcher));
    ScriptValue(script);
    ThreeAreDistinct(scriptType, WithOneBreak(script), config, launcher);
  }

  lemma BlankStartsDoNot(scriptType: string, script: string, config: string, launcher: string)
    requires TypeText(scriptType) && FixedText(config) && FixedText(launcher) && Plain(script) && !Survives(script)
    ensures !ComesOut(scriptType, script, config, launcher)
  {
    var key := AppKey(scriptType);
    var rest := ScriptLines(script) + Lines(OtherEntries(config, launcher));
    KeysArePlain(scriptType);
    DecodedLines(scriptType, script, config, launcher);
    ThreeDiffer(scriptType);
    HeaderReads(key);
    EntryReads(HeaderLine(key), key, rest);
    LinesAreUnbroken(DataText(scriptType, script, config, launcher));
    DataLines(scriptType, script, config, launcher);
    assert forall l :: l in rest ==> l in [HeaderLine(key)] + rest;
    if ReadScalar(rest).Some? {
      NoSuchScalar(rest, script);
    }
  }

  /** The first entry that is read, and the lines that are left. */
  lemma FirstRead(next: seq<string> -> Next, ls: seq<string>) returns (e: Entry, n: nat)
    requires !next(ls).End? && EntriesBy(next, ls).Some?
    ensures next(ls) == Taken(e, n) && 0 < n <= |ls|
    ensures EntriesBy(next, ls[n..]).Some? && EntriesBy(next, ls).value == [e] + EntriesBy(next, ls[n..]).value
  {
    e, n := next(ls).entry, next(ls).lines;
  }

  lemma NothingRead(next: seq<string> -> Next, ls: seq<string>)
    requires next(ls).End?
    ensures EntriesBy(next, ls) == Some([])
  {
  }

  lemma EntryHasNone(ls: seq<string>)
    requires NoReturns(ls) && ReadNext(ls).Taken?
    ensures '\r' !in ReadNext(ls).entry.value
  {
    ScalarHasNone(ls[Skipped(ls) + 1..]);
  }

  /** A reader of entries that never lets a carriage return out of lines without. */
  ghost predicate LetsNoneOut(next: seq<string> -> Next) {
    forall ls :: NoReturns(ls) && next(ls).Taken? ==> '\r' !in next(ls).entry.value
  }

  lemma {:induction false} EntriesHaveNone(next: seq<string> -> Next, ls: seq<string>)
    requires LetsNoneOut(next) && NoReturns(ls) && EntriesBy(next, ls).Some?
    ensures forall e :: e in EntriesBy(next, ls).value ==> '\r' !in e.value
    decreases |ls|
  {
    if next(ls).End? {
      NothingRead(next, ls);
    } else {
      var _, n := FirstRead(next, ls);
      EntriesHaveNone(next, ls[n..]);
    }
  }

  lemma ReadHasNone(ls: seq<string>)
    requires NoReturns(ls) && ReadEntries(ls).Some?
    ensures forall e :: e in ReadEntries(ls).value ==> '\r' !in e.value
  {
    forall ls | NoReturns(ls) && ReadNext(ls).Taken? ensures '\r' !in ReadNext(ls).entry.value {
      EntryHasNone(ls);
    }
    EntriesHaveNone(ReadNext, ls);
  }

  lemma UnplainDoNot(scriptType: string, script: string, config: string, launcher: string)
    requires TypeText(scriptType) && FixedText(config) && FixedText(launcher) && !Plain(script)
    ensures !ComesOut(scriptType, script, config, launcher)
  {
    var text := DataText(scriptType, script, config, launcher);
    KeysArePlain(scriptType);
    DataIsText(scriptType, script, config, launcher);
    if Decode(text).Some? {
      TrimmedHasReturn(script);
      NormalisedHasNone(text);
      LinesHaveNone(Normalised(text));
      ReadHasNone(Lines(Normalised(text)));
    }
  }

  /** The script round trip, exactly: a script comes out of the rendered ConfigMap as it went in, with
      the line breaks at its end reduced to one, if and only if it is YAML text without carriage
      returns whose first character after any line breaks is there and is no blank. */
  lemma ComesOutExactly(scriptType: string, script: string, config: string, launcher: string)
    requires TypeText(scriptType) && FixedText(config) && FixedText(launcher)
    ensures ComesOut(scriptType, script, config, launcher) <==> Survives(script)
  {
    if Survives(script) {
      SurvivorsComeOut(scriptType, script, config, launcher);
    } else if Plain(script) {
      BlankStartsDoNot(scriptType, script, config, launcher);
    } else {
      UnplainDoNot(scriptType, script, config, launcher);
    }
  }
}
