/** The data block of a DaskJob's ConfigMap as a whole: for which scripts it has its three keys, and when
    it can be read at all. The template pads the script's lines behind line feeds only, but a YAML
    reader also takes a carriage return for a line break. */
module DataBlock {
  import opened Options
  import opened BlockScalar
  import opened ScriptRoundTrip

  // ---- The lines a reader sees ----

  lemma {:induction false} NormalisedThen(a: string, b: string)
    requires a == "" || a[|a|-1] != '\r'
    ensures Normalised(a + b) == Normalised(a) + Normalised(b)
  {
    if a == "" {
      assert a + b == b;
    } else {
      assert (a + b)[1..] == a[1..] + b;
      NormalisedThen(a[1..], b);
    }
  }

  /** The lines between the script's key and the next one. */
  function RenderedLines(script: string): seq<string> {
    Lines(Normalised(Indent(script) + "\n") + PAD)
  }

  lemma NoReturnsNoChange(a: string, b: string, c: string)
    requires '\r' !in a && '\r' !in c && a != "" && a[|a|-1] == '\n' && b != "" && b[|b|-1] == '\n'
    ensures Normalised(a + (b + c)) == a + (Normalised(b) + c)
  {
    NormalisedThen(a, b + c);
    NormalisedThen(b, c);
    PlainStays(a);
    PlainStays(c);
  }

  lemma {:induction false} NormalisedBreak(s: string)
    ensures Normalised(s + "\n") != "" && Normalised(s + "\n")[|Normalised(s + "\n")|-1] == '\n'
  {
    if s == "" {
      assert s + "\n" == "\n" && "\n"[1..] == "";
    } else {
      assert (s + "\n")[1..] == s[1..] + "\n";
      NormalisedBreak(s[1..]);
    }
  }

  lemma DataTextRead(scriptType: string, script: string, config: string, launcher: string)
    requires TypeText(scriptType) && FixedText(config) && FixedText(launcher)
    ensures Lines(Normalised(DataText(scriptType, script, config, launcher))) ==
      [HeaderLine(AppKey(scriptType))] + (RenderedLines(script) + Lines(OtherEntries(config, launcher)))
  {
    var header, others := HeaderLine(AppKey(scriptType)), OtherEntries(config, launcher);
    KeysArePlain(scriptType);
    DataIsText(scriptType, "", config, launcher);
    assert '\r' !in DataText(scriptType, "", config, launcher);
    var front, body, back := header + "\n", Indent(script) + "\n", PAD + "\n" + others;
    PartsOf(scriptType, config, launcher);
    assert DataText(scriptType, script, config, launcher) == front + (body + back);
    NoReturnsNoChange(front, body, back);
    var text := Normalised(body) + PAD;
    assert Normalised(body) + back == text + "\n" + others;
    LinesJoined(text, others);
    LineThen(header, text + "\n" + others);
  }

  lemma PartsOf(scriptType: string, config: string, launcher: string)
    requires '\r' !in DataText(scriptType, "", config, launcher)
    ensures '\r' !in HeaderLine(AppKey(scriptType)) + "\n" && '\r' !in PAD + "\n" + OtherEntries(config, launcher)
  {
    var front, back := HeaderLine(AppKey(scriptType)) + "\n", PAD + "\n" + OtherEntries(config, launcher);
    TextThen(front, Indent("") + "\n" + back);
    TextThen(Indent("") + "\n", back);
    assert DataText(scriptType, "", config, launcher) == front + (Indent("") + "\n" + back);
  }

  // ---- Lines that are passed over ----

  /** Lines without text, then comment lines, the first of them not indented by tabs. */
  predicate Skippable(ls: seq<string>) {
    var i := FirstText(ls);
    i < |ls| ==> Hash(ls[i]) && forall j :: i <= j < |ls| ==> Remark(ls[j])
  }

  lemma SkippedLines(ls: seq<string>)
    ensures forall j :: 0 <= j < Skipped(ls) ==> Remark(ls[j])
    ensures Skipped(ls) < |ls| ==> !Blank(ls[Skipped(ls)])
  {
    var i := FirstText(ls);
    forall j | 0 <= j < Skipped(ls) ensures Remark(ls[j]) {
      if j < i {
        HashIsRemark(ls[j]);
      } else {
        assert ls[j] == ls[i..][j - i];
      }
    }
    if Skipped(ls) < |ls| {
      HashIsRemark(ls[Skipped(ls)]);
    }
  }

  predicate KeyAt(ls: seq<string>, k: nat) {
    k < |ls| && KeyLine(ls[k])
  }

  lemma KeyIsNotSkipped(ls: seq<string>, k: nat)
    requires KeyAt(ls, k)
    ensures Skipped(ls) <= k
  {
    SkippedLines(ls);
  }

  lemma FirstTextThen(ls: seq<string>, others: seq<string>)
    requires Closes(others) && others != []
    ensures FirstText(ls + others) == FirstText(ls)
  {
    FirstTextIs(ls + others, FirstText(ls));
  }

  lemma RemarksThen(ls: seq<string>, others: seq<string>)
    requires Closes(others) && others != []
    ensures Remarks(ls + others) == |ls| <==> forall j :: 0 <= j < |ls| ==> Remark(ls[j])
  {
    var all := ls + others;
    var k := Remarks(all);
    assert all[|ls|] == others[0];
    assert forall j :: 0 <= j < |ls| ==> all[j] == ls[j];
  }

  /** Exactly such lines are passed over up to a key. */
  lemma SkippedThen(ls: seq<string>, others: seq<string>)
    requires Closes(others) && others != []
    ensures Skipped(ls + others) == |ls| <==> Skippable(ls)
  {
    var i := FirstText(ls);
    FirstTextThen(ls, others);
    if i == |ls| {
      assert (ls + others)[i] == others[0];
      HashIsRemark(others[0]);
    } else {
      assert (ls + others)[i..] == ls[i..] + others;
      RemarksThen(ls[i..], others);
      assert forall j :: i <= j < |ls| ==> ls[j] == ls[i..][j - i];
    }
  }

  // ---- The keys ----

  /** No line is where a reader expects a key. */
  predicate NoKeyLine(ls: seq<string>) {
    forall i :: 0 <= i < |ls| ==> Remark(ls[i]) || Indentation(ls[i]) > PARENT
  }

  /** Readers that never read past a key's line: they pass over the k lines before it, or take an entry
      from these. */
  ghost predicate StopsAtKeys(skip: seq<string> -> nat, next: seq<string> -> Next) {
    forall ls, k {:trigger next(ls), ls[k]} :: KeyAt(ls, k) ==> StopsAt(skip, next, ls, k)
  }

  ghost predicate StopsAt(skip: seq<string> -> nat, next: seq<string> -> Next, ls: seq<string>, k: nat)
    requires KeyAt(ls, k)
  {
    && skip(ls) <= k && !next(ls).End?
    && (if skip(ls) == k then next(ls) == After(next(ls[k..]), k) && (next(ls).Taken? ==> next(ls).lines > k)
        else next(ls).Taken? ==> next(ls).lines <= k)
  }

  lemma EntriesStopAtKeys()
    ensures StopsAtKeys(Skipped, ReadNext)
  {
    forall ls: seq<string>, k | KeyAt(ls, k) ensures StopsAt(Skipped, ReadNext, ls, k) {
      KeyIsNotSkipped(ls, k);
      if Skipped(ls) == k {
        NextIsKey(ls, k);
      } else {
        NextIsBefore(ls, k);
      }
    }
  }

  lemma NextIsKey(ls: seq<string>, k: nat)
    requires KeyAt(ls, k) && Skipped(ls) == k
    ensures ReadNext(ls) == After(ReadNext(ls[k..]), k)
  {
    SkipsNothing(ls[k..]);
    NextIsThere(ls, k);
  }

  lemma NextIsThere(ls: seq<string>, k: nat)
    requires k < |ls|
    ensures NextAt(ls, k) == After(NextAt(ls[k..], 0), k)
  {
    assert ls[k..][1..] == ls[k + 1..];
  }

  lemma NextIsBefore(ls: seq<string>, k: nat)
    requires KeyAt(ls, k) && Skipped(ls) < k
    ensures ReadNext(ls).Taken? ==> ReadNext(ls).lines <= k
  {
    var n := Skipped(ls);
    assert ls[n + 1..][k - n - 1] == ls[k];
    EntryEnds(ls[n], ls[n + 1..], k - n - 1);
  }

  lemma EntryEnds(line: string, rest: seq<string>, i: nat)
    requires KeyAt(rest, i)
    ensures ReadEntry(line, rest).Taken? ==> ReadEntry(line, rest).lines <= 1 + i
  {
    if ReadScalar(rest).Some? {
      ScalarEnds(rest, i);
    }
  }

  lemma ScalarEnds(ls: seq<string>, i: nat)
    requires i < |ls| && KeyLine(ls[i]) && ReadScalar(ls).Some?
    ensures ReadScalar(ls).value.used <= i
  {
  }

  /** Entries that end with the last ones, and are these alone exactly if `only`. */
  predicate EndsWithLast(r: seq<Entry>, last: seq<Entry>, only: bool) {
    && |r| >= |last| && r[|r| - |last|..] == last
    && (|r| == |last| <==> only)
  }

  lemma OneMoreEntry(e: Entry, r: seq<Entry>, last: seq<Entry>)
    requires |r| >= |last| && r[|r| - |last|..] == last
    ensures ([e] + r)[1 + |r| - |last|..] == last
  {
  }

  lemma KeyFurtherOn(ls: seq<string>, from: nat, k: nat)
    requires KeyAt(ls, k) && from <= k
    ensures KeyAt(ls[from..], k - from) && ls[from..][k - from..] == ls[k..]
  {
  }

  lemma SkipToKey(next: seq<string> -> Next, ls: seq<string>, k: nat, others: seq<string>)
    requires k <= |ls| && others == ls[k..] && next(ls) == After(next(others), k) && (next(ls).Taken? ==> next(ls).lines > k)
    ensures EntriesBy(next, ls) == EntriesBy(next, others)
  {
    if next(ls).Taken? && next(ls).lines <= |ls| {
      assert ls[next(ls).lines..] == others[next(others).lines..];
    }
  }

  /** The first entry, and how many of the lines before a key it takes. */
  lemma FirstBefore(next: seq<string> -> Next, ls: seq<string>, k: nat, others: seq<string>) returns (e: Entry, n: nat)
    requires KeyAt(ls, k) && next(ls).Taken? && next(ls).lines <= k && others == ls[k..] && EntriesBy(next, ls).Some?
    ensures 0 < n <= k && KeyAt(ls[n..], k - n) && ls[n..][k - n..] == others
    ensures EntriesBy(next, ls[n..]).Some? && EntriesBy(next, ls).value == [e] + EntriesBy(next, ls[n..]).value
  {
    e, n := FirstRead(next, ls);
    KeyFurtherOn(ls, n, k);
  }

  /** However many entries are read from the lines before a key, those from the key on follow them. */
  lemma {:induction false} EntriesThen(skip: seq<string> -> nat, next: seq<string> -> Next, ls: seq<string>, k: nat,
                                       others: seq<string>, last: seq<Entry>)
    requires StopsAtKeys(skip, next) && KeyAt(ls, k) && ls[k..] == others && EntriesBy(next, others) == Some(last)
    requires EntriesBy(next, ls).Some?
    ensures EndsWithLast(EntriesBy(next, ls).value, last, skip(ls) == k)
    decreases |ls|
  {
    assert StopsAt(skip, next, ls, k);
    if skip(ls) == k {
      SkipToKey(next, ls, k, others);
    } else {
      var e, n := FirstBefore(next, ls, k, others);
      EntriesThen(skip, next, ls[n..], k - n, others, last);
      OneMoreEntry(e, EntriesBy(next, ls[n..]).value, last);
    }
  }

  /** No more than the last entries follow exactly if the lines between are passed over. */
  lemma LastEntries(rest: seq<string>, others: seq<string>, last: seq<Entry>)
    requires ReadsAs(others, last) && ReadEntries(rest + others).Some?
    ensures var r := ReadEntries(rest + others).value;
      |r| >= |last| && r[|r| - |last|..] == last && (|r| == |last| <==> Skippable(rest))
  {
    var all := rest + others;
    assert all[|rest|] == others[0] && all[|rest|..] == others;
    EntriesStopAtKeys();
    EntriesThen(Skipped, ReadNext, all, |rest|, others, last);
    SkippedThen(rest, others);
  }

  /** Lines that are read are passed over exactly if none of them is a key's, or deeper. */
  lemma SkippableExactly(rest: seq<string>, others: seq<string>)
    requires Closes(others) && others != [] && ReadEntries(rest + others).Some?
    ensures Skippable(rest) <==> NoKeyLine(rest)
  {
    var all := rest + others;
    forall i | 0 <= i < |rest| ensures Blank(rest[i]) ==> Remark(rest[i]) {
      HashIsRemark(rest[i]);
    }
    if !Skippable(rest) {
      SkippedThen(rest, others);
      assert all[|rest|] == others[0];
      KeyIsNotSkipped(all, |rest|);
      var n := Skipped(all);
      var _, _ := FirstRead(ReadNext, all);
      HeaderIsKeyLine(all[n]);
      assert all[n] == rest[n];
    }
  }

  /** Without carriage returns the script's lines are all indented by at least four. */
  lemma NoReturnsNoKeys(script: string)
    requires '\r' !in script
    ensures RenderedLines(script) == ScriptLines(script) && NoKeyLine(RenderedLines(script))
  {
    IndentKeepsText(script);
    TextThen(PAD, IndentRest(script));
    TextThen(Indent(script), "\n");
    PlainStays(Indent(script) + "\n");
    LineThenPad(Indent(script));
    IndentLines(script);
    ScriptIndented(script);
  }

  lemma LineThenPad(s: string)
    ensures Lines(s + "\n" + PAD) == Lines(s) + [PAD]
  {
    LinesJoined(s, PAD);
    OneLine(PAD);
  }

  // ---- A script that adds a key ----

  lemma OtherCharFirst(c: char, s: string)
    requires c != '\r'
    ensures Normalised([c] + s) == [c] + Normalised(s)
  {
    assert ([c] + s)[1..] == s;
  }

  lemma ReturnFirst(s: string)
    requires s != "" && s[0] != '\n'
    ensures Normalised("\r" + s) == "\n" + Normalised(s)
  {
    assert ("\r" + s)[1..] == s;
  }

  lemma {:induction false} NormalisedReturn(a: string, b: string)
    requires '\r' !in a && b != "" && b[0] != '\n'
    ensures Normalised(a + ("\r" + b)) == a + ("\n" + Normalised(b))
  {
    if a == "" {
      ReturnFirst(b);
      assert a + ("\r" + b) == "\r" + b && a + ("\n" + Normalised(b)) == "\n" + Normalised(b);
    } else {
      var rest := a[1..] + ("\r" + b);
      NormalisedReturn(a[1..], b);
      OtherCharFirst(a[0], rest);
      CharThen(a, "\r" + b);
      CharThen(a, "\n" + Normalised(b));
    }
  }

  lemma CharThen(a: string, b: string)
    requires a != ""
    ensures [a[0]] + (a[1..] + b) == a + b
  {
  }

  lemma {:induction false} NothingToIndent(s: string)
    requires '\n' !in s
    ensures IndentRest(s) == s
  {
    if s == "" {
    } else {
      NothingToIndent(s[1..]);
    }
  }

  /** A line of text without breaks, beginning with no blank. */
  predicate OneTextLine(s: string) {
    Plain(s) && '\n' !in s && s != "" && s[0] != ' '
  }

  lemma PlainKeyIsOneLine(key: string)
    requires PlainKey(key)
    ensures OneTextLine(key)
  {
    KeysArePlain(key);
    assert KeyChar(key[0]);
  }

  /** Two lines of text with a key between them, held apart by carriage returns only. */
  function WithKeyBetween(first: string, key: string, second: string): string {
    first + ("\r" + (HeaderLine(key) + ("\r" + (PAD + second))))
  }

  lemma HeaderIsOneLine(key: string)
    requires PlainKey(key)
    ensures '\n' !in HeaderLine(key) && '\r' !in HeaderLine(key) && HeaderLine(key)[0] == ' '
  {
    PlainKeyIsOneLine(key);
    HeaderText(key);
  }

  lemma ReturnAssociates(a: string, b: string, c: string)
    ensures a + ("\r" + b) + c == a + ("\r" + (b + c))
  {
  }

  lemma IndentedWithKey(first: string, key: string, second: string)
    requires OneTextLine(first) && PlainKey(key) && OneTextLine(second)
    ensures Indent(WithKeyBetween(first, key, second)) + "\n" ==
      PAD + first + ("\r" + (HeaderLine(key) + ("\r" + (PAD + second + "\n"))))
  {
    var script, rest := WithKeyBetween(first, key, second), HeaderLine(key) + ("\r" + (PAD + second));
    HeaderIsOneLine(key);
    NothingToIndent(script);
    assert PAD + script == PAD + first + ("\r" + rest);
    ReturnAssociates(PAD + first, rest, "\n");
    ReturnAssociates(HeaderLine(key), PAD + second, "\n");
  }

  lemma NormalisedWithKey(first: string, header: string, second: string)
    requires '\r' !in first && '\r' !in header && '\r' !in second && header != "" && header[0] == ' ' && second != "" && second[0] == ' '
    ensures Normalised(first + ("\r" + (header + ("\r" + second)))) == first + ("\n" + (header + ("\n" + second)))
  {
    NormalisedReturn(first, header + ("\r" + second));
    NormalisedReturn(header, second);
    PlainStays(second);
  }

  lemma BreakAssociates(a: string, b: string, c: string)
    ensures a + ("\n" + b) + c == a + "\n" + (b + c)
  {
  }

  lemma LinesWithKey(first: string, header: string, second: string)
    requires '\n' !in first && '\n' !in header && '\n' !in second
    ensures Lines(first + ("\n" + (header + ("\n" + (second + "\n")))) + PAD) == [first, header, second, PAD]
  {
    BreakAssociates(first, header + ("\n" + (second + "\n")), PAD);
    BreakAssociates(header, second + "\n", PAD);
    LineThen(first, header + ("\n" + (second + "\n")) + PAD);
    LineThen(header, second + "\n" + PAD);
    LineThenPad(second);
    OneLine(second);
  }

  lemma RenderedWithKey(first: string, key: string, second: string)
    requires OneTextLine(first) && PlainKey(key) && OneTextLine(second)
    ensures RenderedLines(WithKeyBetween(first, key, second)) == [PAD + first, HeaderLine(key), PAD + second, PAD]
  {
    HeaderIsOneLine(key);
    IndentedWithKey(first, key, second);
    NormalisedWithKey(PAD + first, HeaderLine(key), PAD + second + "\n");
    LinesWithKey(PAD + first, HeaderLine(key), PAD + second);
  }

  lemma OneLineBlock(line: string, more: seq<string>)
    requires OneTextLine(line) && (more == [] || more == [PAD])
    ensures Block([PAD + line] + more)
    ensures Unlines(Clipped(Contents([PAD + line] + more, 4))) == line + "\n"
  {
    var ls := [PAD + line] + more;
    PaddedIndentation(line);
    PadBlanks();
    FirstTextIs(ls, 0);
    var contents := [line] + seq(|more|, i => "");
    assert Contents(ls, 4) == contents;
    assert more != [] ==> contents[..1] == [line];
    assert Clipped([line]) == [line] && Unlines([line]) == line + "\n" by {
      assert [line][1..] == [];
    }
  }

  lemma LineEntryThen(key: string, line: string, more: seq<string>, others: seq<string>, last: seq<Entry>,
                      all: seq<string>, entries: seq<Entry>)
    requires PlainKey(key) && OneTextLine(line) && (more == [] || more == [PAD]) && ReadsAs(others, last)
    requires all == [HeaderLine(key)] + ([PAD + line] + more + others) && entries == [Entry(key, line + "\n")] + last
    ensures ReadsAs(all, entries)
  {
    OneLineBlock(line, more);
    BlockBefore(key, [PAD + line] + more, others, last);
    HeaderReads(key);
  }

  lemma TwoEntriesThen(k1: string, l1: string, k2: string, l2: string, others: seq<string>, last: seq<Entry>)
    requires PlainKey(k1) && OneTextLine(l1) && PlainKey(k2) && OneTextLine(l2) && ReadsAs(others, last)
    ensures ReadsAs([HeaderLine(k1)] + ([PAD + l1, HeaderLine(k2), PAD + l2, PAD] + others),
                    [Entry(k1, l1 + "\n"), Entry(k2, l2 + "\n")] + last)
  {
    var e1, e2 := Entry(k1, l1 + "\n"), Entry(k2, l2 + "\n");
    var after := [HeaderLine(k2)] + ([PAD + l2] + [PAD] + others);
    LineEntryThen(k2, l2, [PAD], others, last, after, [e2] + last);
    FourLines(PAD + l1, HeaderLine(k2), PAD + l2, PAD, others);
    TwoThen(e1, e2, last);
    LineEntryThen(k1, l1, [], after, [e2] + last,
                  [HeaderLine(k1)] + ([PAD + l1, HeaderLine(k2), PAD + l2, PAD] + others), [e1, e2] + last);
  }

  lemma TwoThen<T>(a: T, b: T, rest: seq<T>)
    ensures [a] + ([b] + rest) == [a, b] + rest
  {
  }

  lemma FourLines<T>(a: T, b: T, c: T, d: T, rest: seq<T>)
    ensures [a] + [] + ([b] + ([c] + [d] + rest)) == [a, b, c, d] + rest
  {
  }

  /** A key that can be added to the three of the template. */
  predicate NewKey(scriptType: string, key: string) {
    PlainKey(key) && key != AppKey(scriptType) && key != CONFIG_KEY && key != LAUNCHER_KEY
  }

  lemma FourAreDistinct(scriptType: string, value: string, more: Entry, config: string, launcher: string)
    requires TypeText(scriptType) && NewKey(scriptType, more.key)
    ensures DistinctKeys([Entry(AppKey(scriptType), value), more] + FixedEntries(config, launcher))
  {
    ThreeDiffer(scriptType);
  }

  /** Carriage returns in a script can add any key to the ConfigMap. */
  lemma ReturnsAddAnEntry(scriptType: string, first: string, key: string, second: string, config: string, launcher: string)
    requires TypeText(scriptType) && FixedText(config) && FixedText(launcher)
    requires OneTextLine(first) && NewKey(scriptType, key) && OneTextLine(second)
    ensures Decode(DataText(scriptType, WithKeyBetween(first, key, second), config, launcher)) ==
      Some([Entry(AppKey(scriptType), first + "\n"), Entry(key, second + "\n")] + FixedEntries(config, launcher))
  {
    var script := WithKeyBetween(first, key, second);
    KeysArePlain(key);
    KeysArePlain(scriptType);
    WithKeyIsText(first, key, second);
    DataIsText(scriptType, script, config, launcher);
    DataTextRead(scriptType, script, config, launcher);
    RenderedWithKey(first, key, second);
    OthersRead(config, launcher);
    ThreeDiffer(scriptType);
    TwoEntriesThen(AppKey(scriptType), first, key, second, Lines(OtherEntries(config, launcher)), FixedEntries(config, launcher));
    FourAreDistinct(scriptType, first + "\n", Entry(key, second + "\n"), config, launcher);
  }

  lemma WithKeyIsText(first: string, key: string, second: string)
    requires Plain(first) && Plain(key) && Plain(second)
    ensures IsText(WithKeyBetween(first, key, second))
  {
    HeaderText(key);
    TextThen(PAD, second);
    TextThen("\r", PAD + second);
    TextThen(HeaderLine(key), "\r" + (PAD + second));
    TextThen("\r", HeaderLine(key) + ("\r" + (PAD + second)));
    TextThen(first, "\r" + (HeaderLine(key) + ("\r" + (PAD + second))));
  }

  lemma FourKeysScript(script: string)
    requires script == "x\r  evil: |\r    y"
    ensures script == WithKeyBetween("x", "evil", "y")
    ensures OneTextLine("x") && PlainKey("evil") && OneTextLine("y")
  {
    assert HeaderLine("evil") == "  evil: |";
    assert PAD + "y" == "    y";
  }

  lemma FourthKey(scriptType: string, script: string, first: string, key: string, second: string, config: string, launcher: string)
    requires TypeText(scriptType) && FixedText(config) && FixedText(launcher)
    requires OneTextLine(first) && NewKey(scriptType, key) && OneTextLine(second) && script == WithKeyBetween(first, key, second)
    ensures var r := Decode(DataText(scriptType, script, config, launcher));
      r.Some? && |r.value| == 4 && r.value[1] == Entry(key, second + "\n")
  {
    ReturnsAddAnEntry(scriptType, first, key, second, config, launcher);
  }

  /** One such script: it gives the ConfigMap a fourth key. */
  lemma FourKeys(scriptType: string, script: string, config: string, launcher: string)
    requires TypeText(scriptType) && FixedText(config) && FixedText(launcher)
    requires script == "x\r  evil: |\r    y"
    ensures var r := Decode(DataText(scriptType, script, config, launcher));
      r.Some? && |r.value| == 4 && r.value[1] == Entry("evil", "y\n")
  {
    FourKeysScript(script);
    assert CONFIG_KEY[0] == 'j' && LAUNCHER_KEY[0] == 's' && AppKey(scriptType)[0] == 'a' && "evil"[0] == 'e';
    FourthKey(scriptType, script, "x", "evil", "y", config, launcher);
  }

  // ---- When the block has three keys ----

  predicate NoLonger(ls: seq<string>, i: nat, n: nat)
    requires i <= |ls|
  {
    forall j :: 0 <= j < i ==> |ls[j]| <= n
  }

  /** A scalar can begin: its first line with text follows no longer line of blanks. */
  predicate Begins(ls: seq<string>) {
    var i := FirstText(ls);
    i < |ls| && Indentation(ls[i]) > PARENT ==> NoLonger(ls, i, Indentation(ls[i]))
  }

  /** How many lines a scalar below a key takes: none with text if the first is not deeper than the
      key, else all up to one that is less deep than the first. */
  function ScalarEnd(ls: seq<string>): (k: nat)
    ensures k <= |ls|
  {
    var i := FirstText(ls);
    if i == |ls| || Indentation(ls[i]) <= PARENT then i else Extent(ls, Indentation(ls[i]))
  }

  /** The lines of a script a scalar can hold: it can begin, and only comments are left. */
  predicate Aligned(ls: seq<string>) {
    Begins(ls) && Skippable(ls[ScalarEnd(ls)..])
  }

  lemma ExtentThen(ls: seq<string>, others: seq<string>, n: nat)
    requires Closes(others) && others != [] && n > PARENT
    ensures Extent(ls + others, n) == Extent(ls, n)
  {
    ExtentIs(ls + others, n, Extent(ls, n));
  }

  lemma NoLongerThen(ls: seq<string>, others: seq<string>, i: nat, n: nat)
    requires i <= |ls|
    ensures NoLonger(ls + others, i, n) <==> NoLonger(ls, i, n)
  {
    assert forall j :: 0 <= j < i ==> (ls + others)[j] == ls[j];
  }

  lemma ScalarIs(ls: seq<string>, i: nat, n: nat)
    requires i == FirstText(ls) < |ls| && n == Indentation(ls[i]) > PARENT
    ensures ReadScalar(ls).Some? <==> NoLonger(ls, i, n)
    ensures ReadScalar(ls).Some? ==> ReadScalar(ls).value.used == Extent(ls, n)
  {
  }

  lemma EmptyScalar(ls: seq<string>)
    requires FirstText(ls) == |ls| || Indentation(ls[FirstText(ls)]) <= PARENT
    ensures ReadScalar(ls) == Some(Scalar("", FirstText(ls)))
  {
  }

  /** The scalar over such lines. */
  lemma ScalarThen(ls: seq<string>, others: seq<string>)
    requires Closes(others) && others != []
    ensures var r := ReadScalar(ls + others);
      (r.Some? <==> Begins(ls)) && (r.Some? ==> r.value.used == ScalarEnd(ls))
  {
    var i, all := FirstText(ls), ls + others;
    FirstTextThen(ls, others);
    if i < |ls| && Indentation(ls[i]) > PARENT {
      var n := Indentation(ls[i]);
      ExtentThen(ls, others, n);
      NoLongerThen(ls, others, i, n);
      ScalarIs(all, i, n);
    } else {
      assert i == |ls| ==> all[i] == others[0];
      EmptyScalar(all);
    }
  }

  lemma SkippedRead(rest: seq<string>, others: seq<string>)
    requires Skippable(rest) && Closes(others) && others != []
    ensures ReadEntries(rest + others) == ReadEntries(others)
  {
    SkippedThen(rest, others);
    assert (rest + others)[|rest|] == others[0] && (rest + others)[|rest|..] == others;
    NextIsKey(rest + others, |rest|);
    SkipToKey(ReadNext, rest + others, |rest|, others);
  }

  lemma EntryThen(line: string, key: string, ls: seq<string>, s: Scalar, left: seq<string>)
    requires ReadHeader(line) == Some(key) && ReadScalar(ls) == Some(s) && left == ls[s.used..]
    ensures ReadEntries([line] + ls) ==
      match ReadEntries(left)
      case None => None
      case Some(entries) => Some([Entry(key, s.value)] + entries)
  {
    EntryReads(line, key, ls);
  }

  /** The entry for the script, and what its scalar leaves. */
  lemma ScriptEntry(line: string, key: string, ls: seq<string>, others: seq<string>, left: seq<string>) returns (value: string)
    requires ReadHeader(line) == Some(key) && Closes(others) && others != [] && Begins(ls) && left == ls[ScalarEnd(ls)..] + others
    ensures ReadEntries([line] + (ls + others)) ==
      match ReadEntries(left)
      case None => None
      case Some(entries) => Some([Entry(key, value)] + entries)
  {
    ScalarThen(ls, others);
    var s := ReadScalar(ls + others).value;
    assert (ls + others)[s.used..] == left;
    value := s.value;
    EntryThen(line, key, ls + others, s, left);
  }

  lemma BeginsIfRead(line: string, key: string, ls: seq<string>, others: seq<string>)
    requires ReadHeader(line) == Some(key) && Closes(others) && others != [] && ReadEntries([line] + (ls + others)).Some?
    ensures Begins(ls)
  {
    EntryReads(line, key, ls + others);
    ScalarThen(ls, others);
  }

  lemma AlignedReads(line: string, key: string, ls: seq<string>, others: seq<string>, last: seq<Entry>) returns (value: string)
    requires ReadHeader(line) == Some(key) && ReadsAs(others, last) && Aligned(ls)
    ensures ReadEntries([line] + (ls + others)) == Some([Entry(key, value)] + last)
  {
    var rest := ls[ScalarEnd(ls)..];
    value := ScriptEntry(line, key, ls, others, rest + others);
    SkippedRead(rest, others);
  }

  lemma ThreeRead(line: string, key: string, ls: seq<string>, others: seq<string>, last: seq<Entry>)
    requires ReadHeader(line) == Some(key) && ReadsAs(others, last) && ReadEntries([line] + (ls + others)).Some?
    ensures var r := ReadEntries([line] + (ls + others)).value;
      && |r| >= 1 + |last| && r[0].key == key && r[|r| - |last|..] == last
      && (|r| == 1 + |last| <==> Aligned(ls)) && (|r| == 1 + |last| <==> NoKeyLine(ls))
  {
    var rest := ls[ScalarEnd(ls)..];
    BeginsIfRead(line, key, ls, others);
    var value := ScriptEntry(line, key, ls, others, rest + others);
    LastEntries(rest, others, last);
    OneMoreEntry(Entry(key, value), ReadEntries(rest + others).value, last);
    SkippableExactly(rest, others);
    OnlyWhatIsLeft(ls, rest);
  }

  lemma OnlyWhatIsLeft(ls: seq<string>, rest: seq<string>)
    requires rest == ls[ScalarEnd(ls)..]
    ensures NoKeyLine(rest) <==> NoKeyLine(ls)
  {
    TakenAreDeep(ls);
    forall i | 0 <= i < |ls| ensures Blank(ls[i]) ==> Remark(ls[i]) {
      HashIsRemark(ls[i]);
    }
    assert forall i :: ScalarEnd(ls) <= i < |ls| ==> ls[i] == rest[i - ScalarEnd(ls)];
  }

  lemma TakenAreDeep(ls: seq<string>)
    ensures forall i :: 0 <= i < ScalarEnd(ls) ==> Blank(ls[i]) || Indentation(ls[i]) > PARENT
  {
  }

  /** What is decoded is what is read from the rendered lines. */
  lemma DecodedIs(scriptType: string, script: string, config: string, launcher: string)
    requires TypeText(scriptType) && FixedText(config) && FixedText(launcher)
    ensures Decode(DataText(scriptType, script, config, launcher)) ==
      if IsText(script)
      then Distinct(ReadEntries([HeaderLine(AppKey(scriptType))] + (RenderedLines(script) + Lines(OtherEntries(config, launcher)))))
      else None
  {
    KeysArePlain(scriptType);
    DataIsText(scriptType, script, config, launcher);
    DataTextRead(scriptType, script, config, launcher);
  }

  /** The three keys, exactly: whatever the script, the data block can be read and has three keys if and
      only if the script is YAML text whose rendered lines are aligned. The two other entries are then
      as they were written. */
  lemma ThreeKeys(scriptType: string, script: string, config: string, launcher: string)
    requires TypeText(scriptType) && FixedText(config) && FixedText(launcher)
    ensures var r := Decode(DataText(scriptType, script, config, launcher));
      && ((r.Some? && |r.value| == 3) <==> IsText(script) && Aligned(RenderedLines(script)))
      && (r.Some? && |r.value| == 3 ==> r.value[0].key == AppKey(scriptType) && r.value[1..] == FixedEntries(config, launcher))
  {
    var line, ls, others := HeaderLine(AppKey(scriptType)), RenderedLines(script), Lines(OtherEntries(config, launcher));
    var last := FixedEntries(config, launcher);
    DecodedIs(scriptType, script, config, launcher);
    ThreeDiffer(scriptType);
    HeaderReads(AppKey(scriptType));
    OthersRead(config, launcher);
    if Aligned(ls) {
      var value := AlignedReads(line, AppKey(scriptType), ls, others, last);
      ThreeAreDistinct(scriptType, value, config, launcher);
    }
    if ReadEntries([line] + (ls + others)).Some? {
      ThreeRead(line, AppKey(scriptType), ls, others, last);
    }
  }

  /** A block that can be read begins with the script's key and ends with the two other entries as they
      were written; it then has no key but these three if and only if no rendered line of the script
      is where a key would be. */
  lemma KeysWhenRead(scriptType: string, script: string, config: string, launcher: string)
    requires TypeText(scriptType) && FixedText(config) && FixedText(launcher)
    ensures var r := Decode(DataText(scriptType, script, config, launcher));
      r.Some? ==>
        && |r.value| >= 3
        && r.value[0].key == AppKey(scriptType)
        && r.value[|r.value| - 2..] == FixedEntries(config, launcher)
        && (|r.value| == 3 <==> NoKeyLine(RenderedLines(script)))
  {
    var line, ls, others := HeaderLine(AppKey(scriptType)), RenderedLines(script), Lines(OtherEntries(config, launcher));
    DecodedIs(scriptType, script, config, launcher);
    ThreeDiffer(scriptType);
    HeaderReads(AppKey(scriptType));
    OthersRead(config, launcher);
    if ReadEntries([line] + (ls + others)).Some? {
      ThreeRead(line, AppKey(scriptType), ls, others, FixedEntries(config, launcher));
    }
  }

  // ---- Scripts without carriage returns ----

  /** The same condition on the script's own lines, which all are deeper than the keys once padded. */
  predicate AlignedScript(ls: seq<string>) {
    var i := FirstText(ls);
    i < |ls| ==> AlignedFrom(ls, i, Indentation(ls[i]))
  }

  /** A scalar with its first text in line i, indented by n, can hold the lines. */
  predicate AlignedFrom(ls: seq<string>, i: nat, n: nat)
    requires i <= |ls|
  {
    NoLonger(ls, i, n) && Skippable(ls[Extent(ls, n)..])
  }

  lemma AlignedIs(ls: seq<string>, i: nat, n: nat)
    requires i == FirstText(ls) < |ls| && n == Indentation(ls[i]) > PARENT
    ensures Aligned(ls) <==> AlignedFrom(ls, i, n)
  {
  }

  lemma BlanksAligned(ls: seq<string>)
    requires FirstText(ls) == |ls|
    ensures Aligned(ls)
  {
  }

  lemma PadAdds(l: string)
    ensures Indentation(PAD + l) == 4 + Indentation(l) && (Blank(PAD + l) <==> Blank(l))
  {
    var p := PAD + l;
    var n := Indentation(l);
    assert forall j :: 0 <= j < 4 + n ==> p[j] == ' ' by {
      assert forall j :: 4 <= j < 4 + n ==> p[j] == l[j - 4];
    }
    assert n < |l| ==> p[4 + n] == l[n];
    IndentationIs(p, 4 + n);
  }

  lemma PadKeepsRemarks(l: string)
    ensures (Hash(PAD + l) <==> Hash(l)) && (Remark(PAD + l) <==> Remark(l))
  {
    var p := PAD + l;
    PadAdds(l);
    var n := White(l);
    assert forall j :: 0 <= j < 4 + n ==> p[j] == ' ' || p[j] == '\t' by {
      assert forall j :: 4 <= j < 4 + n ==> p[j] == l[j - 4];
    }
    assert n < |l| ==> p[4 + n] == l[n];
    WhiteIs(p, 4 + n);
  }

  lemma PaddedLine(script: string, j: nat)
    requires j < |Lines(script)|
    ensures var l, p := Lines(script)[j], ScriptLines(script)[j];
      && |p| == 4 + |l| && Indentation(p) == 4 + Indentation(l)
      && (Blank(p) <==> Blank(l)) && (Hash(p) <==> Hash(l)) && (Remark(p) <==> Remark(l))
  {
    PadAdds(Lines(script)[j]);
    PadKeepsRemarks(Lines(script)[j]);
  }

  lemma PaddedFirstText(script: string)
    ensures var ls := Lines(script); var k := FirstText(ls);
      FirstText(ScriptLines(script)) == if k < |ls| then k else |ls| + 1
  {
    var ls, padded := Lines(script), ScriptLines(script);
    var k := FirstText(ls);
    PadBlanks();
    forall j | 0 <= j < |ls| ensures Blank(padded[j]) <==> Blank(ls[j]) {
      PaddedLine(script, j);
    }
    FirstTextIs(padded, if k < |ls| then k else |ls| + 1);
  }

  lemma PaddedShort(script: string, i: nat, n: nat)
    requires i <= |Lines(script)|
    ensures NoLonger(ScriptLines(script), i, n + 4) <==> NoLonger(Lines(script), i, n)
  {
    forall j | 0 <= j < i ensures |ScriptLines(script)[j]| == 4 + |Lines(script)[j]| {
      PaddedLine(script, j);
    }
  }

  lemma PaddedExtent(script: string, n: nat)
    ensures var ls, padded := Lines(script), ScriptLines(script); var k := Extent(ls, n);
      Extent(padded, n + 4) == if k < |ls| then k else |padded|
  {
    var ls, padded := Lines(script), ScriptLines(script);
    var k := Extent(ls, n);
    PadBlanks();
    forall j | 0 <= j < |ls|
      ensures (Blank(padded[j]) <==> Blank(ls[j])) && Indentation(padded[j]) == 4 + Indentation(ls[j])
    {
      PaddedLine(script, j);
    }
    ExtentIs(padded, n + 4, if k < |ls| then k else |padded|);
  }

  lemma SkippableFrom(ls: seq<string>, from: nat)
    requires from < |ls| && !Blank(ls[from])
    ensures Skippable(ls[from..]) <==> Hash(ls[from]) && forall j :: from <= j < |ls| ==> Remark(ls[j])
  {
    FirstTextIs(ls[from..], 0);
    assert forall j :: from <= j < |ls| ==> ls[j] == ls[from..][j - from];
  }

  lemma PaddedSkippable(script: string, from: nat)
    requires from < |Lines(script)| && !Blank(Lines(script)[from])
    ensures Skippable(ScriptLines(script)[from..]) <==> Skippable(Lines(script)[from..])
  {
    var ls, padded := Lines(script), ScriptLines(script);
    forall j | from <= j < |ls| ensures Remark(padded[j]) <==> Remark(ls[j]) {
      PaddedLine(script, j);
    }
    PaddedLine(script, from);
    HashIsRemark(PAD);
    PadBlanks();
    SkippableFrom(ls, from);
    SkippableFrom(padded, from);
  }

  lemma PaddedAlignedFrom(script: string, i: nat, n: nat)
    requires i <= |Lines(script)|
    ensures AlignedFrom(ScriptLines(script), i, n + 4) <==> AlignedFrom(Lines(script), i, n)
  {
    var k := Extent(Lines(script), n);
    PaddedShort(script, i, n);
    PaddedExtent(script, n);
    if k < |Lines(script)| {
      PaddedSkippable(script, k);
    }
  }

  lemma PaddedAligned(script: string)
    ensures Aligned(ScriptLines(script)) <==> AlignedScript(Lines(script))
  {
    var ls, padded := Lines(script), ScriptLines(script);
    var i := FirstText(ls);
    PaddedFirstText(script);
    if i < |ls| {
      PaddedLine(script, i);
      PaddedAlignedFrom(script, i, Indentation(ls[i]));
      AlignedIs(padded, i, Indentation(ls[i]) + 4);
    } else {
      BlanksAligned(padded);
    }
  }

  /** Without carriage returns the data block can be read exactly if the script is YAML text and its
      lines are aligned; it has three keys then. */
  lemma ReadableExactly(scriptType: string, script: string, config: string, launcher: string)
    requires TypeText(scriptType) && FixedText(config) && FixedText(launcher) && '\r' !in script
    ensures var r := Decode(DataText(scriptType, script, config, launcher));
      (r.Some? <==> IsText(script) && AlignedScript(Lines(script))) && (r.Some? ==> |r.value| == 3)
  {
    NoReturnsNoKeys(script);
    PaddedAligned(script);
    ThreeKeys(scriptType, script, config, launcher);
    KeysWhenRead(scriptType, script, config, launcher);
  }

  lemma BlankLinesRead(line: string, key: string, ls: seq<string>, others: seq<string>, last: seq<Entry>)
    requires ReadHeader(line) == Some(key) && FirstText(ls) == |ls| && ReadsAs(others, last)
    ensures ReadEntries([line] + (ls + others)) == Some([Entry(key, "")] + last)
  {
    FirstTextThen(ls, others);
    EmptyScalar(ls + others);
    assert (ls + others)[|ls|..] == others;
    EntryReads(line, key, ls + others);
  }

  /** An empty script comes out empty. */
  lemma EmptyScript(scriptType: string, config: string, launcher: string)
    requires TypeText(scriptType) && FixedText(config) && FixedText(launcher)
    ensures Decode(DataText(scriptType, "", config, launcher)) == Some([Entry(AppKey(scriptType), "")] + FixedEntries(config, launcher))
  {
    var key := AppKey(scriptType);
    DecodedIs(scriptType, "", config, launcher);
    NoReturnsNoKeys("");
    PadBlanks();
    assert ScriptLines("") == [PAD, PAD] by {
      assert Lines("") == [""] && PAD + "" == PAD;
    }
    FirstTextIs([PAD, PAD], 2);
    OthersRead(config, launcher);
    ThreeDiffer(scriptType);
    HeaderReads(key);
    BlankLinesRead(HeaderLine(key), key, [PAD, PAD], Lines(OtherEntries(config, launcher)), FixedEntries(config, launcher));
    ThreeAreDistinct(scriptType, "", config, launcher);
  }
}
