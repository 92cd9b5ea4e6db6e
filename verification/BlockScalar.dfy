/** The way of a script into its ConfigMap and out again. The template indents the script by four and
    puts it into a literal block scalar with clip chomping (models/configs.go); it is read back by
    the rules of YAML 1.2, sections 6.6, 8.1.1.1, 8.1.1.2 and 8.1.2. */
module BlockScalar {
  import opened Options

  // ---- Lines ----

  function Lines(s: string): (ls: seq<string>)
    ensures |ls| > 0
  {
    if s == "" then [""]
    else
      var rest := Lines(s[1..]);
      if s[0] == '\n' then [""] + rest else [[s[0]] + rest[0]] + rest[1..]
  }

  function Unlines(ls: seq<string>): string {
    if ls == [] then "" else ls[0] + "\n" + Unlines(ls[1..])
  }

  lemma {:induction false} LinesJoined(a: string, b: string)
    ensures Lines(a + "\n" + b) == Lines(a) + Lines(b)
  {
    if a == "" {
      assert (a + "\n" + b)[1..] == b;
    } else {
      assert (a + "\n" + b)[1..] == a[1..] + "\n" + b;
      LinesJoined(a[1..], b);
    }
  }

  lemma UnlinesFirst(line: string, rest: seq<string>)
    ensures Unlines([line] + rest) == line + "\n" + Unlines(rest)
  {
    assert ([line] + rest)[1..] == rest;
  }

  lemma CharFirst(c: char, a: string, b: string)
    ensures [c] + a + "\n" + b == [c] + (a + "\n" + b)
  {
  }

  lemma UnlinesLonger(c: char, line: string, rest: seq<string>)
    ensures Unlines([[c] + line] + rest) == [c] + Unlines([line] + rest)
  {
    UnlinesFirst([c] + line, rest);
    UnlinesFirst(line, rest);
    CharFirst(c, line, Unlines(rest));
  }

  lemma {:induction false} UnlinesLines(s: string)
    ensures Unlines(Lines(s)) == s + "\n"
  {
    if s == "" {
    } else {
      UnlinesLines(s[1..]);
      assert s == [s[0]] + s[1..];
      if s[0] == '\n' {
        UnlinesFirst("", Lines(s[1..]));
      } else {
        var ls := Lines(s[1..]);
        UnlinesLonger(s[0], ls[0], ls[1..]);
        assert [ls[0]] + ls[1..] == ls;
        assert [s[0]] + (s[1..] + "\n") == s + "\n";
      }
    }
  }

  // ---- Rendering: sprig's indent, by four ----

  const PAD := "    "

  function IndentRest(s: string): string {
    if s == "" then ""
    else (if s[0] == '\n' then "\n" + PAD else [s[0]]) + IndentRest(s[1..])
  }

  function Indent(s: string): string {
    PAD + IndentRest(s)
  }

  function Padded(ls: seq<string>): seq<string> {
    seq(|ls|, i requires 0 <= i < |ls| => PAD + ls[i])
  }

  lemma {:induction false} PrefixedLines(p: string, s: string)
    requires '\n' !in p
    ensures Lines(p + s) == [p + Lines(s)[0]] + Lines(s)[1..]
  {
    if p == "" {
      assert p + s == s && p + Lines(s)[0] == Lines(s)[0];
    } else {
      assert (p + s)[1..] == p[1..] + s;
      PrefixedLines(p[1..], s);
      assert [p[0]] + (p[1..] + Lines(s)[0]) == p + Lines(s)[0];
      assert (p + s)[0] == p[0];
    }
  }

  lemma LinesBreak(s: string)
    ensures Lines("\n" + s) == [""] + Lines(s)
  {
    assert ("\n" + s)[1..] == s;
  }

  lemma LinesChar(c: char, s: string)
    requires c != '\n'
    ensures Lines([c] + s) == [[c] + Lines(s)[0]] + Lines(s)[1..]
  {
    assert ([c] + s)[1..] == s;
  }

  lemma PaddedFirst(l: string, ls: seq<string>)
    ensures Padded([l] + ls) == [PAD + l] + Padded(ls)
  {
  }

  lemma IndentedBreak(rest: string, text: string)
    requires Lines(IndentRest(rest)) == [Lines(rest)[0]] + Padded(Lines(rest)[1..]) && text == "\n" + (PAD + IndentRest(rest))
    ensures Lines(text) == [""] + Padded(Lines(rest))
  {
    var ls := Lines(rest);
    LinesBreak(PAD + IndentRest(rest));
    PrefixedLines(PAD, IndentRest(rest));
    PaddedFirst(ls[0], ls[1..]);
    assert [ls[0]] + ls[1..] == ls;
  }

  lemma {:induction false} IndentRestLines(s: string)
    ensures Lines(IndentRest(s)) == [Lines(s)[0]] + Padded(Lines(s)[1..])
  {
    if s == "" {
    } else {
      var c, rest := s[0], s[1..];
      IndentRestLines(rest);
      assert s == [c] + rest;
      if c == '\n' {
        assert IndentRest(s) == "\n" + (PAD + IndentRest(rest));
        IndentedBreak(rest, IndentRest(s));
        LinesBreak(rest);
      } else {
        LinesChar(c, IndentRest(rest));
        LinesChar(c, rest);
      }
    }
  }

  /** Indenting puts the pad in front of every line. */
  lemma IndentLines(s: string)
    ensures Lines(Indent(s)) == Padded(Lines(s))
  {
    IndentRestLines(s);
    PrefixedLines(PAD, IndentRest(s));
    assert [PAD + Lines(s)[0]] + Padded(Lines(s)[1..]) == Padded(Lines(s));
  }

  // ---- Reading a literal block scalar ----

  function Indentation(l: string): (n: nat)
    ensures n <= |l| && (n < |l| ==> l[n] != ' ')
    ensures forall i :: 0 <= i < n ==> l[i] == ' '
  {
    if l != "" && l[0] == ' ' then 1 + Indentation(l[1..]) else 0
  }

  predicate Blank(l: string) {
    Indentation(l) == |l|
  }

  /** The first line that is not blank. */
  function FirstText(ls: seq<string>): (i: nat)
    ensures i <= |ls| && (i < |ls| ==> !Blank(ls[i]))
    ensures forall j :: 0 <= j < i ==> Blank(ls[j])
  {
    if ls == [] || !Blank(ls[0]) then 0 else 1 + FirstText(ls[1..])
  }

  /** How many lines a scalar of indentation n goes on for. */
  function Extent(ls: seq<string>, n: nat): (k: nat)
    ensures k <= |ls|
    ensures forall j :: 0 <= j < k ==> Blank(ls[j]) || Indentation(ls[j]) >= n
    ensures k < |ls| ==> !Blank(ls[k]) && Indentation(ls[k]) < n
  {
    if ls == [] || !(Blank(ls[0]) || Indentation(ls[0]) >= n) then 0 else 1 + Extent(ls[1..], n)
  }

  function Content(l: string, n: nat): string {
    if |l| <= n then "" else l[n..]
  }

  function Contents(ls: seq<string>, n: nat): seq<string> {
    seq(|ls|, i requires 0 <= i < |ls| => Content(ls[i], n))
  }

  /** Clip chomping: the empty lines at the end go, but for the last line's break. */
  function Clipped(ls: seq<string>): seq<string> {
    if ls != [] && ls[|ls|-1] == "" then Clipped(ls[..|ls|-1]) else ls
  }

  datatype Scalar = Scalar(value: string, used: nat)

  const PARENT := 2

  /** A scalar below a key of the data block. Its indentation is that of its first line with text;
      blank lines before that one must not be longer. */
  function ReadScalar(ls: seq<string>): (r: Option<Scalar>)
    ensures r.Some? ==> r.value.used <= |ls|
  {
    var i := FirstText(ls);
    if i == |ls| || Indentation(ls[i]) <= PARENT then Some(Scalar("", i))
    else
      var n := Indentation(ls[i]);
      if exists j :: 0 <= j < i && |ls[j]| > n then None
      else
        var used := Extent(ls, n);
        Some(Scalar(Unlines(Clipped(Contents(ls[..used], n))), used))
  }

  // ---- Comments ----

  /** A line whose first character after its blanks is a number sign. */
  predicate Hash(l: string) {
    Indentation(l) < |l| && l[Indentation(l)] == '#'
  }

  /** The blanks and tabs a line begins with. */
  function White(l: string): (n: nat)
    ensures n <= |l| && (n < |l| ==> l[n] != ' ' && l[n] != '\t')
    ensures forall i :: 0 <= i < n ==> l[i] == ' ' || l[i] == '\t'
  {
    if l != "" && (l[0] == ' ' || l[0] == '\t') then 1 + White(l[1..]) else 0
  }

  /** A comment line, possibly without a comment. */
  predicate Remark(l: string) {
    White(l) < |l| ==> l[White(l)] == '#'
  }

  function Remarks(ls: seq<string>): (k: nat)
    ensures k <= |ls| && (k < |ls| ==> !Remark(ls[k]))
    ensures forall j :: 0 <= j < k ==> Remark(ls[j])
  {
    if ls == [] || !Remark(ls[0]) then 0 else 1 + Remarks(ls[1..])
  }

  /** How many lines are passed over after a scalar: those without text, and from a line on that
      begins with a number sign all comment lines. Only these may be indented by tabs. */
  function Skipped(ls: seq<string>): (k: nat)
    ensures k <= |ls|
  {
    var i := FirstText(ls);
    if i < |ls| && Hash(ls[i]) then i + Remarks(ls[i..]) else i
  }

  // ---- Reading the data block ----

  datatype Entry = Entry(key: string, value: string)

  const HEADER_END := ": |"

  function HeaderLine(key: string): string {
    "  " + key + HEADER_END
  }

  /** The characters the keys of a ConfigMap consist of. */
  predicate KeyChar(c: char) {
    'a' <= c <= 'z' || 'A' <= c <= 'Z' || '0' <= c <= '9' || c == '.' || c == '_' || c == '-'
  }

  predicate KeyText(s: string) {
    forall i :: 0 <= i < |s| ==> KeyChar(s[i])
  }

  predicate PlainKey(s: string) {
    s != "" && KeyText(s)
  }

  function ReadHeader(l: string): (r: Option<string>)
    ensures r.Some? ==> Indentation(l) == PARENT && PlainKey(r.value)
  {
    if Indentation(l) == PARENT && |l| > PARENT + 3 && l[|l|-3..] == HEADER_END && KeyText(l[PARENT..|l|-3])
    then Some(l[PARENT..|l|-3]) else None
  }

  /** What comes next: nothing, something that cannot be read, or an entry and the lines up to its end. */
  datatype Next = End | Broken | Taken(entry: Entry, lines: nat)

  /** An entry: the line of its key, and a scalar. */
  function ReadEntry(line: string, rest: seq<string>): (r: Next)
    ensures !r.End? && (r.Taken? ==> 0 < r.lines <= 1 + |rest|)
  {
    match ReadHeader(line)
    case None => Broken
    case Some(key) =>
      match ReadScalar(rest)
      case None => Broken
      case Some(s) => Taken(Entry(key, s.value), 1 + s.used)
  }

  /** What comes next, if it comes after k lines more. */
  function After(r: Next, k: nat): Next {
    match r
    case Taken(entry, lines) => Taken(entry, k + lines)
    case _ => r
  }

  function NextAt(ls: seq<string>, k: nat): (r: Next)
    requires k <= |ls|
    ensures r.Taken? ==> k < r.lines <= |ls|
  {
    if k == |ls| then End else After(ReadEntry(ls[k], ls[k + 1..]), k)
  }

  function ReadNext(ls: seq<string>): Next {
    NextAt(ls, Skipped(ls))
  }

  /** The entries of the block, given how the next one is read. */
  function EntriesBy(next: seq<string> -> Next, ls: seq<string>): Option<seq<Entry>>
    decreases |ls|
  {
    match next(ls)
    case End => Some([])
    case Broken => None
    case Taken(entry, lines) =>
      if !(0 < lines <= |ls|) then None
      else
        match EntriesBy(next, ls[lines..])
        case None => None
        case Some(entries) => Some([entry] + entries)
  }

  function ReadEntries(ls: seq<string>): Option<seq<Entry>> {
    EntriesBy(ReadNext, ls)
  }

  /** Any line break is read as a line feed. */
  function Normalised(s: string): string {
    if s == "" then ""
    else if s[0] != '\r' then [s[0]] + Normalised(s[1..])
    else if |s| > 1 && s[1] == '\n' then Normalised(s[1..])
    else "\n" + Normalised(s[1..])
  }

  /** The characters YAML text may consist of (sections 5.1 and 5.4). */
  predicate TextChar(c: char) {
    var u := c as int;
    || c == '\t' || c == '\n' || c == '\r' || 0x20 <= u <= 0x7E || u == 0x85
    || 0xA0 <= u <= 0xD7FF || (0xE000 <= u <= 0xFFFD && u != 0xFEFF) || 0x10000 <= u
  }

  predicate IsText(s: string) {
    forall i :: 0 <= i < |s| ==> TextChar(s[i])
  }

  predicate DistinctKeys(entries: seq<Entry>) {
    forall i, j :: 0 <= i < j < |entries| ==> entries[i].key != entries[j].key
  }

  /** A mapping has no key twice (section 3.2.1.1). */
  function Distinct(r: Option<seq<Entry>>): Option<seq<Entry>> {
    if r.Some? && DistinctKeys(r.value) then r else None
  }

  function Decode(text: string): Option<seq<Entry>> {
    if IsText(text) then Distinct(ReadEntries(Lines(Normalised(text)))) else None
  }

  // ---- The ConfigMap of a DaskJob ----

  const CONFIG_KEY := "jupyter_notebook_config.py"
  const LAUNCHER_KEY := "start-dask-job.sh"

  function AppKey(scriptType: string): string {
    "app." + scriptType
  }

  /** Everything after the script; the texts of the other two entries are fixed up to the script
      type and whether the file is mounted. */
  function OtherEntries(config: string, launcher: string): string {
    HeaderLine(CONFIG_KEY) + "\n" + (config + "\n" + (HeaderLine(LAUNCHER_KEY) + "\n" + launcher))
  }

  function DataText(scriptType: string, script: string, config: string, launcher: string): string {
    HeaderLine(AppKey(scriptType)) + "\n" + (Indent(script) + "\n" + (PAD + "\n" + OtherEntries(config, launcher)))
  }
}
