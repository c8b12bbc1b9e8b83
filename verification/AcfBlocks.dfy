/** ACF templates: a sequence of lines in which `$begin 'name'` and `$end 'name'` nest.
    A text is the sequence of its lines, split at each newline. */
module AcfBlocks {

  datatype Option<+T> = None | Some(value: T)

  type Line = string
  type Path = seq<string>

  // ----- one line -----

  datatype Tag = Begin(name: string) | End(name: string) | Malformed | Plain

  predicate Blank(c: char) { c == ' ' || c == '\t' }
  predicate Space(c: char) { Blank(c) || c == '\r' || c == '\n' || c as int == 11 || c as int == 12 }

  function DropSpaces(s: string): string {
    if s != [] && Space(s[0]) then DropSpaces(s[1..]) else s
  }

  function DropLastSpaces(s: string): string {
    if s != [] && Space(s[|s| - 1]) then DropLastSpaces(s[..|s| - 1]) else s
  }

  function Strip(s: string): string { DropLastSpaces(DropSpaces(s)) }

  predicate StartsWith(s: string, prefix: string) {
    |prefix| <= |s| && s[..|prefix|] == prefix
  }

  /** The name in `keyword 'name'`, where white space separates the two. */
  function Quoted(s: string, keyword: string): Option<string> {
    if !StartsWith(s, keyword) then None
    else
      var rest := s[|keyword|..];
      var quoted := DropSpaces(rest);
      if rest == [] || !Space(rest[0]) || |quoted| < 3 || quoted[0] != '\'' || quoted[|quoted| - 1] != '\''
         || '\'' in quoted[1..|quoted| - 1] then None
      else Some(quoted[1..|quoted| - 1])
  }

  function TagOf(line: Line): Tag {
    var s := Strip(line);
    if Quoted(s, "$begin").Some? then Begin(Quoted(s, "$begin").value)
    else if Quoted(s, "$end").Some? then End(Quoted(s, "$end").value)
    else if StartsWith(s, "$begin") || StartsWith(s, "$end") then Malformed
    else Plain
  }

  function Tags(lines: seq<Line>): (tags: seq<Tag>)
    ensures |tags| == |lines| && forall i :: 0 <= i < |lines| ==> tags[i] == TagOf(lines[i])
  {
    seq(|lines|, i requires 0 <= i < |lines| => TagOf(lines[i]))
  }

  // ----- well-nested blocks -----

  datatype Forest = Empty | Text(rest: Forest) | Block(name: string, body: Forest, rest: Forest)

  function Print(f: Forest): seq<Tag> {
    match f
    case Empty => []
    case Text(rest) => [Plain] + Print(rest)
    case Block(name, body, rest) => [Begin(name)] + Print(body) + [End(name)] + Print(rest)
  }

  predicate Prints(f: Forest, tags: seq<Tag>) { Print(f) == tags }

  /** The ancestor chains of all blocks. */
  function Chains(f: Forest, above: Path): set<Path> {
    match f
    case Empty => {}
    case Text(rest) => Chains(rest, above)
    case Block(name, body, rest) => {above + [name]} + Chains(body, above + [name]) + Chains(rest, above)
  }

  // ----- the stack scan -----

  /** The paths the scan collects, or None when it rejects. */
  function Scan(tags: seq<Tag>, stack: Path, paths: set<Path>): Option<set<Path>>
    decreases |tags|
  {
    if tags == [] then (if stack == [] then Some(paths) else None)
    else match tags[0]
      case Begin(name) => Scan(tags[1..], stack + [name], paths + {stack + [name]})
      case End(name) =>
        if stack == [] || stack[|stack| - 1] != name then None
        else Scan(tags[1..], stack[..|stack| - 1], paths)
      case Plain => Scan(tags[1..], stack, paths)
      case Malformed => None
  }

  /** Scanning a printed forest adds exactly its ancestor chains. */
  lemma {:induction false} ScanPrint(f: Forest, after: seq<Tag>, stack: Path, paths: set<Path>)
    ensures Scan(Print(f) + after, stack, paths) == Scan(after, stack, paths + Chains(f, stack))
    decreases f
  {
    match f
    case Empty =>
      assert Print(f) + after == after && paths + Chains(f, stack) == paths;
    case Text(rest) =>
      assert (Print(f) + after)[1..] == Print(rest) + after;
      ScanPrint(rest, after, stack, paths);
    case Block(name, body, rest) =>
      var inner := stack + [name];
      var tail := [End(name)] + Print(rest) + after;
      assert (Print(f) + after)[1..] == Print(body) + tail;
      ScanPrint(body, tail, inner, paths + {inner});
      var p := paths + {inner} + Chains(body, inner);
      assert tail[1..] == Print(rest) + after && inner[..|inner| - 1] == stack;
      ScanPrint(rest, after, stack, p);
      assert p + Chains(rest, stack) == paths + Chains(f, stack);
  }

  /** Items up to the first unmatched end. */
  function Parse(tags: seq<Tag>): (r: (Forest, seq<Tag>))
    ensures |r.1| <= |tags|
    decreases |tags|
  {
    if tags == [] then (Empty, [])
    else match tags[0]
      case Plain => var (f, left) := Parse(tags[1..]); (Text(f), left)
      case Begin(name) =>
        var (body, left) := Parse(tags[1..]);
        if left == [] then (Empty, tags)
        else var (rest, last) := Parse(left[1..]); (Block(name, body, rest), last)
      case _ => (Empty, tags)
  }

  /** The parse stops where the innermost open block ends. */
  ghost predicate StopsAt(tags: seq<Tag>, f: Forest, left: seq<Tag>, stack: Path, paths: set<Path>) {
    && tags == Print(f) + left
    && (stack == [] ==> left == [])
    && (stack != [] ==> left != [] && left[0] == End(stack[|stack| - 1])
                        && Scan(left[1..], stack[..|stack| - 1], paths + Chains(f, stack)).Some?)
  }

  lemma {:induction false} ScanParse(tags: seq<Tag>, stack: Path, paths: set<Path>)
    requires Scan(tags, stack, paths).Some?
    ensures StopsAt(tags, Parse(tags).0, Parse(tags).1, stack, paths)
    decreases |tags|
  {
    hide Scan, Parse, StopsAt;
    ScanHead(tags, stack, paths);
    if tags == [] || tags[0].End? {
      AtEnd(tags, stack, paths);
    } else if tags[0].Plain? {
      ScanParse(tags[1..], stack, paths);
      TextStops(tags, Parse(tags[1..]).0, Parse(tags[1..]).1, stack, paths);
      ParseText(tags);
    } else {
      var name := tags[0].name;
      var inner := stack + [name];
      ScanParse(tags[1..], inner, paths + {inner});
      var body, left := Parse(tags[1..]).0, Parse(tags[1..]).1;
      BodyStops(tags, name, body, left, stack, paths);
      ScanParse(left[1..], stack, paths + {inner} + Chains(body, inner));
      var rest, last := Parse(left[1..]).0, Parse(left[1..]).1;
      BlockStops(tags, name, body, left, rest, last, stack, paths);
      ParseBlock(tags);
    }
  }

  lemma ScanHead(tags: seq<Tag>, stack: Path, paths: set<Path>)
    requires Scan(tags, stack, paths).Some?
    ensures tags != [] ==> !tags[0].Malformed?
    ensures tags != [] && tags[0].Plain? ==> Scan(tags[1..], stack, paths).Some?
    ensures tags != [] && tags[0].Begin? ==>
      Scan(tags[1..], stack + [tags[0].name], paths + {stack + [tags[0].name]}).Some?
  {
  }

  lemma AtEnd(tags: seq<Tag>, stack: Path, paths: set<Path>)
    requires Scan(tags, stack, paths).Some? && (tags == [] || tags[0].End?)
    ensures StopsAt(tags, Parse(tags).0, Parse(tags).1, stack, paths)
  {
    assert paths + Chains(Empty, stack) == paths;
  }

  lemma TextStops(tags: seq<Tag>, f: Forest, left: seq<Tag>, stack: Path, paths: set<Path>)
    requires tags != [] && tags[0].Plain? && StopsAt(tags[1..], f, left, stack, paths)
    ensures StopsAt(tags, Text(f), left, stack, paths)
  {
    assert tags == [Plain] + tags[1..];
    hide Scan;
  }

  lemma ParseText(tags: seq<Tag>)
    requires tags != [] && tags[0].Plain?
    ensures Parse(tags) == (Text(Parse(tags[1..]).0), Parse(tags[1..]).1)
  {
  }

  lemma ParseBlock(tags: seq<Tag>)
    requires tags != [] && tags[0].Begin? && Parse(tags[1..]).1 != []
    ensures
      var r := Parse(tags[1..]);
      var q := Parse(r.1[1..]);
      Parse(tags) == (Block(tags[0].name, r.0, q.0), q.1)
  {
  }

  lemma BodyStops(tags: seq<Tag>, name: string, body: Forest, left: seq<Tag>, stack: Path, paths: set<Path>)
    requires tags != [] && StopsAt(tags[1..], body, left, stack + [name], paths + {stack + [name]})
    ensures left != [] && left[0] == End(name) && |left| < |tags|
    ensures Scan(left[1..], stack, paths + {stack + [name]} + Chains(body, stack + [name])).Some?
  {
    var inner := stack + [name];
    assert inner[..|inner| - 1] == stack && inner[|inner| - 1] == name;
  }

  lemma BlockStops(tags: seq<Tag>, name: string, body: Forest, left: seq<Tag>, rest: Forest, last: seq<Tag>,
                   stack: Path, paths: set<Path>)
    requires tags != [] && tags[0] == Begin(name) && left != [] && left[0] == End(name)
    requires StopsAt(tags[1..], body, left, stack + [name], paths + {stack + [name]})
    requires StopsAt(left[1..], rest, last, stack, paths + {stack + [name]} + Chains(body, stack + [name]))
    ensures StopsAt(tags, Block(name, body, rest), last, stack, paths)
  {
    hide Scan;
    var inner := stack + [name];
    assert left == [End(name)] + left[1..] && tags == [Begin(name)] + tags[1..];
    assert paths + {inner} + Chains(body, inner) + Chains(rest, stack) == paths + Chains(Block(name, body, rest), stack);
  }

  /** The scan accepts exactly the well-nested sequences, and collects exactly the
      ancestor chains of their blocks. */
  lemma ScanMeansNested(tags: seq<Tag>)
    ensures Scan(tags, [], {}).Some? <==> exists f :: Prints(f, tags)
    ensures forall f :: Prints(f, tags) ==> Scan(tags, [], {}) == Some(Chains(f, []))
  {
    if Scan(tags, [], {}).Some? {
      ScanParse(tags, [], {});
      var f := Parse(tags).0;
      assert Print(f) + [] == Print(f);
      assert Prints(f, tags);
    }
    forall f | Prints(f, tags)
      ensures Scan(tags, [], {}) == Some(Chains(f, []))
    {
      ScanPrint(f, [], [], {});
      assert Print(f) + [] == tags && {} + Chains(f, []) == Chains(f, []);
    }
  }

  // ----- settings -----

  function Blanks(s: string): (n: nat)
    ensures n <= |s|
  {
    if s != [] && Blank(s[0]) then 1 + Blanks(s[1..]) else 0
  }

  /** Where the value starts in a line `key = value`, or None. */
  function ValueAt(line: Line, key: string): (r: Option<nat>)
    ensures r.Some? ==> r.value <= |line|
  {
    var a := Blanks(line);
    if !StartsWith(line[a..], key) then None
    else
      var b := a + |key| + Blanks(line[a + |key|..]);
      if b < |line| && line[b] == '=' then Some(b + 1) else None
  }

  predicate Sets(line: Line, key: string) { ValueAt(line, key).Some? }

  /** A name that the pattern of a setting can only match as a whole. */
  predicate IsKey(key: string) {
    key != [] && (forall i :: 0 <= i < |key| ==> !Space(key[i]) && key[i] != '=' && key[i] != '$')
  }

  function SettingLines(lines: seq<Line>, key: string): set<nat> {
    set i: nat | i < |lines| && Sets(lines[i], key)
  }

  const KEYS: seq<string> :=
    ["ConfigName", "DesignType", "NumEngines", "NumCores", "NumGPUs", "UseAutoSettings"]

  const DSO_ROOT: Path := ["Configs", "Configs", "DSOConfig"]

  const REQUIRED: set<Path> := {
    ["Configs"], ["Configs", "Configs"], DSO_ROOT,
    DSO_ROOT + ["DSOMachineList"], DSO_ROOT + ["DSOMachineList", "DSOMachineInfo"],
    DSO_ROOT + ["DSOJobDistributionInfo"], DSO_ROOT + ["DSOMachineOptionsInfo"]}

  ghost predicate OneEach(lines: seq<Line>) {
    forall k :: k in KEYS ==> |SettingLines(lines, k)| == 1
  }

  /** A template is accepted when its blocks nest, the required blocks exist, and each
      setting has exactly one line. */
  ghost predicate Accepted(lines: seq<Line>) {
    WellNested(lines) && OneEach(lines)
  }

  ghost predicate WellNested(lines: seq<Line>) {
    exists f :: Prints(f, Tags(lines)) && REQUIRED <= Chains(f, [])
  }

  // ----- the validator -----

  lemma OneMoreLine(lines: seq<Line>, i: nat, key: string)
    requires i < |lines|
    ensures SettingLines(lines[..i + 1], key) == SettingLines(lines[..i], key) + (if Sets(lines[i], key) then {i} else {})
    ensures i !in SettingLines(lines[..i], key)
  {
    hide ValueAt;
  }

  /** Count the lines that set a key. */
  method CountSettings(lines: seq<Line>, key: string) returns (n: nat)
    ensures n == |SettingLines(lines, key)|
  {
    n := 0;
    assert SettingLines([], key) == {};
    for i := 0 to |lines|
      invariant n == |SettingLines(lines[..i], key)|
    {
      OneMoreLine(lines, i, key);
      if Sets(lines[i], key) {
        n := n + 1;
      }
    }
    assert lines[..|lines|] == lines;
  }

  /** The line loop with its stack of open blocks and its set of paths. */
  method ScanLines(lines: seq<Line>) returns (ok: bool, paths: set<Path>)
    ensures ok <==> exists f :: Prints(f, Tags(lines))
    ensures ok ==> forall f :: Prints(f, Tags(lines)) ==> paths == Chains(f, [])
  {
    ghost var tags := Tags(lines);
    var stack: Path := [];
    paths := {};
    ScanMeansNested(tags);
    for i := 0 to |lines|
      invariant Scan(tags, [], {}) == Scan(tags[i..], stack, paths)
    {
      var tag := TagOf(lines[i]);
      assert tags[i..][0] == tag && tags[i..][1..] == tags[i + 1..];
      match tag
      case Begin(name) =>
        stack := stack + [name];
        paths := paths + {stack};
      case End(name) =>
        if stack == [] || stack[|stack| - 1] != name {
          return false, paths;
        }
        stack := stack[..|stack| - 1];
      case Malformed =>
        return false, paths;
      case Plain =>
    }
    ok := stack == [];
  }

  method Validate(lines: seq<Line>) returns (ok: bool)
    ensures ok <==> Accepted(lines)
  {
    var nested, paths := ScanLines(lines);
    ok := nested && REQUIRED <= paths;
    assert ok <==> WellNested(lines) by {
      if WellNested(lines) {
        var f :| Prints(f, Tags(lines)) && REQUIRED <= Chains(f, []);
        assert paths == Chains(f, []);
      }
    }
    for i := 0 to |KEYS|
      invariant ok <==> WellNested(lines) && forall k :: 0 <= k < i ==> |SettingLines(lines, KEYS[k])| == 1
    {
      var n := CountSettings(lines, KEYS[i]);
      ok := ok && n == 1;
    }
    assert OneEach(lines) <==> forall k :: 0 <= k < |KEYS| ==> |SettingLines(lines, KEYS[k])| == 1;
  }
}
