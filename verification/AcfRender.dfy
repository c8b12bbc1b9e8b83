/** Rendering a template: every setting gets its value, everything else stays. */
module AcfRender {
  import opened AcfBlocks

  function SetValue(line: Line, key: string, value: string): Line {
    if Sets(line, key) then line[..ValueAt(line, key).value] + value else line
  }

  function RenderKey(lines: seq<Line>, key: string, value: string): (out: seq<Line>)
    ensures |out| == |lines| && forall i :: 0 <= i < |lines| ==> out[i] == SetValue(lines[i], key, value)
  {
    seq(|lines|, i requires 0 <= i < |lines| => SetValue(lines[i], key, value))
  }

  /** The first `n` keys in the renderer's order. */
  function RenderKeys(lines: seq<Line>, values: seq<string>, n: nat): (out: seq<Line>)
    requires n <= |KEYS| && |values| == |KEYS|
    ensures |out| == |lines|
  {
    if n == 0 then lines else RenderKey(RenderKeys(lines, values, n - 1), KEYS[n - 1], values[n - 1])
  }

  /** Exactly one newline at the end. */
  function DropEmptyTail(lines: seq<Line>): seq<Line> {
    if lines != [] && lines[|lines| - 1] == "" then DropEmptyTail(lines[..|lines| - 1]) else lines
  }

  function Tidy(lines: seq<Line>): seq<Line> { DropEmptyTail(lines) + [""] }

  function RenderText(lines: seq<Line>, values: seq<string>): seq<Line>
    requires |values| == |KEYS|
  {
    Tidy(RenderKeys(lines, values, |KEYS|))
  }

  // ----- one line -----

  lemma KeysAreKeys()
    ensures forall k :: k in KEYS ==> IsKey(k)
    ensures forall i, j :: 0 <= i < j < |KEYS| ==> KEYS[i] != KEYS[j]
  {
    forall k | k in KEYS
      ensures IsKey(k)
    {
      if k == KEYS[0] {
      } else if k == KEYS[1] {
      } else if k == KEYS[2] {
      } else if k == KEYS[3] {
      } else if k == KEYS[4] {
      } else {
        assert k == KEYS[5];
      }
    }
  }

  /** After the key of a setting comes a blank or the equals sign. */
  lemma AfterKey(line: Line, key: string)
    requires Sets(line, key)
    ensures
      var a := Blanks(line);
      && a + |key| < |line| && line[a..a + |key|] == key
      && (Blank(line[a + |key|]) || line[a + |key|] == '=')
  {
    hide Blanks, StartsWith;
    var a := Blanks(line);
    var m := a + |key|;
    Found(line, key);
    StartMeans(line[a..], key);
    assert line[a..][..|key|] == line[a..m];
    FirstBlank(line[m..]);
    assert m < |line| && line[m..][0] == line[m];
  }

  lemma StartMeans(s: string, key: string)
    requires StartsWith(s, key)
    ensures |key| <= |s| && s[..|key|] == key
  {
  }

  lemma FirstBlank(s: string)
    ensures Blanks(s) > 0 ==> s != [] && Blank(s[0])
  {
  }

  /** A line sets at most one key. */
  lemma OneKey(line: Line, k: string, j: string)
    requires IsKey(k) && IsKey(j) && Sets(line, k) && Sets(line, j)
    ensures k == j
  {
    AfterKey(line, k);
    AfterKey(line, j);
    var a := Blanks(line);
    hide Blanks, ValueAt;
    assert line[a..][..|k|] == line[a..a + |k|] && line[a..][..|j|] == line[a..a + |j|];
    if |k| <= |j| {
      Prefixed(line[a..], k, j);
    } else {
      Prefixed(line[a..], j, k);
    }
  }

  /** A key that starts another one and is followed by a blank or `=` is all of it. */
  lemma Prefixed(rest: string, k: string, j: string)
    requires |k| <= |j| < |rest| && rest[..|k|] == k && rest[..|j|] == j && IsKey(j)
    requires Blank(rest[|k|]) || rest[|k|] == '='
    ensures k == j
  {
    assert forall i :: 0 <= i < |j| ==> j[i] == rest[..|j|][i] == rest[i];
  }

  lemma {:induction false} SameBlanks(s: string, t: string)
    requires Blanks(s) < |s| && Blanks(s) < |t| && s[..Blanks(s) + 1] == t[..Blanks(s) + 1]
    ensures Blanks(t) == Blanks(s)
    decreases |s|
  {
    assert s[0] == s[..Blanks(s) + 1][0] == t[..Blanks(s) + 1][0] == t[0];
    if Blank(s[0]) {
      var n := Blanks(s[1..]);
      assert s[1..][..n + 1] == s[..n + 2][1..] && t[1..][..n + 1] == t[..n + 2][1..];
      SameBlanks(s[1..], t[1..]);
    }
  }

  lemma {:induction false} BlanksAreSpace(s: string, i: nat)
    requires i < Blanks(s)
    ensures Space(s[i])
    decreases |s|
  {
    if i > 0 {
      BlanksAreSpace(s[1..], i - 1);
    }
  }

  /** Two lines that agree up to `p` have the same blanks before it. */
  lemma AgreeingBlanks(line: Line, out: Line, p: nat, m: nat)
    requires p <= |line| && p <= |out| && line[..p] == out[..p]
    requires m <= |line| && m + Blanks(line[m..]) + 1 <= p
    ensures Blanks(out[m..]) == Blanks(line[m..])
  {
    var n := Blanks(line[m..]);
    assert line[m..][..n + 1] == line[..p][m..m + n + 1];
    assert out[m..][..n + 1] == out[..p][m..m + n + 1];
    SameBlanks(line[m..], out[m..]);
  }

  lemma AgreeingStart(line: Line, out: Line, p: nat, a: nat, key: string)
    requires p <= |line| && p <= |out| && line[..p] == out[..p] && a + |key| <= p
    ensures StartsWith(line[a..], key) <==> StartsWith(out[a..], key)
  {
    assert line[a..][..|key|] == line[..p][a..a + |key|];
    assert out[a..][..|key|] == out[..p][a..a + |key|];
  }

  lemma ValueFound(line: Line, key: string, a: nat, b: nat)
    requires a == Blanks(line) && StartsWith(line[a..], key)
    requires b == a + |key| + Blanks(line[a + |key|..]) && b < |line| && line[b] == '='
    ensures ValueAt(line, key) == Some(b + 1)
  {
    hide Blanks, StartsWith;
  }

  /** Where a value starts depends only on what stands before it. */
  lemma PrefixDecides(line: Line, key: string, value: string)
    requires Sets(line, key)
    ensures ValueAt(line[..ValueAt(line, key).value] + value, key) == ValueAt(line, key)
  {
    var p := ValueAt(line, key).value;
    var a := Blanks(line);
    var m := a + |key|;
    var out := line[..p] + value;
    hide Blanks, StartsWith;
    assert m + Blanks(line[m..]) + 1 == p && line[p - 1] == '=';
    hide ValueAt;
    assert line[..p] == out[..p];
    assert line[0..] == line && out[0..] == out;
    AgreeingBlanks(line, out, p, 0);
    AgreeingBlanks(line, out, p, m);
    AgreeingStart(line, out, p, a, key);
    assert StartsWith(line[a..], key) by { Found(line, key); }
    assert out[p - 1] == line[..p][p - 1];
    ValueFound(out, key, a, p - 1);
  }

  lemma Found(line: Line, key: string)
    requires Sets(line, key)
    ensures StartsWith(line[Blanks(line)..], key)
  {
    hide Blanks, StartsWith;
  }

  /** Setting one key changes no line's key and no other key's value. */
  lemma SetKeepsKeys(line: Line, key: string, value: string, other: string)
    requires IsKey(key) && IsKey(other)
    ensures ValueAt(SetValue(line, key, value), other) == ValueAt(line, other)
    ensures key != other && Sets(line, other) ==> SetValue(line, key, value) == line
  {
    if Sets(line, key) {
      PrefixDecides(line, key, value);
      if key != other {
        var out := SetValue(line, key, value);
        if Sets(line, other) {
          OneKey(line, key, other);
        } else if Sets(out, other) {
          OneKey(out, key, other);
        }
      }
    }
  }

  lemma {:induction false} DropSpacesTo(s: string, a: nat)
    requires a < |s| && !Space(s[a]) && forall i :: 0 <= i < a ==> Space(s[i])
    ensures DropSpaces(s) == s[a..]
  {
    if a > 0 {
      DropSpacesTo(s[1..], a - 1);
      assert s[1..][a - 1..] == s[a..];
    }
  }

  lemma {:induction false} FirstStays(s: string)
    requires s != [] && !Space(s[0])
    ensures DropLastSpaces(s) != [] && DropLastSpaces(s)[0] == s[0]
    decreases |s|
  {
    if Space(s[|s| - 1]) {
      FirstStays(s[..|s| - 1]);
    }
  }

  /** A setting is never a block line. */
  lemma SettingIsPlain(line: Line, key: string)
    requires IsKey(key) && Sets(line, key)
    ensures TagOf(line) == Plain
  {
    var a := Blanks(line);
    AfterKey(line, key);
    assert line[a] == line[a..a + |key|][0];
    forall i | 0 <= i < a
      ensures Space(line[i])
    {
      BlanksAreSpace(line, i);
    }
    hide Blanks, ValueAt;
    DropSpacesTo(line, a);
    FirstStays(line[a..]);
    assert Strip(line)[0] != '$';
    assert "$begin"[0] == '$' && "$end"[0] == '$';
    NotKeyword(Strip(line), "$begin");
    NotKeyword(Strip(line), "$end");
  }

  lemma NotKeyword(s: string, keyword: string)
    requires keyword != [] && s != [] && s[0] != keyword[0]
    ensures !StartsWith(s, keyword) && Quoted(s, keyword).None?
  {
  }

  lemma SetKeepsTag(line: Line, key: string, value: string)
    requires IsKey(key)
    ensures TagOf(SetValue(line, key, value)) == TagOf(line)
  {
    if Sets(line, key) {
      SettingIsPlain(line, key);
      SetKeepsKeys(line, key, value, key);
      SettingIsPlain(SetValue(line, key, value), key);
    }
  }

  // ----- all lines -----

  /** Rendering keeps every block line and every setting in its place. */
  lemma {:induction false} RenderKeeps(lines: seq<Line>, values: seq<string>, n: nat, key: string)
    requires n <= |KEYS| && |values| == |KEYS| && IsKey(key)
    ensures Tags(RenderKeys(lines, values, n)) == Tags(lines)
    ensures SettingLines(RenderKeys(lines, values, n), key) == SettingLines(lines, key)
  {
    if n > 0 {
      var mid := RenderKeys(lines, values, n - 1);
      RenderKeeps(lines, values, n - 1, key);
      KeysAreKeys();
      assert KEYS[n - 1] in KEYS;
      var out := RenderKeys(lines, values, n);
      forall i | 0 <= i < |lines|
        ensures TagOf(out[i]) == TagOf(mid[i]) && (Sets(out[i], key) <==> Sets(mid[i], key))
      {
        SetKeepsTag(mid[i], KEYS[n - 1], values[n - 1]);
        SetKeepsKeys(mid[i], KEYS[n - 1], values[n - 1], key);
      }
      assert Tags(out) == Tags(mid);
    }
  }

  /** The value of a setting. */
  predicate HasValue(line: Line, key: string, value: string) {
    Sets(line, key) && line[ValueAt(line, key).value..] == value
  }

  /** After `n` keys, each of them has its value on the line that sets it, and a line
      that sets none of them is the original one. */
  lemma {:induction false} RenderSets(lines: seq<Line>, values: seq<string>, n: nat, i: nat)
    requires n <= |KEYS| && |values| == |KEYS| && i < |lines|
    ensures
      var out := RenderKeys(lines, values, n);
      && (forall j :: 0 <= j < n && Sets(lines[i], KEYS[j]) ==>
            HasValue(out[i], KEYS[j], values[j])
            && out[i] == lines[i][..ValueAt(lines[i], KEYS[j]).value] + values[j])
      && ((forall j :: 0 <= j < n ==> !Sets(lines[i], KEYS[j])) ==> out[i] == lines[i])
      && (forall j :: 0 <= j < |KEYS| ==> ValueAt(out[i], KEYS[j]) == ValueAt(lines[i], KEYS[j]))
  {
    hide ValueAt, IsKey, SetValue, HasValue;
    if n > 0 {
      RenderSets(lines, values, n - 1, i);
      KeysAreKeys();
      var mid := RenderKeys(lines, values, n - 1);
      var out := RenderKeys(lines, values, n);
      var key, value := KEYS[n - 1], values[n - 1];
      assert out[i] == SetValue(mid[i], key, value);
      forall j | 0 <= j < |KEYS|
        ensures ValueAt(out[i], KEYS[j]) == ValueAt(lines[i], KEYS[j])
        ensures j != n - 1 && Sets(lines[i], KEYS[j]) ==> out[i] == mid[i]
      {
        assert KEYS[j] in KEYS && key in KEYS;
        SetKeepsKeys(mid[i], key, value, KEYS[j]);
      }
      if Sets(lines[i], key) {
        LastKey(lines, values, n, i);
      } else {
        NotSet(mid[i], key, value);
      }
    }
  }

  lemma NotSet(line: Line, key: string, value: string)
    requires !Sets(line, key)
    ensures SetValue(line, key, value) == line
  {
  }

  /** The key rendered last finds its line as it was. */
  lemma LastKey(lines: seq<Line>, values: seq<string>, n: nat, i: nat)
    requires 0 < n <= |KEYS| && |values| == |KEYS| && i < |lines| && Sets(lines[i], KEYS[n - 1])
    requires
      var mid := RenderKeys(lines, values, n - 1);
      (forall j :: 0 <= j < n - 1 ==> !Sets(lines[i], KEYS[j])) ==> mid[i] == lines[i]
    ensures
      var out := RenderKeys(lines, values, n);
      && HasValue(out[i], KEYS[n - 1], values[n - 1])
      && out[i] == lines[i][..ValueAt(lines[i], KEYS[n - 1]).value] + values[n - 1]
  {
    KeysAreKeys();
    var key := KEYS[n - 1];
    assert key in KEYS;
    forall j | 0 <= j < n - 1
      ensures !Sets(lines[i], KEYS[j])
    {
      assert KEYS[j] in KEYS;
      if Sets(lines[i], KEYS[j]) {
        OneKey(lines[i], key, KEYS[j]);
      }
    }
    PrefixDecides(lines[i], key, values[n - 1]);
  }

  // ----- the end of the text -----

  /** Plain lines at the end change nothing for the scan. */
  lemma {:induction false} ScanPlainEnd(tags: seq<Tag>, stack: Path, paths: set<Path>)
    ensures Scan(tags + [Plain], stack, paths) == Scan(tags, stack, paths)
    decreases |tags|
  {
    if tags == [] {
      assert (tags + [Plain])[1..] == [];
    } else {
      assert (tags + [Plain])[0] == tags[0] && (tags + [Plain])[1..] == tags[1..] + [Plain];
      match tags[0]
      case Begin(name) => ScanPlainEnd(tags[1..], stack + [name], paths + {stack + [name]});
      case End(name) =>
        if stack != [] {
          ScanPlainEnd(tags[1..], stack[..|stack| - 1], paths);
        }
      case Plain => ScanPlainEnd(tags[1..], stack, paths);
      case Malformed =>
    }
  }

  lemma EmptyLine(key: string)
    requires IsKey(key)
    ensures TagOf("") == Plain && !Sets("", key)
  {
    assert Strip("") == "" && !StartsWith("", "$begin") && !StartsWith("", "$end");
  }

  lemma EmptyAtEnd(lines: seq<Line>, key: string)
    requires IsKey(key)
    ensures Scan(Tags(lines + [""]), [], {}) == Scan(Tags(lines), [], {})
    ensures SettingLines(lines + [""], key) == SettingLines(lines, key)
  {
    EmptyLine(key);
    assert Tags(lines + [""]) == Tags(lines) + [Plain];
    ScanPlainEnd(Tags(lines), [], {});
    forall i: nat | i < |lines| + 1
      ensures i in SettingLines(lines + [""], key) <==> i in SettingLines(lines, key)
    {
      assert (lines + [""])[i] == if i < |lines| then lines[i] else "";
    }
  }

  lemma {:induction false} DropKeeps(lines: seq<Line>, key: string)
    requires IsKey(key)
    ensures Scan(Tags(DropEmptyTail(lines)), [], {}) == Scan(Tags(lines), [], {})
    ensures SettingLines(DropEmptyTail(lines), key) == SettingLines(lines, key)
    decreases |lines|
  {
    if lines != [] && lines[|lines| - 1] == "" {
      var shorter := lines[..|lines| - 1];
      assert lines == shorter + [""];
      DropKeeps(shorter, key);
      EmptyAtEnd(shorter, key);
    }
  }

  lemma TidyKeeps(lines: seq<Line>, key: string)
    requires IsKey(key)
    ensures Scan(Tags(Tidy(lines)), [], {}) == Scan(Tags(lines), [], {})
    ensures SettingLines(Tidy(lines), key) == SettingLines(lines, key)
  {
    DropKeeps(lines, key);
    EmptyAtEnd(DropEmptyTail(lines), key);
  }

  lemma {:induction false} DropIsPrefix(lines: seq<Line>)
    ensures |DropEmptyTail(lines)| <= |lines| && DropEmptyTail(lines) == lines[..|DropEmptyTail(lines)|]
    ensures DropEmptyTail(lines) == [] || DropEmptyTail(lines)[|DropEmptyTail(lines)| - 1] != ""
    decreases |lines|
  {
    if lines != [] && lines[|lines| - 1] == "" {
      DropIsPrefix(lines[..|lines| - 1]);
    }
  }

  lemma TidyTwice(lines: seq<Line>)
    ensures Tidy(Tidy(lines)) == Tidy(lines)
  {
    var kept := DropEmptyTail(lines);
    DropIsPrefix(lines);
    assert DropEmptyTail(kept) == kept;
    assert (kept + [""])[..|kept|] == kept;
    assert DropEmptyTail(kept + [""]) == DropEmptyTail(kept);
  }

  // ----- the rendered template -----

  /** The validator's view of the blocks. */
  lemma NestedIffScan(lines: seq<Line>)
    ensures WellNested(lines) <==>
      Scan(Tags(lines), [], {}).Some? && REQUIRED <= Scan(Tags(lines), [], {}).value
  {
    ScanMeansNested(Tags(lines));
    if WellNested(lines) {
      var f :| Prints(f, Tags(lines)) && REQUIRED <= Chains(f, []);
    } else if Scan(Tags(lines), [], {}).Some? {
      var f :| Prints(f, Tags(lines));
    }
  }

  /** Rendering keeps the blocks, and the lines that set each key. */
  lemma RenderTextKeeps(lines: seq<Line>, values: seq<string>, key: string)
    requires |values| == |KEYS| && IsKey(key)
    ensures Scan(Tags(RenderText(lines, values)), [], {}) == Scan(Tags(lines), [], {})
    ensures SettingLines(RenderText(lines, values), key) == SettingLines(lines, key)
  {
    hide Scan, SettingLines, Tidy;
    RenderKeeps(lines, values, |KEYS|, key);
    TidyKeeps(RenderKeys(lines, values, |KEYS|), key);
  }

  /** A rendered template is accepted exactly when the template is. */
  lemma RenderAccepted(lines: seq<Line>, values: seq<string>)
    requires |values| == |KEYS|
    ensures Accepted(RenderText(lines, values)) <==> Accepted(lines)
  {
    hide Scan, SettingLines, RenderText, WellNested;
    NestedIffScan(lines);
    NestedIffScan(RenderText(lines, values));
    KeysAreKeys();
    forall k | k in KEYS
      ensures SettingLines(RenderText(lines, values), k) == SettingLines(lines, k)
    {
      RenderTextKeeps(lines, values, k);
    }
    assert KEYS[0] in KEYS;
    RenderTextKeeps(lines, values, KEYS[0]);
  }

  /** The line that sets a key carries exactly the given value. */
  lemma RenderedValue(lines: seq<Line>, values: seq<string>, i: nat, j: nat)
    requires |values| == |KEYS| && j < |KEYS| && i in SettingLines(lines, KEYS[j])
    ensures i < |RenderText(lines, values)| && HasValue(RenderText(lines, values)[i], KEYS[j], values[j])
  {
    var out := RenderKeys(lines, values, |KEYS|);
    KeysAreKeys();
    assert KEYS[j] in KEYS;
    RenderSets(lines, values, |KEYS|, i);
    EmptyLine(KEYS[j]);
    TidyLine(out, i);
  }

  lemma {:induction false} TidyLine(lines: seq<Line>, i: nat)
    requires i < |lines| && lines[i] != ""
    ensures i < |Tidy(lines)| - 1 && Tidy(lines)[i] == lines[i]
    decreases |lines|
  {
    DropIsPrefix(lines);
    if lines[|lines| - 1] == "" {
      TidyLine(lines[..|lines| - 1], i);
    }
  }

  lemma AlreadySet(line: Line, key: string, value: string)
    requires Sets(line, key) ==> HasValue(line, key, value)
    ensures SetValue(line, key, value) == line
  {
    if Sets(line, key) {
      assert line == line[..ValueAt(line, key).value] + line[ValueAt(line, key).value..];
    }
  }

  /** A text whose settings have their values already is left alone. */
  lemma {:induction false} RenderSettled(lines: seq<Line>, values: seq<string>, n: nat)
    requires n <= |KEYS| && |values| == |KEYS|
    requires forall i, j :: 0 <= i < |lines| && 0 <= j < |KEYS| && Sets(lines[i], KEYS[j]) ==>
      HasValue(lines[i], KEYS[j], values[j])
    ensures RenderKeys(lines, values, n) == lines
  {
    if n > 0 {
      RenderSettled(lines, values, n - 1);
      forall i | 0 <= i < |lines|
        ensures SetValue(lines[i], KEYS[n - 1], values[n - 1]) == lines[i]
      {
        AlreadySet(lines[i], KEYS[n - 1], values[n - 1]);
      }
    }
  }

  lemma RenderedSettled(lines: seq<Line>, values: seq<string>, i: nat, j: nat)
    requires |values| == |KEYS| && i < |RenderText(lines, values)| && j < |KEYS|
    requires Sets(RenderText(lines, values)[i], KEYS[j])
    ensures HasValue(RenderText(lines, values)[i], KEYS[j], values[j])
  {
    KeysAreKeys();
    assert KEYS[j] in KEYS;
    RenderTextKeeps(lines, values, KEYS[j]);
    assert i in SettingLines(RenderText(lines, values), KEYS[j]);
    RenderedValue(lines, values, i, j);
  }

  /** Rendering twice is rendering once. */
  lemma RenderTwice(lines: seq<Line>, values: seq<string>)
    requires |values| == |KEYS|
    ensures RenderText(RenderText(lines, values), values) == RenderText(lines, values)
  {
    var out := RenderText(lines, values);
    forall i, j | 0 <= i < |out| && 0 <= j < |KEYS| && Sets(out[i], KEYS[j])
      ensures HasValue(out[i], KEYS[j], values[j])
    {
      RenderedSettled(lines, values, i, j);
    }
    hide Sets, HasValue;
    RenderSettled(out, values, |KEYS|);
    TidyTwice(RenderKeys(lines, values, |KEYS|));
  }

  /** Every line that set the key carries the value in the output. */
  ghost predicate KeyHas(lines: seq<Line>, key: string, value: string, out: seq<Line>) {
    forall i :: i in SettingLines(lines, key) ==> i < |out| && HasValue(out[i], key, value)
  }

  /** Every setting of the template carries its value in the output. */
  ghost predicate ValuesSet(lines: seq<Line>, values: seq<string>, out: seq<Line>)
    requires |values| == |KEYS|
  {
    forall j :: 0 <= j < |KEYS| ==> KeyHas(lines, KEYS[j], values[j], out)
  }

  lemma AllValues(lines: seq<Line>, values: seq<string>)
    requires |values| == |KEYS|
    ensures ValuesSet(lines, values, RenderText(lines, values))
  {
    hide SettingLines, RenderText, HasValue;
    var out := RenderText(lines, values);
    forall j | 0 <= j < |KEYS|
      ensures KeyHas(lines, KEYS[j], values[j], out)
    {
      forall i | i in SettingLines(lines, KEYS[j])
        ensures i < |out| && HasValue(out[i], KEYS[j], values[j])
      {
        RenderedValue(lines, values, i, j);
      }
    }
  }

  // ----- the renderer -----

  /** Replace the value on every line that sets the key, and count those lines. */
  method Substitute(lines: seq<Line>, key: string, value: string) returns (out: seq<Line>, count: nat)
    ensures out == RenderKey(lines, key, value) && count == |SettingLines(lines, key)|
  {
    out := [];
    for i := 0 to |lines|
      invariant |out| == i && forall k :: 0 <= k < i ==> out[k] == SetValue(lines[k], key, value)
    {
      out := out + [SetValue(lines[i], key, value)];
    }
    count := CountSettings(lines, key);
  }

  /** An accepted template renders to an accepted one with the same blocks, in which each
      setting has its value; any other template is refused. */
  method Render(lines: seq<Line>, values: seq<string>) returns (result: Option<seq<Line>>)
    requires |values| == |KEYS|
    ensures result.Some? <==> Accepted(lines)
    ensures result.Some? ==> result.value == RenderText(lines, values) && Accepted(result.value)
    ensures result.Some? ==> forall f :: Prints(f, Tags(lines)) ==> Scan(Tags(result.value), [], {}) == Some(Chains(f, []))
    ensures result.Some? ==> ValuesSet(lines, values, result.value)
  {
    hide Scan, SettingLines, Tidy, RenderKey, WellNested, ValuesSet;
    var ok := Validate(lines);
    if !ok {
      return None;
    }
    var rendered := lines;
    for i := 0 to |KEYS|
      invariant rendered == RenderKeys(lines, values, i)
    {
      KeysAreKeys();
      assert KEYS[i] in KEYS;
      RenderKeeps(lines, values, i, KEYS[i]);
      var count;
      rendered, count := Substitute(rendered, KEYS[i], values[i]);
      if count != 1 {
        assert false;
        return None;
      }
    }
    RenderAccepted(lines, values);
    RenderedNested(lines, values);
    ok := Validate(rendered);
    if !ok {
      assert false;
      return None;
    }
    result := Some(Tidy(rendered));
    KeysAreKeys();
    assert KEYS[0] in KEYS;
    RenderTextKeeps(lines, values, KEYS[0]);
    ScanMeansNested(Tags(lines));
    AllValues(lines, values);
  }

  /** The second validation never fails. */
  lemma RenderedNested(lines: seq<Line>, values: seq<string>)
    requires |values| == |KEYS|
    ensures Accepted(RenderKeys(lines, values, |KEYS|)) <==> Accepted(lines)
  {
    hide Scan, SettingLines, WellNested;
    var out := RenderKeys(lines, values, |KEYS|);
    NestedIffScan(lines);
    NestedIffScan(out);
    KeysAreKeys();
    forall k | k in KEYS
      ensures SettingLines(out, k) == SettingLines(lines, k)
    {
      RenderKeeps(lines, values, |KEYS|, k);
    }
    assert KEYS[0] in KEYS;
    RenderKeeps(lines, values, |KEYS|, KEYS[0]);
  }
}
