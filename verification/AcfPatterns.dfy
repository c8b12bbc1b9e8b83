/** The patterns of ACF lines, position by position: what a line that opens or closes a block,
    or sets a key, looks like. */
module AcfPatterns {
  import opened AcfBlocks

  // ----- `key = value` -----

  predicate BlankAt(line: Line, i: nat) {
    i < |line| && (line[i] == ' ' || line[i] == '\t')
  }

  /** Blanks, the key, blanks and an equals sign at `e`. */
  predicate SettingAt(line: Line, key: string, k: nat, e: nat) {
    && k + |key| <= e < |line|
    && (forall i :: 0 <= i < k ==> BlankAt(line, i))
    && line[k..k + |key|] == key
    && (forall i :: k + |key| <= i < e ==> BlankAt(line, i))
    && line[e] == '='
  }

  lemma {:induction false} BlanksMean(s: string)
    ensures forall i :: 0 <= i < Blanks(s) ==> BlankAt(s, i)
    ensures !BlankAt(s, Blanks(s))
  {
    if s != [] && Blank(s[0]) {
      BlanksMean(s[1..]);
      forall i | 0 <= i < Blanks(s)
        ensures BlankAt(s, i)
      {
        assert i > 0 ==> BlankAt(s[1..], i - 1);
      }
      assert !BlankAt(s[1..], Blanks(s[1..]));
    }
  }

  /** The blanks end where the first other character stands. */
  lemma BlanksEnd(s: string, n: nat)
    requires n < |s| && !BlankAt(s, n) && forall i :: 0 <= i < n ==> BlankAt(s, i)
    ensures Blanks(s) == n
  {
    BlanksMean(s);
    assert Blanks(s) < n ==> BlankAt(s, Blanks(s));
    assert n < Blanks(s) ==> BlankAt(s, n);
  }

  /** A line sets the key exactly when it matches the pattern, and the value starts after the
      equals sign. */
  lemma SettingPattern(line: Line, key: string)
    requires IsKey(key)
    ensures Sets(line, key) <==> exists k, e :: SettingAt(line, key, k, e)
    ensures forall k, e :: SettingAt(line, key, k, e) ==> ValueAt(line, key) == Some(e + 1)
  {
    var a := Blanks(line);
    BlanksMean(line);
    if ValueAt(line, key).Some? {
      var b := a + |key| + Blanks(line[a + |key|..]);
      BlanksMean(line[a + |key|..]);
      forall i | a + |key| <= i < b
        ensures BlankAt(line, i)
      {
        assert BlankAt(line[a + |key|..], i - (a + |key|));
      }
      assert line[a..][..|key|] == line[a..a + |key|];
      assert SettingAt(line, key, a, b);
    }
    forall k, e | SettingAt(line, key, k, e)
      ensures ValueAt(line, key) == Some(e + 1)
    {
      SettingValue(line, key, k, e);
    }
  }

  lemma SettingValue(line: Line, key: string, k: nat, e: nat)
    requires IsKey(key) && SettingAt(line, key, k, e)
    ensures ValueAt(line, key) == Some(e + 1)
  {
    assert line[k] == line[k..k + |key|][0] == key[0];
    BlanksEnd(line, k);
    var rest := line[k + |key|..];
    forall i | 0 <= i < e - (k + |key|)
      ensures BlankAt(rest, i)
    {
      assert BlankAt(line, i + (k + |key|));
    }
    BlanksEnd(rest, e - (k + |key|));
    assert line[k..][..|key|] == line[k..k + |key|];
  }

  // ----- `$begin 'name'` and `$end 'name'` -----

  predicate SpaceAt(line: Line, i: int) {
    0 <= i < |line| && (line[i] == ' ' || line[i] == '\t' || line[i] == '\r' || line[i] == '\n'
                   || line[i] as int == 11 || line[i] as int == 12)
  }

  /** The text between `from` and `to`, with white space around it only. */
  predicate Alone(line: Line, from: nat, to: nat) {
    && from <= to <= |line|
    && (forall i :: 0 <= i < from ==> SpaceAt(line, i)) && (forall i :: to <= i < |line| ==> SpaceAt(line, i))
  }

  /** The keyword at `k`, white space, and the name in quotes from `q` on; nothing else. */
  predicate MarkAt(line: Line, keyword: string, name: string, k: nat, q: nat) {
    && k + |keyword| < q && q + |name| + 2 <= |line|
    && Alone(line, k, q + |name| + 2)
    && line[k..k + |keyword|] == keyword
    && (forall i :: k + |keyword| <= i < q ==> SpaceAt(line, i))
    && line[q] == '\'' && line[q + 1..q + 1 + |name|] == name && line[q + 1 + |name|] == '\''
    && name != [] && '\'' !in name
  }

  lemma {:induction false} DropMeans(s: string)
    ensures
      var d := DropSpaces(s);
      && |d| <= |s| && d == s[|s| - |d|..] && (forall i :: 0 <= i < |s| - |d| ==> SpaceAt(s, i))
      && (d != [] ==> !SpaceAt(d, 0))
  {
    if s != [] && Space(s[0]) {
      DropMeans(s[1..]);
      var d := DropSpaces(s);
      forall i | 0 <= i < |s| - |d|
        ensures SpaceAt(s, i)
      {
        assert i > 0 ==> SpaceAt(s[1..], i - 1);
      }
    }
  }

  lemma {:induction false} DropLastMeans(s: string)
    ensures
      var d := DropLastSpaces(s);
      && |d| <= |s| && d == s[..|d|] && (forall i :: |d| <= i < |s| ==> SpaceAt(s, i))
      && (d != [] ==> !SpaceAt(d, |d| - 1))
    decreases |s|
  {
    if s != [] && Space(s[|s| - 1]) {
      var t := s[..|s| - 1];
      DropLastMeans(t);
      var d := DropLastSpaces(s);
      forall i | |d| <= i < |s|
        ensures SpaceAt(s, i)
      {
        assert i < |t| ==> SpaceAt(t, i);
      }
    }
  }

  /** Where the stripped text stands. */
  lemma StripStands(line: Line) returns (from: nat, to: nat)
    ensures Alone(line, from, to) && Strip(line) == line[from..to]
    ensures from < to ==> !SpaceAt(line, from) && !SpaceAt(line, to - 1)
  {
    DropMeans(line);
    var d := DropSpaces(line);
    DropLastMeans(d);
    from := |line| - |d|;
    to := from + |DropLastSpaces(d)|;
    forall i | to <= i < |line|
      ensures SpaceAt(line, i)
    {
      assert SpaceAt(d, i - from);
    }
  }

  /** Only one text stands alone between characters that are no white space. */
  lemma StripIs(line: Line, from: nat, to: nat)
    requires Alone(line, from, to) && from < to && !SpaceAt(line, from) && !SpaceAt(line, to - 1)
    ensures Strip(line) == line[from..to]
  {
    var a, b := StripStands(line);
    assert from < a ==> SpaceAt(line, from);
    assert b < to ==> SpaceAt(line, to - 1);
    assert a < b && a < from ==> SpaceAt(line, a);
    assert a < b && to < b ==> SpaceAt(line, b - 1);
  }

  /** What follows the keyword: white space, and a name in quotes to the end. */
  predicate NameAt(s: string, keyword: string, name: string, q: nat) {
    && |keyword| < q && q + |name| + 2 == |s|
    && s[..|keyword|] == keyword && (forall i :: |keyword| <= i < q ==> SpaceAt(s, i))
    && s[q] == '\'' && s[q + 1..q + 1 + |name|] == name && s[q + 1 + |name|] == '\''
    && name != [] && '\'' !in name
  }

  lemma QuotedStands(s: string, keyword: string)
    requires Quoted(s, keyword).Some?
    ensures exists q :: NameAt(s, keyword, Quoted(s, keyword).value, q)
  {
    var rest := s[|keyword|..];
    var quoted := DropSpaces(rest);
    DropMeans(rest);
    var q := |s| - |quoted|;
    forall i | |keyword| <= i < q
      ensures SpaceAt(s, i)
    {
      assert SpaceAt(rest, i - |keyword|);
    }
    assert quoted == s[q..];
    assert q == |keyword| ==> !SpaceAt(rest, 0);
    assert NameAt(s, keyword, Quoted(s, keyword).value, q);
  }

  lemma QuotedIs(s: string, keyword: string, name: string, q: nat)
    requires NameAt(s, keyword, name, q)
    ensures Quoted(s, keyword) == Some(name)
  {
    var rest := s[|keyword|..];
    var quoted := DropSpaces(rest);
    DropMeans(rest);
    var p := |s| - |quoted|;
    assert rest != [] && SpaceAt(s, |keyword|);
    assert p > q ==> SpaceAt(rest, q - |keyword|);
    assert p < q ==> SpaceAt(s, p);
    assert quoted == s[q..];
    assert quoted[1..|quoted| - 1] == name;
  }

  /** In a stripped line the pattern of a mark is the keyword and the quoted name. */
  lemma MarkStripped(line: Line, keyword: string, name: string, from: nat, to: nat)
    requires keyword != [] && !SpaceAt(keyword, 0)
    requires Alone(line, from, to) && Strip(line) == line[from..to]
    requires from < to ==> !SpaceAt(line, from) && !SpaceAt(line, to - 1)
    ensures Quoted(Strip(line), keyword) == Some(name) <==> exists k, q :: MarkAt(line, keyword, name, k, q)
  {
    var s := Strip(line);
    if Quoted(s, keyword) == Some(name) {
      QuotedStands(s, keyword);
      var q :| NameAt(s, keyword, name, q);
      MarkFrom(line, keyword, name, from, to, q);
    }
    if k, q :| MarkAt(line, keyword, name, k, q) {
      MarkTo(line, keyword, name, k, q);
    }
  }

  lemma SubSlice(s: string, a: nat, b: nat, i: nat, j: nat)
    requires a <= b <= |s| && i <= j <= b - a
    ensures s[a..b][i..j] == s[a + i..a + j]
  {
    var t := s[a..b];
    assert forall x :: 0 <= x < j - i ==> t[i..j][x] == s[a + i..a + j][x];
  }

  lemma MarkFrom(line: Line, keyword: string, name: string, from: nat, to: nat, q: nat)
    requires Alone(line, from, to) && NameAt(line[from..to], keyword, name, q)
    ensures MarkAt(line, keyword, name, from, from + q)
  {
    var s := line[from..to];
    forall i | from + |keyword| <= i < from + q
      ensures SpaceAt(line, i)
    {
      assert SpaceAt(s, i - from);
    }
    assert line[from..from + |keyword|] == s[..|keyword|];
    SubSlice(line, from, to, q + 1, q + 1 + |name|);
  }

  lemma MarkTo(line: Line, keyword: string, name: string, k: nat, q: nat)
    requires keyword != [] && !SpaceAt(keyword, 0) && MarkAt(line, keyword, name, k, q)
    ensures Quoted(Strip(line), keyword) == Some(name)
  {
    var end := q + |name| + 2;
    assert line[k] == line[k..k + |keyword|][0] == keyword[0];
    StripIs(line, k, end);
    var s := line[k..end];
    forall i | |keyword| <= i < q - k
      ensures SpaceAt(s, i)
    {
      assert SpaceAt(line, i + k);
    }
    assert s[..|keyword|] == line[k..k + |keyword|];
    SubSlice(line, k, end, q - k + 1, q - k + 1 + |name|);
    assert NameAt(s, keyword, name, q - k);
    QuotedIs(s, keyword, name, q - k);
  }

  /** A line opens or closes a block of a name exactly when it matches the pattern of its mark. */
  lemma TagPattern(line: Line, name: string)
    ensures TagOf(line) == Begin(name) <==> exists k, q :: MarkAt(line, "$begin", name, k, q)
    ensures TagOf(line) == End(name) <==> exists k, q :: MarkAt(line, "$end", name, k, q)
  {
    var from, to := StripStands(line);
    MarkStripped(line, "$begin", name, from, to);
    MarkStripped(line, "$end", name, from, to);
    var s := Strip(line);
    assert StartsWith(s, "$end") ==> s[1] == 'e';
    assert StartsWith(s, "$begin") ==> s[1] == 'b';
    hide Strip, DropSpaces;
  }
}
