// Conversion to Traditional Chinese: at each position the longest dictionary key is replaced.
module Conversion {
  import opened Text

  // Texts are sequences of runes. A dictionary line is a key and its values, cut at the tab.
  datatype Line = Line(hasTab: bool, key: string, values: string)

  datatype Dictionary = Dictionary(entries: map<string, string>, maxLength: nat)

  // ----- loading -----

  function FirstValue(values: string): string { CutBefore(values, ' ') }

  predicate Usable(l: Line) { l.hasTab && l.key != "" }

  function AddLine(d: Dictionary, l: Line): Dictionary {
    if !Usable(l) || l.key in d.entries then d
    else Dictionary(d.entries[l.key := FirstValue(l.values)], if |l.key| > d.maxLength then |l.key| else d.maxLength)
  }

  function Load(lines: seq<Line>): Dictionary {
    if lines == [] then Dictionary(map[], 0) else AddLine(Load(lines[..|lines| - 1]), lines[|lines| - 1])
  }

  // The line has a tab, and before it the key.
  predicate HasKey(l: Line, key: string) { l.hasTab && l.key == key != "" }

  // The first line that has the key, or |lines|.
  function FirstLine(lines: seq<Line>, key: string): (i: nat)
    ensures i <= |lines|
    ensures i < |lines| ==> HasKey(lines[i], key)
    ensures forall j :: 0 <= j < i ==> !HasKey(lines[j], key)
  {
    if lines == [] || HasKey(lines[0], key) then 0 else 1 + FirstLine(lines[1..], key)
  }

  // maxLength is the length of some longest key.
  ghost predicate Bounded(d: Dictionary) {
    && (forall key :: key in d.entries ==> 0 < |key| <= d.maxLength)
    && (d.maxLength > 0 ==> exists key :: key in d.entries && |key| == d.maxLength)
  }

  // Earlier lines, and so earlier files, win, and exactly the usable keys are there.
  lemma {:induction false} FirstLineWins(lines: seq<Line>, key: string)
    ensures key in Load(lines).entries <==> FirstLine(lines, key) < |lines|
    ensures key in Load(lines).entries ==> Load(lines).entries[key] == FirstValue(lines[FirstLine(lines, key)].values)
  {
    if lines != [] {
      var n := |lines| - 1;
      FirstLineWins(lines[..n], key);
      var i, j := FirstLine(lines, key), FirstLine(lines[..n], key);
      assert j < n ==> lines[j] == lines[..n][j];
      assert i < n ==> lines[i] == lines[..n][i];
    }
  }

  // A key is rewritten as the first of its values: what is before the first space.
  lemma FirstValueExactly(values: string, value: string)
    ensures FirstValue(values) == value <==>
      && (forall i :: 0 <= i < |value| ==> value[i] != ' ')
      && (values == value || (|value| < |values| && values[..|value|] == value && values[|value|] == ' '))
  {
    var n := IndexOf(values, ' ');
    if values != value && |value| < |values| && values[..|value|] == value && values[|value|] == ' ' {
      assert forall i :: 0 <= i < |value| ==> values[i] == value[i];
    }
    if values == value { assert values[..|values|] == values; }
  }

  // maxLength is the length of the longest key.
  lemma {:induction false} LoadedIsBounded(lines: seq<Line>)
    ensures Bounded(Load(lines))
  {
    if lines != [] {
      LoadedIsBounded(lines[..|lines| - 1]);
    }
  }

  // Adds the lines of one file, after those of the files before it.
  method LoadFile(before: Dictionary, file: seq<Line>, ghost earlier: seq<Line>) returns (d: Dictionary)
    requires before == Load(earlier)
    ensures d == Load(earlier + file)
  {
    d := before;
    assert earlier + file[..0] == earlier;
    for l := 0 to |file|
      invariant d == Load(earlier + file[..l])
    {
      var line := file[l];
      if line.hasTab && line.key != "" {
        if line.key !in d.entries {
          var maxLength := if |line.key| > d.maxLength then |line.key| else d.maxLength;
          d := Dictionary(d.entries[line.key := FirstValue(line.values)], maxLength);
        }
      }
      assert earlier + file[..l + 1] == earlier + file[..l] + [line];
    }
    assert file[..|file|] == file;
  }

  method LoadDictionary(files: seq<seq<Line>>) returns (d: Dictionary)
    ensures d == Load(Concat(files))
  {
    d := Dictionary(map[], 0);
    for f := 0 to |files|
      invariant d == Load(Concat(files[..f]))
    {
      d := LoadFile(d, files[f], Concat(files[..f]));
      assert files[..f + 1][..f] == files[..f];
    }
    assert files[..|files|] == files;
  }

  function Concat(files: seq<seq<Line>>): seq<Line> {
    if files == [] then [] else Concat(files[..|files| - 1]) + files[|files| - 1]
  }

  // All lines of all files, in order.
  lemma {:induction false} ConcatOne(files: seq<seq<Line>>, f: nat, i: nat)
    requires f < |files| && i < |files[f]|
    ensures Concat([]) == [] && Concat(files[..f + 1]) == Concat(files[..f]) + files[f]
    ensures |Concat(files[..f])| + i < |Concat(files)|
    ensures Concat(files)[|Concat(files[..f])| + i] == files[f][i]
  {
    var n := |files| - 1;
    assert files[..f + 1][..f] == files[..f];
    assert files[..n + 1] == files;
    if f < n {
      assert files[..n][..f] == files[..f] && files[..n][..f + 1] == files[..f + 1];
      ConcatOne(files[..n], f, i);
    }
  }

  // ----- converting -----

  // The length of the longest of the first n prefixes of text that is a key.
  function LongestUpTo(entries: map<string, string>, text: string, n: nat): (length: nat)
    requires n <= |text|
    ensures length <= n
    ensures length > 0 ==> text[..length] in entries
    ensures forall k :: length < k <= n ==> text[..k] !in entries
  {
    if n == 0 || text[..n] in entries then n else LongestUpTo(entries, text, n - 1)
  }

  // The length of the longest key of the whole dictionary that starts the text, or 0.
  function Longest(entries: map<string, string>, text: string): nat {
    LongestUpTo(entries, text, |text|)
  }

  function Rewrite(entries: map<string, string>, text: string): string
    decreases |text|
  {
    if text == "" then ""
    else
      var length := Longest(entries, text);
      if length == 0 then [text[0]] + Rewrite(entries, text[1..])
      else entries[text[..length]] + Rewrite(entries, text[length..])
  }

  // Looking only at prefixes up to maxLength never hides a key.
  lemma BoundHidesNothing(d: Dictionary, text: string, n: nat)
    requires Bounded(d) && n <= |text| && (d.maxLength <= n || n == |text|)
    ensures LongestUpTo(d.entries, text, n) == Longest(d.entries, text)
  {
    var length := Longest(d.entries, text);
    assert length > 0 ==> |text[..length]| <= d.maxLength;
  }

  method FindLongest(d: Dictionary, text: string, start: nat) returns (length: nat)
    requires Bounded(d) && start < |text|
    ensures length == Longest(d.entries, text[start..])
  {
    ghost var rest := text[start..];
    length := if d.maxLength < |text| - start then d.maxLength else |text| - start;
    ghost var n := length;
    while length > 0 && text[start..start + length] !in d.entries
      invariant length <= n <= |rest|
      invariant forall k :: length < k <= n ==> rest[..k] !in d.entries
    {
      assert rest[..length] == text[start..start + length];
      length := length - 1;
    }
    assert rest[..length] == text[start..start + length];
    BoundHidesNothing(d, rest, n);
  }

  // One round of the loop: what is emitted and what is left rewrite as before.
  lemma RewriteStep(entries: map<string, string>, text: string, result: string)
    requires text != ""
    ensures var length := Longest(entries, text);
      result + Rewrite(entries, text) ==
        if length == 0 then (result + [text[0]]) + Rewrite(entries, text[1..])
        else (result + entries[text[..length]]) + Rewrite(entries, text[length..])
  {
    var length := Longest(entries, text);
    var first := if length == 0 then [text[0]] else entries[text[..length]];
    var rest := Rewrite(entries, if length == 0 then text[1..] else text[length..]);
    assert result + (first + rest) == (result + first) + rest;
  }

  method Convert(d: Dictionary, value: string) returns (result: string)
    requires Bounded(d)
    ensures result == Rewrite(d.entries, value)
  {
    result := "";
    var start := 0;
    ghost var rest := value;
    ghost var goal := Rewrite(d.entries, value);
    assert result + goal == goal;
    while start < |value|
      invariant start <= |value| && rest == value[start..]
      invariant result + Rewrite(d.entries, rest) == goal
      decreases |value| - start
    {
      var length := FindLongest(d, value, start);
      RewriteStep(d.entries, rest, result);
      if length > 0 {
        assert rest[..length] == value[start..start + length];
        result := result + d.entries[value[start..start + length]];
        start := start + length;
        rest := rest[length..];
      } else {
        result := result + [value[start]];
        start := start + 1;
        rest := rest[1..];
      }
    }
  }

  // ----- what conversion means -----

  // The pieces that a text is cut into: at each position the longest key that starts there, or a
  // single rune where no key does.
  ghost predicate LeftmostLongest(entries: map<string, string>, pieces: seq<string>, text: string)
    decreases |pieces|
  {
    if pieces == [] then text == ""
    else
      && 0 < |pieces[0]| <= |text| && text[..|pieces[0]|] == pieces[0]
      && (pieces[0] in entries || |pieces[0]| == 1)
      && (forall k :: |pieces[0]| < k <= |text| ==> text[..k] !in entries)
      && LeftmostLongest(entries, pieces[1..], text[|pieces[0]|..])
  }

  function Replace(entries: map<string, string>, piece: string): string {
    if piece in entries then entries[piece] else piece
  }

  function ReplaceAll(entries: map<string, string>, pieces: seq<string>): string {
    if pieces == [] then "" else Replace(entries, pieces[0]) + ReplaceAll(entries, pieces[1..])
  }

  function Pieces(entries: map<string, string>, text: string): seq<string>
    decreases |text|
  {
    if text == "" then []
    else
      var length := Longest(entries, text);
      var n := if length == 0 then 1 else length;
      [text[..n]] + Pieces(entries, text[n..])
  }

  lemma {:induction false} PiecesAreLeftmostLongest(entries: map<string, string>, text: string)
    ensures LeftmostLongest(entries, Pieces(entries, text), text)
    decreases |text|
  {
    if text != "" {
      var length := Longest(entries, text);
      var n := if length == 0 then 1 else length;
      PiecesAreLeftmostLongest(entries, text[n..]);
      assert Pieces(entries, text)[1..] == Pieces(entries, text[n..]);
      assert length == 0 ==> text[..1] !in entries;
    }
  }

  // There is exactly one such way to cut a text, and converting it replaces exactly its pieces.
  lemma {:induction false} RewritesPieces(entries: map<string, string>, pieces: seq<string>, text: string)
    requires LeftmostLongest(entries, pieces, text) && "" !in entries
    ensures Rewrite(entries, text) == ReplaceAll(entries, pieces)
    ensures pieces == Pieces(entries, text)
    decreases |pieces|
  {
    if pieces != [] {
      var n := |pieces[0]|;
      assert [text[0]] == text[..1];
      RewritesPieces(entries, pieces[1..], text[n..]);
      assert pieces == [pieces[0]] + pieces[1..];
    }
  }

  // A text in which no key occurs is unchanged.
  lemma {:induction false} KeylessTextUnchanged(entries: map<string, string>, text: string)
    requires forall i, j :: 0 <= i < j <= |text| ==> text[i..j] !in entries
    ensures Rewrite(entries, text) == text
    decreases |text|
  {
    if text != "" {
      forall k | 0 < k <= |text| ensures text[..k] !in entries {
        assert text[..k] == text[0..k];
      }
      assert Rewrite(entries, text) == [text[0]] + Rewrite(entries, text[1..]);
      forall i, j | 0 <= i < j <= |text| - 1 ensures text[1..][i..j] !in entries {
        assert text[1..][i..j] == text[i + 1..j + 1];
      }
      KeylessTextUnchanged(entries, text[1..]);
    }
  }

  // ----- the chain of dictionaries -----

  ghost function RewriteChain(chain: seq<Dictionary>, text: string): string {
    if chain == [] then text
    else Rewrite(chain[|chain| - 1].entries, RewriteChain(chain[..|chain| - 1], text))
  }

  method ToTraditional(chain: seq<Dictionary>, value: string) returns (result: string)
    requires forall d :: d in chain ==> Bounded(d)
    ensures result == RewriteChain(chain, value)
  {
    result := value;
    var i := 0;
    while i < |chain|
      invariant i <= |chain| && result == RewriteChain(chain[..i], value)
    {
      result := Convert(chain[i], result);
      assert chain[..i + 1][..i] == chain[..i];
      i := i + 1;
    }
    assert chain[..i] == chain;
  }
}
