/**
 * The equirectangular texture of the globe (lighthousemap.py): a loader for
 * the plain-text PPM format ("P3") read line by line, and a sampler that
 * averages a square window of texels around a latitude and longitude.
 */
module TextureMap {
  import opened Common
  import opened Builtins

  /** The exceptions the loader and the sampler raise, by cause. */
  datatype MapError =
    | BadVersion            // ValueError: the version line is not P3
    | BadDimensionFormat    // ValueError: the dimension line does not match its pattern
    | DimensionsOutOfRange  // ValueError: the size check on the dimensions
    | BadMaxColorValue      // ValueError: a maximum colour value other than 15 or 255
    | NotAnInteger          // ValueError raised by int()
    | IndexOutOfRange       // IndexError: list, string or array index
    | DivisionByZero        // ZeroDivisionError
    | LatitudeOutOfRange    // ValueError
    | LongitudeOutOfRange   // ValueError

  function ErrorOf<T>(r: Result<T, MapError>): Option<MapError> {
    if r.Success? then None else Some(r.error)
  }

  // ---------------------------------------------------------------------
  // Header lines
  // ---------------------------------------------------------------------

  /** How the header loop sees a line: `line.lstrip()` is empty (so
      `line.lstrip()[0]` raises IndexError), starts with `#`, or is content. */
  datatype LineKind = Blank | Comment | Content

  function Kind(line: string): LineKind {
    if line == [] then Blank
    else if IsSpace(line[0]) then Kind(line[1..])
    else if line[0] == '#' then Comment
    else Content
  }

  /** `Kind` looks at the first character of `line.lstrip()`. */
  lemma {:induction false} KindOfLStrip(line: string)
    ensures Kind(line) == (var t := LStrip(line); if t == [] then Blank else if t[0] == '#' then Comment else Content)
  {
    if line != [] && IsSpace(line[0]) {
      KindOfLStrip(line[1..]);
    }
  }

  /** The version line is accepted exactly when it strips to `P3`. */
  predicate IsVersionLine(line: string) {
    Strip(line) == "P3"
  }

  /** The maximum colour value line: `int(line)`, which must be 15 or 255. */
  function MaxColorValue(line: string): (r: Result<int, MapError>)
    ensures r.Success? <==> ParseInt(line) == Some(15) || ParseInt(line) == Some(255)
    ensures r.Success? ==> ParseInt(line) == Some(r.value)
    ensures ParseInt(line).None? ==> r == Failure(NotAnInteger)
  {
    match ParseInt(line)
    case None => Failure(NotAnInteger)
    case Some(v) => if v in [15, 255] then Success(v) else Failure(BadMaxColorValue)
  }

  /** The length of the run of ASCII digits that starts `s`. */
  function DigitRun(s: string): (k: nat)
    ensures k <= |s| && AllDigits(s[..k]) && (k < |s| ==> !IsDigit(s[k]))
  {
    if s != [] && IsDigit(s[0]) then
      var k := 1 + DigitRun(s[1..]);
      assert s[..k] == [s[0]] + s[1..][..k - 1];
      k
    else 0
  }

  /** `re.match(r"[0-9]+?\s[0-9]+?", t)`: a run of digits, exactly one
      whitespace character, then a digit. */
  predicate MatchesDimensionPattern(t: string) {
    var k := DigitRun(t);
    1 <= k && k + 1 < |t| && IsSpace(t[k]) && IsDigit(t[k + 1])
  }

  /** The pattern as the regular expression reads it: SOME non-empty prefix of
      digits followed by one whitespace character and a digit. */
  lemma DimensionPatternIsRegex(t: string)
    ensures MatchesDimensionPattern(t) <==>
      exists j :: 1 <= j && j + 1 < |t| && AllDigits(t[..j]) && IsSpace(t[j]) && IsDigit(t[j + 1])
  {
    var k := DigitRun(t);
    if j :| 1 <= j && j + 1 < |t| && AllDigits(t[..j]) && IsSpace(t[j]) && IsDigit(t[j + 1]) {
      assert k == j;
    }
  }

  /** What `split()` makes of a line that matches the dimension pattern: the
      digit run, then the word that starts right after the one whitespace character. */
  lemma SplitDimensionLine(t: string)
    requires MatchesDimensionPattern(t)
    ensures var k := DigitRun(t);
      var words := Split(t);
      |words| >= 2 && words[0] == t[..k] && words[1] == TakeWord(t[k + 1..])
      && words[1] != [] && IsDigit(words[1][0]) && IsDigit(words[0][0])
  {
    var k := DigitRun(t);
    assert t[..k][0] == t[0];
    var w := TakeWord(t);
    assert t[..k] == w;
    var s := t[k..];
    assert s[0] == t[k];
    assert s[1..] == t[k + 1..];
    var u := t[k + 1..];
    assert u[0] == t[k + 1];
    var w1 := TakeWord(u);
    SplitAtWord(t);
    SplitAtSpace(s);
    SplitAtWord(u);
    assert w1[0] == u[0];
  }

  /** `split()` of a string that starts with a word: that word, then the rest split. */
  lemma SplitAtWord(s: string)
    requires s != [] && !IsSpace(s[0])
    ensures Split(s) == [TakeWord(s)] + Split(s[|TakeWord(s)|..])
  {
  }

  /** `split()` skips a leading whitespace character. */
  lemma SplitAtSpace(s: string)
    requires s != [] && IsSpace(s[0])
    ensures Split(s) == Split(s[1..])
  {
  }

  /** `__validate_and_set_dimensions` up to the assignments: the pattern check,
      `int()` of the first two words of `split()` (an IndexError if there were
      fewer), and the size check AS WRITTEN,
      `not (x in range(28, 361)) and (y in range(14, 181))`. */
  function ParseDimensions(line: string): (r: Result<(int, int), MapError>)
    ensures !MatchesDimensionPattern(Strip(line)) ==> r == Failure(BadDimensionFormat)
    ensures r.Success? ==> 28 <= r.value.0 <= 360 || !(14 <= r.value.1 <= 180)
  {
    var t := Strip(line);
    if !MatchesDimensionPattern(t) then Failure(BadDimensionFormat)
    else
      var words := Split(t);
      if |words| < 1 then Failure(IndexOutOfRange)
      else
        match ParseInt(words[0])
        case None => Failure(NotAnInteger)
        case Some(x) =>
          if |words| < 2 then Failure(IndexOutOfRange)
          else
            match ParseInt(words[1])
            case None => Failure(NotAnInteger)
            case Some(y) =>
              if !(28 <= x <= 360) && (14 <= y <= 180) then Failure(DimensionsOutOfRange)
              else Success((x, y))
  }

  /** The pattern guarantees two words that start with a digit, so no IndexError
      is raised and both dimensions are non-negative. */
  lemma ParsedDimensionsNatural(line: string)
    ensures ParseDimensions(line) != Failure(IndexOutOfRange)
    ensures ParseDimensions(line).Success? ==> ParseDimensions(line).value.0 >= 0 && ParseDimensions(line).value.1 >= 0
  {
    var t := Strip(line);
    if MatchesDimensionPattern(t) {
      SplitDimensionLine(t);
      var words := Split(t);
      ParseIntUnsigned(words[0]);
      ParseIntUnsigned(words[1]);
    }
  }

  lemma DigitPairStripped(a: string, b: string)
    requires a != [] && AllDigits(a) && b != [] && AllDigits(b)
    ensures Strip(a + " " + b) == a + " " + b
  {
    var line := a + " " + b;
    assert line[0] == a[0] && line[|line| - 1] == b[|b| - 1];
    assert IsDigit(a[0]) && IsDigit(b[|b| - 1]);
    StripUntrimmed(line);
  }

  /** The digit run is the one prefix of digits followed by a non-digit (or the end). */
  lemma {:induction false} DigitRunUnique(s: string, k: nat)
    requires k <= |s| && AllDigits(s[..k]) && (k < |s| ==> !IsDigit(s[k]))
    ensures DigitRun(s) == k
  {
    if k > 0 {
      assert s[..k][0] == s[0];
      assert s[1..][..k - 1] == s[..k][1..];
      DigitRunUnique(s[1..], k - 1);
    }
  }

  lemma DigitPairRun(a: string, b: string)
    requires a != [] && AllDigits(a) && b != [] && AllDigits(b)
    ensures DigitRun(a + " " + b) == |a| && MatchesDimensionPattern(a + " " + b)
  {
    var line := a + " " + b;
    assert line[|a|] == ' ';
    assert line[..|a|] == a;
    assert line[|a| + 1] == b[0];
    DigitRunUnique(line, |a|);
  }

  /** Two runs of digits joined by one space: the line is already stripped, it
      matches the pattern, and its first two words are the two runs. */
  lemma DigitPairLine(a: string, b: string)
    requires a != [] && AllDigits(a) && b != [] && AllDigits(b)
    ensures var line := a + " " + b;
      Strip(line) == line && MatchesDimensionPattern(line)
      && |Split(line)| >= 2 && Split(line)[0] == a && Split(line)[1] == b
  {
    var line := a + " " + b;
    DigitPairStripped(a, b);
    DigitPairRun(a, b);
    SplitDimensionLine(line);
    assert line[..|a|] == a;
    assert line[|a| + 1..] == b;
    assert NoSpace(b) by {
      forall i | 0 <= i < |b| ensures !IsSpace(b[i]) {
        assert IsDigit(b[i]);
      }
    }
    TakeWordNoSpace(b);
  }

  /** A dimension line `x y` written in decimal is rejected on size exactly when
      x lies outside [28, 360] AND y inside [14, 180]: the precedence of `not`
      makes the check miss every y outside its range. */
  lemma DimensionRangeAsWritten(x: nat, y: nat)
    ensures ParseDimensions(Decimal(x) + " " + Decimal(y)) ==
      if !(28 <= x <= 360) && 14 <= y <= 180 then Failure(DimensionsOutOfRange) else Success((x, y))
  {
    DigitPairLine(Decimal(x), Decimal(y));
    ParseIntDecimal(x);
    ParseIntDecimal(y);
  }

  // ---------------------------------------------------------------------
  // The header as a whole
  // ---------------------------------------------------------------------

  /** Everything the header loop may make of one line: its kind, and what the
      version, dimension and maximum-value steps would conclude from it. */
  datatype LineReading = LineReading(
    kind: LineKind,
    isVersion: bool,
    dimensions: Result<(int, int), MapError>,
    maxValue: Result<int, MapError>)

  function Read(line: string): LineReading {
    LineReading(Kind(line), IsVersionLine(line), ParseDimensions(line), MaxColorValue(line))
  }

  /** The reading of every line, in order. Defined by recursion, so that a
      reading is linked to the text of its line only through `ReadingAt`. */
  function Readings(lines: seq<string>): (rs: seq<LineReading>)
    ensures |rs| == |lines|
  {
    if lines == [] then [] else Readings(lines[..|lines| - 1]) + [Read(lines[|lines| - 1])]
  }

  lemma {:induction false} ReadingAt(lines: seq<string>, i: nat)
    requires i < |lines|
    ensures Readings(lines)[i] == Read(lines[i])
    decreases |lines|
  {
    if i < |lines| - 1 {
      var front := lines[..|lines| - 1];
      assert front[i] == lines[i];
      ReadingAt(front, i);
    }
  }

  /** `ReadingAt`, one field at a time. */
  lemma ReadingKind(lines: seq<string>, i: nat)
    requires i < |lines|
    ensures Readings(lines)[i].kind == Kind(lines[i])
  {
    ReadingAt(lines, i);
  }

  lemma ReadingVersion(lines: seq<string>, i: nat)
    requires i < |lines|
    ensures Readings(lines)[i].isVersion == IsVersionLine(lines[i])
  {
    ReadingAt(lines, i);
  }

  lemma ReadingDimensions(lines: seq<string>, i: nat)
    requires i < |lines|
    ensures Readings(lines)[i].dimensions == ParseDimensions(lines[i])
  {
    ReadingAt(lines, i);
  }

  lemma ReadingMaxValue(lines: seq<string>, i: nat)
    requires i < |lines|
    ensures Readings(lines)[i].maxValue == MaxColorValue(lines[i])
  {
    ReadingAt(lines, i);
  }

  /** The index of the first line at or after `from` that is not a comment, as the
      loop `pop(0)`s it; IndexError when the list runs out or that line is blank. */
  function NextContentLine(rs: seq<LineReading>, from: nat): (r: Result<nat, MapError>)
    requires from <= |rs|
    ensures r.Success? ==> from <= r.value < |rs| && rs[r.value].kind.Content?
    ensures r.Success? ==> forall i :: from <= i < r.value ==> rs[i].kind.Comment?
    ensures r.Failure? ==> r.error == IndexOutOfRange
    decreases |rs| - from
  {
    if from == |rs| then Failure(IndexOutOfRange)
    else if rs[from].kind.Blank? then Failure(IndexOutOfRange)
    else if rs[from].kind.Comment? then NextContentLine(rs, from + 1)
    else Success(from)
  }

  /** Comment lines between `a` and `b` change nothing about the next content line. */
  lemma {:induction false} SkipComments(rs: seq<LineReading>, a: nat, b: nat)
    requires a <= b <= |rs|
    requires forall i :: a <= i < b ==> rs[i].kind.Comment?
    ensures NextContentLine(rs, a) == NextContentLine(rs, b)
    decreases b - a
  {
    if a < b {
      SkipComments(rs, a + 1, b);
    }
  }

  /** The converse of `NextContentLine`'s contract: a content line reached through
      comments only is the one found, so the search fails exactly when there is none. */
  lemma ContentLineFound(rs: seq<LineReading>, from: nat, c: nat)
    requires from <= c < |rs| && rs[c].kind.Content?
    requires forall i :: from <= i < c ==> rs[i].kind.Comment?
    ensures NextContentLine(rs, from) == Success(c)
  {
    SkipComments(rs, from, c);
  }

  /** The index of the accepted version line. */
  function VersionStage(rs: seq<LineReading>): (r: Result<nat, MapError>)
    ensures r.Success? ==> r.value < |rs| && rs[r.value].isVersion
  {
    var v :- NextContentLine(rs, 0);
    if rs[v].isVersion then Success(v) else Failure(BadVersion)
  }

  /** The next content line from `from` on, with the dimensions it states. */
  function DimensionLine(rs: seq<LineReading>, from: nat): (r: Result<(nat, (int, int)), MapError>)
    requires from <= |rs|
    ensures r.Success? ==> from <= r.value.0 < |rs| && rs[r.value.0].dimensions == Success(r.value.1)
  {
    var d :- NextContentLine(rs, from);
    var xy :- rs[d].dimensions;
    Success((d, xy))
  }

  /** The next content line from `from` on, with the maximum value it states. */
  function MaxValueLine(rs: seq<LineReading>, from: nat): (r: Result<(nat, int), MapError>)
    requires from <= |rs|
    ensures r.Success? ==> from <= r.value.0 < |rs| && rs[r.value.0].maxValue == Success(r.value.1)
  {
    var m :- NextContentLine(rs, from);
    var mv :- rs[m].maxValue;
    Success((m, mv))
  }

  /** The index of the dimension line and the dimensions it states. */
  function DimensionStage(rs: seq<LineReading>): (r: Result<(nat, (int, int)), MapError>)
    ensures r.Success? ==> VersionStage(rs).Success? && VersionStage(rs).value < r.value.0 < |rs|
    ensures r.Success? ==> rs[r.value.0].dimensions == Success(r.value.1)
  {
    var v :- VersionStage(rs);
    DimensionLine(rs, v + 1)
  }

  /** The outcome of the dimension step alone. */
  function DimensionsRead(rs: seq<LineReading>): Result<(int, int), MapError> {
    var ds :- DimensionStage(rs);
    Success(ds.1)
  }

  /** The index of the maximum colour value line and that value: the whole
      header is accepted. A zero height already failed on `180.0 / y`. */
  function MaxValueStage(rs: seq<LineReading>): (r: Result<(nat, int), MapError>)
    ensures r.Success? ==> DimensionStage(rs).Success? && DimensionStage(rs).value.0 < r.value.0 < |rs|
    ensures r.Success? ==> DimensionStage(rs).value.1.1 != 0 && rs[r.value.0].maxValue == Success(r.value.1)
  {
    var ds :- DimensionStage(rs);
    if ds.1.1 == 0 then Failure(DivisionByZero) else MaxValueLine(rs, ds.0 + 1)
  }

  /** An accepted header is: the version line, the dimension line and the
      maximum colour value line in this order, and comment lines elsewhere;
      `ReadingAt` turns each reading back into a statement about the line. */
  lemma HeaderLayout(rs: seq<LineReading>)
    requires MaxValueStage(rs).Success?
    ensures var v := VersionStage(rs).value;
      var d := DimensionStage(rs).value.0;
      var m := MaxValueStage(rs).value.0;
      v < d < m < |rs| && rs[v].isVersion
      && rs[d].dimensions == Success(DimensionStage(rs).value.1)
      && DimensionStage(rs).value.1.1 != 0
      && rs[m].maxValue == Success(MaxValueStage(rs).value.1)
      && forall i :: 0 <= i <= m && i != v && i != d && i != m ==> rs[i].kind.Comment?
  {
  }

  /** A line that starts with a digit is content. */
  lemma DigitLineIsContent(s: string)
    requires s != [] && IsDigit(s[0])
    ensures Kind(s) == Content
  {
    assert !IsSpace(s[0]);
  }

  lemma ReadVersionLine(lines: seq<string>, i: nat)
    requires i < |lines| && lines[i] == "P3"
    ensures Readings(lines)[i].kind.Content? && Readings(lines)[i].isVersion
  {
    var l := lines[i];
    assert l[0] == 'P' && l[1] == '3' && |l| == 2;
    StripUntrimmed(l);
    assert Kind(l) == Content;
    assert IsVersionLine(l);
    ReadingAt(lines, i);
  }

  lemma ReadDimensionLine(lines: seq<string>, i: nat, x: nat, y: nat)
    requires i < |lines| && lines[i] == Decimal(x) + " " + Decimal(y)
    requires 28 <= x <= 360 || !(14 <= y <= 180)
    ensures Readings(lines)[i].kind.Content? && Readings(lines)[i].dimensions == Success((x, y))
  {
    assert lines[i][0] == Decimal(x)[0];
    DigitLineIsContent(lines[i]);
    DimensionRangeAsWritten(x, y);
    ReadingAt(lines, i);
  }

  lemma ReadMaxValueLine(lines: seq<string>, i: nat, maxValue: nat)
    requires i < |lines| && lines[i] == Decimal(maxValue)
    requires maxValue == 15 || maxValue == 255
    ensures Readings(lines)[i].kind.Content? && Readings(lines)[i].maxValue == Success(maxValue)
  {
    DigitLineIsContent(lines[i]);
    ParseIntDecimal(maxValue);
    ReadingAt(lines, i);
  }

  /** A header written without comments is read back: `P3`, `x y`, the maximum value. */
  lemma ReadWrittenHeader(x: nat, y: nat, maxValue: nat, body: seq<string>)
    requires 28 <= x <= 360 || !(14 <= y <= 180)
    requires y != 0 && (maxValue == 15 || maxValue == 255)
    ensures var rs := Readings(["P3", Decimal(x) + " " + Decimal(y), Decimal(maxValue)] + body);
      DimensionStage(rs) == Success((1, (x, y))) && MaxValueStage(rs) == Success((2, maxValue))
  {
    var lines := ["P3", Decimal(x) + " " + Decimal(y), Decimal(maxValue)] + body;
    ReadHeaderText(lines, x, y, maxValue);
  }

  lemma ReadHeaderText(lines: seq<string>, x: nat, y: nat, maxValue: nat)
    requires 28 <= x <= 360 || !(14 <= y <= 180)
    requires y != 0 && (maxValue == 15 || maxValue == 255)
    requires |lines| >= 3 && lines[0] == "P3" && lines[1] == Decimal(x) + " " + Decimal(y)
    requires lines[2] == Decimal(maxValue)
    ensures var rs := Readings(lines);
      DimensionStage(rs) == Success((1, (x, y))) && MaxValueStage(rs) == Success((2, maxValue))
  {
    ReadVersionLine(lines, 0);
    ReadDimensionLine(lines, 1, x, y);
    ReadMaxValueLine(lines, 2, maxValue);
    ReadHeaderLines(Readings(lines), x, y, maxValue);
  }

  /** The header stages over readings whose first three lines are the version,
      the dimensions and the maximum value. */
  lemma ReadHeaderLines(rs: seq<LineReading>, x: int, y: int, maxValue: int)
    requires |rs| >= 3 && y != 0
    requires rs[0].kind.Content? && rs[0].isVersion
    requires rs[1].kind.Content? && rs[1].dimensions == Success((x, y))
    requires rs[2].kind.Content? && rs[2].maxValue == Success(maxValue)
    ensures DimensionStage(rs) == Success((1, (x, y))) && MaxValueStage(rs) == Success((2, maxValue))
  {
    assert NextContentLine(rs, 0) == Success(0);
    assert NextContentLine(rs, 1) == Success(1);
    assert NextContentLine(rs, 2) == Success(2);
  }

  // ---------------------------------------------------------------------
  // Body tokens
  // ---------------------------------------------------------------------

  /** Concatenating more pieces only extends the result. */
  lemma {:induction false} ConcatPrefix<T>(xs: seq<seq<T>>, n: nat)
    requires n <= |xs|
    ensures Concat(xs[..n]) <= Concat(xs)
    decreases |xs|
  {
    if n < |xs| {
      var front := xs[..|xs| - 1];
      assert xs[..n] == front[..n];
      ConcatPrefix(front, n);
    } else {
      assert xs[..n] == xs;
    }
  }

  /** Piece `n` of `xs` sits in `Concat(xs)` right after the pieces before it. */
  lemma ConcatPiece<T>(xs: seq<seq<T>>, n: nat)
    requires n < |xs|
    ensures var off := |Concat(xs[..n])|;
      |Concat(xs[..n + 1])| == off + |xs[n]| && off + |xs[n]| <= |Concat(xs)|
      && Concat(xs)[off..off + |xs[n]|] == xs[n]
  {
    var p := xs[..n + 1];
    assert p[..|p| - 1] == xs[..n];
    ConcatPrefix(xs, n + 1);
  }

  /** `int()` of each word of one line: the values the loader meets as it
      walks through `line.split()`. */
  function TokenValues(words: seq<string>): (vs: seq<Option<int>>)
    ensures |vs| == |words|
  {
    if words == [] then [] else TokenValues(words[..|words| - 1]) + [ParseInt(words[|words| - 1])]
  }

  lemma {:induction false} ValueAt(words: seq<string>, n: nat)
    requires n < |words|
    ensures TokenValues(words)[n] == ParseInt(words[n])
    decreases |words|
  {
    if n < |words| - 1 {
      var front := words[..|words| - 1];
      assert front[n] == words[n];
      ValueAt(front, n);
    }
  }

  /** The values of the words of every body line, line by line. */
  function LineValues(lines: seq<string>): seq<seq<Option<int>>> {
    seq(|lines|, i requires 0 <= i < |lines| => TokenValues(Split(lines[i])))
  }

  /** `int()` of every `line.split()` word of the body, in order: the
      sequence of values the loader stores one by one. */
  function BodyValues(lines: seq<string>): seq<Option<int>> {
    Concat(LineValues(lines))
  }

  /** The words of line `li` have their values in `BodyValues(lines)` right
      after the values of the lines before it. */
  lemma LineWordValues(lines: seq<string>, li: nat, vs: seq<Option<int>>, words: seq<string>, off: nat)
    requires li < |lines| && vs == BodyValues(lines) && words == Split(lines[li])
    requires off == |Concat(LineValues(lines)[..li])|
    ensures |Concat(LineValues(lines)[..li + 1])| == off + |words| && off + |words| <= |vs|
    ensures forall w :: 0 <= w < |words| ==> vs[off + w] == ParseInt(words[w])
  {
    var vss := LineValues(lines);
    assert vss[li] == TokenValues(words);
    PieceValues(vss, li, words, off);
  }

  /** The same for any sequence of pieces whose piece `li` holds the values of `words`. */
  lemma PieceValues(vss: seq<seq<Option<int>>>, li: nat, words: seq<string>, off: nat)
    requires li < |vss| && vss[li] == TokenValues(words) && off == |Concat(vss[..li])|
    ensures |Concat(vss[..li + 1])| == off + |words| && off + |words| <= |Concat(vss)|
    ensures forall w :: 0 <= w < |words| ==> Concat(vss)[off + w] == ParseInt(words[w])
  {
    ConcatPiece(vss, li);
    forall w | 0 <= w < |words|
      ensures Concat(vss)[off + w] == ParseInt(words[w])
    {
      assert Concat(vss)[off + w] == vss[li][w];
      ValueAt(words, w);
    }
  }

  /** The flat position of cell (row, column, channel) in row-major order. */
  function Flat(i: nat, j: nat, k: nat, dimX: nat): nat {
    (RowStart(i, dimX) + j) * 3 + k
  }

  /** The flat column index of the start of row `i`, written as a recursion so
      that only `RowStartIs` needs to know it is `i * dimX`. */
  function RowStart(i: nat, dimX: nat): nat {
    if i == 0 then 0 else RowStart(i - 1, dimX) + dimX
  }

  lemma {:induction false} RowStartIs(i: nat, dimX: nat)
    ensures RowStart(i, dimX) == i * dimX
  {
    if i > 0 {
      RowStartIs(i - 1, dimX);
    }
  }

  /** Distinct cells of a raster have distinct flat positions. */
  lemma FlatInjective(i: nat, j: nat, k: nat, i': nat, j': nat, k': nat, dimX: nat)
    requires j < dimX && j' < dimX && k < 3 && k' < 3
    requires Flat(i, j, k, dimX) == Flat(i', j', k', dimX)
    ensures i == i' && j == j' && k == k'
  {
    RowStartIs(i, dimX);
    RowStartIs(i', dimX);
    var p, p' := i * dimX + j, i' * dimX + j';
    assert p * 3 + k == p' * 3 + k';
    assert p == p' && k == k';
    RowsSeparate(i, i', j, j', dimX);
  }

  /** Within rows of `m` columns, equal positions lie in the same row. */
  lemma RowsSeparate(a: nat, b: nat, j: nat, j': nat, m: nat)
    requires j < m && j' < m
    ensures a * m + j == b * m + j' ==> a == b
  {
    if a < b {
      MulMonotoneNat(a + 1, b, m);
    } else if b < a {
      MulMonotoneNat(b + 1, a, m);
    }
  }

  lemma MulMonotoneNat(a: nat, b: nat, m: nat)
    requires a <= b
    ensures a * m <= b * m
  {
  }

  /** How many values a raster of `rows` rows of `cols` columns of three
      channels holds (`rows * cols * 3`, see `CellCountIs`). */
  function CellCount(rows: nat, cols: nat): nat {
    RowStart(rows, cols) * 3
  }

  lemma CellCountIs(rows: nat, cols: nat)
    ensures CellCount(rows, cols) == rows * cols * 3
  {
    RowStartIs(rows, cols);
  }

  /** A raster without columns holds nothing. */
  lemma {:induction false} CellCountNoColumns(rows: nat)
    ensures CellCount(rows, 0) == 0
  {
    RowStartIs(rows, 0);
  }

  /** Later rows start later, a whole row later when they differ. */
  lemma {:induction false} RowStartMonotone(a: nat, b: nat, dimX: nat)
    requires a <= b
    ensures RowStart(a, dimX) <= RowStart(b, dimX)
    ensures a < b ==> RowStart(a, dimX) + dimX <= RowStart(b, dimX)
    decreases b
  {
    if a < b {
      RowStartMonotone(a, b - 1, dimX);
    }
  }

  /** The flat position of a cell lies inside a raster of `rows` rows exactly
      when the cell's row is one of them. */
  lemma FlatBelowCapacity(i: nat, j: nat, k: nat, rows: nat, dimX: nat)
    requires j < dimX && k < 3
    ensures Flat(i, j, k, dimX) < CellCount(rows, dimX) <==> i < rows
  {
    if i < rows {
      RowStartMonotone(i, rows, dimX);
    } else {
      RowStartMonotone(rows, i, dimX);
    }
  }

  /** Each row-major step of the three counters moves one flat position on:
      the channel, then the column (modulo `dimX`), then the row. */
  lemma FlatNext(lat: nat, lon: nat, rgb: nat, dimX: nat)
    requires lon < dimX && rgb < 3
    ensures var rgb' := (rgb + 1) % 3;
      var lon' := if rgb' == 0 then (lon + 1) % dimX else lon;
      var lat' := if rgb' == 0 && lon' == 0 then lat + 1 else lat;
      Flat(lat', lon', rgb', dimX) == Flat(lat, lon, rgb, dimX) + 1 && lon' < dimX
  {
  }

  /** Token `n` lands in row `(n / 3) / dimX`, column `(n / 3) % dimX` and
      channel `n % 3`. */
  lemma FlatOfToken(n: nat, dimX: nat)
    requires dimX > 0
    ensures var i, j, k := (n / 3) / dimX, (n / 3) % dimX, n % 3;
      j < dimX && k < 3 && Flat(i, j, k, dimX) == n
  {
    var c := n / 3;
    RowStartIs(c / dimX, dimX);
    assert c == (c / dimX) * dimX + c % dimX;
    assert n == c * 3 + n % 3;
  }

  /** How many tokens, starting at `from`, the loader stores before it stops: at
      the first token `int()` rejects, or the first beyond the `capacity` of the
      raster, or at the end. */
  function StoredFrom(vs: seq<Option<int>>, capacity: nat, from: nat): (n: nat)
    requires from <= |vs|
    ensures from <= n <= |vs|
    decreases |vs| - from
  {
    if from == |vs| || vs[from].None? || from >= capacity then from
    else StoredFrom(vs, capacity, from + 1)
  }

  /** The loader stores integers only, never more than `capacity` of them,
      and it stops only at the end, at a token `int()` rejects or at the
      first token past the raster. */
  lemma {:induction false} StoredFromStops(vs: seq<Option<int>>, capacity: nat, from: nat)
    requires from <= |vs|
    ensures var n := StoredFrom(vs, capacity, from);
      (forall p :: from <= p < n ==> vs[p].Some?)
      && (n > from ==> n <= capacity)
      && (n < |vs| ==> vs[n].None? || n >= capacity)
    decreases |vs| - from
  {
    if !(from == |vs| || vs[from].None? || from >= capacity) {
      StoredFromStops(vs, capacity, from + 1);
    }
  }

  function Stored(vs: seq<Option<int>>, capacity: nat): nat {
    StoredFrom(vs, capacity, 0)
  }

  /** The exception that ends the body: ValueError from `int()`, or IndexError
      from the raster; none when every token was stored. */
  function BodyError(vs: seq<Option<int>>, capacity: nat): (e: Option<MapError>)
    ensures e.None? <==> Stored(vs, capacity) == |vs|
  {
    var n := Stored(vs, capacity);
    if n == |vs| then None
    else if vs[n].None? then Some(NotAnInteger)
    else Some(IndexOutOfRange)
  }

  /** Every token before `n` is stored and token `n` is not (or there is none):
      then `n` is the stored count. */
  lemma {:induction false} StoredFromIs(vs: seq<Option<int>>, capacity: nat, from: nat, n: nat)
    requires from <= n <= |vs|
    requires forall p :: from <= p < n ==> vs[p].Some?
    requires n > from ==> n <= capacity
    requires n < |vs| ==> vs[n].None? || n >= capacity
    ensures StoredFrom(vs, capacity, from) == n
    decreases n - from
  {
    if from < n {
      assert vs[from].Some? && from < capacity;
      StoredFromIs(vs, capacity, from + 1, n);
    }
  }

  /** A flat position belongs to one cell only. */
  lemma FlatDistinct(lat: nat, lon: nat, rgb: nat, dimX: nat)
    requires lon < dimX && rgb < 3
    ensures forall i: nat, j: nat, k: nat :: j < dimX && k < 3 && Flat(i, j, k, dimX) == Flat(lat, lon, rgb, dimX) ==>
      i == lat && j == lon && k == rgb
  {
    forall i: nat, j: nat, k: nat | j < dimX && k < 3 && Flat(i, j, k, dimX) == Flat(lat, lon, rgb, dimX)
      ensures i == lat && j == lon && k == rgb
    {
      FlatInjective(i, j, k, lat, lon, rgb, dimX);
    }
  }

  /** A header that raises nothing has set the version, nonzero dimensions
      and a maximum value. */
  lemma HeaderRunAccepted(lines: seq<string>)
    requires HeaderRun(lines).error.None?
    ensures var h := HeaderRun(lines);
      h.versionSet && h.dimensions.Some? && h.dimensions.value.1 != 0 && h.maxValue.Some?
      && h.dimensions.value.0 >= 0 && h.dimensions.value.1 >= 0
      && h.consumed <= |lines|
  {
    HeaderRunIsStaged(lines);
    var d := DimensionStage(Readings(lines)).value.0;
    ReadingDimensions(lines, d);
    ParsedDimensionsNatural(lines[d]);
  }

  /** The exception `load_image` raises on the lines of a file, if any: the
      header loop's, or else the body loader's on the lines after the header,
      for a raster of the dimensions the header gave. */
  function LoadError(lines: seq<string>): Option<MapError> {
    var h := HeaderRun(lines);
    if h.error.Some? then h.error
    else
      HeaderRunAccepted(lines);
      var (x, y) := h.dimensions.value;
      BodyError(BodyValues(lines[h.consumed..]), CellCount(y as nat, x as nat))
  }

  /** A `Success` value, or `None` on failure. */
  function Accepted<T>(r: Result<T, MapError>): Option<T> {
    if r.Success? then Some(r.value) else None
  }

  /** Everything the header loop brings about from line `i` on: the exception
      that ends it (if any), whether it sets the version, the dimensions it
      assigns (also when `180.0 / y` then fails), the maximum value it sets,
      and how many lines have been popped when it stops. */
  datatype HeaderOutcome = HeaderOutcome(
    error: Option<MapError>,
    versionSet: bool,
    dimensions: Option<(int, int)>,
    maxValue: Option<int>,
    consumed: nat)

  /** One pass of the header loop per line, from line `i` on, given which header
      lines have already been read. */
  function HeaderFrom(rs: seq<LineReading>, i: nat, readVersion: bool, readDimension: bool): (o: HeaderOutcome)
    requires i <= |rs|
    ensures i <= o.consumed <= |rs|
    decreases |rs| - i
  {
    if i == |rs| then HeaderOutcome(Some(IndexOutOfRange), false, None, None, i)
    else if rs[i].kind.Blank? then HeaderOutcome(Some(IndexOutOfRange), false, None, None, i + 1)
    else if rs[i].kind.Comment? then HeaderFrom(rs, i + 1, readVersion, readDimension)
    else if !readVersion then
      if rs[i].isVersion then HeaderFrom(rs, i + 1, true, false).(versionSet := true)
      else HeaderOutcome(Some(BadVersion), false, None, None, i + 1)
    else if !readDimension then
      match rs[i].dimensions
      case Failure(e) => HeaderOutcome(Some(e), false, None, None, i + 1)
      case Success(xy) =>
        if xy.1 == 0 then HeaderOutcome(Some(DivisionByZero), false, Some(xy), None, i + 1)
        else HeaderFrom(rs, i + 1, true, true).(dimensions := Some(xy))
    else
      match rs[i].maxValue
      case Failure(e) => HeaderOutcome(Some(e), false, None, None, i + 1)
      case Success(mv) => HeaderOutcome(None, false, None, Some(mv), i + 1)
  }

  /** The header loop run on a whole file. */
  function HeaderRun(lines: seq<string>): HeaderOutcome {
    HeaderFrom(Readings(lines), 0, false, false)
  }

  /** The last phase of the loop looks for the next content line and reads the
      maximum value from it. */
  lemma {:induction false} MaxValuePhase(rs: seq<LineReading>, i: nat)
    requires i <= |rs|
    ensures var o, m := HeaderFrom(rs, i, true, true), MaxValueLine(rs, i);
      !o.versionSet && o.dimensions == None && o.error == ErrorOf(m)
      && o.maxValue == (if m.Success? then Some(m.value.1) else None)
      && (m.Success? ==> o.consumed == m.value.0 + 1)
    decreases |rs| - i
  {
    if i < |rs| && rs[i].kind.Comment? {
      MaxValuePhase(rs, i + 1);
    }
  }

  /** The middle phase finds the dimension line, then continues with the last phase. */
  lemma {:induction false} DimensionPhase(rs: seq<LineReading>, i: nat)
    requires i <= |rs|
    ensures var o, dl := HeaderFrom(rs, i, true, false), DimensionLine(rs, i);
      !o.versionSet && o.dimensions == (if dl.Success? then Some(dl.value.1) else None) &&
      if dl.Failure? then o.error == Some(dl.error) && o.maxValue == None
      else if dl.value.1.1 == 0 then o.error == Some(DivisionByZero) && o.maxValue == None
      else var h := HeaderFrom(rs, dl.value.0 + 1, true, true);
        o.error == h.error && o.maxValue == h.maxValue && o.consumed == h.consumed
    decreases |rs| - i
  {
    if i < |rs| && rs[i].kind.Comment? {
      DimensionPhase(rs, i + 1);
    } else if i < |rs| && rs[i].kind.Content? && rs[i].dimensions.Success? {
      MaxValuePhase(rs, i + 1);
    }
  }

  /** The first phase finds the version line, then continues with the middle phase. */
  lemma {:induction false} VersionPhase(rs: seq<LineReading>, i: nat)
    requires i <= |rs|
    ensures var o := HeaderFrom(rs, i, false, false);
      match NextContentLine(rs, i)
      case Failure(e) => o.error == Some(e) && !o.versionSet && o.dimensions == None && o.maxValue == None
      case Success(v) =>
        if rs[v].isVersion then
          var h := HeaderFrom(rs, v + 1, true, false);
          o.versionSet && o.error == h.error && o.dimensions == h.dimensions
          && o.maxValue == h.maxValue && o.consumed == h.consumed
        else o.error == Some(BadVersion) && !o.versionSet && o.dimensions == None && o.maxValue == None
    decreases |rs| - i
  {
    if i < |rs| && rs[i].kind.Comment? {
      VersionPhase(rs, i + 1);
    }
  }

  /** The outcome `o` of the loop is what the staged reading of `rs` says:
      version line, dimension line, maximum value line, each the next
      non-comment line. */
  ghost predicate Staged(o: HeaderOutcome, rs: seq<LineReading>) {
    o.error == ErrorOf(MaxValueStage(rs))
    && o.versionSet == VersionStage(rs).Success?
    && o.dimensions == Accepted(DimensionsRead(rs))
    && o.maxValue == (if MaxValueStage(rs).Success? then Some(MaxValueStage(rs).value.1) else None)
    && (MaxValueStage(rs).Success? ==> o.consumed == MaxValueStage(rs).value.0 + 1)
  }

  /** The loop, line by line, does what the staged reading says. */
  lemma StagedHeader(rs: seq<LineReading>)
    ensures Staged(HeaderFrom(rs, 0, false, false), rs)
  {
    VersionPhase(rs, 0);
    match NextContentLine(rs, 0)
    case Failure(e) =>
      assert VersionStage(rs) == Failure(e);
    case Success(v) =>
      if rs[v].isVersion {
        StagedAfterVersion(rs, v);
      } else {
        assert VersionStage(rs) == Failure(BadVersion);
      }
  }

  /** `StagedHeader` once the version line is found at `v`. */
  lemma StagedAfterVersion(rs: seq<LineReading>, v: nat)
    requires NextContentLine(rs, 0) == Success(v) && v < |rs| && rs[v].isVersion
    ensures Staged(HeaderFrom(rs, 0, false, false), rs)
  {
    VersionPhase(rs, 0);
    assert VersionStage(rs) == Success(v);
    DimensionPhase(rs, v + 1);
    var dl := DimensionLine(rs, v + 1);
    if dl.Success? && dl.value.1.1 != 0 {
      MaxValuePhase(rs, dl.value.0 + 1);
    }
  }

  /** `StagedHeader` for the readings of a file. */
  lemma HeaderRunIsStaged(lines: seq<string>)
    ensures Staged(HeaderRun(lines), Readings(lines))
  {
    StagedHeader(Readings(lines));
  }

  /** The variables of the header loop: its three flags, the exception that
      ended it (if any), and, as ghost bookkeeping, the dimensions and the
      maximum value the line handlers have accepted so far. */
  datatype HeaderLoop = HeaderLoop(readVersion: bool, readDimension: bool, readHeader: bool,
                                   error: Option<MapError>, applied: Option<(int, int)>, accepted: Option<int>)
  {
    predicate Stopped() {
      readHeader || error.Some?
    }
  }

  /** One pass of the loop body over a line with reading `r`: a blank line fails
      `lstrip()[0]`, a comment is skipped, and otherwise the first header line
      not yet read is validated. */
  function HeaderLineStep(st: HeaderLoop, r: LineReading): HeaderLoop {
    if r.kind.Blank? then st.(error := Some(IndexOutOfRange))
    else if r.kind.Comment? then st
    else if !st.readVersion then
      if r.isVersion then st.(readVersion := true) else st.(error := Some(BadVersion))
    else if !st.readDimension then
      var e := DimensionError(r.dimensions);
      st.(error := e, readDimension := e.None?, applied := Accepted(r.dimensions))
    else
      var e := ErrorOf(r.maxValue);
      st.(error := e, readHeader := e.None?, accepted := Accepted(r.maxValue))
  }

  /** The start of the header loop. */
  const HeaderStart := HeaderLoop(false, false, false, None, None, None)

  /** The header loop's variables after `i` lines: while it runs, the rest of
      `HeaderFrom` completes them to `total`; once it stops, they are `total`. */
  ghost predicate HeaderProgress(total: HeaderOutcome, rs: seq<LineReading>, i: nat, st: HeaderLoop) {
    i <= |rs| && (st.readDimension ==> st.readVersion)
    && (st.readDimension <==> st.applied.Some? && st.applied.value.1 != 0)
    && if st.Stopped() then
      total.error == st.error && total.consumed == i && total.versionSet == st.readVersion
      && total.dimensions == st.applied && total.maxValue == st.accepted
    else
      var o := HeaderFrom(rs, i, st.readVersion, st.readDimension);
      st.accepted.None? && (!st.readDimension ==> st.applied.None?)
      && total.error == o.error && total.consumed == o.consumed && total.maxValue == o.maxValue
      && total.versionSet == (st.readVersion || o.versionSet)
      && total.dimensions == if st.readDimension then st.applied else o.dimensions
  }

  lemma ProgressStart(lines: seq<string>)
    ensures HeaderProgress(HeaderRun(lines), Readings(lines), 0, HeaderStart)
  {
  }

  /** What a running loop knows about its bookkeeping. */
  lemma ProgressRunning(total: HeaderOutcome, rs: seq<LineReading>, i: nat, st: HeaderLoop)
    requires HeaderProgress(total, rs, i, st) && !st.Stopped()
    ensures st.error.None? && !st.readHeader && st.accepted.None?
    ensures st.readDimension ==> st.readVersion
    ensures !st.readDimension ==> st.applied.None?
  {
  }

  /** The list runs out before the header is complete. */
  lemma ProgressAtEnd(total: HeaderOutcome, rs: seq<LineReading>, i: nat, st: HeaderLoop)
    requires HeaderProgress(total, rs, i, st) && !st.Stopped() && i == |rs|
    ensures HeaderProgress(total, rs, i, st.(error := Some(IndexOutOfRange)))
  {
  }

  /** One pass of the loop body keeps the loop in step with `HeaderFrom`. */
  lemma ProgressStep(total: HeaderOutcome, rs: seq<LineReading>, i: nat, st: HeaderLoop)
    requires HeaderProgress(total, rs, i, st) && !st.Stopped() && i < |rs|
    ensures HeaderProgress(total, rs, i + 1, HeaderLineStep(st, rs[i]))
  {
  }

  // ---------------------------------------------------------------------
  // The map object
  // ---------------------------------------------------------------------

  /** The error an accepted-or-not dimension line leaves: the parse error, or
      the ZeroDivisionError of `180.0 / y`. */
  function DimensionError(p: Result<(int, int), MapError>): Option<MapError> {
    if p.Failure? then Some(p.error) else if p.value.1 == 0 then Some(DivisionByZero) else None
  }

  /** A snapshot of the fields the header sets. */
  datatype HeaderFields = HeaderFields(npmVersion: string, maxValue: int, dimX: int, dimY: int, res: real,
                                       data: array3<int>, maxInterpRange: int)

  class LighthouseMap {
    /** The texels: `data[row, column, channel]`, numpy's `__map`. */
    var data: array3<int>
    var dimX: nat
    var dimY: nat
    var res: real
    var maxInterpRange: int
    var npmVersion: string
    var maxValue: int

    ghost predicate Valid()
      reads this`data
    {
      data.Length2 == 3
    }

    /** The raster has the shape the dimension fields name. */
    ghost predicate Consistent()
      reads this`data, this`dimX, this`dimY
    {
      Valid() && data.Length0 == dimY && data.Length1 == dimX
    }

    ghost predicate AllZero()
      reads this`data, data
    {
      forall i, j, k :: 0 <= i < data.Length0 && 0 <= j < data.Length1 && 0 <= k < data.Length2 ==> data[i, j, k] == 0
    }

    /** The fields after the dimension step, given the dimensions `p` it accepted
        (if any) and the earlier values: nothing changes without accepted
        dimensions; otherwise both are set, and unless the height is zero also
        the resolution, a zero raster of that shape and the interpolation limit. */
    ghost predicate DimensionsApplied(p: Option<(int, int)>,
                                      dimX0: int, dimY0: int, res0: real, data0: array3<int>, range0: int)
      reads this`data, this`dimX, this`dimY, this`res, this`maxInterpRange, data
    {
      if p.None? then
        dimX == dimX0 && dimY == dimY0 && res == res0 && data == data0 && maxInterpRange == range0
      else
        var (x, y) := p.value;
        dimX == x && dimY == y &&
        if y == 0 then res == res0 && data == data0 && maxInterpRange == range0
        else res == 180.0 / y as real && maxInterpRange == x && Consistent() && AllZero()
    }

    /** The fields the header sets, as a value. */
    ghost function Fields(): HeaderFields
      reads this`npmVersion, this`maxValue, this`data, this`dimX, this`dimY, this`res, this`maxInterpRange
    {
      HeaderFields(npmVersion, maxValue, dimX, dimY, res, data, maxInterpRange)
    }

    /** The header fields once the version has (or has not) been accepted,
        the dimensions `applied` and the maximum value `accepted`, given their
        values `f0` before the header was read. */
    ghost predicate HeaderFieldsSet(readVersion: bool, applied: Option<(int, int)>, accepted: Option<int>, f0: HeaderFields)
      reads this`npmVersion, this`maxValue, this`data, this`dimX, this`dimY, this`res, this`maxInterpRange, data
    {
      npmVersion == (if readVersion then "P3" else f0.npmVersion)
      && maxValue == (if accepted.Some? then accepted.value else f0.maxValue)
      && DimensionsApplied(applied, f0.dimX, f0.dimY, f0.res, f0.data, f0.maxInterpRange)
    }

    /** The state `__int__` would set up: no raster, zero sizes. */
    constructor ()
      ensures Consistent() && AllZero()
      ensures dimX == 0 && dimY == 0 && res == 0.0 && maxInterpRange == 0
      ensures npmVersion == "" && maxValue == 0
    {
      data := new int[0, 0, 3];
      dimX := 0;
      dimY := 0;
      res := 0.0;
      maxInterpRange := 0;
      npmVersion := "";
      maxValue := 0;
    }

    method SetMaximumInterpolationRange(range: int)
      modifies this`maxInterpRange
      ensures maxInterpRange == range
    {
      maxInterpRange := range;
    }

    /** Accepts only a line that strips to `P3`. */
    method ValidateAndSetFileVersion(line: string) returns (err: Option<MapError>)
      modifies this`npmVersion
      ensures IsVersionLine(line) ==> err == None && npmVersion == "P3"
      ensures !IsVersionLine(line) ==> err == Some(BadVersion) && npmVersion == old(npmVersion)
    {
      if IsVersionLine(line) {
        npmVersion := "P3";
        err := None;
      } else {
        err := Some(BadVersion);
      }
    }

    /** Accepts 15 or 255 as the maximum colour value. */
    method ValidateAndSetMaxColorValue(line: string) returns (err: Option<MapError>)
      modifies this`maxValue
      ensures err == ErrorOf(MaxColorValue(line))
      ensures MaxColorValue(line).Success? ==> maxValue == MaxColorValue(line).value
      ensures MaxColorValue(line).Failure? ==> maxValue == old(maxValue)
    {
      var v := ParseInt(line);
      if v.None? {
        return Some(NotAnInteger);
      }
      if v.value !in [15, 255] {
        return Some(BadMaxColorValue);
      }
      maxValue := v.value;
      err := None;
    }

    /** Reads `x y`, sets both dimensions, then divides 180 by the height
        (ZeroDivisionError when it is 0, with the dimensions already set), and
        allocates a zero raster of `y` rows and `x` columns. */
    method ValidateAndSetDimensions(line: string) returns (err: Option<MapError>)
      requires Valid()
      modifies this`dimX, this`dimY, this`res, this`data, this`maxInterpRange
      ensures Valid()
      ensures err == DimensionError(ParseDimensions(line))
      ensures DimensionsApplied(Accepted(ParseDimensions(line)), old(dimX), old(dimY), old(res), old(data), old(maxInterpRange))
      ensures DimensionError(ParseDimensions(line)).None? ==> fresh(data)
    {
      var p := ParseDimensions(line);
      if p.Failure? {
        return Some(p.error);
      }
      ParsedDimensionsNatural(line);
      var (x, y) := p.value;
      dimX := x;
      dimY := y;
      if y == 0 {
        return Some(DivisionByZero);
      }
      res := 180.0 / y as real;
      data := new int[y, x, 3]((_, _, _) => 0);
      maxInterpRange := x;
      err := None;
    }

    /** One pass of the body of the header loop on the line popped from index
        `i` of `lines`; the ghost parameters let the contract speak of the
        line's reading and of what the earlier passes have set. */
    method ProcessHeaderLine(line: string, readVersion: bool, readDimension: bool,
                             ghost lines: seq<string>, ghost i: nat, ghost f0: HeaderFields,
                             ghost applied: Option<(int, int)>)
      returns (err: Option<MapError>, readVersion': bool, readDimension': bool, readHeader: bool,
               ghost applied': Option<(int, int)>, ghost accepted: Option<int>)
      requires i < |lines| && line == lines[i] && Valid()
      requires readDimension ==> readVersion
      requires !readDimension ==> applied.None?
      requires HeaderFieldsSet(readVersion, applied, None, f0)
      modifies this`npmVersion, this`maxValue, this`dimX, this`dimY, this`res, this`data, this`maxInterpRange
      ensures Valid()
      ensures HeaderLoop(readVersion', readDimension', readHeader, err, applied', accepted)
              == HeaderLineStep(HeaderLoop(readVersion, readDimension, false, None, applied, None), Readings(lines)[i])
      ensures HeaderFieldsSet(readVersion', applied', accepted, f0)
      ensures readDimension' && !readDimension ==> fresh(data)
      ensures readDimension ==> data == old(data)
    {
      readVersion', readDimension', readHeader := readVersion, readDimension, false;
      applied', accepted := applied, None;
      err := None;
      ReadingKind(lines, i);
      var kind := Kind(line);
      if kind.Blank? {
        err := Some(IndexOutOfRange);
      } else if kind.Comment? {
      } else if !readVersion {
        ReadingVersion(lines, i);
        err := ValidateAndSetFileVersion(line);
        readVersion' := err.None?;
      } else if !readDimension {
        ReadingDimensions(lines, i);
        err := ValidateAndSetDimensions(line);
        applied' := Accepted(Readings(lines)[i].dimensions);
        readDimension' := err.None?;
      } else {
        ReadingMaxValue(lines, i);
        err := ValidateAndSetMaxColorValue(line);
        accepted := Accepted(Readings(lines)[i].maxValue);
        readHeader := err.None?;
      }
    }

    /** `__process_and_remove_header`: pops lines until the version, dimension
        and maximum-value lines have been read, skipping comments. The list
        Python shortens in place is returned as `rest`; `i` counts the lines
        popped from its front. */
    method ProcessAndRemoveHeader(lines: seq<string>) returns (rest: seq<string>, err: Option<MapError>)
      requires Valid()
      modifies this`npmVersion, this`maxValue, this`dimX, this`dimY, this`res, this`data, this`maxInterpRange
      ensures Valid()
      ensures err == HeaderRun(lines).error
      ensures rest == lines[HeaderRun(lines).consumed..]
      ensures HeaderFieldsSet(HeaderRun(lines).versionSet, HeaderRun(lines).dimensions, HeaderRun(lines).maxValue, old(Fields()))
      ensures HeaderRun(lines).dimensions.Some? && HeaderRun(lines).dimensions.value.1 != 0 ==> fresh(data)
    {
      ghost var rs := Readings(lines);
      ghost var total := HeaderRun(lines);
      ghost var applied: Option<(int, int)> := None;
      ghost var accepted: Option<int> := None;
      var i := 0;
      err := None;
      var readVersion, readDimension, readHeader := false, false, false;
      ProgressStart(lines);
      while !readHeader && err.None?
        invariant i <= |lines| && Valid()
        invariant HeaderFieldsSet(readVersion, applied, accepted, old(Fields()))
        invariant readDimension ==> fresh(data)
        invariant HeaderProgress(total, rs, i, HeaderLoop(readVersion, readDimension, readHeader, err, applied, accepted))
        decreases |lines| - i, if err.None? then 1 else 0
      {
        ProgressRunning(total, rs, i, HeaderLoop(readVersion, readDimension, readHeader, err, applied, accepted));
        if i == |lines| {
          ProgressAtEnd(total, rs, i, HeaderLoop(readVersion, readDimension, readHeader, err, applied, accepted));
          err := Some(IndexOutOfRange);
          break;
        }
        ProgressStep(total, rs, i, HeaderLoop(readVersion, readDimension, readHeader, err, applied, accepted));
        err, readVersion, readDimension, readHeader, applied, accepted :=
          ProcessHeaderLine(lines[i], readVersion, readDimension, lines, i, old(Fields()), applied);
        i := i + 1;
      }
      rest := lines[i..];
    }

    /** The raster holds body token `p` in the cell at flat position `p`, for
        every position from `lo` up to `hi`. */
    ghost predicate Holds(vs: seq<Option<int>>, lo: nat, hi: nat)
      reads this`data, this`dimX, this`dimY, data
    {
      Consistent() && hi <= |vs| &&
      forall i, j, k :: 0 <= i < data.Length0 && 0 <= j < data.Length1 && 0 <= k < 3 && lo <= Flat(i, j, k, dimX) < hi ==>
        vs[Flat(i, j, k, dimX)] == Some(data[i, j, k])
    }

    /** The raster is the same array, and every cell whose flat position is
        not between `lo` and `hi` has kept its value. */
    twostate predicate UnchangedOutside(lo: nat, hi: nat)
      reads this`data, this`dimX, this`dimY, data
    {
      Consistent() && old(data) == data &&
      forall i, j, k :: 0 <= i < data.Length0 && 0 <= j < data.Length1 && 0 <= k < 3 && !(lo <= Flat(i, j, k, dimX) < hi) ==>
        data[i, j, k] == old(data[i, j, k])
    }

    /** One token of `__load_data_to_map`: `value` goes into the cell the
        counters name, at flat position `counter`, and the channel, column
        and row counters advance to flat position `counter + 1`. */
    method StoreToken(value: int, lat: nat, lon: nat, rgb: nat, ghost counter: nat) returns (lat': nat, lon': nat, rgb': nat)
      requires Consistent() && lat < data.Length0 && lon < data.Length1 && rgb < 3
      requires Flat(lat, lon, rgb, dimX) == counter
      modifies data
      ensures Flat(lat', lon', rgb', dimX) == counter + 1 && lon' < dimX && rgb' < 3
      ensures forall i, j, k :: 0 <= i < data.Length0 && 0 <= j < data.Length1 && 0 <= k < 3 ==>
        data[i, j, k] == if Flat(i, j, k, dimX) == counter then value else old(data[i, j, k])
    {
      FlatDistinct(lat, lon, rgb, dimX);
      FlatNext(lat, lon, rgb, dimX);
      data[lat, lon, rgb] := value;
      rgb' := (rgb + 1) % 3;
      lon', lat' := lon, lat;
      if rgb' == 0 {
        lon' := (lon + 1) % dimX;
        if lon' == 0 {
          lat' := lat + 1;
        }
      }
    }

    /** The inner loop of `__load_data_to_map`, over the words of one line:
        its words are the body values from `counter0` on, everything before
        them is stored already, and the three index counters and the token
        counter are passed in and handed back. */
    method LoadWords(words: seq<string>, lat0: nat, lon0: nat, rgb0: nat, counter0: nat, ghost vs: seq<Option<int>>)
      returns (err: Option<MapError>, lat: nat, lon: nat, rgb: nat, counter: nat)
      requires Consistent()
      requires counter0 + |words| <= |vs| && counter0 <= CellCount(dimY, dimX)
      requires forall w :: 0 <= w < |words| ==> vs[counter0 + w] == ParseInt(words[w])
      requires Flat(lat0, lon0, rgb0, dimX) == counter0 && rgb0 < 3
      requires lon0 < dimX || (counter0 == 0 && lat0 == 0 && lon0 == 0)
      requires Holds(vs, 0, counter0)
      modifies data
      ensures counter0 <= counter <= counter0 + |words| && counter <= CellCount(dimY, dimX)
      ensures err.None? ==> counter == counter0 + |words| && Flat(lat, lon, rgb, dimX) == counter && rgb < 3
      ensures err.None? ==> lon < dimX || (counter == 0 && lat == 0 && lon == 0)
      ensures err.None? ==> StoredFrom(vs, CellCount(dimY, dimX), counter0) == StoredFrom(vs, CellCount(dimY, dimX), counter)
      ensures err.Some? ==> StoredFrom(vs, CellCount(dimY, dimX), counter0) == counter < |vs|
      ensures err.Some? ==> err == if vs[counter].None? then Some(NotAnInteger) else Some(IndexOutOfRange)
      ensures Holds(vs, 0, counter) && UnchangedOutside(counter0, counter)
    {
      ghost var capacity := CellCount(dimY, dimX);
      lat, lon, rgb, counter := lat0, lon0, rgb0, counter0;
      err := None;
      var wi := 0;
      while wi < |words| && err.None?
        invariant wi <= |words| && counter0 <= counter <= counter0 + wi && counter <= capacity
        invariant err.None? ==> counter == counter0 + wi && Flat(lat, lon, rgb, dimX) == counter && rgb < 3
        invariant err.None? ==> lon < dimX || (counter == 0 && lat == 0 && lon == 0)
        invariant err.None? ==> StoredFrom(vs, capacity, counter0) == StoredFrom(vs, capacity, counter)
        invariant err.Some? ==> StoredFrom(vs, capacity, counter0) == counter < |vs|
        invariant err.Some? ==> err == if vs[counter].None? then Some(NotAnInteger) else Some(IndexOutOfRange)
        invariant Holds(vs, 0, counter) && UnchangedOutside(counter0, counter)
        decreases |words| - wi, if err.None? then 1 else 0
      {
        var v := ParseInt(words[wi]);
        assert vs[counter] == v;
        err, lat, lon, rgb := LoadToken(v, lat, lon, rgb, counter, vs);
        if err.None? {
          counter := counter + 1;
          wi := wi + 1;
        }
      }
    }

    /** The body of the inner loop of `__load_data_to_map` for one token:
        `int()` of the word, which raises ValueError when it is not an
        integer, then the store, which raises IndexError past the last row. */
    method LoadToken(v: Option<int>, lat0: nat, lon0: nat, rgb0: nat, ghost counter: nat, ghost vs: seq<Option<int>>)
      returns (err: Option<MapError>, lat: nat, lon: nat, rgb: nat)
      requires Consistent() && counter < |vs| && vs[counter] == v && counter <= CellCount(dimY, dimX)
      requires Flat(lat0, lon0, rgb0, dimX) == counter && rgb0 < 3
      requires lon0 < dimX || (counter == 0 && lat0 == 0 && lon0 == 0)
      requires Holds(vs, 0, counter)
      modifies data
      ensures err.None? ==> v.Some? && counter < CellCount(dimY, dimX)
      ensures err.None? ==> Flat(lat, lon, rgb, dimX) == counter + 1 && rgb < 3 && lon < dimX
      ensures err.None? ==> Holds(vs, 0, counter + 1) && UnchangedOutside(counter, counter + 1)
      ensures err.Some? ==> (v.None? || counter == CellCount(dimY, dimX)) && unchanged(data)
      ensures err.Some? ==> err == if v.None? then Some(NotAnInteger) else Some(IndexOutOfRange)
    {
      lat, lon, rgb := lat0, lon0, rgb0;
      if v.None? {
        return Some(NotAnInteger), lat, lon, rgb;
      }
      if lat >= data.Length0 || lon >= data.Length1 {
        if lon < dimX {
          FlatBelowCapacity(lat, lon, rgb, dimY, dimX);
        } else {
          CellCountNoColumns(dimY);
        }
        return Some(IndexOutOfRange), lat, lon, rgb;
      }
      FlatBelowCapacity(lat, lon, rgb, dimY, dimX);
      lat, lon, rgb := StoreToken(v.value, lat, lon, rgb, counter);
      err := None;
    }

    /** `__load_data_to_map`: stores the `int()` of every body token, in order,
        channel by channel, column by column and row by row; the first token
        `int()` rejects raises ValueError, and the first one past the last row
        IndexError (the value is converted before the cell is indexed). */
    method LoadDataToMap(lines: seq<string>) returns (err: Option<MapError>)
      requires Consistent()
      modifies data
      ensures var vs := BodyValues(lines);
        err == BodyError(vs, CellCount(dimY, dimX))
        && Holds(vs, 0, Stored(vs, CellCount(dimY, dimX))) && UnchangedOutside(0, Stored(vs, CellCount(dimY, dimX)))
    {
      ghost var vss: seq<seq<Option<int>>> := LineValues(lines);
      ghost var vs: seq<Option<int>> := BodyValues(lines);
      ghost var capacity := CellCount(dimY, dimX);
      var lat: nat, lon: nat, rgb: nat, counter: nat := 0, 0, 0, 0;
      err := None;
      var li := 0;
      while li < |lines| && err.None?
        invariant li <= |lines| && counter <= |vs| && counter <= capacity
        invariant err.None? ==> counter == |Concat(vss[..li])| && Flat(lat, lon, rgb, dimX) == counter && rgb < 3
        invariant err.None? ==> lon < dimX || (counter == 0 && lat == 0 && lon == 0)
        invariant err.None? ==> Stored(vs, capacity) == StoredFrom(vs, capacity, counter)
        invariant err.Some? ==> Stored(vs, capacity) == counter && err == BodyError(vs, capacity)
        invariant Holds(vs, 0, counter) && UnchangedOutside(0, counter)
        decreases |lines| - li, if err.None? then 1 else 0
      {
        var words := Split(lines[li]);
        LineWordValues(lines, li, vs, words, counter);
        err, lat, lon, rgb, counter := LoadWords(words, lat, lon, rgb, counter, vs);
        li := li + 1;
      }
      if err.None? {
        assert vss[..li] == vss;
      }
    }

    /** `load_image` on the lines of the file: the header loop, then the body
        loader on the lines left after it. On a header error nothing of the
        body is read; otherwise the raster is a fresh one of the stated shape
        that holds the stored tokens, and zero after them. */
    method LoadImage(lines: seq<string>) returns (err: Option<MapError>)
      requires Valid()
      modifies this`npmVersion, this`maxValue, this`dimX, this`dimY, this`res, this`data, this`maxInterpRange
      ensures Valid()
      ensures err == LoadError(lines)
      ensures HeaderRun(lines).error.Some? ==>
        HeaderFieldsSet(HeaderRun(lines).versionSet, HeaderRun(lines).dimensions, HeaderRun(lines).maxValue, old(Fields()))
      ensures HeaderRun(lines).error.None? ==> fresh(data) && maxInterpRange == dimX && Loaded(lines)
    {
      var rest;
      rest, err := ProcessAndRemoveHeader(lines);
      if err.Some? {
        return;
      }
      HeaderRunAccepted(lines);
      err := LoadDataToMap(rest);
    }

    /** The map as `load_image` leaves it after an accepted header: a P3
        raster of the header's shape, resolution 180/height, holding the
        body's tokens up to the first that failed, and zero after them. */
    ghost predicate Loaded(lines: seq<string>)
      reads this`data, this`dimX, this`dimY, this`res, this`npmVersion, this`maxValue, data
    {
      var h := HeaderRun(lines);
      h.error.None? && h.consumed <= |lines| && Consistent() && npmVersion == "P3" && h.maxValue == Some(maxValue)
      && h.dimensions == Some((dimX as int, dimY as int)) && dimY != 0 && res == 180.0 / dimY as real
      && var vs := BodyValues(lines[h.consumed..]);
         var n := Stored(vs, CellCount(dimY, dimX));
         Holds(vs, 0, n) && ZeroFrom(n)
    }

    /** Every cell from flat position `n` on still holds zero. */
    ghost predicate ZeroFrom(n: nat)
      reads this`data, this`dimX, data
    {
      Valid() &&
      forall i, j, k :: 0 <= i < data.Length0 && 0 <= j < data.Length1 && 0 <= k < 3 && n <= Flat(i, j, k, dimX) ==>
        data[i, j, k] == 0
    }

    // -------------------------------------------------------------------
    // Sampling
    // -------------------------------------------------------------------

    /** `__map[row][col]`: the texel numpy finds at that row and column,
        counting a negative index from the end; IndexError outside. */
    function Texel(row: int, col: int): (t: Result<RGB, MapError>)
      requires Valid()
      reads this`data, data
      ensures t.Success? <==> PyIndex(row, data.Length0).Some? && PyIndex(col, data.Length1).Some?
      ensures t.Failure? ==> t.error == IndexOutOfRange
    {
      var i := PyIndex(row, data.Length0);
      var j := PyIndex(col, data.Length1);
      if i.None? || j.None? then Failure(IndexOutOfRange)
      else Success(RGB(data[i.value, j.value, 0], data[i.value, j.value, 1], data[i.value, j.value, 2]))
    }

    /** The sum of the texels the inner sampling loop reads for the columns
        `xv` up to `xEnd`, starting with row index `iy`: the pole rule rebinds
        the row index, and the rebound index is the one the next column
        starts from. The first exception raised ends the sum. */
    function RowSum(iy: int, xv: int, xEnd: int): (s: Result<RGB, MapError>)
      requires Valid()
      reads this`data, this`dimX, this`dimY, data
      ensures s.Failure? ==> s.error == DivisionByZero || s.error == IndexOutOfRange
      decreases xEnd - xv
    {
      if xv >= xEnd then Success(Black)
      else
        var c :- Column(iy, xv);
        var rest :- RowSum(c.0, xv + 1, xEnd);
        Success(c.1.Plus(rest))
    }

    /** One column of the inner sampling loop: the pole rule rebinds the row
        index, the date-line rule moves the column, and the texel there is read. */
    function Column(iy: int, xv: int): (c: Result<(int, RGB), MapError>)
      requires Valid()
      reads this`data, this`dimX, this`dimY, data
      ensures c.Failure? ==> c.error == DivisionByZero || c.error == IndexOutOfRange
    {
      var cell :- PoleWrap(iy, xv, dimX, dimY);
      var t :- Texel(cell.0, DateLineWrap(cell.1, dimX));
      Success((cell.0, t))
    }

    /** The first column of a row sum added to `acc`: its exception, or its
        texel added to `acc` before the remaining columns. */
    lemma ColumnStep(acc: RGB, iy: int, xv: int, xEnd: int)
      requires Valid() && xv < xEnd
      ensures var c := Column(iy, xv);
        Offset(acc, RowSum(iy, xv, xEnd)) ==
          if c.Failure? then Failure(c.error) else Offset(acc.Plus(c.value.1), RowSum(c.value.0, xv + 1, xEnd))
    {
      var c := Column(iy, xv);
      if c.Success? {
        OffsetPlus(acc, c.value.1, RowSum(c.value.0, xv + 1, xEnd));
      }
    }

    /** The sum over the rows `yv` up to `yEnd` of the window, each row
        walked over the columns `xLo` up to `xEnd`. */
    function WindowSum(yv: int, yEnd: int, xLo: int, xEnd: int): (s: Result<RGB, MapError>)
      requires Valid()
      reads this`data, this`dimX, this`dimY, data
      ensures s.Failure? ==> s.error == DivisionByZero || s.error == IndexOutOfRange
      decreases yEnd - yv
    {
      if yv >= yEnd then Success(Black)
      else
        var row :- RowSum(yv, xLo, xEnd);
        var rest :- WindowSum(yv + 1, yEnd, xLo, xEnd);
        Success(row.Plus(rest))
    }

    /** What `get_color_from_coordinate(lat, lon)` returns or raises: the
        range checks on the coordinates, then the per-channel mean of the
        window of half-width `Delta` around the texel nearest the coordinates,
        rounded half to even. */
    function Sample(lat: real, lon: real): (c: Result<RGB, MapError>)
      requires Valid()
      reads this`data, this`dimX, this`dimY, this`res, this`maxInterpRange, data
      ensures c == Failure(LatitudeOutOfRange) <==> !(-90.0 <= lat <= 90.0)
      ensures -90.0 <= lat <= 90.0 ==> (c == Failure(LongitudeOutOfRange) <==> !(-180.0 <= lon <= 180.0))
    {
      if !(-90.0 <= lat <= 90.0) then Failure(LatitudeOutOfRange)
      else if !(-180.0 <= lon <= 180.0) then Failure(LongitudeOutOfRange)
      else if res == 0.0 then Failure(DivisionByZero)
      else WindowMean(NearestIndex(180.0 + lon, res), NearestIndex(90.0 - lat, res), Delta(res, maxInterpRange))
    }

    /** The mean over the window of half-width `delta` around column `x` and
        row `y`; ZeroDivisionError when the window is empty. */
    function WindowMean(x: int, y: int, delta: int): (c: Result<RGB, MapError>)
      requires Valid()
      reads this`data, this`dimX, this`dimY, data
      ensures c.Failure? ==> c.error == DivisionByZero || c.error == IndexOutOfRange
    {
      var sum :- WindowSum(y - delta, y + delta + 1, x - delta, x + delta + 1);
      var n := WindowCells(x, y, delta);
      if n == 0 then Failure(DivisionByZero) else Success(Average(sum, n))
    }

    /** The inner loop of `get_color_from_coordinate` over the columns `xLo`
        up to `xEnd` of window row `yv`, adding to `acc`: the row index is
        rebound by the pole rule and kept from one column to the next. */
    method SumRow(yv: int, xLo: int, xEnd: int, acc: RGB) returns (s: Result<RGB, MapError>)
      requires Valid()
      ensures s == Offset(acc, RowSum(yv, xLo, xEnd))
    {
      var sum := acc;
      var iy := yv;
      var xv := xLo;
      while xv < xEnd
        invariant Offset(sum, RowSum(iy, xv, xEnd)) == Offset(acc, RowSum(yv, xLo, xEnd))
        decreases xEnd - xv
      {
        var c := Column(iy, xv);
        ColumnStep(sum, iy, xv, xEnd);
        if c.Failure? {
          return Failure(c.error);
        }
        var t := c.value.1;
        iy := c.value.0;
        sum := sum.Plus(t);
        xv := xv + 1;
      }
      s := Success(sum);
    }

    /** The outer loop of `get_color_from_coordinate` over the rows `yLo` up
        to `yEnd` of the window; each row starts from its own row index. */
    method SumWindow(yLo: int, yEnd: int, xLo: int, xEnd: int) returns (s: Result<RGB, MapError>)
      requires Valid()
      ensures s == WindowSum(yLo, yEnd, xLo, xEnd)
    {
      var sum := Black;
      var yv := yLo;
      while yv < yEnd
        invariant yv == yLo || yLo <= yv <= yEnd
        invariant Offset(sum, WindowSum(yv, yEnd, xLo, xEnd)) == WindowSum(yLo, yEnd, xLo, xEnd)
        decreases yEnd - yv
      {
        var row := SumRow(yv, xLo, xEnd, sum);
        WindowStep(sum, yv, yEnd, xLo, xEnd);
        if row.Failure? {
          return Failure(row.error);
        }
        sum := row.value;
        yv := yv + 1;
      }
      s := Success(sum);
    }

    /** One row of the window summed onto `acc`: the rest of the window is
        summed onto the result, and a failing row ends the whole sum. */
    lemma WindowStep(acc: RGB, yv: int, yEnd: int, xLo: int, xEnd: int)
      requires Valid() && yv < yEnd
      ensures var row := Offset(acc, RowSum(yv, xLo, xEnd));
        Offset(acc, WindowSum(yv, yEnd, xLo, xEnd))
        == if row.Failure? then row else Offset(row.value, WindowSum(yv + 1, yEnd, xLo, xEnd))
    {
      OffsetRow(acc, RowSum(yv, xLo, xEnd), WindowSum(yv + 1, yEnd, xLo, xEnd));
    }

    /** `get_color_from_coordinate`: the range checks, the window around the
        nearest texel, the sum over it and the mean. */
    method GetColorFromCoordinate(lat: real, lon: real) returns (c: Result<RGB, MapError>)
      requires Valid()
      ensures c == Sample(lat, lon)
    {
      if !(-90.0 <= lat <= 90.0) {
        return Failure(LatitudeOutOfRange);
      }
      if !(-180.0 <= lon <= 180.0) {
        return Failure(LongitudeOutOfRange);
      }
      if res == 0.0 {
        return Failure(DivisionByZero);
      }
      var delta := Delta(res, maxInterpRange);
      var x := NearestIndex(180.0 + lon, res);
      var y := NearestIndex(90.0 - lat, res);
      assert Sample(lat, lon) == WindowMean(x, y, delta);
      c := MeanOverWindow(x, y, delta);
    }

    /** The loops and the mean of `get_color_from_coordinate`, once the
        window's centre and half-width are known. */
    method MeanOverWindow(x: int, y: int, delta: int) returns (c: Result<RGB, MapError>)
      requires Valid()
      ensures c == WindowMean(x, y, delta)
    {
      var n := WindowCells(x, y, delta);
      var sum := SumWindow(y - delta, y + delta + 1, x - delta, x + delta + 1);
      if sum.Failure? {
        return Failure(sum.error);
      }
      if n == 0 {
        return Failure(DivisionByZero);
      }
      c := Success(Average(sum.value, n));
    }
  }

  /** Adding `a` to a sum that already holds `b` is adding `a + b`. */
  lemma OffsetPlus(a: RGB, b: RGB, s: Result<RGB, MapError>)
    ensures Offset(a, Offset(b, s)) == Offset(a.Plus(b), s)
  {
  }

  /** A row sum followed by the rest of the window, added to `acc`. */
  lemma OffsetRow(acc: RGB, row: Result<RGB, MapError>, rest: Result<RGB, MapError>)
    ensures Offset(acc, (if row.Failure? then Failure(row.error)
                         else if rest.Failure? then Failure(rest.error)
                         else Success(row.value.Plus(rest.value))))
            == (if Offset(acc, row).Failure? then Offset(acc, row) else Offset(Offset(acc, row).value, rest))
  {
  }

  /** `len(range(lo, hi))`. */
  function RangeLen(lo: int, hi: int): nat {
    if lo < hi then hi - lo else 0
  }

  /** `interp_num`: the length of the column range times that of the row range. */
  function WindowCells(x: int, y: int, delta: int): nat {
    RangeLen(x - delta, x + delta + 1) * RangeLen(y - delta, y + delta + 1)
  }

  /** `int(round(a / res))`: the texel index nearest to `a` degrees. */
  function NearestIndex(a: real, res: real): int
    requires res != 0.0
  {
    RoundHalfEven(a / res)
  }

  /** The half-width of the averaging window: the number of texels in one
      display pixel of 180/14 degrees, rounded down, but at most `maxInterpRange`. */
  function Delta(res: real, maxInterpRange: int): (d: int)
    requires res != 0.0
    ensures d <= maxInterpRange
    ensures d as real <= (180.0 / 14.0) / res
    ensures d < maxInterpRange ==> (180.0 / 14.0) / res < d as real + 1.0
  {
    var d := ((180.0 / 14.0) / res).Floor;
    if d > maxInterpRange then maxInterpRange else d
  }

  /** Adds `acc` to a sum that was computed; an exception passes through. */
  function Offset(acc: RGB, s: Result<RGB, MapError>): Result<RGB, MapError> {
    if s.Failure? then s else Success(acc.Plus(s.value))
  }

  /** `round(channel / n)` for each channel. */
  function Average(sum: RGB, n: nat): RGB
    requires n > 0
  {
    RGB(RoundHalfEven(sum.r as real / n as real), RoundHalfEven(sum.g as real / n as real),
        RoundHalfEven(sum.b as real / n as real))
  }

  /** `round((col + dimX / 2) % dimX)`: the column half the map width round
      the globe, as a float reduced modulo the width and rounded. */
  function HalfTurn(col: int, dimX: nat): int
    requires dimX > 0
  {
    RoundHalfEven(FloorMod(col as real + dimX as real / 2.0, dimX as real))
  }

  /** The pole rule for one window cell (row, column): a row north of the map
      is mirrored to `-row` and one south of it to `dimY - row % dimY - 1`,
      and either way the column moves half the width round the globe; other
      rows keep the cell. ZeroDivisionError for a modulo by zero. */
  function PoleWrap(row: int, col: int, dimX: nat, dimY: nat): (r: Result<(int, int), MapError>)
    ensures r.Failure? ==> r.error == DivisionByZero
  {
    if row < 0 then
      if dimX == 0 then Failure(DivisionByZero) else Success((-row, HalfTurn(col, dimX)))
    else if row >= dimY then
      if dimX == 0 || dimY == 0 then Failure(DivisionByZero)
      else Success((dimY - row % dimY - 1, HalfTurn(col, dimX)))
    else Success((row, col))
  }

  /** The date-line rule: a column left of the map gains 360, one right of
      it loses 360, whatever the width of the map. */
  function DateLineWrap(col: int, dimX: nat): int {
    if col < 0 then col + 360 else if col >= dimX then col - 360 else col
  }

  // ---------------------------------------------------------------------
  // Properties of the sampler
  // ---------------------------------------------------------------------

  /** Moving a column half the width round the globe lands inside the map:
      `round` can only reach `dimX` on a tie, which the parity of `dimX` rules out. */
  lemma HalfTurnInRange(col: int, dimX: nat)
    requires dimX > 0
    ensures 0 <= HalfTurn(col, dimX) < dimX
  {
    var t := TwiceHalfTurnArgument(col, dimX);
    RoundBelowWidth(FloorMod(col as real + dimX as real / 2.0, dimX as real), t, dimX);
  }

  /** Twice the reduced argument of `HalfTurn` is an integer `t` of the same
      parity as `dimX`. */
  lemma TwiceHalfTurnArgument(col: int, dimX: nat) returns (t: int)
    requires dimX > 0
    ensures 2.0 * FloorMod(col as real + dimX as real / 2.0, dimX as real) == t as real
    ensures t % 2 == dimX % 2
  {
    var d := dimX as real;
    var a := col as real + d / 2.0;
    var q := (a / d).Floor;
    assert FloorMod(a, d) == a - d * q as real;
    var m := col - dimX * q;
    assert m as real == col as real - d * q as real by {
      CastProduct(dimX, q);
    }
    t := 2 * m + dimX;
    EvenOffsetParity(t, dimX, m);
  }

  lemma EvenOffsetParity(t: int, n: int, m: int)
    requires t == 2 * m + n
    ensures t % 2 == n % 2
  {
  }

  /** Rounding `v` in [0, dimX) half to even stays below `dimX` when `2 * v`
      is an integer of the parity of `dimX`. */
  lemma RoundBelowWidth(v: real, t: int, dimX: nat)
    requires 0.0 <= v < dimX as real && 2.0 * v == t as real && t % 2 == dimX % 2
    ensures 0 <= RoundHalfEven(v) < dimX
  {
    var n := RoundHalfEven(v);
    assert n <= dimX;
    assert n == dimX ==> v == n as real - 0.5 && t == 2 * dimX - 1;
  }

  lemma CastProduct(a: int, b: int)
    ensures (a * b) as real == a as real * b as real
  {
  }

  /** The pole rules: a row north of the map is mirrored to `-row`, a row
      south of it lands in [0, dimY), both with a column in [0, dimX); a row
      on the map keeps its cell. */
  lemma PoleWrapRules(row: int, col: int, dimX: nat, dimY: nat)
    requires dimX > 0 && dimY > 0
    ensures var r := PoleWrap(row, col, dimX, dimY);
      r.Success?
      && (row < 0 ==> r.value.0 == -row && 0 <= r.value.1 < dimX)
      && (row >= dimY ==> 0 <= r.value.0 < dimY && 0 <= r.value.1 < dimX)
      && (0 <= row < dimY ==> r.value == (row, col))
  {
    HalfTurnInRange(col, dimX);
  }

  /** The date-line rule shifts by whole turns of 360 and so lands on the map
      for every column within one turn of it when the map is 360 columns wide.
      On a narrower map the columns just left and just right of it land
      outside [0, dimX); what numpy then does with them is
      `DateLineWrapIndex`. */
  lemma DateLineWrapLands(col: int, dimX: nat)
    ensures DateLineWrap(col, dimX) - col in {-360, 0, 360}
    ensures dimX == 360 && -360 <= col < 720 ==> 0 <= DateLineWrap(col, dimX) < 360
    ensures 0 < dimX < 360 ==> !(0 <= DateLineWrap(-1, dimX) < dimX) && !(0 <= DateLineWrap(dimX, dimX) < dimX)
  {
  }

  /** How numpy reads the wrapped neighbours of a map narrower than 360
      columns. The column left of the map becomes 359, past the right edge,
      and raises IndexError. The column right of the map becomes
      `dimX - 360`, a negative index: below 180 columns it raises IndexError,
      but from 180 columns on numpy counts it from the end and reads column
      `2 * dimX - 360`, well inside the map, without an error. */
  lemma DateLineWrapIndex(dimX: nat)
    requires 0 < dimX < 360
    ensures PyIndex(DateLineWrap(-1, dimX), dimX).None?
    ensures dimX < 180 ==> PyIndex(DateLineWrap(dimX, dimX), dimX).None?
    ensures 180 <= dimX ==> PyIndex(DateLineWrap(dimX, dimX), dimX) == Some(2 * dimX - 360)
  {
  }

  /** On a map 180 to 359 columns wide, the texel the sampler reads right of
      the map's east edge is the one in column `2 * dimX - 360`. */
  lemma WrappedEastEdgeReadsInside(m: LighthouseMap, row: int)
    requires m.Consistent() && 180 <= m.dimX < 360
    ensures m.Texel(row, DateLineWrap(m.dimX, m.dimX)) == m.Texel(row, 2 * m.dimX - 360)
  {
    DateLineWrapIndex(m.dimX);
  }

  /** `(n / 14.0).Floor` is the integer quotient `n / 14`. */
  lemma FloorOfFourteenth(n: nat)
    ensures (n as real / 14.0).Floor == n / 14
  {
    var q, r := n / 14, n % 14;
    assert n as real / 14.0 == q as real + r as real / 14.0;
  }

  /** On a map loaded with height `dimY`, whose resolution is `180 / dimY`,
      the window's half-width is `dimY / 14` texels, capped by `maxInterpRange`. */
  lemma LoadedDelta(dimY: nat, maxInterpRange: int)
    requires dimY > 0
    ensures Delta(180.0 / dimY as real, maxInterpRange) == if dimY / 14 > maxInterpRange then maxInterpRange else dimY / 14
  {
    var res := 180.0 / dimY as real;
    assert (180.0 / 14.0) / res == dimY as real / 14.0;
    FloorOfFourteenth(dimY);
  }

  /** `k` copies of `c` added up. */
  function Scale(c: RGB, k: nat): RGB {
    if k == 0 then Black else c.Plus(Scale(c, k - 1))
  }

  /** Copies add up: `a` copies and `b` copies are `a + b` copies. */
  lemma {:induction false} ScaleAdd(c: RGB, a: nat, b: nat)
    ensures Scale(c, a).Plus(Scale(c, b)) == Scale(c, a + b)
  {
    if a > 0 {
      ScaleAdd(c, a - 1, b);
      calc {
        Scale(c, a).Plus(Scale(c, b));
        c.Plus(Scale(c, a - 1)).Plus(Scale(c, b));
        c.Plus(Scale(c, a - 1).Plus(Scale(c, b)));
        c.Plus(Scale(c, a - 1 + b));
        Scale(c, a + b);
      }
    }
  }

  /** `k` copies of `c` are `k` times each channel of `c`. */
  lemma {:induction false} ScaleIsProduct(c: RGB, k: nat)
    ensures Scale(c, k) == RGB(k * c.r, k * c.g, k * c.b)
  {
    if k > 0 {
      ScaleIsProduct(c, k - 1);
    }
  }

  /** Every texel of the raster is `c`. */
  ghost predicate Uniform(m: LighthouseMap, c: RGB)
    reads m`data, m.data
  {
    m.Valid() &&
    forall i, j :: 0 <= i < m.data.Length0 && 0 <= j < m.data.Length1 ==>
      m.data[i, j, 0] == c.r && m.data[i, j, 1] == c.g && m.data[i, j, 2] == c.b
  }

  /** On a uniform raster, a row sum that is computed adds one `c` per column. */
  lemma {:induction false} RowSumUniform(m: LighthouseMap, c: RGB, iy: int, xv: int, xEnd: int)
    requires Uniform(m, c) && m.RowSum(iy, xv, xEnd).Success?
    ensures m.RowSum(iy, xv, xEnd).value == Scale(c, RangeLen(xv, xEnd))
    decreases xEnd - xv
  {
    if xv < xEnd {
      var cell := PoleWrap(iy, xv, m.dimX, m.dimY).value;
      var col := DateLineWrap(cell.1, m.dimX);
      var i, j := PyIndex(cell.0, m.data.Length0).value, PyIndex(col, m.data.Length1).value;
      assert m.Texel(cell.0, col).value == c;
      RowSumUniform(m, c, cell.0, xv + 1, xEnd);
      assert RangeLen(xv, xEnd) == RangeLen(xv + 1, xEnd) + 1;
    }
  }

  /** On a uniform raster, a window sum that is computed adds one `c` per cell. */
  lemma {:induction false} WindowSumUniform(m: LighthouseMap, c: RGB, yv: int, yEnd: int, xLo: int, xEnd: int)
    requires Uniform(m, c) && m.WindowSum(yv, yEnd, xLo, xEnd).Success?
    ensures m.WindowSum(yv, yEnd, xLo, xEnd).value == Scale(c, RangeLen(yv, yEnd) * RangeLen(xLo, xEnd))
    decreases yEnd - yv
  {
    if yv < yEnd {
      RowSumUniform(m, c, yv, xLo, xEnd);
      WindowSumUniform(m, c, yv + 1, yEnd, xLo, xEnd);
      var w, h := RangeLen(xLo, xEnd), RangeLen(yv + 1, yEnd);
      assert RangeLen(yv, yEnd) == h + 1;
      MulSucc(h, w);
      ScaleAdd(c, w, h * w);
    }
  }

  /** The mean of `n` copies of `c` is `c`. */
  lemma AverageOfCopies(c: RGB, n: nat)
    requires n > 0
    ensures Average(Scale(c, n), n) == c
  {
    ScaleIsProduct(c, n);
    MeanOfCopies(n, c.r);
    MeanOfCopies(n, c.g);
    MeanOfCopies(n, c.b);
  }

  /** `round(n * k / n) == k`. */
  lemma MeanOfCopies(n: nat, k: int)
    requires n > 0
    ensures RoundHalfEven((n * k) as real / n as real) == k
  {
    CastProduct(n, k);
    DivCancel(n as real, k as real);
    assert (k as real).Floor == k;
  }

  lemma DivCancel(n: real, x: real)
    requires n != 0.0
    ensures (n * x) / n == x
  {
  }

  lemma MulPositive(a: nat, b: nat)
    requires a > 0 && b > 0
    ensures a * b > 0
  {
  }

  lemma MulSucc(h: nat, w: nat)
    ensures (h + 1) * w == w + h * w
  {
  }

  /** The divisor is the number of cells the window sums: averaging a raster
      that is `c` everywhere gives `c` wherever the sampler returns a colour. */
  lemma SampleUniform(m: LighthouseMap, c: RGB, lat: real, lon: real)
    requires Uniform(m, c) && m.Sample(lat, lon).Success?
    ensures m.Sample(lat, lon).value == c
  {
    var delta := Delta(m.res, m.maxInterpRange);
    var x, y := NearestIndex(180.0 + lon, m.res), NearestIndex(90.0 - lat, m.res);
    WindowSumUniform(m, c, y - delta, y + delta + 1, x - delta, x + delta + 1);
    var n := WindowCells(x, y, delta);
    assert RangeLen(y - delta, y + delta + 1) * RangeLen(x - delta, x + delta + 1) == n;
    AverageOfCopies(c, n);
  }

  /** On a raster 360 columns wide, every row sum starting at a row less than
      one map height north of the map and spanning columns within one turn of
      the map is computed. */
  lemma {:induction false} RowSumOnFullWidth(m: LighthouseMap, iy: int, xv: int, xEnd: int)
    requires m.Consistent() && m.dimX == 360 && m.dimY > 0
    requires -(m.dimY as int) < iy && -360 <= xv && xEnd <= 720
    ensures m.RowSum(iy, xv, xEnd).Success?
    decreases xEnd - xv
  {
    if xv < xEnd {
      PoleWrapRules(iy, xv, m.dimX, m.dimY);
      var cell := PoleWrap(iy, xv, m.dimX, m.dimY).value;
      DateLineWrapLands(cell.1, m.dimX);
      RowSumOnFullWidth(m, cell.0, xv + 1, xEnd);
    }
  }

  lemma {:induction false} WindowSumOnFullWidth(m: LighthouseMap, yv: int, yEnd: int, xLo: int, xEnd: int)
    requires m.Consistent() && m.dimX == 360 && m.dimY > 0
    requires -(m.dimY as int) < yv && -360 <= xLo && xEnd <= 720
    ensures m.WindowSum(yv, yEnd, xLo, xEnd).Success?
    decreases yEnd - yv
  {
    if yv < yEnd {
      RowSumOnFullWidth(m, yv, xLo, xEnd);
      WindowSumOnFullWidth(m, yv + 1, yEnd, xLo, xEnd);
    }
  }

  /** The nearest index to a coordinate between 0 and `hi` degrees, at one
      degree per texel, lies between 0 and `hi`. */
  lemma NearestIndexWithin(a: real, hi: nat)
    requires 0.0 <= a <= hi as real
    ensures 0 <= NearestIndex(a, 1.0) <= hi
  {
    assert a / 1.0 == a;
  }

  /** A loaded 360 x 180 map (one degree per texel) samples every coordinate
      in range without an exception, whatever non-negative interpolation limit is set. */
  lemma FullMapSamplesEverywhere(m: LighthouseMap, lat: real, lon: real)
    requires m.Consistent() && m.dimX == 360 && m.dimY == 180 && m.res == 1.0 && m.maxInterpRange >= 0
    requires -90.0 <= lat <= 90.0 && -180.0 <= lon <= 180.0
    ensures m.Sample(lat, lon).Success?
  {
    LoadedDelta(180, m.maxInterpRange);
    assert 180.0 / 180 as real == 1.0;
    var delta := Delta(m.res, m.maxInterpRange);
    var x, y := NearestIndex(180.0 + lon, m.res), NearestIndex(90.0 - lat, m.res);
    NearestIndexWithin(180.0 + lon, 360);
    NearestIndexWithin(90.0 - lat, 180);
    FullMapWindowMean(m, x, y, delta);
    assert m.Sample(lat, lon) == m.WindowMean(x, y, delta);
  }

  /** On that map every window of half-width at most 12 around a texel
      within the map (or one past its edge) averages without an exception. */
  lemma FullMapWindowMean(m: LighthouseMap, x: int, y: int, delta: int)
    requires m.Consistent() && m.dimX == 360 && m.dimY == 180
    requires 0 <= x <= 360 && 0 <= y <= 180 && 0 <= delta <= 12
    ensures m.WindowMean(x, y, delta).Success?
  {
    WindowSumOnFullWidth(m, y - delta, y + delta + 1, x - delta, x + delta + 1);
    var sum := m.WindowSum(y - delta, y + delta + 1, x - delta, x + delta + 1);
    WindowCellsPositive(x, y, delta);
    assert m.WindowMean(x, y, delta) == Success(Average(sum.value, WindowCells(x, y, delta)));
  }

  lemma WindowCellsPositive(x: int, y: int, delta: int)
    requires delta >= 0
    ensures WindowCells(x, y, delta) > 0
  {
    var w := RangeLen(x - delta, x + delta + 1);
    assert w == RangeLen(y - delta, y + delta + 1) == 2 * delta + 1;
    MulPositive(w, w);
  }

  /** The window holds `(2 * delta + 1)` squared cells, and none for a negative `delta`. */
  lemma WindowCellsCount(x: int, y: int, delta: int)
    ensures delta >= 0 ==> WindowCells(x, y, delta) == (2 * delta + 1) * (2 * delta + 1)
    ensures delta < 0 ==> WindowCells(x, y, delta) == 0
  {
  }

  /** The fixed 360-column date-line rule on a map of the display's own size,
      28 x 14: the first window cell at longitude -180 is column -1, sent to
      column 359, and the sampler raises IndexError. */
  lemma NarrowMapFailsAtDateLine(m: LighthouseMap)
    requires m.Consistent() && m.dimX == 28 && m.dimY == 14 && m.res == 180.0 / 14.0 && m.maxInterpRange == 28
    ensures m.Sample(0.0, -180.0) == Failure(IndexOutOfRange)
  {
    LoadedDelta(14, 28);
    assert Delta(m.res, m.maxInterpRange) == 1;
    assert NearestIndex(180.0 + -180.0, m.res) == 0;
    assert (90.0 - 0.0) / m.res == 7.0;
    assert NearestIndex(90.0 - 0.0, m.res) == 7;
    assert PoleWrap(6, -1, 28, 14) == Success((6, -1));
    assert m.Texel(6, DateLineWrap(-1, 28)) == Failure(IndexOutOfRange);
    assert m.RowSum(6, -1, 2) == Failure(IndexOutOfRange);
  }
}
