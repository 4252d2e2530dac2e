/**
 * The numeric helpers of the quality-control pipeline:
 * reading the smoothness estimates AFNI's `3dFWHMx` writes,
 * Jenkinson's framewise displacement series over the `3dvolreg` affine matrices,
 * and the summary of a displacement file (mean, count and percentage above a cutoff).
 * Floating point is modelled by `real`; the matrix algebra is a parameter.
 */
module Algorithms {
  import opened Wrappers
  import opened Errors
  import opened Text
  import Ordering

  // ---------------------------------------------------------------------------
  // parse_fwhm
  // ---------------------------------------------------------------------------

  /** The four smoothness estimates, kept as the strings read from the file. */
  datatype Fwhm = Fwhm(x: string, y: string, z: string, combined: string)

  /** `" ".join(line.split()).split(" ")`: a line's words with its blanks collapsed. */
  function Words(line: string): seq<string>
  {
    Split(Join(Tokens(line), ' '), ' ')
  }

  /** The collapsed words are the line's tokens, except that a blank line gives one empty word. */
  lemma WordsAreTokens(line: string)
    ensures Tokens(line) != [] ==> Words(line) == Tokens(line)
    ensures Tokens(line) == [] ==> Words(line) == [""]
  {
    var ts := Tokens(line);
    if ts != [] {
      forall i | 0 <= i < |ts| ensures ' ' !in ts[i] {
        NoSpaceNoBlank(ts[i]);
      }
      JoinThenSplit(ts, ' ');
    }
  }

  /**
   * `parse_fwhm` on the file's contents: the second-to-last line, split on blanks, must hold
   * exactly four values, which come back in the order x, y, z, combined.
   */
  function ParseFwhm(contents: string): (r: Result<Fwhm, Error>)
    ensures |Split(contents, '\n')| < 2 <==> r == Err(IndexError)
    ensures r.Ok? <==> (|Split(contents, '\n')| >= 2
                        && |Tokens(Split(contents, '\n')[|Split(contents, '\n')| - 2])| == 4)
    ensures r.Ok? ==> [r.value.x, r.value.y, r.value.z, r.value.combined]
                      == Tokens(Split(contents, '\n')[|Split(contents, '\n')| - 2])
    ensures r.Err? ==> r.error == IndexError || r.error == ValueError
  {
    var lines := Split(contents, '\n');
    if |lines| < 2 then Err(IndexError)
    else
      var line := lines[|lines| - 2];
      WordsAreTokens(line);
      var vals := Words(line);
      if |vals| != 4 then Err(ValueError)
      else Ok(Fwhm(vals[0], vals[1], vals[2], vals[3]))
  }

  /** The estimates written as one line of blank-separated values. */
  function FwhmLine(f: Fwhm): string
  {
    Join([f.x, f.y, f.z, f.combined], ' ')
  }

  predicate Word(s: string)
  {
    s != [] && NoSpace(s)
  }

  /**
   * Reading back a file whose last line holds the four estimates, after any header,
   * recovers them exactly.
   */
  lemma ParseFwhmOfLine(header: string, f: Fwhm)
    requires Word(f.x) && Word(f.y) && Word(f.z) && Word(f.combined)
    ensures ParseFwhm(header + "\n" + (FwhmLine(f) + "\n")) == Ok(f)
  {
    var words := [f.x, f.y, f.z, f.combined];
    var line := FwhmLine(f);
    forall i | 0 <= i < |words| ensures '\n' !in words[i] {
      NoSpaceNoBlank(words[i]);
    }
    NotInJoin(words, ' ', '\n');
    var contents := header + "\n" + (line + "\n");
    LastLineSplit(header, line);
    TokensOfJoin(words);
    var r := ParseFwhm(contents);
    assert r.Ok? && [r.value.x, r.value.y, r.value.z, r.value.combined] == words;
  }

  /** A file ending in one newline-terminated line has that line second to last among its pieces. */
  lemma LastLineSplit(header: string, line: string)
    requires '\n' !in line
    ensures var lines := Split(header + "\n" + (line + "\n"), '\n');
            |lines| >= 2 && lines[|lines| - 2] == line
  {
    SplitWithoutSeparator(line, '\n');
    assert line + "\n" == line + ['\n'] + "";
    SplitAround(line, "", '\n');
    assert header + "\n" + (line + "\n") == header + ['\n'] + (line + "\n");
    SplitAround(header, line + "\n", '\n');
    var lines := Split(header, '\n') + [line] + [""];
    assert Split(header + "\n" + (line + "\n"), '\n') == lines;
    assert lines[|lines| - 2] == line;
  }

  // ---------------------------------------------------------------------------
  // fd_jenkinson
  // ---------------------------------------------------------------------------

  /** One parsed line of a `3dvolreg` `.affmat12.1D` file: the affine matrix's first three rows. */
  type Row = seq<real>

  /** The row completed with the fixed last matrix row `0 0 0 1`. */
  function Affine(row: Row): seq<real>
  {
    row + [0.0, 0.0, 0.0, 1.0]
  }

  /**
   * The displacement between the current and the previous 4x4 matrix (given row by row),
   * for a sphere of radius `rmax`. The matrix product, inverse, trace and square root are
   * floating point and stay outside the model.
   */
  type Displacement = (real, seq<real>, seq<real>) -> real

  /** The radius `fd_jenkinson` uses by default, as in FSL. */
  const DefaultRmax: real := 80.0

  /** Every row has as many values as the first (the table `numpy.genfromtxt` accepts). */
  predicate Rectangular(rows: seq<Row>)
  {
    forall i :: 0 <= i < |rows| ==> |rows[i]| == |rows[0]|
  }

  /** The displacements of `rows`, each against the row before it, starting from `prev`. */
  function DisplacementsFrom(prev: Row, rows: seq<Row>, rmax: real, disp: Displacement): (ds: seq<real>)
    ensures |ds| == |rows|
    ensures forall i :: 0 <= i < |rows| ==>
              ds[i] == disp(rmax, Affine(rows[i]), Affine(if i == 0 then prev else rows[i - 1]))
    decreases |rows|
  {
    if rows == [] then []
    else [disp(rmax, Affine(rows[0]), Affine(prev))] + DisplacementsFrom(rows[0], rows[1..], rmax, disp)
  }

  /**
   * The series `fd_jenkinson` writes, or the error it raises: an empty table, one row or one column
   * is read as a flat array without a second dimension (IndexError); a ragged table, or rows that
   * are not twelve values, cannot be read or reshaped to 4x4 (ValueError). Otherwise the series
   * starts with 0 for the first time point and has one displacement per later row.
   */
  function FdSeries(rows: seq<Row>, rmax: real, disp: Displacement): (r: Result<seq<real>, Error>)
    ensures r.Ok? <==> |rows| >= 2 && forall i :: 0 <= i < |rows| ==> |rows[i]| == 12
    ensures r.Ok? ==> |r.value| == |rows| && r.value[0] == 0.0
    ensures r.Ok? ==> forall i :: 1 <= i < |rows| ==>
                        r.value[i] == disp(rmax, Affine(rows[i]), Affine(rows[i - 1]))
    ensures r.Err? ==> r.error == IndexError || r.error == ValueError
  {
    if |rows| == 0 then Err(IndexError)
    else if !Rectangular(rows) then Err(ValueError)
    else if |rows| == 1 || |rows[0]| == 1 then Err(IndexError)
    else if |rows[0]| + 4 != 16 then Err(ValueError)
    else Ok([0.0] + DisplacementsFrom(rows[0], rows[1..], rmax, disp))
  }

  /** Entry `i` of the series depends on rows `i - 1` and `i` only. */
  lemma FdSeriesLocal(rows1: seq<Row>, rows2: seq<Row>, rmax: real, disp: Displacement, i: int)
    requires FdSeries(rows1, rmax, disp).Ok? && FdSeries(rows2, rmax, disp).Ok?
    requires 1 <= i < |rows1| && i < |rows2|
    requires rows1[i - 1] == rows2[i - 1] && rows1[i] == rows2[i]
    ensures FdSeries(rows1, rmax, disp).value[i] == FdSeries(rows2, rmax, disp).value[i]
  {
  }

  /** `fd_jenkinson`'s loop: `flag` skips the first row, `prev` holds the previous matrix row. */
  method FdJenkinson(rows: seq<Row>, rmax: real, disp: Displacement) returns (r: Result<seq<real>, Error>)
    ensures r == FdSeries(rows, rmax, disp)
  {
    if |rows| == 0 {
      return Err(IndexError);
    }
    if !Rectangular(rows) {
      return Err(ValueError);
    }
    if |rows| == 1 || |rows[0]| == 1 {
      return Err(IndexError);
    }
    var x: seq<real> := [0.0];
    var flag := 0;
    var prev: Row := [];
    var i := 0;
    while i < |rows|
      invariant 0 <= i <= |rows|
      invariant flag == (if i == 0 then 0 else 1)
      invariant i > 0 ==> |rows[0]| == 12 && prev == rows[i - 1]
      invariant i > 0 ==> x + DisplacementsFrom(prev, rows[i..], rmax, disp)
                          == [0.0] + DisplacementsFrom(rows[0], rows[1..], rmax, disp)
      invariant i == 0 ==> x == [0.0]
    {
      var pm := Affine(rows[i]);
      if |pm| != 16 {
        return Err(ValueError);
      }
      if flag == 0 {
        flag := 1;
      } else {
        var fd := disp(rmax, pm, Affine(prev));
        assert rows[i..][1..] == rows[i + 1..];
        Ordering.AppendAssoc(x, [fd], DisplacementsFrom(rows[i], rows[i + 1..], rmax, disp));
        x := x + [fd];
      }
      prev := rows[i];
      i := i + 1;
    }
    assert rows[i..] == [];
    assert x + DisplacementsFrom(prev, rows[i..], rmax, disp) == x;
    return Ok(x);
  }

  // ---------------------------------------------------------------------------
  // extract_fd_results
  // ---------------------------------------------------------------------------

  /** Reading one number: the conversion of the digits is left to `parse`. */
  type FloatParser = string -> Option<real>

  /** Python's `float(s)`: a blank string never converts. */
  function Float(parse: FloatParser, s: string): Option<real>
  {
    if Strip(s) == [] then None else parse(s)
  }

  /** `list(map(float, lines))`, or `None` when some line does not convert. */
  function ParseAll(parse: FloatParser, lines: seq<string>): (r: Option<seq<real>>)
    ensures r.Some? <==> forall i :: 0 <= i < |lines| ==> Float(parse, lines[i]).Some?
    ensures r.Some? ==> |r.value| == |lines|
    ensures r.Some? ==> forall i :: 0 <= i < |lines| ==> Float(parse, lines[i]) == Some(r.value[i])
  {
    if lines == [] then Some([])
    else
      var head := Float(parse, lines[0]);
      var rest := ParseAll(parse, lines[1..]);
      if head.None? || rest.None? then None else Some([head.value] + rest.value)
  }

  function Sum(xs: seq<real>): real
  {
    if xs == [] then 0.0 else xs[0] + Sum(xs[1..])
  }

  /** `list(filter(lambda x: x > cutoff, xs))`. */
  function Above(xs: seq<real>, cutoff: real): seq<real>
  {
    if xs == [] then []
    else if xs[0] > cutoff then [xs[0]] + Above(xs[1..], cutoff)
    else Above(xs[1..], cutoff)
  }

  /**
   * The kept values are exactly the values strictly above the cutoff, each as often as in `xs`:
   * a value equal to the cutoff is not kept.
   */
  lemma {:induction false} AboveIsStrict(xs: seq<real>, cutoff: real)
    ensures forall v :: multiset(Above(xs, cutoff))[v] == if v > cutoff then multiset(xs)[v] else 0
    ensures |Above(xs, cutoff)| <= |xs|
    decreases |xs|
  {
    if xs != [] {
      AboveIsStrict(xs[1..], cutoff);
      assert xs == [xs[0]] + xs[1..];
    }
  }

  /** Every value is kept exactly when every value is above the cutoff. */
  lemma {:induction false} AboveAll(xs: seq<real>, cutoff: real)
    ensures |Above(xs, cutoff)| == |xs| <==> AllAbove(xs, cutoff)
    decreases |xs|
  {
    if xs != [] {
      AboveAll(xs[1..], cutoff);
      AboveIsStrict(xs[1..], cutoff);
      if AllAbove(xs, cutoff) {
        assert AllAbove(xs[1..], cutoff) by {
          forall i | 0 <= i < |xs[1..]| ensures xs[1..][i] > cutoff {
            assert xs[1..][i] == xs[i + 1];
          }
        }
      } else if xs[0] > cutoff {
        var k :| 0 <= k < |xs| && !(xs[k] > cutoff);
        assert xs[1..][k - 1] == xs[k];
      }
    }
  }

  /** What `extract_fd_results` returns: the mean, the count above the cutoff and its percentage. */
  datatype FdSummary = FdSummary(mean: real, count: nat, percent: real)

  /** The cutoff `extract_fd_results` uses by default. */
  const DefaultCutoff: real := 0.2

  /** The values of a displacement file: one per line once the file is stripped. */
  function FdLines(contents: string): seq<string>
  {
    Split(Strip(contents), '\n')
  }

  lemma PercentInRange(count: nat, n: nat)
    requires count <= n && n > 0
    ensures 0.0 <= (count as real) / (n as real) * 100.0 <= 100.0
    ensures (count as real) / (n as real) * 100.0 == 100.0 <==> count == n
    ensures (count as real) / (n as real) * 100.0 * (n as real) == (count as real) * 100.0
  {
    var q := (count as real) / (n as real);
    assert q * (n as real) == count as real;
    assert q * 100.0 * (n as real) == (q * (n as real)) * 100.0;
    assert q <= 1.0;
    assert q == 1.0 <==> count == n;
  }

  /**
   * `extract_fd_results` on a file's contents. A line that does not convert raises ValueError;
   * an empty file is one blank line, so it fails there too and the division by the length is
   * never by zero.
   */
  function ExtractFdResults(contents: string, cutoff: real, parse: FloatParser): (r: Result<FdSummary, Error>)
    ensures r.Ok? <==> ParseAll(parse, FdLines(contents)).Some?
    ensures r.Err? ==> r.error == ValueError
    ensures r.Ok? ==> |ParseAll(parse, FdLines(contents)).value| >= 1
    ensures r.Ok? ==> MeanOf(r.value.mean, ParseAll(parse, FdLines(contents)).value)
    ensures r.Ok? ==> r.value.count <= |ParseAll(parse, FdLines(contents)).value|
    ensures r.Ok? ==> 0.0 <= r.value.percent <= 100.0
    ensures r.Ok? ==> PercentOf(r.value.percent, r.value.count, |ParseAll(parse, FdLines(contents)).value|)
    ensures r.Ok? ==> (r.value.count == |ParseAll(parse, FdLines(contents)).value|
                       <==> AllAbove(ParseAll(parse, FdLines(contents)).value, cutoff))
    ensures r.Ok? ==> (r.value.percent == 100.0 <==> AllAbove(ParseAll(parse, FdLines(contents)).value, cutoff))
  {
    var res := ParseAll(parse, FdLines(contents));
    if res.None? then Err(ValueError)
    else
      var n := |res.value|;
      var above := Above(res.value, cutoff);
      AboveIsStrict(res.value, cutoff);
      AboveAll(res.value, cutoff);
      Ok(FdSummary(Mean(res.value), |above|, Percent(|above|, n)))
  }

  /** `sum(xs) / len(xs)`. */
  function Mean(xs: seq<real>): (mean: real)
    requires xs != []
    ensures MeanOf(mean, xs)
  {
    MeanTimesLength(Sum(xs), |xs|);
    Sum(xs) / (|xs| as real)
  }

  /** `float(count) / n * 100`. */
  function Percent(count: nat, n: nat): (p: real)
    requires count <= n && n > 0
    ensures 0.0 <= p <= 100.0
    ensures p == 100.0 <==> count == n
    ensures PercentOf(p, count, n)
  {
    PercentInRange(count, n);
    (count as real) / (n as real) * 100.0
  }

  /** `percent` is `count` out of `n`, in hundredths: `percent * n == count * 100`. */
  predicate PercentOf(percent: real, count: nat, n: nat)
  {
    percent * (n as real) == (count as real) * 100.0
  }

  /** `mean` times the number of values is their sum. */
  predicate MeanOf(mean: real, xs: seq<real>)
  {
    mean * (|xs| as real) == Sum(xs)
  }

  predicate AllAbove(xs: seq<real>, cutoff: real)
  {
    forall i :: 0 <= i < |xs| ==> xs[i] > cutoff
  }

  lemma MeanTimesLength(total: real, n: nat)
    requires n > 0
    ensures total / (n as real) * (n as real) == total
  {
  }

  /** An empty or blank file raises ValueError at the conversion, before any division. */
  lemma ExtractFdBlank(contents: string, cutoff: real, parse: FloatParser)
    requires Strip(contents) == []
    ensures ExtractFdResults(contents, cutoff, parse) == Err(ValueError)
  {
    assert FdLines(contents) == [""];
    assert Float(parse, "").None?;
  }

  /** The count depends on the kept values only: the result is the number of values above the cutoff. */
  lemma ExtractFdCount(contents: string, cutoff: real, parse: FloatParser)
    requires ExtractFdResults(contents, cutoff, parse).Ok?
    ensures var res := ParseAll(parse, FdLines(contents)).value;
            ExtractFdResults(contents, cutoff, parse).value.count == |Above(res, cutoff)|
            && forall v :: multiset(Above(res, cutoff))[v] == if v > cutoff then multiset(res)[v] else 0
  {
    AboveIsStrict(ParseAll(parse, FdLines(contents)).value, cutoff);
  }

  /**
   * Over a series from `fd_jenkinson`, the leading 0 enters the mean's denominator but never its
   * sum, and is never counted when the cutoff is not negative (the default is 0.2).
   */
  lemma {:induction false} LeadingZero(x: seq<real>, cutoff: real)
    requires x != [] && x[0] == 0.0
    requires cutoff >= 0.0
    ensures Sum(x) == Sum(x[1..])
    ensures Above(x, cutoff) == Above(x[1..], cutoff)
  {
  }
}
