/**
 * String and grid helpers (src/qr.ts): the rolling-buffer `trim`, removal of
 * terminal control sequences, login-URL extraction, and the half-block
 * rendering of a QR module matrix.
 */
module Qr {
  import opened Wrappers
  import opened JsString

  // ---------------------------------------------------------------------------
  // trim: a suffix cap, used everywhere as a rolling buffer
  // ---------------------------------------------------------------------------

  /** The last `max` characters of `value`, or all of it when it is short enough. */
  function Trim(value: string, max: nat): (r: string)
    ensures |r| == if |value| <= max then |value| else max
    ensures |value| <= max ==> r == value
  {
    if |value| <= max then value else value[|value| - max..]
  }

  /** The trimmed text is the suffix of the value of that length. */
  lemma TrimIsSuffix(value: string, max: nat)
    ensures Trim(value, max) == value[|value| - |Trim(value, max)|..]
  {
  }

  /** A suffix of a suffix of `y` is the suffix of `y` of the same length. */
  lemma SuffixOfSuffix(x: string, y: string, n: nat)
    requires |x| <= |y| && x == y[|y| - |x|..]
    requires n <= |x|
    ensures x[|x| - n..] == y[|y| - n..]
  {
    assert x[|x| - n..] == y[|y| - |x|..][|x| - n..];
  }

  lemma {:induction false} TrimIdempotent(value: string, max: nat)
    ensures Trim(Trim(value, max), max) == Trim(value, max)
  {
  }

  /**
   * Rolling-buffer law: trimming after every append gives the same text as
   * trimming once after appending everything.
   */
  lemma {:induction false} TrimAppend(prev: string, text: string, max: nat)
    ensures Trim(Trim(prev, max) + text, max) == Trim(prev + text, max)
  {
    var t := Trim(prev, max);
    var whole := prev + text;
    var part := t + text;
    assert part == whole[|whole| - |part|..] by {
      assert t == prev[|prev| - |t|..];
      assert forall k :: 0 <= k < |part| ==> part[k] == whole[|whole| - |part| + k];
    }
    var n := |Trim(whole, max)|;
    assert |Trim(part, max)| == n;
    SuffixOfSuffix(part, whole, n);
  }

  // ---------------------------------------------------------------------------
  // Terminal control removal
  // ---------------------------------------------------------------------------

  /*
   * The escape-sequence pattern is
   *   [ESC CSI] [[()#;?]* (?: [0-9]{1,4} (?:;[0-9]{0,4})* )? [0-9A-ORZcf-nqry=><]
   * and every global match is removed. The functions below find, at a given
   * position, the match a backtracking engine reports first: every greedy
   * quantifier tries its longest choice first and gives back one step at a time.
   */

  predicate IsIntroducer(c: char)
  {
    c == '\U{001B}' || c == '\U{009B}'
  }

  predicate IsParam(c: char)
  {
    c == '[' || c == '(' || c == ')' || c == '#' || c == ';' || c == '?'
  }

  predicate IsFinal(c: char)
  {
    ('0' <= c <= '9') || ('A' <= c <= 'O') || c == 'R' || c == 'Z' || c == 'c'
    || ('f' <= c <= 'n') || c == 'q' || c == 'r' || c == 'y' || c == '=' || c == '>' || c == '<'
  }

  /** The number of consecutive parameter characters starting at `k`. */
  function ParamRun(s: string, k: nat): (n: nat)
    requires k <= |s|
    ensures k + n <= |s|
    ensures forall j :: k <= j < k + n ==> IsParam(s[j])
    decreases |s| - k
  {
    if k < |s| && IsParam(s[k]) then 1 + ParamRun(s, k + 1) else 0
  }

  function Min(a: int, b: int): int
  {
    if a <= b then a else b
  }

  /** The final character class alone at `k`. */
  function FinalAt(s: string, k: nat): (r: Option<nat>)
    requires k <= |s|
    ensures r.Some? ==> r.value == k + 1 <= |s|
  {
    if k < |s| && IsFinal(s[k]) then Some(k + 1) else None
  }

  /** `(?:;[0-9]{0,4})*` followed by the final character, starting at `k`. */
  function GroupsThenFinal(s: string, k: nat): (r: Option<nat>)
    requires k <= |s|
    ensures r.Some? ==> k < r.value <= |s|
    decreases |s| + 1 - k, 0
  {
    if k < |s| && s[k] == ';' then
      var again := SubDigits(s, k + 1, Min(4, DigitRun(s, k + 1)));
      if again.Some? then again else FinalAt(s, k)
    else FinalAt(s, k)
  }

  /** One more `;[0-9]{0,4}` group whose digits start at `j`, trying `c` digits, then fewer. */
  function SubDigits(s: string, j: nat, c: nat): (r: Option<nat>)
    requires 0 < j && j + c <= |s|
    requires forall t :: j <= t < j + c ==> IsDigit(s[t])
    ensures r.Some? ==> j < r.value <= |s|
    decreases |s| + 1 - j, c + 1
  {
    var r := GroupsThenFinal(s, j + c);
    if r.Some? || c == 0 then r else SubDigits(s, j, c - 1)
  }

  /** `[0-9]{1,4}` at `j` taking `c` digits (then fewer), followed by the groups and the final character. */
  function LeadDigits(s: string, j: nat, c: nat): (r: Option<nat>)
    requires 1 <= c && j + c <= |s|
    ensures r.Some? ==> j < r.value <= |s|
    decreases c
  {
    var r := GroupsThenFinal(s, j + c);
    if r.Some? || c == 1 then r else LeadDigits(s, j, c - 1)
  }

  /** The optional numeric part and the final character, starting at `j`. */
  function NumericThenFinal(s: string, j: nat): (r: Option<nat>)
    requires j <= |s|
    ensures r.Some? ==> j < r.value <= |s|
  {
    var run := DigitRun(s, j);
    var numeric := if run >= 1 then LeadDigits(s, j, Min(4, run)) else None;
    if numeric.Some? then numeric else FinalAt(s, j)
  }

  /** The parameter prefix taking `p` characters after the introducer at `i` (then fewer). */
  function ParamsThen(s: string, i: nat, p: nat): (r: Option<nat>)
    requires i + 1 + p <= |s|
    ensures r.Some? ==> i + 1 < r.value <= |s|
    decreases p
  {
    var r := NumericThenFinal(s, i + 1 + p);
    if r.Some? || p == 0 then r else ParamsThen(s, i, p - 1)
  }

  /** The end of the escape sequence that starts at `i`, if one does. */
  function EscapeAt(s: string, i: nat): (r: Option<nat>)
    requires i <= |s|
    ensures r.Some? ==> i + 2 <= r.value <= |s|
    ensures r.Some? ==> IsIntroducer(s[i])
  {
    if i < |s| && IsIntroducer(s[i]) then ParamsThen(s, i, ParamRun(s, i + 1)) else None
  }

  /** Global removal of escape sequences, scanning left to right from `i`. */
  function StripEscapes(s: string, i: nat): (r: string)
    requires i <= |s|
    ensures |r| <= |s| - i
    ensures forall c :: c in r ==> c in s[i..]
    ensures (forall k :: i <= k < |s| ==> !IsIntroducer(s[k])) ==> r == s[i..]
    decreases |s| - i
  {
    if i == |s| then ""
    else match EscapeAt(s, i)
      case Some(e) => StripEscapes(s, e)
      case None =>
        var rest := StripEscapes(s, i + 1);
        assert s[i..] == [s[i]] + s[i + 1..];
        [s[i]] + rest
  }

  /** `replace(/\r/g, "")` */
  function StripCarriageReturns(s: string): (r: string)
    ensures '\r' !in r
    ensures |r| <= |s|
    ensures forall c :: c in r ==> c in s
    ensures '\r' !in s ==> r == s
  {
    if |s| == 0 then ""
    else
      var rest := StripCarriageReturns(s[1..]);
      assert s == [s[0]] + s[1..];
      if s[0] == '\r' then rest else [s[0]] + rest
  }

  /** Removes terminal escape sequences, then every carriage return. */
  function StripTerminalControl(value: string): (r: string)
    ensures '\r' !in r
    ensures |r| <= |value|
    ensures forall c :: c in r ==> c in value
    ensures (forall k :: 0 <= k < |value| ==> !IsIntroducer(value[k]) && value[k] != '\r') ==> r == value
  {
    StripCarriageReturns(StripEscapes(value, 0))
  }

  // ---------------------------------------------------------------------------
  // parseURL: the first `https?://[^\s)]+` run
  // ---------------------------------------------------------------------------

  predicate HasAt(s: string, i: nat, lit: string)
  {
    i + |lit| <= |s| && s[i..i + |lit|] == lit
  }

  /** The length of the scheme (`https://` or `http://`) at `i`, or 0. */
  function SchemeLength(s: string, i: nat): (n: nat)
    ensures n == 0 || n == 7 || n == 8
    ensures n > 0 ==> i + n <= |s|
  {
    if HasAt(s, i, "https://") then 8 else if HasAt(s, i, "http://") then 7 else 0
  }

  predicate IsUrlChar(c: char)
  {
    !IsWhiteSpace(c) && c != ')'
  }

  /** The end of the longest run of URL characters starting at `k`. */
  function UrlRunEnd(s: string, k: nat): (e: nat)
    requires k <= |s|
    ensures k <= e <= |s|
    ensures forall j :: k <= j < e ==> IsUrlChar(s[j])
    ensures e == |s| || !IsUrlChar(s[e])
    decreases |s| - k
  {
    if k < |s| && IsUrlChar(s[k]) then UrlRunEnd(s, k + 1) else k
  }

  /** The match of the URL pattern that starts at `i`, if one does. */
  function UrlAt(s: string, i: nat): Option<string>
  {
    var n := SchemeLength(s, i);
    if n > 0 && UrlRunEnd(s, i + n) > i + n then Some(s[i..UrlRunEnd(s, i + n)]) else None
  }

  /** The leftmost position at or after `i` where the URL pattern matches. */
  function FirstUrlAt(s: string, i: nat): (r: Option<nat>)
    requires i <= |s|
    ensures r.Some? ==> i <= r.value < |s| && UrlAt(s, r.value).Some?
    ensures r.Some? ==> forall j :: i <= j < r.value ==> UrlAt(s, j).None?
    ensures r.None? ==> forall j :: i <= j ==> UrlAt(s, j).None?
    decreases |s| - i
  {
    if i == |s| then None
    else if UrlAt(s, i).Some? then Some(i)
    else FirstUrlAt(s, i + 1)
  }

  /**
   * The first `http://` or `https://` URL in the text once terminal control is
   * removed: the scheme followed by the longest non-empty run of characters
   * that are neither whitespace nor `)`.
   */
  function ParseURL(value: string): (r: Option<string>)
    ensures r.None? <==> forall j :: UrlAt(StripTerminalControl(value), j).None?
    ensures r.Some? ==> exists j :: FirstUrlAt(StripTerminalControl(value), 0) == Some(j)
                                   && UrlAt(StripTerminalControl(value), j) == r
  {
    var s := StripTerminalControl(value);
    match FirstUrlAt(s, 0)
    case None => None
    case Some(j) => UrlAt(s, j)
  }

  /** Every URL found starts with a scheme and then holds only URL characters, at least one. */
  lemma {:induction false} UrlShape(s: string, i: nat)
    requires UrlAt(s, i).Some?
    ensures var u := UrlAt(s, i).value;
            var n := if HasAt(u, 0, "https://") then 8 else 7;
            (HasAt(u, 0, "https://") || HasAt(u, 0, "http://"))
            && n < |u| && forall k :: n <= k < |u| ==> IsUrlChar(u[k])
  {
    var u := UrlAt(s, i).value;
    var n := SchemeLength(s, i);
    var e := UrlRunEnd(s, i + n);
    assert u == s[i..e];
    if n == 8 {
      assert u[0..8] == s[i..i + 8];
    } else {
      assert u[0..7] == s[i..i + 7];
    }
    assert forall k :: n <= k < |u| ==> u[k] == s[i + k];
  }

  // ---------------------------------------------------------------------------
  // QR rendering
  // ---------------------------------------------------------------------------

  /** The module matrix produced by the QR library: `size * size` cells, row-major. */
  datatype QrCode = QrCode(data: seq<int>, size: nat)

  /** A module cell: dark iff inside the grid and its entry is truthy; a missing entry reads as light. */
  function QrCell(data: seq<int>, size: int, x: int, y: int): (r: bool)
    ensures r ==> 0 <= x < size && 0 <= y < size
    ensures 0 <= x < size && 0 <= y < size && y * size + x < |data| ==> (r <==> data[y * size + x] != 0)
    ensures 0 <= x < size && 0 <= y < size && y * size + x >= |data| ==> !r
  {
    if x < 0 || y < 0 || x >= size || y >= size then false
    else
      var k := y * size + x;
      assert k >= 0 by { assert y * size >= 0; }
      k < |data| && data[k] != 0
  }

  /** One character for two vertically stacked cells. */
  function Glyph(top: bool, bottom: bool): (c: char)
    ensures c != '\n'
    ensures c == ' ' <==> !top && !bottom
  {
    if top && bottom then '█' else if top then '▀' else if bottom then '▄' else ' '
  }

  /** The text row whose upper cells are in grid row `y`, with a two-cell border. */
  function QrRow(code: QrCode, y: int): (row: string)
    ensures |row| == code.size + 4
    ensures forall k :: 0 <= k < |row| ==>
              row[k] == Glyph(QrCell(code.data, code.size, k - 2, y), QrCell(code.data, code.size, k - 2, y + 1))
  {
    seq(code.size + 4, k requires 0 <= k < code.size + 4 =>
      Glyph(QrCell(code.data, code.size, k - 2, y), QrCell(code.data, code.size, k - 2, y + 1)))
  }

  /**
   * The rendered rows: ceil((size + 4) / 2) rows of size + 4 characters, row `r`
   * pairing grid rows 2r - 2 and 2r - 1; the two-cell border is blank.
   */
  function QrRows(code: QrCode): (rows: seq<string>)
    ensures |rows| == (code.size + 5) / 2
    ensures forall r :: 0 <= r < |rows| ==> rows[r] == QrRow(code, 2 * r - 2) && |rows[r]| == code.size + 4
    ensures forall r, k :: 0 <= r < |rows| && 0 <= k < code.size + 4 && (k < 2 || k >= code.size + 2) ==>
              rows[r][k] == ' '
    ensures |rows| > 0 && forall k :: 0 <= k < code.size + 4 ==> rows[0][k] == ' '
  {
    seq((code.size + 5) / 2, r requires 0 <= r < (code.size + 5) / 2 => QrRow(code, 2 * r - 2))
  }

  /** The nested loops of `renderQR`: grows each row a character at a time and collects the rows. */
  method RenderRows(code: QrCode) returns (lines: seq<string>)
    ensures lines == QrRows(code)
  {
    var size := code.size;
    lines := [];
    var y: int := -2;
    while y < size + 2
      invariant y == 2 * |lines| - 2
      invariant |lines| <= (size + 5) / 2
      invariant y < size + 2 ==> |lines| < (size + 5) / 2
      invariant y >= size + 2 ==> |lines| == (size + 5) / 2
      invariant lines == QrRows(code)[..|lines|]
    {
      var line := "";
      var x: int := -2;
      while x < size + 2
        invariant -2 <= x <= size + 2
        invariant line == QrRow(code, y)[..x + 2]
      {
        var top := QrCell(code.data, size, x, y);
        var bot := QrCell(code.data, size, x, y + 1);
        if top && bot {
          line := line + "█";
        } else if top {
          line := line + "▀";
        } else if bot {
          line := line + "▄";
        } else {
          line := line + " ";
        }
        x := x + 1;
      }
      assert line == QrRow(code, y);
      lines := lines + [line];
      y := y + 2;
    }
  }

  /** `renderQR`: the rows joined by newlines. */
  method RenderQR(code: QrCode) returns (text: string)
    ensures text == Join(QrRows(code), '\n')
    ensures Split(text, '\n') == QrRows(code)
  {
    var lines := RenderRows(code);
    text := Join(lines, '\n');
    RowsSplitBack(code);
  }

  /** The rendered text splits back into exactly its rows: no glyph is a newline. */
  lemma RowsSplitBack(code: QrCode)
    ensures Split(Join(QrRows(code), '\n'), '\n') == QrRows(code)
  {
    var rows := QrRows(code);
    forall i | 0 <= i < |rows| ensures '\n' !in rows[i] {
      assert forall k :: 0 <= k < |rows[i]| ==> rows[i][k] != '\n';
    }
    SplitJoin(rows, '\n');
  }
}
