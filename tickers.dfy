/**
 * The ticker column read from the spreadsheet and its normalisation
 * (app.py, get_tickers_from_sheets): the header cell is dropped, every
 * cell is stripped of surrounding whitespace and upper-cased (ASCII letters only), and cells
 * that are blank once stripped are discarded.
 */
module Tickers {
  import opened Sequences

  /** Python's str.isspace for a single character. */
  predicate IsSpace(c: char) {
    || ('\t' <= c <= '\r')
    || ('\U{1C}' <= c <= '\U{1F}')
    || c == ' '
    || c == '\U{85}'
    || c == '\U{A0}'
    || c == '\U{1680}'
    || ('\U{2000}' <= c <= '\U{200A}')
    || c == '\U{2028}'
    || c == '\U{2029}'
    || c == '\U{202F}'
    || c == '\U{205F}'
    || c == '\U{3000}'
  }

  predicate IsLowerAscii(c: char) {
    'a' <= c <= 'z'
  }

  /** Upper-casing of one character (ASCII letters only). */
  function UpperChar(c: char): (u: char)
    ensures !IsLowerAscii(u)
    ensures IsSpace(u) == IsSpace(c)
    ensures !IsLowerAscii(c) ==> u == c
  {
    if IsLowerAscii(c) then (c as int - 32) as char else c
  }

  /** str.upper */
  function Upper(s: string): (r: string)
    ensures |r| == |s|
    ensures forall i :: 0 <= i < |r| ==> !IsLowerAscii(r[i])
    ensures forall i :: 0 <= i < |r| ==> IsSpace(r[i]) == IsSpace(s[i])
  {
    seq(|s|, i requires 0 <= i < |s| => UpperChar(s[i]))
  }

  /** str.lstrip: the suffix left after dropping the leading whitespace. */
  function TrimStart(s: string): (r: string)
    ensures |r| <= |s| && r == s[|s| - |r|..]
    ensures forall k :: 0 <= k < |s| - |r| ==> IsSpace(s[k])
    ensures r != [] ==> !IsSpace(r[0])
  {
    if |s| > 0 && IsSpace(s[0]) then TrimStart(s[1..]) else s
  }

  /** str.rstrip: the prefix left after dropping the trailing whitespace. */
  function TrimEnd(s: string): (r: string)
    ensures |r| <= |s| && r == s[..|r|]
    ensures forall k :: |r| <= k < |s| ==> IsSpace(s[k])
    ensures r != [] ==> !IsSpace(r[|r| - 1])
  {
    if |s| > 0 && IsSpace(s[|s| - 1]) then TrimEnd(s[..|s| - 1]) else s
  }

  /** str.strip */
  function Strip(s: string): (r: string)
    ensures r != [] ==> !IsSpace(r[0]) && !IsSpace(r[|r| - 1])
  {
    var t := TrimStart(s);
    var r := TrimEnd(t);
    assert r != [] ==> r[0] == t[0];
    r
  }

  /** A cell the comprehension's filter `if ticker.strip()` rejects. */
  predicate IsBlank(cell: string) {
    Strip(cell) == ""
  }

  /** A cell is blank exactly when every character of it is whitespace. */
  lemma BlankIffAllSpace(cell: string)
    ensures IsBlank(cell) <==> forall k :: 0 <= k < |cell| ==> IsSpace(cell[k])
  {
    var t := TrimStart(cell);
    if t != [] {
      assert t[0] == cell[|cell| - |t|];
    }
  }

  /** The ticker a non-blank cell becomes: `ticker.strip().upper()`. */
  function Canonical(cell: string): (t: string)
    ensures |t| <= |cell|
  {
    Upper(Strip(cell))
  }

  /** What every produced ticker looks like. */
  predicate WellFormed(t: string) {
    && t != ""
    && !IsSpace(t[0])
    && !IsSpace(t[|t| - 1])
    && forall i :: 0 <= i < |t| ==> !IsLowerAscii(t[i])
  }

  /** The list comprehension of app.py:36 over the cells below the header. */
  function Normalize(cells: seq<string>): (r: seq<string>)
    ensures |r| <= |cells|
  {
    if cells == [] then [] else Kept(cells[0]) + Normalize(cells[1..])
  }

  /** What one cell contributes to the comprehension. */
  function Kept(cell: string): (r: seq<string>)
    ensures |r| <= 1
  {
    if IsBlank(cell) then [] else [Canonical(cell)]
  }

  /** A blank-free cell becomes a well-formed ticker. */
  lemma CanonicalWellFormed(cell: string)
    requires !IsBlank(cell)
    ensures WellFormed(Canonical(cell))
  {
  }

  /** Every produced ticker is non-empty, has no surrounding whitespace and no lower-case ASCII letter. */
  lemma {:induction false} NormalizeWellFormed(cells: seq<string>)
    ensures forall t :: t in Normalize(cells) ==> WellFormed(t)
  {
    if cells != [] {
      NormalizeWellFormed(cells[1..]);
      if !IsBlank(cells[0]) {
        CanonicalWellFormed(cells[0]);
      }
    }
  }

  /** get_tickers_from_sheets on the values of column B: `col_values(2)[1:]`, then Normalize. */
  function TickersFromColumn(column: seq<string>): (r: seq<string>)
    ensures column != [] ==> |r| < |column|
  {
    Normalize(if column == [] then [] else column[1..])
  }

  /** The header cell is never processed: whatever it holds, the result is that of the cells below it. */
  lemma HeaderIgnored(header: string, cells: seq<string>)
    ensures TickersFromColumn([header] + cells) == Normalize(cells)
  {
    assert ([header] + cells)[1..] == cells;
  }

  /** Normalisation works cell by cell and keeps the order: it distributes over concatenation, so duplicates are kept and only blank cells are dropped. */
  lemma {:induction false} NormalizeAppend(a: seq<string>, b: seq<string>)
    ensures Normalize(a + b) == Normalize(a) + Normalize(b)
  {
    if a == [] {
      assert a + b == b;
    } else {
      var ab := a + b;
      assert ab != [] && ab[0] == a[0] && ab[1..] == a[1..] + b;
      var kept := Kept(a[0]);
      var rest := Normalize(a[1..]);
      NormalizeAppend(a[1..], b);
      assert Normalize(ab) == kept + (rest + Normalize(b));
      assert Normalize(a) == kept + rest;
      Associative(kept, rest, Normalize(b));
    }
  }

  /** Every non-blank cell yields its stripped, upper-cased ticker. */
  lemma {:induction false} NormalizeKeepsNonBlank(cells: seq<string>)
    ensures forall c :: c in cells && !IsBlank(c) ==> Canonical(c) in Normalize(cells)
  {
    if cells != [] {
      NormalizeKeepsNonBlank(cells[1..]);
      var head := Kept(cells[0]);
      assert Normalize(cells) == head + Normalize(cells[1..]);
      forall c | c in cells && !IsBlank(c)
        ensures Canonical(c) in Normalize(cells)
      {
        if c != cells[0] {
          assert c in cells[1..];
        }
      }
    }
  }

  /** Every produced ticker comes from a non-blank cell. */
  lemma {:induction false} NormalizeOnlyFromCells(cells: seq<string>)
    ensures forall t :: t in Normalize(cells) ==> exists c :: c in cells && !IsBlank(c) && t == Canonical(c)
  {
    if cells != [] {
      NormalizeOnlyFromCells(cells[1..]);
      var head := Kept(cells[0]);
      assert Normalize(cells) == head + Normalize(cells[1..]);
      forall t | t in Normalize(cells)
        ensures exists c :: c in cells && !IsBlank(c) && t == Canonical(c)
      {
        if t in head {
          assert cells[0] in cells;
        } else {
          var c :| c in cells[1..] && !IsBlank(c) && t == Canonical(c);
          assert c in cells;
        }
      }
    }
  }

  /** A string with no surrounding whitespace is its own strip. */
  lemma StripStripped(s: string)
    requires s != [] ==> !IsSpace(s[0]) && !IsSpace(s[|s| - 1])
    ensures Strip(s) == s
  {
  }

  /** Upper-casing twice is upper-casing once. */
  lemma UpperIdempotent(s: string)
    ensures Upper(Upper(s)) == Upper(s)
  {
  }

  /** A produced ticker is a fixed point of the cell canonicalisation. */
  lemma CanonicalIdempotent(cell: string)
    ensures Canonical(Canonical(cell)) == Canonical(cell)
  {
    var s := Strip(cell);
    var u := Upper(s);
    assert u != [] ==> IsSpace(u[0]) == IsSpace(s[0]) && IsSpace(u[|u| - 1]) == IsSpace(s[|s| - 1]);
    StripStripped(u);
    UpperIdempotent(s);
  }

  /** Normalising an already normalised list changes nothing. */
  lemma {:induction false} NormalizeIdempotent(cells: seq<string>)
    ensures Normalize(Normalize(cells)) == Normalize(cells)
  {
    if cells != [] {
      var head := Kept(cells[0]);
      NormalizeAppend(head, Normalize(cells[1..]));
      NormalizeIdempotent(cells[1..]);
      if !IsBlank(cells[0]) {
        var t := Canonical(cells[0]);
        CanonicalWellFormed(cells[0]);
        CanonicalIdempotent(cells[0]);
        assert !IsBlank(t);
        assert Normalize(head) == [t] by {
          assert head[1..] == [];
        }
      }
    }
  }
}
