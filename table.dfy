/**
 * The header and row part of `parseCSV` (main.go:289-312). The rows arrive
 * already split into fields; reading the file and the CSV tokenizer are not
 * part of this model.
 *
 * The required column names are sorted (`sort.Strings`), each header cell is
 * looked up by binary search (`sort.SearchStrings`) and, when found, removed
 * from the sorted list and recorded against its position. What is left in the
 * list is the set of missing columns. Each row is then projected onto the
 * recorded positions.
 */
module Table {
  import opened Wrappers

  /** A projected row: required column name to raw cell text. */
  type Row = map<string, string>

  /* ---------------------------------------------------------------------
   * Go's string order, sort.Strings and sort.SearchStrings
   * ------------------------------------------------------------------- */

  /** Go's `a <= b` on strings. Go compares UTF-8 bytes, and UTF-8 preserves
      code-point order, so this is the lexicographic order on runes. */
  predicate Below(a: string, b: string)
    decreases |a|
  {
    |a| == 0 || (|b| > 0 && (a[0] < b[0] || (a[0] == b[0] && Below(a[1..], b[1..]))))
  }

  lemma {:induction false} BelowReflexive(a: string)
    ensures Below(a, a)
    decreases |a|
  {
    if |a| > 0 { BelowReflexive(a[1..]); }
  }

  lemma {:induction false} BelowTotal(a: string, b: string)
    ensures Below(a, b) || Below(b, a)
    decreases |a|
  {
    if |a| > 0 && |b| > 0 && a[0] == b[0] { BelowTotal(a[1..], b[1..]); }
  }

  lemma {:induction false} BelowAntisymmetric(a: string, b: string)
    requires Below(a, b) && Below(b, a)
    ensures a == b
    decreases |a|
  {
    if |a| > 0 {
      BelowAntisymmetric(a[1..], b[1..]);
      assert a == [a[0]] + a[1..];
      assert b == [b[0]] + b[1..];
    }
  }

  lemma {:induction false} BelowTransitive(a: string, b: string, c: string)
    requires Below(a, b) && Below(b, c)
    ensures Below(a, c)
    decreases |a|
  {
    if |a| > 0 && a[0] == b[0] && b[0] == c[0] { BelowTransitive(a[1..], b[1..], c[1..]); }
  }

  predicate Sorted(s: seq<string>)
  {
    forall i, j :: 0 <= i < j < |s| ==> Below(s[i], s[j])
  }

  predicate Distinct(s: seq<string>)
  {
    forall i, j :: 0 <= i < j < |s| ==> s[i] != s[j]
  }

  /** Insert `x` into a sorted list. */
  function Insert(x: string, s: seq<string>): seq<string>
  {
    if s == [] then [x]
    else if Below(x, s[0]) then [x] + s
    else [s[0]] + Insert(x, s[1..])
  }

  /** `sort.Strings`, written as an insertion sort. */
  function Sort(s: seq<string>): seq<string>
  {
    if s == [] then [] else Insert(s[0], Sort(s[1..]))
  }

  lemma SortedCons(x: string, s: seq<string>)
    requires Sorted(s) && forall k :: 0 <= k < |s| ==> Below(x, s[k])
    ensures Sorted([x] + s)
  {
    var t := [x] + s;
    forall i, j | 0 <= i < j < |t| ensures Below(t[i], t[j]) {
      assert t[j] == s[j - 1];
      if i > 0 { assert t[i] == s[i - 1]; }
    }
  }

  lemma DistinctCons(x: string, s: seq<string>)
    requires Distinct(s) && x !in s
    ensures Distinct([x] + s)
  {
    var t := [x] + s;
    forall i, j | 0 <= i < j < |t| ensures t[i] != t[j] {
      assert t[j] == s[j - 1];
      if i > 0 { assert t[i] == s[i - 1]; }
    }
  }

  lemma {:induction false} InsertMultiset(x: string, s: seq<string>)
    ensures multiset(Insert(x, s)) == multiset(s) + multiset{x}
    decreases |s|
  {
    if s != [] && !Below(x, s[0]) {
      assert s == [s[0]] + s[1..];
      InsertMultiset(x, s[1..]);
    }
  }

  lemma InsertMembers(x: string, s: seq<string>)
    ensures forall e :: e in Insert(x, s) <==> e == x || e in s
  {
    InsertMultiset(x, s);
    forall e ensures e in Insert(x, s) <==> e == x || e in s {
      assert e in Insert(x, s) <==> e in multiset(Insert(x, s));
      assert e in s <==> e in multiset(s);
    }
  }

  lemma {:induction false} InsertSorted(x: string, s: seq<string>)
    requires Sorted(s)
    ensures Sorted(Insert(x, s))
    decreases |s|
  {
    if s == [] {
    } else if Below(x, s[0]) {
      forall k | 0 <= k < |s| ensures Below(x, s[k]) {
        if k > 0 { BelowTransitive(x, s[0], s[k]); }
      }
      SortedCons(x, s);
    } else {
      BelowTotal(x, s[0]);
      var tail := s[1..];
      InsertSorted(x, tail);
      InsertMembers(x, tail);
      var rest := Insert(x, tail);
      forall k | 0 <= k < |rest| ensures Below(s[0], rest[k]) {
        assert rest[k] in rest;
        if rest[k] != x {
          var m :| 0 <= m < |tail| && tail[m] == rest[k];
          assert s[m + 1] == tail[m];
        }
      }
      SortedCons(s[0], rest);
    }
  }

  lemma {:induction false} InsertDistinct(x: string, s: seq<string>)
    requires Distinct(s) && x !in s
    ensures Distinct(Insert(x, s))
    decreases |s|
  {
    if s == [] {
    } else if Below(x, s[0]) {
      DistinctCons(x, s);
    } else {
      var tail := s[1..];
      assert s == [s[0]] + tail;
      InsertDistinct(x, tail);
      InsertMembers(x, tail);
      DistinctCons(s[0], Insert(x, tail));
    }
  }

  /** The sorted list holds the same names, in order, and repeats none when
      the input repeats none. */
  lemma {:induction false} SortCorrect(s: seq<string>)
    ensures Sorted(Sort(s))
    ensures multiset(Sort(s)) == multiset(s)
    ensures Distinct(s) ==> Distinct(Sort(s))
    decreases |s|
  {
    if s != [] {
      var tail := s[1..];
      assert s == [s[0]] + tail;
      SortCorrect(tail);
      InsertSorted(s[0], Sort(tail));
      InsertMultiset(s[0], Sort(tail));
      assert multiset(s) == multiset(tail) + multiset{s[0]};
      if Distinct(s) {
        forall k | 0 <= k < |tail| ensures tail[k] != s[0] {
          assert tail[k] == s[k + 1];
        }
        assert multiset(Sort(tail))[s[0]] == multiset(tail)[s[0]] == 0;
        InsertDistinct(s[0], Sort(tail));
      }
    }
  }

  /** `sort.SearchStrings(cols, c)`: the least index whose element is not
      below `c`, or `|cols|`. On a sorted list the binary search the library
      performs returns exactly this index. */
  function Search(cols: seq<string>, c: string): (j: nat)
    ensures j <= |cols|
    ensures j < |cols| ==> Below(c, cols[j])
    ensures forall k :: 0 <= k < j ==> !Below(c, cols[k])
  {
    if cols == [] || Below(c, cols[0]) then 0 else Search(cols[1..], c) + 1
  }

  /** The test `j < len(cols) && cols[j] == c` after the search holds exactly
      when `c` is in the sorted list. */
  lemma SearchFinds(cols: seq<string>, c: string)
    requires Sorted(cols)
    ensures var j := Search(cols, c); (j < |cols| && cols[j] == c) <==> c in cols
  {
    var j := Search(cols, c);
    if c in cols {
      var k :| 0 <= k < |cols| && cols[k] == c;
      BelowReflexive(c);
      assert j <= k;
      if j < k {
        BelowAntisymmetric(c, cols[j]);
      }
    }
  }

  /** `append(cols[:j], cols[j+1:]...)` on a sorted list without repeats. */
  lemma RemoveAt(cols: seq<string>, j: nat)
    requires j < |cols| && Sorted(cols) && Distinct(cols)
    ensures var rest := cols[..j] + cols[j + 1..];
      && Sorted(rest) && Distinct(rest)
      && forall c :: c in rest <==> c in cols && c != cols[j]
  {
    var rest := cols[..j] + cols[j + 1..];
    assert forall k :: 0 <= k < |rest| ==> rest[k] == if k < j then cols[k] else cols[k + 1];
    forall c | c in cols && c != cols[j] ensures c in rest {
      var k :| 0 <= k < |cols| && cols[k] == c;
      if k < j { assert rest[k] == c; } else { assert rest[k - 1] == c; }
    }
  }

  /* ---------------------------------------------------------------------
   * The column index
   * ------------------------------------------------------------------- */

  /** First position of `c` in the header: for a repeated header name the
      first occurrence is the one that counts. */
  function Position(header: seq<string>, c: string): (i: nat)
    requires c in header
    ensures i < |header| && header[i] == c
    ensures c !in header[..i]
  {
    if header[0] == c then 0
    else
      var i := Position(header[1..], c) + 1;
      assert header[..i] == [header[0]] + header[1..][..i - 1];
      i
  }

  /** `colm` after the first `n` header cells: each position whose name is
      required and was not seen earlier in the header. */
  function ColumnIndex(header: seq<string>, required: seq<string>, n: nat): map<nat, string>
    requires n <= |header|
  {
    map i: nat | i < n && header[i] in required && header[i] !in header[..i] :: header[i]
  }

  predicate Injective(colm: map<nat, string>)
  {
    forall i, j :: i in colm && j in colm && colm[i] == colm[j] ==> i == j
  }

  /** A position holding the first occurrence of its name is that name's
      position. */
  lemma PositionOf(header: seq<string>, i: nat)
    requires i < |header| && header[i] !in header[..i]
    ensures Position(header, header[i]) == i
  {
  }

  /** The positions in the index are exactly the first positions of the
      required names. */
  lemma ColumnIndexPositions(header: seq<string>, required: seq<string>)
    ensures var colm := ColumnIndex(header, required, |header|);
      && Injective(colm)
      && (forall i :: i in colm ==> colm[i] in required && colm[i] in header && Position(header, colm[i]) == i)
      && (forall c :: c in required && c in header ==> Position(header, c) in colm)
  {
    var colm := ColumnIndex(header, required, |header|);
    forall i | i in colm ensures Position(header, colm[i]) == i {
      PositionOf(header, i);
    }
  }

  /** One more header cell extends the index by that cell exactly when its
      name is required and new. */
  lemma ColumnIndexStep(header: seq<string>, required: seq<string>, i: nat)
    requires i < |header|
    ensures ColumnIndex(header, required, i + 1) ==
      if header[i] in required && header[i] !in header[..i]
      then ColumnIndex(header, required, i)[i := header[i]]
      else ColumnIndex(header, required, i)
  {
  }

  /** One step of the header loop on the sorted list of names still
      missing. */
  lemma MissingStep(header: seq<string>, required: seq<string>, cols: seq<string>, i: nat)
    requires i < |header| && Sorted(cols) && Distinct(cols)
    requires forall c :: c in cols <==> c in required && c !in header[..i]
    ensures var j := Search(cols, header[i]);
      var found := j < |cols| && cols[j] == header[i];
      && (found <==> header[i] in required && header[i] !in header[..i])
      && (found ==> var rest := cols[..j] + cols[j + 1..];
            Sorted(rest) && Distinct(rest) && forall c :: c in rest <==> c in required && c !in header[..i + 1])
      && (!found ==> forall c :: c in cols <==> c in required && c !in header[..i + 1])
  {
    var c := header[i];
    var j := Search(cols, c);
    SearchFinds(cols, c);
    assert header[..i + 1] == header[..i] + [c];
    if j < |cols| && cols[j] == c {
      RemoveAt(cols, j);
    }
  }

  /** The header loop of parseCSV: the column index, or every missing
      required column, sorted. */
  method IndexColumns(header: seq<string>, required: seq<string>) returns (r: Result<map<nat, string>, seq<string>>)
    requires Distinct(required)
    ensures r.Err? <==> exists c :: c in required && c !in header
    ensures r.Err? ==> Sorted(r.error) && Distinct(r.error) && forall c :: c in r.error <==> c in required && c !in header
    ensures r.Ok? ==> r.value == ColumnIndex(header, required, |header|)
  {
    SortCorrect(required);
    var cols := Sort(required);
    assert forall c :: c in cols <==> c in multiset(required);
    var colm: map<nat, string> := map[];
    for i := 0 to |header|
      invariant Sorted(cols) && Distinct(cols)
      invariant forall c :: c in cols <==> c in required && c !in header[..i]
      invariant colm == ColumnIndex(header, required, i)
    {
      var c := header[i];
      var j := Search(cols, c);
      MissingStep(header, required, cols, i);
      ColumnIndexStep(header, required, i);
      if j < |cols| && cols[j] == c {
        cols := cols[..j] + cols[j + 1..];
        colm := colm[i := c];
      }
    }
    assert header[..|header|] == header;
    if |cols| > 0 {
      assert cols[0] in required && cols[0] !in header;
      return Err(cols);
    }
    return Ok(colm);
  }

  /* ---------------------------------------------------------------------
   * Rows
   * ------------------------------------------------------------------- */

  /** A row projected onto the required columns: column `c` is present when
      the row reaches the first header position of `c`, and holds that cell. */
  function ProjectedRow(header: seq<string>, required: seq<string>, row: seq<string>): Row
  {
    map c | c in required && c in header && Position(header, c) < |row| :: row[Position(header, c)]
  }

  function Projected(header: seq<string>, body: seq<seq<string>>, required: seq<string>): seq<Row>
  {
    seq(|body|, k requires 0 <= k < |body| => ProjectedRow(header, required, body[k]))
  }

  /** The row loop of parseCSV: one entry per indexed position the row is
      long enough to reach. */
  method ProjectRow(colm: map<nat, string>, row: seq<string>) returns (rm: Row)
    requires Injective(colm)
    ensures forall c :: c in rm <==> exists i :: i in colm && i < |row| && colm[i] == c
    ensures forall i :: i in colm && i < |row| ==> rm[colm[i]] == row[i]
  {
    rm := map[];
    var todo := colm.Keys;
    while todo != {}
      invariant todo <= colm.Keys
      invariant forall c :: c in rm <==> exists i :: i in colm && i !in todo && i < |row| && colm[i] == c
      invariant forall i :: i in colm && i !in todo && i < |row| ==> rm[colm[i]] == row[i]
      decreases todo
    {
      var i :| i in todo;
      if i < |row| {
        rm := rm[colm[i] := row[i]];
      }
      todo := todo - {i};
    }
  }

  /** A row built from the column index is the projected row. */
  lemma ProjectRowMeetsSpec(header: seq<string>, required: seq<string>, row: seq<string>, rm: Row)
    requires forall c :: c in required ==> c in header
    requires var colm := ColumnIndex(header, required, |header|);
      && (forall c :: c in rm <==> exists i :: i in colm && i < |row| && colm[i] == c)
      && (forall i :: i in colm && i < |row| ==> rm[colm[i]] == row[i])
    ensures rm == ProjectedRow(header, required, row)
  {
    var colm := ColumnIndex(header, required, |header|);
    var spec := ProjectedRow(header, required, row);
    ColumnIndexPositions(header, required);
    forall c | c in rm ensures c in spec && rm[c] == spec[c] {
      var i :| i in colm && i < |row| && colm[i] == c;
    }
    forall c | c in spec ensures c in rm {
      var p := Position(header, c);
      assert p in colm && colm[p] == c;
    }
  }

  /** parseCSV after tokenizing: fails exactly when a required column is
      missing from the header, naming all of them in sorted order; otherwise
      one projected row per data line, in file order. */
  method ProjectTable(header: seq<string>, body: seq<seq<string>>, required: seq<string>) returns (r: Result<seq<Row>, seq<string>>)
    requires Distinct(required)
    ensures r.Err? <==> exists c :: c in required && c !in header
    ensures r.Err? ==> Sorted(r.error) && Distinct(r.error) && forall c :: c in r.error <==> c in required && c !in header
    ensures r.Ok? ==> r.value == Projected(header, body, required)
  {
    var index := IndexColumns(header, required);
    if index.Err? {
      return Err(index.error);
    }
    var colm := index.value;
    ColumnIndexPositions(header, required);
    var rows: seq<Row> := [];
    for k := 0 to |body|
      invariant |rows| == k
      invariant forall p :: 0 <= p < k ==> rows[p] == ProjectedRow(header, required, body[p])
    {
      var rm := ProjectRow(colm, body[k]);
      ProjectRowMeetsSpec(header, required, body[k], rm);
      rows := rows + [rm];
    }
    return Ok(rows);
  }

  /** A repeated header name: the cell under its first occurrence is used and
      the later one is ignored. */
  lemma FirstOccurrenceWins(header: seq<string>, required: seq<string>, row: seq<string>, i: nat, j: nat)
    requires i < j < |header| && header[i] == header[j] && header[i] !in header[..i]
    requires header[i] in required && j < |row|
    ensures ProjectedRow(header, required, row)[header[i]] == row[i]
  {
    PositionOf(header, i);
  }
}
