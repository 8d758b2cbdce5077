/**
 * `generate_passwd_table` up to the hand-over to the table renderer: the matrix of rows
 * `data`, a header, then one section per length tier with `repeat_times` rows of three cells,
 * the sections divided by blank rows.
 */
module Table {
  import opened Chars
  import opened Random
  import opened Generator
  import opened Hasher
  import opened Pair

  /** The default `repeat_times`. */
  const DefaultRepeatTimes: int := 10

  /** The first row: the names of the three strength classes. */
  const Header: seq<string> := ["Weak", "Normal", "Strong"]
  /** The blank row between two sections. */
  const Separator: seq<string> := ["", "", ""]
  /** The password length of each tier, in the order the sections appear. */
  const PasswdLengths: seq<nat> := [6, 8, 12]
  /** `(with_chars, with_special_chars)` of the Weak, Normal and Strong columns. */
  const Strengths: seq<(bool, bool)> := [(false, false), (true, false), (true, true)]
  /** The width of the `%12s` field a password is printed in. */
  const PasswdWidth: nat := 12

  function Spaces(n: nat): string {
    seq(n, _ => ' ')
  }

  /** `'%Ns' % s` with N = `width`: `s` right-justified with spaces, unchanged when it is longer. */
  function PadLeft(s: string, width: nat): (r: string)
    ensures |r| == Max(width, |s|)
    ensures r[|r| - |s|..] == s
    ensures forall i | 0 <= i < |r| - |s| :: r[i] == ' '
  {
    if width <= |s| then s else Spaces(width - |s|) + s
  }

  /** Strips the leading spaces: reads back the text a right-justified field holds. */
  function TrimLeft(s: string): string {
    if 0 < |s| && s[0] == ' ' then TrimLeft(s[1..]) else s
  }

  lemma {:induction false} TrimSpaces(n: nat, s: string)
    requires |s| == 0 || s[0] != ' '
    ensures TrimLeft(Spaces(n) + s) == s
  {
    if n > 0 {
      assert (Spaces(n) + s)[1..] == Spaces(n - 1) + s;
      TrimSpaces(n - 1, s);
    }
  }

  /** Right-justifying a text that does not start with a space loses nothing: trimming recovers it. */
  lemma TrimPadLeft(s: string, width: nat)
    requires |s| == 0 || s[0] != ' '
    ensures TrimLeft(PadLeft(s, width)) == s
  {
    if |s| < width {
      TrimSpaces(width - |s|, s);
    } else {
      TrimSpaces(0, s);
    }
  }

  /** `'%12s : %s' % (passwd, hashed)`. */
  function FormatCell(passwd: string, hashed: string): (cell: string)
    ensures |cell| == Max(PasswdWidth, |passwd|) + 3 + |hashed|
  {
    PadLeft(passwd, PasswdWidth) + " : " + hashed
  }

  /** A cell is the password right-justified in its field, then `" : "`, then the digest. */
  lemma FormatCellLayout(passwd: string, hashed: string)
    ensures FormatCell(passwd, hashed)[..Max(PasswdWidth, |passwd|)] == PadLeft(passwd, PasswdWidth)
    ensures FormatCell(passwd, hashed)[Max(PasswdWidth, |passwd|)..] == " : " + hashed
  {
    var field := PadLeft(passwd, PasswdWidth);
    var rest := " : " + hashed;
    assert |field| == Max(PasswdWidth, |passwd|);
    assert (field + rest)[..|field|] == field;
    assert (field + rest)[|field|..] == rest;
  }

  /** Reads a cell of the sheet back into password and digest, for passwords of at most 12 characters. */
  function ParseCell(cell: string): (string, string)
    requires PasswdWidth + 3 <= |cell|
  {
    (TrimLeft(cell[..PasswdWidth]), cell[PasswdWidth + 3..])
  }

  /** A cell is read back into the password and digest it was made from. */
  lemma CellRoundTrip(passwd: string, hashed: string)
    requires |passwd| <= PasswdWidth
    requires |passwd| == 0 || passwd[0] != ' '
    ensures var cell := FormatCell(passwd, hashed);
      PasswdWidth + 3 <= |cell| && cell[PasswdWidth..PasswdWidth + 3] == " : "
      && ParseCell(cell) == (passwd, hashed)
  {
    FormatCellLayout(passwd, hashed);
    TrimPadLeft(passwd, PasswdWidth);
  }

  /**
   * The state of the random sources when column `k` of a row is started from `cur`: each column
   * to its left has consumed one password's choices and one salt.
   */
  function ColumnCursor(cur: Cursor, passwdLength: int, k: nat): Cursor {
    Cursor(cur.draws + k * RangeSize(passwdLength), cur.salts + k)
  }

  /** The password of column `k`: the row's length, column `k`'s strength class. */
  function ColumnPasswd(rng: Source, cur: Cursor, passwdLength: int, k: nat): string
    requires k < |Strengths|
  {
    Password(rng, ColumnCursor(cur, passwdLength, k).draws, Strengths[k].0, Strengths[k].0,
             Strengths[k].1, passwdLength)
  }

  /** The digest of column `k`: its password hashed with the next salt, default hash length. */
  function ColumnHash(rng: Source, sha1: Sha1, cur: Cursor, passwdLength: int, k: nat): string
    requires k < |Strengths|
  {
    HashPasswd(sha1, rng.uuid4(ColumnCursor(cur, passwdLength, k).salts),
               ColumnPasswd(rng, cur, passwdLength, k), DefaultHashLength)
  }

  /** The cell in column `k` of a row whose first cell is made with the random sources at `cur`. */
  function LineCell(rng: Source, sha1: Sha1, cur: Cursor, passwdLength: int, k: nat): string
    requires k < |Strengths|
  {
    FormatCell(ColumnPasswd(rng, cur, passwdLength, k), ColumnHash(rng, sha1, cur, passwdLength, k))
  }

  /**
   * The password of column `k` is as long as the row asks and drawn from the column's alphabet;
   * its digest has 16 upper-case hex digits, a prefix of the digest of the column's salt followed
   * by that same password.
   */
  lemma ColumnPair(rng: Source, sha1: Sha1, cur: Cursor, passwdLength: int, k: nat)
    requires k < |Strengths|
    ensures |ColumnPasswd(rng, cur, passwdLength, k)| == RangeSize(passwdLength)
    ensures forall c | c in ColumnPasswd(rng, cur, passwdLength, k) ::
      c in Alphabet(Strengths[k].0, Strengths[k].0, Strengths[k].1)
    ensures |ColumnHash(rng, sha1, cur, passwdLength, k)| == DefaultHashLength
    ensures forall c | c in ColumnHash(rng, sha1, cur, passwdLength, k) :: IsUpperHex(c)
    ensures ToLower(ColumnHash(rng, sha1, cur, passwdLength, k))
      == sha1(rng.uuid4(cur.salts + k) + ColumnPasswd(rng, cur, passwdLength, k))[..DefaultHashLength]
  {
    var at := ColumnCursor(cur, passwdLength, k);
    PasswordInAlphabet(rng, at.draws, Strengths[k].0, Strengths[k].0, Strengths[k].1, passwdLength);
    HashPasswdDigest(sha1, rng.uuid4(at.salts), ColumnPasswd(rng, cur, passwdLength, k), DefaultHashLength);
  }

  /**
   * A cell of a row is 31 characters wide for the lengths of the sheet, and reads back into its
   * column's password and digest.
   */
  lemma LineCellParses(rng: Source, sha1: Sha1, cur: Cursor, passwdLength: int, k: nat)
    requires k < |Strengths| && 0 <= passwdLength <= PasswdWidth
    ensures |LineCell(rng, sha1, cur, passwdLength, k)| == PasswdWidth + 3 + DefaultHashLength
    ensures LineCell(rng, sha1, cur, passwdLength, k)[PasswdWidth..PasswdWidth + 3] == " : "
    ensures ParseCell(LineCell(rng, sha1, cur, passwdLength, k))
      == (ColumnPasswd(rng, cur, passwdLength, k), ColumnHash(rng, sha1, cur, passwdLength, k))
  {
    NoLeadingSpace(rng, ColumnCursor(cur, passwdLength, k).draws, Strengths[k].0, Strengths[k].0,
                   Strengths[k].1, passwdLength);
    CellRoundTrip(ColumnPasswd(rng, cur, passwdLength, k), ColumnHash(rng, sha1, cur, passwdLength, k));
  }

  /** The row of three cells, Weak, Normal and Strong, made with the random sources at `cur`. */
  function Line(rng: Source, sha1: Sha1, cur: Cursor, passwdLength: int): (line: seq<string>)
  {
    seq(|Strengths|, k requires 0 <= k < |Strengths| => LineCell(rng, sha1, cur, passwdLength, k))
  }

  /** The state of the random sources after a row: three passwords' choices and three salts later. */
  function AfterLine(cur: Cursor, passwdLength: int): Cursor {
    Cursor(cur.draws + 3 * RangeSize(passwdLength), cur.salts + 3)
  }

  /** Column `k + 1` starts one password's choices and one salt after column `k`. */
  lemma ColumnStep(cur: Cursor, passwdLength: int, k: nat)
    ensures ColumnCursor(cur, passwdLength, k + 1)
      == Cursor(ColumnCursor(cur, passwdLength, k).draws + RangeSize(passwdLength),
                ColumnCursor(cur, passwdLength, k).salts + 1)
  {
    assert (k + 1) * RangeSize(passwdLength) == k * RangeSize(passwdLength) + RangeSize(passwdLength);
  }

  /**
   * The pair drawn for column `k` with the random sources moved on by the `k` columns to its left,
   * formatted, is that column's cell.
   */
  lemma PairCell(rng: Source, sha1: Sha1, cur: Cursor, passwdLength: int, k: nat, at: Cursor,
                 passwd: string, hashed: string)
    requires k < |Strengths|
    requires at == ColumnCursor(cur, passwdLength, k)
    requires passwd == Password(rng, at.draws, Strengths[k].0, Strengths[k].0, Strengths[k].1, passwdLength)
    requires hashed == HashPasswd(sha1, rng.uuid4(at.salts), passwd, DefaultHashLength)
    ensures FormatCell(passwd, hashed) == LineCell(rng, sha1, cur, passwdLength, k)
  {
    assert passwd == ColumnPasswd(rng, cur, passwdLength, k);
    assert hashed == ColumnHash(rng, sha1, cur, passwdLength, k);
  }

  /** The first `k + 1` cells of a row are its first `k` cells and then cell `k`. */
  lemma LinePrefix(rng: Source, sha1: Sha1, cur: Cursor, passwdLength: int, k: nat)
    requires k < |Strengths|
    ensures Line(rng, sha1, cur, passwdLength)[..k + 1]
      == Line(rng, sha1, cur, passwdLength)[..k] + [LineCell(rng, sha1, cur, passwdLength, k)]
  {
    var all := Line(rng, sha1, cur, passwdLength);
    assert all[..k + 1] == all[..k] + [all[k]];
  }

  /**
   * The body of `generate_passwd_table`'s innermost loop: one pair per strength class, in the
   * order Weak, Normal, Strong, each formatted into a cell.
   */
  method GenerateLine(rng: Source, sha1: Sha1, cur: Cursor, passwdLength: int)
    returns (line: seq<string>, next: Cursor)
    ensures line == Line(rng, sha1, cur, passwdLength)
    ensures next == AfterLine(cur, passwdLength)
  {
    line := [];
    next := cur;
    for k := 0 to |Strengths|
      invariant next == ColumnCursor(cur, passwdLength, k)
      invariant line == Line(rng, sha1, cur, passwdLength)[..k]
    {
      var withChars, withSpecial := Strengths[k].0, Strengths[k].1;
      ghost var at := next;
      var passwd, hashed;
      passwd, hashed, next := GeneratePasswdPair(rng, sha1, next, withChars, withSpecial, passwdLength);
      PairCell(rng, sha1, cur, passwdLength, k, at, passwd, hashed);
      LinePrefix(rng, sha1, cur, passwdLength, k);
      ColumnStep(cur, passwdLength, k);
      line := line + [FormatCell(passwd, hashed)];
    }
  }

  /** The number of random choices the sections before tier `t` consume. */
  function TierDraws(reps: nat, t: nat): nat
    requires t <= |PasswdLengths|
  {
    if t == 0 then 0 else TierDraws(reps, t - 1) + 3 * reps * PasswdLengths[t - 1]
  }

  /**
   * The state of the random sources when row `i` of tier `t` is started: every earlier row of
   * the table has drawn three passwords' choices and three salts.
   */
  function RowCursor(reps: nat, t: nat, i: nat): Cursor
    requires t < |PasswdLengths|
  {
    Cursor(TierDraws(reps, t) + 3 * i * PasswdLengths[t], (t * reps + i) * 3)
  }

  /** Row `i` of tier `t`. */
  function DataRow(rng: Source, sha1: Sha1, reps: nat, t: nat, i: nat): seq<string>
    requires t < |PasswdLengths|
  {
    Line(rng, sha1, RowCursor(reps, t, i), PasswdLengths[t])
  }

  /** The `reps` data rows of tier `t`. */
  function Section(rng: Source, sha1: Sha1, reps: nat, t: nat): (rows: seq<seq<string>>)
    requires t < |PasswdLengths|
  {
    seq(reps, i requires 0 <= i => DataRow(rng, sha1, reps, t, i))
  }

  /** The matrix `generate_passwd_table(repeat_times)` hands to the renderer. */
  function PasswdMatrix(rng: Source, sha1: Sha1, repeatTimes: int): (data: seq<seq<string>>)
  {
    var reps := RangeSize(repeatTimes);
    [Header] + Section(rng, sha1, reps, 0) + [Separator]
      + Section(rng, sha1, reps, 1) + [Separator]
      + Section(rng, sha1, reps, 2)
  }

  /** The rows emitted once the first `t` tiers are done, separators included. */
  ghost function TiersDone(rng: Source, sha1: Sha1, reps: nat, t: nat): seq<seq<string>>
    requires t <= |PasswdLengths|
  {
    if t == 0 then [Header]
    else
      TiersDone(rng, sha1, reps, t - 1) + Section(rng, sha1, reps, t - 1)
        + (if t < |PasswdLengths| then [Separator] else [])
  }

  lemma TiersDoneTable(rng: Source, sha1: Sha1, repeatTimes: int)
    ensures TiersDone(rng, sha1, RangeSize(repeatTimes), |PasswdLengths|) == PasswdMatrix(rng, sha1, repeatTimes)
  {
    var reps := RangeSize(repeatTimes);
    assert TiersDone(rng, sha1, reps, 1) == [Header] + Section(rng, sha1, reps, 0) + [Separator];
    assert TiersDone(rng, sha1, reps, 2)
      == [Header] + Section(rng, sha1, reps, 0) + [Separator] + Section(rng, sha1, reps, 1) + [Separator];
  }

  /** A row moves the random sources to the start of the next row, and the last row of a tier to the next tier. */
  lemma RowStep(reps: nat, t: nat, i: nat)
    requires t < |PasswdLengths|
    ensures AfterLine(RowCursor(reps, t, i), PasswdLengths[t]) == RowCursor(reps, t, i + 1)
    ensures t + 1 < |PasswdLengths| ==> RowCursor(reps, t, reps) == RowCursor(reps, t + 1, 0)
  {
    assert 3 * (i + 1) * PasswdLengths[t] == 3 * i * PasswdLengths[t] + 3 * PasswdLengths[t];
    assert (t * reps + reps) * 3 == ((t + 1) * reps) * 3;
  }

  /**
   * `generate_passwd_table(repeat_times)` up to the renderer: the header, then for each tier
   * `repeat_times` rows of Weak, Normal and Strong cells, with a blank row after every tier but the last.
   */
  method GeneratePasswdTable(rng: Source, sha1: Sha1, repeatTimes: int) returns (data: seq<seq<string>>)
    ensures data == PasswdMatrix(rng, sha1, repeatTimes)
  {
    ghost var reps := RangeSize(repeatTimes);
    var cur := Cursor(0, 0);
    data := [];
    data := data + [Header];
    var idx := 0;
    while idx < |PasswdLengths|
      invariant 0 <= idx <= |PasswdLengths|
      invariant idx < |PasswdLengths| ==> cur == RowCursor(reps, idx, 0)
      invariant data == TiersDone(rng, sha1, reps, idx)
    {
      var passwdLength := PasswdLengths[idx];
      var i := 0;
      while i < repeatTimes
        invariant 0 <= i <= reps
        invariant cur == RowCursor(reps, idx, i)
        invariant data == TiersDone(rng, sha1, reps, idx) + Section(rng, sha1, reps, idx)[..i]
      {
        var line;
        line, cur := GenerateLine(rng, sha1, cur, passwdLength);
        RowStep(reps, idx, i);
        assert Section(rng, sha1, reps, idx)[..i + 1] == Section(rng, sha1, reps, idx)[..i] + [line];
        data := data + [line];
        i := i + 1;
      }
      assert Section(rng, sha1, reps, idx)[..i] == Section(rng, sha1, reps, idx);
      RowStep(reps, idx, reps);
      if idx != 2 {
        data := data + [Separator];
      }
      idx := idx + 1;
    }
    TiersDoneTable(rng, sha1, repeatTimes);
  }

  /**
   * The matrix is the header, the 6-character section, a blank row, the 8-character section,
   * a blank row and the 12-character section: `3 * repeat_times + 3` rows, no blank row at the end.
   */
  lemma TableLayout(rng: Source, sha1: Sha1, repeatTimes: int)
    ensures var data := PasswdMatrix(rng, sha1, repeatTimes);
      var reps := RangeSize(repeatTimes);
      && |data| == 3 * reps + 3
      && data[0] == Header
      && data[1..reps + 1] == Section(rng, sha1, reps, 0)
      && data[reps + 1] == Separator
      && data[reps + 2..2 * reps + 2] == Section(rng, sha1, reps, 1)
      && data[2 * reps + 2] == Separator
      && data[2 * reps + 3..] == Section(rng, sha1, reps, 2)
  {
    var reps := RangeSize(repeatTimes);
    var s0, s1, s2 := Section(rng, sha1, reps, 0), Section(rng, sha1, reps, 1), Section(rng, sha1, reps, 2);
    var data := PasswdMatrix(rng, sha1, repeatTimes);
    assert data == [Header] + s0 + [Separator] + s1 + [Separator] + s2;
    assert data[1..reps + 1] == s0;
    assert data[reps + 2..2 * reps + 2] == s1;
    assert data[2 * reps + 3..] == s2;
  }

  /**
   * Row `i` of tier `t` has one cell per strength class; each reads back into a password of the
   * tier's length drawn from its column's alphabet and a 16-digit upper-case digest.
   */
  lemma DataRowCells(rng: Source, sha1: Sha1, reps: nat, t: nat, i: nat)
    requires t < |PasswdLengths|
    ensures var row := DataRow(rng, sha1, reps, t, i);
      && |row| == |Strengths|
      && forall k | 0 <= k < |Strengths| ::
        && |row[k]| == PasswdWidth + 3 + DefaultHashLength
        && |ParseCell(row[k]).0| == PasswdLengths[t]
        && (forall c | c in ParseCell(row[k]).0 :: c in Alphabet(Strengths[k].0, Strengths[k].0, Strengths[k].1))
        && |ParseCell(row[k]).1| == DefaultHashLength
        && (forall c | c in ParseCell(row[k]).1 :: IsUpperHex(c))
  {
    var cur := RowCursor(reps, t, i);
    var row := DataRow(rng, sha1, reps, t, i);
    forall k | 0 <= k < |Strengths|
      ensures |row[k]| == PasswdWidth + 3 + DefaultHashLength
      ensures |ParseCell(row[k]).0| == PasswdLengths[t]
      ensures forall c | c in ParseCell(row[k]).0 :: c in Alphabet(Strengths[k].0, Strengths[k].0, Strengths[k].1)
      ensures |ParseCell(row[k]).1| == DefaultHashLength
      ensures forall c | c in ParseCell(row[k]).1 :: IsUpperHex(c)
    {
      assert row[k] == LineCell(rng, sha1, cur, PasswdLengths[t], k);
      LineCellParses(rng, sha1, cur, PasswdLengths[t], k);
      ColumnPair(rng, sha1, cur, PasswdLengths[t], k);
    }
  }

  /** No data row is blank: its first cell holds at least the field and the `" : "`. */
  lemma DataRowNotBlank(rng: Source, sha1: Sha1, reps: nat, t: nat, i: nat)
    requires t < |PasswdLengths|
    ensures DataRow(rng, sha1, reps, t, i) != Separator
  {
    assert DataRow(rng, sha1, reps, t, i)[0] == LineCell(rng, sha1, RowCursor(reps, t, i), PasswdLengths[t], 0);
  }

  /** In a header, three sections of `n` rows and two blank rows between them, only those two rows are blank. */
  lemma BlankRowsBetween(header: seq<string>, s0: seq<seq<string>>, s1: seq<seq<string>>,
                         s2: seq<seq<string>>, n: nat)
    requires header != Separator
    requires |s0| == n && |s1| == n && |s2| == n
    requires Separator !in s0 && Separator !in s1 && Separator !in s2
    ensures var data := [header] + s0 + [Separator] + s1 + [Separator] + s2;
      forall j | 0 <= j < |data| :: data[j] == Separator <==> j == n + 1 || j == 2 * n + 2
  {
    var p0 := [header] + s0;
    var p1 := p0 + [Separator];
    var p2 := p1 + s1;
    var p3 := p2 + [Separator];
    var data := p3 + s2;
    forall j | 0 <= j < |data|
      ensures data[j] == Separator <==> j == n + 1 || j == 2 * n + 2
    {
      if j == 0 {
        assert data[j] == header;
      } else if j <= n {
        assert data[j] == s0[j - 1];
      } else if j == n + 1 {
      } else if j <= 2 * n + 1 {
        assert data[j] == s1[j - n - 2];
      } else if j == 2 * n + 2 {
      } else {
        assert data[j] == s2[j - 2 * n - 3];
      }
    }
  }

  /** The blank rows are exactly the two between the sections: no data row or header is blank. */
  lemma SeparatorRows(rng: Source, sha1: Sha1, repeatTimes: int)
    ensures var data := PasswdMatrix(rng, sha1, repeatTimes);
      var reps := RangeSize(repeatTimes);
      forall j | 0 <= j < |data| :: data[j] == Separator <==> j == reps + 1 || j == 2 * reps + 2
  {
    var reps := RangeSize(repeatTimes);
    forall t | 0 <= t < |PasswdLengths|
      ensures Separator !in Section(rng, sha1, reps, t)
    {
      forall i | 0 <= i < reps
        ensures Section(rng, sha1, reps, t)[i] != Separator
      {
        DataRowNotBlank(rng, sha1, reps, t, i);
      }
    }
    BlankRowsBetween(Header, Section(rng, sha1, reps, 0), Section(rng, sha1, reps, 1),
                     Section(rng, sha1, reps, 2), reps);
  }

  /**
   * The sheet printed by default, with `repeat_times` = 10: 33 rows, the header, ten rows of
   * each tier and the two blank rows.
   */
  lemma DefaultSheetRows(rng: Source, sha1: Sha1)
    ensures |PasswdMatrix(rng, sha1, DefaultRepeatTimes)| == 33
    ensures PasswdMatrix(rng, sha1, DefaultRepeatTimes)[11] == Separator
    ensures PasswdMatrix(rng, sha1, DefaultRepeatTimes)[22] == Separator
  {
    TableLayout(rng, sha1, DefaultRepeatTimes);
  }
}
