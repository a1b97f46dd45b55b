/** The base feature builder of `src/features.py`: renaming of identity
    columns, the left merge, time buckets, e-mail and device splits, the
    two flags, and the frequency encoding used at training time. */
module Features {
  import opened Common
  import opened Frames

  /** Floating-point steps the model does not compute: `np.log1p` of an
      amount and `(x - np.floor(x)).round(2)`. Each yields a float cell. */
  datatype FloatOps = FloatOps(log1p: real -> Cell, cents: real -> Cell)

  const KeyColumn := "TransactionID"

  /** The columns `build_base_frame` writes (src/features.py:37-59). */
  const DerivedColumns: set<string> := {
    "DT_D", "DT_W", "DT_M", "TransactionAmt_log1p", "amt_cents",
    "P_emaildomain_prov", "P_emaildomain_tld", "R_emaildomain_prov", "R_emaildomain_tld",
    "DeviceName", "DeviceVersion", "has_id", "is_email_match"
  }

  // ---------------------------------------------------------------------
  // Identity column renaming (src/features.py:30-33)
  // ---------------------------------------------------------------------

  /** `col.replace('-', '_')` for the columns that start with "id-"; others keep their
      name. No resulting name starts with "id-". */
  function IdName(col: string): (r: string)
    ensures !StartsWith(r, "id-")
  {
    if StartsWith(col, "id-") then
      var r := ReplaceAll(col, '-', '_');
      assert r[2] == '_' && r[..3][2] == r[2];
      r
    else col
  }

  /** Renaming is idempotent. */
  lemma IdNameIdempotent(col: string)
    ensures IdName(IdName(col)) == IdName(col)
  {
  }

  /** `[col for col in columns if col.startswith('id-')]` */
  function IdColumns(columns: seq<string>): (ids: seq<string>)
    ensures forall c :: c in ids <==> c in columns && StartsWith(c, "id-")
    ensures |ids| <= |columns|
    ensures (forall i, j :: 0 <= i < j < |columns| ==> columns[i] != columns[j]) ==>
              forall i, j :: 0 <= i < j < |ids| ==> ids[i] != ids[j]
  {
    if |columns| == 0 then []
    else
      var rest := IdColumns(columns[1..]);
      if StartsWith(columns[0], "id-") then [columns[0]] + rest else rest
  }

  /** No other column of `df` is renamed onto the name that `col` ends up with. */
  predicate Unclaimed(df: Frame, col: string) {
    forall d :: d in df && d != col ==> IdName(d) != IdName(col)
  }

  /** `iden.rename(columns={col: IdName(col)})`: the column moves to its new name,
      replacing any column already called so. */
  function RenameColumn(df: Frame, col: string): (r: Frame)
    ensures col in df ==> IdName(col) in r && r[IdName(col)] == df[col]
    ensures forall c :: c in r ==> c in df || c == IdName(col)
  {
    if col in df then (df - {col})[IdName(col) := df[col]] else df
  }

  /** The frame after renaming `cols` one after the other, as the loop does. */
  function RenameAll(df: Frame, cols: seq<string>): (r: Frame)
    ensures r.Keys <= df.Keys + RenamedNames(cols)
    decreases |cols|
  {
    if |cols| == 0 then df else RenameColumn(RenameAll(df, cols[..|cols| - 1]), Last(cols))
  }

  /** Renaming one more column of `cols` is one more RenameColumn. */
  lemma RenameAllStep(df: Frame, cols: seq<string>, k: nat)
    requires k < |cols|
    ensures RenameAll(df, cols[..k + 1]) == RenameColumn(RenameAll(df, cols[..k]), cols[k])
  {
    assert cols[..k + 1][..k] == cols[..k];
  }

  /** The new names of `cols`. */
  function RenamedNames(cols: seq<string>): set<string>
    decreases |cols|
  {
    if |cols| == 0 then {} else RenamedNames(cols[..|cols| - 1]) + {IdName(Last(cols))}
  }

  /** Renaming a list of distinct "id-" columns removes exactly those columns and
      adds exactly their new names. */
  lemma {:induction false} RenameAllKeys(df: Frame, cols: seq<string>)
    requires forall c :: c in cols ==> c in df && StartsWith(c, "id-")
    requires forall i, j :: 0 <= i < j < |cols| ==> cols[i] != cols[j]
    ensures forall c :: c in RenameAll(df, cols) <==>
      (c in df && c !in cols) || exists d :: d in cols && c == IdName(d)
    decreases |cols|
  {
    if |cols| > 0 {
      var init, col := cols[..|cols| - 1], Last(cols);
      assert cols == init + [col];
      RenameAllKeys(df, init);
      var prev := RenameAll(df, init);
      var r := RenameAll(df, cols);
      assert r == RenameColumn(prev, col);
      assert col in prev;
      forall c | c in r ensures (c in df && c !in cols) || exists d :: d in cols && c == IdName(d) {
        if c != IdName(col) {
          assert c in prev;
        }
      }
      forall c | (c in df && c !in cols) || (exists d :: d in cols && c == IdName(d)) ensures c in r {
        if c in df && c !in cols {
          assert c in prev;
        } else {
          var d :| d in cols && c == IdName(d);
          if d != col {
            assert d in init;
            assert c in prev && c != col;
          }
        }
      }
    }
  }

  /** An "id-" column that is not renamed keeps its cells. */
  lemma {:induction false} RenameAllKeeps(df: Frame, cols: seq<string>, c: string)
    requires forall c :: c in cols ==> c in df && StartsWith(c, "id-")
    requires c in df && c !in cols && StartsWith(c, "id-")
    ensures c in RenameAll(df, cols) && RenameAll(df, cols)[c] == df[c]
    decreases |cols|
  {
    if |cols| > 0 {
      var init := cols[..|cols| - 1];
      assert cols == init + [Last(cols)];
      RenameAllKeeps(df, init, c);
    }
  }

  /** A column no other one is renamed onto ends up under its new name with its own
      cells, once it has been renamed or if it never needed to be. */
  lemma {:induction false} RenameAllUnclaimed(df: Frame, cols: seq<string>, c: string)
    requires forall c :: c in cols ==> c in df && StartsWith(c, "id-")
    requires forall i, j :: 0 <= i < j < |cols| ==> cols[i] != cols[j]
    requires c in df && Unclaimed(df, c) && (c in cols || !StartsWith(c, "id-"))
    ensures IdName(c) in RenameAll(df, cols) && RenameAll(df, cols)[IdName(c)] == df[c]
    decreases |cols|
  {
    if |cols| == 0 {
    } else {
      var init, col := cols[..|cols| - 1], Last(cols);
      assert cols == init + [col];
      var prev := RenameAll(df, init);
      assert RenameAll(df, cols) == RenameColumn(prev, col);
      if c == col {
        assert col !in init;
        RenameAllKeeps(df, init, col);
      } else {
        RenameAllUnclaimed(df, init, c);
        assert IdName(col) != IdName(c);
        assert IdName(c) != col;
      }
    }
  }

  /** The rename loop over `iden`'s "id-" columns, `order` being the frame's column order. */
  method RenameIdColumns(iden: Frame, order: seq<string>) returns (renamed: Frame)
    requires forall c :: c in iden <==> c in order
    requires forall i, j :: 0 <= i < j < |order| ==> order[i] != order[j]
    ensures renamed == RenameAll(iden, IdColumns(order))
  {
    var ids := IdColumns(order);
    renamed := iden;
    var k := 0;
    while k < |ids|
      invariant 0 <= k <= |ids|
      invariant renamed == RenameAll(iden, ids[..k])
    {
      RenameAllStep(iden, ids, k);
      renamed := RenameColumn(renamed, ids[k]);
      k := k + 1;
    }
    assert ids[..k] == ids;
  }

  /** After the rename loop the identity frame holds exactly the renamed names, and
      none of them starts with "id-". */
  lemma RenameIdColumnsKeys(iden: Frame, order: seq<string>)
    requires forall c :: c in iden <==> c in order
    requires forall i, j :: 0 <= i < j < |order| ==> order[i] != order[j]
    ensures RenameAll(iden, IdColumns(order)).Keys == set d | d in iden :: IdName(d)
    ensures forall c :: c in RenameAll(iden, IdColumns(order)) ==> !StartsWith(c, "id-")
  {
    var ids := IdColumns(order);
    RenameAllKeys(iden, ids);
    var r := RenameAll(iden, ids);
    forall c ensures c in r <==> c in (set d | d in iden :: IdName(d)) {
      if c in r && c in iden && c !in ids {
        assert IdName(c) == c;
      }
    }
  }

  /** A column that no other column collides with after renaming keeps its cells
      under its new name. */
  lemma RenameIdColumnsCells(iden: Frame, order: seq<string>, c: string)
    requires forall c :: c in iden <==> c in order
    requires forall i, j :: 0 <= i < j < |order| ==> order[i] != order[j]
    requires c in iden && Unclaimed(iden, c)
    ensures IdName(c) in RenameAll(iden, IdColumns(order))
    ensures RenameAll(iden, IdColumns(order))[IdName(c)] == iden[c]
  {
    RenameAllUnclaimed(iden, IdColumns(order), c);
  }

  /** A frame without "id-" columns comes out of the loop unchanged. */
  lemma RenameIdColumnsNoop(iden: Frame, order: seq<string>)
    requires forall c :: c in iden <==> c in order
    requires forall c :: c in iden ==> !StartsWith(c, "id-")
    ensures RenameAll(iden, IdColumns(order)) == iden
  {
    IdColumnsNone(order);
  }

  lemma {:induction false} IdColumnsNone(columns: seq<string>)
    requires forall c :: c in columns ==> !StartsWith(c, "id-")
    ensures IdColumns(columns) == []
  {
    if |columns| > 0 {
      IdColumnsNone(columns[1..]);
    }
  }

  // ---------------------------------------------------------------------
  // Left merge on TransactionID (src/features.py:35)
  // ---------------------------------------------------------------------

  /** Key equality of `merge`: equal values, and missing keys match each other. */
  predicate KeyMatch(a: Cell, b: Cell) {
    SameValue(a, b) || (a.Missing? && b.Missing?)
  }

  /** Index of the first identity row whose key matches `key`. */
  function FirstMatch(keys: Column, key: Cell): (r: Option<nat>)
    ensures r.Some? ==> r.value < |keys| && KeyMatch(keys[r.value], key) &&
                        forall j :: 0 <= j < r.value ==> !KeyMatch(keys[j], key)
    ensures r.None? ==> forall j :: 0 <= j < |keys| ==> !KeyMatch(keys[j], key)
  {
    if |keys| == 0 then None
    else if KeyMatch(keys[0], key) then Some(0)
    else match FirstMatch(keys[1..], key)
      case Some(j) => Some(j + 1)
      case None => None
  }

  /** The cells an identity column contributes to each transaction row. */
  function JoinColumn(transKeys: Column, idenKeys: Column, values: Column): (col: Column)
    requires |values| == |idenKeys|
    ensures |col| == |transKeys|
  {
    seq(|transKeys|, k requires 0 <= k < |transKeys| =>
      match FirstMatch(idenKeys, transKeys[k])
      case Some(j) => values[j]
      case None => Missing)
  }

  /** `trans.merge(iden, on='TransactionID', how='left')`, taking the first identity
      row for each key and adding the identity columns `trans` does not have. */
  function LeftJoin(trans: Frame, n: nat, iden: Frame, m: nat): (df: Frame)
    requires Rectangular(trans, n) && Rectangular(iden, m)
    requires KeyColumn in trans && KeyColumn in iden
    ensures Rectangular(df, n)
    ensures df.Keys == trans.Keys + iden.Keys
    ensures forall c :: c in trans ==> df[c] == trans[c]
  {
    trans + map c | c in iden && c !in trans :: JoinColumn(trans[KeyColumn], iden[KeyColumn], iden[c])
  }

  // ---------------------------------------------------------------------
  // Time buckets (src/features.py:37-39, api/app.py:55-57)
  // ---------------------------------------------------------------------

  const SecondsPerDay: int := 24 * 60 * 60
  const Int32Min: int := -0x8000_0000
  const Int32Modulus: int := 0x1_0000_0000

  /** `astype('int32')` of a 64-bit value: two's-complement wrap-around. */
  function Int32(x: int): (r: int)
    ensures Int32Min <= r < -Int32Min
    ensures Int32Min <= x < -Int32Min ==> r == x
  {
    (x - Int32Min) % Int32Modulus + Int32Min
  }

  /** A TransactionDT column can be bucketed when it holds only numbers:
      `//` on text raises TypeError, and NaN cannot be cast to int32. */
  predicate Bucketable(dt: Column) {
    forall k :: 0 <= k < |dt| ==> dt[k].Int? || dt[k].Num?
  }

  function BucketError(dt: Column): PyError {
    if exists k :: 0 <= k < |dt| && dt[k].Str? then
      PyError("TypeError", "unsupported operand type(s) for //: 'str' and 'int'")
    else
      PyError("IntCastingNaNError", "Cannot convert non-finite values (NA or inf) to integer")
  }

  /** `(TransactionDT // 86400).astype('int32')`: floor division, then narrowing. */
  function DayIndex(dt: Cell): (r: int)
    requires dt.Int? || dt.Num?
    ensures Int32Min <= r < -Int32Min
  {
    match dt
    case Int(seconds) => Int32(seconds / SecondsPerDay)
    case Num(seconds) => Int32((seconds / SecondsPerDay as real).Floor)
  }

  /** `(DT_D // 7)`; the int32 cast that follows cannot change the value. */
  function WeekIndex(day: int): int { day / 7 }

  /** `(DT_D // 30)`: a 30-day "month". */
  function MonthIndex(day: int): int { day / 30 }

  function DayColumn(dt: Column): (col: Column)
    requires Bucketable(dt)
    ensures |col| == |dt|
  {
    seq(|dt|, k requires 0 <= k < |dt| => Int(DayIndex(dt[k])))
  }

  function WeekColumn(dt: Column): (col: Column)
    requires Bucketable(dt)
    ensures |col| == |dt|
  {
    seq(|dt|, k requires 0 <= k < |dt| => Int(WeekIndex(DayIndex(dt[k]))))
  }

  function MonthColumn(dt: Column): (col: Column)
    requires Bucketable(dt)
    ensures |col| == |dt|
  {
    seq(|dt|, k requires 0 <= k < |dt| => Int(MonthIndex(DayIndex(dt[k]))))
  }

  /** The largest TransactionDT whose day index fits in int32 is below this bound. */
  const DayRangeLimit: int := -Int32Min * SecondsPerDay

  /** In the int32 day range the buckets are plain floor divisions (the day index
      is the whole number of days at or below the timestamp, negative ones
      included) and, for non-negative input, month <= week <= day. */
  lemma TimeBuckets(seconds: int)
    requires -DayRangeLimit <= seconds < DayRangeLimit
    ensures SecondsPerDay * DayIndex(Int(seconds)) <= seconds < SecondsPerDay * (DayIndex(Int(seconds)) + 1)
    ensures DayIndex(Int(seconds)) == seconds / SecondsPerDay
    ensures WeekIndex(DayIndex(Int(seconds))) == seconds / SecondsPerDay / 7
    ensures MonthIndex(DayIndex(Int(seconds))) == seconds / SecondsPerDay / 30
    ensures 0 <= seconds ==>
      0 <= MonthIndex(DayIndex(Int(seconds))) <= WeekIndex(DayIndex(Int(seconds))) <= DayIndex(Int(seconds))
  {
    var d := seconds / SecondsPerDay;
    assert Int32Min <= d < -Int32Min;
  }

  /** Every bucket is non-decreasing in TransactionDT over the int32 day range. */
  lemma TimeBucketsMonotone(a: int, b: int)
    requires -DayRangeLimit <= a <= b < DayRangeLimit
    ensures DayIndex(Int(a)) <= DayIndex(Int(b))
    ensures WeekIndex(DayIndex(Int(a))) <= WeekIndex(DayIndex(Int(b)))
    ensures MonthIndex(DayIndex(Int(a))) <= MonthIndex(DayIndex(Int(b)))
  {
    var da, db := a / SecondsPerDay, b / SecondsPerDay;
    assert Int32Min <= da <= db < -Int32Min;
  }

  // ---------------------------------------------------------------------
  // Amount transforms (src/features.py:42-43), computed by FloatOps
  // ---------------------------------------------------------------------

  /** `np.log1p` works on a numeric column; text makes the column object-typed and raises. */
  predicate NumericColumn(col: Column) {
    forall k :: 0 <= k < |col| ==> !col[k].Str?
  }

  const Log1pError := PyError("TypeError", "loop of ufunc does not support argument 0 of type str which has no callable log1p method")

  function FloatColumn(col: Column, op: real -> Cell): (r: Column)
    requires NumericColumn(col)
    ensures |r| == |col|
    ensures forall k :: 0 <= k < |col| && col[k].Missing? ==> r[k].Missing?
  {
    seq(|col|, k requires 0 <= k < |col| =>
      match col[k]
      case Int(i) => op(i as real)
      case Num(x) => op(x)
      case _ => Missing)
  }

  // ---------------------------------------------------------------------
  // E-mail domain splits (src/features.py:46-48)
  // ---------------------------------------------------------------------

  /** A column the split of lines 47-48 and 51 goes through: it holds some text.
      pandas' `.str` accessor refuses an all-number or all-NaN column; on a column
      with no rows it works, but `split(expand=True)` then yields a frame with no
      columns, and taking its column 0 fails. */
  predicate StrAccessorOk(col: Column)
    ensures StrAccessorOk(col) ==> |col| > 0
  {
    exists k :: 0 <= k < |col| && col[k].Str?
  }

  const StrAccessorError := PyError("AttributeError", "Can only use .str accessor with string values!")

  /** What the split raises on a column that is not StrAccessorOk: `KeyError: 0`
      without rows, the accessor's AttributeError otherwise. */
  function SplitError(col: Column): (e: PyError)
    ensures e.kind == "KeyError" <==> |col| == 0
  {
    if |col| == 0 then PyError("KeyError", "0") else StrAccessorError
  }

  /** `col.str.split('.', expand=True)[0]`: the provider, the text before the first dot. */
  function ProvColumn(col: Column): (r: Column)
    ensures |r| == |col|
  {
    seq(|col|, k requires 0 <= k < |col| =>
      if col[k].Str? then Str(Split(col[k].text, '.')[0]) else Missing)
  }

  function Pieces(c: Cell): nat {
    if c.Str? then |Split(c.text, '.')| else 0
  }

  /** The number of columns `str.split('.', expand=True)` produces: the most pieces of any value. */
  function MaxPieces(col: Column): (m: nat)
    ensures forall k :: 0 <= k < |col| ==> Pieces(col[k]) <= m
    ensures m > 0 ==> exists k :: 0 <= k < |col| && Pieces(col[k]) == m
  {
    if |col| == 0 then 0
    else
      var m' := MaxPieces(col[..|col| - 1]);
      var last := Pieces(col[|col| - 1]);
      assert forall k :: 0 <= k < |col| - 1 ==> col[..|col| - 1][k] == col[k];
      if last > m' then last else m'
  }

  /** `col.str.split('.', expand=True).iloc[:, -1]`, as written: the cell in the
      last expanded column, which only the values with the most pieces reach;
      shorter values are padded with None there. */
  function TldColumnAsWritten(col: Column): (r: Column)
    ensures |r| == |col|
  {
    var width := MaxPieces(col);
    seq(|col|, k requires 0 <= k < |col| =>
      if col[k].Str? && Pieces(col[k]) == width then Str(Last(Split(col[k].text, '.'))) else Missing)
  }

  /** The top-level domain as evidently intended: the text after the last dot of every value. */
  function TldColumn(col: Column): (r: Column)
    ensures |r| == |col|
  {
    seq(|col|, k requires 0 <= k < |col| =>
      if col[k].Str? then Str(Last(Split(col[k].text, '.'))) else Missing)
  }

  /** Every text value's provider is its prefix up to the first dot. */
  lemma ProvColumnSpec(col: Column, k: nat)
    requires k < |col|
    ensures col[k].Str? <==> ProvColumn(col)[k].Str?
    ensures col[k].Str? ==> var p := ProvColumn(col)[k].text;
      StartsWith(col[k].text, p) && '.' !in p && (|p| < |col[k].text| ==> col[k].text[|p|] == '.')
  {
    if col[k].Str? {
      SplitHead(col[k].text, '.');
    }
  }

  /** As written, a value gets a top-level domain exactly when it has the column's
      largest number of dots; it is then the text after the last dot. */
  lemma TldColumnAsWrittenSpec(col: Column, k: nat)
    requires k < |col| && col[k].Str?
    ensures TldColumnAsWritten(col)[k].Str? <==>
      forall j :: 0 <= j < |col| && col[j].Str? ==> Occurrences(col[j].text, '.') <= Occurrences(col[k].text, '.')
    ensures TldColumnAsWritten(col)[k].Str? ==> TldColumnAsWritten(col)[k] == TldColumn(col)[k]
  {
    SplitShape(col[k].text, '.');
    forall j | 0 <= j < |col| && col[j].Str? {
      SplitShape(col[j].text, '.');
    }
    var width := MaxPieces(col);
    if TldColumnAsWritten(col)[k].Missing? {
      var j :| 0 <= j < |col| && Pieces(col[j]) == width;
      assert col[j].Str?;
    }
  }

  /** The intended top-level domain is the dot-free tail of each value. */
  lemma TldColumnSpec(col: Column, k: nat)
    requires k < |col|
    ensures col[k].Str? <==> TldColumn(col)[k].Str?
    ensures col[k].Str? ==> var t := TldColumn(col)[k].text; var s := col[k].text;
      EndsWith(s, t) && '.' !in t && (|t| < |s| ==> s[|s| - |t| - 1] == '.')
  {
    if col[k].Str? {
      SplitLast(col[k].text, '.');
    }
  }

  /** With "gmail.com" beside "yahoo.co.jp", the code as written gives "gmail.com"
      no top-level domain, where "com" was evidently meant. */
  lemma TldAsWrittenDropsShorterDomains()
    ensures TldColumnAsWritten([Str("gmail.com"), Str("yahoo.co.jp")])[0] == Missing
    ensures TldColumn([Str("gmail.com"), Str("yahoo.co.jp")])[0] == Str("com")
  {
    var col := [Str("gmail.com"), Str("yahoo.co.jp")];
    assert Split("gmail.com", '.') == ["gmail", "com"] by {
      SplitOfLiterals();
    }
    assert Split("yahoo.co.jp", '.') == ["yahoo", "co", "jp"] by {
      SplitOfLiterals();
    }
    assert Pieces(col[1]) == 3;
    assert MaxPieces(col) >= 3;
  }

  lemma SplitOfLiterals()
    ensures Split("gmail.com", '.') == ["gmail", "com"]
    ensures Split("yahoo.co.jp", '.') == ["yahoo", "co", "jp"]
  {
    SplitGmail();
    SplitYahoo();
  }

  lemma SplitGmail()
    ensures Split("gmail.com", '.') == ["gmail", "com"]
  {
    SplitNoSep("com", '.');
    SplitAppend("gmail", '.', "com");
    assert "gmail" + ['.'] + "com" == "gmail.com";
  }

  lemma SplitYahoo()
    ensures Split("yahoo.co.jp", '.') == ["yahoo", "co", "jp"]
  {
    SplitNoSep("jp", '.');
    SplitAppend("co", '.', "jp");
    assert "co" + ['.'] + "jp" == "co.jp";
    SplitAppend("yahoo", '.', "co.jp");
    assert "yahoo" + ['.'] + "co.jp" == "yahoo.co.jp";
  }

  // ---------------------------------------------------------------------
  // DeviceInfo splits (src/features.py:51-52)
  // ---------------------------------------------------------------------

  /** `.fillna('NA')` */
  function FillNA(c: Cell): Cell {
    if c.Missing? then Str("NA") else c
  }

  function FillNAColumn(col: Column): (r: Column)
    ensures |r| == |col|
    ensures forall k :: 0 <= k < |col| ==> r[k] == FillNA(col[k])
  {
    seq(|col|, k requires 0 <= k < |col| => FillNA(col[k]))
  }

  /** `DeviceInfo.fillna('NA').str.split('/', expand=True)[0]` */
  function DeviceNameColumn(col: Column): (r: Column)
    ensures |r| == |col|
  {
    seq(|col|, k requires 0 <= k < |col| =>
      match FillNA(col[k])
      case Str(s) => Str(Split(s, '/')[0])
      case _ => Missing)
  }

  /** The group `/(\S+)$` captures when its match starts at index `i`: `$` matches
      at the end of the text or just before a final newline. */
  function VersionAt(s: string, i: nat): (r: Option<string>)
    requires i < |s|
    ensures r.Some? ==> (s[i] == '/' && |r.value| > 0 && NoSpace(r.value) &&
      (s[i + 1..] == r.value || s[i + 1..] == r.value + "\n"))
  {
    if s[i] != '/' then None
    else
      var rest := s[i + 1..];
      if |rest| > 0 && NoSpace(rest) then Some(rest)
      else if |rest| > 1 && rest[|rest| - 1] == '\n' && NoSpace(rest[..|rest| - 1]) then
        Some(rest[..|rest| - 1])
      else None
  }

  /** `re.search` tries the start positions from `i` on, left to right. */
  function SearchVersion(s: string, i: nat): Option<string>
    decreases |s| - i
  {
    if i >= |s| then None
    else match VersionAt(s, i)
      case Some(v) => Some(v)
      case None => SearchVersion(s, i + 1)
  }

  /** `str.extract(r'/(\S+)$')` on one text value. */
  function DeviceVersion(s: string): Option<string> {
    SearchVersion(s, 0)
  }

  /** The search finds the leftmost start position at which the pattern matches. */
  lemma {:induction false} SearchVersionSpec(s: string, i: nat)
    requires i <= |s|
    ensures SearchVersion(s, i).None? <==> forall j :: i <= j < |s| ==> VersionAt(s, j).None?
    ensures SearchVersion(s, i).Some? ==> exists j :: (i <= j < |s| && VersionAt(s, j) == SearchVersion(s, i) &&
      forall j' :: i <= j' < j ==> VersionAt(s, j').None?)
    decreases |s| - i
  {
    if i < |s| {
      if VersionAt(s, i).None? {
        assert SearchVersion(s, i) == SearchVersion(s, i + 1);
        SearchVersionSpec(s, i + 1);
      } else {
        assert SearchVersion(s, i) == VersionAt(s, i);
      }
    }
  }

  /** A device version is a non-empty, whitespace-free tail following a '/'; it is
      missing exactly when no '/' is followed by such a tail. */
  lemma DeviceVersionSpec(s: string)
    ensures DeviceVersion(s).None? <==> forall j :: 0 <= j < |s| ==> VersionAt(s, j).None?
    ensures DeviceVersion(s).Some? ==> var v := DeviceVersion(s).value;
      |v| > 0 && NoSpace(v) && exists j :: 0 <= j < |s| && s[j] == '/' && (s[j + 1..] == v || s[j + 1..] == v + "\n")
  {
    SearchVersionSpec(s, 0);
  }

  /** The "NA" filler has no version; a build string yields its tail. */
  lemma DeviceVersionExamples()
    ensures DeviceVersion("NA") == None
    ensures DeviceVersion("Build/NRD90M") == Some("NRD90M")
  {
    assert VersionAt("Build/NRD90M", 5) == Some("NRD90M");
  }

  function DeviceVersionColumn(col: Column): (r: Column)
    ensures |r| == |col|
  {
    seq(|col|, k requires 0 <= k < |col| =>
      match FillNA(col[k])
      case Str(s) => (match DeviceVersion(s) case Some(v) => Str(v) case None => Missing)
      case _ => Missing)
  }

  /** After `fillna('NA')`, every device cell that held text or was missing has a name:
      the text before its first '/'. */
  lemma DeviceNameSpec(col: Column, k: nat)
    requires k < |col| && (col[k].Str? || col[k].Missing?)
    ensures DeviceNameColumn(col)[k].Str?
    ensures var s := FillNA(col[k]).text; var name := DeviceNameColumn(col)[k].text;
      StartsWith(s, name) && '/' !in name && (|name| < |s| ==> s[|name|] == '/')
    ensures col[k].Missing? ==> DeviceNameColumn(col)[k] == Str("NA")
  {
    SplitHead(FillNA(col[k]).text, '/');
    if col[k].Missing? {
      SplitNoSep("NA", '/');
    }
  }

  // ---------------------------------------------------------------------
  // Flags (src/features.py:55-59)
  // ---------------------------------------------------------------------

  /** `has_id`: 1 where id_01 is present in the row, or 0 everywhere without an id_01 column. */
  function HasIdColumn(df: Frame, n: nat): (col: Column)
    requires "id_01" in df ==> |df["id_01"]| == n
    ensures |col| == n
  {
    if "id_01" in df then
      seq(n, k requires 0 <= k < n => Int(if df["id_01"][k].Missing? then 0 else 1))
    else Constant(Int(0), n)
  }

  /** has_id is a 0/1 flag that is 1 exactly when the frame has an id_01 column and
      the row's id_01 is present; without an id_01 column it is 0 in every row. */
  lemma HasIdSpec(df: Frame, n: nat, k: nat)
    requires "id_01" in df ==> |df["id_01"]| == n
    requires k < n
    ensures HasIdColumn(df, n)[k] == Int(0) || HasIdColumn(df, n)[k] == Int(1)
    ensures HasIdColumn(df, n)[k] == Int(1) <==> "id_01" in df && !df["id_01"][k].Missing?
    ensures "id_01" !in df ==> HasIdColumn(df, n)[k] == Int(0)
  {
  }

  /** `is_email_match`: elementwise `==` of the two domains; NaN matches nothing. */
  function EmailMatchColumn(p: Column, r: Column): (col: Column)
    requires |p| == |r|
    ensures |col| == |p|
  {
    seq(|p|, k requires 0 <= k < |p| => Int(if SameValue(p[k], r[k]) then 1 else 0))
  }

  /** Two present text domains match exactly when equal; a missing domain never matches. */
  lemma EmailMatchSpec(p: Column, r: Column, k: nat)
    requires |p| == |r| && k < |p|
    ensures (p[k].Missing? || r[k].Missing?) ==> EmailMatchColumn(p, r)[k] == Int(0)
    ensures p[k].Str? && r[k].Str? ==> (EmailMatchColumn(p, r)[k] == Int(1) <==> p[k].text == r[k].text)
    ensures EmailMatchColumn(p, r)[k] == Int(1) <==> SameValue(p[k], r[k])
    ensures EmailMatchColumn(p, r)[k] == Int(0) || EmailMatchColumn(p, r)[k] == Int(1)
  {
  }

  // ---------------------------------------------------------------------
  // build_base_frame (src/features.py:27-61)
  // ---------------------------------------------------------------------

  /** What the feature derivations need of the merged frame for none of them to raise. */
  predicate Derivable(df: Frame)
    ensures Derivable(df) ==>
      && "P_emaildomain" in df && |df["P_emaildomain"]| > 0
      && "R_emaildomain" in df && |df["R_emaildomain"]| > 0
  {
    && "TransactionDT" in df && Bucketable(df["TransactionDT"])
    && "TransactionAmt" in df && NumericColumn(df["TransactionAmt"])
    && "P_emaildomain" in df && StrAccessorOk(df["P_emaildomain"])
    && "R_emaildomain" in df && StrAccessorOk(df["R_emaildomain"])
    && "DeviceInfo" in df && StrAccessorOk(FillNAColumn(df["DeviceInfo"]))
  }

  /** A frame without rows never gets through the e-mail split: a header-only
      upload makes `build_base_frame` raise `KeyError: 0` at line 47. */
  lemma NoRowsNotDerivable(df: Frame)
    requires Rectangular(df, 0)
    requires "TransactionDT" in df && "TransactionAmt" in df && "P_emaildomain" in df
    ensures !Derivable(df) && DerivationError(df) == PyError("KeyError", "0")
  {
    assert |df["P_emaildomain"]| == 0;
  }

  /** The first error the derivations raise on a frame that is not Derivable. */
  function DerivationError(df: Frame): PyError
    requires !Derivable(df)
  {
    if "TransactionDT" !in df then KeyError("TransactionDT")
    else if !Bucketable(df["TransactionDT"]) then BucketError(df["TransactionDT"])
    else if "TransactionAmt" !in df then KeyError("TransactionAmt")
    else if !NumericColumn(df["TransactionAmt"]) then Log1pError
    else if "P_emaildomain" !in df then KeyError("P_emaildomain")
    else if !StrAccessorOk(df["P_emaildomain"]) then SplitError(df["P_emaildomain"])
    else if "R_emaildomain" !in df then KeyError("R_emaildomain")
    else if !StrAccessorOk(df["R_emaildomain"]) then SplitError(df["R_emaildomain"])
    else if "DeviceInfo" !in df then KeyError("DeviceInfo")
    else SplitError(FillNAColumn(df["DeviceInfo"]))
  }

  /** The merged frame with the thirteen derived columns written into it, in the
      order of lines 37-59. */
  function DerivedFrame(df: Frame, n: nat, fp: FloatOps): (r: Frame)
    requires Rectangular(df, n) && Derivable(df)
    ensures Rectangular(r, n)
  {
    var dt, amount := df["TransactionDT"], df["TransactionAmt"];
    var p, q, device := df["P_emaildomain"], df["R_emaildomain"], df["DeviceInfo"];
    df["DT_D" := DayColumn(dt)]["DT_W" := WeekColumn(dt)]["DT_M" := MonthColumn(dt)]
      ["TransactionAmt_log1p" := FloatColumn(amount, fp.log1p)]["amt_cents" := FloatColumn(amount, fp.cents)]
      ["P_emaildomain_prov" := ProvColumn(p)]["P_emaildomain_tld" := TldColumnAsWritten(p)]
      ["R_emaildomain_prov" := ProvColumn(q)]["R_emaildomain_tld" := TldColumnAsWritten(q)]
      ["DeviceName" := DeviceNameColumn(device)]["DeviceVersion" := DeviceVersionColumn(device)]
      ["has_id" := HasIdColumn(df, n)]["is_email_match" := EmailMatchColumn(p, q)]
  }

  /** The derived frame has the merged frame's columns plus the thirteen derived
      ones. */
  lemma DerivedFrameColumns(df: Frame, n: nat, fp: FloatOps)
    requires Rectangular(df, n) && Derivable(df)
    ensures DerivedFrame(df, n, fp).Keys == df.Keys + DerivedColumns
  {
  }

  /** A column that is not derived keeps its cells. */
  lemma DerivedFrameKeeps(df: Frame, n: nat, fp: FloatOps, c: string)
    requires Rectangular(df, n) && Derivable(df)
    requires c in df && c !in DerivedColumns
    ensures DerivedFrame(df, n, fp)[c] == df[c]
  {
  }

  /** Lines 37-39: the buckets come from TransactionDT. */
  lemma DerivedTime(df: Frame, n: nat, fp: FloatOps)
    requires Rectangular(df, n) && Derivable(df)
    ensures var r := DerivedFrame(df, n, fp);
      && r["DT_D"] == DayColumn(df["TransactionDT"])
      && r["DT_W"] == WeekColumn(df["TransactionDT"])
      && r["DT_M"] == MonthColumn(df["TransactionDT"])
  {
  }

  /** Lines 42-43: the amount transforms come from TransactionAmt. */
  lemma DerivedAmount(df: Frame, n: nat, fp: FloatOps)
    requires Rectangular(df, n) && Derivable(df)
    ensures var r := DerivedFrame(df, n, fp);
      && r["TransactionAmt_log1p"] == FloatColumn(df["TransactionAmt"], fp.log1p)
      && r["amt_cents"] == FloatColumn(df["TransactionAmt"], fp.cents)
  {
  }

  /** Lines 46-48: the e-mail splits. */
  lemma DerivedEmailSplits(df: Frame, n: nat, fp: FloatOps)
    requires Rectangular(df, n) && Derivable(df)
    ensures var r := DerivedFrame(df, n, fp);
      && r["P_emaildomain_prov"] == ProvColumn(df["P_emaildomain"])
      && r["P_emaildomain_tld"] == TldColumnAsWritten(df["P_emaildomain"])
      && r["R_emaildomain_prov"] == ProvColumn(df["R_emaildomain"])
      && r["R_emaildomain_tld"] == TldColumnAsWritten(df["R_emaildomain"])
  {
  }

  /** Lines 51-52: the device splits. */
  lemma DerivedDeviceSplits(df: Frame, n: nat, fp: FloatOps)
    requires Rectangular(df, n) && Derivable(df)
    ensures var r := DerivedFrame(df, n, fp);
      && r["DeviceName"] == DeviceNameColumn(df["DeviceInfo"])
      && r["DeviceVersion"] == DeviceVersionColumn(df["DeviceInfo"])
  {
  }

  /** Lines 55-59: the flags. */
  lemma DerivedFlags(df: Frame, n: nat, fp: FloatOps)
    requires Rectangular(df, n) && Derivable(df)
    ensures var r := DerivedFrame(df, n, fp);
      && r["has_id"] == HasIdColumn(df, n)
      && r["is_email_match"] == EmailMatchColumn(df["P_emaildomain"], df["R_emaildomain"])
  {
  }

  /** The derivations of lines 37-59, one column assignment after another. */
  method DeriveBaseFeatures(merged: Frame, n: nat, fp: FloatOps) returns (r: Result<Frame, PyError>)
    requires Rectangular(merged, n)
    ensures r.Success? <==> Derivable(merged)
    ensures r.Failure? ==> r.error == DerivationError(merged)
    ensures r.Success? ==> r.value == DerivedFrame(merged, n, fp)
  {
    if !Derivable(merged) {
      return Failure(DerivationError(merged));
    }
    var df := merged;
    var dt := df["TransactionDT"];
    df := df["DT_D" := DayColumn(dt)];
    df := df["DT_W" := WeekColumn(dt)];
    df := df["DT_M" := MonthColumn(dt)];
    var amount := merged["TransactionAmt"];
    df := df["TransactionAmt_log1p" := FloatColumn(amount, fp.log1p)];
    df := df["amt_cents" := FloatColumn(amount, fp.cents)];
    var p := merged["P_emaildomain"];
    df := df["P_emaildomain_prov" := ProvColumn(p)];
    df := df["P_emaildomain_tld" := TldColumnAsWritten(p)];
    var q := merged["R_emaildomain"];
    df := df["R_emaildomain_prov" := ProvColumn(q)];
    df := df["R_emaildomain_tld" := TldColumnAsWritten(q)];
    var device := merged["DeviceInfo"];
    df := df["DeviceName" := DeviceNameColumn(device)];
    df := df["DeviceVersion" := DeviceVersionColumn(device)];
    df := df["has_id" := HasIdColumn(merged, n)];
    df := df["is_email_match" := EmailMatchColumn(p, q)];
    return Success(df);
  }

  /** Renaming keeps every column's length. */
  lemma {:induction false} RenameAllRectangular(df: Frame, m: nat, cols: seq<string>)
    requires Rectangular(df, m)
    ensures Rectangular(RenameAll(df, cols), m)
    decreases |cols|
  {
    if |cols| > 0 {
      RenameAllRectangular(df, m, cols[..|cols| - 1]);
    }
  }

  /** The key column is not an "id-" column, so renaming keeps it, and keeps every
      column's length. */
  lemma RenameKeepsKey(iden: Frame, m: nat, order: seq<string>)
    requires Rectangular(iden, m)
    requires forall c :: c in iden <==> c in order
    requires forall i, j :: 0 <= i < j < |order| ==> order[i] != order[j]
    ensures Rectangular(RenameAll(iden, IdColumns(order)), m)
    ensures KeyColumn in iden ==> KeyColumn in RenameAll(iden, IdColumns(order))
  {
    RenameAllRectangular(iden, m, IdColumns(order));
    RenameIdColumnsKeys(iden, order);
    KeyNotIdColumn();
  }

  lemma KeyNotIdColumn()
    ensures !StartsWith(KeyColumn, "id-") && IdName(KeyColumn) == KeyColumn
  {
    assert KeyColumn[0] != "id-"[0];
  }

  /** The frame `build_base_frame` returns, or the exception it raises. */
  function BaseFrame(trans: Frame, n: nat, iden: Frame, m: nat, idenOrder: seq<string>, fp: FloatOps): (r: Result<Frame, PyError>)
    requires Rectangular(trans, n) && Rectangular(iden, m)
    requires forall c :: c in iden <==> c in idenOrder
    requires forall i, j :: 0 <= i < j < |idenOrder| ==> idenOrder[i] != idenOrder[j]
    ensures r.Success? ==> KeyColumn in trans && KeyColumn in iden && Rectangular(r.value, n)
  {
    var renamed := RenameAll(iden, IdColumns(idenOrder));
    if KeyColumn !in trans || KeyColumn !in iden then Failure(KeyError(KeyColumn))
    else
      RenameKeepsKey(iden, m, idenOrder);
      var merged := LeftJoin(trans, n, renamed, m);
      if Derivable(merged) then Success(DerivedFrame(merged, n, fp)) else Failure(DerivationError(merged))
  }

  /** `build_base_frame(trans, iden)`: rename, merge, derive. `idenOrder` lists the
      identity frame's columns in their frame order. */
  method BuildBaseFrame(trans: Frame, n: nat, iden: Frame, m: nat, idenOrder: seq<string>, fp: FloatOps)
    returns (r: Result<Frame, PyError>)
    requires Rectangular(trans, n) && Rectangular(iden, m)
    requires forall c :: c in iden <==> c in idenOrder
    requires forall i, j :: 0 <= i < j < |idenOrder| ==> idenOrder[i] != idenOrder[j]
    ensures r == BaseFrame(trans, n, iden, m, idenOrder, fp)
  {
    var renamed := RenameIdColumns(iden, idenOrder);
    if KeyColumn !in trans || KeyColumn !in iden {
      return Failure(KeyError(KeyColumn));
    }
    RenameKeepsKey(iden, m, idenOrder);
    var merged := LeftJoin(trans, n, renamed, m);
    r := DeriveBaseFeatures(merged, n, fp);
  }

  /** Without the key column in both frames the merge raises KeyError; otherwise the
      result has the transaction rows, every transaction column that is not derived
      keeps its cells, and all thirteen derived columns are present. */
  lemma BaseFrameSpec(trans: Frame, n: nat, iden: Frame, m: nat, idenOrder: seq<string>, fp: FloatOps)
    requires Rectangular(trans, n) && Rectangular(iden, m)
    requires forall c :: c in iden <==> c in idenOrder
    requires forall i, j :: 0 <= i < j < |idenOrder| ==> idenOrder[i] != idenOrder[j]
    ensures var r := BaseFrame(trans, n, iden, m, idenOrder, fp);
      && (KeyColumn !in trans || KeyColumn !in iden ==> r == Failure(KeyError(KeyColumn)))
      && (r.Success? ==> Rectangular(r.value, n) && trans.Keys + DerivedColumns <= r.value.Keys)
      && (r.Success? ==> forall c :: c in trans && c !in DerivedColumns ==> r.value[c] == trans[c])
  {
    var r := BaseFrame(trans, n, iden, m, idenOrder, fp);
    if r.Success? {
      var renamed := RenameAll(iden, IdColumns(idenOrder));
      RenameKeepsKey(iden, m, idenOrder);
      var merged := LeftJoin(trans, n, renamed, m);
      DerivedFrameColumns(merged, n, fp);
      forall c | c in trans && c !in DerivedColumns ensures r.value[c] == trans[c] {
        DerivedFrameKeeps(merged, n, fp, c);
      }
    }
  }

  /** With an identity frame that holds nothing but the key (the backend's case), the
      merge adds nothing: the result is exactly the transaction frame plus the derived
      columns, and it fails exactly when the transaction frame is not Derivable. */
  lemma BaseFrameKeyOnly(trans: Frame, n: nat, iden: Frame, m: nat, fp: FloatOps)
    requires Rectangular(trans, n) && Rectangular(iden, m)
    requires iden.Keys == {KeyColumn} && KeyColumn in trans
    ensures var r := BaseFrame(trans, n, iden, m, [KeyColumn], fp);
      && (r.Success? <==> Derivable(trans))
      && (r.Success? ==> r.value == DerivedFrame(trans, n, fp))
      && (r.Failure? ==> r.error == DerivationError(trans))
  {
    KeyNotIdColumn();
    RenameIdColumnsNoop(iden, [KeyColumn]);
    RenameKeepsKey(iden, m, [KeyColumn]);
    assert LeftJoin(trans, n, iden, m) == trans;
  }

  // ---------------------------------------------------------------------
  // add_frequency_encodings (src/features.py:77-83)
  // ---------------------------------------------------------------------

  /** `value_counts` buckets integers together with floats of equal value. */
  function CountKey(c: Cell): Cell {
    if c.Int? then Num(c.i as real) else c
  }

  /** `full[c].value_counts(dropna=False)`: how often each value occurs, NaN included. */
  function ValueCounts(col: Column): (m: multiset<Cell>)
    ensures |m| == |col|
    ensures forall x :: x in m ==> !x.Int?
  {
    multiset(seq(|col|, k requires 0 <= k < |col| => CountKey(col[k])))
  }

  /** `col.map(freq)` */
  function FreqColumn(col: Column, counts: multiset<Cell>): (r: Column)
    ensures |r| == |col|
    ensures forall k :: 0 <= k < |col| ==> r[k] == Int(counts[CountKey(col[k])])
  {
    seq(|col|, k requires 0 <= k < |col| => Int(counts[CountKey(col[k])]))
  }

  /** Every value is counted at least once in the pool it was drawn from. */
  lemma {:induction false} FreqAtLeastOne(train: Column, test: Column, k: nat)
    requires k < |train|
    ensures FreqColumn(train, ValueCounts(train + test))[k].i >= 1
  {
    var all := train + test;
    var keys := seq(|all|, j requires 0 <= j < |all| => CountKey(all[j]));
    assert keys[k] == CountKey(train[k]);
    assert CountKey(train[k]) in multiset(keys);
  }

  /** Counting one more row adds its key once. */
  lemma ValueCountsSnoc(col: Column)
    requires |col| > 0
    ensures ValueCounts(col) == ValueCounts(col[..|col| - 1]) + multiset{CountKey(col[|col| - 1])}
  {
    var init := col[..|col| - 1];
    var keys := seq(|col|, k requires 0 <= k < |col| => CountKey(col[k]));
    var initKeys := seq(|init|, k requires 0 <= k < |init| => CountKey(init[k]));
    assert keys == initKeys + [CountKey(col[|col| - 1])];
  }

  /** A frequency counts the rows of both frames holding an equal value. */
  lemma {:induction false} ValueCountsSpec(col: Column, x: Cell)
    ensures ValueCounts(col)[CountKey(x)] == |set k | 0 <= k < |col| && CountKey(col[k]) == CountKey(x)|
  {
    if |col| == 0 {
      assert ValueCounts(col) == multiset{};
    } else {
      ValueCountsSpec(col[..|col| - 1], x);
      ValueCountsSnoc(col);
      Positions(col, x);
    }
  }

  /** The rows holding a value equal to `x`, one more row at a time. */
  lemma Positions(col: Column, x: Cell)
    requires |col| > 0
    ensures var init := col[..|col| - 1];
      var s := set k | 0 <= k < |col| && CountKey(col[k]) == CountKey(x);
      var s' := set k | 0 <= k < |init| && CountKey(init[k]) == CountKey(x);
      |s| == |s'| + (if CountKey(col[|col| - 1]) == CountKey(x) then 1 else 0)
  {
    var init := col[..|col| - 1];
    var s := set k | 0 <= k < |col| && CountKey(col[k]) == CountKey(x);
    var s' := set k | 0 <= k < |init| && CountKey(init[k]) == CountKey(x);
    if CountKey(col[|col| - 1]) == CountKey(x) {
      assert s == s' + {|col| - 1};
    } else {
      assert s == s';
    }
  }

  /** No category's "_freq" column is itself one of the categories. */
  predicate FreqNamesFresh(catCols: seq<string>) {
    forall i, j :: 0 <= i < |catCols| && 0 <= j < |catCols| ==> catCols[i] + "_freq" != catCols[j]
  }

  /** The columns the encoder adds. */
  function FreqNames(catCols: seq<string>): set<string> {
    set c | c in catCols :: c + "_freq"
  }

  /** Every category is a column of both frames: otherwise `train[cat_cols]` raises KeyError. */
  predicate HasCategories(train: Frame, test: Frame, catCols: seq<string>) {
    forall c :: c in catCols ==> c in train && c in test
  }

  /** `df` after the first `|cols|` rounds of the loop, with counts drawn from
      `train[c] ++ test[c]`. */
  function FreqEncoded(df: Frame, n: nat, cols: seq<string>, train: Frame, test: Frame): (r: Frame)
    requires Rectangular(df, n) && HasCategories(train, test, cols)
    requires forall c :: c in cols ==> c in df
    ensures Rectangular(r, n)
    ensures forall c :: c in df ==> c in r
    decreases |cols|
  {
    if |cols| == 0 then df
    else
      var init, c := cols[..|cols| - 1], Last(cols);
      var prev := FreqEncoded(df, n, init, train, test);
      prev[c + "_freq" := FreqColumn(prev[c], ValueCounts(train[c] + test[c]))]
  }

  /** The loop adds exactly the "_freq" columns. */
  lemma {:induction false} FreqEncodedKeys(df: Frame, n: nat, cols: seq<string>, train: Frame, test: Frame)
    requires Rectangular(df, n) && HasCategories(train, test, cols)
    requires forall c :: c in cols ==> c in df
    ensures FreqEncoded(df, n, cols, train, test).Keys == df.Keys + FreqNames(cols)
    decreases |cols|
  {
    if |cols| > 0 {
      var init, c := cols[..|cols| - 1], Last(cols);
      assert cols == init + [c];
      FreqEncodedKeys(df, n, init, train, test);
      assert FreqNames(cols) == FreqNames(init) + {c + "_freq"};
    }
  }

  /** A column that is not one of the "_freq" names is untouched. */
  lemma {:induction false} FreqEncodedKeeps(df: Frame, n: nat, cols: seq<string>, train: Frame, test: Frame, c: string)
    requires Rectangular(df, n) && HasCategories(train, test, cols)
    requires forall c :: c in cols ==> c in df
    requires c in df && c !in FreqNames(cols)
    ensures FreqEncoded(df, n, cols, train, test)[c] == df[c]
    decreases |cols|
  {
    if |cols| > 0 {
      var init := cols[..|cols| - 1];
      assert cols == init + [Last(cols)];
      assert FreqNames(init) <= FreqNames(cols);
      FreqEncodedKeeps(df, n, init, train, test, c);
    }
  }

  /** With no name clash, each category's "_freq" column holds, per row, the number of
      rows of `train[c] ++ test[c]` with an equal value. */
  lemma {:induction false} FreqEncodedValues(df: Frame, n: nat, cols: seq<string>, train: Frame, test: Frame, c: string)
    requires Rectangular(df, n) && HasCategories(train, test, cols)
    requires forall c :: c in cols ==> c in df
    requires FreqNamesFresh(cols) && c in cols
    ensures c + "_freq" in FreqEncoded(df, n, cols, train, test)
    ensures FreqEncoded(df, n, cols, train, test)[c + "_freq"] == FreqColumn(df[c], ValueCounts(train[c] + test[c]))
    decreases |cols|
  {
    var init, last := cols[..|cols| - 1], Last(cols);
    assert cols == init + [last];
    var prev := FreqEncoded(df, n, init, train, test);
    assert FreqNamesFresh(init);
    assert c !in FreqNames(init) && last !in FreqNames(init);
    if c == last {
      FreqEncodedKeeps(df, n, init, train, test, c);
    } else {
      FreqEncodedValues(df, n, init, train, test, c);
      assert last + "_freq" != c + "_freq" by {
        assert (last + "_freq")[..|last|] == last;
        assert (c + "_freq")[..|c|] == c;
      }
    }
  }

  /** The frequency loop, run over both frames. None stands for the KeyError
      `train[cat_cols]` raises when a category is missing from either frame. */
  method AddFrequencyEncodings(train: Frame, nTrain: nat, test: Frame, nTest: nat, catCols: seq<string>)
    returns (r: Option<(Frame, Frame)>)
    requires Rectangular(train, nTrain) && Rectangular(test, nTest)
    ensures r.None? <==> !HasCategories(train, test, catCols)
    ensures r.Some? ==> r.value.0 == FreqEncoded(train, nTrain, catCols, train, test)
    ensures r.Some? ==> r.value.1 == FreqEncoded(test, nTest, catCols, train, test)
  {
    if !HasCategories(train, test, catCols) {
      return None;
    }
    var outTrain, outTest := train, test;
    var i := 0;
    while i < |catCols|
      invariant 0 <= i <= |catCols|
      invariant outTrain == FreqEncoded(train, nTrain, catCols[..i], train, test)
      invariant outTest == FreqEncoded(test, nTest, catCols[..i], train, test)
    {
      var c := catCols[i];
      var counts := ValueCounts(train[c] + test[c]);
      assert catCols[..i + 1][..i] == catCols[..i];
      outTrain := outTrain[c + "_freq" := FreqColumn(outTrain[c], counts)];
      outTest := outTest[c + "_freq" := FreqColumn(outTest[c], counts)];
      i := i + 1;
    }
    assert catCols[..i] == catCols;
    return Some((outTrain, outTest));
  }
}
