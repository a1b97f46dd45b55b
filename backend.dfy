/** The FastAPI backend of `api/app.py`: `score_frame`, which turns an uploaded
    transaction frame into one fraud probability per row, and `predict_file`, which
    checks the upload, fills in the columns the model expects, scores, and builds
    one result record per row. Every failure of `predict_file` leaves it as an
    HTTP 500. The trained artefact (feature list, label encoders, LightGBM models)
    is a parameter: its encoders and its averaged prediction are opaque functions
    that may fail. */
module Backend {
  import opened Common
  import opened Frames
  import opened Features

  /** `HTTPException(status_code, detail)` */
  datatype HttpException = HttpException(status: nat, detail: string)

  /** `str(e)` of an HTTPException: Starlette renders it as "<status>: <detail>". */
  function ExceptionText(e: HttpException): string {
    NatToString(e.status) + ": " + e.detail
  }

  /** What `label_encode_apply` does to one column: codes, a ValueError (a label the
      encoder never saw), or some other exception with its text. */
  datatype Encoding = Encoded(codes: seq<int>) | UnseenLabel | EncodeRaised(message: string)

  /** The loaded artefact: FEATS, the keys of ENCODERS in order, the encoders as one
      function of column name and cells, and the model average of line 85 applied to
      `base[FEATS]`, which yields probabilities or the text of an exception. */
  datatype Artefact = Artefact(
    feats: seq<string>,
    encoded: seq<string>,
    encode: (string, Column) -> Encoding,
    predict: Frame -> Result<seq<real>, string>)

  // ---------------------------------------------------------------------
  // score_frame (api/app.py:36-92)
  // ---------------------------------------------------------------------

  /** The seven columns the fallback writes. */
  const FallbackColumns: set<string> :=
    {"DT_D", "DT_W", "DT_M", "TransactionAmt_log1p", "amt_cents", "has_id", "is_email_match"}

  /** The minimal base frame of lines 54-61, built when `build_base_frame` raises. */
  function FallbackFrame(df: Frame, n: nat, fp: FloatOps): (r: Result<Frame, string>)
    requires Rectangular(df, n)
    ensures r.Failure? <==>
      || "TransactionDT" !in df || !Bucketable(df["TransactionDT"])
      || "TransactionAmt" !in df || !NumericColumn(df["TransactionAmt"])
    ensures "TransactionDT" !in df ==> r == Failure(KeyError("TransactionDT").message)
    ensures "TransactionDT" in df && Bucketable(df["TransactionDT"]) && "TransactionAmt" !in df ==>
      r == Failure(KeyError("TransactionAmt").message)
    ensures r.Success? ==> Rectangular(r.value, n) && r.value.Keys == df.Keys + FallbackColumns
    ensures r.Success? ==> r.value["has_id"] == Zeros(n) && r.value["is_email_match"] == Zeros(n)
    ensures r.Success? ==> forall c :: c in df && c !in FallbackColumns ==> r.value[c] == df[c]
  {
    if "TransactionDT" !in df then Failure(KeyError("TransactionDT").message)
    else if !Bucketable(df["TransactionDT"]) then Failure(BucketError(df["TransactionDT"]).message)
    else if "TransactionAmt" !in df then Failure(KeyError("TransactionAmt").message)
    else if !NumericColumn(df["TransactionAmt"]) then Failure(Log1pError.message)
    else
      var dt, amount := df["TransactionDT"], df["TransactionAmt"];
      Success(df["DT_D" := DayColumn(dt)]["DT_W" := WeekColumn(dt)]["DT_M" := MonthColumn(dt)]
        ["TransactionAmt_log1p" := FloatColumn(amount, fp.log1p)]["amt_cents" := FloatColumn(amount, fp.cents)]
        ["has_id" := Constant(Int(0), n)]["is_email_match" := Constant(Int(0), n)])
  }

  /** Lines 44-61: `build_base_frame` against an identity frame holding only the key
      column, or the fallback when it raises. */
  function PreparedBase(df: Frame, n: nat, fp: FloatOps): (r: Result<Frame, string>)
    requires Rectangular(df, n) && KeyColumn in df
    ensures r.Success? ==> Rectangular(r.value, n)
  {
    var iden := map[KeyColumn := df[KeyColumn]];
    match BaseFrame(df, n, iden, n, [KeyColumn], fp)
    case Success(base) =>
      BaseFrameSpec(df, n, iden, n, [KeyColumn], fp);
      Success(base)
    case Failure(_) => FallbackFrame(df, n, fp)
  }

  /** All-zero codes: the default of line 72. */
  function Zeros(n: nat): (col: Column)
    ensures |col| == n
  {
    Constant(Int(0), n)
  }

  /** One round of the encoder loop (lines 65-72). An absent column is first filled
      with 'NA'. Codes of the wrong length make the assignment raise ValueError, which
      the loop handles like an unseen label. */
  function EncodeStep(base: Frame, n: nat, c: string, encode: (string, Column) -> Encoding): (r: Result<Frame, string>)
    requires Rectangular(base, n)
    ensures r.Success? ==> Rectangular(r.value, n)
  {
    var b := if c in base then base else base[c := Constant(Str("NA"), n)];
    match encode(c, b[c])
    case Encoded(codes) =>
      if |codes| == n then Success(b[c := seq(n, k requires 0 <= k < n => Int(codes[k]))])
      else Success(b[c := Zeros(n)])
    case UnseenLabel => Success(b[c := Zeros(n)])
    case EncodeRaised(message) => Failure(message)
  }

  /** The encoder loop over `cols`, stopping at the first exception it does not handle. */
  function EncodeAll(base: Frame, n: nat, cols: seq<string>, encode: (string, Column) -> Encoding): (r: Result<Frame, string>)
    requires Rectangular(base, n)
    ensures r.Success? ==> Rectangular(r.value, n)
    decreases |cols|
  {
    if |cols| == 0 then Success(base)
    else match EncodeStep(base, n, cols[0], encode)
      case Failure(e) => Failure(e)
      case Success(b) => EncodeAll(b, n, cols[1..], encode)
  }

  /** Lines 77-82: every FEATS column still absent is added as 0.0. */
  function FillFeatures(base: Frame, n: nat, feats: seq<string>): (r: Frame)
    requires Rectangular(base, n)
    ensures Rectangular(r, n)
  {
    base + map f | f in feats && f !in base :: Constant(Num(0.0), n)
  }

  /** `base[FEATS]` */
  function Project(base: Frame, feats: seq<string>): Frame {
    map f | f in feats && f in base :: base[f]
  }

  /** The frame handed to the models, or the text of the exception raised on the way. */
  function Prepared(df: Frame, n: nat, art: Artefact, fp: FloatOps): (r: Result<Frame, string>)
    requires Rectangular(df, n)
    ensures r.Success? ==> KeyColumn in df && Rectangular(r.value, n)
    ensures r.Success? ==> r.value.Keys == set f | f in art.feats
  {
    if KeyColumn !in df then Failure(KeyError(KeyColumn).message)
    else match PreparedBase(df, n, fp)
      case Failure(e) => Failure(e)
      case Success(base) =>
        match EncodeAll(base, n, art.encoded, art.encode)
        case Failure(e) => Failure(e)
        case Success(encoded) => Success(Project(FillFeatures(encoded, n, art.feats), art.feats))
  }

  /** Line 92: any exception inside the outer `try` becomes this 500. */
  function PredictionError(message: string): HttpException {
    HttpException(500, "Model prediction error: " + message)
  }

  /** pandas refuses a Series whose values and index differ in length (line 87). */
  function LengthMismatch(values: nat, index: nat): string {
    "Length of values (" + NatToString(values) + ") does not match length of index (" + NatToString(index) + ")"
  }

  /** `score_frame(df)`: one probability per row, or the HTTPException it raises. */
  function Score(df: Frame, n: nat, model: Option<Artefact>, fp: FloatOps): (r: Result<seq<real>, HttpException>)
    requires Rectangular(df, n)
    ensures r.Success? ==> model.Some? && Prepared(df, n, model.value, fp).Success? && |r.value| == n
    ensures r.Failure? ==> r.error.status == 500
  {
    if model.None? then Failure(HttpException(500, "Model not loaded"))
    else match Prepared(df, n, model.value, fp)
      case Failure(e) => Failure(PredictionError(e))
      case Success(frame) =>
        match model.value.predict(frame)
        case Failure(e) => Failure(PredictionError(e))
        case Success(probs) =>
          if |probs| == n then Success(probs) else Failure(PredictionError(LengthMismatch(|probs|, n)))
  }

  /** The encoder loop of lines 64-72, updating `base` column by column. */
  method ApplyEncoders(base0: Frame, n: nat, art: Artefact) returns (r: Result<Frame, string>)
    requires Rectangular(base0, n)
    ensures r == EncodeAll(base0, n, art.encoded, art.encode)
  {
    var base := base0;
    var i := 0;
    while i < |art.encoded|
      invariant 0 <= i <= |art.encoded|
      invariant Rectangular(base, n)
      invariant EncodeAll(base0, n, art.encoded, art.encode) == EncodeAll(base, n, art.encoded[i..], art.encode)
    {
      var c := art.encoded[i];
      assert art.encoded[i..][0] == c && art.encoded[i..][1..] == art.encoded[i + 1..];
      ghost var step := EncodeStep(base, n, c, art.encode);
      if c !in base {
        base := base[c := Constant(Str("NA"), n)];
      }
      var encoding := art.encode(c, base[c]);
      if encoding.EncodeRaised? {
        return Failure(encoding.message);
      } else if encoding.Encoded? && |encoding.codes| == n {
        var codes := encoding.codes;
        base := base[c := seq(n, k requires 0 <= k < n => Int(codes[k]))];
      } else {
        base := base[c := Zeros(n)];
      }
      assert step == Success(base);
      i := i + 1;
    }
    return Success(base);
  }

  /** `score_frame`: the no-model check, the base frame, the encoders, the FEATS
      fill and the prediction, each failure turned into its HTTPException. */
  method ScoreFrame(df: Frame, n: nat, model: Option<Artefact>, fp: FloatOps) returns (r: Result<seq<real>, HttpException>)
    requires Rectangular(df, n)
    ensures r == Score(df, n, model, fp)
  {
    if model.None? {
      return Failure(HttpException(500, "Model not loaded"));
    }
    var art := model.value;
    if KeyColumn !in df {
      return Failure(PredictionError(KeyError(KeyColumn).message));
    }
    var prepared := PreparedBase(df, n, fp);
    if prepared.Failure? {
      return Failure(PredictionError(prepared.error));
    }
    var encoded := ApplyEncoders(prepared.value, n, art);
    if encoded.Failure? {
      return Failure(PredictionError(encoded.error));
    }
    var base := encoded.value;
    var missing := map f | f in art.feats && f !in base :: Constant(Num(0.0), n);
    base := base + missing;
    var probs := art.predict(Project(base, art.feats));
    if probs.Failure? {
      return Failure(PredictionError(probs.error));
    }
    if |probs.value| != n {
      return Failure(PredictionError(LengthMismatch(|probs.value|, n)));
    }
    return Success(probs.value);
  }

  /** A scored frame yields exactly one probability per row; every failure is a 500,
      "Model not loaded" exactly when no model was loaded and a prediction error
      otherwise. */
  lemma ScoreOutcome(df: Frame, n: nat, model: Option<Artefact>, fp: FloatOps)
    requires Rectangular(df, n)
    ensures var r := Score(df, n, model, fp);
      && (r.Success? ==> |r.value| == n && model.Some?)
      && (r.Failure? ==> r.error.status == 500)
      && (model.None? <==> r == Failure(HttpException(500, "Model not loaded")))
      && (r.Failure? && model.Some? ==> StartsWith(r.error.detail, "Model prediction error: "))
  {
    if model.Some? {
      var prepared := Prepared(df, n, model.value, fp);
      if prepared.Failure? {
        PredictionErrorShape(prepared.error);
      } else {
        var probs := model.value.predict(prepared.value);
        if probs.Failure? {
          PredictionErrorShape(probs.error);
        } else {
          PredictionErrorShape(LengthMismatch(|probs.value|, n));
        }
      }
    }
  }

  /** A prediction error is a 500 with its prefix, and never the no-model error. */
  lemma PredictionErrorShape(message: string)
    ensures var e := PredictionError(message);
      e.status == 500 && StartsWith(e.detail, "Model prediction error: ") && e.detail != "Model not loaded"
  {
    var d := PredictionError(message).detail;
    assert d[6] == 'p' && "Model not loaded"[6] == 'n';
  }

  /** The fill only adds: a present column keeps its cells, an absent FEATS column is
      0.0 in every row, and no other column appears. */
  lemma FillFeaturesSpec(base: Frame, n: nat, feats: seq<string>)
    requires Rectangular(base, n)
    ensures var r := FillFeatures(base, n, feats);
      && r.Keys == base.Keys + set f | f in feats
      && (forall c :: c in base ==> r[c] == base[c])
      && (forall f :: f in feats && f !in base ==> r[f] == Constant(Num(0.0), n))
  {
  }

  /** One encoder round leaves the other columns alone and leaves `c` present and
      integer-coded: the encoder's codes, or zeros after a ValueError. An absent column
      reaches the encoder as 'NA' in every row. */
  lemma EncodeStepSpec(base: Frame, n: nat, c: string, encode: (string, Column) -> Encoding)
    requires Rectangular(base, n)
    ensures var r := EncodeStep(base, n, c, encode);
      var input := if c in base then base[c] else Constant(Str("NA"), n);
      && (r.Failure? <==> encode(c, input).EncodeRaised?)
      && (r.Success? ==> r.value.Keys == base.Keys + {c})
      && (r.Success? ==> forall d :: d in base && d != c ==> r.value[d] == base[d])
      && (r.Success? ==> forall k :: 0 <= k < n ==> r.value[c][k].Int?)
      && (r.Success? && !encode(c, input).Encoded? ==> r.value[c] == Zeros(n))
  {
  }

  /** After the whole loop every encoded column is present and every other column of
      the base frame keeps its cells. */
  lemma {:induction false} EncodeAllSpec(base: Frame, n: nat, cols: seq<string>, encode: (string, Column) -> Encoding)
    requires Rectangular(base, n)
    ensures var r := EncodeAll(base, n, cols, encode);
      && (r.Success? ==> r.value.Keys == base.Keys + set c | c in cols)
      && (r.Success? ==> forall d :: d in base && d !in cols ==> r.value[d] == base[d])
    decreases |cols|
  {
    if |cols| > 0 {
      EncodeStepSpec(base, n, cols[0], encode);
      var step := EncodeStep(base, n, cols[0], encode);
      if step.Success? {
        EncodeAllSpec(step.value, n, cols[1..], encode);
        assert cols == [cols[0]] + cols[1..];
        assert (set c | c in cols) == {cols[0]} + set c | c in cols[1..];
      }
    }
  }

  /** Whichever way the base frame is built, its time buckets and amount transforms
      are those of the upload; the fallback runs exactly when the full derivation
      cannot, and then sets both flags to 0. */
  lemma PreparedBaseSpec(df: Frame, n: nat, fp: FloatOps)
    requires Rectangular(df, n) && KeyColumn in df
    ensures var r := PreparedBase(df, n, fp);
      && (Derivable(df) ==> r == Success(DerivedFrame(df, n, fp)))
      && (!Derivable(df) ==> r == FallbackFrame(df, n, fp))
      && (r.Success? ==> "TransactionDT" in df && "TransactionAmt" in df)
      && (r.Success? ==> NumericColumn(df["TransactionAmt"]) && Bucketable(df["TransactionDT"]))
      && (r.Success? ==> r.value["DT_D"] == DayColumn(df["TransactionDT"]))
      && (r.Success? ==> r.value["DT_W"] == WeekColumn(df["TransactionDT"]))
      && (r.Success? ==> r.value["DT_M"] == MonthColumn(df["TransactionDT"]))
      && (r.Success? ==> r.value["TransactionAmt_log1p"] == FloatColumn(df["TransactionAmt"], fp.log1p))
      && (!Derivable(df) && r.Success? ==> r.value["has_id"] == Zeros(n) && r.value["is_email_match"] == Zeros(n))
      && (n == 0 ==> r == FallbackFrame(df, n, fp))
  {
    var iden := map[KeyColumn := df[KeyColumn]];
    BaseFrameKeyOnly(df, n, iden, n, fp);
    if Derivable(df) {
      DerivedTime(df, n, fp);
      DerivedAmount(df, n, fp);
    } else {
      FallbackDerivations(df, n, fp);
    }
  }

  /** The fallback takes its buckets and its log1p from the upload as the full
      derivation does. */
  lemma FallbackDerivations(df: Frame, n: nat, fp: FloatOps)
    requires Rectangular(df, n)
    ensures var r := FallbackFrame(df, n, fp);
      r.Success? ==>
        && r.value["DT_D"] == DayColumn(df["TransactionDT"])
        && r.value["DT_W"] == WeekColumn(df["TransactionDT"])
        && r.value["DT_M"] == MonthColumn(df["TransactionDT"])
        && r.value["TransactionAmt_log1p"] == FloatColumn(df["TransactionAmt"], fp.log1p)
  {
  }

  /** `score_frame` succeeds only on a frame with the key column and a numeric
      TransactionAmt: the identity frame is cut from the key, and both the
      full derivation and the fallback take its log1p. */
  lemma ScoredColumns(df: Frame, n: nat, model: Option<Artefact>, fp: FloatOps)
    requires Rectangular(df, n)
    requires Score(df, n, model, fp).Success?
    ensures KeyColumn in df && "TransactionAmt" in df && NumericColumn(df["TransactionAmt"])
  {
    PreparedBaseSpec(df, n, fp);
  }

  // ---------------------------------------------------------------------
  // predict_file (api/app.py:94-181)
  // ---------------------------------------------------------------------

  const RequiredColumns: seq<string> := ["TransactionID", "TransactionDT", "TransactionAmt", "ProductCD"]

  const ExpectedColumns: seq<string> := [
    "DeviceInfo", "P_emaildomain", "R_emaildomain", "addr1", "addr2",
    "dist1", "dist2", "card1", "card2", "card3", "card4", "card5", "card6"]

  /** The names of `cols` that `df` lacks, in the order of `cols` (line 111). */
  function Absent(cols: seq<string>, df: Frame): (r: seq<string>)
    ensures forall c :: c in r <==> c in cols && c !in df
    ensures |r| <= |cols|
  {
    if |cols| == 0 then []
    else (if cols[0] in df then [] else [cols[0]]) + Absent(cols[1..], df)
  }

  /** The filter keeps the order of its input: the absent names of a concatenation
      are those of the first part followed by those of the second. */
  lemma {:induction false} AbsentAppend(a: seq<string>, b: seq<string>, df: Frame)
    ensures Absent(a + b, df) == Absent(a, df) + Absent(b, df)
  {
    if |a| > 0 {
      assert (a + b)[0] == a[0] && (a + b)[1..] == a[1..] + b;
      AbsentAppend(a[1..], b, df);
    } else {
      assert a + b == b;
    }
  }

  /** Python's `str` of a list of strings: `['A', 'B']`. */
  function ListText(names: seq<string>): string {
    "[" + QuotedItems(names) + "]"
  }

  function QuotedItems(names: seq<string>): string {
    if |names| == 0 then ""
    else if |names| == 1 then "'" + names[0] + "'"
    else "'" + names[0] + "', " + QuotedItems(names[1..])
  }

  /** The value the loop of lines 124-137 writes into an absent expected column. */
  function DefaultFor(col: string): Cell {
    if col == "DeviceInfo" then Str("NA")
    else if col in ["P_emaildomain", "R_emaildomain"] then Str("unknown.com")
    else if col in ["addr1", "addr2"] then Int(0)
    else if col in ["dist1", "dist2"] then Num(0.0)
    else if StartsWith(col, "card") then Int(0)
    else Str("NA")
  }

  /** One of the five named rules of lines 126-135 applies to `col`. */
  predicate HasRule(col: string) {
    || col == "DeviceInfo"
    || col in ["P_emaildomain", "R_emaildomain"]
    || col in ["addr1", "addr2"]
    || col in ["dist1", "dist2"]
    || StartsWith(col, "card")
  }

  /** The final `else` of line 136 is unreachable: every expected column has a named
      rule, and the card columns default to 0. */
  lemma ExpectedColumnsHaveRules()
    ensures forall c :: c in ExpectedColumns ==> HasRule(c)
    ensures forall c :: c in ExpectedColumns[7..] ==> DefaultFor(c) == Int(0)
  {
  }

  /** The loop of lines 124-137 over `cols`: an absent column gets its default in
      every row, a present one is left as it is. */
  function WithDefaults(df: Frame, n: nat, cols: seq<string>): (r: Frame)
    requires Rectangular(df, n)
    ensures Rectangular(r, n)
    decreases |cols|
  {
    if |cols| == 0 then df
    else
      var next := if cols[0] in df then df else df[cols[0] := Constant(DefaultFor(cols[0]), n)];
      WithDefaults(next, n, cols[1..])
  }

  /** Default filling adds exactly the absent columns, each filled with its default,
      and never overwrites a column that was present. */
  lemma {:induction false} WithDefaultsSpec(df: Frame, n: nat, cols: seq<string>)
    requires Rectangular(df, n)
    ensures var r := WithDefaults(df, n, cols);
      && (forall c :: c in r <==> c in df || c in cols)
      && (forall c :: c in df ==> c in r && r[c] == df[c])
      && (forall c :: c in cols && c !in df ==> c in r && r[c] == Constant(DefaultFor(c), n))
    decreases |cols|
  {
    if |cols| > 0 {
      var next := if cols[0] in df then df else df[cols[0] := Constant(DefaultFor(cols[0]), n)];
      WithDefaultsSpec(next, n, cols[1..]);
      assert forall c :: c in cols <==> c == cols[0] || c in cols[1..];
    }
  }

  /** The loop of lines 124-137, writing into `df` column by column. */
  method FillExpectedColumns(df0: Frame, n: nat) returns (df: Frame)
    requires Rectangular(df0, n)
    ensures df == WithDefaults(df0, n, ExpectedColumns)
  {
    df := df0;
    var i := 0;
    var cols := ExpectedColumns;
    while i < |cols|
      invariant 0 <= i <= |cols|
      invariant Rectangular(df, n)
      invariant WithDefaults(df0, n, cols) == WithDefaults(df, n, cols[i..])
    {
      var col := cols[i];
      assert cols[i..][0] == col && cols[i..][1..] == cols[i + 1..];
      if col !in df {
        df := df[col := Constant(DefaultFor(col), n)];
      }
      i := i + 1;
    }
  }

  /** `f'{letter}{i}'` for `i` in `range(1, count + 1)`. */
  function Numbered(letter: char, count: nat): set<string> {
    set i | 1 <= i <= count :: [letter] + NatToString(i)
  }

  lemma NumberedLetter(letter: char, count: nat, name: string)
    requires name in Numbered(letter, count)
    ensures |name| >= 2 && name[0] == letter
  {
    var i :| 1 <= i <= count && name == [letter] + NatToString(i);
  }

  const BatchNames: set<string> := Numbered('C', 14) + Numbered('D', 15) + Numbered('V', 339) + Numbered('M', 9)

  /** The value lines 143-146 give a batch column. The four dicts are merged in
      C, D, V, M order, so a later family would win a shared name. */
  function BatchDefault(name: string): Cell {
    if name in Numbered('M', 9) then Str("NA")
    else if name in Numbered('V', 339) || name in Numbered('D', 15) then Num(0.0)
    else Int(0)
  }

  /** Lines 143-151: the C, D, V and M columns the frame lacks, added at once. */
  function BatchFill(df: Frame, n: nat): Frame {
    df + map name | name in BatchNames && name !in df :: Constant(BatchDefault(name), n)
  }

  /** The four families share no name, so each keeps its own default. */
  lemma BatchDefaults(name: string)
    ensures name in Numbered('C', 14) ==> BatchDefault(name) == Int(0)
    ensures name in Numbered('D', 15) ==> BatchDefault(name) == Num(0.0)
    ensures name in Numbered('V', 339) ==> BatchDefault(name) == Num(0.0)
    ensures name in Numbered('M', 9) ==> BatchDefault(name) == Str("NA")
  {
    if name in Numbered('C', 14) { NumberedLetter('C', 14, name); }
    if name in Numbered('D', 15) { NumberedLetter('D', 15, name); }
    if name in Numbered('V', 339) { NumberedLetter('V', 339, name); }
    if name in Numbered('M', 9) { NumberedLetter('M', 9, name); }
  }

  /** After the batch fill C1-C14 (0), D1-D15 (0.0), V1-V339 (0.0) and M1-M9 ('NA')
      all exist, and every column that was there keeps its cells. */
  lemma BatchFillSpec(df: Frame, n: nat)
    requires Rectangular(df, n)
    ensures var r := BatchFill(df, n);
      && Rectangular(r, n)
      && (forall c :: c in r <==> c in df || c in BatchNames)
      && (forall c :: c in df ==> r[c] == df[c])
      && (forall c :: c in Numbered('C', 14) && c !in df ==> r[c] == Constant(Int(0), n))
      && (forall c :: c in Numbered('D', 15) && c !in df ==> r[c] == Constant(Num(0.0), n))
      && (forall c :: c in Numbered('V', 339) && c !in df ==> r[c] == Constant(Num(0.0), n))
      && (forall c :: c in Numbered('M', 9) && c !in df ==> r[c] == Constant(Str("NA"), n))
  {
    forall c | c in BatchNames {
      BatchDefaults(c);
    }
  }

  /** The frame `score_frame` receives: the upload with the expected and the batch
      columns filled in. */
  function Completed(df: Frame, n: nat): (r: Frame)
    requires Rectangular(df, n)
    ensures Rectangular(r, n)
  {
    var filled := WithDefaults(df, n, ExpectedColumns);
    BatchFillSpec(filled, n);
    BatchFill(filled, n)
  }

  /** The upload keeps every column it had; every expected column it lacked holds
      its default and every batch column it lacked holds its family's default. */
  lemma CompletedSpec(df: Frame, n: nat)
    requires Rectangular(df, n)
    ensures var r := Completed(df, n);
      && (forall c :: c in r <==> c in df || c in ExpectedColumns || c in BatchNames)
      && (forall c :: c in df ==> c in r && r[c] == df[c])
      && (forall c :: c in ExpectedColumns && c !in df ==> c in r && r[c] == Constant(DefaultFor(c), n))
      && (forall c :: c in BatchNames && c !in df && c !in ExpectedColumns ==> c in r && r[c] == Constant(BatchDefault(c), n))
  {
    var filled := WithDefaults(df, n, ExpectedColumns);
    WithDefaultsSpec(df, n, ExpectedColumns);
    BatchFillSpec(filled, n);
  }

  // --- result records (lines 160-171) ---

  /** A JSON number as Python's `float` gives it: finite, or NaN for a missing amount. */
  datatype Number = Finite(value: real) | NaN

  /** One element of the response list. */
  datatype Record = Record(transactionId: string, amount: Number, fraudProbability: real, isFraud: bool)

  /** The literal `0.1` of line 169 is the binary64 value nearest to 1/10, which is
      slightly above it; `prob > 0.1` compares with this value. */
  const FraudThreshold: real := 0.1000000000000000055511151231257827021181583404541015625

  /** `str(v)` of a cell; `repr` is Python's shortest round-trip rendering of a float. */
  function CellText(c: Cell, repr: real -> string): string {
    match c
    case Str(s) => s
    case Int(i) => IntToString(i)
    case Num(x) => repr(x)
    case Missing => "nan"
  }

  /** `float(v)` of a numeric cell. */
  function AmountOf(c: Cell): (r: Number)
    requires !c.Str?
    ensures r.NaN? <==> c.Missing?
    ensures c.Int? ==> r == Finite(c.i as real)
  {
    match c
    case Int(i) => Finite(i as real)
    case Num(x) => Finite(x)
    case Missing => NaN
  }

  function RecordOf(id: Cell, amount: Cell, p: real, repr: real -> string): (r: Record)
    requires !amount.Str?
  {
    Record(CellText(id, repr), AmountOf(amount), p, p > FraudThreshold)
  }

  function Min(a: nat, b: nat): nat { if a <= b then a else b }

  /** `zip(df['TransactionID'], fraud_probs)`: one record per pair, in row order. */
  function Records(ids: Column, amounts: Column, probs: seq<real>, repr: real -> string): (r: seq<Record>)
    requires |ids| == |amounts| && NumericColumn(amounts)
    ensures |r| == Min(|ids|, |probs|)
    ensures forall k :: 0 <= k < |r| ==> r[k].fraudProbability == probs[k] && (r[k].isFraud <==> probs[k] > FraudThreshold)
  {
    seq(Min(|ids|, |probs|), k requires 0 <= k < Min(|ids|, |probs|) => RecordOf(ids[k], amounts[k], probs[k], repr))
  }

  /** The append loop of lines 160-171. */
  method BuildRecords(ids: Column, amounts: Column, probs: seq<real>, repr: real -> string) returns (results: seq<Record>)
    requires |ids| == |amounts| && NumericColumn(amounts)
    ensures results == Records(ids, amounts, probs, repr)
  {
    results := [];
    var idx := 0;
    while idx < |ids| && idx < |probs|
      invariant 0 <= idx <= Min(|ids|, |probs|)
      invariant |results| == idx
      invariant forall k :: 0 <= k < idx ==> results[k] == RecordOf(ids[k], amounts[k], probs[k], repr)
    {
      var amount := AmountOf(amounts[idx]);
      var prob := probs[idx];
      results := results + [Record(CellText(ids[idx], repr), amount, prob, prob > FraudThreshold)];
      idx := idx + 1;
    }
  }

  // --- the endpoint ---

  /** `file.filename.endswith` when the upload has no file name. */
  const NoFilenameText := "'NoneType' object has no attribute 'endswith'"

  const ProcessingPrefix := "Processing error: Error processing file: "

  const MissingColumnsPrefix := "Missing required columns: "

  /** Line 181: every exception inside the handler, its own 400s included. */
  function ProcessingError(message: string): HttpException {
    HttpException(500, ProcessingPrefix + message)
  }

  function MissingColumnsError(missing: seq<string>): HttpException {
    HttpException(400, MissingColumnsPrefix + ListText(missing))
  }

  /** Lines 97-116: the file-name check, the parsed body and the required columns;
      what survives is the uploaded frame itself. `upload` is what reading and
      parsing the body gives, or the text of the exception that raises. */
  function Admitted(filename: Option<string>, upload: Result<Frame, string>): (r: Result<Frame, HttpException>)
    ensures r.Success? ==> upload == Success(r.value)
  {
    if filename.None? then Failure(ProcessingError(NoFilenameText))
    else if !EndsWith(filename.value, ".csv") then Failure(ProcessingError(ExceptionText(HttpException(400, "File must be a CSV"))))
    else if upload.Failure? then Failure(ProcessingError(upload.error))
    else
      var missing := Absent(RequiredColumns, upload.value);
      if |missing| > 0 then Failure(ProcessingError(ExceptionText(MissingColumnsError(missing))))
      else Success(upload.value)
  }

  /** Lines 155-173 on the completed frame: score, then one record per row. */
  function Respond(completed: Frame, n: nat, model: Option<Artefact>, fp: FloatOps, repr: real -> string): (r: Result<seq<Record>, HttpException>)
    requires Rectangular(completed, n)
    ensures r.Failure? <==> Score(completed, n, model, fp).Failure?
    ensures r.Success? ==> |r.value| == n
  {
    match Score(completed, n, model, fp)
    case Failure(e) => Failure(ProcessingError(ExceptionText(e)))
    case Success(probs) =>
      ScoredColumns(completed, n, model, fp);
      Success(Records(completed[KeyColumn], completed["TransactionAmt"], probs, repr))
  }

  /** The response of `predict_file`: the records, or the HTTPException it raises. */
  function PredictOutcome(filename: Option<string>, upload: Result<Frame, string>, n: nat,
                          model: Option<Artefact>, fp: FloatOps, repr: real -> string): (r: Result<seq<Record>, HttpException>)
    requires upload.Success? ==> Rectangular(upload.value, n)
    ensures filename.None? ==> r == Failure(ProcessingError(NoFilenameText))
    ensures r.Success? ==> upload.Success? && |r.value| == n
  {
    match Admitted(filename, upload)
    case Failure(e) => Failure(e)
    case Success(df) => Respond(Completed(df, n), n, model, fp, repr)
  }

  /** Lines 119-173 once the upload is admitted: fill in the expected and the batch
      columns, score, and build the records. */
  method CompleteAndScore(upload: Frame, n: nat, model: Option<Artefact>, fp: FloatOps, repr: real -> string)
    returns (r: Result<seq<Record>, HttpException>)
    requires Rectangular(upload, n)
    ensures r == Respond(Completed(upload, n), n, model, fp, repr)
  {
    var df := FillExpectedColumns(upload, n);
    BatchFillSpec(df, n);
    df := BatchFill(df, n);
    var probs := ScoreFrame(df, n, model, fp);
    if probs.Failure? {
      return Failure(ProcessingError(ExceptionText(probs.error)));
    }
    ScoredColumns(df, n, model, fp);
    var results := BuildRecords(df[KeyColumn], df["TransactionAmt"], probs.value, repr);
    return Success(results);
  }

  /** `predict_file`: the checks of lines 97-116, then the rest of the handler. */
  method PredictFile(filename: Option<string>, upload: Result<Frame, string>, n: nat,
                     model: Option<Artefact>, fp: FloatOps, repr: real -> string) returns (r: Result<seq<Record>, HttpException>)
    requires upload.Success? ==> Rectangular(upload.value, n)
    ensures r == PredictOutcome(filename, upload, n, model, fp, repr)
  {
    if filename.None? {
      return Failure(ProcessingError(NoFilenameText));
    }
    if !EndsWith(filename.value, ".csv") {
      return Failure(ProcessingError(ExceptionText(HttpException(400, "File must be a CSV"))));
    }
    if upload.Failure? {
      return Failure(ProcessingError(upload.error));
    }
    var missing := Absent(RequiredColumns, upload.value);
    if |missing| > 0 {
      return Failure(ProcessingError(ExceptionText(MissingColumnsError(missing))));
    }
    assert Admitted(filename, upload) == Success(upload.value);
    r := CompleteAndScore(upload.value, n, model, fp, repr);
  }

  /** The exception text with the detail grouped behind its separator. */
  lemma StatusText(status: nat, detail: string)
    ensures ExceptionText(HttpException(status, detail)) == NatToString(status) + (": " + detail)
  {
    var code := NatToString(status);
    assert code + ": " + detail == code + (": " + detail);
  }

  /** Every failure of `predict_file` is a 500 carrying the catch-all prefix, the
      handler's own 400s included. */
  lemma PredictFailuresAre500(filename: Option<string>, upload: Result<Frame, string>, n: nat,
                              model: Option<Artefact>, fp: FloatOps, repr: real -> string)
    requires upload.Success? ==> Rectangular(upload.value, n)
    ensures var r := PredictOutcome(filename, upload, n, model, fp, repr);
      r.Failure? ==> r.error.status == 500 && StartsWith(r.error.detail, ProcessingPrefix)
  {
    var r := PredictOutcome(filename, upload, n, model, fp, repr);
    if r.Failure? {
      var m :| r.error == ProcessingError(m);
      PrefixOf(ProcessingPrefix, m);
    }
  }

  /** A file name without the case-sensitive ".csv" suffix is refused before the body
      is read, and the 400 surfaces inside the catch-all's 500. */
  lemma NonCsvRejected(name: string, upload: Result<Frame, string>, n: nat,
                       model: Option<Artefact>, fp: FloatOps, repr: real -> string)
    requires upload.Success? ==> Rectangular(upload.value, n)
    requires !EndsWith(name, ".csv")
    ensures PredictOutcome(Some(name), upload, n, model, fp, repr)
      == Failure(HttpException(500, ProcessingPrefix + ("400" + (": " + "File must be a CSV"))))
  {
    StatusText(400, "File must be a CSV");
    HundredText(4);
  }

  /** The missing-columns error names exactly the required columns the upload lacks,
      in the order TransactionID, TransactionDT, TransactionAmt, ProductCD. */
  lemma MissingRequiredReported(name: string, df: Frame, n: nat,
                                model: Option<Artefact>, fp: FloatOps, repr: real -> string)
    requires Rectangular(df, n) && EndsWith(name, ".csv")
    ensures var missing := Absent(RequiredColumns, df);
      && (forall c :: c in missing <==> c in RequiredColumns && c !in df)
      && (|missing| > 0 ==>
            PredictOutcome(Some(name), Success(df), n, model, fp, repr)
              == Failure(HttpException(500, ProcessingPrefix + ("400" + (": " + (MissingColumnsPrefix + ListText(missing)))))))
  {
    var missing := Absent(RequiredColumns, df);
    if |missing| > 0 {
      var e := ProcessingError(ExceptionText(MissingColumnsError(missing)));
      assert Admitted(Some(name), Success(df)) == Failure(e);
      StatusText(400, MissingColumnsPrefix + ListText(missing));
      HundredText(4);
    }
  }

  /** An upload lacking TransactionDT and TransactionAmt is refused naming exactly
      those two, in that order. */
  lemma MissingRequiredExample(df: Frame)
    requires "TransactionID" in df && "ProductCD" in df && "TransactionDT" !in df && "TransactionAmt" !in df
    ensures Absent(RequiredColumns, df) == ["TransactionDT", "TransactionAmt"]
  {
    var cols := RequiredColumns;
    assert cols[1..][1..][1..][1..] == [];
    assert Absent(cols[1..][1..][1..], df) == [];
    assert Absent(cols[1..][1..], df) == ["TransactionAmt"];
  }

  /** One record per (row, probability) pair, so min(rows, probabilities) of them. */
  lemma RecordsSpec(ids: Column, amounts: Column, probs: seq<real>, repr: real -> string)
    requires |ids| == |amounts| && NumericColumn(amounts)
    ensures var r := Records(ids, amounts, probs, repr);
      && |r| == Min(|ids|, |probs|) && |r| <= |ids| && |r| <= |probs|
      && (forall k :: 0 <= k < |r| ==>
            && r[k].transactionId == CellText(ids[k], repr)
            && r[k].amount == AmountOf(amounts[k])
            && r[k].fraudProbability == probs[k]
            && (r[k].isFraud <==> probs[k] > FraudThreshold))
  {
  }

  /** A successful response holds one record per uploaded row, in row order: its id is
      `str` of the row's TransactionID, its amount the row's TransactionAmt, its
      probability the model's, and it is flagged as fraud exactly when that
      probability is strictly above 0.1. */
  lemma PredictSuccessSpec(filename: Option<string>, df: Frame, n: nat,
                           model: Option<Artefact>, fp: FloatOps, repr: real -> string)
    requires Rectangular(df, n)
    ensures var r := PredictOutcome(filename, Success(df), n, model, fp, repr);
      r.Success? ==>
        && KeyColumn in df && "TransactionAmt" in df && NumericColumn(df["TransactionAmt"])
        && Score(Completed(df, n), n, model, fp).Success?
        && var probs := Score(Completed(df, n), n, model, fp).value;
        && |r.value| == n == |probs|
        && (forall k :: 0 <= k < n ==>
              && r.value[k].transactionId == CellText(df[KeyColumn][k], repr)
              && r.value[k].amount == AmountOf(df["TransactionAmt"][k])
              && r.value[k].fraudProbability == probs[k]
              && (r.value[k].isFraud <==> probs[k] > FraudThreshold))
  {
    var r := PredictOutcome(filename, Success(df), n, model, fp, repr);
    if r.Success? {
      assert Admitted(filename, Success(df)) == Success(df);
      AdmittedHasRequired(filename, df);
      var completed := Completed(df, n);
      CompletedSpec(df, n);
      var probs := Score(completed, n, model, fp);
      ScoreOutcome(completed, n, model, fp);
      ScoredColumns(completed, n, model, fp);
      RecordsSpec(completed[KeyColumn], completed["TransactionAmt"], probs.value, repr);
    }
  }

  /** Every record of a successful response is flagged exactly when its own
      probability is strictly above 0.1, and there is one per uploaded row. */
  lemma PredictFlags(filename: Option<string>, df: Frame, n: nat,
                     model: Option<Artefact>, fp: FloatOps, repr: real -> string)
    requires Rectangular(df, n)
    ensures var r := PredictOutcome(filename, Success(df), n, model, fp, repr);
      r.Success? ==>
        && |r.value| == n
        && forall k :: 0 <= k < n ==> (r.value[k].isFraud <==> r.value[k].fraudProbability > FraudThreshold)
  {
    PredictSuccessSpec(filename, df, n, model, fp, repr);
  }

  /** An admitted upload has every required column. */
  lemma AdmittedHasRequired(filename: Option<string>, df: Frame)
    requires Admitted(filename, Success(df)).Success?
    ensures forall c :: c in RequiredColumns ==> c in df
  {
  }
}
