/**
  Label derivation and feature selection (DataProcessor in
  app/utils/data_processor.py).  A data frame is an ordered list of
  distinct column names, one cell sequence per column, and a row count.
*/
module DataProcessor {
  import opened Common

  /**
    A cell.  `Code(v)` is the category code pandas assigns to value `v`
    within its column; `Ratio(n, d)` is the floating-point quotient n / d.
    Which integer a code is, and the IEEE value of a ratio, are not
    modelled.
  */
  datatype Cell = Text(s: string) | Num(x: real) | Code(of: Cell) | Ratio(num: real, den: real)

  datatype Frame = Frame(columns: seq<string>, data: map<string, seq<Cell>>, rows: nat)

  predicate Distinct(s: seq<string>)
  {
    forall i, j :: 0 <= i < j < |s| ==> s[i] != s[j]
  }

  /** Distinct column names, one cell sequence per name, every column `rows` long. */
  ghost predicate WellFormed(f: Frame)
  {
    && Distinct(f.columns)
    && (forall c :: c in f.data <==> c in f.columns)
    && (forall c :: c in f.data ==> |f.data[c]| == f.rows)
  }

  /** The names of `s` outside `drop`, in their order. */
  function Without(s: seq<string>, drop: set<string>): (r: seq<string>)
    ensures forall x :: x in r <==> x in s && x !in drop
    ensures |r| <= |s|
    decreases |s|
  {
    if s == [] then []
    else if s[0] in drop then Without(s[1..], drop)
    else [s[0]] + Without(s[1..], drop)
  }

  lemma {:induction false} WithoutDistinct(s: seq<string>, drop: set<string>)
    requires Distinct(s)
    ensures Distinct(Without(s, drop))
    decreases |s|
  {
    if s != [] {
      WithoutDistinct(s[1..], drop);
      assert s[0] !in s[1..];
    }
  }

  /** On distinct names, removing one name that is present cuts out exactly its position. */
  lemma {:induction false} WithoutOne(s: seq<string>, x: string, k: nat)
    requires Distinct(s) && k < |s| && s[k] == x
    ensures Without(s, {x}) == s[..k] + s[k + 1..]
    decreases |s|
  {
    if k == 0 {
      WithoutHead(s, x);
    } else {
      calc {
        Without(s, {x});
        { assert s[0] != x; }
        [s[0]] + Without(s[1..], {x});
        { assert Distinct(s[1..]); WithoutOne(s[1..], x, k - 1); }
        [s[0]] + (s[1..][..k - 1] + s[1..][k..]);
        { assert s[1..][..k - 1] == s[1..k] && s[1..][k..] == s[k + 1..]; }
        ([s[0]] + s[1..k]) + s[k + 1..];
        { assert [s[0]] + s[1..k] == s[..k]; }
        s[..k] + s[k + 1..];
      }
    }
  }

  lemma WithoutHead(s: seq<string>, x: string)
    requires Distinct(s) && |s| > 0 && s[0] == x
    ensures Without(s, {x}) == s[1..]
  {
    assert x !in s[1..] by {
      forall j | 0 <= j < |s[1..]|
        ensures s[1..][j] != x
      {
        assert s[1..][j] == s[j + 1];
      }
    }
    WithoutNothing(s[1..], x);
  }

  lemma WithoutNothing(s: seq<string>, x: string)
    requires x !in s
    ensures Without(s, {x}) == s
    decreases |s|
  {
  }

  /** `df[name] = col`: an existing column keeps its place, a new one goes last. */
  function SetColumn(f: Frame, name: string, col: seq<Cell>): (r: Frame)
    requires WellFormed(f) && |col| == f.rows
    ensures WellFormed(r)
    ensures r.rows == f.rows && r.data == f.data[name := col]
    ensures name in f.columns ==> r.columns == f.columns
    ensures name !in f.columns ==> r.columns == f.columns + [name]
  {
    Frame(if name in f.columns then f.columns else f.columns + [name], f.data[name := col], f.rows)
  }

  /** `df.drop(name, axis=1)`. */
  function DropColumn(f: Frame, name: string): (r: Frame)
    requires WellFormed(f)
    ensures WellFormed(r)
    ensures r.rows == f.rows && r.data == f.data - {name}
    ensures r.columns == Without(f.columns, {name})
  {
    WithoutDistinct(f.columns, {name});
    Frame(Without(f.columns, {name}), f.data - {name}, f.rows)
  }

  // ---------------------------------------------------------------------------
  // Labels

  const CategoricalColumns: seq<string> := ["protocol_type", "service", "flag"]

  /** Replace a column, if present, by its category codes. */
  function Recode(f: Frame, name: string): (r: Frame)
    requires WellFormed(f)
    ensures WellFormed(r) && r.columns == f.columns && r.rows == f.rows
    ensures r.data.Keys == f.data.Keys
    ensures name in f.data ==> forall i :: 0 <= i < f.rows ==> r.data[name][i] == Code(f.data[name][i])
    ensures forall c :: c in f.data && c != name ==> r.data[c] == f.data[c]
  {
    if name in f.data then
      var col := f.data[name];
      SetColumn(f, name, seq(|col|, i requires 0 <= i < |col| => Code(col[i])))
    else f
  }

  function RecodeAll(f: Frame, names: seq<string>): (r: Frame)
    requires WellFormed(f)
    ensures WellFormed(r) && r.columns == f.columns && r.rows == f.rows
    decreases |names|
  {
    if names == [] then f else RecodeAll(Recode(f, names[0]), names[1..])
  }

  function LowerChar(c: char): char
  {
    if 'A' <= c <= 'Z' then (c as int + 32) as char else c
  }

  /** `str.lower()` on ASCII letters. */
  function Lower(s: string): (r: string)
    ensures |r| == |s|
    ensures forall i :: 0 <= i < |s| ==> r[i] == LowerChar(s[i])
  {
    seq(|s|, i requires 0 <= i < |s| => LowerChar(s[i]))
  }

  const DosNames: set<string> := {"dos", "ddos", "neptune", "smurf", "pod", "teardrop", "land", "back", "apache2", "mailbomb"}
  const ProbeNames: set<string> := {"probe", "satan", "ipsweep", "nmap", "portsweep", "mscan", "saint"}
  const R2lNames: set<string> := {"r2l", "guess_passwd", "ftp_write", "imap", "phf", "multihop", "warezmaster",
                                   "warezclient", "spy", "xlock", "xsnoop", "snmpguess"}
  const U2rNames: set<string> := {"u2r", "buffer_overflow", "loadmodule", "perl", "rootkit", "httptunnel", "ps",
                                   "sqlattack", "xterm"}

  /**
    The attack-category mapping on the lower-cased name: 'normal' is 0,
    the four families 1 to 4, anything unknown 0.
  */
  function AttackCategory(name: string): (c: int)
    ensures 0 <= c <= 4
    ensures c == 1 <==> Lower(name) in DosNames
    ensures c == 2 <==> Lower(name) !in DosNames && Lower(name) in ProbeNames
    ensures c == 3 <==> Lower(name) !in DosNames + ProbeNames && Lower(name) in R2lNames
    ensures c == 4 <==> Lower(name) !in DosNames + ProbeNames + R2lNames && Lower(name) in U2rNames
    ensures c == 0 <==> Lower(name) !in DosNames + ProbeNames + R2lNames + U2rNames
  {
    var n := Lower(name);
    if n in DosNames then 1
    else if n in ProbeNames then 2
    else if n in R2lNames then 3
    else if n in U2rNames then 4
    else 0
  }

  /** The four families share no name, so the order of the tests above does not matter. */
  lemma FamiliesDisjoint()
    ensures DosNames * ProbeNames == {} && DosNames * R2lNames == {} && DosNames * U2rNames == {}
    ensures ProbeNames * R2lNames == {} && ProbeNames * U2rNames == {} && R2lNames * U2rNames == {}
  {
    DosApart();
    ProbeApart();
    R2lApart();
  }

  lemma DosApart()
    ensures DosNames * ProbeNames == {} && DosNames * R2lNames == {} && DosNames * U2rNames == {}
  {
  }

  lemma ProbeApart()
    ensures ProbeNames * R2lNames == {} && ProbeNames * U2rNames == {}
  {
  }

  lemma R2lApart()
    ensures R2lNames * U2rNames == {}
  {
  }

  /** `is_attack`: 1 unless the cell is exactly the text 'normal'. */
  function IsAttack(c: Cell): (b: real)
    ensures b == 0.0 <==> c == Text("normal")
    ensures b == 1.0 <==> c != Text("normal")
  {
    if c == Text("normal") then 0.0 else 1.0
  }

  /** The comparison is case-sensitive but the mapping is not: 'Normal' is an attack of category 0. */
  lemma CapitalisedNormal()
    ensures IsAttack(Text("Normal")) == 1.0
    ensures AttackCategory("Normal") == 0
    ensures AttackCategory("NEPTUNE") == 1 && AttackCategory("Satan") == 2
  {
    NormalCategory();
    NeptuneCategory();
    SatanCategory();
  }

  lemma NormalCategory()
    ensures AttackCategory("Normal") == 0
  {
    assert Lower("Normal") == "normal";
  }

  lemma NeptuneCategory()
    ensures AttackCategory("NEPTUNE") == 1
  {
    assert Lower("NEPTUNE") == "neptune";
  }

  lemma SatanCategory()
    ensures AttackCategory("Satan") == 2
  {
    assert Lower("Satan") == "satan";
  }

  predicate AllText(col: seq<Cell>)
  {
    forall i :: 0 <= i < |col| ==> col[i].Text?
  }

  const LabelColumns: set<string> := {"attack_type", "is_attack", "attack_category"}

  /** The feature columns of a frame: its columns in order, minus the three label columns. */
  function FeatureColumnsOf(columns: seq<string>): (r: seq<string>)
    ensures forall c :: c in r <==> c in columns && c !in LabelColumns
  {
    Without(columns, LabelColumns)
  }

  /** Step 1 of `preprocess_data`: drop 'difficulty' if present; no other column goes. */
  function DropDifficulty(df: Frame): (r: Frame)
    requires WellFormed(df)
    ensures WellFormed(r) && r.rows == df.rows
    ensures r.columns == Without(df.columns, {"difficulty"})
    ensures r.data == df.data - {"difficulty"}
  {
    if "difficulty" in df.data then DropColumn(df, "difficulty")
    else WithoutNothing(df.columns, "difficulty"); df
  }

  /** Steps 1 and 2: drop 'difficulty', then recode the categorical columns in order. */
  function Cleaned(df: Frame): (r: Frame)
    requires WellFormed(df)
    ensures WellFormed(r) && r.rows == df.rows
    ensures r.columns == Without(df.columns, {"difficulty"})
  {
    RecodeAll(DropDifficulty(df), CategoricalColumns)
  }

  function IsAttackColumn(col: seq<Cell>): (r: seq<Cell>)
    ensures |r| == |col|
    ensures forall i :: 0 <= i < |col| ==> r[i] == Num(IsAttack(col[i]))
  {
    seq(|col|, i requires 0 <= i < |col| => Num(IsAttack(col[i])))
  }

  function CategoryColumn(col: seq<Cell>): (r: seq<Cell>)
    requires AllText(col)
    ensures |r| == |col|
    ensures forall i :: 0 <= i < |col| ==> r[i] == Num(AttackCategory(col[i].s) as real)
  {
    seq(|col|, i requires 0 <= i < |col| => Num(AttackCategory(col[i].s) as real))
  }

  /** Step 3: the two label columns derived from the attack names. */
  function Labelled(d: Frame, names: seq<Cell>): (r: Frame)
    requires WellFormed(d) && |names| == d.rows && AllText(names)
    ensures WellFormed(r) && r.rows == d.rows
    ensures r.data == d.data["is_attack" := IsAttackColumn(names)]["attack_category" := CategoryColumn(names)]
    ensures forall c :: c in r.columns <==> c in d.columns || c == "is_attack" || c == "attack_category"
  {
    SetColumn(SetColumn(d, "is_attack", IsAttackColumn(names)), "attack_category", CategoryColumn(names))
  }

  /**
    `preprocess_data` as a value: with an 'attack_type' column it adds
    'is_attack' and 'attack_category'; a non-text attack name makes
    `lower()` raise.
  */
  function Preprocess(df: Frame): (r: Result<Frame>)
    requires WellFormed(df)
    ensures r.Ok? ==> WellFormed(r.value) && r.value.rows == df.rows
    ensures r.Err? ==> r == Err("AttributeError")
  {
    var d := Cleaned(df);
    if "attack_type" !in d.data then Ok(d)
    else if !AllText(d.data["attack_type"]) then Err("AttributeError")
    else Ok(Labelled(d, d.data["attack_type"]))
  }

  /** Recoding and dropping 'difficulty' leave the 'attack_type' column as it was. */
  lemma CleanedKeepsAttackType(df: Frame)
    requires WellFormed(df)
    ensures "attack_type" in Cleaned(df).data <==> "attack_type" in df.data
    ensures "attack_type" in df.data ==> Cleaned(df).data["attack_type"] == df.data["attack_type"]
  {
    RecodeAllKeeps(DropDifficulty(df), CategoricalColumns, "attack_type");
  }

  lemma {:induction false} RecodeAllKeeps(f: Frame, names: seq<string>, c: string)
    requires WellFormed(f) && c !in names
    ensures c in RecodeAll(f, names).data <==> c in f.data
    ensures c in f.data ==> RecodeAll(f, names).data[c] == f.data[c]
    decreases |names|
  {
    if names != [] {
      RecodeAllKeeps(Recode(f, names[0]), names[1..], c);
    }
  }

  /** A column named once in `names` ends up as the codes of its original values. */
  lemma {:induction false} RecodeAllCodes(f: Frame, names: seq<string>, c: string, i: nat)
    requires WellFormed(f) && Distinct(names) && c in names && c in f.data && i < f.rows
    ensures c in RecodeAll(f, names).data && RecodeAll(f, names).data[c][i] == Code(f.data[c][i])
    decreases |names|
  {
    var g := Recode(f, names[0]);
    if names[0] == c {
      assert c !in names[1..];
      RecodeAllKeeps(g, names[1..], c);
    } else {
      assert c in names[1..];
      RecodeAllCodes(g, names[1..], c, i);
    }
  }

  /** After cleaning, each categorical column present holds the codes of its original values. */
  lemma CleanedCodes(df: Frame, c: string, i: nat)
    requires WellFormed(df) && c in CategoricalColumns && c in df.data && i < df.rows
    ensures c in Cleaned(df).data && Cleaned(df).data[c][i] == Code(df.data[c][i])
  {
    assert Distinct(CategoricalColumns);
    RecodeAllCodes(DropDifficulty(df), CategoricalColumns, c, i);
  }

  /** The three outcomes of `preprocess_data`, by what the 'attack_type' column holds. */
  lemma PreprocessCases(df: Frame)
    requires WellFormed(df)
    ensures "attack_type" !in df.data ==> Preprocess(df) == Ok(Cleaned(df))
    ensures "attack_type" in df.data && !AllText(df.data["attack_type"]) ==> Preprocess(df) == Err("AttributeError")
    ensures "attack_type" in df.data && AllText(df.data["attack_type"]) ==>
      Preprocess(df) == Ok(Labelled(Cleaned(df), df.data["attack_type"]))
  {
    CleanedKeepsAttackType(df);
  }

  /** Only 'difficulty' is removed, and the run fails exactly on a non-text attack name. */
  lemma PreprocessColumns(df: Frame)
    requires WellFormed(df)
    ensures Preprocess(df).Err? <==> "attack_type" in df.data && !AllText(df.data["attack_type"])
    ensures Preprocess(df).Ok? ==>
      && "difficulty" !in Preprocess(df).value.columns
      && forall c :: c in df.columns && c != "difficulty" ==> c in Preprocess(df).value.columns
    ensures Preprocess(df).Ok? && "attack_type" !in df.data ==> Preprocess(df).value.columns == Without(df.columns, {"difficulty"})
  {
    PreprocessCases(df);
    var d := Cleaned(df);
    CleanedColumns(df);
    if "attack_type" in df.data && AllText(df.data["attack_type"]) {
      LabelledColumns(d, df.data["attack_type"]);
    }
  }

  lemma CleanedColumns(df: Frame)
    requires WellFormed(df)
    ensures forall c :: c in Cleaned(df).columns <==> c in df.columns && c != "difficulty"
  {
  }

  lemma LabelledColumns(d: Frame, names: seq<Cell>)
    requires WellFormed(d) && |names| == d.rows && AllText(names)
    requires "difficulty" !in d.columns
    ensures "difficulty" !in Labelled(d, names).columns
    ensures forall c :: c in d.columns ==> c in Labelled(d, names).columns
  {
    assert "is_attack"[0] != "difficulty"[0];
    assert "attack_category"[0] != "difficulty"[0];
  }

  /** Row by row, 'is_attack' and 'attack_category' are derived from that row's attack name. */
  lemma PreprocessLabels(df: Frame, i: nat)
    requires WellFormed(df) && "attack_type" in df.data && Preprocess(df).Ok? && i < df.rows
    ensures var r := Preprocess(df).value;
      var name := df.data["attack_type"][i];
      && "is_attack" in r.data && "attack_category" in r.data && name.Text?
      && r.data["is_attack"][i] == Num(if name == Text("normal") then 0.0 else 1.0)
      && r.data["attack_category"][i] == Num(AttackCategory(name.s) as real)
  {
    CleanedKeepsAttackType(df);
    var d := Cleaned(df);
    var names := d.data["attack_type"];
    assert Preprocess(df).value.data == d.data["is_attack" := IsAttackColumn(names)]["attack_category" := CategoryColumn(names)];
  }

  // ---------------------------------------------------------------------------
  // Feature extraction

  predicate NumericColumn(col: seq<Cell>)
  {
    forall i :: 0 <= i < |col| ==> col[i].Num?
  }

  /** `df[cols]`: the listed columns in the listed order; a missing one raises KeyError. */
  function Select(df: Frame, cols: seq<string>): (r: Result<Frame>)
    requires WellFormed(df) && Distinct(cols)
    ensures r.Err? <==> exists c :: c in cols && c !in df.data
    ensures r.Ok? ==> WellFormed(r.value) && r.value.columns == cols && r.value.rows == df.rows
    ensures r.Ok? ==> forall c :: c in cols ==> r.value.data[c] == df.data[c]
  {
    if forall c :: c in cols ==> c in df.data then
      Ok(Frame(cols, map c | c in cols :: df.data[c], df.rows))
    else Err("KeyError")
  }

  /** Element-wise `a + b` of two numeric columns. */
  function SumColumn(a: seq<Cell>, b: seq<Cell>): (r: seq<Cell>)
    requires |a| == |b| && NumericColumn(a) && NumericColumn(b)
    ensures |r| == |a|
  {
    seq(|a|, i requires 0 <= i < |a| => Num(a[i].x + b[i].x))
  }

  /** Element-wise `a / (b + 1)` of two numeric columns. */
  function RatioColumn(a: seq<Cell>, b: seq<Cell>): (r: seq<Cell>)
    requires |a| == |b| && NumericColumn(a) && NumericColumn(b)
    ensures |r| == |a|
  {
    seq(|a|, i requires 0 <= i < |a| => Ratio(a[i].x, b[i].x + 1.0))
  }

  /** `bytes_ratio` and `total_bytes`, when both byte columns exist; non-numeric bytes raise TypeError. */
  function AddByteFeatures(x: Frame): (r: Result<Frame>)
    requires WellFormed(x)
    ensures r.Ok? ==> WellFormed(r.value) && r.value.rows == x.rows
    ensures !("src_bytes" in x.data && "dst_bytes" in x.data) ==> r == Ok(x)
    ensures r.Ok? ==> forall c {:trigger r.value.data[c]} :: c in x.data && c != "bytes_ratio" && c != "total_bytes" ==> c in r.value.data && r.value.data[c] == x.data[c]
  {
    if "src_bytes" in x.data && "dst_bytes" in x.data then
      var src := x.data["src_bytes"];
      var dst := x.data["dst_bytes"];
      if !(NumericColumn(src) && NumericColumn(dst)) then Err("TypeError")
      else Ok(SetColumn(SetColumn(x, "bytes_ratio", RatioColumn(src, dst)), "total_bytes", SumColumn(src, dst)))
    else Ok(x)
  }

  /** `srv_count_ratio`, when both count columns exist; non-numeric counts raise TypeError. */
  function AddCountFeatures(x: Frame): (r: Result<Frame>)
    requires WellFormed(x)
    ensures r.Ok? ==> WellFormed(r.value) && r.value.rows == x.rows
    ensures !("count" in x.data && "srv_count" in x.data) ==> r == Ok(x)
    ensures r.Ok? ==> forall c {:trigger r.value.data[c]} :: c in x.data && c != "srv_count_ratio" ==> c in r.value.data && r.value.data[c] == x.data[c]
  {
    if "count" in x.data && "srv_count" in x.data then
      var count := x.data["count"];
      var srv := x.data["srv_count"];
      if !(NumericColumn(count) && NumericColumn(srv)) then Err("TypeError")
      else Ok(SetColumn(x, "srv_count_ratio", RatioColumn(srv, count)))
    else Ok(x)
  }

  /**
    The byte features: each row's total is the sum of its two byte counts,
    its ratio is src over dst + 1, and every other column keeps its values.
  */
  lemma ByteFeatures(x: Frame)
    requires WellFormed(x) && "src_bytes" in x.data && "dst_bytes" in x.data
    ensures AddByteFeatures(x).Ok? <==> NumericColumn(x.data["src_bytes"]) && NumericColumn(x.data["dst_bytes"])
    ensures AddByteFeatures(x).Ok? ==>
      var r := AddByteFeatures(x).value;
      && "total_bytes" in r.data && "bytes_ratio" in r.data
      && (forall i :: 0 <= i < x.rows ==>
            && r.data["total_bytes"][i] == Num(x.data["src_bytes"][i].x + x.data["dst_bytes"][i].x)
            && r.data["bytes_ratio"][i] == Ratio(x.data["src_bytes"][i].x, x.data["dst_bytes"][i].x + 1.0))
      && (forall c :: c in x.data && c != "bytes_ratio" && c != "total_bytes" ==> c in r.data && r.data[c] == x.data[c])
  {
    var src, dst := x.data["src_bytes"], x.data["dst_bytes"];
    if NumericColumn(src) && NumericColumn(dst) {
      ByteRows(x, AddByteFeatures(x).value);
    }
  }

  lemma ByteRows(x: Frame, r: Frame)
    requires WellFormed(x) && "src_bytes" in x.data && "dst_bytes" in x.data
    requires NumericColumn(x.data["src_bytes"]) && NumericColumn(x.data["dst_bytes"])
    requires r == SetColumn(SetColumn(x, "bytes_ratio", RatioColumn(x.data["src_bytes"], x.data["dst_bytes"])),
                            "total_bytes", SumColumn(x.data["src_bytes"], x.data["dst_bytes"]))
    ensures "total_bytes" in r.data && "bytes_ratio" in r.data
    ensures forall i :: 0 <= i < x.rows ==>
      && r.data["total_bytes"][i] == Num(x.data["src_bytes"][i].x + x.data["dst_bytes"][i].x)
      && r.data["bytes_ratio"][i] == Ratio(x.data["src_bytes"][i].x, x.data["dst_bytes"][i].x + 1.0)
  {
  }

  /**
    The count feature: each row's 'srv_count_ratio' is its srv_count over
    count + 1, and every other column keeps its values.
  */
  lemma CountFeatures(x: Frame)
    requires WellFormed(x) && "count" in x.data && "srv_count" in x.data
    ensures AddCountFeatures(x).Ok? <==> NumericColumn(x.data["count"]) && NumericColumn(x.data["srv_count"])
    ensures AddCountFeatures(x).Ok? ==>
      var r := AddCountFeatures(x).value;
      && "srv_count_ratio" in r.data
      && (forall i :: 0 <= i < x.rows ==>
            r.data["srv_count_ratio"][i] == Ratio(x.data["srv_count"][i].x, x.data["count"][i].x + 1.0))
      && (forall c :: c in x.data && c != "srv_count_ratio" ==> c in r.data && r.data[c] == x.data[c])
  {
  }

  /** `extract_features` once the feature columns are fixed. */
  function Extract(df: Frame, cols: seq<string>): (r: Result<Frame>)
    requires WellFormed(df) && Distinct(cols)
    ensures r.Ok? ==> forall c :: c in cols ==> c in df.data && c in r.value.data
    ensures r.Ok? ==> forall c :: c in cols && c != "bytes_ratio" && c != "total_bytes" && c != "srv_count_ratio" ==>
      r.value.data[c] == df.data[c]
  {
    match Select(df, cols)
    case Err(e) => Err(e)
    case Ok(x) =>
      match AddByteFeatures(x)
      case Err(e) => Err(e)
      case Ok(y) => AddCountFeatures(y)
  }

  /** Without both byte columns selected no 'total_bytes' is made (unless it was itself selected). */
  lemma TotalBytesOnlyWhenBoth(df: Frame, cols: seq<string>)
    requires WellFormed(df) && Distinct(cols) && Extract(df, cols).Ok?
    requires "total_bytes" !in cols
    ensures "total_bytes" in Extract(df, cols).value.data <==> "src_bytes" in cols && "dst_bytes" in cols
  {
    var x := Select(df, cols).value;
    if "src_bytes" in cols && "dst_bytes" in cols {
      ByteFeatures(x);
    }
  }

  class DataProcessor {
    var featureColumns: Option<seq<string>>

    /** Stored feature columns never repeat a name. */
    ghost predicate Valid()
      reads this
    {
      featureColumns.Some? ==> Distinct(featureColumns.value)
    }

    constructor ()
      ensures Valid() && featureColumns == None
    {
      featureColumns := None;
    }

    /**
      `preprocess_data`: the frame as Preprocess computes it; the feature
      columns are stored only when there is an 'attack_type' column and
      the labels were derived.
    */
    method PreprocessData(df: Frame) returns (r: Result<Frame>)
      requires WellFormed(df) && Valid()
      modifies this`featureColumns
      ensures Valid()
      ensures r == Preprocess(df)
      ensures featureColumns == if r.Ok? && "attack_type" in df.data then Some(FeatureColumnsOf(r.value.columns))
                                else old(featureColumns)
    {
      var d := DropDifficulty(df);
      ghost var d1 := d;
      for k := 0 to |CategoricalColumns|
        invariant WellFormed(d)
        invariant RecodeAll(d1, CategoricalColumns) == RecodeAll(d, CategoricalColumns[k..])
      {
        assert CategoricalColumns[k..][1..] == CategoricalColumns[k + 1..];
        d := Recode(d, CategoricalColumns[k]);
      }
      assert CategoricalColumns[|CategoricalColumns|..] == [];
      assert d == Cleaned(df);
      CleanedKeepsAttackType(df);
      PreprocessCases(df);
      if "attack_type" in d.data {
        var col := d.data["attack_type"];
        if !AllText(col) {
          return Err("AttributeError");
        }
        d := Labelled(d, col);
        WithoutDistinct(d.columns, LabelColumns);
        featureColumns := Some(FeatureColumnsOf(d.columns));
      }
      r := Ok(d);
    }

    /**
      `extract_features`: the feature columns are fixed from this frame
      only when none are stored yet; then the selected frame gains the
      engineered columns.
    */
    method ExtractFeatures(df: Frame) returns (r: Result<Frame>)
      requires WellFormed(df) && Valid()
      modifies this`featureColumns
      ensures Valid()
      ensures old(featureColumns).Some? ==> featureColumns == old(featureColumns)
      ensures old(featureColumns).None? ==> featureColumns == Some(FeatureColumnsOf(df.columns))
      ensures r == Extract(df, featureColumns.value)
    {
      if featureColumns.None? {
        WithoutDistinct(df.columns, LabelColumns);
        featureColumns := Some(FeatureColumnsOf(df.columns));
      }
      r := Extract(df, featureColumns.value);
    }
  }
}
