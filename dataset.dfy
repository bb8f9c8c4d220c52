/**
 * The dataset bookkeeping of `src/dataset.py`. A CSV file is a sequence of
 * rows (the `csv` module's quoting is taken to round-trip every field); the
 * data directory is a map from path to file. `DatasetCreator` writes the
 * sample dataset and appends custom pairs; `TextImageDataset.load_data`
 * reads a file back the way `csv.DictReader` does.
 */
module Dataset {
  import opened Text
  import opened Files
  import opened Wrappers
  import opened Colors

  type Row = seq<string>

  const Header: Row := ["text", "image_path", "category"]
  const CsvName := "dataset.csv"

  // ---------------------------------------------------------------- csv.DictReader

  /** The rows `DictReader` yields: every row but completely empty ones. */
  function NonBlank(rows: seq<Row>): (r: seq<Row>)
    ensures |r| <= |rows|
    ensures forall k :: 0 <= k < |r| ==> r[k] != []
  {
    if rows == [] then []
    else NonBlank(rows[..|rows| - 1]) + (if rows[|rows| - 1] == [] then [] else [rows[|rows| - 1]])
  }

  /** No row survives exactly when every row is empty. */
  lemma {:induction false} NonBlankEmpty(rows: seq<Row>)
    ensures NonBlank(rows) == [] <==> forall k :: 0 <= k < |rows| ==> rows[k] == []
  {
    if rows != [] {
      var init := rows[..|rows| - 1];
      NonBlankEmpty(init);
      assert forall k :: 0 <= k < |init| ==> init[k] == rows[k];
    }
  }

  /** The data rows of a file: the first row is the header, blank rows are skipped. */
  function DataRows(file: seq<Row>): (rows: seq<Row>)
    ensures rows != [] ==> file != []
  {
    if file == [] then [] else NonBlank(file[1..])
  }

  /** A parsed record: a field is `None` when the row is too short to hold it. */
  datatype Record = Record(text: Option<string>, imagePath: Option<string>)

  /** The last column named `key`: later duplicates overwrite earlier ones in the row dict. */
  function LastIndexOf(header: Row, key: string): (j: nat)
    requires key in header
    ensures j < |header| && header[j] == key
    ensures forall k :: j < k < |header| ==> header[k] != key
  {
    if header[|header| - 1] == key then |header| - 1
    else LastIndexOf(header[..|header| - 1], key)
  }

  /** `row[key]` of the row dict, for a key the header holds. */
  function FieldOf(header: Row, row: Row, key: string): (f: Option<string>)
    requires key in header
    ensures f.Some? <==> LastIndexOf(header, key) < |row|
    ensures f.Some? ==> f.value == row[LastIndexOf(header, key)]
  {
    var j := LastIndexOf(header, key);
    if j < |row| then Some(row[j]) else None
  }

  predicate HasKeys(header: Row) {
    "text" in header && "image_path" in header
  }

  function RecordOf(header: Row, row: Row): Record
    requires HasKeys(header)
  {
    Record(FieldOf(header, row, "text"), FieldOf(header, row, "image_path"))
  }

  /** One record per row, in order. */
  function RecordsOf(header: Row, rows: seq<Row>): (r: seq<Record>)
    requires HasKeys(header)
    ensures |r| == |rows|
    ensures forall k :: 0 <= k < |rows| ==> r[k] == RecordOf(header, rows[k])
  {
    if rows == [] then [] else RecordsOf(header, rows[..|rows| - 1]) + [RecordOf(header, rows[|rows| - 1])]
  }

  /**
   * `load_data` on an existing file: a `KeyError` on the first data row when
   * the header lacks `text` (checked first) or `image_path`; otherwise one
   * record per data row. A file without data rows never raises.
   */
  function LoadRows(file: seq<Row>): (r: Result<seq<Record>, string>)
    ensures DataRows(file) == [] ==> r == Ok([])
    ensures r.Ok? ==> |r.value| == |DataRows(file)|
    ensures r.Ok? && DataRows(file) != [] ==> HasKeys(file[0]) && r.value == RecordsOf(file[0], DataRows(file))
    ensures r.Err? <==> DataRows(file) != [] && !HasKeys(file[0])
  {
    var rows := DataRows(file);
    if rows == [] then Ok([])
    else if "text" !in file[0] then Err("KeyError: 'text'")
    else if "image_path" !in file[0] then Err("KeyError: 'image_path'")
    else Ok(RecordsOf(file[0], rows))
  }

  /** `load_data`: a missing file gives no records. */
  function Load(csvs: map<string, seq<Row>>, dataFile: string): (r: Result<seq<Record>, string>)
    ensures dataFile !in csvs ==> r == Ok([])
  {
    if dataFile in csvs then LoadRows(csvs[dataFile]) else Ok([])
  }

  /** The reading loop of `load_data`; `__len__` is the length of its result. */
  method LoadData(csvs: map<string, seq<Row>>, dataFile: string) returns (r: Result<seq<Record>, string>)
    ensures r == Load(csvs, dataFile)
  {
    if dataFile !in csvs {
      return Ok([]);
    }
    var file := csvs[dataFile];
    if file == [] {
      return Ok([]);
    }
    r := ReadRows(file);
  }

  /** The `csv.DictReader` loop over a file with a header line. */
  method ReadRows(file: seq<Row>) returns (r: Result<seq<Record>, string>)
    requires file != []
    ensures r == LoadRows(file)
  {
    var header := file[0];
    var rows := file[1..];
    var hasText, hasPath := "text" in header, "image_path" in header;
    var data: seq<Record> := [];
    ghost var kept: seq<Row> := [];
    for i := 0 to |rows|
      invariant kept == NonBlank(rows[..i])
      invariant kept != [] ==> hasText && hasPath
      invariant hasText && hasPath ==> data == RecordsOf(header, kept)
      invariant !(hasText && hasPath) ==> data == []
    {
      NonBlankNext(rows, i);
      var row := rows[i];
      if row != [] {
        if !hasText {
          LoadFails(file, i);
          return Err("KeyError: 'text'");
        }
        if !hasPath {
          LoadFails(file, i);
          return Err("KeyError: 'image_path'");
        }
        RecordsOfSnoc(header, kept, row);
        data := data + [RecordOf(header, row)];
        kept := kept + [row];
      }
    }
    LoadAll(file, data);
    r := Ok(data);
  }

  /** A non-empty data row under a header without both keys makes loading fail with the first missing key. */
  lemma LoadFails(file: seq<Row>, i: nat)
    requires file != [] && i < |file| - 1 && file[1..][i] != [] && !HasKeys(file[0])
    ensures LoadRows(file) == if "text" !in file[0] then Err("KeyError: 'text'") else Err("KeyError: 'image_path'")
  {
    NonBlankHas(file[1..], i);
  }

  /** Once every row is read, the records gathered are those `LoadRows` gives. */
  lemma LoadAll(file: seq<Row>, data: seq<Record>)
    requires file != []
    requires NonBlank(file[1..][..|file| - 1]) != [] ==> HasKeys(file[0])
    requires HasKeys(file[0]) ==> data == RecordsOf(file[0], NonBlank(file[1..][..|file| - 1]))
    requires !HasKeys(file[0]) ==> data == []
    ensures LoadRows(file) == Ok(data)
  {
    assert file[1..][..|file| - 1] == file[1..];
  }

  /** Reading one more row keeps it when it is not empty. */
  lemma NonBlankNext(rows: seq<Row>, i: nat)
    requires i < |rows|
    ensures NonBlank(rows[..i + 1]) == NonBlank(rows[..i]) + (if rows[i] == [] then [] else [rows[i]])
  {
    assert rows[..i + 1][..i] == rows[..i];
  }

  /** A non-empty row makes the data rows non-empty. */
  lemma NonBlankHas(rows: seq<Row>, i: nat)
    requires i < |rows| && rows[i] != []
    ensures NonBlank(rows) != []
  {
    NonBlankEmpty(rows);
  }

  // ---------------------------------------------------------------- DatasetCreator: sample data

  /** One of the four sample pairs: prompt and category. */
  datatype Sample = Sample(text: string, category: string)

  const Samples: seq<Sample> := [
    Sample("a cute dog playing in the park", "animal"),
    Sample("a professional portrait of a human", "human"),
    Sample("a beautiful landscape with mountains", "landscape"),
    Sample("a modern car on the street", "vehicle")
  ]

  /** `f"sample_{i+1}.jpg"`. */
  function SampleName(i: nat): string {
    "sample_" + NatToString(i + 1) + ".jpg"
  }

  function SampleRow(i: nat): Row
    requires i < |Samples|
  {
    [Samples[i].text, SampleName(i), Samples[i].category]
  }

  /** The header and the first `n` sample rows. */
  function SampleTable(n: nat): (t: seq<Row>)
    requires n <= |Samples|
    ensures |t| == n + 1 && t[0] == Header
    ensures forall i :: 0 <= i < n ==> t[i + 1] == SampleRow(i)
  {
    if n == 0 then [Header] else SampleTable(n - 1) + [SampleRow(n - 1)]
  }

  /** A placeholder image: its caption and fill colour. */
  datatype ImageFile = Placeholder(caption: string, color: Rgb) | External(origin: string)

  datatype PlaceholderSpec = PlaceholderSpec(name: string, caption: string, color: Rgb)

  const Placeholders: seq<PlaceholderSpec> := [
    PlaceholderSpec("sample_1.jpg", "DOG", Rgb(255, 200, 200)),
    PlaceholderSpec("sample_2.jpg", "HUMAN", Rgb(200, 255, 200)),
    PlaceholderSpec("sample_3.jpg", "LANDSCAPE", Rgb(200, 200, 255)),
    PlaceholderSpec("sample_4.jpg", "CAR", Rgb(255, 255, 200))
  ]

  /** The placeholders also saved for validation. */
  const ValidationNames: seq<string> := ["sample_1.jpg", "sample_2.jpg"]

  /** The writes of one placeholder: always to train, to validation for the first two names. */
  function WritePlaceholder(m: map<string, ImageFile>, trainDir: string, valDir: string, p: PlaceholderSpec): map<string, ImageFile> {
    var img := Placeholder(p.caption, p.color);
    var m1 := m[PathJoin(trainDir, p.name) := img];
    if p.name in ValidationNames then m1[PathJoin(valDir, p.name) := img] else m1
  }

  /** The paths one placeholder is saved to. */
  function PathsOf(trainDir: string, valDir: string, p: PlaceholderSpec): set<string> {
    {PathJoin(trainDir, p.name)} + (if p.name in ValidationNames then {PathJoin(valDir, p.name)} else {})
  }

  /** The paths the placeholders `ps` are saved to. */
  function WrittenPaths(trainDir: string, valDir: string, ps: seq<PlaceholderSpec>): set<string> {
    if ps == [] then {}
    else WrittenPaths(trainDir, valDir, ps[..|ps| - 1]) + PathsOf(trainDir, valDir, ps[|ps| - 1])
  }

  /** The image files after writing the placeholders `ps` in order. */
  function WritePlaceholders(m: map<string, ImageFile>, trainDir: string, valDir: string, ps: seq<PlaceholderSpec>): (r: map<string, ImageFile>)
    ensures r.Keys == m.Keys + WrittenPaths(trainDir, valDir, ps)
  {
    if ps == [] then m
    else WritePlaceholder(WritePlaceholders(m, trainDir, valDir, ps[..|ps| - 1]), trainDir, valDir, ps[|ps| - 1])
  }

  /** Writing the placeholders up to `k + 1` is writing those up to `k`, then placeholder `k`. */
  lemma WritePlaceholdersNext(m: map<string, ImageFile>, trainDir: string, valDir: string, ps: seq<PlaceholderSpec>, k: nat)
    requires k < |ps|
    ensures WritePlaceholders(m, trainDir, valDir, ps[..k + 1])
         == WritePlaceholder(WritePlaceholders(m, trainDir, valDir, ps[..k]), trainDir, valDir, ps[k])
  {
    assert ps[..k + 1][..k] == ps[..k];
  }

  /** `DatasetCreator`: the train and validation directories and the files under them. */
  class DatasetCreator {
    const baseDir: string
    const trainDir: string
    const valDir: string
    /** CSV files by path. */
    var csvs: map<string, seq<Row>>
    /** Image files by path. */
    var images: map<string, ImageFile>

    /** The two directories under `base_dir`, over an existing file system. */
    constructor (baseDir: string, csvs: map<string, seq<Row>>, images: map<string, ImageFile>)
      ensures this.baseDir == baseDir
      ensures trainDir == PathJoin(baseDir, "train") && valDir == PathJoin(baseDir, "validation")
      ensures this.csvs == csvs && this.images == images
    {
      this.baseDir := baseDir;
      trainDir := PathJoin(baseDir, "train");
      valDir := PathJoin(baseDir, "validation");
      this.csvs := csvs;
      this.images := images;
    }

    function TrainCsv(): string reads this { PathJoin(trainDir, CsvName) }
    function ValCsv(): string reads this { PathJoin(valDir, CsvName) }

    /** Writes one CSV: the header, then the first `n` samples. */
    method WriteSampleCsv(path: string, n: nat)
      requires n <= |Samples|
      modifies this
      ensures csvs == old(csvs)[path := SampleTable(n)]
      ensures images == old(images)
    {
      var rows: seq<Row> := [Header];
      for i := 0 to n
        invariant rows == SampleTable(i)
      {
        var imageName := "sample_" + NatToString(i + 1) + ".jpg";
        rows := rows + [[Samples[i].text, imageName, Samples[i].category]];
      }
      csvs := csvs[path := rows];
    }

    /** `create_sample_dataset`: both CSVs, then the placeholder images. */
    method CreateSampleDataset() returns (trainCsv: string, valCsv: string)
      modifies this
      ensures trainCsv == TrainCsv() && valCsv == ValCsv()
      ensures csvs == old(csvs)[trainCsv := SampleTable(4)][valCsv := SampleTable(2)]
      ensures images == WritePlaceholders(old(images), trainDir, valDir, Placeholders)
    {
      trainCsv := PathJoin(trainDir, CsvName);
      WriteSampleCsv(trainCsv, 4);
      valCsv := PathJoin(valDir, CsvName);
      WriteSampleCsv(valCsv, 2);
      CreatePlaceholderImages();
    }

    /** `create_placeholder_images`. */
    method CreatePlaceholderImages()
      modifies this
      ensures images == WritePlaceholders(old(images), trainDir, valDir, Placeholders)
      ensures csvs == old(csvs)
    {
      for k := 0 to |Placeholders|
        invariant images == WritePlaceholders(old(images), trainDir, valDir, Placeholders[..k])
        invariant csvs == old(csvs)
      {
        WritePlaceholdersNext(old(images), trainDir, valDir, Placeholders, k);
        var p := Placeholders[k];
        var img := Placeholder(p.caption, p.color);
        images := images[PathJoin(trainDir, p.name) := img];
        if p.name in ValidationNames {
          images := images[PathJoin(valDir, p.name) := img];
        }
      }
      assert Placeholders[..|Placeholders|] == Placeholders;
    }

    /**
     * `add_custom_data`: choose the CSV by split, number the image after the
     * existing data rows, copy the image (which fails for a missing source,
     * before anything is written), then append the row.
     */
    method AddCustomData(textPrompt: string, imagePath: string, split: string) returns (r: Result<string, string>)
      modifies this
      ensures var dir := if split == "train" then trainDir else valDir;
              var csv := PathJoin(dir, CsvName);
              var existing := if csv in old(csvs) then old(csvs)[csv] else [];
              var name := CustomName(|DataRows(existing)| + 1);
              if imagePath in old(images) then
                && r == Ok(name)
                && images == old(images)[PathJoin(dir, name) := old(images)[imagePath]]
                && csvs == old(csvs)[csv := AppendCustom(existing, textPrompt, name)]
              else
                && r == Err("FileNotFoundError: " + imagePath)
                && images == old(images) && csvs == old(csvs)
    {
      var csvFile := PathJoin(if split == "train" then trainDir else valDir, CsvName);
      var existing: seq<Row> := [];
      if csvFile in csvs {
        existing := csvs[csvFile];
      }
      var existingData := DataRows(existing);
      var nextId := |existingData| + 1;
      var imageName := "custom_" + NatToString(nextId) + ".jpg";
      var targetDir := if split == "train" then trainDir else valDir;
      var targetPath := PathJoin(targetDir, imageName);
      if imagePath !in images {
        return Err("FileNotFoundError: " + imagePath);
      }
      images := images[targetPath := images[imagePath]];
      var appended := existing;
      if existingData == [] {
        appended := appended + [Header];
      }
      appended := appended + [[textPrompt, imageName, "custom"]];
      csvs := csvs[csvFile := appended];
      return Ok(imageName);
    }
  }

  // ---------------------------------------------------------------- add_custom_data: the appended file

  /** `f"custom_{k}.jpg"`. */
  function CustomName(k: nat): string {
    "custom_" + NatToString(k) + ".jpg"
  }

  /** The row `add_custom_data` appends. */
  function CustomRow(text: string, name: string): Row {
    [text, name, "custom"]
  }

  /**
   * The file after the append as the source writes it: a header first when
   * the file had no data rows, which includes a file holding only a header.
   */
  function AppendCustom(file: seq<Row>, text: string, name: string): (r: seq<Row>)
    ensures |r| > |file| && r[..|file|] == file && r[|r| - 1] == CustomRow(text, name)
    ensures |r| == |file| + 2 <==> DataRows(file) == []
  {
    file + (if DataRows(file) == [] then [Header] else []) + [CustomRow(text, name)]
  }

  /**
   * The evidently intended append: a header only when the file is new or
   * empty, so that the file always has exactly one header.
   */
  function AppendCustomFixed(file: seq<Row>, text: string, name: string): (r: seq<Row>)
    ensures |r| > |file| && r[..|file|] == file && r[|r| - 1] == CustomRow(text, name)
    ensures |r| == |file| + 2 <==> file == []
  {
    file + (if file == [] then [Header] else []) + [CustomRow(text, name)]
  }

  lemma HeaderKeys()
    ensures HasKeys(Header)
    ensures LastIndexOf(Header, "text") == 0 && LastIndexOf(Header, "image_path") == 1
  {
    assert Header[2] != "text" && Header[1] != "text";
    assert Header[2] != "image_path";
  }

  /** Appending a non-empty row adds exactly that row to the data rows. */
  lemma DataRowsSnoc(file: seq<Row>, row: Row)
    requires file != [] && row != []
    ensures DataRows(file + [row]) == DataRows(file) + [row]
  {
    assert (file + [row])[1..] == file[1..] + [row];
    assert (file[1..] + [row])[..|file[1..]|] == file[1..];
  }

  lemma RecordsOfSnoc(header: Row, rows: seq<Row>, row: Row)
    requires HasKeys(header)
    ensures RecordsOf(header, rows + [row]) == RecordsOf(header, rows) + [RecordOf(header, row)]
  {
    assert (rows + [row])[..|rows|] == rows;
  }

  /**
   * The corrected append adds exactly one record: loading the file after
   * the append gives the records before it and the new pair, whenever the
   * file is new, empty or carries the standard header.
   */
  lemma LoadAfterAppendFixed(file: seq<Row>, text: string, name: string)
    requires file == [] || file[0] == Header
    ensures LoadRows(file).Ok?
    ensures LoadRows(AppendCustomFixed(file, text, name))
            == Ok(LoadRows(file).value + [Record(Some(text), Some(name))])
  {
    HeaderKeys();
    var after := AppendCustomFixed(file, text, name);
    var row := CustomRow(text, name);
    assert RecordOf(Header, row) == Record(Some(text), Some(name));
    if file == [] {
      assert after == [Header, row];
      assert after[1..] == [row];
      assert NonBlank([row]) == NonBlank([row][..0]) + [row];
      RecordsOfSnoc(Header, [], row);
    } else {
      assert after == file + [row];
      DataRowsSnoc(file, row);
      RecordsOfSnoc(Header, DataRows(file), row);
    }
  }

  /**
   * As written, a file holding only the header gets a second header, which
   * loads back as a bogus record ("text", "image_path") next to the new
   * pair.
   */
  lemma HeaderOnlyFileGainsBogusRecord(text: string, name: string)
    ensures LoadRows(AppendCustom([Header], text, name))
            == Ok([Record(Some("text"), Some("image_path")), Record(Some(text), Some(name))])
    ensures LoadRows([Header]) == Ok([])
  {
    HeaderKeys();
    var row := CustomRow(text, name);
    var after := AppendCustom([Header], text, name);
    assert DataRows([Header]) == [] by {
      assert [Header][1..] == [];
    }
    assert after == [Header, Header, row];
    assert after[1..] == [Header, row];
    assert NonBlank([Header]) == [Header] by {
      assert [Header][..0] == [];
    }
    assert NonBlank([Header, row]) == NonBlank([Header]) + [row] by {
      assert [Header, row][..1] == [Header];
    }
    assert DataRows(after) == [Header, row];
    assert RecordOf(Header, Header) == Record(Some("text"), Some("image_path"));
    assert RecordOf(Header, row) == Record(Some(text), Some(name));
    RecordsOfSnoc(Header, [Header], row);
    assert RecordsOf(Header, [Header]) == [RecordOf(Header, Header)] by {
      RecordsOfSnoc(Header, [], Header);
      assert [] + [Header] == [Header];
    }
    assert [Header, row] == [Header] + [row];
    assert RecordsOf(Header, [Header, row]) == [RecordOf(Header, Header), RecordOf(Header, row)];
    assert after[0] == Header;
    assert LoadRows(after) == Ok(RecordsOf(Header, [Header, row]));
  }

  /**
   * On files whose data rows exist the source and the corrected append
   * coincide, so the as-written append also adds exactly one record there.
   */
  lemma AppendAgreesWithFixed(file: seq<Row>, text: string, name: string)
    requires DataRows(file) != []
    ensures AppendCustom(file, text, name) == AppendCustomFixed(file, text, name)
  {
  }

  /** The sample train file loads as four records naming sample_1.jpg to sample_4.jpg. */
  lemma LoadSampleTable(n: nat)
    requires n <= |Samples|
    ensures LoadRows(SampleTable(n)).Ok?
    ensures |LoadRows(SampleTable(n)).value| == n
    ensures forall i :: 0 <= i < n ==>
              LoadRows(SampleTable(n)).value[i] == Record(Some(Samples[i].text), Some(SampleName(i)))
  {
    HeaderKeys();
    var t := SampleTable(n);
    SampleDataRows(n);
    var recs := LoadRows(t).value;
    assert recs == RecordsOf(Header, t[1..]);
    forall i | 0 <= i < n
      ensures recs[i] == Record(Some(Samples[i].text), Some(SampleName(i)))
    {
      assert t[1..][i] == SampleRow(i);
      assert recs[i] == RecordOf(Header, SampleRow(i));
    }
  }

  lemma {:induction false} SampleDataRows(n: nat)
    requires n <= |Samples|
    ensures DataRows(SampleTable(n)) == SampleTable(n)[1..]
  {
    if n > 0 {
      SampleDataRows(n - 1);
      var t := SampleTable(n - 1);
      DataRowsSnoc(t, SampleRow(n - 1));
      if n - 1 == 0 {
        assert DataRows(t) == [] by { assert t[1..] == []; }
      }
      assert SampleTable(n)[1..] == t[1..] + [SampleRow(n - 1)];
    }
  }

  /** The validation file is the train file cut after its second sample. */
  lemma ValidationIsTrainPrefix()
    ensures SampleTable(2) == SampleTable(4)[..3]
  {
  }

  /** The six files the placeholders produce: four in train, the first two in validation. */
  lemma PlaceholderPaths(trainDir: string, valDir: string)
    ensures WrittenPaths(trainDir, valDir, Placeholders)
            == {PathJoin(trainDir, "sample_1.jpg"), PathJoin(valDir, "sample_1.jpg"),
                PathJoin(trainDir, "sample_2.jpg"), PathJoin(valDir, "sample_2.jpg"),
                PathJoin(trainDir, "sample_3.jpg"), PathJoin(trainDir, "sample_4.jpg")}
  {
    var t1, v1 := PathJoin(trainDir, "sample_1.jpg"), PathJoin(valDir, "sample_1.jpg");
    var t2, v2 := PathJoin(trainDir, "sample_2.jpg"), PathJoin(valDir, "sample_2.jpg");
    var t3, t4 := PathJoin(trainDir, "sample_3.jpg"), PathJoin(trainDir, "sample_4.jpg");
    assert WrittenPaths(trainDir, valDir, Placeholders[..1]) == {t1, v1} by {
      WrittenStep(trainDir, valDir, 0);
    }
    assert WrittenPaths(trainDir, valDir, Placeholders[..2]) == {t1, v1, t2, v2} by {
      WrittenStep(trainDir, valDir, 1);
    }
    assert WrittenPaths(trainDir, valDir, Placeholders[..3]) == {t1, v1, t2, v2, t3} by {
      WrittenStep(trainDir, valDir, 2);
    }
    assert WrittenPaths(trainDir, valDir, Placeholders[..4]) == {t1, v1, t2, v2, t3, t4} by {
      WrittenStep(trainDir, valDir, 3);
    }
    assert Placeholders[..4] == Placeholders;
  }

  lemma WrittenStep(trainDir: string, valDir: string, k: nat)
    requires k < 4
    ensures WrittenPaths(trainDir, valDir, Placeholders[..k + 1])
            == WrittenPaths(trainDir, valDir, Placeholders[..k]) + PathsOf(trainDir, valDir, Placeholders[k])
    ensures k == 0 ==> WrittenPaths(trainDir, valDir, Placeholders[..k]) == {}
    ensures PathsOf(trainDir, valDir, Placeholders[k])
            == {PathJoin(trainDir, Placeholders[k].name)}
               + (if k < 2 then {PathJoin(valDir, Placeholders[k].name)} else {})
  {
    var ps := Placeholders[..k + 1];
    assert ps[..k] == Placeholders[..k] && ps[k] == Placeholders[k];
    assert Placeholders[k].name in ValidationNames <==> k < 2;
  }

  /**
   * Every image a sample CSV names exists in that CSV's directory once the
   * placeholders are written.
   */
  lemma SampleImagesExist(m: map<string, ImageFile>, trainDir: string, valDir: string, i: nat)
    requires i < 4
    ensures PathJoin(trainDir, SampleName(i)) in WritePlaceholders(m, trainDir, valDir, Placeholders)
    ensures i < 2 ==> PathJoin(valDir, SampleName(i)) in WritePlaceholders(m, trainDir, valDir, Placeholders)
  {
    PlaceholderPaths(trainDir, valDir);
    assert SampleName(i) == Placeholders[i].name by {
      assert NatToString(i + 1) == [DigitChar(i + 1)];
    }
  }

  /** The train and validation directories share no path. */
  lemma TrainValDisjoint(baseDir: string, a: string, b: string)
    requires a != [] && a[0] != '/' && b != [] && b[0] != '/'
    ensures PathJoin(PathJoin(baseDir, "train"), a) != PathJoin(PathJoin(baseDir, "validation"), b)
  {
    var pre := if baseDir == [] || baseDir[|baseDir| - 1] == '/' then baseDir else baseDir + "/";
    var t := PathJoin(baseDir, "train");
    var v := PathJoin(baseDir, "validation");
    assert t == pre + "train" && v == pre + "validation";
    assert PathJoin(t, a) == t + "/" + a;
    assert PathJoin(v, b) == v + "/" + b;
    assert PathJoin(t, a)[|pre|] == 't';
    assert PathJoin(v, b)[|pre|] == 'v';
  }

  /**
   * Only the first two placeholders reach the validation directory: the
   * files named by the third and fourth are left as they were there.
   */
  lemma ValidationGetsOnlyFirstTwo(m: map<string, ImageFile>, baseDir: string, name: string)
    requires name == "sample_3.jpg" || name == "sample_4.jpg"
    ensures var trainDir := PathJoin(baseDir, "train");
            var valDir := PathJoin(baseDir, "validation");
            (PathJoin(valDir, name) in WritePlaceholders(m, trainDir, valDir, Placeholders)
             <==> PathJoin(valDir, name) in m)
  {
    var trainDir := PathJoin(baseDir, "train");
    var valDir := PathJoin(baseDir, "validation");
    NotWrittenToValidation(baseDir, name);
  }

  lemma NotWrittenToValidation(baseDir: string, name: string)
    requires name == "sample_3.jpg" || name == "sample_4.jpg"
    ensures PathJoin(PathJoin(baseDir, "validation"), name)
            !in WrittenPaths(PathJoin(baseDir, "train"), PathJoin(baseDir, "validation"), Placeholders)
  {
    var trainDir := PathJoin(baseDir, "train");
    var valDir := PathJoin(baseDir, "validation");
    PlaceholderPaths(trainDir, valDir);
    TrainValDisjoint(baseDir, "sample_1.jpg", name);
    TrainValDisjoint(baseDir, "sample_2.jpg", name);
    TrainValDisjoint(baseDir, "sample_3.jpg", name);
    TrainValDisjoint(baseDir, "sample_4.jpg", name);
    NotSameName(valDir, name, "sample_1.jpg");
    NotSameName(valDir, name, "sample_2.jpg");
  }

  lemma NotSameName(dir: string, a: string, b: string)
    requires a != [] && a[0] != '/' && b != [] && b[0] != '/' && a != b
    ensures PathJoin(dir, a) != PathJoin(dir, b)
  {
    if PathJoin(dir, a) == PathJoin(dir, b) {
      PathJoinInjective(dir, a, b);
    }
  }
}
