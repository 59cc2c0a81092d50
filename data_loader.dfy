/** Loading a vibration signal from an uploaded file: the format is chosen by
    the file extension, and each format's loader applies its own selection and
    default rules. The bytes themselves are not decoded here: a file is given
    by what each parsing library makes of it (a CSV table, a WAV header with its
    samples, the variables of a MATLAB file, a float32 view), and a library that
    cannot parse the bytes contributes the message it raised. */
module DataLoader {
  import opened Common

  // ---------------------------------------------------------------------
  // File contents, as the parsing libraries see them

  /** The columns `pandas.read_csv` finds, left to right. */
  datatype CsvTable = CsvTable(columns: seq<seq<real>>)

  /** What the `wave` module reports, with `samples` the frame bytes read as
      integers of the sample width, channels interleaved. */
  datatype WavFile = WavFile(frameRate: int, channels: int, sampleWidth: int, samples: seq<int>)

  /** The element kinds of a `numpy` array (`dtype.kind`): float `f`, complex `c`,
      integer, and anything else (strings, structs, objects). */
  datatype ElemKind = FloatKind | ComplexKind | IntKind | OtherKind

  /** A value of the dictionary `scipy.io.loadmat` returns. Arrays are two
      dimensional, as `loadmat` makes them, and are given by their shape and
      their first column (complex entries by their real part); `MatNumber` is a
      plain Python number and `MatObject` any other Python value. */
  datatype MatValue =
    | MatArray(kind: ElemKind, rows: nat, cols: nat, column0: seq<real>)
    | MatNumber(x: real)
    | MatObject

  /** One variable of a `.mat` file, in the dictionary's key order. */
  datatype MatEntry = MatEntry(name: string, value: MatValue)

  /** An uploaded file: its length in bytes and what each parser makes of it. */
  datatype FileBytes = FileBytes(
    length: nat,
    csv: Result<CsvTable, string>,
    wav: Result<WavFile, string>,
    mat: Result<seq<MatEntry>, string>,
    float32: seq<real>)

  datatype Format = Csv | Wav | Mat | Binary

  /** The `metadata` dictionary's `format` and `length` keys. */
  datatype Metadata = Metadata(format: string, length: int)

  datatype Loaded = Loaded(signal: seq<real>, samplingRate: real, metadata: Metadata)

  datatype LoadError =
    | UnsupportedFormat(extension: string)
    | LoadFailed(format: Format, detail: string)

  /** The prefix each loader puts before the message of anything raised inside it. */
  function FailurePrefix(f: Format): string {
    match f
    case Csv => "Failed to load CSV file: "
    case Wav => "Failed to load WAV file: "
    case Mat => "Failed to load .mat file: "
    case Binary => "Failed to load binary file: "
  }

  /** The message of the `ValueError` the loader raises. */
  function ErrorMessage(e: LoadError): (m: string)
    ensures e.UnsupportedFormat? ==> m == "Unsupported file format: " + e.extension
    ensures e.LoadFailed? ==> StartsWith(m, FailurePrefix(e.format)) && m[|FailurePrefix(e.format)|..] == e.detail
  {
    match e
    case UnsupportedFormat(ext) => "Unsupported file format: " + ext
    case LoadFailed(f, detail) => FailurePrefix(f) + detail
  }

  /** The default sampling rate every loader assumes. */
  const DefaultRate: real := 1000.0

  // Messages raised by numpy and Python itself, as they enter the error text.
  const DivisionByZero: string := "float division by zero"
  const ReshapeFailure: string := "cannot reshape array into the requested shape"
  const BufferSizeMismatch: string := "buffer size must be a multiple of element size"
  const NoNdimAttribute: string := "object has no attribute 'ndim'"
  const NoShapeAttribute: string := "object has no attribute 'shape'"
  const ColumnOutOfBounds: string := "index 0 is out of bounds for axis 1 with size 0"
  const NotAScalar: string := "can only convert an array of size 1 to a Python scalar"
  const NotConvertible: string := "could not convert to float"
  const NoDataFound: string := "No data found in .mat file"
  const NoNumericData: string := "No suitable numeric data found in .mat file"

  // ---------------------------------------------------------------------
  // Format dispatch

  /** The text after the last `'.'`, the whole string when there is none
      (`s.split('.')[-1]`). */
  function AfterLastDot(s: string): (r: string)
    ensures |r| <= |s| && r == s[|s| - |r|..]
    ensures '.' !in r
    ensures |r| < |s| ==> s[|s| - |r| - 1] == '.'
    decreases |s|
  {
    if s == [] then []
    else if s[|s| - 1] == '.' then []
    else AfterLastDot(s[..|s| - 1]) + [s[|s| - 1]]
  }

  /** `filename.lower().split('.')[-1]` */
  function Extension(filename: string): string {
    AfterLastDot(Lower(filename))
  }

  function FormatOf(ext: string): Option<Format> {
    if ext == "csv" then Some(Csv)
    else if ext == "wav" then Some(Wav)
    else if ext == "mat" then Some(Mat)
    else if ext == "tdms" || ext == "mdf" then Some(Binary)
    else None
  }

  /** `load_from_bytes`: dispatch on the extension; the WAV loader takes no rate override. */
  function Load(file: FileBytes, filename: string, samplingRate: Option<real>): (r: Result<Loaded, LoadError>)
    ensures r.Err? && r.error.UnsupportedFormat? <==> FormatOf(Extension(filename)).None?
    ensures r.Err? && r.error.UnsupportedFormat? ==> r.error.extension == Extension(filename)
    ensures r.Err? && r.error.LoadFailed? ==> FormatOf(Extension(filename)) == Some(r.error.format)
  {
    LoadByExtension(file, Extension(filename), samplingRate)
  }

  function LoadByExtension(file: FileBytes, ext: string, samplingRate: Option<real>): Result<Loaded, LoadError> {
    match FormatOf(ext)
    case None => Err(UnsupportedFormat(ext))
    case Some(Csv) => LoadCsv(file, samplingRate)
    case Some(Wav) => LoadWav(file)
    case Some(Mat) => LoadMat(file, samplingRate)
    case Some(Binary) => LoadBinary(file, samplingRate)
  }

  /** `load_from_bytes` as a method, for callers that run it. */
  method LoadFromBytes(file: FileBytes, filename: string, samplingRate: Option<real>)
    returns (r: Result<Loaded, LoadError>)
    ensures r == Load(file, filename, samplingRate)
  {
    var ext := Extension(filename);
    match FormatOf(ext)
    case None =>
      r := Err(UnsupportedFormat(ext));
    case Some(Csv) =>
      r := LoadCsv(file, samplingRate);
    case Some(Wav) =>
      r := LoadWav(file);
    case Some(Mat) =>
      r := LoadMatFile(file, samplingRate);
    case Some(Binary) =>
      r := LoadBinary(file, samplingRate);
  }

  /** Only the five known extensions are loaded; everything else is refused
      with the extension in the message, and tdms and mdf share one loader. */
  lemma DispatchRules(file: FileBytes, ext: string, samplingRate: Option<real>)
    ensures var r := LoadByExtension(file, ext, samplingRate);
      && (r.Err? && r.error.UnsupportedFormat? <==> ext !in ["csv", "wav", "mat", "tdms", "mdf"])
      && (r.Err? && r.error.UnsupportedFormat? ==> r.error.extension == ext)
      && (ext == "tdms" || ext == "mdf" ==> r == LoadBinary(file, samplingRate))
      && (ext == "wav" ==> r == LoadWav(file))
      && (r.Err? && r.error.LoadFailed? ==> FormatOf(ext) == Some(r.error.format))
  {
    ExtensionsDistinct();
  }

  lemma ExtensionsDistinct()
    ensures "csv" != "wav" && "csv" != "mat" && "csv" != "tdms" && "csv" != "mdf"
    ensures "wav" != "mat" && "wav" != "tdms" && "wav" != "mdf"
    ensures "mat" != "tdms" && "mat" != "mdf" && "tdms" != "mdf"
  {
    assert "csv"[0] == 'c' && "wav"[0] == 'w' && "mat"[0] == 'm' && "tdms"[0] == 't' && "mdf"[0] == 'm';
    assert "mat"[1] != "mdf"[1];
  }

  /** The extension is the lower-cased text after the last dot: a suffix of the
      lower-cased name with no dot in it, preceded by a dot unless it is the whole
      name, which it is exactly when the name has no dot. */
  lemma ExtensionIsLastSegment(filename: string)
    ensures var ext := Extension(filename);
      && |ext| <= |filename| && ext == Lower(filename)[|filename| - |ext|..]
      && '.' !in ext
      && (|ext| < |filename| ==> filename[|filename| - |ext| - 1] == '.')
      && ('.' !in filename ==> ext == Lower(filename))
  {
    var low := Lower(filename);
    var ext := AfterLastDot(low);
    if |ext| < |filename| {
      var j := |filename| - |ext| - 1;
      assert low[j] == '.';
      LowerDot(filename[j]);
      assert filename[j] in filename;
    }
  }

  lemma LowerDot(c: char)
    requires LowerChar(c) == '.'
    ensures c == '.'
  {
  }

  // ---------------------------------------------------------------------
  // CSV

  /** `np.sum(np.diff(t))` */
  function SumOfSteps(t: seq<real>): real
    decreases |t|
  {
    if |t| < 2 then 0.0 else (t[1] - t[0]) + SumOfSteps(t[1..])
  }

  /** The steps of a time column telescope to its span. */
  lemma {:induction false} SumOfStepsSpan(t: seq<real>)
    requires |t| >= 1
    ensures SumOfSteps(t) == t[|t| - 1] - t[0]
    decreases |t|
  {
    if |t| >= 2 {
      SumOfStepsSpan(t[1..]);
    }
  }

  /** The sampling rate `_load_csv` settles on for a time column. */
  function CsvRate(time: seq<real>, samplingRate: Option<real>): (rate: real)
    ensures samplingRate.Some? ==> rate == samplingRate.value
    ensures samplingRate.None? ==> rate > 0.0
    ensures samplingRate.None? && |time| <= 1 ==> rate == DefaultRate
  {
    if samplingRate.Some? then samplingRate.value
    else if |time| > 1 then
      var dt := SumOfSteps(time) / (|time| - 1) as real;
      if dt > 0.0 then 1.0 / dt else DefaultRate
    else DefaultRate
  }

  /** Without an override the rate is the number of steps over the time span
      when time increases overall, and 1000 otherwise. */
  lemma CsvRateFromSpan(time: seq<real>)
    requires |time| > 1
    ensures time[|time| - 1] > time[0] ==>
      CsvRate(time, None) == (|time| - 1) as real / (time[|time| - 1] - time[0])
    ensures time[|time| - 1] <= time[0] ==> CsvRate(time, None) == DefaultRate
  {
    SumOfStepsSpan(time);
    var n := (|time| - 1) as real;
    var span := time[|time| - 1] - time[0];
    if span > 0.0 {
      assert span / n > 0.0;
      assert 1.0 / (span / n) == n / span;
    } else {
      assert span / n <= 0.0;
    }
  }

  /** `_load_csv`: one column is the signal itself; otherwise the first column is
      time and the second the signal. */
  function LoadCsv(file: FileBytes, samplingRate: Option<real>): (r: Result<Loaded, LoadError>)
    ensures r.Err? ==> r.error.LoadFailed? && r.error.format == Csv
    ensures r.Ok? ==> file.csv.Ok? && |file.csv.value.columns| >= 1
    ensures file.csv.Ok? && |file.csv.value.columns| == 0 ==>
      r == Err(LoadFailed(Csv, "CSV file must have at least one column"))
    ensures file.csv.Ok? && |file.csv.value.columns| == 1 ==>
      r.Ok? && r.value.signal == file.csv.value.columns[0]
      && r.value.samplingRate == samplingRate.GetOr(DefaultRate)
    ensures file.csv.Ok? && |file.csv.value.columns| >= 2 ==>
      r.Ok? && r.value.signal == file.csv.value.columns[1]
      && r.value.samplingRate == CsvRate(file.csv.value.columns[0], samplingRate)
  {
    match file.csv
    case Err(e) => Err(LoadFailed(Csv, e))
    case Ok(table) =>
      if |table.columns| == 1 then
        var signal := table.columns[0];
        Ok(Loaded(signal, samplingRate.GetOr(DefaultRate), Metadata("csv", |signal|)))
      else if |table.columns| >= 2 then
        var signal := table.columns[1];
        Ok(Loaded(signal, CsvRate(table.columns[0], samplingRate), Metadata("csv", |signal|)))
      else
        Err(LoadFailed(Csv, "CSV file must have at least one column"))
  }

  // ---------------------------------------------------------------------
  // WAV

  /** Every `n`-th sample starting with the first: channel 0 of interleaved frames. */
  function Stride(s: seq<int>, n: nat): (r: seq<int>)
    requires n >= 1
    decreases |s|
  {
    if |s| < n then [] else [s[0]] + Stride(s[n..], n)
  }

  lemma {:induction false} StrideSamples(s: seq<int>, n: nat, k: nat)
    requires n >= 1 && |s| == k * n
    ensures |Stride(s, n)| == k
    ensures forall i :: 0 <= i < k ==> i * n < |s| && Stride(s, n)[i] == s[i * n]
    decreases k
  {
    if k > 0 {
      var t := s[n..];
      assert |t| == (k - 1) * n;
      StrideSamples(t, n, k - 1);
      forall i | 0 <= i < k ensures i * n < |s| && Stride(s, n)[i] == s[i * n] {
        if i > 0 {
          assert (i - 1) * n + n == i * n;
          assert Stride(s, n)[i] == Stride(t, n)[i - 1] == t[(i - 1) * n];
        } else {
          assert 0 * n == 0;
        }
        LessTimes(i, k, n);
      }
    }
  }

  lemma LessTimes(i: nat, k: nat, n: nat)
    requires i < k && n >= 1
    ensures i * n < k * n
  {
  }

  function Pow2(k: nat): (p: nat)
    ensures p >= 1
  {
    if k == 0 then 1 else 2 * Pow2(k - 1)
  }

  /** The divisor `2 ** (8 * sample_width - 1)` that maps samples into [-1, 1). */
  function WavScale(sampleWidth: int): real {
    if sampleWidth > 1 then Pow2(8 * sampleWidth - 1) as real else 1.0
  }

  lemma {:induction false} Pow2Add(a: nat, b: nat)
    ensures Pow2(a + b) == Pow2(a) * Pow2(b)
    decreases a
  {
    if a > 0 {
      Pow2Add(a - 1, b);
    }
  }

  lemma WavScales()
    ensures WavScale(1) == 1.0 && WavScale(2) == 32768.0 && WavScale(4) == 2147483648.0
  {
    assert Pow2(5) == 32;
    Pow2Add(5, 5);
    Pow2Add(10, 5);
    Pow2Add(15, 15);
    Pow2Add(30, 1);
  }

  function DigitChar(d: int): char
    requires 0 <= d < 10
  {
    "0123456789"[d]
  }

  /** Python's `str(n)` on an integer. */
  function IntToString(n: int): string
    decreases if n < 0 then 1 - n else n
  {
    if n < 0 then "-" + IntToString(-n)
    else if n < 10 then [DigitChar(n)]
    else IntToString(n / 10) + [DigitChar(n % 10)]
  }

  function ToReals(s: seq<int>, scale: real): (r: seq<real>)
    requires scale > 0.0
    ensures |r| == |s| && forall i :: 0 <= i < |s| ==> r[i] == s[i] as real / scale
  {
    seq(|s|, i requires 0 <= i < |s| => s[i] as real / scale)
  }

  /** `_load_wav`: only sample widths 1, 2 and 4; channel 0 of a multi-channel
      file; samples wider than a byte scaled by `2^(8w-1)`; the rate is the
      file's frame rate, and a zero frame rate fails when the duration is computed. */
  function LoadWav(file: FileBytes): (r: Result<Loaded, LoadError>)
    ensures r.Err? ==> r.error.LoadFailed? && r.error.format == Wav
    ensures file.wav.Ok? && file.wav.value.sampleWidth !in {1, 2, 4} ==>
      r == Err(LoadFailed(Wav, "Unsupported sample width: " + IntToString(file.wav.value.sampleWidth)))
    ensures r.Ok? ==>
      && file.wav.Ok? && file.wav.value.sampleWidth in {1, 2, 4}
      && r.value.samplingRate == file.wav.value.frameRate as real && file.wav.value.frameRate != 0
    ensures r.Ok? && file.wav.value.channels <= 1 ==>
      r.value.signal == ToReals(file.wav.value.samples, WavScale(file.wav.value.sampleWidth))
    ensures r.Ok? && file.wav.value.channels > 1 ==>
      && |file.wav.value.samples| % file.wav.value.channels == 0
      && r.value.signal == ToReals(Stride(file.wav.value.samples, file.wav.value.channels), WavScale(file.wav.value.sampleWidth))
  {
    match file.wav
    case Err(e) => Err(LoadFailed(Wav, e))
    case Ok(w) =>
      if w.sampleWidth !in {1, 2, 4} then
        Err(LoadFailed(Wav, "Unsupported sample width: " + IntToString(w.sampleWidth)))
      else if w.channels > 1 && |w.samples| % w.channels != 0 then
        Err(LoadFailed(Wav, ReshapeFailure))
      else
        var channel0 := if w.channels > 1 then Stride(w.samples, w.channels) else w.samples;
        var signal := ToReals(channel0, WavScale(w.sampleWidth));
        if w.frameRate == 0 then Err(LoadFailed(Wav, DivisionByZero))
        else Ok(Loaded(signal, w.frameRate as real, Metadata("wav", |signal|)))
  }

  /** With several channels the signal is channel 0: sample `i` is interleaved
      sample `i * channels`, scaled. */
  lemma WavChannelZero(file: FileBytes)
    requires LoadWav(file).Ok? && file.wav.value.channels > 1
    ensures var w := file.wav.value;
      var signal := LoadWav(file).value.signal;
      && |signal| == |w.samples| / w.channels
      && forall i :: 0 <= i < |signal| ==>
           i * w.channels < |w.samples| && signal[i] == w.samples[i * w.channels] as real / WavScale(w.sampleWidth)
  {
    var w := file.wav.value;
    var k := |w.samples| / w.channels;
    assert |w.samples| == k * w.channels;
    StrideSamples(w.samples, w.channels, k);
    var signal := LoadWav(file).value.signal;
    assert signal == ToReals(Stride(w.samples, w.channels), WavScale(w.sampleWidth));
  }

  // ---------------------------------------------------------------------
  // MATLAB

  predicate HasVariable(entries: seq<MatEntry>, name: string) {
    exists i :: 0 <= i < |entries| && entries[i].name == name
  }

  /** `mat_data[name]`: the value stored under `name`. */
  function Lookup(entries: seq<MatEntry>, name: string): (v: MatValue)
    requires HasVariable(entries, name)
    ensures exists i :: 0 <= i < |entries| && entries[i].name == name && entries[i].value == v
  {
    if entries[0].name == name then entries[0].value
    else
      assert HasVariable(entries[1..], name) by {
        var i :| 0 <= i < |entries| && entries[i].name == name;
        assert entries[1..][i - 1].name == name;
      }
      Lookup(entries[1..], name)
  }

  /** The keys that do not start with `"__"`, in key order. */
  function DataKeys(entries: seq<MatEntry>): (keys: seq<string>)
    ensures forall k :: k in keys ==> !StartsWith(k, "__") && HasVariable(entries, k)
    ensures forall i :: 0 <= i < |entries| && !StartsWith(entries[i].name, "__") ==> entries[i].name in keys
  {
    if entries == [] then []
    else
      var rest := DataKeys(entries[1..]);
      assert forall k :: k in rest ==> HasVariable(entries, k) by {
        forall k | k in rest ensures HasVariable(entries, k) {
          var i :| 0 <= i < |entries[1..]| && entries[1..][i].name == k;
          assert entries[i + 1].name == k;
        }
      }
      assert forall i :: 1 <= i < |entries| && !StartsWith(entries[i].name, "__") ==> entries[i].name in rest by {
        forall i | 1 <= i < |entries| && !StartsWith(entries[i].name, "__") ensures entries[i].name in rest {
          assert entries[1..][i - 1] == entries[i];
        }
      }
      if StartsWith(entries[0].name, "__") then rest
      else
        assert HasVariable(entries, entries[0].name) by { assert entries[0].name == entries[0].name; }
        [entries[0].name] + rest
  }

  /** The names tried for the signal, in priority order. */
  const SignalNames: seq<string> := ["data", "signal", "vibration", "x", "y", "acceleration", "velocity"]

  /** The names tried for the sampling rate, in priority order. */
  const RateNames: seq<string> := ["fs", "sampling_rate", "sample_rate", "sr", "freq"]

  /** The first of `names` that is a variable of the file. */
  function FirstPresent(entries: seq<MatEntry>, names: seq<string>): (r: Option<string>)
    ensures r.Some? ==> r.value in names && HasVariable(entries, r.value)
    ensures r.None? ==> forall n :: n in names ==> !HasVariable(entries, n)
  {
    if names == [] then None
    else if HasVariable(entries, names[0]) then Some(names[0])
    else FirstPresent(entries, names[1..])
  }

  predicate IsNumericArray(v: MatValue) {
    v.MatArray? && (v.kind == FloatKind || v.kind == ComplexKind)
  }

  /** `keys[i]` is the first of `keys` whose value is a float or complex array. */
  predicate NumericFirstAt(entries: seq<MatEntry>, keys: seq<string>, i: int)
    requires forall k :: k in keys ==> HasVariable(entries, k)
  {
    && 0 <= i < |keys|
    && IsNumericArray(Lookup(entries, keys[i]))
    && forall j :: 0 <= j < i ==> !IsNumericArray(Lookup(entries, keys[j]))
  }

  /** The first of `keys` whose value is a float or complex array. */
  function FirstNumeric(entries: seq<MatEntry>, keys: seq<string>): (r: Option<MatValue>)
    requires forall k :: k in keys ==> HasVariable(entries, k)
    ensures r.None? <==> forall k :: k in keys ==> !IsNumericArray(Lookup(entries, k))
    ensures r.Some? ==> exists i :: NumericFirstAt(entries, keys, i) && r.value == Lookup(entries, keys[i])
  {
    if keys == [] then None
    else if IsNumericArray(Lookup(entries, keys[0])) then
      assert keys[0] in keys;
      Some(Lookup(entries, keys[0]))
    else
      var r := FirstNumeric(entries, keys[1..]);
      assert r.Some? ==> exists i :: NumericFirstAt(entries, keys, i) && r.value == Lookup(entries, keys[i]) by {
        if r.Some? {
          var i :| NumericFirstAt(entries, keys[1..], i) && r.value == Lookup(entries, keys[1..][i]);
          forall j | 0 <= j < i + 1 ensures !IsNumericArray(Lookup(entries, keys[j])) {
            if j > 0 { assert keys[j] == keys[1..][j - 1]; }
          }
          assert keys[i + 1] == keys[1..][i];
          assert NumericFirstAt(entries, keys, i + 1);
        }
      }
      assert forall k :: k in keys ==> k == keys[0] || k in keys[1..];
      r
  }

  /** The variable `_load_mat` takes as the signal: the first of the signal names
      present, else the first float or complex array among the data keys. */
  function ChosenSignal(entries: seq<MatEntry>): Option<MatValue> {
    match FirstPresent(entries, SignalNames)
    case Some(name) => Some(Lookup(entries, name))
    case None => FirstNumeric(entries, DataKeys(entries))
  }

  /** `float(v.item())` for an array, `float(v)` otherwise. */
  function RateValue(v: MatValue): Result<real, string> {
    match v
    case MatArray(kind, rows, cols, column0) =>
      if rows * cols != 1 || |column0| == 0 then Err(NotAScalar)
      else if kind == ComplexKind || kind == OtherKind then Err(NotConvertible)
      else Ok(column0[0])
    case MatNumber(x) => Ok(x)
    case MatObject => Err(NotConvertible)
  }

  /** The rate `_load_mat` settles on: the override when given, else the first
      rate variable present, else 1000. */
  function MatRate(entries: seq<MatEntry>, samplingRate: Option<real>): (r: Result<real, string>)
    ensures samplingRate.Some? ==> r == Ok(samplingRate.value)
    ensures samplingRate.None? && (forall n :: n in RateNames ==> !HasVariable(entries, n)) ==> r == Ok(DefaultRate)
    ensures r.Err? ==> r.error == NotAScalar || r.error == NotConvertible
  {
    if samplingRate.Some? then Ok(samplingRate.value)
    else match FirstPresent(entries, RateNames)
      case Some(name) => RateValue(Lookup(entries, name))
      case None => Ok(DefaultRate)
  }

  /** The loader's result for the variables of a `.mat` file. */
  function MatResult(entries: seq<MatEntry>, samplingRate: Option<real>): (r: Result<Loaded, LoadError>)
    ensures r.Err? ==> r.error.LoadFailed? && r.error.format == Mat
  {
    var keys := DataKeys(entries);
    if keys == [] then Err(LoadFailed(Mat, NoDataFound))
    else match ChosenSignal(entries)
      case None => Err(LoadFailed(Mat, NoNumericData))
      case Some(v) =>
        if !v.MatArray? then Err(LoadFailed(Mat, NoNdimAttribute))
        else if v.cols == 0 then Err(LoadFailed(Mat, ColumnOutOfBounds))
        else match MatRate(entries, samplingRate)
          case Err(e) => Err(LoadFailed(Mat, e))
          case Ok(rate) =>
            if !Lookup(entries, keys[0]).MatArray? then Err(LoadFailed(Mat, NoShapeAttribute))
            else if v.kind == OtherKind then Err(LoadFailed(Mat, NotConvertible))
            else Ok(Loaded(v.column0, rate, Metadata("mat", |v.column0|)))
  }

  function LoadMat(file: FileBytes, samplingRate: Option<real>): (r: Result<Loaded, LoadError>)
    ensures r.Err? ==> r.error.LoadFailed? && r.error.format == Mat
  {
    match file.mat
    case Err(e) => Err(LoadFailed(Mat, e))
    case Ok(entries) => MatResult(entries, samplingRate)
  }

  /** The signal search of `_load_mat`: the priority names first, then the first
      float or complex array, each loop stopping at its first hit. */
  method SelectSignal(entries: seq<MatEntry>) returns (signal: Option<MatValue>)
    ensures signal == ChosenSignal(entries)
  {
    signal := None;
    var i := 0;
    while i < |SignalNames|
      invariant 0 <= i <= |SignalNames|
      invariant signal.None? ==> FirstPresent(entries, SignalNames) == FirstPresent(entries, SignalNames[i..])
      invariant signal.Some? ==> signal == ChosenSignal(entries)
      decreases |SignalNames| - i, signal.None?
    {
      assert SignalNames[i..][1..] == SignalNames[i + 1..];
      if HasVariable(entries, SignalNames[i]) {
        signal := Some(Lookup(entries, SignalNames[i]));
        break;
      }
      i := i + 1;
    }
    if signal.None? {
      var keys := DataKeys(entries);
      assert FirstPresent(entries, SignalNames) == None;
      var j := 0;
      while j < |keys|
        invariant 0 <= j <= |keys|
        invariant signal.None? ==> FirstNumeric(entries, keys) == FirstNumeric(entries, keys[j..])
        invariant signal.Some? ==> signal == ChosenSignal(entries)
      {
        assert keys[j..][1..] == keys[j + 1..];
        var value := Lookup(entries, keys[j]);
        if value.MatArray? && (value.kind == FloatKind || value.kind == ComplexKind) {
          signal := Some(value);
          break;
        }
        j := j + 1;
      }
    }
  }

  /** The rate search of `_load_mat`, run only without an override. */
  method FindRate(entries: seq<MatEntry>, samplingRate: Option<real>) returns (rate: Result<real, string>)
    ensures rate == MatRate(entries, samplingRate)
  {
    if samplingRate.Some? {
      return Ok(samplingRate.value);
    }
    var found: Option<real> := None;
    var i := 0;
    while i < |RateNames|
      invariant 0 <= i <= |RateNames|
      invariant found.None? ==> FirstPresent(entries, RateNames) == FirstPresent(entries, RateNames[i..])
      invariant found.Some? ==> MatRate(entries, samplingRate) == Ok(found.GetOr(0.0))
    {
      assert RateNames[i..][1..] == RateNames[i + 1..];
      if HasVariable(entries, RateNames[i]) {
        var value := RateValue(Lookup(entries, RateNames[i]));
        if value.Err? {
          return Err(value.error);
        }
        found := Some(value.value);
        break;
      }
      i := i + 1;
    }
    rate := Ok(found.GetOr(DefaultRate));
  }

  /** `_load_mat`, with its two search loops. */
  method LoadMatFile(file: FileBytes, samplingRate: Option<real>) returns (r: Result<Loaded, LoadError>)
    ensures r == LoadMat(file, samplingRate)
  {
    if file.mat.Err? {
      return Err(LoadFailed(Mat, file.mat.error));
    }
    var entries := file.mat.value;
    var keys := DataKeys(entries);
    if keys == [] {
      return Err(LoadFailed(Mat, NoDataFound));
    }
    var signal := SelectSignal(entries);
    if signal.None? {
      return Err(LoadFailed(Mat, NoNumericData));
    }
    var v := signal.value;
    if !v.MatArray? {
      return Err(LoadFailed(Mat, NoNdimAttribute));
    }
    if v.cols == 0 {
      return Err(LoadFailed(Mat, ColumnOutOfBounds));
    }
    var rate := FindRate(entries, samplingRate);
    if rate.Err? {
      return Err(LoadFailed(Mat, rate.error));
    }
    if !Lookup(entries, keys[0]).MatArray? {
      return Err(LoadFailed(Mat, NoShapeAttribute));
    }
    if v.kind == OtherKind {
      return Err(LoadFailed(Mat, NotConvertible));
    }
    r := Ok(Loaded(v.column0, rate.value, Metadata("mat", |v.column0|)));
  }

  /** Only `"__"` keys present: loading fails with "No data found". */
  lemma MatNeedsDataKeys(entries: seq<MatEntry>, samplingRate: Option<real>)
    ensures (forall i :: 0 <= i < |entries| ==> StartsWith(entries[i].name, "__")) <==> DataKeys(entries) == []
    ensures DataKeys(entries) == [] ==> MatResult(entries, samplingRate) == Err(LoadFailed(Mat, NoDataFound))
  {
    if DataKeys(entries) != [] {
      var k := DataKeys(entries)[0];
      assert k in DataKeys(entries);
      var i :| 0 <= i < |entries| && entries[i].name == k;
    }
  }

  /** Signal priority: a present signal name wins over every later one and over
      the numeric fallback. */
  lemma MatSignalPriority(entries: seq<MatEntry>, k: nat)
    requires k < |SignalNames| && HasVariable(entries, SignalNames[k])
    requires forall j :: 0 <= j < k ==> !HasVariable(entries, SignalNames[j])
    ensures ChosenSignal(entries) == Some(Lookup(entries, SignalNames[k]))
  {
    FirstPresentIsFirst(entries, SignalNames, k);
  }

  /** Rate priority: without an override, the first present rate name decides. */
  lemma MatRatePriority(entries: seq<MatEntry>, k: nat)
    requires k < |RateNames| && HasVariable(entries, RateNames[k])
    requires forall j :: 0 <= j < k ==> !HasVariable(entries, RateNames[j])
    ensures MatRate(entries, None) == RateValue(Lookup(entries, RateNames[k]))
  {
    FirstPresentIsFirst(entries, RateNames, k);
  }

  lemma {:induction false} FirstPresentIsFirst(entries: seq<MatEntry>, names: seq<string>, k: nat)
    requires k < |names| && HasVariable(entries, names[k])
    requires forall j :: 0 <= j < k ==> !HasVariable(entries, names[j])
    ensures FirstPresent(entries, names) == Some(names[k])
    decreases k
  {
    if k > 0 {
      assert !HasVariable(entries, names[0]);
      assert names[1..][k - 1] == names[k];
      FirstPresentIsFirst(entries, names[1..], k - 1);
    }
  }

  /** With no priority name present, the fallback takes the first float or
      complex array in key order, and loading fails with "No suitable numeric
      data" exactly when there are data keys but none of them holds one. */
  lemma MatNumericFallback(entries: seq<MatEntry>, samplingRate: Option<real>)
    requires forall n :: n in SignalNames ==> !HasVariable(entries, n)
    ensures ChosenSignal(entries).Some? ==>
      exists i :: NumericFirstAt(entries, DataKeys(entries), i) && ChosenSignal(entries).value == Lookup(entries, DataKeys(entries)[i])
    ensures MatResult(entries, samplingRate) == Err(LoadFailed(Mat, NoNumericData)) <==>
      DataKeys(entries) != [] && forall k :: k in DataKeys(entries) ==> !IsNumericArray(Lookup(entries, k))
  {
    var keys := DataKeys(entries);
    assert FirstPresent(entries, SignalNames) == None;
    assert ChosenSignal(entries) == FirstNumeric(entries, keys);
    MatNoNumericIff(entries, samplingRate);
  }

  /** "No suitable numeric data" is reported exactly when there are data keys
      but no signal is chosen. */
  lemma MatNoNumericIff(entries: seq<MatEntry>, samplingRate: Option<real>)
    ensures MatResult(entries, samplingRate) == Err(LoadFailed(Mat, NoNumericData)) <==>
      DataKeys(entries) != [] && ChosenSignal(entries).None?
  {
    MatMessagesDistinct();
    var keys := DataKeys(entries);
    if keys != [] && ChosenSignal(entries).Some? {
      var v := ChosenSignal(entries).value;
      if v.MatArray? && v.cols != 0 {
        match MatRate(entries, samplingRate)
        case Err(e) =>
          assert e == NotAScalar || e == NotConvertible;
        case Ok(rate) =>
      }
    }
  }

  /** The loader's failure texts are pairwise different. */
  lemma MatMessagesDistinct()
    ensures NoNumericData != NoDataFound && NoNumericData != NoNdimAttribute && NoNumericData != ColumnOutOfBounds
    ensures NoNumericData != NoShapeAttribute && NoNumericData != NotConvertible && NoNumericData != NotAScalar
  {
  }

  /** An override skips the rate search, and the loaded rate is the override. */
  lemma MatOverrideWins(entries: seq<MatEntry>, rate: real)
    ensures MatResult(entries, Some(rate)).Ok? ==> MatResult(entries, Some(rate)).value.samplingRate == rate
    ensures MatRate(entries, Some(rate)) == Ok(rate)
  {
  }

  /** The signal is the first column, so a 1-by-N row vector loads as a single sample. */
  lemma MatRowVectorIsOneSample(entries: seq<MatEntry>, samplingRate: Option<real>)
    requires MatResult(entries, samplingRate).Ok?
    ensures ChosenSignal(entries).Some?
    ensures MatResult(entries, samplingRate).value.signal == ChosenSignal(entries).value.column0
  {
  }

  // ---------------------------------------------------------------------
  // Raw binary (tdms, mdf)

  /** `_load_binary`: the bytes as float32 values; a length that is not a
      multiple of four is refused by `numpy`. */
  function LoadBinary(file: FileBytes, samplingRate: Option<real>): (r: Result<Loaded, LoadError>)
    ensures r.Ok? <==> file.length % 4 == 0
    ensures r.Ok? ==> r.value.signal == file.float32 && r.value.samplingRate == samplingRate.GetOr(DefaultRate)
    ensures r.Err? ==> r.error == LoadFailed(Binary, BufferSizeMismatch)
  {
    if file.length % 4 != 0 then Err(LoadFailed(Binary, BufferSizeMismatch))
    else Ok(Loaded(file.float32, samplingRate.GetOr(DefaultRate), Metadata("binary", |file.float32|)))
  }
}
