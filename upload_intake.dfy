/**
 * The decision part of the kiosk's `POST /receive_file` handler: validate
 * the multipart request, and build the path the upload is stored under,
 * `<temp dir>/print_<whole seconds>_<original filename>`. The clock, the
 * temporary directory and the outcome of saving the file are parameters.
 */
module UploadIntake {
  import opened Wrappers

  /** The name of the multipart form field holding the document. */
  const FileField: string := "file"

  /** The uploaded parts of a request: form field name to the part's filename. */
  datatype UploadRequest = UploadRequest(files: map<string, string>)

  /** What the handler does: store the file and answer 200, or answer an error status. */
  datatype Intake =
    | Stored(path: string, filename: string)
    | Refused(status: nat, error: string)

  /** Python's `int(x)` on a float: truncation toward zero. */
  function Truncate(x: real): (r: int)
    ensures x >= 0.0 ==> 0 <= r && r as real <= x < r as real + 1.0
    ensures x < 0.0 ==> r <= 0 && r as real - 1.0 < x <= r as real
  {
    if x >= 0.0 then x.Floor else -((-x).Floor)
  }

  function DigitChar(d: nat): char
    requires d < 10
  {
    "0123456789"[d]
  }

  predicate IsDigit(c: char) {
    '0' <= c <= '9'
  }

  predicate AllDigits(s: string) {
    forall i :: 0 <= i < |s| ==> IsDigit(s[i])
  }

  /** The decimal digits of n, most significant first, without leading zeros. */
  function Digits(n: nat): (s: string)
    ensures |s| > 0 && AllDigits(s)
    decreases n
  {
    if n < 10 then [DigitChar(n)] else Digits(n / 10) + [DigitChar(n % 10)]
  }

  /** Python's `str(i)` for an integer. */
  function IntToString(i: int): (s: string)
    ensures |s| > 0 && '_' !in s
  {
    if i < 0 then "-" + Digits(-i) else Digits(i)
  }

  /** The number a string of decimal digits denotes (the inverse of Digits). */
  function DigitsValue(s: string): nat
    requires AllDigits(s)
    decreases |s|
  {
    if s == [] then 0
    else
      var last := s[|s| - 1];
      assert IsDigit(last);
      DigitsValue(s[..|s| - 1]) * 10 + (last as int - '0' as int)
  }

  lemma {:induction false} DigitsRoundTrip(n: nat)
    ensures DigitsValue(Digits(n)) == n
    decreases n
  {
    var s := Digits(n);
    if n >= 10 {
      DigitsRoundTrip(n / 10);
      assert s[..|s| - 1] == Digits(n / 10);
    }
  }

  /** Distinct integers print as distinct strings. */
  lemma IntToStringInjective(i: int, j: int)
    requires IntToString(i) == IntToString(j)
    ensures i == j
  {
    var s := IntToString(i);
    MinusSignMeansNegative(i);
    MinusSignMeansNegative(j);
    if i < 0 {
      assert s[1..] == Digits(-i);
      assert s[1..] == Digits(-j);
      DigitsInjective(-i, -j);
    } else {
      DigitsInjective(i, j);
    }
  }

  lemma DigitsInjective(m: nat, n: nat)
    requires Digits(m) == Digits(n)
    ensures m == n
  {
    DigitsRoundTrip(m);
    DigitsRoundTrip(n);
  }

  /** The printed integer starts with a minus sign exactly when it is negative. */
  lemma MinusSignMeansNegative(i: int)
    ensures IntToString(i)[0] == '-' <==> i < 0
  {
    if i >= 0 {
      assert IsDigit(Digits(i)[0]);
    }
  }

  /** Python's `os.path.join(dir, name)` for a name that is not absolute. */
  function JoinPath(dir: string, name: string): (p: string)
    requires name == [] || name[0] != '/'
    ensures |dir| + |name| <= |p| && p[..|dir|] == dir && p[|p| - |name|..] == name
  {
    if dir == [] || dir[|dir| - 1] == '/' then dir + name else dir + "/" + name
  }

  /** The file name an upload is stored under. */
  function StoredName(second: int, filename: string): (n: string)
    ensures |n| > 6 && n[..6] == "print_"
    ensures n[0] != '/'
  {
    "print_" + IntToString(second) + "_" + filename
  }

  /** The stored path of a file uploaded at time `now` (seconds since the epoch). */
  function StoredPath(tempDir: string, now: real, filename: string): (p: string)
    ensures |tempDir| < |p| && p[..|tempDir|] == tempDir
  {
    JoinPath(tempDir, StoredName(Truncate(now), filename))
  }

  /**
   * The handler's decision. No `file` part: 400 "No file provided". An empty
   * filename: 400 "Empty filename". Otherwise the file is saved under
   * StoredPath; if saving fails with an error message, 500 with that message.
   */
  function Receive(req: UploadRequest, tempDir: string, now: real, saveError: Option<string>): (r: Intake)
    ensures FileField !in req.files ==> r == Refused(400, "No file provided")
    ensures FileField in req.files && req.files[FileField] == "" ==> r == Refused(400, "Empty filename")
    ensures r.Stored? <==> FileField in req.files && req.files[FileField] != "" && saveError.None?
    ensures r.Stored? ==> r.filename == req.files[FileField] && r.path == StoredPath(tempDir, now, r.filename)
    ensures FileField in req.files && req.files[FileField] != "" && saveError.Some? ==> r == Refused(500, saveError.value)
    ensures r.Refused? && r.status == 500 ==> saveError == Some(r.error)
  {
    if FileField !in req.files then Refused(400, "No file provided")
    else
      var filename := req.files[FileField];
      if filename == "" then Refused(400, "Empty filename")
      else match saveError
        case Some(e) => Refused(500, e)
        case None => Stored(StoredPath(tempDir, now, filename), filename)
  }

  /** In x + "_" + f with no underscore in x, the first underscore is at |x|. */
  lemma FirstUnderscore(x: string, f: string)
    requires '_' !in x
    ensures (x + "_" + f)[|x|] == '_'
    ensures forall k :: 0 <= k < |x| ==> (x + "_" + f)[k] != '_'
  {
    forall k | 0 <= k < |x| ensures (x + "_" + f)[k] != '_' {
      assert (x + "_" + f)[k] == x[k];
    }
  }

  /** Two strings with an underscore after an underscore-free prefix split the same way only if equal. */
  lemma SplitAtUnderscore(x: string, f: string, y: string, g: string)
    requires '_' !in x && '_' !in y
    requires x + "_" + f == y + "_" + g
    ensures x == y && f == g
  {
    var s := x + "_" + f;
    FirstUnderscore(x, f);
    FirstUnderscore(y, g);
    assert |x| == |y|;
    assert x == s[..|x|] == y;
    assert f == s[|x| + 1..] == g;
  }

  /**
   * The stored name determines the upload: it is the same for two uploads
   * exactly when they arrive in the same whole second with the same
   * filename. Two same-second uploads of one filename share a path.
   */
  lemma StoredNameIdentifiesUpload(t1: int, f1: string, t2: int, f2: string)
    ensures StoredName(t1, f1) == StoredName(t2, f2) <==> t1 == t2 && f1 == f2
  {
    if StoredName(t1, f1) == StoredName(t2, f2) {
      var a, b := IntToString(t1), IntToString(t2);
      assert "print_" + (a + "_" + f1) == StoredName(t1, f1);
      assert "print_" + (b + "_" + f2) == StoredName(t2, f2);
      assert a + "_" + f1 == StoredName(t1, f1)[6..] == b + "_" + f2;
      SplitAtUnderscore(a, f1, b, f2);
      IntToStringInjective(t1, t2);
    }
  }

  /**
   * Within one temporary directory, stored paths are equal exactly when the
   * uploads fall in the same whole second and share the filename.
   */
  lemma StoredPathIdentifiesUpload(tempDir: string, t1: int, f1: string, t2: int, f2: string)
    ensures JoinPath(tempDir, StoredName(t1, f1)) == JoinPath(tempDir, StoredName(t2, f2))
        <==> t1 == t2 && f1 == f2
  {
    var n1, n2 := StoredName(t1, f1), StoredName(t2, f2);
    if JoinPath(tempDir, n1) == JoinPath(tempDir, n2) {
      JoinPathInjective(tempDir, n1, n2);
    }
    StoredNameIdentifiesUpload(t1, f1, t2, f2);
  }

  /** Every stored path starts with the temporary directory path and ends with the original filename. */
  lemma StoredPathInTempDir(tempDir: string, second: int, filename: string)
    ensures var p := JoinPath(tempDir, StoredName(second, filename));
      p[..|tempDir|] == tempDir && p[|p| - |filename|..] == filename
  {
    var n := StoredName(second, filename);
    StoredNameEndsWithFilename(second, filename);
    SuffixOfSuffix(JoinPath(tempDir, n), n, filename);
  }

  /** The stored name keeps the original filename at its end. */
  lemma StoredNameEndsWithFilename(second: int, filename: string)
    ensures var n := StoredName(second, filename);
      |filename| <= |n| && n[|n| - |filename|..] == filename
  {
    var x := "print_" + IntToString(second) + "_";
    assert StoredName(second, filename) == x + filename;
  }

  lemma SuffixOfSuffix<T>(p: seq<T>, n: seq<T>, f: seq<T>)
    requires |n| <= |p| && p[|p| - |n|..] == n
    requires |f| <= |n| && n[|n| - |f|..] == f
    ensures p[|p| - |f|..] == f
  {
    assert p[|p| - |f|..] == p[|p| - |n|..][|n| - |f|..];
  }

  /** Joining one directory with two names gives one path only if the names are equal. */
  lemma JoinPathInjective(dir: string, n1: string, n2: string)
    requires n1 == [] || n1[0] != '/'
    requires n2 == [] || n2[0] != '/'
    requires JoinPath(dir, n1) == JoinPath(dir, n2)
    ensures n1 == n2
  {
    var p := JoinPath(dir, n1);
    if dir == [] || dir[|dir| - 1] == '/' {
      assert n1 == p[|dir|..] == n2;
    } else {
      assert n1 == p[|dir| + 1..] == n2;
    }
  }

  /** A request without a file part, or with an empty filename, stores nothing, whatever the clock says. */
  lemma InvalidUploadStoresNothing(req: UploadRequest, tempDir: string, now: real, saveError: Option<string>)
    requires FileField !in req.files || req.files[FileField] == ""
    ensures Receive(req, tempDir, now, saveError).Refused?
    ensures Receive(req, tempDir, now, saveError).status == 400
  {
  }
}
