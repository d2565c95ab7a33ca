/** The category table of the file organizer and the classification of a
    file by its extension. */
module FileCategories {
  import opened Results

  const Others: string := "Others"

  /** `FILE_CATEGORIES`, in the order the dictionary literal lists it. Some
      extensions occur in two lists; the earlier category wins. */
  const Table: seq<(string, seq<string>)> := [
    ("Images", [".jpg", ".jpeg", ".png", ".gif", ".bmp", ".svg", ".ico", ".webp", ".tiff", ".tif", ".heic"]),
    ("Videos", [".mp4", ".avi", ".mov", ".wmv", ".flv", ".webm", ".mkv", ".m4v", ".3gp", ".mpg", ".mpeg"]),
    ("Audio", [".mp3", ".wav", ".flac", ".aac", ".ogg", ".wma", ".m4a", ".opus", ".amr"]),
    ("Documents", [".pdf", ".doc", ".docx", ".xls", ".xlsx", ".ppt", ".pptx", ".txt", ".rtf", ".odt", ".ods", ".odp"]),
    ("Archives", [".zip", ".rar", ".7z", ".tar", ".gz", ".bz2", ".xz", ".iso", ".dmg"]),
    ("Code", [".py", ".js", ".html", ".css", ".java", ".cpp", ".c", ".h", ".cs", ".php", ".rb", ".go", ".rs",
              ".swift", ".kt", ".ts", ".jsx", ".tsx", ".json", ".xml", ".yaml", ".yml"]),
    ("Executables", [".exe", ".msi", ".deb", ".rpm", ".dmg", ".pkg", ".app"]),
    ("Spreadsheets", [".csv", ".xls", ".xlsx", ".ods"]),
    ("Presentations", [".ppt", ".pptx", ".odp", ".key"]),
    ("Others", [])
  ]

  /** The category names, in table order: the ten keys of the dictionary,
      each once. */
  function CategoryNames(): (names: seq<string>)
    ensures names == ["Images", "Videos", "Audio", "Documents", "Archives", "Code",
                      "Executables", "Spreadsheets", "Presentations", Others]
    ensures forall i, j :: 0 <= i < j < |names| ==> names[i] != names[j]
    ensures forall i :: 0 <= i < |Table| ==> names[i] == Table[i].0
  {
    seq(|Table|, i requires 0 <= i < |Table| => Table[i].0)
  }

  /** `Others` is the last category, its list is empty, and no other
      category bears its name. */
  lemma OthersIsDefaultOnly()
    ensures |Table| == 10 && Table[9] == (Others, [])
    ensures forall i :: 0 <= i < 9 ==> Table[i].0 != Others
  {
  }

  /** U+212A KELVIN SIGN, which `str.lower` maps to the ASCII letter `k`. */
  const KelvinSign: char := '\U{212A}'

  function LowerChar(c: char): (d: char)
    ensures !('A' <= d <= 'Z')
  {
    if 'A' <= c <= 'Z' then (c as int - 'A' as int + 'a' as int) as char
    else if c == KelvinSign then 'k'
    else c
  }

  /** `str.lower` as far as it can yield ASCII: `A`-`Z` become `a`-`z`, the
      Kelvin sign becomes `k`, every other character is kept. */
  function Lower(s: string): (t: string)
    ensures |t| == |s|
    ensures forall i :: 0 <= i < |t| ==> !('A' <= t[i] <= 'Z')
    ensures forall i :: 0 <= i < |s| && 'A' <= s[i] <= 'Z' ==> t[i] as int == s[i] as int + 32
    ensures forall i :: 0 <= i < |s| && s[i] == KelvinSign ==> t[i] == 'k'
    ensures forall i :: 0 <= i < |s| && !('A' <= s[i] <= 'Z') && s[i] != KelvinSign ==> t[i] == s[i]
  {
    seq(|s|, i requires 0 <= i < |s| => LowerChar(s[i]))
  }

  lemma LowerIdempotent(s: string)
    ensures Lower(Lower(s)) == Lower(s)
  {
  }

  /** The index of the first category at or after `from` whose list holds `ext`. */
  function FirstMatch(ext: string, from: nat): (r: Option<nat>)
    requires from <= |Table|
    ensures r.Some? ==> from <= r.value < |Table| && ext in Table[r.value].1
    ensures r.Some? ==> forall j :: from <= j < r.value ==> ext !in Table[j].1
    ensures r.None? ==> forall j :: from <= j < |Table| ==> ext !in Table[j].1
    decreases |Table| - from
  {
    if from == |Table| then None
    else if ext in Table[from].1 then Some(from)
    else FirstMatch(ext, from + 1)
  }

  /** `identify_file_type`: the first category, in table order, whose list
      holds the lower-cased suffix; `Others` when none does. */
  function IdentifyFileType(suffix: string): (category: string)
    ensures category in CategoryNames()
  {
    match FirstMatch(Lower(suffix), 0)
    case Some(i) => Table[i].0
    case None => Others
  }

  /** The category is `Others` exactly when no list holds the lower-cased
      suffix; otherwise it is the first category, in table order, whose list
      holds it. */
  lemma IdentifyFileTypeFirstMatch(suffix: string)
    ensures IdentifyFileType(suffix) == Others <==> forall i :: 0 <= i < |Table| ==> Lower(suffix) !in Table[i].1
    ensures IdentifyFileType(suffix) != Others ==>
      exists i :: 0 <= i < |Table| && Table[i].0 == IdentifyFileType(suffix) && Lower(suffix) in Table[i].1
                  && forall j :: 0 <= j < i ==> Lower(suffix) !in Table[j].1
  {
    OthersIsDefaultOnly();
  }

  /** Classification ignores the case of the suffix. */
  lemma CaseInsensitive(a: string, b: string)
    requires Lower(a) == Lower(b)
    ensures IdentifyFileType(a) == IdentifyFileType(b)
  {
  }

  /** ".JPG" and ".jpg" are both images. */
  lemma JpgAnyCase()
    ensures IdentifyFileType(".JPG") == IdentifyFileType(".jpg") == "Images"
  {
    assert Lower(".JPG") == ".jpg";
    assert Lower(".jpg") == ".jpg";
    assert ".jpg" in Table[0].1;
  }

  /** ".xls" is listed under Documents and Spreadsheets; Documents comes first. */
  lemma XlsIsDocument()
    ensures IdentifyFileType(".xls") == "Documents"
  {
    var e := ".xls";
    assert Lower(e) == e;
    assert e !in Table[0].1 && e !in Table[1].1 && e !in Table[2].1 && e in Table[3].1;
    assert FirstMatch(e, 3) == Some(3);
    assert FirstMatch(e, 0) == FirstMatch(e, 1) == FirstMatch(e, 2) == FirstMatch(e, 3);
  }

  /** ".dmg" is listed under Archives and Executables; Archives comes first. */
  lemma DmgIsArchive()
    ensures IdentifyFileType(".dmg") == "Archives"
  {
    var e := ".dmg";
    assert Lower(e) == e;
    assert e !in Table[0].1 && e !in Table[1].1 && e !in Table[2].1 && e !in Table[3].1 && e in Table[4].1;
    assert FirstMatch(e, 4) == Some(4);
    assert FirstMatch(e, 0) == FirstMatch(e, 1) == FirstMatch(e, 2) == FirstMatch(e, 3) == FirstMatch(e, 4);
  }

  /** ".key" is in none of the first five lists. */
  lemma KeyNotInFirstFive()
    ensures FirstMatch(".key", 0) == FirstMatch(".key", 5)
  {
    var e := ".key";
    assert e !in Table[0].1 && e !in Table[1].1 && e !in Table[2].1 && e !in Table[3].1 && e !in Table[4].1;
    assert FirstMatch(e, 0) == FirstMatch(e, 1) == FirstMatch(e, 2) == FirstMatch(e, 3)
        == FirstMatch(e, 4) == FirstMatch(e, 5);
  }

  /** ".key" is in none of the code, executable and spreadsheet lists. */
  lemma KeyNotInNextThree()
    ensures FirstMatch(".key", 5) == FirstMatch(".key", 8)
  {
    var e := ".key";
    assert e !in Table[5].1 && e !in Table[6].1 && e !in Table[7].1;
    assert FirstMatch(e, 5) == FirstMatch(e, 6) == FirstMatch(e, 7) == FirstMatch(e, 8);
  }

  /** ".key" is a presentation. */
  lemma KeyIsPresentation()
    ensures IdentifyFileType(".key") == "Presentations"
  {
    var e := ".key";
    assert Lower(e) == e;
    KeyNotInFirstFive();
    KeyNotInNextThree();
    assert e in Table[8].1;
    assert FirstMatch(e, 8) == Some(8);
  }

  /** The Kelvin sign lower-cases to `k`, so ".\U{212A}ey" is a presentation. */
  lemma KelvinKeyIsPresentation()
    ensures IdentifyFileType(".\U{212A}ey") == "Presentations"
  {
    assert Lower(".\U{212A}ey") == Lower(".key");
    CaseInsensitive(".\U{212A}ey", ".key");
    KeyIsPresentation();
  }

  /** ".pptx" is listed under Documents and Presentations; Documents comes first. */
  lemma PptxIsDocument()
    ensures IdentifyFileType(".pptx") == "Documents"
  {
    var e := ".pptx";
    assert Lower(e) == e;
    assert e !in Table[0].1 && e !in Table[1].1 && e !in Table[2].1 && e in Table[3].1;
    assert FirstMatch(e, 3) == Some(3);
    assert FirstMatch(e, 0) == FirstMatch(e, 1) == FirstMatch(e, 2) == FirstMatch(e, 3);
  }
}
