/** The upload-name filter `allowed_file` (app.py:57-60) and its extension set (app.py:37). */
module Uploads {
  import opened Wrappers
  import opened Text

  /** `ALLOWED_TEXT_EXT`. */
  const AllowedExtensions: set<string> := {"txt", "json", "cookie"}

  /**
   * `allowed_file(filename)`, where `None` stands for Python's `None`: a
   * missing or empty name is refused; otherwise the name must hold a dot and
   * the lower-cased text after the last dot must be an allowed extension.
   */
  function AllowedFile(filename: Option<string>): bool {
    match filename
    case None => false
    case Some(name) =>
      if name == [] then false
      else '.' in name && Lower(AfterLast(name, '.')) in AllowedExtensions
  }

  /** `i` is the position of the last dot in `name`. */
  predicate LastDotAt(name: string, i: int) {
    0 <= i < |name| && name[i] == '.' && '.' !in name[i + 1..]
  }

  /**
   * `None` is refused; a name is allowed exactly when it has a last dot and
   * the lower-cased text after it is `txt`, `json` or `cookie` (so the empty
   * name is refused too).
   */
  lemma AllowedFileIff(name: string)
    ensures !AllowedFile(None)
    ensures AllowedFile(Some(name)) <==>
      exists i :: LastDotAt(name, i) && Lower(name[i + 1..]) in AllowedExtensions
  {
    if '.' in name {
      var r := AfterLast(name, '.');
      var i := |name| - |r| - 1;
      assert name[i + 1..] == r;
      assert LastDotAt(name, i);
      forall j | LastDotAt(name, j) ensures j == i {
      }
    }
  }

  /** Upper-case extensions are allowed: `notes.TXT`. */
  lemma UpperCaseAllowed()
    ensures AllowedFile(Some("notes.TXT"))
  {
    var name := "notes.TXT";
    assert LastIndex(name, '.', 9) == Some(5);
    assert AfterLast(name, '.') == "TXT";
    assert Lower("TXT") == "txt";
  }

  /** Only the text after the LAST dot counts: `archive.txt.zip` is refused. */
  lemma LastDotDecides()
    ensures !AllowedFile(Some("archive.txt.zip"))
  {
    var name := "archive.txt.zip";
    AllowedFileIff(name);
    assert LastDotAt(name, 11);
    forall j | LastDotAt(name, j) ensures j == 11 {
    }
    assert name[12..] == "zip";
    assert Lower("zip") == "zip";
  }

  /** A bare extension with no dot is refused: `txt`. */
  lemma DotRequired()
    ensures !AllowedFile(Some("txt"))
  {
    assert "txt"[0] != '.' && "txt"[1] != '.' && "txt"[2] != '.';
  }
}
