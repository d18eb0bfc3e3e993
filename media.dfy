/** `getMimeType`, which the detail view and the list item each define with
    the same body: the `type` of a video `<source>` chosen from the file
    name's extension. */
module Media {
  import opened Text

  /** `fileName.split(".").pop()?.toLowerCase()`: the text after the last
      dot, lower-cased; the whole name when it has no dot. */
  function Extension(fileName: string): (ext: string)
    ensures '.' !in ext && |ext| <= |fileName|
    ensures ext == ToLower(fileName[|fileName| - |ext|..])
    ensures |ext| < |fileName| ==> fileName[|fileName| - |ext| - 1] == '.'
    ensures '.' !in fileName ==> ext == ToLower(fileName)
  {
    var seg := LastSegment(fileName, '.');
    LowerSegmentDotFree(seg);
    DotFreeIsLastSegment(fileName);
    ToLower(seg)
  }

  /** Lower-casing never produces a '.' from another character. */
  lemma LowerSegmentDotFree(seg: string)
    requires '.' !in seg
    ensures '.' !in ToLower(seg)
  {
    var ext := ToLower(seg);
    forall i | 0 <= i < |ext|
      ensures ext[i] != '.'
    {
      assert seg[i] != '.';
    }
  }

  /** A name without a '.' is its own last segment. */
  lemma DotFreeIsLastSegment(fileName: string)
    ensures '.' !in fileName ==> LastSegment(fileName, '.') == fileName
  {
    var seg := LastSegment(fileName, '.');
    if '.' !in fileName {
      assert |seg| == |fileName|;
      assert fileName[|fileName| - |seg|..] == fileName;
    }
  }

  /** The extensions the switch names, with their MIME types. */
  const KnownTypes: seq<(string, string)> := [
    ("mp4", "video/mp4"), ("webm", "video/webm"), ("ogg", "video/ogg"),
    ("mov", "video/quicktime"), ("avi", "video/x-msvideo")]

  const DefaultType := "video/mp4"

  /** The type listed for `ext` in `table`, `DefaultType` when none is. */
  function Lookup(table: seq<(string, string)>, ext: string): (t: string)
    ensures t == DefaultType || exists k :: 0 <= k < |table| && table[k] == (ext, t)
  {
    if table == [] then DefaultType
    else if table[0].0 == ext then table[0].1
    else Lookup(table[1..], ext)
  }

  /** The switch of `getMimeType`, on the extension. */
  function TypeOfExtension(ext: string): string {
    match ext
    case "mp4" => "video/mp4"
    case "webm" => "video/webm"
    case "ogg" => "video/ogg"
    case "mov" => "video/quicktime"
    case "avi" => "video/x-msvideo"
    case _ => DefaultType
  }

  /** `getMimeType`. */
  function MimeType(fileName: string): string {
    TypeOfExtension(Extension(fileName))
  }

  /** The switch is a lookup in the table of known extensions, and every
      other extension, a name without a dot included, falls back to
      "video/mp4". */
  lemma MimeTypeIsLookup(fileName: string)
    ensures MimeType(fileName) == Lookup(KnownTypes, Extension(fileName))
  {
    SwitchIsLookup(Extension(fileName));
  }

  lemma SwitchIsLookup(ext: string)
    ensures TypeOfExtension(ext) == Lookup(KnownTypes, ext)
  {
    assert KnownTypes[1..][1..][1..][1..][1..] == [];
  }

  /** Only the extension counts, and its case does not: two names whose
      lower-cased forms agree get the same type. */
  lemma MimeTypeIgnoresCase(a: string, b: string)
    requires ToLower(a) == ToLower(b)
    ensures Extension(a) == Extension(b)
    ensures MimeType(a) == MimeType(b)
  {
    LastSegmentToLower(a);
    LastSegmentToLower(b);
    ToLowerIdempotent(LastSegment(a, '.'));
    ToLowerIdempotent(LastSegment(b, '.'));
  }
}
