/** `src/utils/fileUtils.ts`: extension extraction, the PDF test, filename
    sanitising, the size limit, and the unit `formatFileSize` chooses. */
module FileUtils {
  import opened Text

  /** The parts of a browser `File` the utilities read. */
  datatype FileMeta = FileMeta(name: string, mimeType: string, size: nat)

  /** `filename.split('.').pop()`: the text after the last '.', or the whole name
      when there is none. */
  function LastSegment(filename: string): (seg: string)
    ensures |seg| <= |filename| && seg == filename[|filename| - |seg|..]
    ensures '.' !in seg
    ensures |seg| < |filename| ==> filename[|filename| - |seg| - 1] == '.'
  {
    if filename == [] then []
    else if filename[|filename| - 1] == '.' then []
    else
      var front := filename[..|filename| - 1];
      var seg := LastSegment(front) + [filename[|filename| - 1]];
      assert filename == front + [filename[|filename| - 1]];
      seg
  }

  /** `getFileExtension`: the lower-cased text after the last '.'. */
  function GetFileExtension(filename: string): (ext: string)
    ensures |ext| <= |filename| && ext == ToLower(filename[|filename| - |ext|..])
    ensures '.' !in filename[|filename| - |ext|..]
    ensures |ext| < |filename| ==> filename[|filename| - |ext| - 1] == '.'
  {
    ToLower(LastSegment(filename))
  }

  /** A name without any '.' is its own extension, lower-cased. */
  lemma NoDotExtension(filename: string)
    requires '.' !in filename
    ensures GetFileExtension(filename) == ToLower(filename)
  {
  }

  /** A name ending in '.' has the empty extension. */
  lemma TrailingDotExtension(filename: string)
    requires filename != [] && filename[|filename| - 1] == '.'
    ensures GetFileExtension(filename) == ""
  {
  }

  /** The extension of `stem + "." + tail` is `tail` lower-cased when `tail` has no '.'. */
  lemma {:induction false} ExtensionAfterLastDot(stem: string, tail: string)
    requires '.' !in tail
    ensures LastSegment(stem + "." + tail) == tail
    ensures GetFileExtension(stem + "." + tail) == ToLower(tail)
    decreases |tail|
  {
    var name := stem + "." + tail;
    if tail != [] {
      var front := tail[..|tail| - 1];
      assert name[..|name| - 1] == stem + "." + front;
      ExtensionAfterLastDot(stem, front);
      assert tail == front + [tail[|tail| - 1]];
    }
  }

  /** `isPdfFile`: the MIME type says PDF, or the extension is "pdf" in any case. */
  function IsPdfFile(file: FileMeta): (isPdf: bool)
    ensures isPdf <==> file.mimeType == "application/pdf" || GetFileExtension(file.name) == "pdf"
  {
    if file.mimeType == "application/pdf" then true
    else GetFileExtension(file.name) == "pdf"
  }

  /** A character `[^\w\s.-]` does not match, so `sanitizeFilename` keeps it. */
  predicate SafeChar(c: char) {
    IsWordChar(c) || IsWhitespace(c) || c == '.' || c == '-'
  }

  predicate AllSafe(s: string) {
    forall i :: 0 <= i < |s| ==> SafeChar(s[i])
  }

  /** `a` is obtained from `b` by deleting characters. */
  predicate IsSubsequence(a: string, b: string)
    decreases |b|
  {
    if a == [] then true
    else if b == [] then false
    else if a[0] == b[0] then IsSubsequence(a[1..], b[1..])
    else IsSubsequence(a, b[1..])
  }

  /** `sanitizeFilename`: `filename.replace(/[^\w\s.-]/g, '')`. */
  function SanitizeFilename(filename: string): (clean: string)
    ensures AllSafe(clean)
    ensures IsSubsequence(clean, filename)
    ensures |clean| <= |filename|
    ensures AllSafe(filename) ==> clean == filename
    ensures forall c :: multiset(clean)[c] == if SafeChar(c) then multiset(filename)[c] else 0
  {
    if filename == [] then []
    else
      var rest := SanitizeFilename(filename[1..]);
      SanitizeStep(filename, rest);
      if SafeChar(filename[0]) then [filename[0]] + rest else rest
  }

  /** Keeping the first character when it is safe, in front of the cleaned tail, cleans
      the whole name. */
  lemma SanitizeStep(filename: string, rest: string)
    requires filename != []
    requires AllSafe(rest) && IsSubsequence(rest, filename[1..]) && |rest| <= |filename[1..]|
    requires AllSafe(filename[1..]) ==> rest == filename[1..]
    requires forall c :: multiset(rest)[c] == if SafeChar(c) then multiset(filename[1..])[c] else 0
    ensures var clean := if SafeChar(filename[0]) then [filename[0]] + rest else rest;
            && AllSafe(clean)
            && IsSubsequence(clean, filename)
            && |clean| <= |filename|
            && (AllSafe(filename) ==> clean == filename)
            && forall c :: multiset(clean)[c] == if SafeChar(c) then multiset(filename)[c] else 0
  {
    var x, tail := filename[0], filename[1..];
    assert filename == [x] + tail;
    if SafeChar(x) {
      var clean := [x] + rest;
      assert AllSafe(clean) by {
        forall i | 0 <= i < |clean| ensures SafeChar(clean[i]) {
          if i > 0 {
            assert clean[i] == rest[i - 1];
          }
        }
      }
      assert IsSubsequence(clean, filename) by {
        assert clean[1..] == rest;
      }
      if AllSafe(filename) {
        assert AllSafe(tail) by {
          forall i | 0 <= i < |tail| ensures SafeChar(tail[i]) {
            assert tail[i] == filename[i + 1];
          }
        }
      }
    } else {
      SubsequenceDropFirst(rest, filename);
    }
  }

  /** A subsequence of the tail of `b` is a subsequence of `b`. */
  lemma {:induction false} SubsequenceDropFirst(a: string, b: string)
    requires b != [] && IsSubsequence(a, b[1..])
    ensures IsSubsequence(a, b)
    decreases |b|, 0
  {
    if a != [] && a[0] == b[0] {
      SubsequenceTail(a, b[1..]);
    }
  }

  /** Dropping the first character of a subsequence leaves a subsequence. */
  lemma {:induction false} SubsequenceTail(a: string, c: string)
    requires a != [] && IsSubsequence(a, c)
    ensures IsSubsequence(a[1..], c)
    decreases |c|, 1
  {
    if a[0] == c[0] {
      SubsequenceDropFirst(a[1..], c);
    } else {
      SubsequenceTail(a, c[1..]);
      SubsequenceDropFirst(a[1..], c);
    }
  }

  /** Sanitising twice is sanitising once. */
  lemma SanitizeIdempotent(filename: string)
    ensures SanitizeFilename(SanitizeFilename(filename)) == SanitizeFilename(filename)
  {
  }

  /** The default limit of `isFileSizeValid`: 50 MiB. */
  const DEFAULT_MAX_SIZE: nat := 50 * 1024 * 1024

  /** `isFileSizeValid(file, maxSizeBytes)`; the limit itself is allowed. */
  function IsFileSizeValid(file: FileMeta, maxSizeBytes: int): (ok: bool)
    ensures ok <==> file.size <= maxSizeBytes
  {
    file.size <= maxSizeBytes
  }

  lemma DefaultLimitBoundary()
    ensures DEFAULT_MAX_SIZE == 52428800
    ensures IsFileSizeValid(FileMeta("a.pdf", "application/pdf", 52428800), DEFAULT_MAX_SIZE)
    ensures !IsFileSizeValid(FileMeta("a.pdf", "application/pdf", 52428801), DEFAULT_MAX_SIZE)
  {
  }

  /** The unit `formatFileSize` prints a size in. */
  datatype SizeUnit = Bytes | KB | MB

  /** The unit choice of `formatFileSize` (the scaled, rounded number is not modelled). */
  function FileSizeUnit(bytes: int): (unit: SizeUnit)
    ensures unit == Bytes <==> bytes < 1024
    ensures unit == KB <==> 1024 <= bytes < 1048576
    ensures unit == MB <==> bytes >= 1048576
  {
    if bytes < 1024 then Bytes
    else if bytes < 1024 * 1024 then KB
    else MB
  }
}
