/** `src/utils/fileValidators.ts`: three independent checks on an uploaded file and
    their first-error-wins combination. A check yields `None` when it passes and
    `Some(message)` when it fails. */
module FileValidators {
  import opened Types
  import opened Text
  import FileUtils

  /** `MAX_FILE_SIZE`: 50 MiB in bytes. */
  const MAX_FILE_SIZE: nat := 50 * 1024 * 1024

  const SIZE_ERROR_PREFIX := "File size exceeds maximum limit of "
  const TYPE_ERROR := "File must be a PDF document"
  const NAME_ERROR := "File name contains invalid characters"

  /** `validateFileSize`: a file larger than the limit is refused; the message names the
      limit in MB. */
  function ValidateFileSize(file: FileUtils.FileMeta): (err: Option<string>)
    ensures err.None? <==> file.size <= MAX_FILE_SIZE
    ensures err.Some? ==> err.value == SIZE_ERROR_PREFIX + NatToDecimal(MAX_FILE_SIZE / (1024 * 1024)) + "MB"
  {
    if file.size > MAX_FILE_SIZE then
      Some(SIZE_ERROR_PREFIX + NatToDecimal(MAX_FILE_SIZE / (1024 * 1024)) + "MB")
    else None
  }

  /** The limit in the size message reads "50". */
  lemma SizeMessageText()
    ensures NatToDecimal(MAX_FILE_SIZE / (1024 * 1024)) == "50"
  {
    assert MAX_FILE_SIZE / (1024 * 1024) == 50;
    assert NatToDecimal(5) == "5";
    assert NatToDecimal(50) == NatToDecimal(5) + [DigitChar(0)];
  }

  /** `validateFilePdf`: only the MIME type is consulted. */
  function ValidateFilePdf(file: FileUtils.FileMeta): (err: Option<string>)
    ensures err.None? <==> file.mimeType == "application/pdf"
    ensures err.Some? ==> err.value == TYPE_ERROR
  {
    if file.mimeType != "application/pdf" then Some(TYPE_ERROR) else None
  }

  /** The class `[<>:"/\\|?*]`. */
  predicate DangerousChar(c: char) {
    c == '<' || c == '>' || c == ':' || c == '"' || c == '/' || c == '\\' || c == '|' || c == '?' || c == '*'
  }

  /** `validateFileName`: a name holding any dangerous character is refused. */
  function ValidateFileName(file: FileUtils.FileMeta): (err: Option<string>)
    ensures err.None? <==> forall i :: 0 <= i < |file.name| ==> !DangerousChar(file.name[i])
    ensures err.Some? ==> err.value == NAME_ERROR
  {
    if exists i :: 0 <= i < |file.name| && DangerousChar(file.name[i]) then Some(NAME_ERROR) else None
  }

  /** `validateFile`: the checks in the order size, type, name; the first failure is
      the result. */
  function ValidateFile(file: FileUtils.FileMeta): (err: Option<string>)
    ensures err.None? <==> ValidateFileSize(file).None? && ValidateFilePdf(file).None? && ValidateFileName(file).None?
    ensures ValidateFileSize(file).Some? ==> err == ValidateFileSize(file)
    ensures ValidateFileSize(file).None? && ValidateFilePdf(file).Some? ==> err == ValidateFilePdf(file)
    ensures ValidateFileSize(file).None? && ValidateFilePdf(file).None? ==> err == ValidateFileName(file)
  {
    var sizeError := ValidateFileSize(file);
    if sizeError.Some? then sizeError
    else
      var typeError := ValidateFilePdf(file);
      if typeError.Some? then typeError
      else
        var nameError := ValidateFileName(file);
        if nameError.Some? then nameError
        else None
  }

  /** The validators' limit and the utilities' default limit are the same, so the two
      size tests agree on every file. */
  lemma SizeCheckAgreesWithUtils(file: FileUtils.FileMeta)
    ensures ValidateFileSize(file).None? <==> FileUtils.IsFileSizeValid(file, FileUtils.DEFAULT_MAX_SIZE)
  {
  }

  /** Exactly 50 MiB passes; one byte more is refused. */
  lemma SizeBoundary()
    ensures ValidateFileSize(FileUtils.FileMeta("a.pdf", "application/pdf", 52428800)).None?
    ensures ValidateFileSize(FileUtils.FileMeta("a.pdf", "application/pdf", 52428801)).Some?
  {
  }

  /** A file whose name ends in ".pdf" but whose MIME type is not PDF fails the
      validators' type check although the utilities' `isPdfFile` accepts it by extension. */
  lemma TypeCheckIgnoresExtension(stem: string)
    ensures var f := FileUtils.FileMeta(stem + ".pdf", "application/octet-stream", 10);
            ValidateFilePdf(f) == Some(TYPE_ERROR) && FileUtils.IsPdfFile(f)
  {
    assert stem + ".pdf" == stem + "." + "pdf";
    assert '.' !in "pdf";
    FileUtils.ExtensionAfterLastDot(stem, "pdf");
    assert ToLower("pdf") == "pdf";
  }
}
