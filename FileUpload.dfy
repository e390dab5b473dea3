/** The upload panel (src/components/FileUpload.tsx): file-type selection and the drop handler. */
module FileUpload {
  import opened Types
  import opened Text
  import opened Effects

  const PdfMimeType: string := "application/pdf"
  const PdfOnlyMessage: string := "Please upload PDF files only"

  /** Line 27: a file is accepted by its MIME type or by a `.pdf` name in any letter case. */
  predicate IsPdf(f: DroppedFile) {
    f.mimeType == PdfMimeType || EndsWith(Lower(f.name), ".pdf")
  }

  /** The name ends in a dot followed by p, d, f, each in either case. */
  predicate HasPdfExtension(name: string) {
    && |name| >= 4
    && name[|name| - 4] == '.'
    && (name[|name| - 3] == 'p' || name[|name| - 3] == 'P')
    && (name[|name| - 2] == 'd' || name[|name| - 2] == 'D')
    && (name[|name| - 1] == 'f' || name[|name| - 1] == 'F')
  }

  /** Line 27: the lower-cased suffix test accepts exactly the case-insensitive `.pdf` extension. */
  lemma PdfCheckIgnoresCase(f: DroppedFile)
    ensures IsPdf(f) <==> f.mimeType == PdfMimeType || HasPdfExtension(f.name)
  {
    var n := f.name;
    var l := Lower(n);
    if |n| >= 4 {
      var t := l[|l| - 4..];
      assert t[0] == l[|n| - 4] && t[1] == l[|n| - 3] && t[2] == l[|n| - 2] && t[3] == l[|n| - 1];
      assert EndsWith(l, ".pdf") <==> t == ".pdf";
      assert t == ".pdf" <==> t[0] == '.' && t[1] == 'p' && t[2] == 'd' && t[3] == 'f';
    }
  }

  /** Any name ending in `.PDF` is accepted, whatever its MIME type. */
  lemma UpperCaseExtensionAccepted(stem: string, mimeType: string)
    ensures IsPdf(DroppedFile(stem + ".PDF", mimeType))
  {
    var n := stem + ".PDF";
    PdfCheckIgnoresCase(DroppedFile(n, mimeType));
    assert n[|n| - 4..] == ".PDF";
    assert HasPdfExtension(n);
  }

  /** A `.docx` name with another MIME type is refused. */
  lemma WordDocumentRefused(stem: string, mimeType: string)
    requires mimeType != PdfMimeType
    ensures !IsPdf(DroppedFile(stem + ".docx", mimeType))
  {
    var n := stem + ".docx";
    PdfCheckIgnoresCase(DroppedFile(n, mimeType));
    assert n[|n| - 4..] == "docx";
  }

  /** The PDF files among `files`, in order. */
  function PdfFiles(files: seq<DroppedFile>): seq<DroppedFile> {
    if files == [] then []
    else
      var prefix, last := files[..|files| - 1], files[|files| - 1];
      PdfFiles(prefix) + (if IsPdf(last) then [last] else [])
  }

  /** `PdfFiles` keeps exactly the PDF files. */
  lemma {:induction false} PdfFilesSpec(files: seq<DroppedFile>)
    ensures |PdfFiles(files)| <= |files|
    ensures forall f :: f in PdfFiles(files) <==> f in files && IsPdf(f)
  {
    if files != [] {
      var prefix, last := files[..|files| - 1], files[|files| - 1];
      assert files == prefix + [last];
      PdfFilesSpec(prefix);
    }
  }

  /** The files the effects upload, in order. */
  function UploadedFiles(effects: seq<Effect>): seq<DroppedFile> {
    if effects == [] then []
    else
      var prefix, last := effects[..|effects| - 1], effects[|effects| - 1];
      UploadedFiles(prefix) + (if last.Mutate? && last.mutation.Upload? then [last.mutation.file] else [])
  }

  /** How many alerts the effects raise. */
  function AlertCount(effects: seq<Effect>): nat {
    if effects == [] then 0
    else
      var prefix, last := effects[..|effects| - 1], effects[|effects| - 1];
      AlertCount(prefix) + (if last.Alert? then 1 else 0)
  }

  lemma AppendEffect(effects: seq<Effect>, e: Effect)
    ensures UploadedFiles(effects + [e])
         == UploadedFiles(effects) + (if e.Mutate? && e.mutation.Upload? then [e.mutation.file] else [])
    ensures AlertCount(effects + [e]) == AlertCount(effects) + (if e.Alert? then 1 else 0)
  {
    assert (effects + [e])[..|effects|] == effects;
  }

  lemma AppendDropped(files: seq<DroppedFile>, i: int)
    requires 0 <= i < |files|
    ensures PdfFiles(files[..i + 1]) == PdfFiles(files[..i]) + (if IsPdf(files[i]) then [files[i]] else [])
  {
    assert files[..i + 1][..i] == files[..i];
  }

  /** What the drop handler does with one file. */
  function EffectFor(f: DroppedFile, fileTypeId: int): (e: Effect)
    ensures e.Mutate? <==> IsPdf(f)
    ensures e.Mutate? ==> e.mutation == Upload(f, fileTypeId)
    ensures !e.Mutate? ==> e == Alert(PdfOnlyMessage)
  {
    if IsPdf(f) then Mutate(Upload(f, fileTypeId)) else Alert(PdfOnlyMessage)
  }

  /** Lines 20-22: a finished upload invalidates the file list under every status filter, and nothing else. */
  function UploadSucceeded(): (r: seq<Effect>)
    ensures |r| == 1
    ensures forall k :: Refreshed(r, k) <==> k.FilesQuery?
    ensures forall f, id, k :: StaleAfter(Upload(f, id), k) ==> Refreshed(r, k)
  {
    [Invalidate(FilesPrefix)]
  }

  /** The component's own state: the file type chosen in the selector. */
  class UploadPanel {
    var selectedFileType: int

    /** Line 10: the selector starts at file type 1. */
    constructor()
      ensures selectedFileType == 1
    {
      selectedFileType := 1;
    }

    /** Line 55. */
    method SelectFileType(id: int)
      modifies this
      ensures selectedFileType == id
    {
      selectedFileType := id;
    }

    /**
     * Lines 25-33: every dropped file, in order, becomes one upload with the selected
     * file type when it looks like a PDF, and one alert otherwise.
     */
    method OnDrop(files: seq<DroppedFile>) returns (effects: seq<Effect>)
      ensures |effects| == |files|
      ensures forall i :: 0 <= i < |files| ==> effects[i] == EffectFor(files[i], selectedFileType)
      ensures UploadedFiles(effects) == PdfFiles(files)
      ensures AlertCount(effects) + |PdfFiles(files)| == |files|
    {
      effects := [];
      for i := 0 to |files|
        invariant |effects| == i
        invariant forall j :: 0 <= j < i ==> effects[j] == EffectFor(files[j], selectedFileType)
        invariant UploadedFiles(effects) == PdfFiles(files[..i])
        invariant AlertCount(effects) + |PdfFiles(files[..i])| == i
      {
        var file := files[i];
        AppendEffect(effects, EffectFor(file, selectedFileType));
        AppendDropped(files, i);
        if IsPdf(file) {
          effects := effects + [Mutate(Upload(file, selectedFileType))];
        } else {
          effects := effects + [Alert(PdfOnlyMessage)];
        }
      }
      assert files[..|files|] == files;
    }
  }
}
