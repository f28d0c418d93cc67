/** `process_pdf_to_markdown`: save the upload to a temporary file, rebuild an
    unprotected copy when a password is given and the PDF is encrypted, convert the
    chosen file to Markdown, then remove the temporary files. */
module Conversion {
  import opened Wrappers
  import opened Text
  import opened TempFiles
  import opened PdfWriting

  /** Every exception raised while processing reaches the caller behind this prefix. */
  const ProcessingPrefix := "PDF processing failed: "

  /** What the libraries do on this request. Each field stands for one foreign call. */
  datatype PdfOracles = PdfOracles(
    save: Step,                          // pdf_file.save(temp_pdf.name)
    reader: Result<bool>,                // PdfReader(file).is_encrypted, or what opening/parsing raised
    decrypt: Step,                       // reader.decrypt(password); what it returns is ignored
    pages: Result<seq<Page>>,            // iterating reader.pages
    write: Step,                         // writer.write(output)
    convert: Document -> Result<string>, // md.convert(path).text_content, from the file's content
    unlinkFirst: Step,                   // os.unlink(temp_pdf.name)
    unlinkSecond: Step)                  // os.unlink(temp_pdf_path)

  /** The request reaches the creation of the second, unprotected temporary file. */
  predicate MakesCopy(password: Option<string>, o: PdfOracles)
  {
    o.save.Ok? && NonEmpty(password) && o.reader == Success(true) && o.decrypt.Ok? && o.pages.Success?
  }

  /** The content of the file handed to the converter, or the cause of the exception
      raised before conversion. */
  function ConverterInput(data: seq<bv8>, password: Option<string>, o: PdfOracles): (r: Result<Document>)
    ensures !NonEmpty(password) ==> r == (if o.save.Ok? then Success(Uploaded(data)) else Failure(o.save.cause))
    ensures MakesCopy(password, o) && o.write.Ok? ==> r == Success(Rebuilt(o.pages.value))
    ensures r.Success? ==> r.value == Uploaded(data) || (MakesCopy(password, o) && r.value == Rebuilt(o.pages.value))
    ensures r.Success? && r.value.Rebuilt? ==> NonEmpty(password) && o.reader == Success(true)
    ensures o.save.Raises? ==> r == Failure(o.save.cause)
    ensures NonEmpty(password) && o.save.Ok? && o.reader.Failure? ==> r == Failure(o.reader.error)
    ensures NonEmpty(password) && o.save.Ok? && o.reader == Success(true) && o.decrypt.Raises? ==>
      r == Failure(o.decrypt.cause)
    ensures NonEmpty(password) && o.save.Ok? && o.reader == Success(true) && o.decrypt.Ok? && o.pages.Failure? ==>
      r == Failure(o.pages.error)
    ensures MakesCopy(password, o) && o.write.Raises? ==> r == Failure(o.write.cause)
  {
    if o.save.Raises? then Failure(o.save.cause)
    else if !NonEmpty(password) then Success(Uploaded(data))
    else match o.reader
      case Failure(cause) => Failure(cause)
      case Success(encrypted) =>
        if !encrypted then Success(Uploaded(data))
        else if o.decrypt.Raises? then Failure(o.decrypt.cause)
        else match o.pages
          case Failure(cause) => Failure(cause)
          case Success(pages) =>
            if o.write.Raises? then Failure(o.write.cause) else Success(Rebuilt(pages))
  }

  /** What `process_pdf_to_markdown` returns, or the message of the exception it raises. */
  function ProcessingResult(data: seq<bv8>, password: Option<string>, o: PdfOracles): (r: Result<string>)
    ensures r.Failure? ==> StartsWith(r.error, ProcessingPrefix)
    ensures r.Success? <==> ConverterInput(data, password, o).Success? && o.convert(ConverterInput(data, password, o).value).Success?
    ensures r.Success? ==> r == o.convert(ConverterInput(data, password, o).value)
    ensures ConverterInput(data, password, o).Failure? ==>
      r == Failure(ProcessingPrefix + ConverterInput(data, password, o).error)
    ensures ConverterInput(data, password, o).Success? && o.convert(ConverterInput(data, password, o).value).Failure? ==>
      r == Failure(ProcessingPrefix + o.convert(ConverterInput(data, password, o).value).error)
  {
    match ConverterInput(data, password, o)
    case Failure(cause) => Failure(ProcessingPrefix + cause)
    case Success(doc) =>
      match o.convert(doc)
      case Failure(cause) => Failure(ProcessingPrefix + cause)
      case Success(text) => Success(text)
  }

  /** The temporary files a request creates, with what they hold, when the next
      unused name is `Path(next)`. */
  function Created(next: nat, data: seq<bv8>, password: Option<string>, o: PdfOracles): (c: map<Path, Document>)
    ensures c.Keys == if MakesCopy(password, o) then {Path(next), Path(next + 1)} else {Path(next)}
    ensures c[Path(next)] == if o.save.Ok? then Uploaded(data) else Empty
  {
    var first := map[Path(next) := if o.save.Ok? then Uploaded(data) else Empty];
    if MakesCopy(password, o) then
      first[Path(next + 1) := if o.write.Ok? then Rebuilt(o.pages.value) else Empty]
    else
      first
  }

  /** The temporary files a request removes again. */
  function Removed(next: nat, data: seq<bv8>, password: Option<string>, o: PdfOracles): (gone: set<Path>)
    ensures gone <= Created(next, data, password, o).Keys
    ensures gone != {} ==> ProcessingResult(data, password, o).Success?
    ensures ProcessingResult(data, password, o).Success? && o.unlinkFirst.Ok? ==> Path(next) in gone
    ensures Path(next + 1) in gone <==>
      ProcessingResult(data, password, o).Success? && o.unlinkFirst.Ok? && MakesCopy(password, o) && o.unlinkSecond.Ok?
  {
    if ProcessingResult(data, password, o).Failure? || o.unlinkFirst.Raises? then {}
    else if MakesCopy(password, o) && o.unlinkSecond.Ok? then {Path(next), Path(next + 1)}
    else {Path(next)}
  }

  /** The live temporary files after the request, starting from `files`. */
  function Residue(files: map<Path, Document>, next: nat, data: seq<bv8>, password: Option<string>, o: PdfOracles): map<Path, Document>
  {
    (files + Created(next, data, password, o)) - Removed(next, data, password, o)
  }

  /** The normaliser: saves the upload to a first temporary file and, when a password is
      given and the PDF is encrypted, copies every page into a writer and saves it to a
      second temporary file. Returns the first file and the path handed to the converter,
      or the cause of the exception raised on the way. */
  method Normalize(store: TempStore, data: seq<bv8>, password: Option<string>, o: PdfOracles)
    returns (first: Path, input: Result<Path>)
    requires store.Valid()
    modifies store
    ensures store.Valid()
    ensures first == Path(old(store.next))
    ensures store.files == old(store.files) + Created(old(store.next), data, password, o)
    ensures store.next == old(store.next) + if MakesCopy(password, o) then 2 else 1
    ensures input.Failure? <==> ConverterInput(data, password, o).Failure?
    ensures input.Failure? ==> input.error == ConverterInput(data, password, o).error
    ensures input.Success? ==> input.value in store.files && store.files[input.value] == ConverterInput(data, password, o).value
    ensures input.Success? ==> input.value == if MakesCopy(password, o) then Path(first.id + 1) else first
  {
    first := store.Create();
    var saved := store.Save(first, Uploaded(data), o.save);
    if !saved {
      return first, Failure(o.save.cause);
    }
    input := Success(first);
    if NonEmpty(password) {
      if o.reader.Failure? {
        return first, Failure(o.reader.error);
      }
      if o.reader.value {
        if o.decrypt.Raises? {
          return first, Failure(o.decrypt.cause);
        }
        if o.pages.Failure? {
          return first, Failure(o.pages.error);
        }
        var pages := o.pages.value;
        var writer := new PdfWriter();
        for i := 0 to |pages|
          modifies writer
          invariant writer.pages == pages[..i]
        {
          writer.AddPage(pages[i]);
        }
        assert pages[..|pages|] == pages;
        var second := store.Create();
        var written := store.Save(second, Rebuilt(writer.pages), o.write);
        if !written {
          return first, Failure(o.write.cause);
        }
        input := Success(second);
      }
    }
  }

  method ProcessPdfToMarkdown(store: TempStore, data: seq<bv8>, password: Option<string>, o: PdfOracles)
    returns (r: Result<string>)
    requires store.Valid()
    modifies store
    ensures store.Valid()
    ensures r == ProcessingResult(data, password, o)
    ensures store.files == Residue(old(store.files), old(store.next), data, password, o)
    ensures store.next == old(store.next) + if MakesCopy(password, o) then 2 else 1
  {
    var first, input := Normalize(store, data, password, o);
    if input.Failure? {
      return Failure(ProcessingPrefix + input.error);
    }
    var path := input.value;
    var converted := o.convert(store.files[path]);
    if converted.Failure? {
      return Failure(ProcessingPrefix + converted.error);
    }
    var removedFirst := store.Unlink(first, o.unlinkFirst);
    if removedFirst && NonEmpty(password) && path != first {
      var _ := store.Unlink(path, o.unlinkSecond);
    }
    r := Success(converted.value);
  }

  /** A password on an unencrypted PDF is ignored: the request behaves, in its result
      and in its temporary files, exactly as if no password had been sent. */
  lemma PasswordIgnoredWhenUnencrypted(next: nat, data: seq<bv8>, password: Option<string>, o: PdfOracles)
    requires NonEmpty(password) && o.reader == Success(false)
    ensures ProcessingResult(data, password, o) == ProcessingResult(data, None, o)
    ensures Created(next, data, password, o) == Created(next, data, None, o)
    ensures Removed(next, data, password, o) == Removed(next, data, None, o)
  {
  }

  /** Errors from `os.unlink` are swallowed: they never change what the request returns. */
  lemma CleanupErrorsSwallowed(data: seq<bv8>, password: Option<string>, o: PdfOracles, first: Step, second: Step)
    ensures ProcessingResult(data, password, o) == ProcessingResult(data, password, o.(unlinkFirst := first, unlinkSecond := second))
  {
  }

  /** After a successful conversion whose unlinks succeed (the second only matters when
      the unprotected copy was made), no temporary file of the request is left behind. */
  lemma CleanSuccessLeavesNothing(files: map<Path, Document>, next: nat, data: seq<bv8>, password: Option<string>, o: PdfOracles)
    requires forall p :: p in files ==> p.id < next
    requires ProcessingResult(data, password, o).Success?
    requires o.unlinkFirst.Ok? && (MakesCopy(password, o) ==> o.unlinkSecond.Ok?)
    ensures Residue(files, next, data, password, o) == files
  {
  }

  /** When anything raises before the cleanup block, nothing is unlinked: every temporary
      file the request created is still there, the first one included. */
  lemma FailureLeavesTempFiles(files: map<Path, Document>, next: nat, data: seq<bv8>, password: Option<string>, o: PdfOracles)
    requires ProcessingResult(data, password, o).Failure?
    ensures Residue(files, next, data, password, o) == files + Created(next, data, password, o)
    ensures Path(next) in Residue(files, next, data, password, o)
    ensures MakesCopy(password, o) ==> Path(next + 1) in Residue(files, next, data, password, o)
  {
  }

  /** A failing first unlink skips the second: both temporary files stay behind. */
  lemma FirstUnlinkErrorSkipsSecond(files: map<Path, Document>, next: nat, data: seq<bv8>, password: Option<string>, o: PdfOracles)
    requires ProcessingResult(data, password, o).Success?
    requires o.unlinkFirst.Raises?
    ensures Residue(files, next, data, password, o) == files + Created(next, data, password, o)
  {
  }

  /** A failing second unlink is swallowed after the first file is gone: only the
      unprotected copy stays behind. */
  lemma SecondUnlinkErrorKeepsCopy(files: map<Path, Document>, next: nat, data: seq<bv8>, password: Option<string>, o: PdfOracles)
    requires forall p :: p in files ==> p.id < next
    requires ProcessingResult(data, password, o).Success?
    requires MakesCopy(password, o) && o.unlinkFirst.Ok? && o.unlinkSecond.Raises?
    ensures Residue(files, next, data, password, o) == files[Path(next + 1) := Rebuilt(o.pages.value)]
  {
  }

  /** Only the encrypted branch with a given password creates the second temporary file,
      and then it holds exactly the reader's pages, in order. */
  lemma SecondFileOnlyForEncrypted(next: nat, data: seq<bv8>, password: Option<string>, o: PdfOracles)
    ensures Path(next + 1) in Created(next, data, password, o) <==> MakesCopy(password, o)
    ensures MakesCopy(password, o) ==> NonEmpty(password) && o.reader == Success(true)
    ensures MakesCopy(password, o) && o.write.Ok? ==>
      Created(next, data, password, o)[Path(next + 1)] == Rebuilt(o.pages.value)
  {
  }
}
