/** Named temporary files on disk, reduced to the set of live paths, what each holds,
    and a counter that makes every new name unique. */
module TempFiles {
  import opened Wrappers

  /** One page object of a PDF, as the PDF library hands it over. */
  datatype Page = Page(content: seq<bv8>)

  /** What a temporary file holds: nothing yet (just created, or a write that raised),
      the bytes of the upload, or a PDF rebuilt from a sequence of pages. */
  datatype Document = Empty | Uploaded(data: seq<bv8>) | Rebuilt(pages: seq<Page>)

  /** The `n`-th unique name handed out by `tempfile.NamedTemporaryFile(suffix=".pdf")`. */
  datatype Path = Path(id: nat)

  class TempStore {
    var files: map<Path, Document>
    var next: nat

    /** Every live path was handed out earlier, so the next name is not in use. */
    ghost predicate Valid()
      reads this
    {
      forall p :: p in files ==> p.id < next
    }

    constructor ()
      ensures Valid()
      ensures files == map[] && next == 0
    {
      files := map[];
      next := 0;
    }

    /** `NamedTemporaryFile(suffix=".pdf", delete=False)`: a new, empty file under a fresh name. */
    method Create() returns (p: Path)
      requires Valid()
      modifies this
      ensures Valid()
      ensures p == Path(old(next)) && p !in old(files)
      ensures files == old(files)[p := Empty]
      ensures next == old(next) + 1
    {
      p := Path(next);
      files := files[p := Empty];
      next := next + 1;
    }

    /** Writes `doc` to the existing file `p` (`FileStorage.save`, `PdfWriter.write`);
        `outcome` says whether the library call raised, in which case nothing is recorded. */
    method Save(p: Path, doc: Document, outcome: Step) returns (ok: bool)
      requires Valid() && p in files
      modifies this
      ensures Valid()
      ensures ok <==> outcome.Ok?
      ensures files == if ok then old(files)[p := doc] else old(files)
      ensures next == old(next)
    {
      ok := outcome.Ok?;
      if ok {
        files := files[p := doc];
      }
    }

    /** `os.unlink(p)`: raises when the file is missing or the operating system refuses
        (`outcome`); otherwise the file is gone. */
    method Unlink(p: Path, outcome: Step) returns (ok: bool)
      requires Valid()
      modifies this
      ensures Valid()
      ensures ok <==> p in old(files) && outcome.Ok?
      ensures files == if ok then old(files) - {p} else old(files)
      ensures next == old(next)
    {
      ok := p in files && outcome.Ok?;
      if ok {
        files := files - {p};
      }
    }
  }
}
