/** String helpers with the meaning Python gives them in the request handlers. */
module Text {
  import opened Wrappers

  /** Python truthiness of an optional string: `None` and `""` are both false. */
  predicate NonEmpty(s: Option<string>)
    ensures NonEmpty(s) <==> s != None && s != Some("")
  {
    s.Some? && s.value != ""
  }

  /** ASCII lower-casing of one character. */
  function LowerChar(c: char): char
  {
    if 'A' <= c <= 'Z' then (c as int + 32) as char else c
  }

  /** `str.lower()`, restricted to ASCII letters. */
  function Lower(s: string): (r: string)
    ensures |r| == |s|
    ensures forall i :: 0 <= i < |s| ==> r[i] == LowerChar(s[i])
  {
    if s == [] then [] else [LowerChar(s[0])] + Lower(s[1..])
  }

  predicate StartsWith(s: string, prefix: string)
  {
    |prefix| <= |s| && s[..|prefix|] == prefix
  }

  predicate EndsWith(s: string, suffix: string)
  {
    |suffix| <= |s| && s[|s| - |suffix|..] == suffix
  }

  /** `filename.lower().endswith(".pdf")` */
  predicate HasPdfSuffix(filename: string)
    ensures HasPdfSuffix(filename) ==> |filename| >= 4 && filename[|filename| - 4] == '.'
  {
    EndsWith(Lower(filename), ".pdf")
  }

  /** The suffix test accepts exactly the names whose last four characters spell
      ".pdf" in any mixture of upper and lower case. */
  lemma PdfSuffixCaseInsensitive(name: string)
    ensures HasPdfSuffix(name) <==>
      && |name| >= 4
      && name[|name| - 4] == '.'
      && (name[|name| - 3] == 'p' || name[|name| - 3] == 'P')
      && (name[|name| - 2] == 'd' || name[|name| - 2] == 'D')
      && (name[|name| - 1] == 'f' || name[|name| - 1] == 'F')
  {
  }

  /** Four file names and how the suffix test judges them. */
  lemma PdfSuffixExamples()
    ensures HasPdfSuffix("REPORT.PDF")
    ensures HasPdfSuffix("statement.Pdf")
    ensures !HasPdfSuffix("x.pdf.txt")
    ensures !HasPdfSuffix("pdf")
  {
    PdfSuffixCaseInsensitive("REPORT.PDF");
    PdfSuffixCaseInsensitive("statement.Pdf");
    PdfSuffixCaseInsensitive("x.pdf.txt");
  }
}
