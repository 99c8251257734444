/**
  The file-name to MIME type table of `getContentType`: the first suffix in
  the table that the name ends with decides, and names matching none get
  plain text. The firmware defines the function but no handler calls it;
  the static handlers send fixed types.
*/
module ContentTypes {

  /** Arduino `String::endsWith`. */
  predicate EndsWith(s: string, suffix: string)
  {
    |suffix| <= |s| && s[|s| - |suffix|..] == suffix
  }

  /** The suffixes in the order they are tried, each with its type. */
  const MimeTable: seq<(string, string)> := [
    (".htm", "text/html"),
    (".html", "text/html"),
    (".css", "text/css"),
    (".js", "application/javascript"),
    (".png", "image/png"),
    (".gif", "image/gif"),
    (".jpg", "image/jpeg"),
    (".ico", "image/x-icon"),
    (".xml", "text/xml"),
    (".pdf", "application/x-pdf"),
    (".zip", "application/x-zip"),
    (".gz", "application/x-gzip"),
    (".bin", "application/octet-stream")
  ]

  const Fallback := "text/plain"

  /** No suffix of `table` matches `name`. */
  predicate NoMatch(name: string, table: seq<(string, string)>)
  {
    forall i :: 0 <= i < |table| ==> !EndsWith(name, table[i].0)
  }

  /** The type of the first matching suffix, or the fallback. */
  function FirstMatch(name: string, table: seq<(string, string)>): (r: string)
    ensures NoMatch(name, table) ==> r == Fallback
    ensures forall i :: 0 <= i < |table| && EndsWith(name, table[i].0) && NoMatch(name, table[..i]) ==> r == table[i].1
    decreases |table|
  {
    if |table| == 0 then Fallback
    else if EndsWith(name, table[0].0) then table[0].1
    else
      var r := FirstMatch(name, table[1..]);
      assert forall i :: 1 <= i < |table| ==> table[1..][..i - 1] == table[..i][1..];
      r
  }

  function ContentType(name: string): string
  {
    FirstMatch(name, MimeTable)
  }

  /** A dot followed by at least one character, none of them a dot: the shape of every suffix in the table. */
  predicate Dotted(suffix: string)
  {
    |suffix| >= 2 && suffix[0] == '.' && forall k :: 1 <= k < |suffix| ==> suffix[k] != '.'
  }

  /** A name ending with two dotted suffixes ends with the same suffix twice. */
  lemma DottedSuffixesAgree(name: string, a: string, b: string)
    requires Dotted(a) && Dotted(b)
    ensures EndsWith(name, a) && EndsWith(name, b) ==> a == b
  {
  }

  /** Recovers a table position from a suffix's second and last characters, which tell the suffixes apart. */
  function SuffixPosition(suffix: string): int
    requires |suffix| >= 2
  {
    match (suffix[1], suffix[|suffix| - 1])
    case ('h', 'm') => 0
    case ('h', 'l') => 1
    case ('c', 's') => 2
    case ('j', 's') => 3
    case ('p', 'g') => 4
    case ('g', 'f') => 5
    case ('j', 'g') => 6
    case ('i', 'o') => 7
    case ('x', 'l') => 8
    case ('p', 'f') => 9
    case ('z', 'p') => 10
    case ('g', 'z') => 11
    case ('b', 'n') => 12
    case _ => -1
  }

  /** Every suffix in the table is dotted and occurs once, and no entry's type is the fallback. */
  lemma MimeTableSuffixes()
    ensures forall i :: 0 <= i < |MimeTable| ==> Dotted(MimeTable[i].0) && SuffixPosition(MimeTable[i].0) == i
    ensures forall i :: 0 <= i < |MimeTable| ==> MimeTable[i].1 != Fallback
  {
  }

  /**
    Every suffix in the table decides the type of any name ending with it
    (a name ending `.gz` is always `application/x-gzip`, for one): no entry
    hides a later one, so the order of the table never matters.
  */
  lemma SuffixDecides(name: string, i: int)
    requires 0 <= i < |MimeTable| && EndsWith(name, MimeTable[i].0)
    ensures ContentType(name) == MimeTable[i].1
  {
    MimeTableSuffixes();
    forall j | 0 <= j < i
      ensures !EndsWith(name, MimeTable[..i][j].0)
    {
      assert MimeTable[..i][j] == MimeTable[j];
      DottedSuffixesAgree(name, MimeTable[j].0, MimeTable[i].0);
    }
  }

  /** A name gets plain text exactly when no suffix in the table matches it. */
  lemma FallbackIffNoMatch(name: string)
    ensures ContentType(name) == Fallback <==> NoMatch(name, MimeTable)
  {
    if !NoMatch(name, MimeTable) {
      var i :| 0 <= i < |MimeTable| && EndsWith(name, MimeTable[i].0);
      SuffixDecides(name, i);
      MimeTableSuffixes();
    }
  }

  /** Compressed files and scripts get their own types. */
  lemma GzipAndScript(name: string)
    ensures EndsWith(name, ".gz") ==> ContentType(name) == "application/x-gzip"
    ensures EndsWith(name, ".js") ==> ContentType(name) == "application/javascript"
  {
    if EndsWith(name, ".gz") {
      SuffixDecides(name, 11);
    }
    if EndsWith(name, ".js") {
      SuffixDecides(name, 3);
    }
  }
}
