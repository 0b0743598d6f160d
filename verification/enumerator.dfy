/** The spreadsheet enumeration rule: which directory entries are offered as
    selectable spreadsheets. */
module Enumerator {

  /** One entry of a directory listing, with whether it is a regular file. */
  datatype DirEntry = DirEntry(name: string, isFile: bool)

  const SpreadsheetExtension: string := ".xlsx"

  predicate EndsWith(s: string, suffix: string)
  {
    |suffix| <= |s| && s[|s| - |suffix|..] == suffix
  }

  /** A regular file whose name ends with the spreadsheet extension. */
  predicate IsSpreadsheet(e: DirEntry)
  {
    EndsWith(e.name, SpreadsheetExtension) && e.isFile
  }

  /** The names of the spreadsheet entries of `listing`, in listing order. */
  function ListExcels(listing: seq<DirEntry>): (names: seq<string>)
    ensures |names| <= |listing|
    ensures forall n :: n in names <==> exists e :: e in listing && IsSpreadsheet(e) && e.name == n
  {
    if listing == [] then []
    else
      assert forall e :: e in listing[1..] ==> e in listing;
      assert listing[0] in listing;
      (if IsSpreadsheet(listing[0]) then [listing[0].name] else []) + ListExcels(listing[1..])
  }

  /** The enumeration of a listing split in two is the enumeration of the first
      part followed by that of the second: entries keep their listing order. */
  lemma {:induction false} ListExcelsConcat(a: seq<DirEntry>, b: seq<DirEntry>)
    ensures ListExcels(a + b) == ListExcels(a) + ListExcels(b)
  {
    if a != [] {
      assert (a + b)[1..] == a[1..] + b;
      ListExcelsConcat(a[1..], b);
    } else {
      assert a + b == b;
    }
  }
}
