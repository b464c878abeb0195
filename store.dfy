/**
  The backing file data/links.json and what loading and saving the table do
  to it. JSON text is abstracted to the document it parses to.
*/
module Store {
  import opened LinkTable

  /** What the file parses to. */
  datatype Document =
    | Table(links: LinkMap)   // a JSON object of code -> URL
    | FalsyValue              // null, false, 0 or ""
    | Malformed               // JSON.parse throws

  datatype FileState =
    | Missing                 // reading fails with ENOENT
    | Unreadable              // reading fails with any other error
    | Stored(doc: Document)

  /** The table `loadLinks` returns: the stored object, or {} on any failure or falsy document. */
  function Loaded(f: FileState): (links: LinkMap)
    ensures links != map[] ==> f.Stored? && f.doc.Table? && links == f.doc.links
    ensures f.Stored? && f.doc.Table? ==> links == f.doc.links
  {
    if f.Stored? && f.doc.Table? then f.doc.links else map[]
  }

  /** The file after `loadLinks`: only a missing file is created, holding {}. */
  function AfterLoad(f: FileState): (g: FileState)
    ensures g != Missing
    ensures g != f ==> f == Missing && g == Stored(Table(map[]))
    ensures Loaded(g) == Loaded(f)
  {
    if f == Missing then Stored(Table(map[])) else f
  }

  /** The file after `saveLinks(links)`; a failed write is swallowed and leaves it as it was. */
  function AfterSave(f: FileState, links: LinkMap, writeOk: bool): (g: FileState)
    ensures writeOk ==> g == Stored(Table(links)) && Loaded(g) == links
    ensures !writeOk ==> g == f
  {
    if writeOk then Stored(Table(links)) else f
  }

  /** Loading writes the file only when it is missing, and then writes the empty table. */
  lemma LoadWritesOnlyMissing(f: FileState)
    ensures AfterLoad(f) != f <==> f == Missing
    ensures AfterLoad(f) != f ==> Loaded(AfterLoad(f)) == map[]
  {
  }

  /** A second load sees the same table and changes nothing more. */
  lemma LoadSettles(f: FileState)
    ensures Loaded(AfterLoad(f)) == Loaded(f)
    ensures AfterLoad(AfterLoad(f)) == AfterLoad(f)
  {
  }

  /** Durability: a table saved successfully is exactly the table loaded next. */
  lemma SaveThenLoad(f: FileState, links: LinkMap)
    ensures Loaded(AfterSave(f, links, true)) == links
    ensures AfterLoad(AfterSave(f, links, true)) == AfterSave(f, links, true)
  {
  }
}
