/** The three lines of work of the agency, shared by job postings and portfolio items. */
module Categories {
  import opened Wrappers

  datatype Category = Web | Thumbnail | Video

  /** The string the source stores for a category (`'web' | 'thumbnail' | 'video'`). */
  function Name(c: Category): string
  {
    match c
    case Web => "web"
    case Thumbnail => "thumbnail"
    case Video => "video"
  }

  /** Reads a selector string as a category; any other string is no category. */
  function Parse(s: string): (r: Option<Category>)
    ensures r.Some? ==> Name(r.value) == s
    ensures r.None? ==> forall c: Category :: Name(c) != s
  {
    if s == "web" then Some(Web)
    else if s == "thumbnail" then Some(Thumbnail)
    else if s == "video" then Some(Video)
    else None
  }
}
