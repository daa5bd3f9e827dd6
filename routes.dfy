/** Route registration as the controllers perform it, and the first-match
    selection the kernel applies to the registered table: entries are tried in
    registration order and the first whose method agrees and whose pattern
    matches the request path segment by segment wins. A pattern is held as
    the registered string split at '/', so "/poems/:id" is ["", "poems", ":id"]
    and a pattern without a leading slash has no empty first segment. */
module Routes {
  import opened Wrappers

  datatype Method = GET | POST | PUT | DELETE

  datatype Route<H> = Route(verb: Method, pattern: seq<string>, handler: H)

  /** A `:name` segment. */
  predicate IsParam(seg: string) {
    |seg| > 0 && seg[0] == ':'
  }

  /** A parameter matches any non-empty segment; a literal only itself. */
  predicate SegmentMatches(p: string, seg: string) {
    if IsParam(p) then seg != "" else p == seg
  }

  predicate Matches(pattern: seq<string>, path: seq<string>) {
    |pattern| == |path| && forall i :: 0 <= i < |pattern| ==> SegmentMatches(pattern[i], path[i])
  }

  predicate HasParam(pattern: seq<string>) {
    exists i :: 0 <= i < |pattern| && IsParam(pattern[i])
  }

  predicate Selects<H>(r: Route<H>, m: Method, path: seq<string>) {
    r.verb == m && Matches(r.pattern, path)
  }

  /** The index of the entry that handles `m path`, or None for "Invalid route". */
  function FirstMatch<H>(table: seq<Route<H>>, m: Method, path: seq<string>): (r: Option<nat>)
    ensures r.Some? ==> r.value < |table| && Selects(table[r.value], m, path)
    ensures r.Some? ==> forall j :: 0 <= j < r.value ==> !Selects(table[j], m, path)
    ensures r.None? <==> forall j :: 0 <= j < |table| ==> !Selects(table[j], m, path)
  {
    if table == [] then None
    else if Selects(table[0], m, path) then Some(0)
    else match FirstMatch(table[1..], m, path)
      case None => None
      case Some(k) => Some(k + 1)
  }

  /** Which handler a request reaches, if any. */
  function Dispatch<H>(table: seq<Route<H>>, m: Method, path: seq<string>): (r: Option<H>)
    ensures r.Some? <==> exists j :: 0 <= j < |table| && Selects(table[j], m, path)
  {
    match FirstMatch(table, m, path)
    case None => None
    case Some(k) => Some(table[k].handler)
  }

  /** The path that fills every parameter of `pattern` with `arg`. */
  function Instantiate(pattern: seq<string>, arg: string): (path: seq<string>)
    requires arg != ""
    ensures Matches(pattern, path)
    ensures forall i :: 0 <= i < |pattern| && !IsParam(pattern[i]) ==> path[i] == pattern[i]
  {
    seq(|pattern|, i requires 0 <= i < |pattern| => if IsParam(pattern[i]) then arg else pattern[i])
  }

  /** A request path always starts with '/', so its first segment is empty. */
  predicate IsRequestPath(path: seq<string>) {
    |path| >= 1 && path[0] == ""
  }

  /** A pattern registered without a leading slash can never be selected. */
  lemma NoLeadingSlashNeverMatches(pattern: seq<string>, path: seq<string>)
    requires |pattern| >= 1 && pattern[0] != "" && !IsParam(pattern[0])
    requires IsRequestPath(path)
    ensures !Matches(pattern, path)
  {
  }
}
