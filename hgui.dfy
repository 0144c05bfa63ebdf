/** The parts of Mercurial's `ui` the extension reads. */
module HgUi {
  import opened Base

  /** The `[reviewboard]` configuration section, the `[paths]` section, and the strings that
      `ui.expandpath` takes as a location as they stand (those with a URL scheme and those naming
      a directory that holds a repository): the one filesystem fact path expansion depends on. */
  datatype Ui = Ui(reviewboard: map<string, string>, paths: map<string, string>, locations: set<string>)

  /** `ui.config('reviewboard', key)`; an unset key reads as "", which every caller treats as it
      treats Python's None (falsy). */
  function Config(ui: Ui, key: string): string {
    if key in ui.reviewboard then ui.reviewboard[key] else ""
  }

  /** `ui.config('paths', name)`. */
  function PathEntry(ui: Ui, name: string): string {
    if name in ui.paths then ui.paths[name] else ""
  }

  /** Mercurial's `ui.expandpath(loc, default)`: a location stays as it is; otherwise the
      `[paths]` entry for loc, else the one for default, else loc itself. */
  function ExpandPath(ui: Ui, loc: string, default: Option<string>): (r: string)
    ensures loc in ui.locations ==> r == loc
    ensures loc !in ui.locations && PathEntry(ui, loc) != "" ==> r == PathEntry(ui, loc)
    ensures r == loc || r in ui.paths.Values
  {
    if loc in ui.locations then loc
    else
      var path := PathEntry(ui, loc);
      var path' := if path == "" && default.Some? then PathEntry(ui, default.value) else path;
      if path' != "" then path' else loc
  }
}
