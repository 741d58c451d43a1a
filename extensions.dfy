/** Start-up of the bot: which cog extensions are loaded, in which order, and how a failing one
    is passed over. The extension names come from the file names of the cogs directory, in the
    order the directory listing gives them. */
module Extensions {

  /** When not empty, only these extensions are loaded. */
  const AllowedExtensions: set<string> := {}

  /** Never loaded. */
  const BannedExtensions: set<string> := {"captcha_verification", "test"}

  /** The filter of the start-up loop: banned names are skipped and, when the allow set is not
      empty, so are names outside it. */
  predicate Selected(name: string, banned: set<string>, allowed: set<string>) {
    name !in banned && (allowed == {} || name in allowed)
  }

  /** The names that pass the filter, in input order. */
  function Selection(names: seq<string>, banned: set<string>, allowed: set<string>): seq<string>
    decreases |names|
  {
    if names == [] then []
    else (if Selected(names[0], banned, allowed) then [names[0]] else [])
         + Selection(names[1..], banned, allowed)
  }

  /** Filtering a list in two parts filters each part in place: the selection keeps input order. */
  lemma {:induction false} SelectionAppend(a: seq<string>, b: seq<string>, banned: set<string>, allowed: set<string>)
    ensures Selection(a + b, banned, allowed) == Selection(a, banned, allowed) + Selection(b, banned, allowed)
    decreases |a|
  {
    if a != [] {
      assert (a + b)[1..] == a[1..] + b;
      SelectionAppend(a[1..], b, banned, allowed);
    } else {
      assert a + b == b;
    }
  }

  /** Exactly the names that pass the filter are selected. */
  lemma {:induction false} SelectionMembers(names: seq<string>, banned: set<string>, allowed: set<string>, x: string)
    ensures x in Selection(names, banned, allowed) <==> x in names && Selected(x, banned, allowed)
    decreases |names|
  {
    if names != [] {
      SelectionMembers(names[1..], banned, allowed, x);
      assert names == [names[0]] + names[1..];
    }
  }

  /** A banned name is never loaded; with a non-empty allow set only allowed names are; with an
      empty one every name that is not banned is. */
  lemma SelectionRespectsFilters(names: seq<string>, banned: set<string>, allowed: set<string>)
    ensures forall x | x in Selection(names, banned, allowed) :: x !in banned
    ensures allowed != {} ==> forall x | x in Selection(names, banned, allowed) :: x in allowed
    ensures allowed == {} ==> forall x | x in names && x !in banned :: x in Selection(names, banned, allowed)
  {
    forall x | x in Selection(names, banned, allowed) ensures x !in banned && (allowed != {} ==> x in allowed) {
      SelectionMembers(names, banned, allowed, x);
    }
    forall x | allowed == {} && x in names && x !in banned ensures x in Selection(names, banned, allowed) {
      SelectionMembers(names, banned, allowed, x);
    }
  }

  /** Under the shipped settings, every cog but the two banned ones is loaded. */
  lemma ShippedSettings(names: seq<string>, x: string)
    ensures x in Selection(names, BannedExtensions, AllowedExtensions) <==>
              x in names && x != "captcha_verification" && x != "test"
  {
    SelectionMembers(names, BannedExtensions, AllowedExtensions, x);
  }

  /** The module path an extension is loaded from. */
  function DottedPath(name: string): string {
    "bot.cogs." + name
  }

  /** One line of the start-up log: an extension loaded, or one that failed to load. */
  datatype LoadReport = Loaded(path: string) | FailedToLoad(path: string)

  /** What loading the selected names one after the other reports, when loading the paths in
      `broken` raises. */
  function Reports(selected: seq<string>, broken: set<string>): (r: seq<LoadReport>)
    ensures |r| == |selected|
  {
    seq(|selected|, i requires 0 <= i < |selected| =>
      if DottedPath(selected[i]) in broken then FailedToLoad(DottedPath(selected[i]))
      else Loaded(DottedPath(selected[i])))
  }

  /** The paths of the extensions that were loaded, in order. */
  function LoadedPaths(reports: seq<LoadReport>): seq<string>
    decreases |reports|
  {
    if reports == [] then []
    else (if reports[0].Loaded? then [reports[0].path] else []) + LoadedPaths(reports[1..])
  }

  lemma {:induction false} LoadedPathsAppend(a: seq<LoadReport>, b: seq<LoadReport>)
    ensures LoadedPaths(a + b) == LoadedPaths(a) + LoadedPaths(b)
    decreases |a|
  {
    if a != [] {
      assert (a + b)[1..] == a[1..] + b;
      LoadedPathsAppend(a[1..], b);
    } else {
      assert a + b == b;
    }
  }

  /** The bot, as far as loading extensions goes: the module paths of the extensions it has loaded. */
  class Bot {
    var extensions: seq<string>

    constructor ()
      ensures extensions == []
    {
      extensions := [];
    }

    /** `load_extension`: adds the extension, or raises (here: returns false) when the module at the
        path is in `broken`. */
    method LoadExtension(path: string, broken: set<string>) returns (ok: bool)
      modifies this
      ensures ok <==> path !in broken
      ensures extensions == if ok then old(extensions) + [path] else old(extensions)
    {
      ok := path !in broken;
      if ok {
        extensions := extensions + [path];
      }
    }
  }

  /** The start-up loop: every selected name is attempted, in input order, whether or not an earlier
      one failed; the bot ends up with exactly the selected extensions that loaded. */
  method LoadCogs(bot: Bot, names: seq<string>, banned: set<string>, allowed: set<string>, broken: set<string>)
    returns (report: seq<LoadReport>)
    modifies bot
    ensures report == Reports(Selection(names, banned, allowed), broken)
    ensures bot.extensions == old(bot.extensions) + LoadedPaths(report)
  {
    report := [];
    for i := 0 to |names|
      invariant report == Reports(Selection(names[..i], banned, allowed), broken)
      invariant bot.extensions == old(bot.extensions) + LoadedPaths(report)
    {
      var name := names[i];
      SelectionAppend(names[..i], [name], banned, allowed);
      assert names[..i + 1] == names[..i] + [name];
      if name in banned {
        continue;
      }
      if allowed != {} && name !in allowed {
        continue;
      }
      var dotted := DottedPath(name);
      var ok := bot.LoadExtension(dotted, broken);
      var line := if ok then Loaded(dotted) else FailedToLoad(dotted);
      LoadedPathsAppend(report, [line]);
      report := report + [line];
    }
    assert names[..|names|] == names;
  }
}
