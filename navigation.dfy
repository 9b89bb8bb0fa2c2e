/**
 * Page identification of assets/js/navigation.js: the page id a path
 * denotes, which pages exist, and the page the site opens on.
 */
module Navigation {
  import opened Text

  /** `path.split('.')[0].split('?')[0]`: the path without extension and query. */
  function BaseName(path: string): (b: string)
    ensures '.' !in b && '?' !in b
    ensures b <= path
  {
    var beforeDot := BeforeFirst(path, '.');
    var b := BeforeFirst(beforeDot, '?');
    assert forall i :: 0 <= i < |b| ==> b[i] == beforeDot[i];
    b
  }

  /**
   * `getPageIdFromPath(path)`. A path with a '/' gives its last two
   * segments joined by '-', the last one cut at its first '.', whatever
   * directories come before them (`SlashPageId`, `DeepPageId`).
   */
  function PageIdFromPath(path: string): (id: string)
    ensures BaseName(path) == "index" || BaseName(path) == "" ==> id == "dashboard"
    ensures BaseName(path) != "index" && BaseName(path) != "" && '/' !in path ==> id == BaseName(path)
  {
    var basePageName := BaseName(path);
    if basePageName == "index" || basePageName == "" then "dashboard"
    else if '/' in path then
      var pathParts := Split(path, '/');
      var section := pathParts[|pathParts| - 2];
      var page := BeforeFirst(pathParts[|pathParts| - 1], '.');
      section + "-" + page
    else basePageName
  }

  /** Cutting at the first `c` of `s + [c] + t` leaves `s` when `s` holds no `c`. */
  lemma CutAtFirst(s: string, c: char, t: string)
    requires c !in s
    ensures BeforeFirst(s + [c] + t, c) == s
  {
    var u := s + [c] + t;
    assert u[|s|] == c;
    assert u[..|s|] == s;
  }

  lemma BeforeFirstAbsent(s: string, c: char)
    requires c !in s
    ensures BeforeFirst(s, c) == s
  {
  }

  /** A file name `name.ext` (or `name?query`) at the top level names the page `name`. */
  lemma {:induction false} TopLevelPageId(name: string, rest: string)
    requires '.' !in name && '?' !in name && '/' !in name && '/' !in rest
    requires name != "index" && name != ""
    requires rest == "" || rest[0] == '.' || rest[0] == '?'
    ensures PageIdFromPath(name + rest) == name
  {
    var path := name + rest;
    assert '/' !in path;
    if rest == "" {
      assert path == name;
      BeforeFirstAbsent(name, '.');
      BeforeFirstAbsent(name, '?');
    } else if rest[0] == '.' {
      assert path == name + ['.'] + rest[1..];
      CutAtFirst(name, '.', rest[1..]);
      BeforeFirstAbsent(name, '?');
    } else {
      var beforeDot := BeforeFirst(path, '.');
      assert path[|name|] == '?';
      assert |beforeDot| > |name| && beforeDot[..|name|] == name && beforeDot[|name|] == '?';
      assert beforeDot == name + ['?'] + beforeDot[|name| + 1..];
      CutAtFirst(name, '?', beforeDot[|name| + 1..]);
    }
  }

  /**
   * `section/page.ext` names the page `section-page` whenever its base name
   * is neither "" nor "index": `section` may be empty (a leading '/') or hold
   * dots.
   */
  lemma {:induction false} SlashPageId(section: string, page: string, ext: string)
    requires '/' !in section && '/' !in page && '.' !in page && '/' !in ext
    requires ext == "" || ext[0] == '.'
    requires var b := BaseName(section + "/" + page + ext); b != "" && b != "index"
    ensures PageIdFromPath(section + "/" + page + ext) == section + "-" + page
  {
    var path := section + "/" + page + ext;
    var tail := page + ext;
    assert path == section + ['/'] + tail;
    NestedSplit(section, tail);
    PageOfFile(page, ext);
  }

  /** `dirs/section/page.ext` names the page `section-page` too, whatever the directories `dirs`. */
  lemma {:induction false} DeepPageId(dirs: string, section: string, page: string, ext: string)
    requires '/' !in section && '/' !in page && '.' !in page && '/' !in ext
    requires ext == "" || ext[0] == '.'
    requires var b := BaseName(dirs + "/" + section + "/" + page + ext); b != "" && b != "index"
    ensures PageIdFromPath(dirs + "/" + section + "/" + page + ext) == section + "-" + page
  {
    var path := dirs + "/" + section + "/" + page + ext;
    var tail := page + ext;
    var last := section + ['/'] + tail;
    assert path == dirs + ['/'] + last by {
      Regroup(dirs, ['/'], section, tail);
    }
    SplitAppend(dirs, '/', last);
    NestedSplit(section, tail);
    var front := Split(dirs, '/');
    assert Split(path, '/') == front + [section, tail];
    assert |front + [section, tail]| == |front| + 2;
    PageOfFile(page, ext);
  }

  /** The page name of `page.ext` is `page`. */
  lemma PageOfFile(page: string, ext: string)
    requires '.' !in page && (ext == "" || ext[0] == '.')
    ensures BeforeFirst(page + ext, '.') == page
  {
    if ext == "" {
      assert page + ext == page;
      BeforeFirstAbsent(page, '.');
    } else {
      assert page + ext == page + ['.'] + ext[1..];
      CutAtFirst(page, '.', ext[1..]);
    }
  }

  /** `section/page.ext` names the page `section-page` for a plain directory name `section`. */
  lemma {:induction false} NestedPageId(section: string, page: string, ext: string)
    requires '/' !in section && '.' !in section && '?' !in section && section != ""
    requires '/' !in page && '.' !in page && '/' !in ext
    requires ext == "" || ext[0] == '.'
    ensures PageIdFromPath(section + "/" + page + ext) == section + "-" + page
  {
    var path := section + "/" + page + ext;
    assert path == section + ['/'] + (page + ext);
    NestedBaseName(section, page + ext, path);
    SlashPageId(section, page, ext);
  }

  lemma NestedSplit(section: string, tail: string)
    requires '/' !in section && '/' !in tail
    ensures Split(section + ['/'] + tail, '/') == [section, tail]
  {
    SplitAtFirst(section, '/', tail);
  }

  /** The base name of `section/...` runs past `section`, so it is neither "" nor "index". */
  lemma NestedBaseName(section: string, tail: string, path: string)
    requires '.' !in section && '?' !in section && section != ""
    requires path == section + ['/'] + tail
    ensures BaseName(path) != "" && BaseName(path) != "index"
  {
    var beforeDot := BeforeFirst(path, '.');
    assert path[|section|] == '/';
    assert |beforeDot| > |section| && beforeDot[..|section|] == section;
    var b := BaseName(path);
    assert |b| > |section|;
    assert b[|section|] == '/';
  }

  /** `pageExists(url)`: every page except the three empty ones. */
  function PageExists(url: string): (r: bool)
    ensures !r <==> LastSegment(url, '/') in ["customers.html", "notes.html", "tasks.html"]
  {
    var filename := LastSegment(url, '/');
    !(filename in ["customers.html", "notes.html", "tasks.html"])
  }

  /** The file name alone decides whether a page exists. */
  lemma {:induction false} PageExistsByFileName(dir: string, file: string)
    requires '/' !in file
    ensures PageExists(dir + "/" + file) == PageExists(file)
  {
    LastSegmentAfter(dir, '/', file);
    LastSegmentWhole(file, '/');
  }

  /** `handleInitialPageLoad`: the page id of the last URL segment, the dashboard when it is empty. */
  function InitialPageId(url: string): (id: string)
    ensures var base := BaseName(LastSegment(url, '/'));
            id == if base == "index" || base == "" then "dashboard" else base
  {
    var pagePath := LastSegment(url, '/');
    if pagePath != [] then PageIdFromPath(pagePath) else "dashboard"
  }
}
