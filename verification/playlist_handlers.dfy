/** The main process's playlist cover handlers: choosing an image, copying it
    into the covers directory under a sanitised name, and deleting a cover.
    Paths are modelled already absolute and normalised, with `/` as the
    separator, so `path.resolve` is the identity and `path.join(dir, name)` is
    `dir + "/" + name` for a single-component name. The file system is a set of
    file paths; the dialog's answer, the extension `path.extname` finds, the
    clock and the outcome of each file operation are parameters. */
module PlaylistHandlers {
  import opened JsValues

  // ─── File names ───

  /** A character the id sanitiser keeps: `[a-zA-Z0-9_-]`. */
  predicate SafeChar(c: char) {
    'a' <= c <= 'z' || 'A' <= c <= 'Z' || '0' <= c <= '9' || c == '_' || c == '-'
  }

  /** `String(id).replace(/[^a-zA-Z0-9_-]/g, '_')`. */
  function SafeId(s: string): (r: string)
    ensures |r| == |s|
    ensures forall i :: 0 <= i < |s| ==> SafeChar(r[i])
    ensures forall i :: 0 <= i < |s| ==> (SafeChar(s[i]) ==> r[i] == s[i]) && (!SafeChar(s[i]) ==> r[i] == '_')
  {
    seq(|s|, i requires 0 <= i < |s| => if SafeChar(s[i]) then s[i] else '_')
  }

  /** Sanitising is idempotent, and leaves exactly the already safe ids unchanged. */
  lemma SafeIdIdempotent(s: string)
    ensures SafeId(SafeId(s)) == SafeId(s)
    ensures SafeId(s) == s <==> forall i :: 0 <= i < |s| ==> SafeChar(s[i])
  {
    if SafeId(s) == s {
      assert forall i :: 0 <= i < |s| ==> SafeChar(s[i]) by {
        forall i | 0 <= i < |s|
          ensures SafeChar(s[i])
        {
          assert SafeId(s)[i] == s[i];
        }
      }
    }
  }

  /** `path.extname(sourcePath) || '.jpg'`. */
  function Ext(extname: string): (e: string)
    ensures extname != "" ==> e == extname
    ensures extname == "" ==> e == ".jpg"
  {
    if extname == "" then ".jpg" else extname
  }

  /** `${safeId}_${Date.now()}${ext}`. */
  function DestName(playlistId: Option<string>, now: nat, extname: string): (name: string)
    ensures var id := SafeId(Show(playlistId));
      |name| > |id| && name[..|id|] == id && name[|id|] == '_'
    ensures var e := Ext(extname); |name| >= |e| && name[|name| - |e|..] == e
  {
    SafeId(Show(playlistId)) + "_" + NatToString(now) + Ext(extname)
  }

  /** The destination name is one path component: it is neither `.` nor `..`, and it has no `/`
      when the extension has none (an extension taken from a file name never has one). */
  lemma DestNameIsOneComponent(playlistId: Option<string>, now: nat, extname: string)
    requires '/' !in extname
    ensures var name := DestName(playlistId, now, extname);
      '/' !in name && name != "." && name != ".."
  {
    var id := SafeId(Show(playlistId));
    var name := DestName(playlistId, now, extname);
    var digits := NatToString(now);
    assert name == id + "_" + digits + Ext(extname);
    forall k | 0 <= k < |name|
      ensures name[k] != '/'
    {
      if k < |id| {
        assert name[k] == id[k];
      } else if k == |id| {
      } else if k < |id| + 1 + |digits| {
        assert name[k] == digits[k - |id| - 1];
      } else {
        assert name[k] == Ext(extname)[k - |id| - 1 - |digits|];
      }
    }
    assert name[|id|] == '_';
  }

  /** `path.join(dir, name)` for a single-component name. */
  function Join(dir: string, name: string): string {
    dir + "/" + name
  }

  // ─── The containment check ───

  /** The check as written: `path.resolve(p).startsWith(path.resolve(coversDir))`. */
  predicate PrefixCheckAsWritten(p: string, dir: string) {
    StartsWith(p, dir)
  }

  /** A sibling directory whose name extends the covers directory's passes the check as written:
      `/home/u/playlist-covers-old/a.jpg` is accepted for `/home/u/playlist-covers`, so a cover
      delete can remove a file outside the covers directory. */
  lemma SiblingPassesPrefixCheck()
    ensures PrefixCheckAsWritten("/home/u/playlist-covers-old/a.jpg", "/home/u/playlist-covers")
    ensures !InsideDir("/home/u/playlist-covers-old/a.jpg", "/home/u/playlist-covers")
  {
    assert "/home/u/playlist-covers-old/a.jpg"[..|"/home/u/playlist-covers/"|][23] == '-';
  }

  /** The intended check: the path lies below the directory, separator included. */
  predicate InsideDir(p: string, dir: string) {
    StartsWith(p, dir + "/")
  }

  /** The intended check accepts every path below the directory, rejects every path in a sibling
      whose name merely starts with the directory's name, and implies the check as written. */
  lemma InsideDirIsContainment(dir: string, name: string, sibling: string, rest: string)
    requires |sibling| > 0 && sibling[0] != '/'
    ensures InsideDir(Join(dir, name), dir)
    ensures !InsideDir(dir + sibling + rest, dir)
    ensures forall p :: InsideDir(p, dir) ==> PrefixCheckAsWritten(p, dir)
  {
    assert Join(dir, name)[..|dir + "/"|] == dir + "/";
    var p := dir + sibling + rest;
    if |dir + "/"| <= |p| {
      assert p[..|dir + "/"|][|dir|] == sibling[0];
      assert (dir + "/")[|dir|] == '/';
    }
    forall p | InsideDir(p, dir)
      ensures PrefixCheckAsWritten(p, dir)
    {
      assert p[..|dir|] == p[..|dir + "/"|][..|dir|];
    }
  }

  /** `playlist:pickImage`: nothing on cancel or an empty selection, else the first path. */
  function PickImage(canceled: bool, filePaths: seq<string>): (r: Option<string>)
    ensures r.None? <==> canceled || |filePaths| == 0
    ensures r.Some? ==> r.value == filePaths[0]
  {
    if canceled || |filePaths| == 0 then None else Some(filePaths[0])
  }

  /** The covers directory and the files of the file system. */
  class Covers {
    const coversDir: string
    var dirExists: bool
    var files: set<string>

    /** The directory may already exist from an earlier run (`present`). */
    constructor (dir: string, present: bool, existing: set<string>)
      ensures coversDir == dir && dirExists == present && files == existing
    {
      coversDir := dir;
      dirExists := present;
      files := existing;
    }

    /** `playlist:saveImage`: a failing directory creation or copy gives `null`; otherwise the
        copy lands inside the covers directory under the sanitised name, and its path is the
        answer. */
    method SaveImage(playlistId: Option<string>, extname: string, now: nat, mkdirOk: bool, copyOk: bool)
      returns (r: Option<string>)
      requires '/' !in extname
      modifies this
      ensures r.Some? <==> (old(dirExists) || mkdirOk) && copyOk
      ensures r.Some? ==> r.value == Join(coversDir, DestName(playlistId, now, extname))
      ensures r.Some? ==> InsideDir(r.value, coversDir) && files == old(files) + {r.value}
      ensures r.None? ==> files == old(files)
      ensures dirExists == (old(dirExists) || mkdirOk)
    {
      if !dirExists {
        if !mkdirOk {
          return None;
        }
        dirExists := true;
      }
      var destPath := Join(coversDir, DestName(playlistId, now, extname));
      InsideDirIsContainment(coversDir, DestName(playlistId, now, extname), "x", "");
      if !InsideDir(destPath, coversDir) {
        return None;
      }
      if !copyOk {
        return None;
      }
      files := files + {destPath};
      r := Some(destPath);
    }

    /** `playlist:deleteImage` with the intended check: the covers directory is created first,
        and a failure there gives `false`; a missing path or one outside the covers directory
        gives `false`; a path inside gives `true` whether or not the file existed, unless
        removing it fails. Only files inside the covers directory are ever removed. */
    method DeleteImage(imagePath: Option<string>, mkdirOk: bool, unlinkOk: bool) returns (ok: bool)
      modifies this`files, this`dirExists
      ensures dirExists == (old(dirExists) || mkdirOk)
      ensures !dirExists ==> !ok && files == old(files)
      ensures dirExists && (!Truthy(imagePath) || !InsideDir(imagePath.value, coversDir)) ==>
        !ok && files == old(files)
      ensures dirExists && Truthy(imagePath) && InsideDir(imagePath.value, coversDir) ==>
        (imagePath.value !in old(files) ==> ok && files == old(files)) &&
        (imagePath.value in old(files) ==> ok == unlinkOk && files == (if unlinkOk then old(files) - {imagePath.value} else old(files)))
      ensures forall f :: f in old(files) && f !in files ==> InsideDir(f, coversDir)
    {
      if !dirExists {
        if !mkdirOk {
          return false;
        }
        dirExists := true;
      }
      if !Truthy(imagePath) || !InsideDir(imagePath.value, coversDir) {
        return false;
      }
      var p := imagePath.value;
      if p in files {
        if !unlinkOk {
          return false;
        }
        files := files - {p};
      }
      ok := true;
    }
  }

  /** A cover is saved, the as-written check would let a sibling's file go, the intended one
      keeps it, and deleting the saved cover twice succeeds both times. */
  method CoverScenario()
  {
    var c := new Covers("/home/u/playlist-covers", false, {"/home/u/playlist-covers-old/a.jpg"});
    var saved := c.SaveImage(Some("pl 1/x"), "", 1700, true, true);
    assert saved.Some? && InsideDir(saved.value, "/home/u/playlist-covers");
    SiblingPassesPrefixCheck();
    var gone := c.DeleteImage(Some("/home/u/playlist-covers-old/a.jpg"), false, true);
    assert !gone && "/home/u/playlist-covers-old/a.jpg" in c.files;
    var first := c.DeleteImage(saved, false, true);
    var second := c.DeleteImage(saved, false, true);
    assert first && second;
  }
}
