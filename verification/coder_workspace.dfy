/**
 * The coder workspace: clone a repository's text files into a sandbox, and afterwards push what
 * changed as tree entries over the commit it was cloned from. A blob's id determines its content.
 */
module CoderWorkspaces {
  import opened Common
  import opened Utf8

  type Path = string
  type Content = Bytes

  datatype Sha = Blob(content: Content)
  datatype File = File(sha: Sha, mode: string)
  type Tree = map<Path, File>

  const MAX_FILES: nat := 200
  const MAX_FILE_BYTES: nat := 400000
  const NEW_FILE_MODE := "100644"

  predicate LooksBinary(c: Content) {
    0 in c
  }

  // ----- clone ---------------------------------------------------------------------------------------

  /** One blob of the cloned commit's tree; `size` is absent when the listing does not say. */
  datatype TreeBlob = TreeBlob(path: Path, file: File, size: Option<nat>)

  /** What the clone materializes: text files of bounded size. */
  predicate Materialized(b: TreeBlob) {
    (b.size.Some? ==> b.size.value <= 400000) && 0 !in b.file.sha.content
  }

  datatype Clone = Clone(baseline: Tree, written: seq<(Path, Content)>, skipped: nat)

  predicate DistinctPaths(blobs: seq<TreeBlob>) {
    forall i, j :: 0 <= i < j < |blobs| ==> blobs[i].path != blobs[j].path
  }

  /**
   * Refuses a tree that is cut short or too big; otherwise remembers the blobs it materializes, and
   * writes them as text: decoded, and encoded again by the sandbox.
   */
  method CloneFiles(blobs: seq<TreeBlob>, truncated: bool) returns (clone: Option<Clone>)
    requires DistinctPaths(blobs)
    ensures clone.None? <==> truncated || |blobs| > 200
    ensures clone.Some? ==>
              && (forall p :: p in clone.value.baseline <==>
                    exists i :: 0 <= i < |blobs| && blobs[i].path == p && Materialized(blobs[i]))
              && (forall i :: 0 <= i < |blobs| && Materialized(blobs[i]) ==> clone.value.baseline[blobs[i].path] == blobs[i].file)
              && (forall w :: w in clone.value.written <==>
                    w.0 in clone.value.baseline && w.1 == Recode(clone.value.baseline[w.0].sha.content))
              && |clone.value.written| + clone.value.skipped == |blobs|
  {
    if truncated || |blobs| > MAX_FILES {
      return None;
    }
    var baseline: Tree := map[];
    var written: seq<(Path, Content)> := [];
    var skipped := 0;
    for n := 0 to |blobs|
      invariant |written| + skipped == n
      invariant forall p :: p in baseline <==> exists i :: 0 <= i < n && blobs[i].path == p && Materialized(blobs[i])
      invariant forall i :: 0 <= i < n && Materialized(blobs[i]) ==> baseline[blobs[i].path] == blobs[i].file
      invariant forall w :: w in written <==> w.0 in baseline && w.1 == Recode(baseline[w.0].sha.content)
    {
      var b := blobs[n];
      if b.size.Some? && b.size.value > MAX_FILE_BYTES {
        skipped := skipped + 1;
        continue;
      }
      if LooksBinary(b.file.sha.content) {
        skipped := skipped + 1;
        continue;
      }
      assert b.path !in baseline;
      written := written + [(b.path, Recode(b.file.sha.content))];
      baseline := baseline[b.path := b.file];
    }
    clone := Some(Clone(baseline, written, skipped));
  }

  // ----- finalize ------------------------------------------------------------------------------------

  /** What the executor knows: its baseline, the sandbox's own files, and the bytes of the text that reading a path gives. */
  datatype Workspace = Workspace(baseline: Tree, preexisting: set<Path>, read: Path -> Option<Content>)

  /** A listing of the workspace: each path with the id the one-pass shell command computed, if it did. */
  type Listing = map<Path, Option<Sha>>

  /** A change to one path of the tree; no id means remove it. */
  datatype Entry = Entry(path: Path, mode: string, sha: Option<Sha>)

  /** What finalize decides about one path. */
  function EntryFor(ws: Workspace, present: Listing, p: Path): Option<Entry> {
    var known := p in ws.baseline;
    var content := ws.read(p);
    if p in present then
      if !known && p in ws.preexisting then None
      else if known && present[p] == Some(ws.baseline[p].sha) then None
      else if content.None? then None
      else if known && Blob(content.value) == ws.baseline[p].sha then None
      else if !known && 0 in content.value then None
      else Some(Entry(p, if known then ws.baseline[p].mode else "100644", Some(Blob(content.value))))
    else if !known then None
    else if content.None? then Some(Entry(p, "100644", None))
    else if Blob(content.value) != ws.baseline[p].sha then Some(Entry(p, ws.baseline[p].mode, Some(Blob(content.value))))
    else None
  }

  /** The entries are exactly the decisions about these paths, one each. */
  ghost predicate Collected(ws: Workspace, present: Listing, entries: seq<Entry>, paths: set<Path>) {
    && (forall i :: 0 <= i < |entries| ==>
          entries[i].path in paths && EntryFor(ws, present, entries[i].path) == Some(entries[i]))
    && (forall p :: p in paths && EntryFor(ws, present, p).Some? ==> EntryFor(ws, present, p).value in entries)
    && (forall i, j :: 0 <= i < j < |entries| ==> entries[i].path != entries[j].path)
  }

  function Decided(entries: seq<Entry>, e: Option<Entry>): seq<Entry> {
    if e.Some? then entries + [e.value] else entries
  }

  lemma CollectOne(ws: Workspace, present: Listing, entries: seq<Entry>, paths: set<Path>, p: Path)
    requires Collected(ws, present, entries, paths) && p !in paths
    ensures Collected(ws, present, Decided(entries, EntryFor(ws, present, p)), paths + {p})
  {
    var next := Decided(entries, EntryFor(ws, present, p));
    forall q | q in paths + {p} && EntryFor(ws, present, q).Some?
      ensures EntryFor(ws, present, q).value in next
    {
      if q == p {
        assert next[|entries|] == EntryFor(ws, present, p).value;
      } else {
        assert EntryFor(ws, present, q).value in entries;
      }
    }
  }

  /** Baseline paths the listing misses and that cannot be read either. */
  function Gone(ws: Workspace, present: Listing): set<Path> {
    set p | p in ws.baseline && p !in present && ws.read(p).None?
  }

  /** A baseline that has mostly vanished. */
  predicate Refuses(ws: Workspace, present: Listing) {
    |ws.baseline| >= 8 && 2 * |Gone(ws, present)| > |ws.baseline|
  }

  datatype Finalized = NothingPushed | Pushed(entries: seq<Entry>, changed: nat) | RefusedMassDeletion(deleted: nat)

  /** The ids of the one-pass command when it gave any, else a bounded plain listing without ids. */
  method ListWorkspace(quick: Option<map<Path, Sha>>, listed: seq<Path>) returns (present: Listing)
    ensures quick.Some? && quick.value != map[] ==>
              present.Keys == quick.value.Keys && forall p :: p in present ==> present[p] == Some(quick.value[p])
    ensures !(quick.Some? && quick.value != map[]) ==>
              forall p :: (p in present <==> exists i :: 0 <= i < |listed| && i < 400 && listed[i] == p)
                          && (p in present ==> present[p] == None)
  {
    if quick.Some? && quick.value != map[] {
      return map p | p in quick.value :: Some(quick.value[p]);
    }
    present := map[];
    var paths := if |listed| < 2 * MAX_FILES then listed else listed[..2 * MAX_FILES];
    for i := 0 to |paths|
      invariant forall p :: (p in present <==> p in paths[..i]) && (p in present ==> present[p] == None)
    {
      present := present[paths[i] := None];
    }
    assert paths[..|paths|] == paths;
  }

  /** A listed path: skipped when known to be untouched or not the repository's, else read and compared. */
  method DecideListed(ws: Workspace, present: Listing, p: Path) returns (e: Option<Entry>)
    requires p in present
    ensures e == EntryFor(ws, present, p)
  {
    var known := p in ws.baseline;
    e := None;
    if !known && p in ws.preexisting {
      return;
    }
    if known && present[p] == Some(ws.baseline[p].sha) {
      return;
    }
    var content := ws.read(p);
    if content.None? {
      return;
    }
    if known && Blob(content.value) == ws.baseline[p].sha {
      return;
    }
    if !known && LooksBinary(content.value) {
      return;
    }
    e := Some(Entry(p, if known then ws.baseline[p].mode else NEW_FILE_MODE, Some(Blob(content.value))));
  }

  lemma SeenNone(listed: set<Path>, missed: set<Path>)
    ensures listed + (missed - missed) == listed
  {
  }

  lemma SeenOneMore(listed: set<Path>, missed: set<Path>, left: set<Path>, p: Path)
    requires p in left && left <= missed
    ensures listed + (missed - (left - {p})) == listed + (missed - left) + {p}
  {
  }

  lemma SeenAll(present: Listing, baseline: Tree)
    ensures present.Keys + (baseline.Keys - present.Keys - {}) == present.Keys + baseline.Keys
  {
  }

  lemma SeenAllOf(paths: set<Path>)
    ensures {} + (paths - {}) == paths
  {
  }

  method FirstPass(ws: Workspace, present: Listing) returns (entries: seq<Entry>, changed: nat)
    ensures Collected(ws, present, entries, present.Keys) && changed == |entries|
  {
    entries, changed := [], 0;
    ghost var none: set<Path> := {};
    var paths := present.Keys;
    var left := paths;
    SeenNone(none, paths);
    while left != {}
      invariant left <= paths
      invariant Collected(ws, present, entries, none + (paths - left)) && changed == |entries|
      decreases |left|
    {
      var p :| p in left;
      CollectOne(ws, present, entries, none + (paths - left), p);
      var e := DecideListed(ws, present, p);
      if e.Some? {
        entries, changed := entries + [e.value], changed + 1;
      }
      SeenOneMore(none, paths, left, p);
      left := left - {p};
    }
    SeenAllOf(paths);
  }

  /** A baseline path the listing missed: verified by reading, and removed only when that fails. */
  method DecideMissed(ws: Workspace, present: Listing, p: Path) returns (e: Option<Entry>)
    requires p in ws.baseline && p !in present
    ensures e == EntryFor(ws, present, p)
    ensures e.Some? && e.value.sha.None? <==> p in Gone(ws, present)
  {
    var content := ws.read(p);
    e := None;
    if content.None? {
      e := Some(Entry(p, NEW_FILE_MODE, None));
    } else if Blob(content.value) != ws.baseline[p].sha {
      e := Some(Entry(p, ws.baseline[p].mode, Some(Blob(content.value))));
    }
  }

  lemma CountOne(gone: set<Path>, seen: set<Path>, p: Path)
    requires p !in seen
    ensures |gone * (seen + {p})| == |gone * seen| + (if p in gone then 1 else 0)
  {
    assert gone * (seen + {p}) == gone * seen + (if p in gone then {p} else {});
  }

  lemma CountNone(gone: set<Path>, seen: set<Path>)
    requires gone !! seen
    ensures |gone * seen| == 0
  {
    assert gone * seen == {};
  }

  lemma CountAll(gone: set<Path>, seen: set<Path>)
    requires gone <= seen
    ensures |gone * seen| == |gone|
  {
    assert gone * seen == gone;
  }

  method SecondPass(ws: Workspace, present: Listing, before: seq<Entry>, changedBefore: nat)
    returns (entries: seq<Entry>, changed: nat, deleted: nat)
    requires Collected(ws, present, before, present.Keys) && changedBefore == |before|
    ensures Collected(ws, present, entries, present.Keys + ws.baseline.Keys) && changed == |entries|
    ensures deleted == |Gone(ws, present)|
  {
    entries, changed, deleted := before, changedBefore, 0;
    ghost var listed, gone := present.Keys, Gone(ws, present);
    var missed := ws.baseline.Keys - present.Keys;
    var left := missed;
    SeenNone(listed, missed);
    CountNone(gone, listed);
    while left != {}
      invariant left <= missed
      invariant Collected(ws, present, entries, listed + (missed - left)) && changed == |entries|
      invariant deleted == |gone * (listed + (missed - left))|
      decreases |left|
    {
      var p :| p in left;
      ghost var seen := listed + (missed - left);
      CollectOne(ws, present, entries, seen, p);
      CountOne(gone, seen, p);
      var e := DecideMissed(ws, present, p);
      if e.Some? {
        entries, changed := entries + [e.value], changed + 1;
        if e.value.sha.None? {
          deleted := deleted + 1;
        }
      }
      SeenOneMore(listed, missed, left, p);
      left := left - {p};
    }
    SeenAll(present, ws.baseline);
    CountAll(gone, present.Keys + ws.baseline.Keys);
  }

  /**
   * Two passes, over what is listed and over the baseline the listing missed. Pushes exactly the
   * decisions about all paths, unless most of the baseline seems to have vanished.
   */
  method Finalize(ws: Workspace, present: Listing) returns (r: Finalized)
    ensures r.RefusedMassDeletion? <==> Refuses(ws, present)
    ensures r.RefusedMassDeletion? ==> r.deleted == |Gone(ws, present)|
    ensures r.Pushed? ==> Collected(ws, present, r.entries, present.Keys + ws.baseline.Keys) && r.entries != []
                          && r.changed == |r.entries|
    ensures r.NothingPushed? <==> !Refuses(ws, present) && forall p :: EntryFor(ws, present, p).None?
  {
    var entries, changed := FirstPass(ws, present);
    var deleted;
    entries, changed, deleted := SecondPass(ws, present, entries, changed);
    if |ws.baseline| >= 8 && 2 * deleted > |ws.baseline| {
      return RefusedMassDeletion(deleted);
    }
    if changed == 0 {
      assert forall p :: p !in present && p !in ws.baseline ==> EntryFor(ws, present, p).None?;
      return NothingPushed;
    }
    assert EntryFor(ws, present, entries[0].path).Some?;
    r := Pushed(entries, changed);
  }

  // ----- what a push means -----------------------------------------------------------------------------

  /** The tree GitHub builds from a base tree and entries. */
  function Overlay(base: Tree, entries: seq<Entry>): Tree {
    if entries == [] then base
    else
      var t, e := Overlay(base, entries[..|entries| - 1]), entries[|entries| - 1];
      if e.sha.Some? then t[e.path := File(e.sha.value, e.mode)] else t - {e.path}
  }

  function Lookup(t: Tree, p: Path): Option<File> {
    if p in t then Some(t[p]) else None
  }

  /** What the pushed tree should hold at a path, read off the workspace and the base. */
  function Expected(base: Tree, ws: Workspace, present: Listing, p: Path): Option<File> {
    var content := ws.read(p);
    if p in ws.baseline then
      if content.Some? then Some(File(Blob(content.value), ws.baseline[p].mode))   // its content now, its own mode
      else if p in present then Lookup(base, p)                                    // listed but unreadable: left behind
      else None                                                                    // gone
    else if p in present && p !in ws.preexisting && content.Some? && !LooksBinary(content.value) then
      Some(File(Blob(content.value), NEW_FILE_MODE))
    else Lookup(base, p)
  }

  /** The ids a listing reports are those of what a read would give. */
  ghost predicate Sound(ws: Workspace, present: Listing) {
    forall p :: p in present && present[p].Some? ==> ws.read(p).Some? && present[p] == Some(Blob(ws.read(p).value))
  }

  ghost predicate ClonedFrom(ws: Workspace, base: Tree) {
    forall p :: p in ws.baseline ==> p in base && base[p] == ws.baseline[p]
  }

  function Applied(base: Tree, p: Path, e: Option<Entry>): Option<File> {
    if e.None? then Lookup(base, p)
    else if e.value.sha.Some? then Some(File(e.value.sha.value, e.value.mode))
    else None
  }

  lemma {:induction false} OverlayAt(base: Tree, ws: Workspace, present: Listing, entries: seq<Entry>, paths: set<Path>, p: Path)
    requires Collected(ws, present, entries, paths)
    ensures Lookup(Overlay(base, entries), p) == Applied(base, p, if p in paths then EntryFor(ws, present, p) else None)
  {
    if entries != [] {
      var shorter, last := entries[..|entries| - 1], entries[|entries| - 1];
      assert Collected(ws, present, shorter, paths - {last.path}) by {
        forall q | q in paths - {last.path} && EntryFor(ws, present, q).Some?
          ensures EntryFor(ws, present, q).value in shorter
        {
          var i :| 0 <= i < |entries| && entries[i] == EntryFor(ws, present, q).value;
          assert shorter[i] == entries[i];
        }
      }
      OverlayAt(base, ws, present, shorter, paths - {last.path}, p);
    }
  }

  /** At a baseline path the decision is right exactly when no reported id hides a change. */
  lemma DecisionRight(base: Tree, ws: Workspace, present: Listing, p: Path)
    requires ClonedFrom(ws, base)
    ensures Applied(base, p, EntryFor(ws, present, p)) == Expected(base, ws, present, p)
       <==> !(p in ws.baseline && p in present && present[p] == Some(ws.baseline[p].sha)
              && ws.read(p).Some? && Blob(ws.read(p).value) != ws.baseline[p].sha)
  {
  }

  /**
   * When finalize pushes, over a listing whose ids are sound, the pushed tree holds at every path
   * what the workspace means: changed content under its own mode, removals, new text files, and the
   * base everywhere else.
   */
  lemma PushPreservesMeaning(base: Tree, ws: Workspace, present: Listing, entries: seq<Entry>, p: Path)
    requires ClonedFrom(ws, base) && Sound(ws, present)
    requires Collected(ws, present, entries, present.Keys + ws.baseline.Keys)
    ensures Lookup(Overlay(base, entries), p) == Expected(base, ws, present, p)
  {
    OverlayAt(base, ws, present, entries, present.Keys + ws.baseline.Keys, p);
    DecisionRight(base, ws, present, p);
  }

  /** And when it pushes nothing, the base already holds that. */
  lemma NoPushMeansNoChange(base: Tree, ws: Workspace, present: Listing, p: Path)
    requires ClonedFrom(ws, base) && Sound(ws, present) && EntryFor(ws, present, p).None?
    ensures Lookup(base, p) == Expected(base, ws, present, p)
  {
    DecisionRight(base, ws, present, p);
  }

  /** For example, a write that lands after the listing was taken: the base stays, the change is lost. */
  lemma HiddenChange()
    ensures var base := map["f" := File(Blob([65]), NEW_FILE_MODE)];
            var ws := Workspace(base, {}, (p: Path) => if p == "f" then Some([66]) else None);
            var present := map["f" := Some(Blob([65]))];
            && EntryFor(ws, present, "f") == None
            && Lookup(base, "f") == Some(File(Blob([65]), NEW_FILE_MODE))
            && Expected(base, ws, present, "f") == Some(File(Blob([66]), NEW_FILE_MODE))
  {
  }

  /** What reading gives, in terms of the bytes that are there. */
  ghost predicate ReadsText(ws: Workspace, stored: Path -> Option<Content>) {
    forall p :: ws.read(p) == if stored(p).None? then None else Some(Recode(stored(p).value))
  }

  /** The shell command's ids are those of the bytes that are there. */
  ghost predicate HashesBytes(present: Listing, stored: Path -> Option<Content>) {
    forall p :: p in present && present[p].Some? ==> stored(p).Some? && present[p] == Some(Blob(stored(p).value))
  }

  /** Such ids are sound for what finalize reads exactly when the files they are given for are well-formed text. */
  lemma BytesAreText(ws: Workspace, present: Listing, stored: Path -> Option<Content>)
    requires ReadsText(ws, stored) && HashesBytes(present, stored)
    ensures Sound(ws, present) <==> forall p :: p in present && present[p].Some? ==> WellFormed(stored(p).value)
  {
    forall p | p in present && present[p].Some?
      ensures (ws.read(p).Some? && present[p] == Some(Blob(ws.read(p).value))) <==> WellFormed(stored(p).value)
    {
      RecodeKeeps(stored(p).value);
    }
  }

  // ----- one workspace, two listings -------------------------------------------------------------------

  /** Whichever way, and however partially, the workspace was listed, a readable baseline path gets the same decision. */
  lemma DecisionIndependent(ws: Workspace, a: Listing, b: Listing, p: Path)
    requires Sound(ws, a) && Sound(ws, b) && p in ws.baseline && ws.read(p).Some?
    ensures EntryFor(ws, a, p) == EntryFor(ws, b, p)
    ensures EntryFor(ws, a, p).Some? <==> Blob(ws.read(p).value) != ws.baseline[p].sha
  {
  }

  lemma EmittedThere(ws: Workspace, a: Listing, b: Listing, ea: seq<Entry>, eb: seq<Entry>, e: Entry)
    requires Sound(ws, a) && Sound(ws, b)
    requires Collected(ws, a, ea, a.Keys + ws.baseline.Keys) && Collected(ws, b, eb, b.Keys + ws.baseline.Keys)
    requires e.path in ws.baseline && ws.read(e.path).Some? && e in ea
    ensures e in eb
  {
    var i :| 0 <= i < |ea| && ea[i] == e;
    assert EntryFor(ws, a, ea[i].path) == Some(ea[i]);
    DecisionIndependent(ws, a, b, e.path);
  }

  /** Of two listings of one workspace, finalize emits the same entries for every readable baseline path. */
  lemma ListingIndependent(ws: Workspace, a: Listing, b: Listing, ea: seq<Entry>, eb: seq<Entry>, e: Entry)
    requires Sound(ws, a) && Sound(ws, b)
    requires Collected(ws, a, ea, a.Keys + ws.baseline.Keys) && Collected(ws, b, eb, b.Keys + ws.baseline.Keys)
    requires e.path in ws.baseline && ws.read(e.path).Some?
    ensures e in ea <==> e in eb
  {
    if e in ea {
      EmittedThere(ws, a, b, ea, eb, e);
    }
    if e in eb {
      EmittedThere(ws, b, a, eb, ea, e);
    }
  }

  /** Baseline paths that cannot be read. */
  function Unreadable(ws: Workspace): set<Path> {
    set p | p in ws.baseline && ws.read(p).None?
  }

  lemma GoneIsMissed(ws: Workspace, present: Listing)
    ensures Gone(ws, present) == Unreadable(ws) - present.Keys
  {
  }

  lemma SizeOfPart<T>(part: set<T>, whole: set<T>)
    requires part <= whole
    ensures |part| <= |whole|
  {
    assert whole == part + (whole - part);
  }

  /** Where both leave out the same unreadable paths, they agree to refuse. */
  lemma SameRefusal(ws: Workspace, a: Listing, b: Listing)
    requires Unreadable(ws) - a.Keys == Unreadable(ws) - b.Keys
    ensures Refuses(ws, a) <==> Refuses(ws, b)
  {
    GoneIsMissed(ws, a);
    GoneIsMissed(ws, b);
  }

  /** A listing that names every unreadable path, and so none of them as gone. */
  function NamingUnreadable(ws: Workspace): Listing {
    map p | p in Unreadable(ws) :: None
  }

  ghost predicate Disagree(ws: Workspace, a: Listing, b: Listing) {
    Sound(ws, a) && Sound(ws, b) && Refuses(ws, a) && !Refuses(ws, b)
  }

  /**
   * An unreadable path counts as deleted only when the listing misses it, so two sound listings can
   * disagree to refuse: exactly when more than half of a baseline of eight or more cannot be read.
   */
  lemma RefusalDependsOnListing(ws: Workspace)
    ensures (exists a, b :: Disagree(ws, a, b)) <==> |ws.baseline| >= 8 && 2 * |Unreadable(ws)| > |ws.baseline|
  {
    var none, all: Listing := map[], NamingUnreadable(ws);
    GoneIsMissed(ws, none);
    GoneIsMissed(ws, all);
    assert Unreadable(ws) - none.Keys == Unreadable(ws) && Unreadable(ws) - all.Keys == {};
    if |ws.baseline| >= 8 && 2 * |Unreadable(ws)| > |ws.baseline| {
      assert Disagree(ws, none, all);
    }
    forall a, b | Disagree(ws, a, b)
      ensures |ws.baseline| >= 8 && 2 * |Unreadable(ws)| > |ws.baseline|
    {
      GoneIsMissed(ws, a);
      SizeOfPart(Unreadable(ws) - a.Keys, Unreadable(ws));
    }
  }

  // ----- a clone nobody touched ------------------------------------------------------------------------

  /** Every file reads as it was written, the listing names no others than were there, and its ids are sound. */
  ghost predicate Untouched(ws: Workspace, present: Listing) {
    && (forall q :: q in ws.baseline ==> ws.read(q) == Some(Recode(ws.baseline[q].sha.content)))
    && (forall q :: q in present ==> q in ws.baseline || q in ws.preexisting)
    && Sound(ws, present)
  }

  lemma UntouchedPath(ws: Workspace, present: Listing, p: Path)
    requires Untouched(ws, present)
    ensures EntryFor(ws, present, p).None? <==> (p in ws.baseline ==> WellFormed(ws.baseline[p].sha.content))
  {
    if p in ws.baseline {
      RecodeKeeps(ws.baseline[p].sha.content);
    }
  }

  /**
   * An untouched clone is never refused, and pushes nothing exactly when every text blob it
   * materialized is well-formed UTF-8: any other was already rewritten when it was cloned.
   */
  lemma UntouchedClone(ws: Workspace, present: Listing)
    requires Untouched(ws, present)
    ensures !Refuses(ws, present)
    ensures (forall p :: EntryFor(ws, present, p).None?)
       <==> forall p :: p in ws.baseline ==> WellFormed(ws.baseline[p].sha.content)
  {
    assert Gone(ws, present) == {};
    forall p
      ensures EntryFor(ws, present, p).None? <==> (p in ws.baseline ==> WellFormed(ws.baseline[p].sha.content))
    {
      UntouchedPath(ws, present, p);
    }
  }

  /** For example, a Latin-1 file of one accented letter is text to the clone and comes back replaced. */
  lemma LatinIsPushed(ws: Workspace, present: Listing, p: Path)
    requires Untouched(ws, present) && p in ws.baseline && ws.baseline[p].sha == Blob([0xE9])
    ensures !LooksBinary([0xE9])
    ensures EntryFor(ws, present, p) == Some(Entry(p, ws.baseline[p].mode, Some(Blob(REPLACEMENT))))
  {
    LatinIsReplaced();
  }
}
