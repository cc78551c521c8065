/** The git virtual file system (src/infrastructure/storage/gvfs): a lazily loaded overlay of
    a working copy, with changed bytes and an index of entries saved in the session storage,
    and a commit that writes the changes back.

    `hash` stands for the truncated SHA-256 digest; paths name regular files of the work tree,
    none of which git ignores. */
module GitOverlay {
  import opened Prelude

  type Bytes = seq<bv8>

  datatype FileStatus = Unchanged | Modified | Added | Deleted | Conflict | Untracked

  datatype VirtualFile = VirtualFile(
    path: string,
    content: Option<Bytes>,
    sha: string,
    status: FileStatus,
    headSha: Option<string>,
    headContent: Option<Bytes>)
  {
    predicate HasChanges() {
      status == Modified || status == Added || status == Deleted
    }
  }

  /** What `vfs_state.json` keeps of an entry. */
  datatype SavedFile = SavedFile(path: string, sha: string, status: FileStatus, headSha: Option<string>)

  /** The mount's entries, the working copy, the tree of git's HEAD, the saved bytes of changed
      files, and the saved index. */
  datatype State = State(
    files: map<string, VirtualFile>,
    disk: map<string, Bytes>,
    head: map<string, Bytes>,
    changes: map<string, Bytes>,
    stateFile: Option<map<string, SavedFile>>)

  // ---------------------------------------------------------------------------
  // Paths

  function StripSlashes(path: string): string {
    if path != [] && path[0] == '/' then StripSlashes(path[1..]) else path
  }

  /** Python's `s.replace(part, "", 1)`. */
  function RemoveFirst(s: string, part: string): string {
    if |s| < |part| then s
    else if s[..|part|] == part then s[|part|..]
    else if s == [] then s
    else [s[0]] + RemoveFirst(s[1..], part)
  }

  function Normalize(path: string): string {
    RemoveFirst(StripSlashes(path), "workspace/")
  }

  predicate PartAt(s: string, part: string, i: int) {
    0 <= i <= |s| - |part| && s[i..i + |part|] == part
  }

  ghost predicate HasPart(s: string, part: string) {
    exists i :: PartAt(s, part, i)
  }

  lemma PartShifts(s: string, part: string, i: int)
    requires s != [] && 0 <= i
    ensures PartAt(s[1..], part, i) <==> PartAt(s, part, i + 1)
  {
    assert i <= |s[1..]| - |part| ==> s[1..][i..i + |part|] == s[i + 1..i + 1 + |part|];
  }

  lemma PartAtFront(s: string, part: string)
    requires |s| >= |part|
    ensures PartAt(s, part, 0) <==> s[..|part|] == part
  {
    assert s[0..0 + |part|] == s[..|part|];
  }

  lemma {:induction false} NothingToRemove(s: string, part: string)
    requires part != [] && !HasPart(s, part)
    ensures RemoveFirst(s, part) == s
  {
    if |s| >= |part| {
      PartAtFront(s, part);
      forall i
        ensures !PartAt(s[1..], part, i)
      {
        if 0 <= i {
          PartShifts(s, part, i);
        }
      }
      NothingToRemove(s[1..], part);
    }
  }

  /** The first occurrence is removed, wherever it is, and the rest kept. */
  lemma {:induction false} FirstIsRemoved(s: string, part: string, i: nat)
    requires part != [] && PartAt(s, part, i) && forall j :: j < i ==> !PartAt(s, part, j)
    ensures RemoveFirst(s, part) == s[..i] + s[i + |part|..]
  {
    PartAtFront(s, part);
    if i == 0 {
      RemovedInFront(s, part);
    } else {
      EarlierPartsShift(s, part, i);
      FirstIsRemoved(s[1..], part, i - 1);
      RemovedLater(s, part);
      Reassembled(s, i, |part|);
    }
  }

  lemma EarlierPartsShift(s: string, part: string, i: nat)
    requires s != [] && 0 < i && PartAt(s, part, i) && forall j :: j < i ==> !PartAt(s, part, j)
    ensures PartAt(s[1..], part, i - 1) && forall j :: j < i - 1 ==> !PartAt(s[1..], part, j)
  {
    PartShifts(s, part, i - 1);
    forall j | j < i - 1
      ensures !PartAt(s[1..], part, j)
    {
      if 0 <= j {
        PartShifts(s, part, j);
      }
    }
  }

  lemma RemovedInFront(s: string, part: string)
    requires |s| >= |part| && s[..|part|] == part
    ensures RemoveFirst(s, part) == s[..0] + s[0 + |part|..]
  {
  }

  lemma RemovedLater(s: string, part: string)
    requires s != [] && |s| >= |part| && s[..|part|] != part
    ensures RemoveFirst(s, part) == [s[0]] + RemoveFirst(s[1..], part)
  {
  }

  lemma Reassembled(s: string, i: nat, n: nat)
    requires 0 < i && i + n <= |s|
    ensures [s[0]] + (s[1..][..i - 1] + s[1..][i - 1 + n..]) == s[..i] + s[i + n..]
  {
    assert s[1..][i - 1 + n..] == s[i + n..];
  }

  /** A path is one file under each of its names: as it is, from the root, and with the workspace
      in front, once or from the root. */
  lemma PathsNameOneFile(p: string)
    requires !HasPart(p, "workspace/") && (p != [] ==> p[0] != '/')
    ensures Normalize(p) == Normalize("/" + p) == Normalize("workspace/" + p) == Normalize("/workspace/" + p) == p
  {
    NothingToRemove(p, "workspace/");
    assert ("/" + p)[1..] == p;
    assert ("workspace/" + p)[..10] == "workspace/" && ("workspace/" + p)[10..] == p;
    assert ("/workspace/" + p)[1..] == "workspace/" + p;
    StripOnce(p);
    StripOnce("workspace/" + p);
  }

  lemma StripOnce(p: string)
    requires p != [] ==> p[0] != '/'
    ensures StripSlashes(p) == p && StripSlashes("/" + p) == p
  {
    assert ("/" + p)[1..] == p;
  }

  // ---------------------------------------------------------------------------
  // Operations

  function At(m: map<string, Bytes>, p: string): Option<Bytes> {
    if p in m then Some(m[p]) else None
  }

  /** `index_repository`: one unchanged entry per path of the commit. */
  function Indexed(index: map<string, string>): map<string, VirtualFile> {
    map p | p in index :: VirtualFile(p, None, index[p], Unchanged, Some(index[p]), None)
  }

  /** The tree that git lists: the bytes on disk of the indexed paths. */
  function HeadTree(disk: map<string, Bytes>, index: map<string, string>): map<string, Bytes> {
    map p | p in disk && p in index :: disk[p]
  }

  function Cloned(disk: map<string, Bytes>, index: map<string, string>): State {
    State(Indexed(index), disk, HeadTree(disk, index), map[], None)
  }

  function Load(s: State, f: VirtualFile): VirtualFile {
    if f.path in s.changes then f.(content := Some(s.changes[f.path]))
    else if f.path in s.disk then
      f.(content := Some(s.disk[f.path]), headContent := Some(s.disk[f.path]), headSha := Some(f.sha))
    else f
  }

  function AfterRead(s: State, p: string): State {
    if p !in s.files && p !in s.disk then s
    else
      var f := if p in s.files then s.files[p] else VirtualFile(p, None, "", Untracked, None, None);
      s.(files := s.files[p := if f.content.None? then Load(s, f) else f])
  }

  /** What a read hands out: no entry and an entry without bytes both come out as `None`. */
  function ReadResult(s: State, p: string): Option<Bytes> {
    if p in AfterRead(s, p).files then AfterRead(s, p).files[p].content else None
  }

  function Save(files: map<string, VirtualFile>): map<string, SavedFile> {
    map p | p in files :: SavedFile(files[p].path, files[p].sha, files[p].status, files[p].headSha)
  }

  function Restore(saved: map<string, SavedFile>): map<string, VirtualFile> {
    map p | p in saved :: VirtualFile(saved[p].path, None, saved[p].sha, saved[p].status, saved[p].headSha, None)
  }

  function Written(hash: Bytes -> string, s: State, p: string, content: Bytes): VirtualFile {
    var sha := hash(content);
    if p in s.files then
      var f := s.files[p];
      if Some(sha) != f.headSha then f.(status := Modified, sha := sha, content := Some(content))
      else f.(status := Unchanged, sha := f.headSha.value, content := Some(content))
    else VirtualFile(p, Some(content), sha, Added, None, None)
  }

  function AfterWrite(hash: Bytes -> string, s: State, p: string, content: Bytes): State {
    var files := s.files[p := Written(hash, s, p, content)];
    s.(files := files, changes := s.changes[p := content], stateFile := Some(Save(files)))
  }

  function AfterDelete(s: State, p: string): State {
    if p !in s.files then s
    else if s.files[p].status == Added then s.(files := s.files - {p})
    else s.(files := s.files[p := s.files[p].(status := Deleted, content := None)])
  }

  /** What the outside does during a commit: whether git agrees to one, and the files whose write
      or removal raises. A write that raises leaves the file alone (`None`) or other bytes in its
      place, a removal leaves it alone. */
  datatype Outside = Outside(gitAgrees: bool, faults: map<string, Option<Bytes>>)

  /** What `apply_to_workspace` leaves on disk at one path; errors are collected and passed over. */
  function AppliedAt(files: map<string, VirtualFile>, disk: map<string, Bytes>, o: Outside, p: string): Option<Bytes> {
    if p !in files || !files[p].HasChanges() then At(disk, p)
    else if files[p].status == Deleted then if p in o.faults then At(disk, p) else None
    else if files[p].content.None? then At(disk, p)
    else if p !in o.faults then files[p].content
    else if o.faults[p].Some? then o.faults[p]
    else At(disk, p)
  }

  function Applied(files: map<string, VirtualFile>, disk: map<string, Bytes>, o: Outside): map<string, Bytes> {
    map p | p in disk.Keys + files.Keys && AppliedAt(files, disk, o, p).Some? :: AppliedAt(files, disk, o, p).value
  }

  function Settled(f: VirtualFile): VirtualFile {
    if f.HasChanges() then f.(status := Unchanged, headSha := Some(f.sha), headContent := f.content) else f
  }

  /** `git add -A` and `git commit`: git refuses when the work tree is that of HEAD already, and
      may refuse for a reason of its own, such as a hook. */
  predicate CommitAccepted(s: State, o: Outside) {
    o.gitAgrees && Applied(s.files, s.disk, o) != s.head
  }

  function AfterCommit(s: State, o: Outside): State {
    var s1 := s.(disk := Applied(s.files, s.disk, o));
    if CommitAccepted(s, o) then
      var files := map p | p in s.files :: Settled(s.files[p]);
      s1.(files := files, head := s1.disk, stateFile := Some(Save(files)))
    else s1
  }

  /** `unmount` with persistence, then `mount_repository` again. */
  function AfterRemount(s: State): State {
    s.(files := Restore(Save(s.files)), stateFile := Some(Save(s.files)))
  }

  class Mount {
    const hash: Bytes -> string
    var files: map<string, VirtualFile>
    var disk: map<string, Bytes>
    var head: map<string, Bytes>
    var changes: map<string, Bytes>
    var stateFile: Option<map<string, SavedFile>>

    ghost function Value(): State
      reads this
    {
      State(files, disk, head, changes, stateFile)
    }

    constructor Clone(hash: Bytes -> string, disk: map<string, Bytes>, index: map<string, string>)
      ensures this.hash == hash && Value() == Cloned(disk, index)
      ensures forall p :: p in head <==> p in index && p in disk
      ensures forall p :: p in head ==> head[p] == disk[p]
    {
      this.hash := hash;
      files := map p | p in index :: VirtualFile(p, None, index[p], Unchanged, Some(index[p]), None);
      this.disk := disk;
      head := map p | p in disk && p in index :: disk[p];
      changes := map[];
      stateFile := None;
    }

    method ReadFile(path: string) returns (content: Option<Bytes>)
      modifies `files
      ensures Value() == AfterRead(old(Value()), Normalize(path))
      ensures content == ReadResult(old(Value()), Normalize(path))
    {
      var p := Normalize(path);
      if p !in files {
        if p !in disk {
          return None;
        }
        files := files[p := VirtualFile(p, None, "", Untracked, None, None)];
      }
      if files[p].content.None? {
        LoadContent(p);
      }
      return files[p].content;
    }

    method LoadContent(p: string)
      requires p in files
      modifies `files
      ensures files == old(files)[p := Load(old(Value()), old(files)[p])]
    {
      var f := files[p];
      if f.path in changes {
        f := f.(content := Some(changes[f.path]));
      } else if f.path in disk {
        f := f.(content := Some(disk[f.path]));
        f := f.(headContent := f.content, headSha := Some(f.sha));
      }
      files := files[p := f];
    }

    method WriteFile(path: string, content: Bytes)
      modifies this
      ensures Value() == AfterWrite(hash, old(Value()), Normalize(path), content)
    {
      var p := Normalize(path);
      if p in files {
        var f := files[p];
        var newSha := hash(content);
        f := f.(status := if Some(newSha) != f.headSha then Modified else Unchanged);
        f := f.(sha := if f.status == Modified then newSha else f.headSha.value);
        files := files[p := f];
      } else {
        files := files[p := VirtualFile(p, Some(content), hash(content), Added, None, None)];
      }
      files := files[p := files[p].(content := Some(content))];
      assert files == old(files)[p := Written(hash, old(Value()), p, content)];
      changes := changes[p := content];
      SaveMountState();
    }

    method SaveMountState()
      modifies `stateFile
      ensures stateFile == Some(Save(files))
    {
      stateFile := Some(Save(files));
    }

    method DeleteFile(path: string) returns (found: bool)
      modifies `files
      ensures Value() == AfterDelete(old(Value()), Normalize(path))
      ensures found <==> Normalize(path) in old(files)
    {
      var p := Normalize(path);
      if p in files {
        if files[p].status == Added {
          files := files - {p};
        } else {
          files := files[p := files[p].(status := Deleted, content := None)];
        }
        return true;
      }
      return false;
    }

    method GetChanges() returns (modified: set<string>, added: set<string>, deleted: set<string>)
      ensures forall p :: p in modified <==> p in files && files[p].status == Modified
      ensures forall p :: p in added <==> p in files && files[p].status == Added
      ensures forall p :: p in deleted <==> p in files && files[p].status == Deleted
    {
      modified := set p | p in files && files[p].status == Modified;
      added := set p | p in files && files[p].status == Added;
      deleted := set p | p in files && files[p].status == Deleted;
    }

    method ApplyToWorkspace(o: Outside)
      modifies `disk
      ensures disk == Applied(files, old(disk), o)
    {
      var todo := files.Keys;
      while todo != {}
        invariant todo <= files.Keys
        invariant forall p :: At(disk, p) == if p in todo then At(old(disk), p) else AppliedAt(files, old(disk), o, p)
        decreases |todo|
      {
        var p :| p in todo;
        AppliedLocally(files, disk, old(disk), o, p);
        ApplyFile(o, p);
        todo := todo - {p};
      }
      AppliedByPoints(files, old(disk), o, disk);
    }

    /** The body of that loop. */
    method ApplyFile(o: Outside, p: string)
      requires p in files
      modifies `disk
      ensures At(disk, p) == AppliedAt(files, old(disk), o, p)
      ensures forall q :: q != p ==> At(disk, q) == At(old(disk), q)
    {
      var f := files[p];
      if !f.HasChanges() {
        return;
      }
      if f.status == Deleted {
        if p in disk && p !in o.faults {
          disk := disk - {p};
        }
      } else if f.content.Some? {
        if p !in o.faults {
          disk := disk[p := f.content.value];
        } else if o.faults[p].Some? {
          disk := disk[p := o.faults[p].value];
        }
      }
    }

    method CommitChanges(o: Outside) returns (success: bool)
      modifies this
      ensures Value() == AfterCommit(old(Value()), o)
      ensures success <==> CommitAccepted(old(Value()), o)
    {
      ApplyToWorkspace(o);
      success := o.gitAgrees && disk != head;
      if success {
        head := disk;
        SettleChanges();
        SaveMountState();
      }
    }

    /** The loop over the entries after a successful commit. */
    method SettleChanges()
      modifies `files
      ensures files == map p | p in old(files) :: Settled(old(files)[p])
    {
      var todo := files.Keys;
      while todo != {}
        invariant todo <= files.Keys == old(files).Keys
        invariant forall p :: p in files ==> files[p] == if p in todo then old(files)[p] else Settled(old(files)[p])
        decreases |todo|
      {
        var p :| p in todo;
        todo := todo - {p};
        var f := files[p];
        if f.HasChanges() {
          files := files[p := f.(status := Unchanged, headSha := Some(f.sha), headContent := f.content)];
        }
      }
    }

    method Remount()
      modifies this
      ensures Value() == AfterRemount(old(Value()))
    {
      SaveMountState();
      files := map[];
      RestoreMountState();
    }

    method RestoreMountState()
      requires stateFile.Some? && files == map[]
      modifies `files
      ensures files == Restore(stateFile.value)
    {
      var saved := stateFile.value;
      var todo := saved.Keys;
      while todo != {}
        invariant todo <= saved.Keys
        invariant files == map p | p in saved && p !in todo ::
                    VirtualFile(saved[p].path, None, saved[p].sha, saved[p].status, saved[p].headSha, None)
        decreases |todo|
      {
        var p :| p in todo;
        todo := todo - {p};
        files := files[p := VirtualFile(saved[p].path, None, saved[p].sha, saved[p].status, saved[p].headSha, None)];
      }
    }
  }

  lemma SamePoints(a: map<string, Bytes>, b: map<string, Bytes>)
    requires forall p :: At(a, p) == At(b, p)
    ensures a == b
  {
    forall p
      ensures p in a <==> p in b
      ensures p in a ==> a[p] == b[p]
    {
      assert At(a, p) == At(b, p);
    }
  }

  lemma AppliedLocally(
    files: map<string, VirtualFile>, disk: map<string, Bytes>, other: map<string, Bytes>, o: Outside, p: string)
    requires At(disk, p) == At(other, p)
    ensures AppliedAt(files, disk, o, p) == AppliedAt(files, other, o, p)
  {
  }

  lemma AppliedByPoints(
    files: map<string, VirtualFile>, disk: map<string, Bytes>, o: Outside, applied: map<string, Bytes>)
    requires forall p :: At(applied, p) == AppliedAt(files, disk, o, p)
    ensures applied == Applied(files, disk, o)
  {
    forall p
      ensures At(Applied(files, disk, o), p) == AppliedAt(files, disk, o, p)
    {
    }
    SamePoints(applied, Applied(files, disk, o));
  }

  // ---------------------------------------------------------------------------
  // Runs

  datatype Op =
    | Read(path: string)
    | Write(path: string, content: Bytes)
    | Delete(path: string)
    | Commit(outside: Outside)
    | Remount

  function Step(hash: Bytes -> string, s: State, op: Op): State {
    match op
    case Read(path) => AfterRead(s, Normalize(path))
    case Write(path, content) => AfterWrite(hash, s, Normalize(path), content)
    case Delete(path) => AfterDelete(s, Normalize(path))
    case Commit(o) => AfterCommit(s, o)
    case Remount => AfterRemount(s)
  }

  function RunFrom(hash: Bytes -> string, s: State, ops: seq<Op>): State {
    if ops == [] then s else Step(hash, RunFrom(hash, s, ops[..|ops| - 1]), ops[|ops| - 1])
  }

  /** A run on a fresh clone. */
  function Run(hash: Bytes -> string, disk: map<string, Bytes>, index: map<string, string>, ops: seq<Op>): State {
    RunFrom(hash, Cloned(disk, index), ops)
  }

  predicate Writes(op: Op, p: string) {
    op.Write? && Normalize(op.path) == p
  }

  predicate Deletes(op: Op, p: string) {
    op.Delete? && Normalize(op.path) == p
  }

  // ---------------------------------------------------------------------------
  // The overlay refines a plain map from paths to bytes

  /** The plain map: the files of the clone, as writes and deletions change them. */
  function Model(disk: map<string, Bytes>, ops: seq<Op>): map<string, Bytes> {
    if ops == [] then disk
    else
      var m, op := Model(disk, ops[..|ops| - 1]), ops[|ops| - 1];
      match op
      case Write(path, content) => m[Normalize(path) := content]
      case Delete(path) => m - {Normalize(path)}
      case _ => m
  }

  /** The path was deleted, and not written since. */
  predicate DeletedLast(ops: seq<Op>, p: string) {
    ops != [] &&
    var op := ops[|ops| - 1];
    (Deletes(op, p) || (!Writes(op, p) && DeletedLast(ops[..|ops| - 1], p)))
  }

  /** The bytes a path stands for. */
  function View(s: State, p: string): Option<Bytes> {
    if p in s.changes then Some(s.changes[p]) else At(s.disk, p)
  }

  ghost predicate Named(s: State) {
    forall p :: p in s.files ==> s.files[p].path == p
  }

  /** While a path is not deleted: loaded bytes are the view, a saved change has an entry, and
      a changed entry has its bytes saved. */
  ghost predicate Coherent(s: State, p: string) {
    && (p in s.files ==>
          && s.files[p].path == p && s.files[p].status != Deleted
          && (s.files[p].content.Some? ==> s.files[p].content == View(s, p))
          && (s.files[p].HasChanges() ==> p in s.changes))
    && (p in s.changes ==> p in s.files)
  }

  lemma ReadGivesView(s: State, p: string)
    requires Coherent(s, p)
    ensures ReadResult(s, p) == View(s, p)
  {
  }

  lemma WriteSetsView(hash: Bytes -> string, s: State, p: string, content: Bytes)
    requires p in s.files ==> s.files[p].path == p
    ensures Coherent(AfterWrite(hash, s, p, content), p) && View(AfterWrite(hash, s, p, content), p) == Some(content)
  {
  }

  lemma DiskAfterCommit(s: State, o: Outside, p: string)
    ensures At(AfterCommit(s, o).disk, p) == AppliedAt(s.files, s.disk, o, p)
    ensures p in AfterCommit(s, o).files <==> p in s.files
    ensures p in s.files ==>
              AfterCommit(s, o).files[p] == if CommitAccepted(s, o) then Settled(s.files[p]) else s.files[p]
  {
  }

  lemma CommitKeepsCoherent(s: State, o: Outside, p: string)
    requires Coherent(s, p)
    ensures Coherent(AfterCommit(s, o), p) && View(AfterCommit(s, o), p) == View(s, p)
  {
    DiskAfterCommit(s, o, p);
  }

  lemma StepKeepsNamed(hash: Bytes -> string, s: State, op: Op)
    requires Named(s)
    ensures Named(Step(hash, s, op))
  {
  }

  /** What neither writes nor deletes a path leaves its view alone. */
  lemma StepKeepsView(hash: Bytes -> string, s: State, op: Op, p: string)
    requires Coherent(s, p) && !Writes(op, p) && !Deletes(op, p)
    ensures Coherent(Step(hash, s, op), p) && View(Step(hash, s, op), p) == View(s, p)
  {
    if op.Commit? {
      CommitKeepsCoherent(s, op.outside, p);
    }
  }

  lemma {:induction false} RunIsNamed(hash: Bytes -> string, disk: map<string, Bytes>, index: map<string, string>,
    ops: seq<Op>)
    ensures Named(Run(hash, disk, index, ops))
  {
    if ops != [] {
      RunIsNamed(hash, disk, index, ops[..|ops| - 1]);
      StepKeepsNamed(hash, Run(hash, disk, index, ops[..|ops| - 1]), ops[|ops| - 1]);
    }
  }

  /** In every run, commits and remounts included, a path that was not deleted since it was
      last written stands for what the plain map holds. */
  lemma {:induction false} ViewIsModel(
    hash: Bytes -> string, disk: map<string, Bytes>, index: map<string, string>, ops: seq<Op>, p: string)
    requires !DeletedLast(ops, p)
    ensures var s := Run(hash, disk, index, ops); Coherent(s, p) && View(s, p) == At(Model(disk, ops), p)
  {
    if ops != [] {
      var q, op := ops[..|ops| - 1], ops[|ops| - 1];
      var s := Run(hash, disk, index, q);
      if Writes(op, p) {
        RunIsNamed(hash, disk, index, q);
        WriteSetsView(hash, s, p, op.content);
      } else {
        ViewIsModel(hash, disk, index, q, p);
        StepKeepsView(hash, s, op, p);
      }
    }
  }

  lemma {:induction false} DeletedIsGone(disk: map<string, Bytes>, ops: seq<Op>, p: string)
    requires DeletedLast(ops, p)
    ensures p !in Model(disk, ops)
  {
    if !Deletes(ops[|ops| - 1], p) {
      DeletedIsGone(disk, ops[..|ops| - 1], p);
    }
  }

  /** A path's history, as a caller sees it. `Original`: no bytes ever written are left under it;
      whether it has an entry, whether the disk has it, whether its deletion is still listed, and
      whether its bytes are in memory. `NewFile`: written once, with no bytes on disk before or
      since, and in no commit. `Kept`: its saved bytes can no longer get lost. */
  datatype Fate =
    | Original(entry: bool, onDisk: bool, deleted: bool, loaded: bool)
    | NewFile(loaded: bool)
    | Kept

  function FirstFate(disk: map<string, Bytes>, index: map<string, string>, p: string): Fate {
    Original(p in index, p in disk, false, false)
  }

  /** One more operation; of a commit the caller knows whether it succeeded. */
  function NextFate(f: Fate, op: Op, succeeded: bool, p: string): Fate {
    match op
    case Read(path) =>
      if Normalize(path) != p || f.Kept? then f
      else if f.NewFile? then NewFile(true)
      else if f.entry || f.onDisk then Original(true, f.onDisk, f.deleted, f.loaded || f.onDisk)
      else f
    case Write(path, _) =>
      if Normalize(path) != p then f
      else if f.Original? && !f.entry && !f.onDisk then NewFile(true)
      else Kept
    case Delete(path) =>
      if Normalize(path) != p || f.Kept? then f
      else if f.NewFile? then Original(false, false, false, false)
      else if f.entry then Original(true, f.onDisk, true, false)
      else f
    case Commit(o) =>
      (match f
       case Kept => Kept
       case NewFile(loaded) =>
         if succeeded || (loaded && (p !in o.faults || o.faults[p].Some?)) then Kept else f
       case Original(entry, onDisk, deleted, loaded) =>
         Original(entry, onDisk && (!deleted || p in o.faults), deleted && !succeeded, loaded))
    case Remount =>
      (match f
       case Kept => Kept
       case NewFile(_) => NewFile(false)
       case Original(entry, onDisk, deleted, _) => Original(entry, onDisk, deleted, false))
  }

  function FateOf(
    hash: Bytes -> string, disk: map<string, Bytes>, index: map<string, string>, ops: seq<Op>, p: string): Fate
  {
    if ops == [] then FirstFate(disk, index, p)
    else
      var q, op := ops[..|ops| - 1], ops[|ops| - 1];
      var succeeded := op.Commit? && CommitAccepted(Run(hash, disk, index, q), op.outside);
      NextFate(FateOf(hash, disk, index, q, p), op, succeeded, p)
  }

  /** The file was never written, or only as a new file that was deleted again; the disk has lost
      it, and no read put its bytes into memory before that. */
  predicate Vanished(f: Fate) {
    f.Original? && !f.onDisk && !f.loaded
  }

  /** What a fate says about the state. */
  ghost predicate Suffers(s: State, p: string, f: Fate) {
    && (p in s.files ==> s.files[p].path == p)
    && match f
       case Kept => p in s.changes && ((p in s.files && s.files[p].status != Added) || p in s.disk)
       case NewFile(loaded) =>
         && p in s.changes && p !in s.disk && p in s.files
         && s.files[p].status == Added && (s.files[p].content.Some? <==> loaded)
       case Original(entry, onDisk, deleted, loaded) =>
         && (p in s.files <==> entry) && (p in s.disk <==> onDisk)
         && (entry || onDisk ==> p !in s.changes)
         && (!entry ==> !deleted && !loaded)
         && (entry ==>
               && (s.files[p].status == Deleted <==> deleted) && (s.files[p].content.Some? <==> loaded)
               && s.files[p].status != Added && s.files[p].status != Modified)
  }

  lemma CommitSuffers(s: State, o: Outside, p: string, f: Fate)
    requires Suffers(s, p, f)
    ensures Suffers(AfterCommit(s, o), p, NextFate(f, Commit(o), CommitAccepted(s, o), p))
  {
    DiskAfterCommit(s, o, p);
  }

  lemma ReadSuffers(s: State, path: string, p: string, f: Fate)
    requires Suffers(s, p, f)
    ensures Suffers(AfterRead(s, Normalize(path)), p, NextFate(f, Read(path), false, p))
  {
  }

  lemma WriteSuffers(hash: Bytes -> string, s: State, path: string, content: Bytes, p: string, f: Fate)
    requires Suffers(s, p, f)
    ensures Suffers(AfterWrite(hash, s, Normalize(path), content), p, NextFate(f, Write(path, content), false, p))
  {
  }

  lemma StepSuffers(hash: Bytes -> string, s: State, op: Op, p: string, f: Fate)
    requires Suffers(s, p, f)
    ensures Suffers(Step(hash, s, op), p, NextFate(f, op, op.Commit? && CommitAccepted(s, op.outside), p))
  {
    match op
    case Read(path) => ReadSuffers(s, path, p, f);
    case Write(path, content) => WriteSuffers(hash, s, path, content, p, f);
    case Commit(o) => CommitSuffers(s, o, p, f);
    case _ =>
  }

  lemma {:induction false} RunSuffers(
    hash: Bytes -> string, disk: map<string, Bytes>, index: map<string, string>, ops: seq<Op>, p: string)
    ensures Suffers(Run(hash, disk, index, ops), p, FateOf(hash, disk, index, ops, p))
  {
    if ops != [] {
      var q := ops[..|ops| - 1];
      RunSuffers(hash, disk, index, q, p);
      StepSuffers(hash, Run(hash, disk, index, q), ops[|ops| - 1], p, FateOf(hash, disk, index, q, p));
    }
  }

  /** No entry is in conflict; a path that git indexes always has one, and it is neither added nor
      untracked. */
  ghost predicate StatusKnown(index: map<string, string>, s: State, p: string) {
    && (p in s.files ==> s.files[p].status != Conflict)
    && (p in index ==> p in s.files && s.files[p].status != Added && s.files[p].status != Untracked)
  }

  lemma StepKeepsStatusKnown(hash: Bytes -> string, index: map<string, string>, s: State, op: Op, p: string)
    requires StatusKnown(index, s, p)
    ensures StatusKnown(index, Step(hash, s, op), p)
  {
    if op.Commit? {
      DiskAfterCommit(s, op.outside, p);
    }
  }

  lemma {:induction false} StatusesAreKnown(
    hash: Bytes -> string, disk: map<string, Bytes>, index: map<string, string>, ops: seq<Op>, p: string)
    ensures StatusKnown(index, Run(hash, disk, index, ops), p)
  {
    if ops != [] {
      StatusesAreKnown(hash, disk, index, ops[..|ops| - 1], p);
      StepKeepsStatusKnown(hash, index, Run(hash, disk, index, ops[..|ops| - 1]), ops[|ops| - 1], p);
    }
  }

  /** Over every run: a read finds nothing exactly when the path's history is one of vanishing. */
  lemma ReadsNothingExactly(
    hash: Bytes -> string, disk: map<string, Bytes>, index: map<string, string>, ops: seq<Op>, p: string)
    ensures ReadResult(Run(hash, disk, index, ops), p) == None <==> Vanished(FateOf(hash, disk, index, ops, p))
  {
    RunSuffers(hash, disk, index, ops, p);
  }

  /** Over every run, deletions included: a read returns what the plain map holds, the bytes
      last written or the clone's, if and only if the path was not deleted since it was last
      written, or has vanished. */
  lemma OverlayRefinesMap(
    hash: Bytes -> string, disk: map<string, Bytes>, index: map<string, string>, ops: seq<Op>, path: string)
    ensures var s, p := Run(hash, disk, index, ops), Normalize(path);
            ReadResult(s, p) == At(Model(disk, ops), p) <==>
            !DeletedLast(ops, p) || Vanished(FateOf(hash, disk, index, ops, p))
  {
    var s, p := Run(hash, disk, index, ops), Normalize(path);
    if DeletedLast(ops, p) {
      DeletedIsGone(disk, ops, p);
      ReadsNothingExactly(hash, disk, index, ops, p);
    } else {
      ViewIsModel(hash, disk, index, ops, p);
      ReadGivesView(s, p);
    }
  }

  /** A file is gone for the reader right after its deletion exactly when its bytes are not on
      disk and, unless it had just been added, were never written through the overlay. */
  lemma DeletionHidesExactly(s: State, p: string)
    requires Named(s)
    ensures ReadResult(AfterDelete(s, p), p) == None <==>
            p !in s.disk && (p in s.files ==> s.files[p].status == Added || p !in s.changes)
  {
  }

  // ---------------------------------------------------------------------------
  // What a commit brings to disk

  /** What holds of every entry of a reachable state, deleted ones included. */
  ghost predicate Tracked(hash: Bytes -> string, s: State) {
    forall p :: p in s.files ==>
      var f := s.files[p];
      && f.path == p
      && (f.status == Modified || f.status == Unchanged ==> (f.status == Modified <==> Some(f.sha) != f.headSha))
      && (f.status == Modified || f.status == Added ==> p in s.changes && f.sha == hash(s.changes[p]))
      && (f.content.Some? && p in s.changes ==> f.content == Some(s.changes[p]))
  }

  /** What a commit, accepted or not, does to the bytes a path stands for: none but those of a
      deleted file that was never written are lost, and those unless its removal raises. */
  lemma CommitKeepsView(hash: Bytes -> string, s: State, o: Outside, p: string)
    requires Tracked(hash, s)
    ensures View(AfterCommit(s, o), p) == View(s, p) <==>
            !(p in s.files && s.files[p].status == Deleted && p !in s.changes && p in s.disk && p !in o.faults)
  {
    DiskAfterCommit(s, o, p);
  }

  /** A commit takes a deleted file off the disk unless its removal raises. Any other entry comes
      to stand on disk as it reads exactly when it stood so before, unless a loaded change of it
      fails half-way, or its change is loaded and written. */
  lemma CommitWritesExactly(hash: Bytes -> string, s: State, o: Outside, p: string)
    requires Tracked(hash, s) && p in s.files
    ensures var f, after := s.files[p], At(AfterCommit(s, o).disk, p);
            if f.status == Deleted then
              after.Some? <==> p in s.disk && p in o.faults
            else if f.HasChanges() && f.content.Some? && (p in o.faults ==> o.faults[p].Some?) then
              after == View(s, p) <==> (p in o.faults ==> o.faults[p] == View(s, p))
            else
              after == View(s, p) <==> At(s.disk, p) == View(s, p)
  {
    DiskAfterCommit(s, o, p);
  }

  /** A commit changes the file on disk. */
  predicate Reaches(s: State, o: Outside, p: string) {
    p in s.files && s.files[p].HasChanges() &&
    if s.files[p].status == Deleted then p in s.disk && p !in o.faults
    else && s.files[p].content.Some?
         && if p in o.faults then o.faults[p].Some? && o.faults[p] != At(s.disk, p)
            else s.files[p].content != At(s.disk, p)
  }

  /** On a work tree that is clean, git can accept exactly when some change reaches the disk: a
      loaded one with other bytes, or the deletion of a file that is there. */
  lemma AcceptedExactly(s: State, o: Outside)
    requires s.disk == s.head
    ensures CommitAccepted(s, o) <==> o.gitAgrees && exists p :: Reaches(s, o, p)
  {
    var applied := Applied(s.files, s.disk, o);
    forall p
      ensures At(applied, p) != At(s.disk, p) <==> Reaches(s, o, p)
    {
      assert At(applied, p) == AppliedAt(s.files, s.disk, o, p);
    }
    if p :| Reaches(s, o, p) {
      assert At(applied, p) != At(s.disk, p);
    } else {
      SamePoints(applied, s.disk);
    }
  }

  /** A change that was restored and not read since is no reason for git to accept: alone, it
      is refused and stays listed. */
  lemma UnloadedAloneIsRefused(s: State, o: Outside)
    requires s.disk == s.head
    requires forall p :: p in s.files && s.files[p].HasChanges() ==>
             s.files[p].status != Deleted && s.files[p].content.None?
    ensures !CommitAccepted(s, o) && AfterCommit(s, o) == s
  {
    AcceptedExactly(s, o);
    SamePoints(Applied(s.files, s.disk, o), s.disk);
  }

  /** The entry claims the bytes of HEAD, and the disk has others than the reader. */
  predicate Behind(s: State, p: string) {
    p in s.files && s.files[p].status == Unchanged && At(s.disk, p) != View(s, p)
  }

  /** How a listed change comes apart from the disk when it is committed: it is not loaded and
      differs, its write raises and leaves other bytes, or it is the deletion of a file that was
      written, whose saved bytes stay. */
  predicate ComesApart(s: State, o: Outside, p: string) {
    p in s.files &&
    match s.files[p].status
    case Modified | Added =>
      if s.files[p].content.None? || (p in o.faults && o.faults[p].None?) then At(s.disk, p) != View(s, p)
      else p in o.faults && o.faults[p] != View(s, p)
    case Deleted => p in s.changes && !(p in o.faults && At(s.disk, p) == View(s, p))
    case _ => false
  }

  /** After an accepted commit the work tree is HEAD, and for every entry of every reachable
      state: it is behind exactly when it was before, or its change came apart. */
  lemma BehindExactly(hash: Bytes -> string, s: State, o: Outside, p: string)
    requires Tracked(hash, s) && CommitAccepted(s, o)
    ensures AfterCommit(s, o).head == AfterCommit(s, o).disk
    ensures Behind(AfterCommit(s, o), p) <==> Behind(s, p) || ComesApart(s, o, p)
  {
    DiskAfterCommit(s, o, p);
  }

  /** Only two steps put an entry behind: an accepted commit in which its change comes apart, and
      writing back bytes with HEAD's digest while the disk still has others, as a refused commit
      leaves them. */
  lemma BehindBeginsExactly(hash: Bytes -> string, s: State, op: Op, p: string)
    requires Tracked(hash, s) && !Behind(s, p)
    ensures Behind(Step(hash, s, op), p) <==>
            if Writes(op, p) then
              p in s.files && s.files[p].headSha == Some(hash(op.content)) && At(s.disk, p) != Some(op.content)
            else op.Commit? && CommitAccepted(s, op.outside) && ComesApart(s, op.outside, p)
  {
    if op.Commit? {
      DiskAfterCommit(s, op.outside, p);
    }
  }

  lemma BehindIsCoherent(hash: Bytes -> string, s: State, p: string)
    requires Tracked(hash, s) && Behind(s, p)
    ensures Coherent(s, p)
  {
  }

  lemma {:induction false} StaysBehind(hash: Bytes -> string, s: State, ops: seq<Op>, p: string)
    requires Coherent(s, p) && Behind(s, p)
    requires forall i :: 0 <= i < |ops| ==> !Writes(ops[i], p) && !Deletes(ops[i], p)
    ensures var t := RunFrom(hash, s, ops);
            && Coherent(t, p) && Behind(t, p) && At(t.disk, p) == At(s.disk, p) && ReadResult(t, p) == ReadResult(s, p)
  {
    ReadGivesView(s, p);
    if ops != [] {
      var q, op := ops[..|ops| - 1], ops[|ops| - 1];
      var t := RunFrom(hash, s, q);
      StaysBehind(hash, s, q, p);
      StepKeepsView(hash, t, op, p);
      StepKeepsBehind(hash, t, op, p);
      ReadGivesView(t, p);
      ReadGivesView(Step(hash, t, op), p);
    }
  }

  lemma StepKeepsBehind(hash: Bytes -> string, s: State, op: Op, p: string)
    requires Coherent(s, p) && Behind(s, p) && !Writes(op, p) && !Deletes(op, p)
    ensures var t := Step(hash, s, op);
            p in t.files && t.files[p].status == Unchanged && At(t.disk, p) == At(s.disk, p)
  {
    if op.Commit? {
      DiskAfterCommit(s, op.outside, p);
    }
  }

  /** A file is written, committed, deleted, and the deletion committed. */
  function CommittedDeletion(path: string, content: Bytes, o: Outside): seq<Op> {
    [Write(path, content)] + [Commit(o)] + [Delete(path)] + [Commit(o)]
  }

  /** From every state without the file, in entry or HEAD, and with nothing going wrong: disk and
      reader agree before the last commit, it is accepted, and afterwards the entry is unchanged,
      neither disk nor HEAD has the file, and reads return its old bytes. */
  lemma DeletedBytesComeBack(hash: Bytes -> string, s: State, path: string, content: Bytes, o: Outside)
    requires var p := Normalize(path); p !in s.files && p !in s.head && o.gitAgrees && p !in o.faults
    ensures var p, ops := Normalize(path), CommittedDeletion(path, content, o);
            var before, t := RunFrom(hash, s, ops[..3]), RunFrom(hash, s, ops);
            && At(before.disk, p) == View(before, p) && CommitAccepted(before, o)
            && Behind(t, p) && p !in t.disk && p !in t.head && ReadResult(t, p) == Some(content)
  {
    var p := Normalize(path);
    var ops := CommittedDeletion(path, content, o);
    var s1 := AfterWrite(hash, s, p, content);
    var s2 := AfterCommit(s1, o);
    var s3 := AfterDelete(s2, p);
    CommittedDeletionRun(hash, s, path, content, o);
    assert ops[..3] == [Write(path, content)] + [Commit(o)] + [Delete(path)];
    AddedIsCommitted(s1, p, content, o);
    DeletedIsCommitted(s3, p, content, o);
  }

  lemma CommittedDeletionRun(hash: Bytes -> string, s: State, path: string, content: Bytes, o: Outside)
    ensures var p, ops := Normalize(path), [Write(path, content)] + [Commit(o)] + [Delete(path)];
            var s3 := AfterDelete(AfterCommit(AfterWrite(hash, s, p, content), o), p);
            RunFrom(hash, s, ops) == s3 && RunFrom(hash, s, ops + [Commit(o)]) == AfterCommit(s3, o)
  {
    var ops1 := [Write(path, content)];
    var s1 := AfterWrite(hash, s, Normalize(path), content);
    assert RunFrom(hash, s, ops1) == s1 by {
      assert [] + ops1 == ops1;
      RunSnoc(hash, s, [], Write(path, content));
    }
    var ops2 := ops1 + [Commit(o)];
    assert RunFrom(hash, s, ops2) == AfterCommit(s1, o) by {
      RunSnoc(hash, s, ops1, Commit(o));
    }
    var ops3 := ops2 + [Delete(path)];
    assert RunFrom(hash, s, ops3) == AfterDelete(AfterCommit(s1, o), Normalize(path)) by {
      RunSnoc(hash, s, ops2, Delete(path));
    }
    RunSnoc(hash, s, ops3, Commit(o));
  }

  lemma AddedIsCommitted(s: State, p: string, content: Bytes, o: Outside)
    requires p in s.files && s.files[p].status == Added && s.files[p].content == Some(content) && s.files[p].path == p
    requires p !in s.head && o.gitAgrees && p !in o.faults && At(s.changes, p) == Some(content)
    ensures var t := AfterDelete(AfterCommit(s, o), p);
            && p in t.files && t.files[p].status == Deleted && t.files[p].content == None && t.files[p].path == p
            && At(t.disk, p) == At(t.head, p) == At(t.changes, p) == Some(content)
  {
    DiskAfterCommit(s, o, p);
    assert p in Applied(s.files, s.disk, o);
  }

  lemma DeletedIsCommitted(s: State, p: string, content: Bytes, o: Outside)
    requires p in s.files && s.files[p].status == Deleted && s.files[p].content == None && s.files[p].path == p
    requires At(s.disk, p) == At(s.head, p) == At(s.changes, p) == Some(content) && o.gitAgrees && p !in o.faults
    ensures CommitAccepted(s, o)
    ensures var t := AfterCommit(s, o);
            Behind(t, p) && p !in t.disk && p !in t.head && ReadResult(t, p) == Some(content)
  {
    DiskAfterCommit(s, o, p);
    assert At(Applied(s.files, s.disk, o), p) == None;
  }

  /** The failing run: two files are written, a remount forgets their bytes, only the new one
      is read, and the commit that this one makes acceptable marks the other as unchanged. */
  function UnloadedCommit(path: string, content: Bytes, other: string, otherContent: Bytes, o: Outside): seq<Op> {
    [Write(path, content)] + [Write(other, otherContent)] + [Remount] + [Read(other)] + [Commit(o)]
  }

  lemma RunSnoc(hash: Bytes -> string, s: State, ops: seq<Op>, op: Op)
    ensures RunFrom(hash, s, ops + [op]) == Step(hash, RunFrom(hash, s, ops), op)
  {
    assert (ops + [op])[..|ops|] == ops;
  }

  lemma UnloadedCommitRun(
    hash: Bytes -> string, s: State, path: string, content: Bytes, other: string, otherContent: Bytes, o: Outside)
    ensures var p, q := Normalize(path), Normalize(other);
            var before :=
              AfterRead(AfterRemount(AfterWrite(hash, AfterWrite(hash, s, p, content), q, otherContent)), q);
            RunFrom(hash, s, UnloadedCommit(path, content, other, otherContent, o)) == AfterCommit(before, o)
  {
    var ops1 := [Write(path, content)];
    var ops2 := ops1 + [Write(other, otherContent)];
    var ops3 := ops2 + [Remount];
    var s1 := AfterWrite(hash, s, Normalize(path), content);
    var s2 := AfterWrite(hash, s1, Normalize(other), otherContent);
    assert RunFrom(hash, s, ops1) == s1 by {
      assert [] + ops1 == ops1;
      RunSnoc(hash, s, [], Write(path, content));
    }
    assert RunFrom(hash, s, ops2) == s2 by {
      RunSnoc(hash, s, ops1, Write(other, otherContent));
    }
    LastThreeSteps(hash, s, ops2, s2, other, o);
  }

  lemma LastThreeSteps(hash: Bytes -> string, s: State, ops: seq<Op>, t: State, other: string, o: Outside)
    requires RunFrom(hash, s, ops) == t
    ensures RunFrom(hash, s, ops + [Remount] + [Read(other)] + [Commit(o)]) ==
            AfterCommit(AfterRead(AfterRemount(t), Normalize(other)), o)
  {
    var ops1 := ops + [Remount];
    assert RunFrom(hash, s, ops1) == AfterRemount(t) by {
      RunSnoc(hash, s, ops, Remount);
    }
    var ops2 := ops1 + [Read(other)];
    assert RunFrom(hash, s, ops2) == AfterRead(AfterRemount(t), Normalize(other)) by {
      RunSnoc(hash, s, ops1, Read(other));
    }
    RunSnoc(hash, s, ops2, Commit(o));
  }

  /** One written change, restored and not read: the entry is there, not loaded. */
  lemma RestoredUnloaded(hash: Bytes -> string, s: State, p: string, content: Bytes, q: string, otherContent: Bytes)
    requires Coherent(s, p) && p != q
    ensures var t := AfterRead(AfterRemount(AfterWrite(hash, AfterWrite(hash, s, p, content), q, otherContent)), q);
            && Coherent(t, p) && View(t, p) == Some(content) && t.disk == s.disk && t.head == s.head
            && p in t.files && t.files[p].content == None
            && (t.files[p].HasChanges() || t.files[p].status == Unchanged)
  {
    var s1 := AfterWrite(hash, s, p, content);
    var s2 := AfterWrite(hash, s1, q, otherContent);
    WriteSetsView(hash, s, p, content);
    OtherPathKept(s1, s2, p);
    OtherPathKept(AfterRemount(s2), AfterRead(AfterRemount(s2), q), p);
  }

  lemma OtherPathKept(s: State, t: State, p: string)
    requires Coherent(s, p) && t.disk == s.disk
    requires At(t.changes, p) == At(s.changes, p)
    requires (p in t.files <==> p in s.files) && (p in s.files ==> t.files[p] == s.files[p])
    ensures Coherent(t, p) && View(t, p) == View(s, p)
  {
  }

  /** The other file is new, so it is listed as added and loaded. */
  lemma NewIsLoaded(hash: Bytes -> string, s: State, p: string, content: Bytes, q: string, otherContent: Bytes)
    requires p != q && q !in s.files
    ensures var t := AfterRead(AfterRemount(AfterWrite(hash, AfterWrite(hash, s, p, content), q, otherContent)), q);
            && q in t.files && t.files[q].status == Added && t.files[q].content == Some(otherContent)
  {
  }

  lemma NewMakesAcceptable(s: State, q: string, content: Bytes, o: Outside)
    requires q in s.files && s.files[q].status == Added && s.files[q].content == Some(content)
    requires q !in s.head && o.gitAgrees && q !in o.faults
    ensures CommitAccepted(s, o) && At(AfterCommit(s, o).disk, q) == Some(content)
  {
    DiskAfterCommit(s, o, q);
    assert q in Applied(s.files, s.disk, o);
  }

  /** From every state in which the path is not deleted, with any new file beside it and any
      bytes that the disk does not have: the commit is accepted, the written path is marked
      unchanged, reads return the written bytes, and neither the disk nor HEAD has them, then
      and for as long as the path is not written or deleted again. */
  lemma UnloadedChangeIsNotCommitted(
    hash: Bytes -> string, s: State, path: string, content: Bytes, other: string, otherContent: Bytes, o: Outside,
    later: seq<Op>)
    requires var p, q := Normalize(path), Normalize(other);
             && Coherent(s, p) && At(s.disk, p) != Some(content)
             && p != q && q !in s.files && q !in s.head && o.gitAgrees && q !in o.faults
    requires forall i :: 0 <= i < |later| ==>
               !Writes(later[i], Normalize(path)) && !Deletes(later[i], Normalize(path))
    ensures var p := Normalize(path);
            var t := RunFrom(hash, s, UnloadedCommit(path, content, other, otherContent, o));
            var u := RunFrom(hash, t, later);
            && t.head == t.disk && At(t.disk, Normalize(other)) == Some(otherContent)
            && At(t.disk, p) == At(u.disk, p) == At(s.disk, p)
            && Behind(t, p) && Behind(u, p)
            && ReadResult(t, p) == ReadResult(u, p) == Some(content)
  {
    var p, q := Normalize(path), Normalize(other);
    var before := AfterRead(AfterRemount(AfterWrite(hash, AfterWrite(hash, s, p, content), q, otherContent)), q);
    var t := AfterCommit(before, o);
    UnloadedCommitRun(hash, s, path, content, other, otherContent, o);
    RestoredUnloaded(hash, s, p, content, q, otherContent);
    NewIsLoaded(hash, s, p, content, q, otherContent);
    NewMakesAcceptable(before, q, otherContent, o);
    UnloadedIsSettled(before, p, content, o);
    ReadGivesView(t, p);
    StaysBehind(hash, t, later, p);
  }

  lemma UnloadedIsSettled(s: State, p: string, content: Bytes, o: Outside)
    requires Coherent(s, p) && View(s, p) == Some(content) != At(s.disk, p) && CommitAccepted(s, o)
    requires p in s.files && s.files[p].content == None && (s.files[p].HasChanges() || s.files[p].status == Unchanged)
    ensures var t := AfterCommit(s, o);
            && Coherent(t, p) && View(t, p) == Some(content) && Behind(t, p)
            && At(t.disk, p) == At(s.disk, p) && t.head == t.disk
  {
    DiskAfterCommit(s, o, p);
    CommitKeepsCoherent(s, o, p);
  }

  // ---------------------------------------------------------------------------
  // Change tracking, with deletions

  lemma WriteKeepsTracked(hash: Bytes -> string, s: State, p: string, content: Bytes)
    requires Tracked(hash, s)
    ensures Tracked(hash, AfterWrite(hash, s, p, content))
  {
  }

  lemma CommitKeepsTracked(hash: Bytes -> string, s: State, o: Outside)
    requires Tracked(hash, s)
    ensures Tracked(hash, AfterCommit(s, o))
  {
  }

  lemma StepKeepsTracked(hash: Bytes -> string, s: State, op: Op)
    requires Tracked(hash, s)
    ensures Tracked(hash, Step(hash, s, op))
  {
    match op
    case Write(path, content) => WriteKeepsTracked(hash, s, Normalize(path), content);
    case Commit(o) => CommitKeepsTracked(hash, s, o);
    case _ =>
  }

  /** Over every run, deletions included: an entry that is modified or unchanged is modified
      exactly when its digest differs from the one at HEAD. */
  lemma {:induction false} ChangeTracking(
    hash: Bytes -> string, disk: map<string, Bytes>, index: map<string, string>, ops: seq<Op>)
    ensures Tracked(hash, Run(hash, disk, index, ops))
  {
    if ops != [] {
      ChangeTracking(hash, disk, index, ops[..|ops| - 1]);
      StepKeepsTracked(hash, Run(hash, disk, index, ops[..|ops| - 1]), ops[|ops| - 1]);
    }
  }

  /** Neither deleted nor ever behind. */
  ghost predicate NeverBehind(hash: Bytes -> string, s: State, ops: seq<Op>, p: string) {
    && !Behind(RunFrom(hash, s, ops), p)
    && (ops == [] || (!Deletes(ops[|ops| - 1], p) && NeverBehind(hash, s, ops[..|ops| - 1], p)))
  }

  /** How an entry knows HEAD: by git's own id of the file, as the clone listed it, or by the
      digest of the bytes that a commit brought to HEAD. */
  ghost predicate HeadTied(hash: Bytes -> string, index: map<string, string>, s: State, p: string) {
    && Coherent(s, p)
    && (p !in s.changes ==> At(s.disk, p) == At(s.head, p))
    && (p !in s.files ==> p !in s.disk)
    && (p !in s.files || s.files[p].headSha.None? ==> p !in s.head)
    && (p in s.files ==> EntryTied(hash, index, s, p, s.files[p]))
  }

  ghost predicate EntryTied(hash: Bytes -> string, index: map<string, string>, s: State, p: string, f: VirtualFile) {
    match f.status
    case Added => p in s.changes && f.sha == hash(s.changes[p]) && f.headSha == None
    case Modified =>
      && p in s.changes && f.sha == hash(s.changes[p])
      && (f.headSha.Some? ==> KnowsHead(hash, index, s, p, f) && f.sha != f.headSha.value)
    case Unchanged =>
      && KnowsHead(hash, index, s, p, f) && f.sha == f.headSha.value
      && (p in s.changes ==> hash(s.changes[p]) == f.headSha.value)
    case _ => false
  }

  ghost predicate KnowsHead(hash: Bytes -> string, index: map<string, string>, s: State, p: string, f: VirtualFile) {
    && p in s.head && f.headSha.Some?
    && (f.headSha.value == hash(s.head[p]) || (p in index && f.headSha.value == index[p]))
  }

  lemma CommitKeepsTied(hash: Bytes -> string, index: map<string, string>, s: State, o: Outside, p: string)
    requires HeadTied(hash, index, s, p) && !Behind(s, p) && !Behind(AfterCommit(s, o), p)
    ensures HeadTied(hash, index, AfterCommit(s, o), p)
  {
    CommitKeepsCoherent(s, o, p);
    DiskAfterCommit(s, o, p);
  }

  lemma ReadKeepsTied(hash: Bytes -> string, index: map<string, string>, s: State, q: string, p: string)
    requires HeadTied(hash, index, s, p)
    ensures HeadTied(hash, index, AfterRead(s, q), p)
  {
  }

  lemma WriteKeepsTied(
    hash: Bytes -> string, index: map<string, string>, s: State, q: string, content: Bytes, p: string)
    requires HeadTied(hash, index, s, p)
    ensures HeadTied(hash, index, AfterWrite(hash, s, q, content), p)
  {
  }

  lemma StepKeepsTied(hash: Bytes -> string, index: map<string, string>, s: State, op: Op, p: string)
    requires HeadTied(hash, index, s, p) && !Behind(s, p) && !Behind(Step(hash, s, op), p) && !Deletes(op, p)
    ensures HeadTied(hash, index, Step(hash, s, op), p)
  {
    match op
    case Read(path) => ReadKeepsTied(hash, index, s, Normalize(path), p);
    case Write(path, content) => WriteKeepsTied(hash, index, s, Normalize(path), content, p);
    case Commit(o) => CommitKeepsTied(hash, index, s, o, p);
    case _ =>
  }

  lemma {:induction false} RunKeepsTied(
    hash: Bytes -> string, disk: map<string, Bytes>, index: map<string, string>, ops: seq<Op>, p: string)
    requires disk.Keys == index.Keys && NeverBehind(hash, Cloned(disk, index), ops, p)
    ensures HeadTied(hash, index, Run(hash, disk, index, ops), p)
  {
    if ops != [] {
      var q := ops[..|ops| - 1];
      RunKeepsTied(hash, disk, index, q, p);
      assert !Behind(Run(hash, disk, index, q), p);
      StepKeepsTied(hash, index, Run(hash, disk, index, q), ops[|ops| - 1], p);
    }
  }

  /** What "unchanged" says about bytes. On a path that was neither deleted nor behind: once its
      entry carries the digest of HEAD's bytes, it is unchanged exactly when the bytes it stands
      for have that digest. Before, it carries git's id, and is unchanged exactly when it was
      never written, or written with bytes whose digest happens to be that id. An entry that
      carries neither is a new file, which a second write lists as modified. */
  lemma UnchangedMeansHead(
    hash: Bytes -> string, disk: map<string, Bytes>, index: map<string, string>, ops: seq<Op>, p: string)
    requires disk.Keys == index.Keys && NeverBehind(hash, Cloned(disk, index), ops, p)
    ensures var s := Run(hash, disk, index, ops);
            p in s.files && (s.files[p].status == Modified || s.files[p].status == Unchanged) ==>
              && View(s, p).Some? && (s.files[p].headSha.Some? <==> p in s.head)
              && (if p !in s.head then s.files[p].status == Modified
                  else if s.files[p].headSha.value == hash(s.head[p])
                  then s.files[p].status == Unchanged <==> hash(View(s, p).value) == hash(s.head[p])
                  else && p in index && s.files[p].headSha.value == index[p]
                       && (s.files[p].status == Unchanged <==> p !in s.changes || hash(s.changes[p]) == index[p]))
  {
    RunKeepsTied(hash, disk, index, ops, p);
  }

  /** Digests tell bytes apart, and are no ids of git's. */
  ghost predicate Faithful(hash: Bytes -> string, index: map<string, string>) {
    && (forall a, b :: hash(a) == hash(b) ==> a == b)
    && (forall a, p :: p in index ==> hash(a) != index[p])
  }

  ghost predicate HeadShown(s: State, p: string) {
    p in s.files && s.files[p].headContent.Some? ==> s.files[p].headContent == At(s.head, p)
  }

  lemma StepKeepsHeadShown(hash: Bytes -> string, index: map<string, string>, s: State, op: Op, p: string)
    requires Faithful(hash, index) && HeadTied(hash, index, s, p) && HeadShown(s, p)
    requires !Behind(s, p) && !Behind(Step(hash, s, op), p) && !Deletes(op, p)
    ensures HeadShown(Step(hash, s, op), p)
  {
    if op.Commit? {
      CommitKeepsHeadShown(hash, index, s, op.outside, p);
    }
  }

  lemma CommitKeepsHeadShown(hash: Bytes -> string, index: map<string, string>, s: State, o: Outside, p: string)
    requires Faithful(hash, index) && HeadTied(hash, index, s, p) && HeadShown(s, p)
    requires !Behind(s, p) && !Behind(AfterCommit(s, o), p)
    ensures HeadShown(AfterCommit(s, o), p)
  {
    DiskAfterCommit(s, o, p);
    CommitKeepsCoherent(s, o, p);
    if p in s.files && s.files[p].status == Unchanged && p in s.changes {
      assert s.changes[p] == s.head[p];
    }
  }

  /** The bytes that an entry shows as HEAD's are HEAD's, in every run from a clean clone, on a path
      neither deleted nor ever behind, where digests tell bytes apart. */
  lemma {:induction false} HeadContentIsHead(
    hash: Bytes -> string, disk: map<string, Bytes>, index: map<string, string>, ops: seq<Op>, p: string)
    requires disk.Keys == index.Keys && NeverBehind(hash, Cloned(disk, index), ops, p) && Faithful(hash, index)
    ensures HeadShown(Run(hash, disk, index, ops), p)
  {
    if ops != [] {
      var q := ops[..|ops| - 1];
      HeadContentIsHead(hash, disk, index, q, p);
      RunKeepsTied(hash, disk, index, q, p);
      assert !Behind(Run(hash, disk, index, q), p);
      StepKeepsHeadShown(hash, index, Run(hash, disk, index, q), ops[|ops| - 1], p);
    }
  }

  /** A read of a file that was never written, and is not loaded yet, shows HEAD's bytes too. */
  lemma ReadShowsHead(s: State, p: string)
    requires p in s.files && s.files[p].path == p && s.files[p].content.None? && p !in s.changes && p in s.disk
    ensures ReadResult(s, p) == AfterRead(s, p).files[p].headContent == Some(s.disk[p])
  {
  }

  /** On a fresh clone, writing a file's own bytes back lists it as modified, unless their digest
      happens to be git's id of the file. */
  lemma HeadBytesWrittenBack(hash: Bytes -> string, disk: map<string, Bytes>, index: map<string, string>, path: string)
    requires Normalize(path) in index && Normalize(path) in disk
    ensures var p := Normalize(path);
            var s := Step(hash, Cloned(disk, index), Write(path, disk[p]));
            && View(s, p) == At(s.head, p)
            && (s.files[p].status == if hash(disk[p]) == index[p] then Unchanged else Modified)
  {
  }

  /** After an accepted commit nothing is listed, and writing the committed bytes back to a
      file that was changed and loaded leaves it unchanged. */
  lemma CommitSettles(hash: Bytes -> string, s: State, o: Outside, path: string)
    requires Tracked(hash, s) && CommitAccepted(s, o)
    ensures var t := AfterCommit(s, o);
            && (forall q :: q in t.files ==> t.files[q].status !in {Modified, Added, Deleted})
            && var p := Normalize(path);
               p in s.files && (s.files[p].status == Modified || s.files[p].status == Added)
                 && s.files[p].content.Some? ==>
                 Step(hash, t, Write(path, s.files[p].content.value)).files[p].status == Unchanged
  {
  }

  /** A refused commit keeps every entry, and so every listed change. */
  lemma RefusedCommitKeepsChanges(s: State, o: Outside)
    requires !CommitAccepted(s, o)
    ensures AfterCommit(s, o).files == s.files && AfterCommit(s, o).head == s.head
  {
  }

  /** The entries as a process finds them that starts again from the last saved state. */
  function Restarted(s: State): map<string, VirtualFile>
    requires s.stateFile.Some?
  {
    Restore(s.stateFile.value)
  }

  /** Right after a write, an accepted commit or a remount, the saved state is the current one:
      starting again loses the loaded bytes and nothing else. */
  lemma RestartLosesOnlyBytes(hash: Bytes -> string, s: State, op: Op)
    requires Named(s)
    requires op.Write? || op.Remount? || (op.Commit? && CommitAccepted(s, op.outside))
    ensures var t := Step(hash, s, op);
            && t.stateFile.Some? && Restarted(t).Keys == t.files.Keys
            && forall p :: p in t.files ==>
                 var f := Restarted(t)[p];
                 && f.path == p && f.sha == t.files[p].sha && f.status == t.files[p].status
                 && f.headSha == t.files[p].headSha && f.content == None && f.headContent == None
  {
    StepKeepsNamed(hash, s, op);
  }

  /** Saving and restoring the entries loses the loaded bytes and nothing else, and a second
      round trip changes nothing. */
  lemma SaveRestore(files: map<string, VirtualFile>)
    requires forall p :: p in files ==> files[p].path == p
    ensures Restore(Save(files)).Keys == files.Keys
    ensures forall p :: p in files ==> Restore(Save(files))[p] == files[p].(content := None, headContent := None)
    ensures Restore(Save(Restore(Save(files)))) == Restore(Save(files))
  {
  }
}
