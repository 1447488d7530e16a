/**
  fsx.WriteFileAtomic as the file operations it performs. The folder remembers
  every state it has been in, so a statement about all of them is a statement
  about a crash, or a reader, at any moment.
 */
module AtomicFile {
  import opened Basics
  import opened Storage

  type Files = map<string, Bytes>

  class Folder {
    var files: Files
    ghost var seen: seq<Files>  // every state so far, the current one last

    constructor ()
      ensures files == map[] && seen == [map[]]
    {
      files, seen := map[], [map[]];
    }

    ghost predicate Traced()
      reads this
    {
      |seen| > 0 && seen[|seen| - 1] == files
    }

    method Put(name: string, data: Bytes)
      requires Traced()
      modifies this
      ensures Traced() && files == old(files)[name := data] && seen == old(seen) + [files]
    {
      files := files[name := data];
      seen := seen + [files];
    }

    method Remove(name: string)
      requires Traced()
      modifies this
      ensures Traced() && files == old(files) - {name} && seen == old(seen) + [files]
    {
      files := files - {name};
      seen := seen + [files];
    }

    method Rename(from: string, to: string)
      requires Traced() && from in files && from != to
      modifies this
      ensures Traced() && files == old(files)[to := old(files)[from]] - {from} && seen == old(seen) + [files]
    {
      files := files[to := files[from]] - {from};
      seen := seen + [files];
    }
  }

  /** The states up to cut show the old files, those from cut on the new ones;
      a temporary file may come and go beside them. */
  ghost predicate Switches(seen: seq<Files>, from: nat, cut: nat, tmp: string, before: Files, after: Files) {
    && from <= cut <= |seen|
    && (forall k :: from <= k < cut ==> seen[k] - {tmp} == before)
    && (forall k :: cut <= k < |seen| ==> seen[k] - {tmp} == after)
  }

  /** The temporary file grows by arbitrary pieces; a write may fail midway. */
  method WriteAll(f: Folder, tmp: string, data: Bytes) returns (ok: bool)
    requires f.Traced() && tmp in f.files && f.files[tmp] == []
    modifies f
    ensures f.Traced() && tmp in f.files && f.files - {tmp} == old(f.files) - {tmp}
    ensures ok ==> f.files[tmp] == data
    ensures old(f.seen) <= f.seen
    ensures forall k :: |old(f.seen)| <= k < |f.seen| ==> f.seen[k] - {tmp} == old(f.files) - {tmp}
  {
    var n := 0;
    while n < |data|
      invariant 0 <= n <= |data| && f.Traced() && tmp in f.files && f.files[tmp] == data[..n]
      invariant f.files - {tmp} == old(f.files) - {tmp} && old(f.seen) <= f.seen
      invariant forall k :: |old(f.seen)| <= k < |f.seen| ==> f.seen[k] - {tmp} == old(f.files) - {tmp}
    {
      if * { return false; }
      var m: nat := *;
      if m <= n || m > |data| { m := |data|; }
      f.Put(tmp, data[..m]);
      n := m;
    }
    return true;
  }

  /** Temporary file, write, sync, close, chmod, rename; the temporary file is
      removed when any of these fails. At every moment the folder shows either
      the old files or the old files with the whole new content. */
  method WriteFileAtomic(f: Folder, path: string, data: Bytes, tmp: string) returns (ok: bool, ghost cut: nat)
    requires f.Traced() && tmp !in f.files && tmp != path
    modifies f
    ensures f.Traced() && old(f.seen) <= f.seen
    ensures f.files == if ok then old(f.files)[path := data] else old(f.files)
    ensures Switches(f.seen, |old(f.seen)|, cut, tmp, old(f.files), old(f.files)[path := data])
    ensures ok <==> cut < |f.seen|
  {
    ghost var start, before := |f.seen|, f.files;
    cut := start;
    if * { return false, cut; }
    f.Put(tmp, []);
    assert f.files - {tmp} == before;
    ok := WriteAll(f, tmp, data);
    var synced: bool, closed: bool, chmoded: bool, renamed: bool := *, *, *, *;
    if ok && synced && closed && chmoded && renamed {
      cut := |f.seen|;
      f.Rename(tmp, path);
      assert f.files == before[path := data];
      assert f.files - {tmp} == f.files;
    } else {
      ok := false;
      f.Remove(tmp);
      cut := |f.seen|;
      assert f.files - {tmp} == f.files;
    }
  }

  function At(files: Files, path: string): Option<Bytes> {
    if path in files then Some(files[path]) else None
  }

  /** What an atomic register goes through when these snapshots are saved in turn. */
  function Values(initial: Option<Bytes>, snapshots: seq<Bytes>): seq<Option<Bytes>> {
    [initial] + seq(|snapshots|, i requires 0 <= i < |snapshots| => Some(snapshots[i]))
  }

  /** Each state shows one of the register's values, and never an earlier one
      than the state before. */
  ghost predicate Linear(seen: seq<Files>, path: string, values: seq<Option<Bytes>>, index: seq<nat>) {
    && |index| == |seen|
    && (forall k :: 0 <= k < |seen| ==> index[k] < |values| && At(seen[k], path) == values[index[k]])
    && forall j, k :: 0 <= j <= k < |seen| ==> index[j] <= index[k]
  }

  /** A save that switches extends the linearization of the saves before it. */
  lemma LinearExtends(seen: seq<Files>, seen': seq<Files>, path: string, tmp: string, cut: nat,
                      values: seq<Option<Bytes>>, data: Bytes, index: seq<nat>) returns (index': seq<nat>)
    requires |seen| > 0 && seen <= seen' && tmp != path
    requires Linear(seen, path, values, index)
    requires var files := seen[|seen| - 1]; Switches(seen', |seen|, cut, tmp, files, files[path := data])
    ensures Linear(seen', path, values + [Some(data)], index')
  {
    var last, files := index[|seen| - 1], seen[|seen| - 1];
    index' := seq(|seen'|, k requires 0 <= k < |seen'| =>
      if k < |seen| then index[k] else if k < cut then last else |values|);
    forall k | 0 <= k < |seen'|
      ensures index'[k] <= |values| && At(seen'[k], path) == (values + [Some(data)])[index'[k]]
    {
      if k >= |seen| {
        assert At(seen'[k], path) == At(seen'[k] - {tmp}, path);
      } else {
        assert seen'[k] == seen[k];
      }
    }
  }

  /** saveState, any number of times, each save ending well or badly: whatever
      moment the process dies at, state.json is absent as at the start or one
      whole snapshot, and snapshots appear in the order they were saved. */
  method SaveAll(f: Folder, path: string, snapshots: seq<Bytes>, tmps: seq<string>) returns (ghost index: seq<nat>)
    requires f.Traced() && f.seen == [f.files] && |tmps| == |snapshots|
    requires path !in tmps && forall t :: t in tmps ==> t !in f.files
    modifies f
    ensures Linear(f.seen, path, Values(old(At(f.files, path)), snapshots), index)
    ensures |index| == |f.seen| && forall k :: 0 <= k < |f.seen| ==>
              && index[k] <= |snapshots|
              && (index[k] == 0 ==> (path in f.seen[k] <==> path in old(f.files)))
              && (index[k] == 0 && path in f.seen[k] ==> f.seen[k][path] == old(f.files[path]))
              && (index[k] > 0 ==> path in f.seen[k] && f.seen[k][path] == snapshots[index[k] - 1])
    ensures forall j, k :: 0 <= j <= k < |f.seen| ==> index[j] <= index[k]
  {
    ghost var initial := At(f.files, path);
    index := [0];
    for i := 0 to |snapshots|
      invariant f.Traced() && Linear(f.seen, path, Values(initial, snapshots[..i]), index)
      invariant forall t :: t in tmps ==> t !in f.files
    {
      ghost var seen := f.seen;
      assert tmps[i] in tmps;
      var ok;
      ghost var cut;
      ok, cut := WriteFileAtomic(f, path, snapshots[i], tmps[i]);
      index := LinearExtends(seen, f.seen, path, tmps[i], cut, Values(initial, snapshots[..i]), snapshots[i], index);
      assert Values(initial, snapshots[..i]) + [Some(snapshots[i])] == Values(initial, snapshots[..i + 1]);
    }
    assert snapshots[..|snapshots|] == snapshots;
  }
}
