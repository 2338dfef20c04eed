/**
 The loop that turns a config map into a commit (controllers/merge_request/controller.go, commitFiles).

 The source ranges over a Go map, so the entries arrive in any order: here the order is the order of a
 sequence. `clean` is the path cleaning that joining with the project directory applies; two raw paths that
 clean to the same path name the same file.
 */
module ConfigMapCommit {
  import opened Common

  datatype FileEntry = FileEntry(path: string, contents: Option<string>)

  /** Working tree: cleaned path to contents. */
  type Tree = map<string, string>

  type Cleaning = string -> string

  function ApplyEntry(t: Tree, e: FileEntry, clean: Cleaning): Tree {
    match e.contents
    case Some(c) => t[clean(e.path) := c]
    case None => t - {clean(e.path)}
  }

  /** What the git client reports: writing always counts as a change, removing only when the file was there. */
  predicate Reported(t: Tree, e: FileEntry, clean: Cleaning) {
    e.contents.Some? || clean(e.path) in t
  }

  function Worked(t: Tree, es: seq<FileEntry>, clean: Cleaning): Tree {
    if es == [] then t else ApplyEntry(Worked(t, es[..|es| - 1], clean), es[|es| - 1], clean)
  }

  function AddFiles(t: Tree, es: seq<FileEntry>, clean: Cleaning): seq<string> {
    if es == [] then []
    else
      var init, e := es[..|es| - 1], es[|es| - 1];
      AddFiles(t, init, clean) + if Reported(Worked(t, init, clean), e, clean) then [e.path] else []
  }

  /** The paths that end up in the index. */
  function Staged(t: Tree, es: seq<FileEntry>, clean: Cleaning): set<string> {
    set f | f in AddFiles(t, es, clean) :: clean(f)
  }

  function FileAt(t: Tree, p: string): Option<string> {
    if p in t then Some(t[p]) else None
  }

  predicate Names(e: FileEntry, p: string, clean: Cleaning) {
    clean(e.path) == p
  }

  /** Entries for the same file agree; distinct cleaned paths are the special case. */
  predicate Consistent(es: seq<FileEntry>, clean: Cleaning) {
    forall e, f | e in es && f in es && Names(f, clean(e.path), clean) :: e.contents == f.contents
  }

  /** What the loop finds: an entry that does not decode, or one whose file operation works or fails. */
  datatype Item = Undecodable | Decoded(entry: FileEntry, works: bool)

  predicate Good(item: Item) {
    item.Decoded? && item.works
  }

  /** The entries before the first one that fails. */
  function Processed(data: seq<Item>): (es: seq<FileEntry>)
    ensures |es| <= |data|
  {
    if data == [] then []
    else
      var es := Processed(data[..|data| - 1]);
      if |es| == |data| - 1 && Good(data[|data| - 1]) then es + [data[|data| - 1].entry] else es
  }

  lemma {:induction false} ProcessedStops(data: seq<Item>, i: nat)
    requires i < |data| && |Processed(data[..i])| == i && !Good(data[i])
    ensures Processed(data) == Processed(data[..i])
    decreases |data|
  {
    if i < |data| - 1 {
      var init := data[..|data| - 1];
      assert init[..i] == data[..i];
      ProcessedStops(init, i);
    }
  }

  /** Everything is processed if and only if nothing fails, and then in the order of the loop. */
  lemma {:induction false} ProcessedAll(data: seq<Item>)
    ensures |Processed(data)| == |data| <==> forall item | item in data :: Good(item)
    ensures forall i | 0 <= i < |Processed(data)| :: data[i].Decoded? && Processed(data)[i] == data[i].entry
  {
    if data != [] {
      ProcessedAll(data[..|data| - 1]);
      assert data == data[..|data| - 1] + [data[|data| - 1]];
    }
  }

  lemma NothingProcessed(checkout: Tree, data: seq<Item>, clean: Cleaning)
    ensures Processed(data[..0]) == [] && Worked(checkout, [], clean) == checkout && AddFiles(checkout, [], clean) == []
  {
  }

  /** One more entry that works. */
  lemma ProcessedGrows(checkout: Tree, data: seq<Item>, i: nat, clean: Cleaning)
    requires i < |data| && |Processed(data[..i])| == i && Good(data[i])
    ensures var was, now := Processed(data[..i]), Processed(data[..i + 1]);
            |now| == i + 1
            && Worked(checkout, now, clean) == ApplyEntry(Worked(checkout, was, clean), data[i].entry, clean)
            && AddFiles(checkout, now, clean) == AddFiles(checkout, was, clean)
                 + if Reported(Worked(checkout, was, clean), data[i].entry, clean) then [data[i].entry.path] else []
  {
    assert data[..i + 1][..i] == data[..i];
    assert Processed(data[..i + 1])[..i] == Processed(data[..i]);
    hide ApplyEntry, Reported;
  }

  method SetFileContents(tree: Tree, filePath: string, contents: string, clean: Cleaning, works: bool)
    returns (r: Tree, ok: bool)
    ensures ok <==> works
    ensures ok ==> FileAt(r, clean(filePath)) == Some(contents)
    ensures forall p | p != clean(filePath) :: FileAt(r, p) == FileAt(tree, p)
    ensures r == if ok then ApplyEntry(tree, FileEntry(filePath, Some(contents)), clean) else tree
  {
    if !works {
      return tree, false;
    }
    return tree[clean(filePath) := contents], true;
  }

  method RemoveFile(tree: Tree, filePath: string, clean: Cleaning, works: bool)
    returns (r: Tree, changed: bool, ok: bool)
    ensures ok <==> works
    ensures ok ==> FileAt(r, clean(filePath)) == None
    ensures forall p | p != clean(filePath) :: FileAt(r, p) == FileAt(tree, p)
    ensures changed <==> r != tree
    ensures r == if ok then ApplyEntry(tree, FileEntry(filePath, None), clean) else tree
    ensures ok ==> (changed <==> Reported(tree, FileEntry(filePath, None), clean))
  {
    if !works {
      return tree, false, false;
    }
    if clean(filePath) !in tree {
      assert tree - {clean(filePath)} == tree;
      return tree, false, true;
    }
    return tree - {clean(filePath)}, true, true;
  }

  /** The first entry that fails ends the loop with an error, before anything is committed. */
  method CommitFiles(checkout: Tree, data: seq<Item>, clean: Cleaning)
    returns (tree: Tree, addFiles: seq<string>, ok: bool)
    ensures ok <==> forall item | item in data :: Good(item)
    ensures tree == Worked(checkout, Processed(data), clean)
    ensures addFiles == AddFiles(checkout, Processed(data), clean)
  {
    hide Processed, Worked, AddFiles, ApplyEntry, FileAt;
    ProcessedAll(data);
    NothingProcessed(checkout, data, clean);
    tree := checkout;
    addFiles := [];
    for i := 0 to |data|
      invariant |Processed(data[..i])| == i
      invariant tree == Worked(checkout, Processed(data[..i]), clean)
      invariant addFiles == AddFiles(checkout, Processed(data[..i]), clean)
    {
      if data[i].Undecodable? {
        ProcessedStops(data, i);
        return tree, addFiles, false;
      }
      var mrFile, works := data[i].entry, data[i].works;
      var fileChanged := true;
      if mrFile.contents.Some? {
        tree, ok := SetFileContents(tree, mrFile.path, mrFile.contents.value, clean, works);
      } else {
        tree, fileChanged, ok := RemoveFile(tree, mrFile.path, clean, works);
      }
      if !ok {
        ProcessedStops(data, i);
        return tree, addFiles, false;
      }
      if fileChanged {
        addFiles := addFiles + [mrFile.path];
      }
      ProcessedGrows(checkout, data, i, clean);
    }
    assert data[..|data|] == data;
    ok := true;
  }

  // ---------- Every order ----------

  lemma {:induction false} StagedOfLast(t: Tree, es: seq<FileEntry>, clean: Cleaning, p: string)
    requires es != []
    ensures var init, e := es[..|es| - 1], es[|es| - 1];
            p in Staged(t, es, clean) <==> p in Staged(t, init, clean) || (Names(e, p, clean) && Reported(Worked(t, init, clean), e, clean))
  {
    var init, e := es[..|es| - 1], es[|es| - 1];
    var fs := AddFiles(t, init, clean);
    if p in Staged(t, init, clean) {
      var f :| f in fs && clean(f) == p;
      assert f in AddFiles(t, es, clean);
    }
    if Names(e, p, clean) && Reported(Worked(t, init, clean), e, clean) {
      assert e.path in AddFiles(t, es, clean);
    }
  }

  /** In every order and with any duplicates, each file that differs from the checkout is staged. */
  lemma {:induction false} EveryDifferenceIsStaged(t: Tree, es: seq<FileEntry>, clean: Cleaning, p: string)
    ensures FileAt(Worked(t, es, clean), p) != FileAt(t, p) ==> p in Staged(t, es, clean)
  {
    if es != [] {
      EveryDifferenceIsStaged(t, es[..|es| - 1], clean, p);
      StagedOfLast(t, es, clean, p);
    }
  }

  /** A file is as its entry says, or as it was when no entry names it. */
  lemma {:induction false} FileOfEntry(t: Tree, es: seq<FileEntry>, clean: Cleaning, p: string)
    requires Consistent(es, clean)
    ensures forall e | e in es && Names(e, p, clean) :: FileAt(Worked(t, es, clean), p) == e.contents
    ensures !(exists e :: e in es && Names(e, p, clean)) ==> FileAt(Worked(t, es, clean), p) == FileAt(t, p)
  {
    if es != [] {
      var init, last := es[..|es| - 1], es[|es| - 1];
      assert es == init + [last];
      FileOfEntry(t, init, clean, p);
      assert last in es && forall e | e in init :: e in es;
      if !(exists e :: e in es && Names(e, p, clean)) {
        assert !Names(last, p, clean);
        assert !(exists e :: e in init && Names(e, p, clean));
      }
    }
  }

  /** A path is staged exactly when an entry writes it, or removes it while the checkout has it. */
  lemma {:induction false} StagedExactly(t: Tree, es: seq<FileEntry>, clean: Cleaning, p: string)
    requires Consistent(es, clean)
    ensures p in Staged(t, es, clean) <==> exists e :: e in es && Names(e, p, clean) && Reported(t, e, clean)
  {
    if es != [] {
      var init, last := es[..|es| - 1], es[|es| - 1];
      assert es == init + [last];
      StagedExactly(t, init, clean, p);
      StagedOfLast(t, es, clean, p);
      FileOfEntry(t, init, clean, p);
      assert last in es;
    }
  }

  /** Two orders of the same consistent entries leave the same tree and stage the same paths. */
  lemma {:induction false} OrderIsIrrelevant(t: Tree, l: seq<FileEntry>, m: seq<FileEntry>, clean: Cleaning)
    requires forall e :: e in l <==> e in m
    requires Consistent(l, clean)
    ensures Worked(t, l, clean) == Worked(t, m, clean)
    ensures Staged(t, l, clean) == Staged(t, m, clean)
  {
    hide Worked, Staged;
    var a, b := Worked(t, l, clean), Worked(t, m, clean);
    forall p ensures FileAt(a, p) == FileAt(b, p) && (p in Staged(t, l, clean) <==> p in Staged(t, m, clean)) {
      FileOfEntry(t, l, clean, p);
      FileOfEntry(t, m, clean, p);
      StagedExactly(t, l, clean, p);
      StagedExactly(t, m, clean, p);
    }
    SameTree(a, b);
  }

  lemma SameTree(a: Tree, b: Tree)
    requires forall p :: FileAt(a, p) == FileAt(b, p)
    ensures a == b
  {
    forall p ensures (p in a <==> p in b) && (p in a ==> a[p] == b[p]) {
      assert FileAt(a, p) == FileAt(b, p);
    }
  }

  function MoveToBack(l: seq<FileEntry>, i: nat): (m: seq<FileEntry>)
    requires i < |l|
    ensures multiset(m) == multiset(l)
  {
    assert l == l[..i] + [l[i]] + l[i + 1..];
    l[..i] + l[i + 1..] + [l[i]]
  }

  /** The condition is exact: entries that disagree on a file leave different trees in two of the orders. */
  lemma OrderMatters(t: Tree, l: seq<FileEntry>, clean: Cleaning)
    requires !Consistent(l, clean)
    ensures exists i: nat, j: nat | i < |l| && j < |l| :: Worked(t, MoveToBack(l, i), clean) != Worked(t, MoveToBack(l, j), clean)
  {
    var e, f :| e in l && f in l && Names(f, clean(e.path), clean) && e.contents != f.contents;
    var i: nat :| i < |l| && l[i] == e;
    var j: nat :| j < |l| && l[j] == f;
    LastEntryWins(t, MoveToBack(l, i), clean);
    LastEntryWins(t, MoveToBack(l, j), clean);
    assert Worked(t, MoveToBack(l, i), clean) != Worked(t, MoveToBack(l, j), clean);
  }

  lemma LastEntryWins(t: Tree, es: seq<FileEntry>, clean: Cleaning)
    requires es != []
    ensures FileAt(Worked(t, es, clean), clean(es[|es| - 1].path)) == es[|es| - 1].contents
  {
  }
}
