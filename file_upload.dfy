/** `ticket-form/common/TicketFileUpload.tsx`: the pending file list of the
    create form. Two files are the same file when they have the same name
    and the same size. */
module FileUpload {
  import opened Base
  import opened Types

  /** The identity the component uses for a file. */
  function Key(f: FileBlob): (string, nat) {
    (f.name, f.size)
  }

  function SameKey(k: (string, nat)): FileBlob -> bool {
    (f: FileBlob) => Key(f) == k
  }

  function OtherKey(k: (string, nat)): FileBlob -> bool {
    (f: FileBlob) => Key(f) != k
  }

  /** Position `j` holds the first file with its key. */
  predicate FirstOfKey(all: seq<FileBlob>, j: int)
    requires 0 <= j < |all|
  {
    forall j' :: 0 <= j' < j ==> Key(all[j']) != Key(all[j])
  }

  /** `FirstOfKey` is the component's own test,
      `arr.findIndex(same key as arr[j]) === j`. */
  lemma FirstOfKeyIsFindIndex(all: seq<FileBlob>, j: nat)
    requires j < |all|
    ensures FirstOfKey(all, j) <==> FindIndex(all, SameKey(Key(all[j]))) == j
  {
    if FirstOfKey(all, j) {
      FindIsFirst(all, SameKey(Key(all[j])), j);
    }
  }

  /** The `filter` of `handleFilesChange`, from position `i` on. */
  function UniqueFrom(all: seq<FileBlob>, i: nat): (r: seq<FileBlob>)
    requires i <= |all|
    ensures |r| <= |all| - i
    decreases |all| - i
  {
    if i == |all| then []
    else (if FirstOfKey(all, i) then [all[i]] else []) + UniqueFrom(all, i + 1)
  }

  /** The new list after files are added: the old files, then the added
      ones, each key kept at its first occurrence only. */
  function AfterAdd(existing: seq<FileBlob>, added: seq<FileBlob>): seq<FileBlob> {
    UniqueFrom(existing + added, 0)
  }

  /** `handleRemoveFile`: every file with the removed file's key goes. */
  function AfterRemove(files: seq<FileBlob>, removed: FileBlob): (r: seq<FileBlob>)
    ensures forall k :: 0 <= k < |r| ==> Key(r[k]) != Key(removed) && r[k] in files
    ensures forall j :: 0 <= j < |files| && Key(files[j]) != Key(removed) ==> files[j] in r
  {
    Filter(files, OtherKey(Key(removed)))
  }

  predicate DistinctKeys(files: seq<FileBlob>) {
    forall a, b :: 0 <= a < b < |files| ==> Key(files[a]) != Key(files[b])
  }

  /** `x` is the file at a first occurrence of its key at position `i` or
      later. */
  predicate KeptFrom(all: seq<FileBlob>, i: nat, x: FileBlob) {
    exists j :: i <= j < |all| && x == all[j] && FirstOfKey(all, j)
  }

  /** Every kept file is the first of its key, taken from position `i` on. */
  lemma {:induction false} UniqueFromElements(all: seq<FileBlob>, i: nat)
    requires i <= |all|
    ensures forall k :: 0 <= k < |UniqueFrom(all, i)| ==> KeptFrom(all, i, UniqueFrom(all, i)[k])
    decreases |all| - i
  {
    if i < |all| {
      UniqueFromElements(all, i + 1);
      var r := UniqueFrom(all, i);
      var rest := UniqueFrom(all, i + 1);
      var head := if FirstOfKey(all, i) then [all[i]] else [];
      assert r == head + rest;
      forall k | 0 <= k < |r|
        ensures KeptFrom(all, i, r[k])
      {
        if k < |head| {
          assert r[k] == all[i];
        } else {
          assert r[k] == rest[k - |head|];
          assert KeptFrom(all, i + 1, rest[k - |head|]);
          var j :| i + 1 <= j < |all| && rest[k - |head|] == all[j] && FirstOfKey(all, j);
        }
      }
    }
  }

  /** The kept files have pairwise different keys. */
  lemma {:induction false} UniqueFromDistinct(all: seq<FileBlob>, i: nat)
    requires i <= |all|
    ensures DistinctKeys(UniqueFrom(all, i))
    decreases |all| - i
  {
    if i < |all| {
      UniqueFromDistinct(all, i + 1);
      var rest := UniqueFrom(all, i + 1);
      if FirstOfKey(all, i) {
        LaterKeysDiffer(all, i, rest);
        ConsDistinct(all[i], rest);
      } else {
        assert UniqueFrom(all, i) == rest;
      }
    }
  }

  /** No file kept after the first occurrence at `i` shares its key. */
  lemma LaterKeysDiffer(all: seq<FileBlob>, i: nat, rest: seq<FileBlob>)
    requires i < |all| && FirstOfKey(all, i)
    requires rest == UniqueFrom(all, i + 1)
    ensures forall k :: 0 <= k < |rest| ==> Key(rest[k]) != Key(all[i])
  {
    UniqueFromElements(all, i + 1);
    forall k | 0 <= k < |rest| ensures Key(rest[k]) != Key(all[i]) {
      assert KeptFrom(all, i + 1, rest[k]);
      var j :| i + 1 <= j < |all| && rest[k] == all[j] && FirstOfKey(all, j);
    }
  }

  /** A file whose key no other file has can be put in front. */
  lemma ConsDistinct(x: FileBlob, rest: seq<FileBlob>)
    requires DistinctKeys(rest)
    requires forall k :: 0 <= k < |rest| ==> Key(rest[k]) != Key(x)
    ensures DistinctKeys([x] + rest)
  {
    var r := [x] + rest;
    forall a, b | 0 <= a < b < |r| ensures Key(r[a]) != Key(r[b]) {
      assert r[b] == rest[b - 1];
      if a > 0 {
        assert r[a] == rest[a - 1];
      }
    }
  }

  /** Every first occurrence from position `i` on is kept. */
  lemma {:induction false} UniqueFromKeeps(all: seq<FileBlob>, i: nat)
    requires i <= |all|
    ensures forall j :: i <= j < |all| && FirstOfKey(all, j) ==> all[j] in UniqueFrom(all, i)
    decreases |all| - i
  {
    if i < |all| {
      UniqueFromKeeps(all, i + 1);
    }
  }

  /** The kept files are the input with some files left out, in order. */
  lemma {:induction false} UniqueFromSubseq(all: seq<FileBlob>, i: nat)
    requires i <= |all|
    ensures Subseq(UniqueFrom(all, i), all[i..])
    decreases |all| - i
  {
    if i < |all| {
      UniqueFromSubseq(all, i + 1);
      var r := UniqueFrom(all, i);
      var rest := UniqueFrom(all, i + 1);
      assert all[i..][0] == all[i] && all[i..][1..] == all[i + 1..];
      if FirstOfKey(all, i) {
        assert r == [all[i]] + rest;
        assert r[0] == all[i] && r[1..] == rest;
      } else {
        assert r == rest;
      }
    }
  }

  /** A stretch of first occurrences is kept whole. */
  lemma {:induction false} UniqueFromRun(all: seq<FileBlob>, i: nat, n: nat)
    requires i <= n <= |all|
    requires forall j :: i <= j < n ==> FirstOfKey(all, j)
    ensures UniqueFrom(all, i) == all[i..n] + UniqueFrom(all, n)
    decreases n - i
  {
    if i < n {
      UniqueFromRun(all, i + 1, n);
      calc {
        UniqueFrom(all, i);
        { assert FirstOfKey(all, i); }
        [all[i]] + UniqueFrom(all, i + 1);
        [all[i]] + (all[i + 1..n] + UniqueFrom(all, n));
        ([all[i]] + all[i + 1..n]) + UniqueFrom(all, n);
        { assert [all[i]] + all[i + 1..n] == all[i..n]; }
        all[i..n] + UniqueFrom(all, n);
      }
    }
  }

  /** A stretch without first occurrences contributes nothing. */
  lemma {:induction false} UniqueFromNone(all: seq<FileBlob>, i: nat)
    requires i <= |all|
    requires forall j :: i <= j < |all| ==> !FirstOfKey(all, j)
    ensures UniqueFrom(all, i) == []
    decreases |all| - i
  {
    if i < |all| {
      UniqueFromNone(all, i + 1);
      assert !FirstOfKey(all, i);
      assert UniqueFrom(all, i) == [] + UniqueFrom(all, i + 1);
    }
  }

  /** After adding, no two files share a key, and the list is an ordered
      selection of the old files followed by the added ones. */
  lemma AddGivesDistinctKeys(existing: seq<FileBlob>, added: seq<FileBlob>)
    ensures DistinctKeys(AfterAdd(existing, added))
    ensures Subseq(AfterAdd(existing, added), existing + added)
  {
    UniqueFromDistinct(existing + added, 0);
    UniqueFromSubseq(existing + added, 0);
    assert (existing + added)[0..] == existing + added;
  }

  /** Every key of the old or added files is still present. */
  lemma AddKeepsEveryKey(existing: seq<FileBlob>, added: seq<FileBlob>)
    ensures var r := AfterAdd(existing, added);
      forall j :: 0 <= j < |existing + added| ==>
        exists k :: 0 <= k < |r| && Key(r[k]) == Key((existing + added)[j])
  {
    var all := existing + added;
    var r := AfterAdd(existing, added);
    UniqueFromKeeps(all, 0);
    forall j | 0 <= j < |all|
      ensures exists k :: 0 <= k < |r| && Key(r[k]) == Key(all[j])
    {
      var m := FindIndex(all, SameKey(Key(all[j])));
      assert m >= 0 && Key(all[m]) == Key(all[j]);
      assert forall j' :: 0 <= j' < m ==> !SameKey(Key(all[j]))(all[j']);
      assert FirstOfKey(all, m);
      assert all[m] in r;
      var k :| 0 <= k < |r| && r[k] == all[m];
    }
  }

  /** In a list with distinct keys every position is the first of its key. */
  lemma AllFirst(all: seq<FileBlob>, n: nat)
    requires n <= |all| && DistinctKeys(all[..n])
    ensures forall j :: 0 <= j < n ==> FirstOfKey(all, j)
  {
    forall j, j' | 0 <= j' < j < n
      ensures Key(all[j']) != Key(all[j])
    {
      assert all[..n][j'] == all[j'] && all[..n][j] == all[j];
    }
  }

  /** Old files without duplicates stay, in place, at the head of the list. */
  lemma ExistingIsPrefix(existing: seq<FileBlob>, added: seq<FileBlob>)
    requires DistinctKeys(existing)
    ensures var r := AfterAdd(existing, added);
      |existing| <= |r| && r[..|existing|] == existing
  {
    var all := existing + added;
    assert all[..|existing|] == existing;
    AllFirst(all, |existing|);
    UniqueFromRun(all, 0, |existing|);
    assert all[0..|existing|] == existing;
  }

  /** Adding files whose keys are all present already changes nothing. */
  lemma AddingKnownFilesChangesNothing(existing: seq<FileBlob>, added: seq<FileBlob>)
    requires DistinctKeys(existing)
    requires forall k :: 0 <= k < |added| ==> exists j :: 0 <= j < |existing| && Key(existing[j]) == Key(added[k])
    ensures AfterAdd(existing, added) == existing
  {
    var all := existing + added;
    assert all[..|existing|] == existing;
    AllFirst(all, |existing|);
    UniqueFromRun(all, 0, |existing|);
    assert all[0..|existing|] == existing;
    forall j | |existing| <= j < |all|
      ensures !FirstOfKey(all, j)
    {
      assert all[j] == added[j - |existing|];
      var j0 :| 0 <= j0 < |existing| && Key(existing[j0]) == Key(added[j - |existing|]);
      assert all[j0] == existing[j0];
    }
    UniqueFromNone(all, |existing|);
  }

  /** Removing a file just added with a new key restores the list. */
  lemma RemoveUndoesAdd(existing: seq<FileBlob>, f: FileBlob)
    requires DistinctKeys(existing)
    requires forall j :: 0 <= j < |existing| ==> Key(existing[j]) != Key(f)
    ensures AfterRemove(AfterAdd(existing, [f]), f) == existing
  {
    var all := existing + [f];
    assert all[..|all|] == all;
    AllFirst(all, |all|);
    UniqueFromRun(all, 0, |all|);
    assert all[0..|all|] == all;
    assert AfterAdd(existing, [f]) == all;
    FilterConcat(existing, [f], OtherKey(Key(f)));
    FilterKeepsAll(existing, OtherKey(Key(f)));
    assert Filter([f], OtherKey(Key(f))) == [];
  }

  /** Removal keeps the other files in their order. */
  lemma RemoveKeepsOrder(files: seq<FileBlob>, removed: FileBlob)
    ensures Subseq(AfterRemove(files, removed), files)
  {
    FilterSubseq(files, OtherKey(Key(removed)));
  }

  /** The form's `files` value as this component writes it. */
  class FilesField {
    var files: seq<FileBlob>

    constructor ()
      ensures files == []
    {
      files := [];
    }

    method FilesChange(added: seq<FileBlob>)
      modifies this
      ensures files == AfterAdd(old(files), added)
    {
      files := AfterAdd(files, added);
    }

    method RemoveFile(removed: FileBlob)
      modifies this
      ensures files == AfterRemove(old(files), removed)
    {
      files := AfterRemove(files, removed);
    }
  }
}
