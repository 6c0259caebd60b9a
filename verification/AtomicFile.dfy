/** Durable atomic writes into one directory (scripts/cwk_atomic_file.py): the write loop, the
    write itself with every way it can end, compare-and-swap, and the sweep of leftovers.

    SHA-256 is taken as injective, so an expected digest is represented by the expected bytes.
    File descriptors, modes and flushes are left out. */
module AtomicFile {
  import opened Wrappers

  newtype Byte = b: int | 0 <= b < 256

  type Bytes = seq<Byte>

  const TEMP_PREFIX: string := ".cwk-tmp-"
  const LEAF_MAX_LEN: nat := 128
  const TOKEN_LEN: nat := 16
  const MAX_TEMP_ATTEMPTS: nat := 8

  predicate IsTemp(name: string) { TEMP_PREFIX <= name }

  function TempName(name: string, token: string): string { TEMP_PREFIX + name + "." + token }

  lemma TempNamesAreTemp(name: string, token: string)
    ensures IsTemp(TempName(name, token))
  {
    assert TempName(name, token)[..|TEMP_PREFIX|] == TEMP_PREFIX;
  }

  /** The part of the leaf grammar that depends on the length. */
  predicate LeafFits(name: string) { 1 <= |name| <= LEAF_MAX_LEN }

  /** A temporary name must fit too, which leaves fewer characters for the final name. */
  lemma WritableNames(name: string, token: string)
    requires |token| == TOKEN_LEN
    ensures LeafFits(TempName(name, token)) <==> |name| <= 102
    ensures LeafFits(name) <==> 1 <= |name| <= 128
    ensures NameFits(name) <==> 1 <= |name| <= 102
  {
  }

  // ---------------------------------------------------------------------
  // The write loop
  // ---------------------------------------------------------------------

  /** One answer of the operating system to a write; `Wrote(n)` took `n` bytes, or all that
      were offered when there were fewer. */
  datatype Answer = Interrupted | Wrote(n: nat)

  datatype Ending = Finished | Broke | Died

  /** How many bytes a sequence of answers would take before a write of zero bytes. */
  function Capacity(os: seq<Answer>): nat
    decreases |os|
  {
    if os == [] || os[0] == Wrote(0) then 0
    else (if os[0].Wrote? then os[0].n else 0) + Capacity(os[1..])
  }

  lemma {:induction false} CapacityGrows(os: seq<Answer>, a: Answer)
    requires Wrote(0) !in os
    ensures Capacity(os + [a]) == Capacity(os) + (if a.Wrote? then a.n else 0)
    decreases |os|
  {
    if os != [] {
      assert (os + [a])[1..] == os[1..] + [a];
      CapacityGrows(os[1..], a);
    } else {
      assert (os + [a])[1..] == [];
    }
  }

  lemma {:induction false} CapacityOfPrefix(os: seq<Answer>, k: nat)
    requires k <= |os|
    ensures Capacity(os[..k]) <= Capacity(os)
    ensures k < |os| && os[k] == Wrote(0) && Wrote(0) !in os[..k] ==> Capacity(os) == Capacity(os[..k])
    decreases k
  {
    if k > 0 {
      assert os[..k][1..] == os[1..][..k - 1];
      if os[0] != Wrote(0) {
        CapacityOfPrefix(os[1..], k - 1);
        assert forall a :: a in os[1..][..k - 1] ==> a in os[..k];
      }
    }
  }

  /** Writes all of `data`, whatever the system answers: short writes and interruptions are
      retried, a write of nothing is an error, and when the answers run out the process has
      died.  The file always holds a prefix, and it is complete exactly when the system took
      enough. */
  method WriteAll(data: Bytes, os: seq<Answer>) returns (file: Bytes, end: Ending)
    ensures file <= data
    ensures file == data[..(if Capacity(os) < |data| then Capacity(os) else |data|)]
    ensures end == Finished <==> Capacity(os) >= |data|
    ensures end == Broke ==> Wrote(0) in os
    ensures end == Died ==> Wrote(0) !in os
  {
    var view := data;
    file := [];
    var k := 0;
    while view != []
      invariant 0 <= k <= |os|
      invariant file + view == data
      invariant Wrote(0) !in os[..k]
      invariant view != [] ==> |file| == Capacity(os[..k])
      invariant view == [] ==> Capacity(os[..k]) >= |data|
      decreases |os| - k, |view|
    {
      if k == |os| {
        assert os[..k] == os;
        return file, Died;
      }
      assert os[..k + 1] == os[..k] + [os[k]];
      CapacityGrows(os[..k], os[k]);
      match os[k] {
        case Interrupted =>
        case Wrote(n) =>
          if n == 0 {
            CapacityOfPrefix(os, k);
            return file, Broke;
          }
          var written := if n < |view| then n else |view|;
          file := file + view[..written];
          view := view[written..];
      }
      k := k + 1;
    }
    CapacityOfPrefix(os, k);
    end := Finished;
  }

  // ---------------------------------------------------------------------
  // The directory
  // ---------------------------------------------------------------------

  type Files = map<string, Bytes>

  function Swept(f: Files): Files { map n | n in f && !IsTemp(n) :: f[n] }

  datatype WriteResult =
    | Written | BadName | Exists | Conflict | NameTooLong | TempCollision | WriteFailed | RenameFailed
    | Crashed(temp: string)   // died, leaving a temporary file
    | Unreturned              // renamed, but the call died or failed before its receipt

  /** What stops a write whose bytes were all taken, if anything does. */
  datatype Stop = Lives | FlushFails | DiesBeforeRename | RenameFails | DiesAfterRename | DirectoryFlushFails

  predicate NameFits(name: string) { LeafFits(name) && |name| <= LEAF_MAX_LEN - |TEMP_PREFIX| - 1 - TOKEN_LEN }

  /** A temporary file can be made and takes all the bytes. */
  ghost predicate Prepared(f: Files, name: string, data: Bytes, exclusive: bool, tokens: seq<string>, os: seq<Answer>) {
    && 1 <= |name| <= 102 && !(exclusive && name in f)
    && (exists i :: 0 <= i < |tokens| && i < 8 && TempName(name, tokens[i]) !in f)
    && Capacity(os) >= |data|
  }

  /** The bytes of the named file, as an expectation states them. */
  function Current(f: Files, name: string): Option<Bytes> { if name in f then Some(f[name]) else None }

  class Directory {
    var files: Files

    constructor ()
      ensures files == map[]
    {
      files := map[];
    }

    /** Looks for an unused temporary name, at most eight times. */
    method CreateTemp(name: string, tokens: seq<string>) returns (temp: Option<string>)
      modifies this
      ensures temp.None? ==> files == old(files)
      ensures temp.Some? ==> IsTemp(temp.value) && |temp.value| > |name| && temp.value !in old(files) && files == old(files)[temp.value := []]
      ensures temp.None? <==> forall i :: 0 <= i < |tokens| && i < 8 ==> ".cwk-tmp-" + name + "." + tokens[i] in old(files)
    {
      var attempt := 0;
      while attempt < MAX_TEMP_ATTEMPTS && attempt < |tokens|
        invariant 0 <= attempt <= MAX_TEMP_ATTEMPTS && attempt <= |tokens|
        invariant files == old(files)
        invariant forall i :: 0 <= i < attempt ==> TempName(name, tokens[i]) in files
      {
        var candidate := TempName(name, tokens[attempt]);
        if candidate !in files {
          TempNamesAreTemp(name, tokens[attempt]);
          files := files[candidate := []];
          return Some(candidate);
        }
        attempt := attempt + 1;
      }
      return None;
    }

    /** The named file changes at one instant, the rename, from its old bytes to exactly the new
        ones.  Every ending before it leaves the directory as it was, apart from the leftover of
        a crash; every ending after it leaves the new bytes, whether or not the caller ever
        gets a receipt. */
    method WriteAtomic(name: string, data: Bytes, exclusive: bool, tokens: seq<string>, os: seq<Answer>, stop: Stop)
      returns (r: WriteResult)
      requires forall t :: t in tokens ==> |t| == TOKEN_LEN
      modifies this
      ensures r == BadName <==> !(1 <= |name| <= 128)
      ensures r == Exists <==> 1 <= |name| <= 128 && exclusive && name in old(files)
      ensures r == NameTooLong <==> 102 < |name| <= 128 && !(exclusive && name in old(files))
      ensures r == Written <==> Prepared(old(files), name, data, exclusive, tokens, os) && stop == Lives
      ensures r == Unreturned <==> Prepared(old(files), name, data, exclusive, tokens, os) && (stop == DiesAfterRename || stop == DirectoryFlushFails)
      ensures r == RenameFailed <==> Prepared(old(files), name, data, exclusive, tokens, os) && stop == RenameFails
      ensures r == Written || r == Unreturned ==> files == old(files)[name := data]
      ensures r.Crashed? ==> IsTemp(r.temp) && |r.temp| > |name| && r.temp !in old(files) && r.temp in files && files[r.temp] <= data
                             && files == old(files)[r.temp := files[r.temp]]
      ensures !r.Written? && !r.Unreturned? && !r.Crashed? ==> files == old(files)
      ensures r == WriteFailed ==> Capacity(os) < |data| || stop == FlushFails
      ensures r.Crashed? ==> Capacity(os) < |data| || stop == DiesBeforeRename
      ensures r != Conflict
    {
      hide Capacity, IsTemp;
      if !LeafFits(name) { return BadName; }
      if exclusive && name in files { return Exists; }
      if |name| > LEAF_MAX_LEN - |TEMP_PREFIX| - 1 - TOKEN_LEN { return NameTooLong; }
      var temp := CreateTemp(name, tokens);
      if temp.None? { return TempCollision; }
      var t := temp.value;
      assert files - {t} == old(files);
      r := Publish(t, name, data, os, stop);
    }

    /** Fills the temporary file and renames it. */
    method Publish(temp: string, name: string, data: Bytes, os: seq<Answer>, stop: Stop) returns (r: WriteResult)
      requires temp in files && IsTemp(temp) && |temp| > |name|
      modifies this
      ensures r == Written <==> Capacity(os) >= |data| && stop == Lives
      ensures r == Unreturned <==> Capacity(os) >= |data| && (stop == DiesAfterRename || stop == DirectoryFlushFails)
      ensures r == RenameFailed <==> Capacity(os) >= |data| && stop == RenameFails
      ensures r == Written || r == Unreturned ==> files == (old(files) - {temp})[name := data]
      ensures r.Crashed? ==> r.temp == temp && temp in files && files[temp] <= data && files == old(files)[temp := files[temp]]
      ensures r.Crashed? ==> Capacity(os) < |data| || stop == DiesBeforeRename
      ensures r == WriteFailed ==> Capacity(os) < |data| || stop == FlushFails
      ensures r == WriteFailed || r == RenameFailed ==> files == old(files) - {temp}
      ensures r in {Written, Unreturned, RenameFailed, WriteFailed, Crashed(temp)}
    {
      var content, end := WriteAll(data, os);
      files := files[temp := content];
      assert temp != name;
      assert files - {temp} == old(files) - {temp};
      if end == Died || (end == Finished && stop == DiesBeforeRename) { return Crashed(temp); }
      if end == Broke || stop == FlushFails {
        files := files - {temp};
        return WriteFailed;
      }
      if stop == RenameFails {
        files := files - {temp};
        return RenameFailed;
      }
      assert content == data;
      files := files[name := files[temp]] - {temp};
      assert files == (old(files) - {temp})[name := data];
      if stop == DiesAfterRename || stop == DirectoryFlushFails { return Unreturned; }
      return Written;
    }

    /** Writes only over the bytes that the caller expects; `None` expects no file. */
    method CasWrite(name: string, data: Bytes, expected: Option<Bytes>, tokens: seq<string>, os: seq<Answer>, stop: Stop)
      returns (r: WriteResult)
      requires forall t :: t in tokens ==> |t| == TOKEN_LEN
      modifies this
      ensures r == BadName <==> !(1 <= |name| <= 128)
      ensures r == Conflict <==> 1 <= |name| <= 128 && (if name in old(files) then expected != Some(old(files)[name]) else expected.Some?)
      ensures r == Written <==> expected == Current(old(files), name) && Prepared(old(files), name, data, false, tokens, os) && stop == Lives
      ensures r == Unreturned <==>
        && expected == Current(old(files), name) && Prepared(old(files), name, data, false, tokens, os)
        && (stop == DiesAfterRename || stop == DirectoryFlushFails)
      ensures r == Written || r == Unreturned ==> files == old(files)[name := data]
      ensures r.Crashed? ==> IsTemp(r.temp) && |r.temp| > |name| && r.temp !in old(files) && r.temp in files && files == old(files)[r.temp := files[r.temp]]
      ensures !r.Written? && !r.Unreturned? && !r.Crashed? ==> files == old(files)
      // The new bytes are visible although the caller has no receipt exactly then:
      ensures r != Written && Current(files, name) != Current(old(files), name) <==>
        && expected == Current(old(files), name) && Prepared(old(files), name, data, false, tokens, os)
        && (stop == DiesAfterRename || stop == DirectoryFlushFails) && expected != Some(data)
    {
      if !LeafFits(name) { return BadName; }
      if name in files {
        if expected.None? || files[name] != expected.value { return Conflict; }
      } else {
        if expected.Some? { return Conflict; }
      }
      r := WriteAtomic(name, data, false, tokens, os, stop);
    }

    /** Removes every leftover and nothing else. */
    method RecoverOrphans() returns (removed: set<string>)
      modifies this
      ensures files == Swept(old(files))
      ensures removed == set n | n in old(files) && IsTemp(n)
      ensures forall n :: n in removed <==> n in old(files) && |n| >= 9 && n[..9] == ".cwk-tmp-"
      ensures forall n :: n in files <==> n in old(files) && n !in removed
      ensures forall n :: n in files ==> files[n] == old(files)[n]
    {
      removed := {};
      var todo := files.Keys;
      while todo != {}
        invariant todo <= old(files).Keys
        invariant removed == set n | n in old(files) && IsTemp(n) && n !in todo
        invariant files == old(files) - removed
        decreases |todo|
      {
        var n :| n in todo;
        todo := todo - {n};
        if IsTemp(n) {
          files := files - {n};
          removed := removed + {n};
        }
      }
    }
  }

  /** A write that died and was swept left no trace; sweeping again changes nothing; and a
      committed file survives a sweep exactly when its own name is not a temporary one. */
  lemma SweepUndoesACrash(f: Files, t: string, junk: Bytes, name: string)
    ensures IsTemp(t) ==> Swept(f[t := junk]) == Swept(f)
    ensures Swept(Swept(f)) == Swept(f)
    ensures name in f ==> (name in Swept(f) <==> !IsTemp(name))
    ensures name in Swept(f) ==> Swept(f)[name] == f[name]
  {
  }
}
