/**
 Private files in one directory (filestore/privatefile.go): a file is staged completely
 under a temporary name and then moved over its target. Every primitive may fail, and
 the target is watched after every single one of them.
*/
module AtomicFile {
  import opened Basics

  newtype byte = x: int | 0 <= x < 256

  datatype File = Regular(data: seq<byte>) | Symlink | Special

  /** Which primitives fail; `write` is the number of bytes that reach the file before
      the write fails. */
  datatype Faults = Faults(
    create: bool,
    secure: bool,
    write: Option<nat>,
    sync: bool,
    close: bool,
    remove: bool,
    move: bool,
    syncDir: bool)

  class Directory {
    var names: map<string, nat>
    var files: map<nat, File>
    var nextInode: nat
    // What the watched name has shown after each primitive.
    const watched: string
    ghost var history: seq<Option<File>>

    ghost predicate Valid() reads this {
      && (forall n :: n in names ==> names[n] in files)
      && (forall i :: i in files ==> i < nextInode)
    }

    function FileAt(name: string): Option<File> reads this {
      if name in names && names[name] in files then Some(files[names[name]]) else None
    }

    /** A temporary file that only its creator knows. */
    ghost predicate Private(temp: string, inode: nat) reads this {
      && temp in names && names[temp] == inode
      && forall n :: n in names && names[n] == inode ==> n == temp
    }

    /** Every other name shows what it showed before. */
    twostate predicate OthersKept(temp: string) reads this {
      forall n :: n != temp ==> FileAt(n) == old(FileAt(n))
    }

    // ----- primitives -----------------------------------------------------------

    /** O_EXCL: the name must not exist (os.CreateTemp retries until it does not). */
    method Create(temp: string, fails: bool) returns (inode: nat, ok: bool)
      requires Valid() && temp !in names
      modifies this
      ensures Valid() && ok == !fails
      ensures ok ==> Private(temp, inode) && FileAt(temp) == Some(Regular([]))
      ensures !ok ==> names == old(names)
      ensures OthersKept(temp)
      ensures history == old(history) + [FileAt(watched)]
    {
      ok, inode := !fails, nextInode;
      if ok {
        files := files[inode := Regular([])];
        names := names[temp := inode];
        nextInode := nextInode + 1;
      }
      history := history + [FileAt(watched)];
    }

    method Append(temp: string, inode: nat, b: byte)
      requires Valid() && Private(temp, inode) && FileAt(temp).Some? && FileAt(temp).value.Regular?
      modifies this`files, this`history
      ensures Valid() && Private(temp, inode) && OthersKept(temp)
      ensures FileAt(temp) == Some(Regular(old(FileAt(temp).value.data) + [b]))
      ensures history == old(history) + [FileAt(watched)]
    {
      files := files[inode := Regular(files[inode].data + [b])];
      history := history + [FileAt(watched)];
    }

    method Remove(name: string, fails: bool) returns (ok: bool)
      requires Valid()
      modifies this`names, this`history
      ensures Valid() && ok == !fails && OthersKept(name)
      ensures FileAt(name) == if ok then None else old(FileAt(name))
      ensures ok ==> name !in names
      ensures history == old(history) + [FileAt(watched)]
    {
      ok := !fails;
      if ok {
        names := names - {name};
      }
      history := history + [FileAt(watched)];
    }

    /** rename(2): one atomic step. */
    method Rename(temp: string, path: string, fails: bool) returns (ok: bool)
      requires Valid() && temp in names && temp != path
      modifies this`names, this`history
      ensures Valid() && ok == !fails
      ensures ok ==> FileAt(path) == old(FileAt(temp)) && temp !in names
      ensures ok ==> forall n :: n != temp && n != path ==> FileAt(n) == old(FileAt(n))
      ensures !ok ==> names == old(names)
      ensures history == old(history) + [FileAt(watched)]
    {
      ok := !fails;
      if ok {
        names := (names - {temp})[path := names[temp]];
      }
      history := history + [FileAt(watched)];
    }

    // ----- privatefile.go -------------------------------------------------------

    /** stagePrivateFile: on success the temporary file is complete; on failure nothing
        but a leftover that could not be removed remains. */
    method StagePrivateFile(temp: string, data: seq<byte>, faults: Faults) returns (inode: nat, ok: bool)
      requires Valid() && temp !in names
      modifies this
      ensures Valid() && OthersKept(temp)
      ensures ok ==> Private(temp, inode) && FileAt(temp) == Some(Regular(data))
      ensures !ok && !faults.remove ==> temp !in names
      ensures ok <==> !faults.create && !faults.secure
                      && (faults.write.None? || faults.write.value >= |data|)
                      && !faults.sync && !faults.close
      ensures old(history) <= history
      ensures temp != watched ==>
                forall k :: |old(history)| <= k < |history| ==> history[k] == old(FileAt(watched))
    {
      inode, ok := Create(temp, faults.create);
      if !ok {
        return;
      }
      var closed, keep := false, false;
      ok := !faults.secure;
      if ok {
        var limit := if faults.write.Some? then Min(faults.write.value, |data|) else |data|;
        var written := 0;
        while written < limit
          invariant 0 <= written <= limit <= |data|
          invariant Valid() && Private(temp, inode) && OthersKept(temp)
          invariant FileAt(temp) == Some(Regular(data[..written]))
          invariant old(history) <= history
          invariant temp != watched ==>
                      forall k :: |old(history)| <= k < |history| ==> history[k] == old(FileAt(watched))
        {
          Append(temp, inode, data[written]);
          assert data[..written + 1] == data[..written] + [data[written]];
          written := written + 1;
        }
        ok := written == |data|;
        assert data[..|data|] == data;
      }
      ok := ok && !faults.sync;
      if ok {
        closed := true;
        ok := !faults.close;
      }
      keep := ok;
      if !keep {
        var _ := Remove(temp, faults.remove);
      }
    }

    /** writePrivateFileAtomicWith: at every instant the target is the complete old or
        the complete new file; it is untouched by every failure up to and including the
        move, and only the directory sync can fail after it has become the new one. */
    method WritePrivateFileAtomic(path: string, temp: string, data: seq<byte>, faults: Faults)
      returns (ok: bool)
      requires Valid() && temp !in names && temp != path
      modifies this
      ensures Valid()
      ensures FileAt(path) == (if Moves(data, faults) then Some(Regular(data)) else old(FileAt(path)))
      ensures ok <==> Moves(data, faults) && !faults.syncDir
      ensures forall n :: n != temp && n != path ==> FileAt(n) == old(FileAt(n))
      ensures !faults.remove || ok ==> temp !in names
      ensures old(history) <= history
      ensures path == watched ==>
                exists k :: SwitchesAt(history, |old(history)|, k, old(FileAt(path)), Some(Regular(data)))
    {
      var inode, staged := StagePrivateFile(temp, data, faults);
      if !staged {
        assert path == watched ==>
                 SwitchesAt(history, |old(history)|, |history|, old(FileAt(path)), Some(Regular(data)));
        return false;
      }
      ghost var before := |history|;
      var moved := Rename(temp, path, faults.move);
      if !moved {
        assert FileAt(path) == old(FileAt(path));
        var _ := Remove(temp, faults.remove);
        assert path == watched ==>
                 SwitchesAt(history, |old(history)|, |history|, old(FileAt(path)), Some(Regular(data)));
        return false;
      }
      assert path == watched ==>
               SwitchesAt(history, |old(history)|, before, old(FileAt(path)), Some(Regular(data)));
      return !faults.syncDir;
    }

    // ----- machineid.go: one caller ---------------------------------------------

    /** link(2): never replaces an existing name. */
    method Link(temp: string, path: string, fails: bool) returns (ok: bool, taken: bool)
      requires Valid() && temp in names && temp != path
      modifies this`names, this`history
      ensures Valid()
      ensures taken == (!fails && path in old(names)) && ok == (!fails && path !in old(names))
      ensures ok ==> FileAt(path) == FileAt(temp) == old(FileAt(temp))
      ensures temp in names && forall n :: n != path ==> FileAt(n) == old(FileAt(n))
      ensures !ok ==> names == old(names)
      ensures history == old(history) + [FileAt(watched)]
    {
      taken := !fails && path in names;
      ok := !fails && path !in names;
      if ok {
        names := names[path := names[temp]];
      }
      history := history + [FileAt(watched)];
    }

    /** readFallbackKey: the key is read in full, from a regular file of exactly its size,
        or not at all. `interrupted` stands for any failing inspection, open or read. */
    method ReadFallbackKey(path: string, key: array<byte>, interrupted: bool) returns (result: ReadResult)
      requires Valid() && key.Length == KEY_LENGTH
      modifies key
      ensures result == Missing <==> !interrupted && FileAt(path).None?
      ensures result == Found <==>
                && !interrupted
                && FileAt(path).Some? && FileAt(path).value.Regular?
                && |FileAt(path).value.data| == KEY_LENGTH
      ensures result == Found ==> FileAt(path) == Some(Regular(key[..]))
    {
      if interrupted {
        return Unreadable;
      }
      var found := FileAt(path);
      if found.None? {
        return Missing;
      }
      if !found.value.Regular? || |found.value.data| != KEY_LENGTH {
        return Unreadable;
      }
      Fill(key, found.value.data);
      return Found;
    }

    /** Another caller publishes a file, if the name is still free. */
    method Appear(path: string, file: File)
      requires Valid()
      modifies this
      ensures Valid() && OthersKept(path)
      ensures FileAt(path) == if path in old(names) then old(FileAt(path)) else Some(file)
      ensures forall n :: n in names <==> n in old(names) || n == path
      ensures forall n :: n in old(names) ==> names[n] == old(names)[n]
    {
      if path !in names {
        files := files[nextInode := file];
        names := names[path := nextInode];
        nextInode := nextInode + 1;
      }
      history := history + [FileAt(watched)];
    }

    /** fallbackKeyWithReaderAndSync: success means that the complete key stands at the
        path; an existing file is never replaced. `rival` is what another caller publishes
        between the first look and the link; the loser of that race reads it back. */
    method FallbackKey(path: string, temp: string, random: Option<seq<byte>>, faults: Faults,
                       interrupted: bool, rival: Option<File>, interruptedAgain: bool)
      returns (key: array<byte>, ok: bool)
      requires Valid() && temp !in names && temp != path
      requires random.Some? ==> |random.value| == KEY_LENGTH
      modifies this
      ensures Valid() && fresh(key) && key.Length == KEY_LENGTH
      ensures ok ==> FileAt(path) == Some(Regular(key[..])) && temp !in names
      ensures old(FileAt(path)).Some? ==> FileAt(path) == old(FileAt(path))
      ensures old(FileAt(path)).None? && FileAt(path).Some? ==>
                if rival.Some? then FileAt(path) == rival
                else random.Some? && FileAt(path) == Some(Regular(random.value))
      ensures forall n :: n != temp && n != path ==> FileAt(n) == old(FileAt(n))
    {
      key := new byte[KEY_LENGTH];
      var first := ReadFallbackKey(path, key, interrupted);
      if first == Found {
        return key, !faults.syncDir;
      }
      if first != Missing || random.None? {
        return key, false;
      }
      var inode, staged := StagePrivateFile(temp, random.value, faults);
      if !staged {
        return key, false;
      }
      if rival.Some? {
        Appear(path, rival.value);
      }
      var linked, taken := Link(temp, path, faults.move);
      var removed := Remove(temp, faults.remove);
      if linked {
        Fill(key, random.value);
        return key, removed && !faults.syncDir;
      }
      if !taken || !removed {
        return key, false;
      }
      var second := ReadFallbackKey(path, key, interruptedAgain);
      return key, second == Found && !faults.syncDir;
    }
  }

  /** io.ReadFull: the buffer is filled byte by byte. */
  method Fill(buffer: array<byte>, data: seq<byte>)
    requires buffer.Length == |data|
    modifies buffer
    ensures buffer[..] == data
  {
    for i := 0 to |data|
      invariant buffer[..i] == data[..i]
    {
      buffer[i] := data[i];
      assert buffer[..i + 1] == buffer[..i] + [buffer[i]];
    }
    assert buffer[..] == buffer[..|data|] && data == data[..|data|];
  }

  const KEY_LENGTH := 32

  datatype ReadResult = Found | Missing | Unreadable

  /** From `start` on, the watched name shows `before` up to `k` and `after` from then
      on. */
  ghost predicate SwitchesAt(history: seq<Option<File>>, start: nat, k: nat, before: Option<File>,
                             after: Option<File>)
  {
    && start <= k <= |history|
    && (forall j :: start <= j < k ==> history[j] == before)
    && (forall j :: k <= j < |history| ==> history[j] == after)
  }

  /** The staging and the move both succeed. */
  predicate Moves(data: seq<byte>, faults: Faults) {
    && !faults.create && !faults.secure
    && (faults.write.None? || faults.write.value >= |data|)
    && !faults.sync && !faults.close && !faults.move
  }
}
