/** The buffered append file under a ledger segment: bytes wait in a buffer, space
    is reserved ahead, and a persisted cursor only ever covers flushed bytes. */
module AppendFile {
  import opened Basics

  const FILE_BUFFER_SIZE: nat := 64 * MB
  const PREALLOCATION_SIZE: nat := 4 * 1024 * MB
  const PREALLOCATION_THRESHOLD: nat := PREALLOCATION_SIZE / 16
  /** Largest file a packed span can address. */
  const MAX_FILE_SIZE: nat := 0x80_0000_0000

  class AppendFile {
    /** Physical contents, including reserved space past the cursor. */
    var file: seq<Byte>
    var buffer: seq<Byte>
    /** Logical position, including buffered bytes. */
    var cursor: nat

    /** The buffer goes where the file's part of the log ends. */
    ghost predicate Placed()
      reads this
    {
      |buffer| <= cursor && cursor - |buffer| <= |file|
    }

    ghost predicate Valid()
      reads this
    {
      Placed() && |buffer| < FILE_BUFFER_SIZE
    }

    /** What has been appended: flushed bytes, then buffered ones. */
    ghost function Logical(): seq<Byte>
      requires Placed()
      reads this
    {
      file[..cursor - |buffer|] + buffer
    }

    /** Opens a file at its published cursor; bytes past it are not part of the log. */
    constructor (contents: seq<Byte>, published: nat)
      requires published <= |contents|
      ensures Valid() && Logical() == contents[..published] && cursor == published
    {
      file, buffer, cursor := contents, [], published;
    }

    /** Buffers a fragment; a full buffer is flushed. */
    method Append(bytes: seq<Byte>)
      requires Valid()
      modifies this
      ensures Valid() && Logical() == old(Logical()) + bytes && cursor == old(cursor) + |bytes|
    {
      buffer := buffer + bytes;
      cursor := cursor + |bytes|;
      assert Logical() == old(Logical()) + bytes;
      if |buffer| >= FILE_BUFFER_SIZE {
        Flush();
      }
    }

    /** Writes the buffer at its place; nothing beyond the cursor is disturbed. */
    method Flush()
      requires Placed()
      modifies this`file, this`buffer
      ensures Valid() && buffer == [] && Logical() == old(Logical())
      ensures |file| >= |old(file)| && forall i :: cursor <= i < |old(file)| ==> file[i] == old(file)[i]
    {
      if buffer == [] {
        return;
      }
      var offset := cursor - |buffer|;
      file := file[..offset] + buffer + if cursor <= |file| then file[cursor..] else [];
      buffer := [];
      assert file[..cursor] == old(Logical());
    }

    /** Reserves physical space without moving the logical cursor. */
    method Preallocate() returns (ok: bool)
      requires Valid()
      modifies this`file
      ensures Valid() && Logical() == old(Logical())
      ensures ok <==> |old(file)| + PREALLOCATION_SIZE <= MAX_FILE_SIZE
      ensures |file| == |old(file)| + if ok then PREALLOCATION_SIZE else 0
    {
      if |file| + PREALLOCATION_SIZE > MAX_FILE_SIZE {
        return false;
      }
      file := file + seq(PREALLOCATION_SIZE, _ => 0);
      return true;
    }

    /** Flushes and returns the offset that may be published: everything appended so
        far is in the file below it. Fails only when the file would outgrow spans. */
    method Persist() returns (published: Option<nat>)
      requires Valid()
      modifies this`file, this`buffer
      ensures Valid() && Logical() == old(Logical())
      ensures published.Some? ==>
                && published.value == cursor && buffer == [] && cursor <= |file| && file[..cursor] == Logical()
                && cursor + PREALLOCATION_THRESHOLD <= |file|
      ensures published.None? <==>
              |old(file)| < cursor + PREALLOCATION_THRESHOLD && |old(file)| + PREALLOCATION_SIZE > MAX_FILE_SIZE
    {
      if |file| < cursor + PREALLOCATION_THRESHOLD {
        var ok := Preallocate();
        if !ok {
          return None;
        }
      }
      Flush();
      return Some(cursor);
    }

    /** Trims the reserved space of a sealed file: the file is exactly its log. */
    method Finalize()
      requires Valid()
      modifies this`file, this`buffer
      ensures Valid() && file == Logical() == old(Logical())
    {
      Flush();
      file := file[..cursor];
    }
  }
}
