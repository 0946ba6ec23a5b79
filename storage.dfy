/** The output directory the sharders write their chunk files into. */
module Storage {

  newtype byte = x: int | 0 <= x < 256

  /** `after` differs from `before` at most in the files named in `names`. */
  ghost predicate SameExcept(after: map<string, seq<byte>>, before: map<string, seq<byte>>, names: set<string>) {
    forall n :: n !in names ==> (n in after <==> n in before) && (n in after ==> after[n] == before[n])
  }

  /** Files by name inside the output directory. Writing a name in
      `unwritable` fails, either when the file is created (permission,
      invalid path) or while its bytes are written (disk full). */
  class OutputDir {
    var files: map<string, seq<byte>>
    const unwritable: set<string>

    constructor (unwritable: set<string>)
      ensures files == map[] && this.unwritable == unwritable
    {
      files := map[];
      this.unwritable := unwritable;
    }

    /** `fs::write`, which is `File::create` (truncating) and `write_all`:
        it replaces the whole file, or fails. A failure leaves every other
        file alone; the named one is still there if it was, and holds either
        its old bytes (create failed) or a prefix of `data` (a later failure). */
    method Write(name: string, data: seq<byte>) returns (ok: bool)
      modifies this
      ensures ok <==> name !in unwritable
      ensures ok ==> files == old(files)[name := data]
      ensures !ok ==> SameExcept(files, old(files), {name}) && (name in old(files) ==> name in files)
      ensures !ok && name in files ==> (name in old(files) && files[name] == old(files)[name]) || files[name] <= data
    {
      ok := name !in unwritable;
      if ok {
        files := files[name := data];
      }
    }

    /** `open(name, "wb")`: creates or truncates the file. */
    method Truncate(name: string)
      requires name !in unwritable
      modifies this
      ensures files == old(files)[name := []]
    {
      files := files[name := []];
    }

    /** `f.write(data)` on a file opened by `Truncate`. */
    method Append(name: string, data: seq<byte>)
      requires name in files && name !in unwritable
      modifies this
      ensures files == old(files)[name := old(files[name]) + data]
    {
      files := files[name := files[name] + data];
    }
  }
}
