/**
 * Tailing of the nginx access logs: the per-file byte offsets the collector keeps in
 * `last_log_bytes`, what one read from a stored offset returns, and the rotation rule of
 * `yield_line`. A file is its content; a path missing from the file system is a file that
 * `os.path.getsize` and `open` fail on.
 */
module NginxTail {
  import opened Text

  /** A snapshot of the files the collector can see: path to content. */
  type FileSystem = map<string, string>

  /** The per-file byte offsets, `last_log_bytes`. */
  type Offsets = map<string, nat>

  /** The lines a read yields and the position `tell()` reports after it. */
  datatype Read = Read(lines: seq<string>, tell: nat)

  /**
   * `open`, `seek(offset)`, iterate to end of file, `tell()`. Seeking beyond the end is allowed:
   * nothing is read and `tell()` reports the seek position.
   */
  function ReadFrom(content: string, offset: nat): (r: Read)
    ensures offset <= |content| ==> Flatten(r.lines) == content[offset..] && r.tell == |content|
    ensures offset > |content| ==> r.lines == [] && r.tell == offset
    ensures r.tell >= offset
  {
    if offset <= |content| then
      FlattenLines(content[offset..]);
      Read(Lines(content[offset..]), |content|)
    else Read([], offset)
  }

  /**
   * A file that only grows is read exactly once per byte: two consecutive reads, the second from
   * where the first stopped, together return everything after the first offset.
   */
  lemma GrowingFileReadOnce(c1: string, c2: string, offset: nat)
    requires c1 <= c2 && offset <= |c1|
    ensures ReadFrom(c1, offset).tell <= ReadFrom(c2, ReadFrom(c1, offset).tell).tell
    ensures Flatten(ReadFrom(c1, offset).lines) + Flatten(ReadFrom(c2, ReadFrom(c1, offset).tell).lines)
            == c2[offset..]
  {
    assert c2[offset..] == c1[offset..] + c2[|c1|..];
  }

  /**
   * A file shorter than its stored offset (truncated or replaced) is read from that offset, not
   * from its start: nothing is read while it is short, and once it has grown past the offset the
   * bytes before the offset are never read.
   */
  lemma TruncatedFileSkipsItsStart(c1: string, c2: string, offset: nat)
    requires |c1| < offset < |c2|
    ensures ReadFrom(c1, offset) == Read([], offset)
    ensures Flatten(ReadFrom(c2, ReadFrom(c1, offset).tell).lines) == c2[offset..]
    ensures |Flatten(ReadFrom(c2, ReadFrom(c1, offset).tell).lines)| < |c2|
  {
  }

  /** The outcome of the rotation rule: the lines yielded and the offsets afterwards. */
  datatype Tail = Tail(lines: seq<string>, offsets: Offsets)

  /**
   * The rule `yield_line` states for one log, over an offset map: on first sight the current size
   * is recorded and nothing is read; when the stored offset is beyond the current size the file
   * was rotated, so the rest of the previous file (path + suffix) is read from the stored offset,
   * when the suffix is non-empty and that file exists, and then the current file from its start;
   * otherwise the current file is read from the stored offset. A file that cannot be sized is
   * skipped with its offset untouched.
   */
  function RotationRead(offsets: Offsets, fs: FileSystem, path: string, suffix: string): (r: Tail)
    ensures forall q :: q != path ==> (q in r.offsets <==> q in offsets)
    ensures forall q :: q != path && q in offsets ==> r.offsets[q] == offsets[q]
    ensures path !in fs ==> r == Tail([], offsets)
    ensures path in fs ==> path in r.offsets && r.offsets[path] == |fs[path]|
    ensures path !in offsets ==> r.lines == []
  {
    if path !in fs then Tail([], offsets)
    else if path !in offsets then Tail([], offsets[path := |fs[path]|])
    else if offsets[path] > |fs[path]| then
      var previous := if suffix != "" && path + suffix in fs then ReadFrom(fs[path + suffix], offsets[path]).lines else [];
      var current := ReadFrom(fs[path], 0);
      Tail(previous + current.lines, offsets[path := current.tell])
    else
      var current := ReadFrom(fs[path], offsets[path]);
      Tail(current.lines, offsets[path := current.tell])
  }

  /**
   * After a rotation the previous file's bytes from the old offset come first and the whole
   * current file follows (the previous file adds nothing when it is missing or shorter than the
   * old offset); without a rotation exactly the bytes from the old offset are read.
   */
  lemma RotationReadContent(offsets: Offsets, fs: FileSystem, path: string, suffix: string)
    requires path in fs && path in offsets
    ensures var r := RotationRead(offsets, fs, path, suffix);
            var off, cur := offsets[path], fs[path];
            && (off <= |cur| ==> Flatten(r.lines) == cur[off..])
            && (off > |cur| && suffix != "" && path + suffix in fs && off <= |fs[path + suffix]| ==>
                  Flatten(r.lines) == fs[path + suffix][off..] + cur)
            && (off > |cur| && suffix != "" && path + suffix in fs && off > |fs[path + suffix]| ==> Flatten(r.lines) == cur)
            && (off > |cur| && (suffix == "" || path + suffix !in fs) ==> Flatten(r.lines) == cur)
  {
    var r := RotationRead(offsets, fs, path, suffix);
    var off, cur := offsets[path], fs[path];
    if off > |cur| {
      var previous := if suffix != "" && path + suffix in fs then ReadFrom(fs[path + suffix], off).lines else [];
      FlattenAppend(previous, ReadFrom(cur, 0).lines);
      assert cur[0..] == cur;
    }
  }

  /** Reading again with nothing written in between yields no line: nothing is read twice. */
  lemma RotationReadNoDuplicates(offsets: Offsets, fs: FileSystem, path: string, suffix: string)
    ensures var r := RotationRead(offsets, fs, path, suffix);
            RotationRead(r.offsets, fs, path, suffix) == Tail([], r.offsets)
  {
    var r := RotationRead(offsets, fs, path, suffix);
    if path in fs {
      assert fs[path][|fs[path]|..] == [];
      assert r.offsets[path := |fs[path]|] == r.offsets;
    }
  }

  /**
   * The rotation example: offset 100, the current file rotated down to 40 bytes, the previous
   * file holding 150. Bytes 100 to 150 of the previous file come first, then bytes 0 to 40 of the
   * current one, and the new offset is 40.
   */
  lemma RotationExample(offsets: Offsets, fs: FileSystem, path: string, suffix: string)
    requires path in offsets && offsets[path] == 100
    requires path in fs && |fs[path]| == 40
    requires suffix != "" && path + suffix in fs && |fs[path + suffix]| == 150
    ensures Flatten(RotationRead(offsets, fs, path, suffix).lines) == fs[path + suffix][100..150] + fs[path][0..40]
    ensures RotationRead(offsets, fs, path, suffix).offsets[path] == 40
  {
    RotationReadContent(offsets, fs, path, suffix);
    assert fs[path + suffix][100..150] == fs[path + suffix][100..];
    assert fs[path][0..40] == fs[path];
  }

  /**
   * `yield_line` as it stands: it reads and writes a bare `last_log_bytes`, a name that is not
   * bound in its module, so the first lookup raises `NameError`, which its own handler catches and
   * logs. Whatever the files hold, it yields nothing and no offset changes.
   */
  function YieldLineAsWritten(offsets: Offsets, fs: FileSystem, path: string, suffix: string): (r: Tail)
    ensures r.lines == [] && r.offsets == offsets
  {
    if path !in fs then
      // os.path.getsize raises; the handler logs it
      Tail([], offsets)
    else
      // `log_file not in last_log_bytes` raises NameError; the handler logs it
      Tail([], offsets)
  }

  /** On the rotation example the rule as written loses all 90 bytes the intended rule recovers. */
  lemma YieldLineAsWrittenLosesRotation(offsets: Offsets, fs: FileSystem, path: string, suffix: string)
    requires path in offsets && offsets[path] == 100
    requires path in fs && |fs[path]| == 40
    requires suffix != "" && path + suffix in fs && |fs[path + suffix]| == 150
    ensures Flatten(YieldLineAsWritten(offsets, fs, path, suffix).lines) == ""
    ensures |Flatten(RotationRead(offsets, fs, path, suffix).lines)| == 90
    ensures YieldLineAsWritten(offsets, fs, path, suffix).offsets[path] == 100
  {
    RotationExample(offsets, fs, path, suffix);
  }
}
