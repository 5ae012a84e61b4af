/** Rotation of one supervisor log file (src/experiment_control/_manager/process_logs.py), without
    operating-system errors. Index 0 is the file being appended to; index i is its i-th backup. */
module LogRotation {
  import opened Options

  type Byte(==, !new)
  type Entry = seq<Byte>
  type File = seq<Entry>
  type Files = map<nat, File>

  function Size(f: File): nat { if f == [] then 0 else Size(f[..|f| - 1]) + |f[|f| - 1]| }

  predicate Due(files: Files, maxBytes: int, backups: int) {
    maxBytes > 0 && backups > 0 && 0 in files && Size(files[0]) >= maxBytes
  }

  function At(files: Files, i: int): Option<File> { if i >= 0 && i in files then Some(files[i]) else None }

  /** Rename idx to idx + 1, replacing whatever was there. */
  function MoveUp(files: Files, idx: nat): Files {
    if idx in files then (files - {idx})[idx + 1 := files[idx]] else files
  }

  /** The renaming loop: idx runs from backups - 1 down to the given index. */
  function MovedUpFrom(files: Files, backups: nat, idx: nat): Files
    decreases backups - idx
  {
    if idx >= backups then files else MoveUp(MovedUpFrom(files, backups, idx + 1), idx)
  }

  function Shifted(files: Files, backups: nat): Files {
    var moved := MovedUpFrom(files, backups, 1);
    if 0 in moved then MoveUp(moved, 0) else moved
  }

  lemma {:induction false} MovedUpFromAt(files: Files, backups: nat, idx: nat, k: int)
    requires idx <= backups
    ensures At(MovedUpFrom(files, backups, idx), k) ==
      if k < idx || k > backups || idx == backups then At(files, k)
      else if k == idx then None
      else if At(files, k - 1).Some? then At(files, k - 1)
      else if k == backups then At(files, k) else None
    decreases backups - idx
  {
    if idx == backups {
    } else {
      MovedUpFromAt(files, backups, idx + 1, k);
      MovedUpFromAt(files, backups, idx + 1, idx);
    }
  }

  /** Where each index gets its contents from when the files are shifted up by one. */
  lemma ShiftedAt(files: Files, backups: nat, k: int)
    requires 0 in files && backups > 0
    ensures At(Shifted(files, backups), k) ==
      if k <= 0 then None
      else if k > backups then At(files, k)
      else if At(files, k - 1).Some? then At(files, k - 1)
      else if k == backups then At(files, k) else None
  {
    MovedUpFromAt(files, backups, 1, k);
    MovedUpFromAt(files, backups, 1, 0);
  }

  function Rotated(files: Files, maxBytes: int, backups: int): Files {
    if Due(files, maxBytes, backups) then Shifted(files, backups) else files
  }

  function Current(files: Files): File { if 0 in files then files[0] else [] }

  function Appended(files: Files, e: Entry, maxBytes: int, backups: int): Files {
    var r := Rotated(files, maxBytes, backups);
    r[0 := Current(r) + [e]]
  }

  function Run(entries: seq<Entry>, maxBytes: int, backups: int): Files {
    if entries == [] then map[]
    else Appended(Run(entries[..|entries| - 1], maxBytes, backups), entries[|entries| - 1], maxBytes, backups)
  }

  // ---------------------------------------------------------------- reading the files back

  /** The backups occupy exactly the indices 1..j. */
  ghost predicate Contiguous(files: Files, j: nat) {
    forall i: nat :: i in files && i >= 1 <==> 1 <= i <= j
  }

  /** Backups j..1 concatenated, oldest first. */
  function Archive(files: Files, j: nat): File
    requires forall i: nat :: 1 <= i <= j ==> i in files
  {
    if j == 0 then [] else files[j] + Archive(files, j - 1)
  }

  predicate IsSuffix(a: File, b: File) { |a| <= |b| && b[|b| - |a|..] == a }

  /** A file that outgrew the limit did so with its last entry. */
  predicate JustFull(f: File, maxBytes: int) { f != [] && Size(f[..|f| - 1]) < maxBytes }

  ghost predicate SoundAt(files: Files, j: nat, written: seq<Entry>, maxBytes: int, backups: int) {
    Contiguous(files, j) && (j > 0 ==> maxBytes > 0 && j <= backups) &&
    IsSuffix(Archive(files, j) + Current(files), written) &&
    (Archive(files, j) + Current(files) == written || j == backups) &&
    Sized(files, j, maxBytes, backups)
  }

  ghost predicate Sized(files: Files, j: nat, maxBytes: int, backups: int)
    requires Contiguous(files, j)
  {
    (forall i: nat :: 1 <= i <= j ==> Size(files[i]) >= maxBytes && JustFull(files[i], maxBytes)) &&
    (maxBytes > 0 && backups > 0 && 0 in files ==> JustFull(files[0], maxBytes))
  }

  /** After any sequence of appends: the backups are 1..j with j <= backups; oldest to newest and
      then the current file they spell a suffix of everything written; entries are lost only
      when all backups are in use; and each file stays below the limit plus one entry. */
  ghost predicate Sound(files: Files, written: seq<Entry>, maxBytes: int, backups: int) {
    exists j :: SoundAt(files, j, written, maxBytes, backups)
  }

  lemma {:induction false} ArchiveShift(files: Files, shifted: Files, j: nat)
    requires 0 in files && (forall i: nat :: 1 <= i <= j ==> i in files)
    requires forall i: nat :: 1 <= i <= j + 1 ==> i in shifted && shifted[i] == files[i - 1]
    ensures Archive(shifted, j + 1) == Archive(files, j) + files[0]
  {
    if j == 0 {
    } else {
      ArchiveShift(files, shifted, j - 1);
    }
  }

  lemma {:induction false} ArchiveSame(a: Files, b: Files, j: nat)
    requires forall i: nat :: 1 <= i <= j ==> i in a && i in b && a[i] == b[i]
    ensures Archive(a, j) == Archive(b, j)
  {
    if j == 0 {
    } else {
      ArchiveSame(a, b, j - 1);
    }
  }

  lemma SuffixTail(a: File, b: File, w: File)
    requires IsSuffix(a + b, w)
    ensures IsSuffix(b, w)
  {
    assert w[|w| - |a + b|..][|a|..] == w[|w| - |b|..];
  }

  lemma ShiftedContiguous(files: Files, j: nat, backups: nat)
    requires Contiguous(files, j) && 0 in files && 0 < backups && j <= backups
    ensures var j' := if j < backups then j + 1 else j;
            Contiguous(Shifted(files, backups), j') && 0 !in Shifted(files, backups) &&
            forall i: nat :: 1 <= i <= j' ==> Shifted(files, backups)[i] == files[i - 1]
  {
    hide Shifted;
    var s, j' := Shifted(files, backups), if j < backups then j + 1 else j;
    ShiftedAt(files, backups, 0);
    forall i: nat ensures i in s && i >= 1 <==> 1 <= i <= j' {
      ShiftedAt(files, backups, i);
      assert i >= 1 ==> (i in files <==> i <= j);
      assert i >= 2 ==> (i - 1 in files <==> i - 1 <= j);
    }
    forall i: nat | 1 <= i <= j' ensures s[i] == files[i - 1] {
      ShiftedAt(files, backups, i);
      assert i >= 2 ==> i - 1 in files;
    }
  }

  /** Rotation keeps what the files spell, except for the oldest backup when all are in use. */
  lemma ShiftedArchive(files: Files, j: nat, backups: nat)
    requires Contiguous(files, j) && 0 in files && 0 < backups && j <= backups
    ensures var j' := if j < backups then j + 1 else j;
            var s := Shifted(files, backups);
            Contiguous(s, j') &&
            (j < backups ==> Archive(s, j') == Archive(files, j) + files[0]) &&
            (j == backups ==> files[j] + Archive(s, j') == Archive(files, j) + files[0])
  {
    var s := Shifted(files, backups);
    ShiftedContiguous(files, j, backups);
    if j < backups {
      ArchiveShift(files, s, j);
    } else {
      ArchiveShift(files, s, j - 1);
    }
  }

  lemma RotatedSound(files: Files, j: nat, written: seq<Entry>, maxBytes: int, backups: int)
    requires SoundAt(files, j, written, maxBytes, backups) && Due(files, maxBytes, backups)
    ensures var j' := if j < backups then j + 1 else j;
            SoundAt(Shifted(files, backups), j', written, maxBytes, backups)
  {
    hide Shifted, Size, Archive;
    var s, j' := Shifted(files, backups), if j < backups then j + 1 else j;
    ShiftedContiguous(files, j, backups);
    assert Sized(s, j', maxBytes, backups);
    hide Sized;
    ShiftedArchive(files, j, backups);
    var kept := Archive(files, j) + files[0];
    assert Archive(s, j') + [] == Archive(s, j');
    if j == backups { SuffixTail(files[j], Archive(s, j'), written); }
  }

  lemma AppendSound(files: Files, j: nat, written: seq<Entry>, e: Entry, maxBytes: int, backups: int)
    requires SoundAt(files, j, written, maxBytes, backups) && !Due(files, maxBytes, backups)
    ensures SoundAt(files[0 := Current(files) + [e]], j, written + [e], maxBytes, backups)
  {
    hide Size, Archive, Sized;
    var files' := files[0 := Current(files) + [e]];
    AppendSized(files, j, e, maxBytes, backups);
    ArchiveSame(files, files', j);
    var archive, cur := Archive(files, j), Current(files);
    assert Archive(files', j) + Current(files') == (archive + cur) + [e];
    SuffixSnoc(archive + cur, written, e);
  }

  lemma AppendSized(files: Files, j: nat, e: Entry, maxBytes: int, backups: int)
    requires Contiguous(files, j) && Sized(files, j, maxBytes, backups) && !Due(files, maxBytes, backups)
    ensures var files' := files[0 := Current(files) + [e]];
            Contiguous(files', j) && Sized(files', j, maxBytes, backups)
  {
    hide Size, JustFull, Contiguous;
    AppendContiguous(files, j, Current(files) + [e]);
    if maxBytes > 0 && backups > 0 { AppendFull(files, e, maxBytes, backups); }
  }

  lemma AppendContiguous(files: Files, j: nat, f: File)
    requires Contiguous(files, j)
    ensures Contiguous(files[0 := f], j) && forall i: nat :: 1 <= i <= j ==> i in files && files[0 := f][i] == files[i]
  {
    assert forall i: nat :: 1 <= i ==> (i in files[0 := f] <==> i in files);
  }

  lemma AppendFull(files: Files, e: Entry, maxBytes: int, backups: int)
    requires maxBytes > 0 && backups > 0 && !Due(files, maxBytes, backups)
    ensures JustFull(Current(files) + [e], maxBytes)
  {
    EmptySize();
    hide Size;
    assert (Current(files) + [e])[..|Current(files)|] == Current(files);
  }

  lemma EmptySize()
    ensures Size([]) == 0
  {}

  lemma SuffixSnoc(a: File, w: File, e: Entry)
    requires IsSuffix(a, w)
    ensures IsSuffix(a + [e], w + [e]) && (a == w ==> a + [e] == w + [e])
  {
    assert (w + [e])[|w| - |a|..] == w[|w| - |a|..] + [e];
  }

  lemma SoundInitially(maxBytes: int, backups: int)
    ensures SoundAt(map[], 0, [], maxBytes, backups)
  {}

  lemma SoundStep(files: Files, j: nat, written: seq<Entry>, e: Entry, maxBytes: int, backups: int)
    requires SoundAt(files, j, written, maxBytes, backups)
    ensures Sound(Appended(files, e, maxBytes, backups), written + [e], maxBytes, backups)
  {
    hide SoundAt, Shifted;
    var j' := j;
    if Due(files, maxBytes, backups) {
      RotatedSound(files, j, written, maxBytes, backups);
      j' := if j < backups then j + 1 else j;
      RotatedIsNotDue(files, backups, maxBytes);
    }
    AppendSound(Rotated(files, maxBytes, backups), j', written, e, maxBytes, backups);
  }

  lemma {:induction false} RunIsSound(entries: seq<Entry>, maxBytes: int, backups: int)
    ensures Sound(Run(entries, maxBytes, backups), entries, maxBytes, backups)
  {
    hide SoundAt, Appended;
    if entries == [] {
      SoundInitially(maxBytes, backups);
    } else {
      var before, e := entries[..|entries| - 1], entries[|entries| - 1];
      RunIsSound(before, maxBytes, backups);
      var files := Run(before, maxBytes, backups);
      var j :| SoundAt(files, j, before, maxBytes, backups);
      SoundStep(files, j, before, e, maxBytes, backups);
      assert before + [e] == entries;
    }
  }

  lemma RotatedIsNotDue(files: Files, backups: nat, maxBytes: int)
    requires 0 in files && backups > 0
    ensures 0 !in Shifted(files, backups)
  {
    ShiftedAt(files, backups, 0);
  }

  // ---------------------------------------------------------------- retention

  lemma {:induction false} SizeConcat(a: File, b: File)
    ensures Size(a + b) == Size(a) + Size(b)
  {
    if b == [] {
      assert a + b == a;
    } else {
      SizeConcat(a, b[..|b| - 1]);
      assert (a + b)[..|a + b| - 1] == a + b[..|b| - 1];
    }
  }

  lemma {:induction false} ArchiveSize(files: Files, j: nat, maxBytes: nat)
    requires forall i: nat :: 1 <= i <= j ==> i in files && Size(files[i]) >= maxBytes
    ensures Size(Archive(files, j)) >= j * maxBytes
  {
    if j == 0 {
    } else {
      ArchiveSize(files, j - 1, maxBytes);
      SizeConcat(files[j], Archive(files, j - 1));
      assert j * maxBytes == (j - 1) * maxBytes + maxBytes;
    }
  }

  /** The files hold everything, or a suffix of at least `bytes` bytes. */
  ghost predicate Keeps(files: Files, j: nat, written: seq<Entry>, bytes: nat) {
    Contiguous(files, j) &&
    var kept := Archive(files, j) + Current(files);
    IsSuffix(kept, written) && (kept == written || Size(kept) >= bytes)
  }

  /** Nothing is discarded until at least backups * max_bytes bytes are kept. */
  lemma RetentionGuarantee(entries: seq<Entry>, maxBytes: int, backups: int)
    requires maxBytes > 0 && backups > 0
    ensures exists j: nat :: j <= backups && Keeps(Run(entries, maxBytes, backups), j, entries, backups * maxBytes)
  {
    hide SoundAt, Keeps, Run;
    RunIsSound(entries, maxBytes, backups);
    var files := Run(entries, maxBytes, backups);
    var j :| SoundAt(files, j, entries, maxBytes, backups);
    SoundKeeps(files, j, entries, maxBytes, backups);
  }

  lemma SoundKeeps(files: Files, j: nat, written: seq<Entry>, maxBytes: int, backups: int)
    requires maxBytes > 0 && backups > 0 && SoundAt(files, j, written, maxBytes, backups)
    ensures j <= backups && Keeps(files, j, written, backups * maxBytes)
  {
    hide Size, Archive, IsSuffix;
    FullSize(files, j, maxBytes, backups);
    hide Sized;
    SizeConcat(Archive(files, j), Current(files));
  }

  lemma FullSize(files: Files, j: nat, maxBytes: nat, backups: int)
    requires Contiguous(files, j) && Sized(files, j, maxBytes, backups)
    ensures Size(Archive(files, j)) >= j * maxBytes
  {
    hide Size, Archive;
    ArchiveSize(files, j, maxBytes);
  }

  // ---------------------------------------------------------------- the object

  class LogFiles {
    const maxBytes: int
    const backups: int
    var files: Files

    constructor (maxBytes: int, backups: int)
      ensures this.maxBytes == maxBytes && this.backups == backups && files == map[]
    {
      this.maxBytes, this.backups := maxBytes, backups;
      files := map[];
    }

    method RotateLogFile()
      modifies this
      ensures files == Rotated(old(files), maxBytes, backups)
    {
      if maxBytes <= 0 || backups <= 0 || 0 !in files { return; }
      if Size(files[0]) < maxBytes { return; }
      for idx := backups downto 1
        invariant files == MovedUpFrom(old(files), backups, idx)
      {
        if idx in files {
          files := (files - {idx})[idx + 1 := files[idx]];
        }
      }
      MovedUpFromAt(old(files), backups, 1, 0);
      files := (files - {0})[1 := files[0]];
    }

    method AppendSupervisorJsonl(e: Entry)
      modifies this
      ensures files == Appended(old(files), e, maxBytes, backups)
    {
      RotateLogFile();
      files := files[0 := (if 0 in files then files[0] else []) + [e]];
    }
  }
}
