/** The FAT16 file system (src/fs/fat.rs).

    `init` reads the boot sector from the disk, parses the BIOS parameter
    block, fills the FAT table and writes the two sample root-directory
    entries; each stage must succeed before the next runs.  Field offsets
    follow the Microsoft FAT specification: BPB_SecPerClus at byte 13,
    BPB_TotSec16 at 19, BPB_FATSz16 at 22 (little-endian) and the signature
    0x55 0xAA at bytes 510-511.  Only `is_directory` and `is_regular_file`
    are pure; the file-system object and its open-file handles are classes
    whose methods update them in place. */
module Fat {
  import opened Wrappers
  import opened Disk

  const FAT_SIGNATURE: nat := 0xAA55
  const BOOT_SECTOR_SIZE: nat := 512
  const FAT_ENTRY_SIZE: nat := 2
  const FAT_ENTRIES: nat := 1024
  const ROOT_DIR_ENTRIES: nat := 512
  const DIR_ENTRY_SIZE: nat := 32
  /** The value `load_fat_table` writes into every FAT entry. */
  const FAT_ENTRY_FILL: nat := 0xFFFF
  /** Sectors the root directory occupies: 512 entries of 32 bytes. */
  const ROOT_DIR_SECTORS: nat := (ROOT_DIR_ENTRIES * DIR_ENTRY_SIZE + BLOCK_SIZE - 1) / BLOCK_SIZE
  /** `usize` arithmetic wraps modulo 2^64 in a release build. */
  const USIZE_MODULUS: int := 0x1_0000_0000_0000_0000

  // Attribute bits of a directory entry
  const ATTR_READ_ONLY: bv8 := 0x01
  const ATTR_HIDDEN: bv8 := 0x02
  const ATTR_SYSTEM: bv8 := 0x04
  const ATTR_VOLUME_ID: bv8 := 0x08
  const ATTR_DIRECTORY: bv8 := 0x10
  const ATTR_ARCHIVE: bv8 := 0x20

  /** Name bytes of a directory entry: 8 of name, 3 of extension. */
  type EntryName = s: seq<byte> | |s| == 11 witness [0, 0, 0, 0, 0, 0, 0, 0, 0, 0, 0]

  datatype FileType = Regular | Directory | Unknown

  /** A root-directory entry. */
  datatype FileInfo = FileInfo(name: EntryName, attributes: bv8, size: nat, firstCluster: nat,
                               fileType: FileType)

  /** An entry in use: its first name byte is neither 0 (never used) nor
      0xE5 (deleted). */
  predicate IsLive(f: FileInfo) {
    f.name[0] != 0 && f.name[0] != 0xE5
  }

  /** `FileInfo::new`: an all-zero entry, which is not in use. */
  function EmptyFileInfo(): (f: FileInfo)
    ensures !IsLive(f) && f.size == 0 && f.fileType == Unknown
  {
    FileInfo([0, 0, 0, 0, 0, 0, 0, 0, 0, 0, 0], 0, 0, 0, Unknown)
  }

  /** `is_directory`: the directory attribute bit (bit 4) is set. */
  function IsDirectory(f: FileInfo): (b: bool)
    ensures b <==> (f.attributes >> 4) & 1 == 1
  {
    (f.attributes & ATTR_DIRECTORY) != 0
  }

  /** `is_regular_file`: neither a directory (bit 4) nor a volume label
      (bit 3). */
  function IsRegularFile(f: FileInfo): (b: bool)
    ensures b <==> (f.attributes >> 4) & 1 == 0 && (f.attributes >> 3) & 1 == 0
  {
    !IsDirectory(f) && (f.attributes & ATTR_VOLUME_ID) == 0
  }

  /** No entry is both a directory and a regular file, and the read-only,
      hidden, system and archive bits decide neither. */
  lemma EntryKinds(f: FileInfo, extra: bv8)
    ensures !(IsDirectory(f) && IsRegularFile(f))
    ensures var g := f.(attributes := f.attributes | (extra & 0x27));
            IsDirectory(g) == IsDirectory(f) && IsRegularFile(g) == IsRegularFile(f)
  {
    var g := f.(attributes := f.attributes | (extra & 0x27));
    assert g.attributes & 0x10 == f.attributes & 0x10;
    assert g.attributes & 0x08 == f.attributes & 0x08;
  }

  // ---------------------------------------------------------------------
  // Boot sector

  /** `u16::from_le_bytes([lo, hi])`. */
  function LE16(lo: byte, hi: byte): (n: nat)
    ensures n < 0x10000
    ensures n % 256 == lo as nat && n / 256 == hi as nat
  {
    lo as nat + 256 * hi as nat
  }

  /** `u16::to_le_bytes`: the low byte, then the high byte. */
  function LE16Bytes(n: nat): (b: (byte, byte))
    requires n < 0x10000
    ensures b.0 as nat == n % 256 && b.1 as nat == n / 256
  {
    ((n % 256) as byte, (n / 256) as byte)
  }

  /** Little-endian decoding and encoding are inverse. */
  lemma LE16RoundTrip(n: nat, lo: byte, hi: byte)
    requires n < 0x10000
    ensures LE16(LE16Bytes(n).0, LE16Bytes(n).1) == n
    ensures LE16Bytes(LE16(lo, hi)) == (lo, hi)
  {
    var (a, b) := LE16Bytes(LE16(lo, hi));
    assert a as nat == lo as nat && b as nat == hi as nat;
  }

  /** The boot-sector signature check passes exactly for the bytes 0x55 at
      510 and 0xAA at 511. */
  lemma SignatureBytes(lo: byte, hi: byte)
    ensures LE16(lo, hi) == FAT_SIGNATURE <==> lo == 0x55 && hi == 0xAA
  {
    if LE16(lo, hi) == FAT_SIGNATURE {
      assert lo as nat == 0x55 && hi as nat == 0xAA;
    }
  }

  /** The geometry `parse_boot_sector` derives. */
  datatype BootParams = BootParams(totalSectors: nat, sectorsPerCluster: nat, fatSectors: nat,
                                   rootDirSectors: nat, dataSectors: nat)

  /** `total - 1 - fat - root_dir_sectors` in `usize` arithmetic: exact when
      the volume is large enough, wrapped modulo 2^64 otherwise. */
  function DataSectors(total: nat, fat: nat): (d: nat)
    requires total < 0x10000 && fat < 0x10000
    ensures d < USIZE_MODULUS
    ensures total >= 1 + fat + ROOT_DIR_SECTORS ==> d == total - 1 - fat - ROOT_DIR_SECTORS
    ensures total < 1 + fat + ROOT_DIR_SECTORS ==> d == USIZE_MODULUS + total - 1 - fat - ROOT_DIR_SECTORS
  {
    (total - 1 - fat - ROOT_DIR_SECTORS) % USIZE_MODULUS
  }

  /** `parse_boot_sector` on the sector's bytes: nothing unless bytes
      510-511 hold the signature; otherwise the geometry read from the
      fixed offsets. */
  function ParseBoot(boot: seq<byte>): (r: Option<BootParams>)
    requires |boot| == BOOT_SECTOR_SIZE
    ensures r.None? <==> !(boot[510] == 0x55 && boot[511] == 0xAA)
    ensures r.Some? ==> r.value.rootDirSectors == 32
  {
    SignatureBytes(boot[510], boot[511]);
    if LE16(boot[510], boot[511]) != FAT_SIGNATURE then None
    else
      var total := LE16(boot[19], boot[20]);
      var fat := LE16(boot[22], boot[23]);
      Some(BootParams(total, boot[13] as nat, fat, ROOT_DIR_SECTORS, DataSectors(total, fat)))
  }

  /** A sector carrying the signature and the three geometry fields, every
      other byte taken from `base`. */
  function BootSectorWith(base: seq<byte>, total: nat, perCluster: byte, fat: nat): (boot: seq<byte>)
    requires |base| == BOOT_SECTOR_SIZE && total < 0x10000 && fat < 0x10000
    ensures |boot| == BOOT_SECTOR_SIZE
  {
    base[13 := perCluster]
        [19 := LE16Bytes(total).0][20 := LE16Bytes(total).1]
        [22 := LE16Bytes(fat).0][23 := LE16Bytes(fat).1]
        [510 := 0x55][511 := 0xAA]
  }

  /** Parsing a boot sector gives back the geometry written into it. */
  lemma ParseBootRoundTrip(base: seq<byte>, total: nat, perCluster: byte, fat: nat)
    requires |base| == BOOT_SECTOR_SIZE && total < 0x10000 && fat < 0x10000
    ensures ParseBoot(BootSectorWith(base, total, perCluster, fat)) ==
            Some(BootParams(total, perCluster as nat, fat, 32, DataSectors(total, fat)))
  {
    var boot := BootSectorWith(base, total, perCluster, fat);
    LE16RoundTrip(total, 0, 0);
    LE16RoundTrip(fat, 0, 0);
    assert LE16(boot[19], boot[20]) == total;
    assert LE16(boot[22], boot[23]) == fat;
  }

  // ---------------------------------------------------------------------
  // Root directory

  /** The sample file `load_root_directory` writes: "HELLO   TXT", archive,
      13 bytes, cluster 2. */
  function HelloEntry(): FileInfo {
    FileInfo([0x48, 0x45, 0x4C, 0x4C, 0x4F, 0x20, 0x20, 0x20, 0x54, 0x58, 0x54],
             ATTR_ARCHIVE, 13, 2, Regular)
  }

  /** The sample directory: "TEST    DIR", cluster 3. */
  function TestDirEntry(): FileInfo {
    FileInfo([0x54, 0x45, 0x53, 0x54, 0x20, 0x20, 0x20, 0x20, 0x44, 0x49, 0x52],
             ATTR_DIRECTORY, 0, 3, Directory)
  }

  /** The root directory after `load_root_directory`: entries 0 and 1
      replaced, the rest kept. */
  function SampleDirectory(dir: seq<FileInfo>): (r: seq<FileInfo>)
    requires |dir| >= 2
    ensures |r| == |dir| && r[0] == HelloEntry() && r[1] == TestDirEntry()
    ensures forall k :: 2 <= k < |dir| ==> r[k] == dir[k]
    ensures IsRegularFile(r[0]) && IsDirectory(r[1])
  {
    dir[0 := HelloEntry()][1 := TestDirEntry()]
  }

  /** Whether the bytes are well-formed UTF-8 (section 3 of RFC 3629):
      `core::str::from_utf8` accepts exactly these. */
  predicate ValidUtf8(s: seq<byte>)
    decreases |s|
  {
    if |s| == 0 then true
    else if s[0] <= 0x7F then ValidUtf8(s[1..])
    else if 0xC2 <= s[0] <= 0xDF then
      |s| >= 2 && IsContinuation(s[1]) && ValidUtf8(s[2..])
    else if s[0] == 0xE0 then
      |s| >= 3 && 0xA0 <= s[1] <= 0xBF && IsContinuation(s[2]) && ValidUtf8(s[3..])
    else if 0xE1 <= s[0] <= 0xEC || 0xEE <= s[0] <= 0xEF then
      |s| >= 3 && IsContinuation(s[1]) && IsContinuation(s[2]) && ValidUtf8(s[3..])
    else if s[0] == 0xED then
      |s| >= 3 && 0x80 <= s[1] <= 0x9F && IsContinuation(s[2]) && ValidUtf8(s[3..])
    else if s[0] == 0xF0 then
      |s| >= 4 && 0x90 <= s[1] <= 0xBF && IsContinuation(s[2]) && IsContinuation(s[3]) && ValidUtf8(s[4..])
    else if 0xF1 <= s[0] <= 0xF3 then
      |s| >= 4 && IsContinuation(s[1]) && IsContinuation(s[2]) && IsContinuation(s[3]) && ValidUtf8(s[4..])
    else if s[0] == 0xF4 then
      |s| >= 4 && 0x80 <= s[1] <= 0x8F && IsContinuation(s[2]) && IsContinuation(s[3]) && ValidUtf8(s[4..])
    else false
  }

  predicate IsContinuation(b: byte) {
    0x80 <= b <= 0xBF
  }

  /** Bytes below 0x80 are always well-formed UTF-8. */
  lemma {:induction false} AsciiIsUtf8(s: seq<byte>)
    requires forall i :: 0 <= i < |s| ==> s[i] <= 0x7F
    ensures ValidUtf8(s)
    decreases |s|
  {
    if |s| > 0 {
      AsciiIsUtf8(s[1..]);
    }
  }

  /** The text the source compares a file name with: the first 8 name
      bytes as a string, or the empty string when they are not UTF-8. */
  function NameText(name: EntryName): (t: seq<byte>)
    ensures ValidUtf8(name[..8]) ==> t == name[..8]
    ensures !ValidUtf8(name[..8]) ==> t == []
  {
    if ValidUtf8(name[..8]) then name[..8] else []
  }

  /** The test `open_file` applies to each entry. */
  predicate Matches(f: FileInfo, filename: seq<byte>) {
    IsLive(f) && NameText(f.name) == filename
  }

  /** The first entry at or after `i` that matches. */
  function FindEntryFrom(dir: seq<FileInfo>, filename: seq<byte>, i: nat): (r: Option<nat>)
    ensures r.Some? ==> i <= r.value < |dir| && Matches(dir[r.value], filename) &&
                        forall k :: i <= k < r.value ==> !Matches(dir[k], filename)
    ensures r.None? ==> forall k :: i <= k < |dir| ==> !Matches(dir[k], filename)
    decreases |dir| - i
  {
    if i >= |dir| then None
    else if Matches(dir[i], filename) then Some(i)
    else FindEntryFrom(dir, filename, i + 1)
  }

  function FindEntry(dir: seq<FileInfo>, filename: seq<byte>): Option<nat> {
    FindEntryFrom(dir, filename, 0)
  }

  /** Only names of 8 bytes, or the empty name, can ever be found: the
      comparison is against all 8 padded name bytes. */
  lemma OnlyPaddedNamesMatch(dir: seq<FileInfo>, filename: seq<byte>)
    requires |filename| != 8 && |filename| != 0
    ensures FindEntry(dir, filename).None?
  {
  }

  /** The empty name matches exactly the live entries whose first 8 name
      bytes are not UTF-8. */
  lemma EmptyNameMatchesMalformedNames(f: FileInfo)
    ensures Matches(f, []) <==> IsLive(f) && !ValidUtf8(f.name[..8])
  {
  }

  /** The root directory `init` leaves behind on a new file system. */
  function InitialDirectory(): (dir: seq<FileInfo>)
    ensures |dir| == ROOT_DIR_ENTRIES
  {
    SampleDirectory(seq(ROOT_DIR_ENTRIES, _ => EmptyFileInfo()))
  }

  /** "HELLO" is not found in it: the stored name is "HELLO" padded with
      three spaces. */
  lemma UnpaddedHelloNotFound()
    ensures FindEntry(InitialDirectory(), [0x48, 0x45, 0x4C, 0x4C, 0x4F]).None?
  {
    OnlyPaddedNamesMatch(InitialDirectory(), [0x48, 0x45, 0x4C, 0x4C, 0x4F]);
  }

  /** "HELLO   " is found at entry 0. */
  lemma PaddedHelloFound()
    ensures FindEntry(InitialDirectory(), [0x48, 0x45, 0x4C, 0x4C, 0x4F, 0x20, 0x20, 0x20]) == Some(0)
  {
    AsciiIsUtf8(HelloEntry().name[..8]);
    assert Matches(InitialDirectory()[0], [0x48, 0x45, 0x4C, 0x4C, 0x4F, 0x20, 0x20, 0x20]);
  }

  /** "TEST    " is found at entry 1. */
  lemma PaddedTestFound()
    ensures FindEntry(InitialDirectory(), [0x54, 0x45, 0x53, 0x54, 0x20, 0x20, 0x20, 0x20]) == Some(1)
  {
    var dir := InitialDirectory();
    var name: seq<byte> := [0x54, 0x45, 0x53, 0x54, 0x20, 0x20, 0x20, 0x20];
    AsciiIsUtf8(TestDirEntry().name[..8]);
    assert dir[0].name[..8] != name by {
      assert dir[0].name[0] != name[0];
    }
    assert !Matches(dir[0], name);
    assert Matches(dir[1], name);
    assert FindEntryFrom(dir, name, 0) == FindEntryFrom(dir, name, 1);
  }

  // ---------------------------------------------------------------------
  // Reading

  /** How many bytes `read_file` delivers: nothing on a closed handle,
      otherwise as many as fit in the buffer without passing the end of
      the file. */
  function ReadCount(open: bool, size: nat, position: nat, bufferLength: nat): (n: nat)
    requires open ==> position <= size
    ensures !open ==> n == 0
    ensures open ==> n <= bufferLength && position + n <= size
    ensures open ==> n == bufferLength || position + n == size
  {
    if !open then 0
    else if bufferLength < size - position then bufferLength
    else size - position
  }

  /** The bytes `read_file` writes in place of file contents: 'A', 'B', ...
      'Z', 'A', ... */
  function Filler(n: nat): (f: seq<byte>)
    ensures |f| == n
    ensures forall i :: 0 <= i < n ==> 0x41 <= f[i] <= 0x5A && f[i] as nat == 0x41 + i % 26
  {
    seq(n, i => (0x41 + i % 26) as byte)
  }

  /** Once a handle's position reaches the file size, reads deliver
      nothing; and a read is never longer than the file. */
  lemma ReadAtEndIsEmpty(size: nat, position: nat, bufferLength: nat)
    requires position <= size
    ensures position == size ==> ReadCount(true, size, position, bufferLength) == 0
    ensures ReadCount(true, size, position, bufferLength) <= size
  {
  }

  /** A handle on a directory entry. */
  class FileHandle {
    var fileInfo: FileInfo
    var currentPosition: nat
    var open: bool

    /** `FileHandle::new`: closed, at position 0, on a blank entry. */
    constructor ()
      ensures fileInfo == EmptyFileInfo() && currentPosition == 0 && !open
    {
      fileInfo := EmptyFileInfo();
      currentPosition := 0;
      open := false;
    }
  }

  /** The file system. */
  class FatFileSystem {
    const bootSector: array<byte>
    const fatTable: array<nat>
    const rootDirectory: array<FileInfo>
    var initialized: bool
    var totalSectors: nat
    var sectorsPerCluster: nat
    var fatSectors: nat
    var rootDirSectors: nat
    var dataSectors: nat

    /** The geometry fields as one value. */
    function Params(): BootParams
      reads this
    {
      BootParams(totalSectors, sectorsPerCluster, fatSectors, rootDirSectors, dataSectors)
    }

    /** The three tables have their fixed sizes and are distinct arrays. */
    ghost predicate Valid()
      reads this
    {
      && bootSector.Length == BOOT_SECTOR_SIZE
      && fatTable.Length == FAT_ENTRIES
      && rootDirectory.Length == ROOT_DIR_ENTRIES
      && bootSector as object != fatTable as object
      && bootSector as object != rootDirectory as object
      && fatTable as object != rootDirectory as object
    }

    /** `FatFileSystem::new`: zeroed tables, blank entries, not initialised. */
    constructor ()
      ensures Valid() && fresh(bootSector) && fresh(fatTable) && fresh(rootDirectory)
      ensures bootSector[..] == seq(BOOT_SECTOR_SIZE, _ => 0)
      ensures fatTable[..] == seq(FAT_ENTRIES, _ => 0)
      ensures rootDirectory[..] == seq(ROOT_DIR_ENTRIES, _ => EmptyFileInfo())
      ensures !initialized && Params() == BootParams(0, 0, 0, 0, 0)
    {
      bootSector := new byte[BOOT_SECTOR_SIZE](_ => 0);
      fatTable := new nat[FAT_ENTRIES](_ => 0);
      rootDirectory := new FileInfo[ROOT_DIR_ENTRIES](_ => EmptyFileInfo());
      initialized := false;
      totalSectors, sectorsPerCluster, fatSectors, rootDirSectors, dataSectors := 0, 0, 0, 0, 0;
    }

    /** `init`: read, parse, load the FAT, load the root directory; the
        first failing stage ends it, and only a full run marks the file
        system initialised. */
    method Init(disk: DiskDriver) returns (ok: bool)
      requires Valid() && disk.Valid()
      modifies this, bootSector, fatTable, rootDirectory
      ensures Valid()
      ensures var (boot, result) := ReadBlockStep(disk.initialized, disk.sectorCount, disk.sectors, 0,
                                                  old(bootSector[..]));
              bootSector[..] == boot &&
              (ok <==> result == Success && ParseBoot(boot).Some?) &&
              Params() == (if ok then ParseBoot(boot).value else old(Params())) &&
              initialized == (ok || old(initialized)) &&
              fatTable[..] == (if ok then seq(FAT_ENTRIES, _ => FAT_ENTRY_FILL) else old(fatTable[..])) &&
              rootDirectory[..] == (if ok then SampleDirectory(old(rootDirectory[..])) else old(rootDirectory[..]))
    {
      var result := disk.ReadBlock(0, bootSector);
      if result != Success {
        return false;
      }
      ok := ParseBootSector();
      if !ok {
        return false;
      }
      ok := LoadFatTable();
      if !ok {
        return false;
      }
      ok := LoadRootDirectory();
      if !ok {
        return false;
      }
      initialized := true;
      return true;
    }

    /** `parse_boot_sector`: proved against `ParseBoot`; on failure no field
        changes. */
    method ParseBootSector() returns (ok: bool)
      requires Valid()
      modifies this
      ensures Valid() && initialized == old(initialized)
      ensures ok <==> ParseBoot(bootSector[..]).Some?
      ensures Params() == if ok then ParseBoot(bootSector[..]).value else old(Params())
    {
      var signature := LE16(bootSector[510], bootSector[511]);
      if signature != FAT_SIGNATURE {
        return false;
      }
      totalSectors := LE16(bootSector[19], bootSector[20]);
      sectorsPerCluster := bootSector[13] as nat;
      fatSectors := LE16(bootSector[22], bootSector[23]);
      rootDirSectors := (ROOT_DIR_ENTRIES * DIR_ENTRY_SIZE + BLOCK_SIZE - 1) / BLOCK_SIZE;
      dataSectors := DataSectors(totalSectors, fatSectors);
      return true;
    }

    /** `load_fat_table`: every entry becomes 0xFFFF. */
    method LoadFatTable() returns (ok: bool)
      requires Valid()
      modifies fatTable
      ensures ok && fatTable[..] == seq(FAT_ENTRIES, _ => FAT_ENTRY_FILL)
    {
      var i := 0;
      while i < fatTable.Length
        invariant 0 <= i <= fatTable.Length
        invariant forall k :: 0 <= k < i ==> fatTable[k] == FAT_ENTRY_FILL
      {
        fatTable[i] := FAT_ENTRY_FILL;
        i := i + 1;
      }
      ok := true;
    }

    /** `load_root_directory`: the two sample entries go into slots 0 and 1. */
    method LoadRootDirectory() returns (ok: bool)
      requires Valid()
      modifies rootDirectory
      ensures ok && rootDirectory[..] == SampleDirectory(old(rootDirectory[..]))
    {
      rootDirectory[0] := HelloEntry();
      rootDirectory[1] := TestDirEntry();
      ok := true;
    }

    /** `open_file`: a fresh open handle, at position 0, on a copy of the
        first matching entry. */
    method OpenFile(filename: seq<byte>) returns (handle: Option<FileHandle>)
      requires Valid()
      ensures handle.None? <==> FindEntry(rootDirectory[..], filename).None?
      ensures handle.Some? ==>
                fresh(handle.value) && handle.value.open && handle.value.currentPosition == 0 &&
                handle.value.fileInfo == rootDirectory[FindEntry(rootDirectory[..], filename).value]
    {
      var i := 0;
      while i < rootDirectory.Length
        invariant 0 <= i <= rootDirectory.Length
        invariant FindEntry(rootDirectory[..], filename) == FindEntryFrom(rootDirectory[..], filename, i)
      {
        var info := rootDirectory[i];
        if info.name[0] != 0 && info.name[0] != 0xE5 {
          var nameText := if ValidUtf8(info.name[..8]) then info.name[..8] else [];
          if nameText == filename {
            assert Matches(rootDirectory[..][i], filename);
            var h := new FileHandle();
            h.fileInfo := info;
            h.open := true;
            return Some(h);
          }
        }
        i := i + 1;
      }
      return None;
    }

    /** `read_file`: fills the start of the buffer with `Filler` bytes and
        advances the position by the count delivered. */
    method ReadFile(handle: FileHandle, buffer: array<byte>) returns (n: nat)
      requires handle.open ==> handle.currentPosition <= handle.fileInfo.size
      modifies handle, buffer
      ensures n == ReadCount(old(handle.open), old(handle.fileInfo.size), old(handle.currentPosition), buffer.Length)
      ensures buffer[..] == Filler(n) + old(buffer[n..])
      ensures handle.currentPosition == old(handle.currentPosition) + n
      ensures handle.open == old(handle.open) && handle.fileInfo == old(handle.fileInfo)
    {
      if !handle.open {
        return 0;
      }
      var remaining := handle.fileInfo.size - handle.currentPosition;
      var toRead := if buffer.Length < remaining then buffer.Length else remaining;
      if toRead == 0 {
        return 0;
      }
      var i := 0;
      while i < toRead
        modifies buffer
        invariant 0 <= i <= toRead
        invariant forall k :: 0 <= k < i ==> buffer[k] == (0x41 + k % 26) as byte
        invariant forall k :: i <= k < buffer.Length ==> buffer[k] == old(buffer[k])
      {
        buffer[i] := (0x41 + i % 26) as byte;
        i := i + 1;
      }
      assert buffer[..] == Filler(toRead) + old(buffer[toRead..]);
      handle.currentPosition := handle.currentPosition + toRead;
      n := toRead;
    }

    /** `close_file`: the handle is closed; closing it again changes
        nothing. */
    method CloseFile(handle: FileHandle)
      modifies handle
      ensures !handle.open
      ensures handle.fileInfo == old(handle.fileInfo) && handle.currentPosition == old(handle.currentPosition)
    {
      if handle.open {
        handle.open := false;
      }
    }
  }
}
