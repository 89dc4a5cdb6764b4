/** The block-device driver (src/drivers/disk.rs).

    The controller's memory is a sequence of 512-byte sectors: the address
    `base_address + sector * 512` the source reads and writes is sector
    `sector` of that sequence.  A request passes a guard chain (initialised,
    sector in range, buffer large enough) before its one-sector copy; the
    functions `ReadBlockStep` and `WriteBlockStep` are the specification
    the two methods are proved against. */
module Disk {
  const BLOCK_SIZE: nat := 512
  /** The controller address `DiskDriver::new` assumes. */
  const DISK_BASE: nat := 0x10001000
  /** The sector count `init` assumes. */
  const DISK_SECTORS: nat := 1024

  /** An unsigned 8-bit value. */
  newtype byte = x: int | 0 <= x < 256

  datatype DiskResult = Success | Error | Timeout | InvalidSector

  /** Every sector of the device holds exactly one block. */
  predicate SectorsSized(sectors: seq<seq<byte>>) {
    forall i :: 0 <= i < |sectors| ==> |sectors[i]| == BLOCK_SIZE
  }

  /** The guard chain shared by `read_block` and `write_block`, checked in
      the source's order: not initialised, then sector out of range, then a
      short buffer. */
  function CheckRequest(initialized: bool, sectorCount: nat, sector: nat, bufferLength: nat): (r: DiskResult)
    ensures r == Success <==> initialized && sector < sectorCount && bufferLength >= BLOCK_SIZE
    ensures !initialized ==> r == Error
    ensures initialized && sector >= sectorCount ==> r == InvalidSector
    ensures initialized && sector < sectorCount && bufferLength < BLOCK_SIZE ==> r == Error
  {
    if !initialized then Error
    else if sector >= sectorCount then InvalidSector
    else if bufferLength < BLOCK_SIZE then Error
    else Success
  }

  /** `read_block` on values: the caller's buffer afterwards and the
      result.  On success the first 512 bytes are the sector and the rest
      are kept; on any error the buffer is unchanged. */
  function ReadBlockStep(initialized: bool, sectorCount: nat, sectors: seq<seq<byte>>,
                         sector: nat, buffer: seq<byte>): (r: (seq<byte>, DiskResult))
    requires sectorCount <= |sectors| && SectorsSized(sectors)
    ensures r.1 == CheckRequest(initialized, sectorCount, sector, |buffer|)
    ensures r.1 != Success ==> r.0 == buffer
    ensures r.1 == Success ==> |r.0| == |buffer| && r.0[..BLOCK_SIZE] == sectors[sector] &&
                               r.0[BLOCK_SIZE..] == buffer[BLOCK_SIZE..]
  {
    var result := CheckRequest(initialized, sectorCount, sector, |buffer|);
    if result != Success then (buffer, result)
    else (sectors[sector] + buffer[BLOCK_SIZE..], Success)
  }

  /** `write_block` on values: the device afterwards and the result.  On
      success sector `sector` becomes the first 512 bytes of the buffer and
      every other sector is kept; on any error the device is unchanged. */
  function WriteBlockStep(initialized: bool, sectorCount: nat, sectors: seq<seq<byte>>,
                          sector: nat, buffer: seq<byte>): (r: (seq<seq<byte>>, DiskResult))
    requires sectorCount <= |sectors| && SectorsSized(sectors)
    ensures r.1 == CheckRequest(initialized, sectorCount, sector, |buffer|)
    ensures r.1 != Success ==> r.0 == sectors
    ensures r.1 == Success ==> r.0 == sectors[sector := buffer[..BLOCK_SIZE]]
    ensures |r.0| == |sectors| && SectorsSized(r.0)
  {
    var result := CheckRequest(initialized, sectorCount, sector, |buffer|);
    if result != Success then (sectors, result)
    else (sectors[sector := buffer[..BLOCK_SIZE]], Success)
  }

  /** Reading a sector back after a successful write gives the bytes
      written, whatever buffer of at least 512 bytes it is read into. */
  lemma WriteThenRead(initialized: bool, sectorCount: nat, sectors: seq<seq<byte>>,
                      sector: nat, data: seq<byte>, buffer: seq<byte>)
    requires sectorCount <= |sectors| && SectorsSized(sectors)
    requires WriteBlockStep(initialized, sectorCount, sectors, sector, data).1 == Success
    requires |buffer| >= BLOCK_SIZE
    ensures var written := WriteBlockStep(initialized, sectorCount, sectors, sector, data).0;
            var (read, result) := ReadBlockStep(initialized, sectorCount, written, sector, buffer);
            result == Success && read[..BLOCK_SIZE] == data[..BLOCK_SIZE]
  {
  }

  /** A write leaves every other sector readable as before. */
  lemma WriteKeepsOtherSectors(initialized: bool, sectorCount: nat, sectors: seq<seq<byte>>,
                               sector: nat, data: seq<byte>, other: nat, buffer: seq<byte>)
    requires sectorCount <= |sectors| && SectorsSized(sectors)
    requires other != sector
    ensures var written := WriteBlockStep(initialized, sectorCount, sectors, sector, data).0;
            ReadBlockStep(initialized, sectorCount, written, other, buffer) ==
            ReadBlockStep(initialized, sectorCount, sectors, other, buffer)
  {
  }

  /** The driver and the device behind it. */
  class DiskDriver {
    var baseAddress: nat
    var sectorCount: nat
    var initialized: bool
    /** The controller's memory, one entry per sector. */
    var sectors: seq<seq<byte>>

    ghost predicate Valid()
      reads this
    {
      |sectors| == DISK_SECTORS && sectorCount <= |sectors| && SectorsSized(sectors)
    }

    /** `DiskDriver::new` in front of a device holding `device`. */
    constructor (device: seq<seq<byte>>)
      requires |device| == DISK_SECTORS && SectorsSized(device)
      ensures Valid() && sectors == device
      ensures baseAddress == DISK_BASE && sectorCount == 0 && !initialized
    {
      baseAddress := DISK_BASE;
      sectorCount := 0;
      initialized := false;
      sectors := device;
    }

    /** `init`: 1024 sectors, ready for requests. */
    method Init() returns (r: DiskResult)
      requires Valid()
      modifies this
      ensures Valid() && r == Success
      ensures sectorCount == DISK_SECTORS && initialized
      ensures baseAddress == old(baseAddress) && sectors == old(sectors)
    {
      sectorCount := DISK_SECTORS;
      initialized := true;
      r := Success;
    }

    /** `read_block`: proved against `ReadBlockStep`. */
    method ReadBlock(sector: nat, buffer: array<byte>) returns (r: DiskResult)
      requires Valid()
      modifies buffer
      ensures Valid()
      ensures (buffer[..], r) == ReadBlockStep(initialized, sectorCount, sectors, sector, old(buffer[..]))
    {
      if !initialized {
        return Error;
      }
      if sector >= sectorCount {
        return InvalidSector;
      }
      if buffer.Length < BLOCK_SIZE {
        return Error;
      }
      var data := sectors[sector];
      var i := 0;
      while i < BLOCK_SIZE
        invariant 0 <= i <= BLOCK_SIZE
        invariant forall k :: 0 <= k < i ==> buffer[k] == data[k]
        invariant forall k :: i <= k < buffer.Length ==> buffer[k] == old(buffer[k])
      {
        buffer[i] := data[i];
        i := i + 1;
      }
      assert buffer[..] == data + old(buffer[..])[BLOCK_SIZE..];
      r := Success;
    }

    /** `write_block`: proved against `WriteBlockStep`. */
    method WriteBlock(sector: nat, buffer: array<byte>) returns (r: DiskResult)
      requires Valid()
      modifies this
      ensures Valid()
      ensures (sectors, r) == WriteBlockStep(initialized, sectorCount, old(sectors), sector, buffer[..])
      ensures baseAddress == old(baseAddress) && sectorCount == old(sectorCount) && initialized == old(initialized)
    {
      if !initialized {
        return Error;
      }
      if sector >= sectorCount {
        return InvalidSector;
      }
      if buffer.Length < BLOCK_SIZE {
        return Error;
      }
      sectors := sectors[sector := buffer[..BLOCK_SIZE]];
      r := Success;
    }

    /** `get_info`: the sector count and the block size. */
    function GetInfo(): (info: (nat, nat))
      reads this
      ensures info.0 == sectorCount && info.1 == BLOCK_SIZE
    {
      (sectorCount, BLOCK_SIZE)
    }
  }
}
