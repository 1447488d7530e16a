/**
  The image directory: `tmp/` with its .part and .aria2 files and the
  content-addressed `blobs/`. Files are keyed by digest; NamesApart justifies that.
 */
module Storage {
  import opened Basics

  newtype byte = x: int | 0 <= x < 256

  type Bytes = seq<byte>

  /** A parsed content digest, "algorithm:hex". */
  datatype Digest = Digest(algorithm: string, hex: string)

  /** The digest functions, given as one parameter: algorithm and data to hex. */
  type Hasher = (string, Bytes) -> string

  predicate SupportedAlgorithm(algorithm: string) {
    algorithm == "sha256" || algorithm == "sha512"
  }

  /** What verify.Blob accepts: exactly this size and exactly this digest. */
  predicate Verified(hash: Hasher, data: Bytes, d: Digest, size: int) {
    && |data| == size
    && SupportedAlgorithm(d.algorithm)
    && hash(d.algorithm, data) == d.hex
  }

  /** Status of an object task, as kept in state.json. */
  datatype Status = Pending | Downloading | Committed | Failed

  datatype Disk = Disk(
    part: map<Digest, Bytes>,   // tmp/<algorithm>_<hex>.part
    ctl: set<Digest>,           // tmp/<algorithm>_<hex>.part.aria2
    blob: map<Digest, Bytes>)   // blobs/<algorithm>/<hex>
  {
    function RemovePart(d: Digest): Disk { this.(part := part - {d}) }

    function RemoveCtl(d: Digest): Disk { this.(ctl := ctl - {d}) }

    function RemoveBlob(d: Digest): Disk { this.(blob := blob - {d}) }

    function PutBlob(d: Digest, data: Bytes): Disk { this.(blob := blob[d := data]) }

    /** os.Rename of the .part onto the blob path. */
    function Promote(d: Digest): Disk
      requires d in part
    {
      this.(blob := blob[d := part[d]], part := part - {d})
    }

    /** aria2 writing at the end of a .part, creating it when it is missing. */
    function Append(d: Digest, data: Bytes): Disk {
      this.(part := part[d := (if d in part then part[d] else []) + data], ctl := ctl + {d})
    }
  }

  const EMPTY_DISK := Disk(map[], {}, map[])

  function PartName(d: Digest): string { d.algorithm + ['_'] + d.hex + ".part" }

  /** The file aria2 keeps beside a .part. */
  function ControlName(d: Digest): string { PartName(d) + ".aria2" }

  function BlobName(d: Digest): string { d.algorithm + ['/'] + d.hex }

  /** Different digests have different files, and no control file is another's .part. */
  lemma NamesApart(d: Digest, e: Digest)
    requires '_' !in d.algorithm && '/' !in d.algorithm && '_' !in e.algorithm && '/' !in e.algorithm
    ensures PartName(d) == PartName(e) ==> d == e
    ensures BlobName(d) == BlobName(e) ==> d == e
    ensures ControlName(d) != PartName(e)
  {
    if PartName(d) == PartName(e) { Split(d, e, '_', ".part"); }
    if BlobName(d) == BlobName(e) {
      assert BlobName(d) + "" == BlobName(d) && BlobName(e) + "" == BlobName(e);
      Split(d, e, '/', "");
    }
    var c, p := ControlName(d), PartName(e);
    assert c[|c| - 1] == '2' && p[|p| - 1] == 't';
  }

  lemma Split(d: Digest, e: Digest, sep: char, end: string)
    requires sep !in d.algorithm && sep !in e.algorithm
    requires d.algorithm + [sep] + d.hex + end == e.algorithm + [sep] + e.hex + end
    ensures d == e
  {
    var s, t := d.algorithm + [sep] + (d.hex + end), e.algorithm + [sep] + (e.hex + end);
    Regroup(d, sep, end);
    Regroup(e, sep, end);
    assert s == t;
    FindAfter(d.algorithm, sep, d.hex + end);
    FindAfter(e.algorithm, sep, e.hex + end);
    var k := |d.algorithm|;
    assert s[..k] == d.algorithm && t[..k] == e.algorithm;
    assert s[k + 1..] == d.hex + end && t[k + 1..] == e.hex + end;
    assert d.hex == (d.hex + end)[..|d.hex|] && e.hex == (e.hex + end)[..|e.hex|];
  }

  lemma Regroup(d: Digest, sep: char, end: string)
    ensures d.algorithm + [sep] + (d.hex + end) == d.algorithm + [sep] + d.hex + end
  {
  }
}
