/**
  Checking a file against its digest and size: the size first, then the digest of
  the bytes streamed through a hash in chunks.
 */
module Verify {
  import opened Basics
  import opened Storage

  datatype Error = Missing | ReadFailed | WrongSize | UnsupportedAlgorithm | WrongDigest

  const BUFFER := 0x10_0000

  /** A hash being computed: what it has absorbed decides its sum. */
  class Hash {
    const algorithm: string
    var absorbed: Bytes

    constructor (algorithm: string)
      ensures this.algorithm == algorithm && absorbed == []
    {
      this.algorithm, absorbed := algorithm, [];
    }

    method Write(chunk: Bytes)
      modifies this
      ensures absorbed == old(absorbed) + chunk
    {
      absorbed := absorbed + chunk;
    }

    function Sum(hash: Hasher): string
      reads this
    {
      hash(algorithm, absorbed)
    }
  }

  /** FileDigest. Reads may be short; fails tells whether one of them will fail. */
  method FileDigest(hash: Hasher, file: Option<Bytes>, algorithm: string, fails: bool)
    returns (r: Result<string, Error>)
    ensures r.Success? <==> (algorithm == "sha256" || algorithm == "sha512") && file.Some? && !fails
    ensures r.Success? ==> r.value == hash(algorithm, file.value)
    ensures r.Failure? ==> r.error == if algorithm != "sha256" && algorithm != "sha512" then UnsupportedAlgorithm
                                      else if file.None? then Missing else ReadFailed
  {
    if algorithm != "sha256" && algorithm != "sha512" { return Failure(UnsupportedAlgorithm); }
    if file.None? { return Failure(Missing); }
    var data := file.value;
    var h := new Hash(algorithm);
    var at := 0;
    while at < |data|
      invariant 0 <= at <= |data| && h.absorbed == data[..at]
    {
      var now: bool := *;
      if fails && now { return Failure(ReadFailed); }
      var n: int :| 1 <= n <= BUFFER && at + n <= |data|;
      h.Write(data[at..at + n]);
      at := at + n;
    }
    if fails { return Failure(ReadFailed); }
    assert data[..|data|] == data;
    return Success(h.Sum(hash));
  }

  /** Blob: accepts exactly the readable files of this size and digest, and says of
      any other what is wrong with it first. */
  method Blob(hash: Hasher, file: Option<Bytes>, d: Digest, size: int, fails: bool) returns (err: Option<Error>)
    ensures err.None? ==> file.Some? && |file.value| == size && hash(d.algorithm, file.value) == d.hex
    ensures err.None? ==> !fails && (d.algorithm == "sha256" || d.algorithm == "sha512")
    ensures err == Some(Missing) <==> file.None?
    ensures err == Some(WrongSize) <==> file.Some? && |file.value| != size
    ensures err == Some(UnsupportedAlgorithm) <==>
            file.Some? && |file.value| == size && d.algorithm != "sha256" && d.algorithm != "sha512"
    ensures err == Some(ReadFailed) <==>
            file.Some? && |file.value| == size && (d.algorithm == "sha256" || d.algorithm == "sha512") && fails
    ensures err == Some(WrongDigest) <==>
            file.Some? && |file.value| == size && (d.algorithm == "sha256" || d.algorithm == "sha512") && !fails &&
            hash(d.algorithm, file.value) != d.hex
    ensures err.None? <==> file.Some? && Verified(hash, file.value, d, size) && !fails
  {
    if file.None? { return Some(Missing); }
    if |file.value| != size { return Some(WrongSize); }
    var sum := FileDigest(hash, file, d.algorithm, fails);
    match sum
    case Failure(e) => return Some(e);
    case Success(hex) =>
      if hex != d.hex { return Some(WrongDigest); }
      return None;
  }
}
