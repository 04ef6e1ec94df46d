/** The byte sources and sinks that packets are decoded from and encoded to. */
module Streams {
  import opened Bytes

  /** A buffered reader over input that ends in end-of-file. */
  class Reader {
    var data: bytes
    var pos: nat

    ghost predicate Valid()
      reads this
    {
      pos <= |data|
    }

    /** What is still to be read. */
    ghost function Rest(): bytes
      reads this
      requires Valid()
    {
      data[pos..]
    }

    constructor (data: bytes)
      ensures Valid() && Rest() == data
    {
      this.data := data;
      pos := 0;
    }

    method ReadByte() returns (r: Result<byte>)
      requires Valid()
      modifies this
      ensures Valid()
      ensures old(Rest()) == [] ==> r == Err(EOF) && Rest() == []
      ensures old(Rest()) != [] ==> r == Ok(old(Rest())[0]) && Rest() == old(Rest())[1..]
    {
      if pos == |data| {
        return Err(EOF);
      }
      r := Ok(data[pos]);
      pos := pos + 1;
    }

    /** Fills a buffer of `n` bytes or fails; a failed read uses up the input. */
    method ReadFull(n: nat) returns (r: Result<bytes>)
      requires Valid()
      modifies this
      ensures Valid()
      ensures (r, Rest()) == FillFrom(old(Rest()), n)
    {
      assert |Rest()| == |data| - pos;
      if |data| - pos < n {
        r := Err(if pos == |data| then EOF else UnexpectedEOF);
        pos := |data|;
        assert Rest() == [];
      } else {
        r := Ok(data[pos..pos + n]);
        assert old(Rest())[..n] == data[pos..pos + n];
        pos := pos + n;
        assert Rest() == old(Rest())[n..];
      }
    }
  }

  function FillFrom(s: bytes, n: nat): (Result<bytes>, bytes) {
    if |s| < n then (Err(if s == [] then EOF else UnexpectedEOF), []) else (Ok(s[..n]), s[n..])
  }

  /** A sink that never fails, such as `bytes.Buffer`. */
  class Writer {
    var out: bytes

    constructor ()
      ensures out == []
    {
      out := [];
    }

    method Write(b: bytes)
      modifies this
      ensures out == old(out) + b
    {
      out := out + b;
    }
  }
}
