/** The work item a client sends to the server: a data buffer, its checksum and a name. */
module ChecksumItem {
  import opened Checksum
  import opened Detection
  import opened Wrappers

  const DATA_LEN: nat := 512
  const NAME_LEN: nat := 30

  // What `strncpy` leaves in a field of n characters: the name cut to fit, padded with NULs. A name that
  // fills the field has no terminator.
  function CopiedName(name: string, n: nat): (field: string)
    ensures |field| == n
    ensures forall i :: 0 <= i < n ==> field[i] == if i < |name| then name[i] else '\0'
  {
    if |name| >= n then name[..n] else name + seq(n - |name|, _ => '\0')
  }

  // The buffer a constructor call leaves behind: the given bytes, then zeros.
  function Filled(data: Option<seq<bv8>>, dataLen: nat): (d: seq<bv8>)
    requires dataLen <= DATA_LEN && (data.Some? ==> dataLen <= |data.value|)
    ensures |d| == DATA_LEN
    ensures forall i :: 0 <= i < DATA_LEN ==> d[i] == if data.Some? && i < dataLen then data.value[i] else 0
  {
    if data.None? then seq(DATA_LEN, _ => 0) else data.value[..dataLen] + seq(DATA_LEN - dataLen, _ => 0)
  }

  class WorkItem {
    const data: array<bv8>
    const name: array<char>
    var checksum: bv16

    ghost predicate Valid()
      reads this
    {
      data.Length == DATA_LEN && name.Length == NAME_LEN
    }

    // The constructed item holds the bytes and the name, and validates.
    constructor (name: string, bytes: Option<seq<bv8>>, dataLen: nat)
      requires dataLen <= DATA_LEN && (bytes.Some? ==> dataLen <= |bytes.value|)
      ensures Valid() && fresh(data) && fresh(this.name) && data.Length == 512 && this.name.Length == 30
      ensures data[..] == Filled(bytes, dataLen)
      ensures forall i :: 0 <= i < DATA_LEN ==> data[i] == if bytes.Some? && i < dataLen then bytes.value[i] else 0
      ensures this.name[..] == CopiedName(name, NAME_LEN)
      ensures forall i :: 0 <= i < NAME_LEN ==> this.name[i] == if i < |name| then name[i] else '\0'
      ensures checksum == Sum(data[..])
    {
      var field := CopiedName(name, NAME_LEN);
      data := new bv8[DATA_LEN](_ => 0);
      this.name := new char[NAME_LEN](i requires 0 <= i < NAME_LEN => field[i]);
      checksum := 0;
      new;
      if bytes.Some? {
        for i := 0 to dataLen
          modifies data
          invariant forall j :: 0 <= j < i ==> data[j] == bytes.value[j]
          invariant forall j :: i <= j < DATA_LEN ==> data[j] == 0
        {
          data[i] := bytes.value[i];
        }
      }
      assert data[..] == Filled(bytes, dataLen);
      checksum := GenerateChecksum();
    }

    method GenerateChecksum() returns (sum: bv16)
      requires Valid()
      ensures sum == Sum(data[..])
    {
      var result: bv32 := 0;
      var words := data.Length / 4;
      for i := 0 to words
        invariant result == XorWords(Words(data[..])[..i])
      {
        ghost var ws := Words(data[..]);
        assert ws[..i + 1][..i] == ws[..i];
        var word := ReadWord(i);
        result := Xor32(result, word);
      }
      assert Words(data[..])[..words] == Words(data[..]);
      sum := RotateAndFold(result);
    }

    // The four bytes the word pointer covers, low byte first.
    method ReadWord(i: nat) returns (word: bv32)
      requires Valid() && 4 * i + 3 < data.Length
      ensures word == Word(data[..], i)
    {
      word := (data[4 * i] as bv32) | ((data[4 * i + 1] as bv32) << 8)
           | ((data[4 * i + 2] as bv32) << 16) | ((data[4 * i + 3] as bv32) << 24);
    }

    // Whether the data still has the checksum the item was built with.
    method Validate() returns (ok: bool)
      requires Valid()
      ensures ok == (Sum(data[..]) == checksum)
    {
      var target := GenerateChecksum();
      ok := target == checksum;
    }
  }

  // The program rotates by testing the top bit before it shifts.
  method RotateAndFold(x: bv32) returns (sum: bv16)
    ensures sum == Finish(x)
  {
    var result := x ^ PATTERN;
    if result & 0x8000_0000 != 0 {
      result := result << 1;
      result := result | 1;
    } else {
      result := result << 1;
    }
    sum := (0xFFFF & ((result >> 16) ^ result)) as bv16;
  }

  // What the server does with a received item: built by a client, changed on the way, and validated.
  method BuildChangeValidate(name: string, bytes: seq<bv8>, changed: seq<bv8>) returns (ok: bool)
    requires |bytes| <= DATA_LEN && |changed| == DATA_LEN
    ensures ok <==> EvenColumns(Filled(Some(bytes), |bytes|), changed)
  {
    var item := new WorkItem(name, Some(bytes), |bytes|);
    for i := 0 to DATA_LEN
      modifies item.data
      invariant forall j :: 0 <= j < i ==> item.data[j] == changed[j]
    {
      item.data[i] := changed[i];
    }
    assert item.data[..] == changed;
    AcceptedIffEvenColumns(Filled(Some(bytes), |bytes|), changed);
    ok := item.Validate();
  }
}
