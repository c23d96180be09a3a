/**
 * Human-readable file sizes: the unit is the largest of B, KB, MB, GB that the size
 * reaches, and the amount is the size divided by that unit. Division is exact here;
 * the one-decimal rendering of the amount is not modelled.
 */
module FileSize {

  const UnitNames: seq<string> := ["B", "KB", "MB", "GB"]

  /** "0 B", or an amount followed by UnitNames[unit]. */
  datatype SizeText = ZeroBytes | Amount(value: real, unit: nat)

  function Pow1024(k: nat): (p: nat)
    ensures p >= 1
  {
    if k == 0 then 1 else 1024 * Pow1024(k - 1)
  }

  /** The unit a non-zero size is shown in. */
  function UnitIndex(size: int): nat {
    if size >= Pow1024(3) then 3
    else if size >= Pow1024(2) then 2
    else if size >= Pow1024(1) then 1
    else 0
  }

  /** The reading of a size in bytes, as the status message and upload replies show it. */
  function FileSizeText(size: int): SizeText {
    if size == 0 then ZeroBytes
    else Amount(size as real / Pow1024(UnitIndex(size)) as real, UnitIndex(size))
  }

  /** `format_file_size`'s loop: divide by 1024 while the amount still reaches 1024 and a
      larger unit exists. */
  method FormatFileSize(sizeBytes: int) returns (r: SizeText)
    ensures r == FileSizeText(sizeBytes)
  {
    if sizeBytes == 0 {
      return ZeroBytes;
    }
    var size: real := sizeBytes as real;
    var i: nat := 0;
    while size >= 1024.0 && i < |UnitNames| - 1
      invariant i <= 3
      invariant size * Pow1024(i) as real == sizeBytes as real
      invariant i > 0 ==> sizeBytes >= Pow1024(i)
      decreases 3 - i
    {
      PowStep(i);
      size := size / 1024.0;
      i := i + 1;
    }
    if i < 3 {
      PowStep(i);
      assert sizeBytes as real < 1024.0 * Pow1024(i) as real;
    }
    r := Amount(size, i);
  }

  lemma PowStep(k: nat)
    ensures Pow1024(k + 1) == 1024 * Pow1024(k)
  {
  }

  /** The unit is the largest one, up to GB, that a positive size reaches; sizes below
      1 KB, negative ones included, are shown in bytes. */
  lemma UnitIsLargestReached(size: int, k: nat)
    requires k <= 3
    ensures UnitIndex(size) <= 3
    ensures size >= 1 ==> Pow1024(UnitIndex(size)) <= size
    ensures UnitIndex(size) < k ==> size < Pow1024(k)
  {
  }

  /** A positive size below 1024 GB reads as an amount in [1, 1024) of its unit; beyond
      that the unit stays GB and the amount is at least 1024. */
  lemma AmountInRange(size: int)
    requires size >= 1
    ensures FileSizeText(size).Amount?
    ensures FileSizeText(size).value >= 1.0
    ensures size < Pow1024(4) ==> FileSizeText(size).value < 1024.0
    ensures size >= Pow1024(4) ==> FileSizeText(size).unit == 3 && FileSizeText(size).value >= 1024.0
  {
    var k := UnitIndex(size);
    var p := Pow1024(k) as real;
    var v := size as real / p;
    assert v * p == size as real;
    assert size as real >= p;
    PowStep(k);
    if size >= Pow1024(4) {
      PowStep(3);
      assert size as real >= 1024.0 * p;
    }
    if size < Pow1024(4) {
      assert size < 1024 * Pow1024(k);
      assert v * p < 1024.0 * p;
    }
  }

  /** 1,536,000 bytes is 1.46484375 MB, which the server prints as "1.5 MB". */
  lemma ExampleMegabytes()
    ensures FileSizeText(1536000) == Amount(1.46484375, 2)
    ensures UnitNames[FileSizeText(1536000).unit] == "MB"
  {
    assert Pow1024(2) == 1048576;
    assert Pow1024(3) == 1073741824;
  }
}
