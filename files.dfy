/**
 * The uploads folder (`store.UPLOADS_DIR`): one sub-folder per order, holding the
 * customer's files and the generated ones, and the two `pathlib` attributes the
 * fulfilment routine reads off a file name.
 */
module Files {
  import opened Text

  type Bytes = seq<bv8>

  /** `Path(name).suffix`: from the last dot on, unless that dot is the first or the last character. */
  function Suffix(name: string): (r: string)
    ensures r == [] || (r[0] == '.' && |r| >= 2)
    ensures StartsWith(r, ".") ==> forall j :: 1 <= j < |r| ==> r[j] != '.'
  {
    var i := LastIndexOf(name, '.');
    if 0 < i < |name| - 1 then name[i..] else ""
  }

  /** `Path(name).stem`: the name without its suffix. */
  function Stem(name: string): string {
    var i := LastIndexOf(name, '.');
    if 0 < i < |name| - 1 then name[..i] else name
  }

  /** The stem and the suffix split the name. */
  lemma StemSuffixSplit(name: string)
    ensures Stem(name) + Suffix(name) == name
  {
    var i := LastIndexOf(name, '.');
    if 0 < i < |name| - 1 {
      assert name[..i] + name[i..] == name;
    }
  }

  /** A name made of a non-empty head and a dotted extension has that extension as suffix. */
  lemma SuffixOfDotted(head: string, ext: string)
    requires head != [] && |ext| >= 1 && forall j :: 0 <= j < |ext| ==> ext[j] != '.'
    ensures Suffix(head + "." + ext) == "." + ext
    ensures Stem(head + "." + ext) == head
  {
    var name := head + "." + ext;
    var i := |head|;
    assert name[i] == '.';
    assert forall j :: i < j < |name| ==> name[j] == ext[j - i - 1];
    LastIndexAtLeast(name, '.', i);
    var k := LastIndexOf(name, '.');
    assert k == i;
    assert name[i..] == "." + ext;
    assert name[..i] == head;
  }

  lemma LastIndexAtLeast(s: string, c: char, i: int)
    requires 0 <= i < |s| && s[i] == c
    requires forall j :: i < j < |s| ==> s[j] != c
    ensures LastIndexOf(s, c) == i
  {
  }

  /** The uploads folder's contents, keyed by (order id, file name). */
  class UploadsDir {
    var files: map<(string, string), Bytes>

    constructor (initial: map<(string, string), Bytes>)
      ensures files == initial
    {
      files := initial;
    }

    /** `path.exists()` for `UPLOADS_DIR / orderId / name`. */
    function Exists(orderId: string, name: string): (r: bool)
      reads this
      ensures r <==> (orderId, name) in files
    {
      (orderId, name) in files
    }

    /** `path.write_bytes(data)`: creates or overwrites one file. */
    method WriteBytes(orderId: string, name: string, data: Bytes)
      modifies this
      ensures files == old(files)[(orderId, name) := data]
    {
      files := files[(orderId, name) := data];
    }
  }
}
