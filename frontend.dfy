/**
 * The pure parts of script.js: the upload filter `filterValidFiles`, the size label
 * `formatSize`, and the empty-field guard that `goToCheckout` applies before it posts
 * the form to `POST /pet`.
 */
module Frontend {
  import opened Wrappers
  import opened Text
  import opened Seqs
  import Routes

  const MaxFiles := 5
  const MaxFileBytes := 10 * 1024 * 1024
  const ImageTypePrefix := "image/"
  const CountAlert := "Máximo 5 imagens. Serão usadas as primeiras 5."
  const SizeAlertSuffix := " tem mais de 10 MB e foi ignorado."
  const EmptyFieldAlert := "Preencha o nome do pet e o email."

  /** A browser `File`: its name, MIME type and size in bytes. */
  datatype JsFile = JsFile(name: string, mimeType: string, size: nat)

  predicate IsImageFile(f: JsFile) {
    StartsWith(f.mimeType, ImageTypePrefix)
  }

  // ---------------------------------------------------------------------------
  // filterValidFiles

  /** `files.filter((f) => f.type.startsWith("image/"))`. */
  function ImageFiles(files: seq<JsFile>): (r: seq<JsFile>)
    ensures forall f :: f in r <==> f in files && IsImageFile(f)
  {
    if files == [] then []
    else if IsImageFile(files[0]) then [files[0]] + ImageFiles(files[1..])
    else ImageFiles(files[1..])
  }

  /** `list.filter((f) => f.size <= MAX_FILE_BYTES)`. */
  function SmallFiles(list: seq<JsFile>): (r: seq<JsFile>)
    ensures forall f :: f in r <==> f in list && f.size <= MaxFileBytes
  {
    if list == [] then []
    else if list[0].size <= MaxFileBytes then [list[0]] + SmallFiles(list[1..])
    else SmallFiles(list[1..])
  }

  /** `list.find((f) => f.size > MAX_FILE_BYTES)`. */
  function FirstTooBig(list: seq<JsFile>): (r: Option<JsFile>)
    ensures r.None? <==> forall i :: 0 <= i < |list| ==> list[i].size <= MaxFileBytes
    ensures r.Some? ==> exists i :: (0 <= i < |list| && list[i] == r.value && r.value.size > MaxFileBytes
      && forall j :: 0 <= j < i ==> list[j].size <= MaxFileBytes)
  {
    if list == [] then None
    else if list[0].size > MaxFileBytes then Some(list[0])
    else
      var r := FirstTooBig(list[1..]);
      assert forall i :: 1 <= i < |list| ==> list[i] == list[1..][i - 1];
      if r.Some? then
        var k :| 0 <= k < |list| - 1 && list[1..][k] == r.value && r.value.size > MaxFileBytes
          && forall j :: 0 <= j < k ==> list[1..][j].size <= MaxFileBytes;
        assert list[k + 1] == r.value && forall j :: 0 <= j < k + 1 ==> list[j].size <= MaxFileBytes;
        r
      else r
  }

  lemma {:induction false} ImageFilesSubseq(files: seq<JsFile>)
    ensures Subseq(ImageFiles(files), files)
  {
    if files != [] {
      ImageFilesSubseq(files[1..]);
      if IsImageFile(files[0]) {
        assert ([files[0]] + ImageFiles(files[1..]))[1..] == ImageFiles(files[1..]);
      } else {
        SubseqSkip(ImageFiles(files[1..]), files[1..], files[0]);
        assert [files[0]] + files[1..] == files;
      }
    }
  }

  lemma {:induction false} SmallFilesSubseq(list: seq<JsFile>)
    ensures Subseq(SmallFiles(list), list)
  {
    if list != [] {
      SmallFilesSubseq(list[1..]);
      if list[0].size <= MaxFileBytes {
        assert ([list[0]] + SmallFiles(list[1..]))[1..] == SmallFiles(list[1..]);
      } else {
        SubseqSkip(SmallFiles(list[1..]), list[1..], list[0]);
        assert [list[0]] + list[1..] == list;
      }
    }
  }

  lemma {:induction false} ImageFilesAllImages(files: seq<JsFile>)
    requires forall i :: 0 <= i < |files| ==> IsImageFile(files[i])
    ensures ImageFiles(files) == files
  {
    if files != [] {
      ImageFilesAllImages(files[1..]);
      assert [files[0]] + files[1..] == files;
    }
  }

  lemma {:induction false} SmallFilesAllSmall(list: seq<JsFile>)
    requires forall i :: 0 <= i < |list| ==> list[i].size <= MaxFileBytes
    ensures SmallFiles(list) == list
  {
    if list != [] {
      SmallFilesAllSmall(list[1..]);
      assert [list[0]] + list[1..] == list;
    }
  }

  lemma {:induction false} SmallFilesShorter(list: seq<JsFile>)
    ensures |SmallFiles(list)| <= |list|
  {
    if list != [] {
      SmallFilesShorter(list[1..]);
    }
  }

  /** The files kept and the alert shown, if any. */
  datatype Filtered = Filtered(kept: seq<JsFile>, alert: Option<string>)

  /** `filterValidFiles`. */
  function FilterValidFiles(files: seq<JsFile>): Filtered {
    var list := ImageFiles(files);
    if |list| > MaxFiles then Filtered(list[..MaxFiles], Some(CountAlert))
    else
      match FirstTooBig(list)
      case Some(tooBig) => Filtered(SmallFiles(list), Some(tooBig.name + SizeAlertSuffix))
      case None => Filtered(list, None)
  }

  /** Whatever the input, the result is a subsequence of it, made of images, at most five. */
  lemma FilterValidFilesShape(files: seq<JsFile>)
    ensures var r := FilterValidFiles(files).kept;
      && Subseq(r, files)
      && (forall f :: f in r ==> f in files && IsImageFile(f))
      && |r| <= MaxFiles
  {
    var list := ImageFiles(files);
    ImageFilesSubseq(files);
    if |list| > MaxFiles {
      PrefixSubseq(list, MaxFiles);
      SubseqTrans(list[..MaxFiles], list, files);
      assert forall f :: f in list[..MaxFiles] ==> f in list;
    } else {
      SmallFilesSubseq(list);
      SubseqTrans(SmallFiles(list), list, files);
      SmallFilesShorter(list);
    }
  }

  /** With more than five images, the count cap wins: the first five are kept, sizes unchecked. */
  lemma CountCapWins(files: seq<JsFile>)
    requires |ImageFiles(files)| > MaxFiles
    ensures FilterValidFiles(files) == Filtered(ImageFiles(files)[..MaxFiles], Some(CountAlert))
  {
  }

  /**
   * With five images or fewer, exactly the images of at most 10 MB are kept; the alert
   * names the first image over the limit, and there is none when every image fits.
   */
  lemma SizeFilterWhenFew(files: seq<JsFile>)
    requires |ImageFiles(files)| <= MaxFiles
    ensures var r := FilterValidFiles(files);
      && (forall f :: f in r.kept <==> f in files && IsImageFile(f) && f.size <= MaxFileBytes)
      && (r.alert.None? <==> forall f :: f in files && IsImageFile(f) ==> f.size <= MaxFileBytes)
      && (r.alert.None? ==> r.kept == ImageFiles(files))
      && (r.alert.Some? ==> exists i :: (0 <= i < |ImageFiles(files)| && ImageFiles(files)[i].size > MaxFileBytes
            && r.alert.value == ImageFiles(files)[i].name + SizeAlertSuffix
            && forall j :: 0 <= j < i ==> ImageFiles(files)[j].size <= MaxFileBytes))
  {
    var list := ImageFiles(files);
    if FirstTooBig(list).None? {
      SmallFilesAllSmall(list);
      assert forall f :: f in list ==> f.size <= MaxFileBytes;
    } else {
      var k :| 0 <= k < |list| && list[k] == FirstTooBig(list).value;
      assert list[k] in files && IsImageFile(list[k]);
    }
  }

  /**
   * Because the cap wins, an oversized image among the first five of six reaches the form:
   * the filter does not rule out the server's "at most 10 MB" refusal.
   */
  lemma OversizedImageCanPassFilter()
    ensures var big := JsFile("grande.png", "image/png", MaxFileBytes + 1);
      var small := JsFile("p.png", "image/png", 1);
      var files := [big, small, small, small, small, small];
      big in FilterValidFiles(files).kept
  {
    var big := JsFile("grande.png", "image/png", MaxFileBytes + 1);
    var small := JsFile("p.png", "image/png", 1);
    var files := [big, small, small, small, small, small];
    assert IsImageFile(big) && IsImageFile(small);
    ImageFilesAllImages(files);
    assert FilterValidFiles(files).kept == files[..MaxFiles];
  }

  // ---------------------------------------------------------------------------
  // formatSize

  /**
   * `formatSize(bytes)`. `bytes / 1024` and `bytes / 1048576` are exact in binary
   * floating point, so `toFixed(1)` yields the tenths rounded half up.
   */
  function FormatSize(bytes: nat): string {
    if bytes < 1024 then Decimal(bytes) + " B"
    else if bytes < 1024 * 1024 then Tenths(RoundedTenths(bytes, 1024)) + " KB"
    else Tenths(RoundedTenths(bytes, 1024 * 1024)) + " MB"
  }

  /** The integer nearest to `10 * bytes / unit`, ties upwards (what `toFixed(1)` rounds to, in tenths). */
  function RoundedTenths(bytes: nat, unit: nat): (n: nat)
    requires unit > 0
    ensures 10 * bytes <= n * unit + unit / 2 && n * unit <= 10 * bytes + unit / 2
  {
    (10 * bytes + unit / 2) / unit
  }

  /** `n / 10` written with one decimal: the integer part, a dot, the tenths digit. */
  function Tenths(n: nat): string {
    Decimal(n / 10) + "." + [Digit(n % 10)]
  }

  /** Under 1 KB the label is the exact byte count, which reads back as that count. */
  lemma FormatSizeBytes(bytes: nat)
    requires bytes < 1024
    ensures var shown := FormatSize(bytes);
      var digits := shown[..|shown| - 2];
      && shown == digits + " B"
      && (forall i :: 0 <= i < |digits| ==> '0' <= digits[i] <= '9')
      && DecimalValue(digits) == bytes
  {
    var shown := FormatSize(bytes);
    assert shown[..|shown| - 2] == Decimal(bytes);
    DecimalRoundTrip(bytes);
  }

  /** A one-decimal label reads back as its number of tenths. */
  lemma TenthsRoundTrip(n: nat)
    ensures var t := Tenths(n);
      var whole := t[..|t| - 2];
      && |t| >= 3 && t[|t| - 2] == '.' && '0' <= t[|t| - 1] <= '9'
      && (forall i :: 0 <= i < |whole| ==> '0' <= whole[i] <= '9')
      && DecimalValue(whole) * 10 + (t[|t| - 1] as int - '0' as int) == n
  {
    var t := Tenths(n);
    assert t[..|t| - 2] == Decimal(n / 10);
    DecimalRoundTrip(n / 10);
  }

  /**
   * From 1 KB on, the label is a number of tenths of the unit, off from the exact size by at
   * most half a tenth, and at least 1.0 of that unit.
   */
  lemma FormatSizeScaled(bytes: nat)
    requires bytes >= 1024
    ensures var unit := if bytes < 1024 * 1024 then 1024 else 1024 * 1024;
      var suffix := if bytes < 1024 * 1024 then " KB" else " MB";
      && FormatSize(bytes) == Tenths(RoundedTenths(bytes, unit)) + suffix
      && 10 * bytes <= RoundedTenths(bytes, unit) * unit + unit / 2
      && RoundedTenths(bytes, unit) * unit <= 10 * bytes + unit / 2
      && RoundedTenths(bytes, unit) >= 10
  {
    var unit := if bytes < 1024 * 1024 then 1024 else 1024 * 1024;
    var n := RoundedTenths(bytes, unit);
    assert unit <= bytes;
    assert 10 * unit <= 10 * bytes;
  }

  /** Rounding carries a size just under 1 MB up to "1024.0 KB" rather than to "1.0 MB". */
  lemma JustUnderOneMegabyte()
    ensures FormatSize(1024 * 1024 - 1) == "1024.0 KB"
  {
    assert RoundedTenths(1024 * 1024 - 1, 1024) == 10240;
    assert Decimal(1024) == "1024" by {
      assert Decimal(1) == "1";
      assert Decimal(10) == "10";
      assert Decimal(102) == "102";
    }
  }

  // ---------------------------------------------------------------------------
  // goToCheckout

  /** The fields `goToCheckout` appends to the FormData. */
  datatype PetForm = PetForm(petName: string, userEmail: string, files: seq<JsFile>)

  /** The guard of `goToCheckout`: the trimmed fields, or the alert when either is empty. */
  function CheckoutForm(petNameInput: string, userEmailInput: string, selected: seq<JsFile>): Result<PetForm, string> {
    var petName := JsTrim(petNameInput);
    var userEmail := JsTrim(userEmailInput);
    if petName == "" || userEmail == "" then Err(EmptyFieldAlert)
    else Ok(PetForm(petName, userEmail, selected))
  }

  /**
   * A form is sent exactly when both trimmed fields are non-empty; it then carries the
   * trimmed inputs, which trimming again leaves as they are.
   */
  lemma CheckoutFormGuard(petNameInput: string, userEmailInput: string, selected: seq<JsFile>)
    ensures var r := CheckoutForm(petNameInput, userEmailInput, selected);
      && (r.Ok? <==> JsTrim(petNameInput) != "" && JsTrim(userEmailInput) != "")
      && (r.Ok? ==> r.value == PetForm(JsTrim(petNameInput), JsTrim(userEmailInput), selected))
      && (r.Ok? ==> JsTrim(r.value.petName) == r.value.petName && JsTrim(r.value.userEmail) == r.value.userEmail)
  {
    StripIdempotent(petNameInput, JsWhitespace);
    StripIdempotent(userEmailInput, JsWhitespace);
  }

  /**
   * A form built from the filter's selection never carries more files than the server
   * accepts, so `POST /pet` does not answer "at most 5 images" to this page.
   */
  lemma FormWithinServerCount(files: seq<JsFile>, petNameInput: string, userEmailInput: string)
    ensures var r := CheckoutForm(petNameInput, userEmailInput, FilterValidFiles(files).kept);
      r.Ok? ==> |r.value.files| <= Routes.MaxFiles
  {
    FilterValidFilesShape(files);
  }
}
