/**
 * The string logic of the S3 storage service: the key an upload is stored
 * under, and the key `deleteFile` derives from a stored URL.  The S3 calls
 * themselves are foreign; their replies are parameters of the callers.
 */
module StorageService {

  /** An uploaded file as the multipart parser hands it over. */
  datatype File = File(originalname: string, mimetype: string, buffer: seq<bv8>)

  /** What the S3 upload answers: the object's public URL (`Location`), or an exception. */
  datatype UploadReply = Uploaded(location: string) | UploadFailed

  /** The key prefixes the services upload under. */
  const MenuItemsPath := "menu-items"
  const RestaurantLogosPath := "restaurant-logos"

  function DigitChar(d: nat): char
    requires d < 10
  {
    "0123456789"[d]
  }

  /** A millisecond timestamp written in decimal, as a template string prints `Date.now()`. */
  function DecimalString(n: nat): string
    decreases n
  {
    if n < 10 then [DigitChar(n)] else DecimalString(n / 10) + [DigitChar(n % 10)]
  }

  /** A decimal rendering is a non-empty run of digits, so it never contains '/'. */
  lemma {:induction false} DecimalStringIsDigits(n: nat)
    ensures |DecimalString(n)| >= 1
    ensures forall i :: 0 <= i < |DecimalString(n)| ==> '0' <= DecimalString(n)[i] <= '9'
    ensures '/' !in DecimalString(n)
    decreases n
  {
    if n >= 10 {
      DecimalStringIsDigits(n / 10);
    }
  }

  /** The `Key` of `uploadFile`: `${path}/${Date.now()}-${file.originalname}`. */
  function UploadKey(path: string, now: nat, originalname: string): string {
    path + "/" + DecimalString(now) + "-" + originalname
  }

  /** The upload key starts with the path and a '/', and ends with the original file name. */
  lemma {:induction false} UploadKeyShape(path: string, now: nat, originalname: string)
    ensures var key := UploadKey(path, now, originalname);
      && |key| > |path| + |originalname| + 1
      && key[..|path| + 1] == path + "/"
      && key[|key| - |originalname|..] == originalname
  {
    DecimalStringIsDigits(now);
  }

  /** The first position of `c` in `s`. */
  function IndexOf(s: string, c: char): (i: nat)
    requires c in s
    ensures i < |s| && s[i] == c && c !in s[..i]
  {
    if s[0] == c then 0 else 1 + IndexOf(s[1..], c)
  }

  /** JavaScript `s.split(sep)` for a one-character separator: "" splits into [""], "a/" into ["a", ""]. */
  function Split(s: string, sep: char): (parts: seq<string>)
    ensures |parts| >= 1
    ensures forall i :: 0 <= i < |parts| ==> sep !in parts[i]
    decreases |s|
  {
    if sep !in s then [s]
    else
      var i := IndexOf(s, sep);
      [s[..i]] + Split(s[i + 1..], sep)
  }

  /** The first separator of `a + sep + b`, when `a` has none, is the one after `a`. */
  lemma {:induction false} IndexOfAfterPrefix(a: string, sep: char, b: string)
    requires sep !in a
    ensures IndexOf(a + [sep] + b, sep) == |a|
    decreases |a|
  {
    if a != "" {
      assert (a + [sep] + b)[1..] == a[1..] + [sep] + b;
      IndexOfAfterPrefix(a[1..], sep, b);
    }
  }

  /** `deleteFile`'s key: `fileUrl.split('/').slice(-1)[0]`, the last piece of the split. */
  function DeleteKey(fileUrl: string): string {
    var parts := Split(fileUrl, '/');
    parts[|parts| - 1]
  }

  /** Reference definition: the longest suffix without '/', found by scanning from the end. */
  function LastSegment(s: string): (r: string)
    ensures '/' !in r
  {
    if s == "" then ""
    else if s[|s| - 1] == '/' then ""
    else LastSegment(s[..|s| - 1]) + [s[|s| - 1]]
  }

  /** The last segment is a suffix of the string. */
  lemma {:induction false} LastSegmentIsSuffix(s: string)
    ensures |LastSegment(s)| <= |s| && LastSegment(s) == s[|s| - |LastSegment(s)|..]
    decreases |s|
  {
    if s != "" && s[|s| - 1] != '/' {
      LastSegmentIsSuffix(s[..|s| - 1]);
      var r := LastSegment(s[..|s| - 1]);
      assert s[..|s| - 1][|s| - 1 - |r|..] == s[|s| - 1 - |r|..|s| - 1];
    }
  }

  /** A string without '/' is its own last segment. */
  lemma {:induction false} LastSegmentOfSegment(s: string)
    requires '/' !in s
    ensures LastSegment(s) == s
    decreases |s|
  {
    if s != "" {
      LastSegmentOfSegment(s[..|s| - 1]);
    }
  }

  /** Everything up to and including a '/' does not affect the last segment. */
  lemma {:induction false} LastSegmentAfterSlash(p: string, rest: string)
    ensures LastSegment(p + ['/'] + rest) == LastSegment(rest)
    decreases |rest|
  {
    var s := p + ['/'] + rest;
    if rest != "" && rest[|rest| - 1] != '/' {
      assert s[..|s| - 1] == p + ['/'] + rest[..|rest| - 1];
      LastSegmentAfterSlash(p, rest[..|rest| - 1]);
    }
  }

  /** Splitting `a + "/" + rest`, when `a` has no '/', gives `a` and then the pieces of `rest`. */
  lemma SplitAtFirstSlash(a: string, rest: string)
    requires '/' !in a
    ensures Split(a + ['/'] + rest, '/') == [a] + Split(rest, '/')
  {
    IndexOfAfterPrefix(a, '/', rest);
    var s := a + ['/'] + rest;
    assert s[..|a|] == a && s[|a| + 1..] == rest;
  }

  /** Hence the delete key of `a + "/" + rest` is the delete key of `rest`. */
  lemma DeleteKeyAfterSlash(a: string, rest: string)
    requires '/' !in a
    ensures DeleteKey(a + ['/'] + rest) == DeleteKey(rest)
  {
    SplitAtFirstSlash(a, rest);
    var parts := Split(rest, '/');
    assert ([a] + parts)[|parts|] == parts[|parts| - 1];
  }

  /** The key `deleteFile` computes is the text after the last '/'. */
  lemma {:induction false} DeleteKeyIsLastSegment(fileUrl: string)
    ensures DeleteKey(fileUrl) == LastSegment(fileUrl)
    decreases |fileUrl|
  {
    if '/' in fileUrl {
      var i := IndexOf(fileUrl, '/');
      var head, rest := fileUrl[..i], fileUrl[i + 1..];
      assert fileUrl == head + ['/'] + rest;
      DeleteKeyAfterSlash(head, rest);
      DeleteKeyIsLastSegment(rest);
      LastSegmentAfterSlash(head, rest);
    } else {
      LastSegmentOfSegment(fileUrl);
    }
  }

  /**
   * The delete key never contains '/', is a suffix of the URL, is the whole
   * URL when the URL has no '/', and is empty when the URL ends with '/'.
   */
  lemma {:induction false} DeleteKeyShape(fileUrl: string)
    ensures '/' !in DeleteKey(fileUrl)
    ensures |DeleteKey(fileUrl)| <= |fileUrl| && DeleteKey(fileUrl) == fileUrl[|fileUrl| - |DeleteKey(fileUrl)|..]
    ensures '/' !in fileUrl ==> DeleteKey(fileUrl) == fileUrl
    ensures |fileUrl| > 0 && fileUrl[|fileUrl| - 1] == '/' ==> DeleteKey(fileUrl) == ""
  {
    DeleteKeyIsLastSegment(fileUrl);
    LastSegmentIsSuffix(fileUrl);
    if '/' !in fileUrl {
      LastSegmentOfSegment(fileUrl);
    }
  }

  /** The public URL of a virtual-hosted S3 object: `https://<host>/<key>`. */
  function ObjectUrl(host: string, key: string): string {
    "https://" + host + "/" + key
  }

  /**
   * As written, `deleteFile` on the URL of an uploaded object asks S3 to
   * delete only the last path segment, `<timestamp>-<name>`, which is not
   * the key the object was uploaded under.
   */
  lemma {:induction false} DeleteKeyDropsUploadPath(host: string, path: string, now: nat, originalname: string)
    requires '/' !in host && '/' !in originalname
    ensures DeleteKey(ObjectUrl(host, UploadKey(path, now, originalname))) == DecimalString(now) + "-" + originalname
    ensures DeleteKey(ObjectUrl(host, UploadKey(path, now, originalname))) != UploadKey(path, now, originalname)
  {
    var url := ObjectUrl(host, UploadKey(path, now, originalname));
    var tail := DecimalString(now) + "-" + originalname;
    DecimalStringIsDigits(now);
    assert url == ("https://" + host + "/" + path) + ['/'] + tail;
    LastSegmentAfterSlash("https://" + host + "/" + path, tail);
    LastSegmentOfSegment(tail);
    DeleteKeyIsLastSegment(url);
  }

  /** The text after the `n`-th '/' of `s`, or "" when `s` has fewer. */
  function AfterSlashes(s: string, n: nat): string
    decreases n
  {
    if n == 0 then s
    else if '/' !in s then ""
    else AfterSlashes(s[IndexOf(s, '/') + 1..], n - 1)
  }

  /** Skipping a '/'-free piece and the '/' after it is one step of `AfterSlashes`. */
  lemma {:induction false} AfterSlashesStep(a: string, rest: string, n: nat)
    requires '/' !in a && n > 0
    ensures AfterSlashes(a + ['/'] + rest, n) == AfterSlashes(rest, n - 1)
  {
    IndexOfAfterPrefix(a, '/', rest);
    assert (a + ['/'] + rest)[|a| + 1..] == rest;
  }

  /** Corrected key extraction: everything after the scheme and host, i.e. after the third '/'. */
  function ObjectKey(fileUrl: string): string {
    AfterSlashes(fileUrl, 3)
  }

  /** The corrected extraction recovers exactly the key an object URL was built from. */
  lemma {:induction false} ObjectKeyRoundTrip(host: string, key: string)
    requires '/' !in host
    ensures ObjectKey(ObjectUrl(host, key)) == key
  {
    var afterHost := host + ['/'] + key;
    var afterSlashes := [] + ['/'] + afterHost;
    assert ObjectUrl(host, key) == "https:" + ['/'] + afterSlashes;
    AfterSlashesStep("https:", afterSlashes, 3);
    AfterSlashesStep([], afterHost, 2);
    AfterSlashesStep(host, key, 1);
  }

  /** With the corrected extraction, deleting an uploaded object's URL targets its upload key. */
  lemma {:induction false} ObjectKeyFindsUploadKey(host: string, path: string, now: nat, originalname: string)
    requires '/' !in host
    ensures ObjectKey(ObjectUrl(host, UploadKey(path, now, originalname))) == UploadKey(path, now, originalname)
  {
    ObjectKeyRoundTrip(host, UploadKey(path, now, originalname));
  }
}
