/** The image helpers of `imagekitService.ts`: the size clamp applied before upload, the
    conversion of a data URL (section 3 of RFC 2397) to bytes, the generated upload file
    name, the optimized-URL builder and the URL check. */
module ImageKit {
  import opened Wrappers
  import opened Text

  /** An element of a `Uint8Array`. */
  newtype byte = x: int | 0 <= x < 256

  // ---------------------------------------------------------------------------
  // optimizeImage: the size clamp
  // ---------------------------------------------------------------------------

  /** The `maxWidth` used when the caller gives none. */
  const DefaultMaxWidth: nat := 1200

  /** `Math.round(num / den)` for a positive denominator: the integer nearest to the
      quotient, a half rounded up. */
  function RoundDiv(num: int, den: int): (r: int)
    requires den > 0
    ensures 2 * den * r - den <= 2 * num < 2 * den * r + den
  {
    var r := (2 * num + den) / (2 * den);
    assert 2 * num + den == 2 * den * r + (2 * num + den) % (2 * den);
    r
  }

  /** The rounded value lies between 0 and any bound the exact quotient stays below. */
  lemma RoundDivBounds(num: int, den: int, bound: int)
    requires den > 0 && 0 <= num && num <= bound * den
    ensures 0 <= RoundDiv(num, den) <= bound
  {
    var r := RoundDiv(num, den);
    if r > bound {
      assert 2 * den * r - den >= 2 * den * bound + den by {
        MulMonotone(den, bound + 1, r);
      }
    }
  }

  /** Multiplication by a positive factor keeps the order. */
  lemma MulMonotone(d: int, a: int, b: int)
    requires d >= 0 && a <= b
    ensures d * a <= d * b
  {
    assert d * b - d * a == d * (b - a);
  }

  /** `optimizeImage`'s resize: an image wider than `maxWidth` is scaled down to exactly
      `maxWidth`, its height scaled by the same factor and rounded; a narrower one keeps its
      size. */
  method ClampSize(width: nat, height: nat, maxWidth: nat) returns (w: nat, h: nat)
    ensures width <= maxWidth ==> w == width && h == height
    ensures width > maxWidth ==> w == maxWidth && h == RoundDiv(height * maxWidth, width)
    ensures w <= maxWidth && h <= height
    ensures width > maxWidth ==>
      2 * width * h - width <= 2 * height * maxWidth < 2 * width * h + width
  {
    w, h := width, height;
    if w > maxWidth {
      MulMonotone(height, maxWidth, width);
      RoundDivBounds(h * maxWidth, w, h);
      h := RoundDiv(h * maxWidth, w);
      w := maxWidth;
    }
  }

  /** What the image element reports: its natural size, or a load error. */
  datatype ImageLoad = Loaded(width: nat, height: nat) | LoadFailed

  /** What `optimizeImage` resolves with: the JPEG data URL of a canvas of the given size
      (the encoding itself is not modelled), or the original string. */
  datatype Optimized = Jpeg(width: nat, height: nat) | Original(source: string)

  /** `optimizeImage(source, maxWidth)`: one resize and encode pass, or the source unchanged
      when the image does not load. */
  method OptimizeImage(source: string, load: ImageLoad, maxWidth: nat) returns (r: Optimized)
    ensures load.LoadFailed? ==> r == Original(source)
    ensures load.Loaded? && load.width <= maxWidth ==> r == Jpeg(load.width, load.height)
    ensures load.Loaded? && load.width > maxWidth ==>
      r == Jpeg(maxWidth, RoundDiv(load.height * maxWidth, load.width))
    ensures load.Loaded? ==> r.Jpeg? && r.width <= maxWidth && r.height <= load.height
  {
    match load {
      case LoadFailed =>
        r := Original(source);
      case Loaded(width, height) =>
        var w, h := ClampSize(width, height, maxWidth);
        r := Jpeg(w, h);
    }
  }

  /** `optimizeImage(base64Image)` as the upload calls it, with the default `maxWidth`: the
      result is never wider than 1200 pixels, and a narrower image keeps its size. */
  method OptimizeForUpload(source: string, load: ImageLoad) returns (r: Optimized)
    ensures load.LoadFailed? ==> r == Original(source)
    ensures load.Loaded? ==> r.Jpeg? && r.width <= 1200 && r.height <= load.height
    ensures load.Loaded? && load.width <= 1200 ==> r == Jpeg(load.width, load.height)
    ensures load.Loaded? && load.width > 1200 ==> r.width == 1200
  {
    r := OptimizeImage(source, load, DefaultMaxWidth);
  }

  // ---------------------------------------------------------------------------
  // base64ToBlob
  // ---------------------------------------------------------------------------

  /** The first index at or after `j` holding `;` or a line terminator, or the length. */
  function StopFrom(s: string, j: nat): (k: nat)
    requires j <= |s|
    ensures j <= k <= |s|
    ensures forall m :: j <= m < k ==> s[m] != ';' && !IsLineTerminator(s[m])
    ensures k < |s| ==> s[k] == ';' || IsLineTerminator(s[k])
    decreases |s| - j
  {
    if j == |s| || s[j] == ';' || IsLineTerminator(s[j]) then j else StopFrom(s, j + 1)
  }

  /** `/:(.*?);/` matches at `i`: a `:` there and a `;` after it, with no line terminator
      (which `.` does not match) before that `;`. */
  predicate MatchesAt(s: string, i: nat) {
    i < |s| && s[i] == ':' && StopFrom(s, i + 1) < |s| && s[StopFrom(s, i + 1)] == ';'
  }

  /** The leftmost match position at or after `i`. */
  function FirstMatchFrom(s: string, i: nat): (m: Option<nat>)
    requires i <= |s|
    ensures m.Some? ==> i <= m.value < |s| && MatchesAt(s, m.value)
    ensures m.Some? ==> forall k :: i <= k < m.value ==> !MatchesAt(s, k)
    ensures m.None? <==> forall k :: i <= k < |s| ==> !MatchesAt(s, k)
    decreases |s| - i
  {
    if i == |s| then None
    else if MatchesAt(s, i) then Some(i)
    else FirstMatchFrom(s, i + 1)
  }

  /** `header.match(/:(.*?);/)?.[1]`: the shortest text after the leftmost matching `:` up to
      the next `;`. */
  function MimeCapture(header: string): (c: Option<string>)
    ensures c.Some? <==> FirstMatchFrom(header, 0).Some?
    ensures c.Some? ==>
      var i := FirstMatchFrom(header, 0).value;
      var e := i + 1 + |c.value|;
      && header[i] == ':'
      && e < |header| && header[i + 1..e] == c.value && header[e] == ';'
    ensures c.Some? ==> forall k :: 0 <= k < |c.value| ==> c.value[k] != ';' && !IsLineTerminator(c.value[k])
  {
    match FirstMatchFrom(header, 0)
    case None => None
    case Some(i) => Some(header[i + 1..StopFrom(header, i + 1)])
  }

  /** The MIME type `base64ToBlob` labels the blob with: the capture, or `image/jpeg` when
      there is none or it is empty. */
  function MimeType(header: string): (m: string)
    ensures m != []
    ensures m == "image/jpeg" || MimeCapture(header) == Some(m)
    ensures MimeCapture(header).Some? && MimeCapture(header).value != [] ==> m == MimeCapture(header).value
  {
    match MimeCapture(header)
    case Some(c) => if c != [] then c else "image/jpeg"
    case None => "image/jpeg"
  }

  /** A header without `:` has no match, so the type falls back to `image/jpeg`. */
  lemma MimeDefaultWithoutColon(header: string)
    requires ':' !in header
    ensures MimeType(header) == "image/jpeg"
  {
  }

  /** For a data URL header `data:<type>;<parameters>` (section 3 of RFC 2397) whose type has
      no `;` and no line break, the MIME type is that type, and `image/jpeg` when it is
      empty. */
  lemma DataHeaderMime(mediaType: string, params: string)
    requires ';' !in mediaType
    requires forall k :: 0 <= k < |mediaType| ==> !IsLineTerminator(mediaType[k])
    ensures MimeType("data:" + mediaType + ";" + params) ==
      if mediaType != [] then mediaType else "image/jpeg"
  {
    var h := "data:" + mediaType + ";" + params;
    var e := 5 + |mediaType|;
    assert h[4] == ':' && h[e] == ';';
    forall m | 5 <= m < e ensures h[m] == mediaType[m - 5] {
    }
    assert StopFrom(h, 5) == e by {
      StopAt(h, 5, e);
    }
    assert MatchesAt(h, 4);
    assert forall k :: 0 <= k < 4 ==> !MatchesAt(h, k);
    assert FirstMatchFrom(h, 0) == Some(4);
    assert h[5..e] == mediaType;
  }

  /** The scan stops at `e` when nothing before it stops it and `s[e]` does. */
  lemma StopAt(s: string, j: nat, e: nat)
    requires j <= e < |s| && s[e] == ';'
    requires forall m :: j <= m < e ==> s[m] != ';' && !IsLineTerminator(s[m])
    ensures StopFrom(s, j) == e
  {
  }

  /** `Uint8Array` stores `charCodeAt(i)` modulo 256. */
  function CharByte(c: char): byte {
    (c as int % 256) as byte
  }

  /** The copy loop of `base64ToBlob`: `while (n--) u8arr[n] = bstr.charCodeAt(n)`, which fills
      the array from the last index down to 0. */
  method CopyBytes(bstr: string) returns (u8: array<byte>)
    ensures fresh(u8) && u8.Length == |bstr|
    ensures forall i :: 0 <= i < |bstr| ==> u8[i] == CharByte(bstr[i])
  {
    var n := |bstr|;
    u8 := new byte[n];
    while n > 0
      invariant 0 <= n <= |bstr| && u8.Length == |bstr|
      invariant forall i :: n <= i < |bstr| ==> u8[i] == CharByte(bstr[i])
      decreases n
    {
      n := n - 1;
      u8[n] := CharByte(bstr[n]);
    }
  }

  /** A blob: its bytes and its type. */
  datatype Blob = Blob(data: seq<byte>, mimeType: string)

  /** A character the File API accepts in a blob type: U+0020 to U+007E. */
  predicate IsPrintableAscii(c: char) {
    ' ' <= c <= '~'
  }

  /** Lower case in ASCII only. */
  function AsciiLowerChar(c: char): char {
    if 'A' <= c <= 'Z' then (c as int + 32) as char else c
  }

  /** The `type` of `new Blob(parts, {type})`, normalised as the File API does (section 3.1 of
      the W3C File API): empty when some character lies outside U+0020 to U+007E, otherwise
      the type lowered in ASCII. */
  function BlobType(t: string): (r: string)
    ensures (forall k :: 0 <= k < |t| ==> IsPrintableAscii(t[k])) ==>
      |r| == |t| && forall k :: 0 <= k < |t| ==> r[k] == AsciiLowerChar(t[k])
    ensures (exists k :: 0 <= k < |t| && !IsPrintableAscii(t[k])) ==> r == []
    ensures forall k :: 0 <= k < |r| ==> IsPrintableAscii(r[k]) && !('A' <= r[k] <= 'Z')
  {
    if forall k :: 0 <= k < |t| ==> IsPrintableAscii(t[k]) then
      seq(|t|, k requires 0 <= k < |t| => AsciiLowerChar(t[k]))
    else []
  }

  /** Normalising a normalised type changes nothing. */
  lemma BlobTypeIdempotent(t: string)
    ensures BlobType(BlobType(t)) == BlobType(t)
  {
    var r := BlobType(t);
    assert forall k :: 0 <= k < |r| ==> AsciiLowerChar(r[k]) == r[k];
  }

  /** A printable type without ASCII capitals, such as the `image/jpeg` fallback, is kept. */
  lemma BlobTypeKeepsLowerType(t: string)
    requires forall k :: 0 <= k < |t| ==> IsPrintableAscii(t[k]) && !('A' <= t[k] <= 'Z')
    ensures BlobType(t) == t
  {
  }

  /** `base64.split(',')[1]`, converted to a string as `atob` does: with no comma the field is
      `undefined`, which `atob` reads as the text "undefined". */
  function Payload(base64: string): (p: string)
    ensures ',' !in base64 ==> p == "undefined"
    ensures ',' in base64 ==>
      var k := IndexOf(base64, ',');
      var e := k + 1 + |p|;
      && ',' !in p
      && e <= |base64| && base64[k + 1..e] == p
      && (e == |base64| || base64[e] == ',')
  {
    var fields := Split(base64, ',');
    if |fields| >= 2 then
      JoinSecondField(fields, ',');
      IndexOfIs(base64, ',', |fields[0]|);
      fields[1]
    else
      assert base64 == fields[0];
      "undefined"
  }

  /** `base64ToBlob(base64)`. `atob` (base64 decoding, section 4 of RFC 4648) is a parameter;
      `None` stands for the exception it throws on malformed input, which propagates. */
  method Base64ToBlob(base64: string, atob: string -> Option<string>) returns (r: Result<Blob>)
    ensures atob(Payload(base64)).None? ==> r.Err?
    ensures atob(Payload(base64)).Some? ==>
      var bstr := atob(Payload(base64)).value;
      && r.Ok?
      && r.value.mimeType == BlobType(MimeType(Split(base64, ',')[0]))
      && |r.value.data| == |bstr|
      && forall i :: 0 <= i < |bstr| ==> r.value.data[i] == CharByte(bstr[i])
  {
    var arr := Split(base64, ',');
    var mime := MimeType(arr[0]);
    var decoded := atob(if |arr| >= 2 then arr[1] else "undefined");
    if decoded.None? {
      return Err("InvalidCharacterError");
    }
    var bstr := decoded.value;
    var u8arr := CopyBytes(bstr);
    r := Ok(Blob(u8arr[..], BlobType(mime)));
  }

  // ---------------------------------------------------------------------------
  // generateUniqueFileName
  // ---------------------------------------------------------------------------

  /** `originalName.split('.').pop() || 'jpg'`: the text after the last `.` (all of the name
      when it has none), or `jpg` when that text is empty. */
  function Extension(name: string): (ext: string)
    ensures ext != [] && '.' !in ext
    ensures ext != "jpg" ==>
      |ext| <= |name| && ext == name[|name| - |ext|..]
      && (|ext| < |name| ==> name[|name| - |ext| - 1] == '.')
  {
    var last := LastField(name, '.');
    if last == [] then "jpg" else last
  }

  /** The extension after the last dot of a name; a name ending in a dot gets `jpg`; a name
      without a dot is its own extension. */
  lemma ExtensionCases(front: string, e: string)
    requires e != [] && '.' !in e
    ensures Extension(front + "." + e) == e
    ensures Extension(front + ".") == "jpg"
    ensures Extension(e) == e
  {
    LastFieldAfterSeparator(front, e, '.');
    LastFieldAfterSeparator(front, [], '.');
    assert front + "." + [] == front + ".";
  }

  /** `destination_<timestamp>_<random>`: the generated name before its extension. */
  function FileNameStem(timestamp: nat, randomText: string): string {
    FileNamePrefix(timestamp) + Substring(randomText, 2, 15)
  }

  /** `destination_<timestamp>_`. */
  function FileNamePrefix(timestamp: nat): string {
    "destination_" + Decimal(timestamp) + "_"
  }

  /** `generateUniqueFileName(originalName)`, with `Date.now()` and the base-36 text of
      `Math.random()` given as parameters. */
  function UniqueFileName(name: string, timestamp: nat, randomText: string): string {
    FileNameStem(timestamp, randomText) + "." + Extension(name)
  }

  /** The generated name starts with `destination_`, the timestamp and `_`. */
  lemma UniqueFileNamePrefix(name: string, timestamp: nat, randomText: string)
    ensures StartsWith(UniqueFileName(name, timestamp, randomText), FileNamePrefix(timestamp))
  {
    var p, rnd, ext := FileNamePrefix(timestamp), Substring(randomText, 2, 15), Extension(name);
    assert UniqueFileName(name, timestamp, randomText) == p + (rnd + "." + ext);
    PrefixOfConcat(p, rnd + "." + ext);
  }

  /** The part between the prefix and the dot is characters 2 to 14 of the random text,
      or as many of them as it has. */
  lemma FileNameRandomPart(timestamp: nat, randomText: string)
    ensures var n := |randomText|;
      FileNameStem(timestamp, randomText)
        == FileNamePrefix(timestamp) + randomText[(if n < 2 then n else 2)..(if n < 15 then n else 15)]
  {
  }

  /** The extension of the generated name, read back with `split('.').pop()`, is the
      extension of the original name. */
  lemma UniqueFileNameExtension(name: string, timestamp: nat, randomText: string)
    ensures LastField(UniqueFileName(name, timestamp, randomText), '.') == Extension(name)
  {
    LastFieldAfterSeparator(FileNameStem(timestamp, randomText), Extension(name), '.');
  }

  lemma PrefixOfConcat(a: string, b: string)
    ensures StartsWith(a + b, a)
  {
    assert (a + b)[..|a|] == a;
  }

  /** The last field of `front + sep + ext`, with `ext` free of `sep`, is `ext`. */
  lemma LastFieldAfterSeparator(front: string, ext: string, sep: char)
    requires sep !in ext
    ensures LastField(front + [sep] + ext, sep) == ext
  {
    var s := front + [sep] + ext;
    var f := LastField(s, sep);
    assert forall k :: |s| - |f| <= k < |s| ==> s[k] == f[k - (|s| - |f|)];
    assert s[|s| - |ext| - 1] == sep;
    assert |f| == |ext|;
    assert f == s[|s| - |f|..];
    assert ext == s[|s| - |ext|..];
  }

  // ---------------------------------------------------------------------------
  // getOptimizedImageUrl
  // ---------------------------------------------------------------------------

  /** A JavaScript number argument that is truthy: given and not zero. */
  predicate Truthy(v: Option<int>) {
    v.Some? && v.value != 0
  }

  /** `name=value`. */
  function Pair(p: (string, string)): string {
    p.0 + "=" + p.1
  }

  /** `URLSearchParams.toString()` for names and values that need no escaping. */
  function Serialize(ps: seq<(string, string)>): (q: string)
    ensures q == [] <==> ps == []
  {
    if ps == [] then [] else Join(Pairs(ps), '&')
  }

  function Pairs(ps: seq<(string, string)>): (pairs: seq<string>)
    ensures |pairs| == |ps| && forall i :: 0 <= i < |ps| ==> pairs[i] == Pair(ps[i])
  {
    seq(|ps|, i requires 0 <= i < |ps| => Pair(ps[i]))
  }

  /** `if (v) params.append(name, v.toString())`: one parameter, or none. */
  function OptionalParam(name: string, v: Option<int>): (ps: seq<(string, string)>)
    ensures |ps| <= 1
    ensures ps != [] <==> Truthy(v)
    ensures ps != [] ==> ps[0] == (name, IntText(v.value))
  {
    if Truthy(v) then [(name, IntText(v.value))] else []
  }

  /** The parameters `getOptimizedImageUrl` appends: `w`, `h` and `q`, in that order, each
      only when its argument is truthy. */
  function OptimizationParams(width: Option<int>, height: Option<int>, quality: Option<int>)
    : seq<(string, string)>
  {
    OptionalParam("w", width) + OptionalParam("h", height) + OptionalParam("q", quality)
  }

  /** Each argument contributes its parameter exactly when it is truthy. */
  lemma OptimizationParamsPresent(width: Option<int>, height: Option<int>, quality: Option<int>)
    ensures var ps := OptimizationParams(width, height, quality);
      && |ps| <= 3
      && (Truthy(width) ==> ("w", IntText(width.value)) in ps)
      && (Truthy(height) ==> ("h", IntText(height.value)) in ps)
      && (Truthy(quality) ==> ("q", IntText(quality.value)) in ps)
      && (forall k :: 0 <= k < |ps| ==>
            && (ps[k].0 == "w" ==> Truthy(width)) && (ps[k].0 == "h" ==> Truthy(height))
            && (ps[k].0 == "q" ==> Truthy(quality)))
  {
  }

  /** Rank of a parameter name in the order of the appends. */
  function NameRank(name: string): int {
    if name == "w" then 0 else if name == "h" then 1 else 2
  }

  /** The parameters come in the order `w`, `h`, `q`. */
  lemma ParamsInOrder(width: Option<int>, height: Option<int>, quality: Option<int>)
    ensures var ps := OptimizationParams(width, height, quality);
      forall i, j :: 0 <= i < j < |ps| ==> NameRank(ps[i].0) < NameRank(ps[j].0)
  {
  }

  /** A name or value whose pairs split back at `&` and `=`: it holds neither. */
  predicate PlainText(t: string) {
    '&' !in t && '=' !in t
  }

  predicate PlainParams(ps: seq<(string, string)>) {
    forall k :: 0 <= k < |ps| ==> PlainText(ps[k].0) && PlainText(ps[k].1)
  }

  /** The characters the `application/x-www-form-urlencoded` serializer of `URLSearchParams`
      writes as they are: ASCII letters and digits and `*`, `-`, `.`, `_`. */
  predicate IsUnescaped(c: char) {
    'a' <= c <= 'z' || 'A' <= c <= 'Z' || '0' <= c <= '9' || c == '*' || c == '-' || c == '.' || c == '_'
  }

  /** A name or value `URLSearchParams` writes unchanged. */
  predicate UnescapedText(t: string) {
    forall k :: 0 <= k < |t| ==> IsUnescaped(t[k])
  }

  predicate UnescapedParams(ps: seq<(string, string)>) {
    forall k :: 0 <= k < |ps| ==> UnescapedText(ps[k].0) && UnescapedText(ps[k].1)
  }

  /** A value written by `toString` of an integer is a minus sign and digits, all written
      unchanged. */
  lemma IntTextUnescaped(i: int)
    ensures UnescapedText(IntText(i))
  {
    var s := IntText(i);
    forall k | 0 <= k < |s| ensures IsUnescaped(s[k]) {
      if k > 0 || i >= 0 {
        assert IsDigit(s[k]);
      }
    }
  }

  /** A parameter whose name is written unchanged is written unchanged as a whole. */
  lemma OptionalParamUnescaped(name: string, v: Option<int>)
    requires UnescapedText(name)
    ensures UnescapedParams(OptionalParam(name, v))
  {
    if Truthy(v) {
      IntTextUnescaped(v.value);
    }
  }

  lemma UnescapedParamsConcat(a: seq<(string, string)>, b: seq<(string, string)>)
    requires UnescapedParams(a) && UnescapedParams(b)
    ensures UnescapedParams(a + b)
  {
    forall k | 0 <= k < |a + b| ensures UnescapedText((a + b)[k].0) && UnescapedText((a + b)[k].1) {
      if k >= |a| {
        assert (a + b)[k] == b[k - |a|];
      }
    }
  }

  /** The names and values `getOptimizedImageUrl` appends are written unchanged by the
      serializer: `w`, `h`, `q`, a minus sign and digits only. */
  lemma OptimizationParamsUnescaped(width: Option<int>, height: Option<int>, quality: Option<int>)
    ensures UnescapedParams(OptimizationParams(width, height, quality))
  {
    OptionalParamUnescaped("w", width);
    OptionalParamUnescaped("h", height);
    OptionalParamUnescaped("q", quality);
    UnescapedParamsConcat(OptionalParam("w", width), OptionalParam("h", height));
    UnescapedParamsConcat(OptionalParam("w", width) + OptionalParam("h", height), OptionalParam("q", quality));
  }

  /** Text written unchanged holds neither `&` nor `=`. */
  lemma UnescapedIsPlain(ps: seq<(string, string)>)
    requires UnescapedParams(ps)
    ensures PlainParams(ps)
  {
    forall k | 0 <= k < |ps| ensures PlainText(ps[k].0) && PlainText(ps[k].1) {
      assert UnescapedText(ps[k].0) && UnescapedText(ps[k].1);
    }
  }

  /** The names and values `getOptimizedImageUrl` appends hold neither `&` nor `=`, so the
      query splits back into them. */
  lemma OptimizationParamsArePlain(width: Option<int>, height: Option<int>, quality: Option<int>)
    ensures PlainParams(OptimizationParams(width, height, quality))
  {
    OptimizationParamsUnescaped(width, height, quality);
    UnescapedIsPlain(OptimizationParams(width, height, quality));
  }

  /** A plain pair splits at `=` into its name and value. */
  lemma PairRoundTrip(p: (string, string))
    requires PlainText(p.0) && PlainText(p.1)
    ensures '&' !in Pair(p)
    ensures Split(Pair(p), '=') == [p.0, p.1]
  {
    assert Join([p.0, p.1], '=') == Pair(p);
    SplitJoin([p.0, p.1], '=');
  }

  /** Splitting a serialized list of plain pairs at `&`, and each piece at `=`, gives back
      the names and the values, in order. */
  lemma SerializeRoundTrip(ps: seq<(string, string)>)
    requires ps != [] && PlainParams(ps)
    ensures Split(Serialize(ps), '&') == Pairs(ps)
    ensures forall i :: 0 <= i < |ps| ==> Split(Pairs(ps)[i], '=') == [ps[i].0, ps[i].1]
  {
    forall i | 0 <= i < |ps|
      ensures '&' !in Pairs(ps)[i]
      ensures Split(Pairs(ps)[i], '=') == [ps[i].0, ps[i].1]
    {
      PairRoundTrip(ps[i]);
    }
    SplitJoin(Pairs(ps), '&');
  }

  /** The query `getOptimizedImageUrl` appends splits back into its parameters. */
  lemma QueryRoundTrip(width: Option<int>, height: Option<int>, quality: Option<int>)
    ensures var ps := OptimizationParams(width, height, quality);
      ps != [] ==>
        && Split(Serialize(ps), '&') == Pairs(ps)
        && forall i :: 0 <= i < |ps| ==> Split(Pairs(ps)[i], '=') == [ps[i].0, ps[i].1]
  {
    var ps := OptimizationParams(width, height, quality);
    if ps != [] {
      OptimizationParamsArePlain(width, height, quality);
      SerializeRoundTrip(ps);
    }
  }

  /** `url.includes('imagekit.io')`: the URL points at ImageKit. */
  predicate MentionsImageKit(url: string) {
    Includes(url, "imagekit.io")
  }

  /** `url.includes('?')`: the URL already carries a query. */
  predicate HasQuery(url: string) {
    Includes(url, "?")
  }

  /** The successive `params.append` calls of `getOptimizedImageUrl`. */
  method AppendParams(width: Option<int>, height: Option<int>, quality: Option<int>)
    returns (params: seq<(string, string)>)
    ensures params == OptimizationParams(width, height, quality)
  {
    params := [];
    if Truthy(width) {
      params := params + [("w", IntText(width.value))];
    }
    if Truthy(height) {
      params := params + [("h", IntText(height.value))];
    }
    if Truthy(quality) {
      params := params + [("q", IntText(quality.value))];
    }
  }

  /** `getOptimizedImageUrl(imageUrl, width, height, quality)`: the empty URL gives the empty
      string; an ImageKit URL gets the truthy parameters appended after `?`, or after `&`
      when it already has a query, and is returned as it is when there are none; any other
      URL is returned as it is. */
  method GetOptimizedImageUrl(imageUrl: string, width: Option<int>, height: Option<int>,
                              quality: Option<int>) returns (r: string)
    ensures imageUrl == [] ==> r == []
    ensures imageUrl != [] && !MentionsImageKit(imageUrl) ==> r == imageUrl
    ensures imageUrl != [] && MentionsImageKit(imageUrl) ==>
      var ps := OptimizationParams(width, height, quality);
      r == if ps == [] then imageUrl
           else imageUrl + [if HasQuery(imageUrl) then '&' else '?'] + Serialize(ps)
    ensures StartsWith(r, imageUrl)
  {
    if imageUrl == [] {
      return [];
    }
    if MentionsImageKit(imageUrl) {
      var params := AppendParams(width, height, quality);
      var separator := if HasQuery(imageUrl) then '&' else '?';
      var query := Serialize(params);
      if query != [] {
        r := imageUrl + [separator] + query;
        PrefixOfConcat(imageUrl, [separator] + query);
        assert r == imageUrl + ([separator] + query);
      } else {
        r := imageUrl;
        PrefixOfConcat(imageUrl, []);
      }
    } else {
      r := imageUrl;
      PrefixOfConcat(imageUrl, []);
    }
  }

  // ---------------------------------------------------------------------------
  // isValidImageKitUrl
  // ---------------------------------------------------------------------------

  /** `isValidImageKitUrl(url)`. */
  predicate IsValidImageKitUrl(url: string) {
    MentionsImageKit(url) || StartsWith(url, "data:")
  }

  /** The check holds exactly for URLs in which `imagekit.io` occurs or which begin with
      `data:`. */
  lemma IsValidImageKitUrlIff(url: string)
    ensures IsValidImageKitUrl(url) <==>
      (exists i :: OccursAt(url, "imagekit.io", i)) || (|url| >= 5 && url[..5] == "data:")
  {
    IncludesIff(url, "imagekit.io");
  }

  /** Optimizing an ImageKit URL keeps it an ImageKit URL. */
  lemma OptimizedUrlStaysValid(url: string, r: string)
    requires MentionsImageKit(url) && StartsWith(r, url)
    ensures IsValidImageKitUrl(r)
  {
    IncludesIff(url, "imagekit.io");
    var i :| OccursAt(url, "imagekit.io", i);
    assert r[i..i + 11] == url[i..i + 11];
    assert OccursAt(r, "imagekit.io", i);
    IncludesIff(r, "imagekit.io");
  }
}
