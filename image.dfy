/** Photo checks and arithmetic (src/utils/image.ts): file validation, the
    minimum-size check, the aspect-preserving fit drawn by `compressImage`, the
    size pipeline of `processImage`, and `base64ToFile`'s data-URL parsing and
    byte copy. Sizes are exact reals: the canvas's rounding is not modelled. */
module Image {
  import opened Wrappers
  import opened Strings
  import opened Types

  const MaxFileSize: nat := 2 * 1024 * 1024
  const MaxDimension: real := 1024.0
  const MinDimension: nat := 512
  const AllowedTypes: seq<string> := ["image/png", "image/jpeg", "image/jpg"]
  const DefaultMime := "image/png"

  const FormatError := "Formato no válido. Solo se permiten archivos PNG y JPG."
  const SizeError := "El archivo es demasiado grande. Máximo 2MB permitido."
  const DimensionError := "La imagen debe tener al menos " + NatToString(MinDimension) + "x"
                          + NatToString(MinDimension) + " píxeles."
  const UnreadableError := "No se pudo procesar la imagen."

  /** `validateImageFile`: the type is checked before the size, and the size limit is inclusive. */
  function ValidateImageFile(file: Blob): (r: Validation)
    ensures r == Valid <==> file.mimeType in AllowedTypes && |file.bytes| <= MaxFileSize
    ensures file.mimeType !in AllowedTypes ==> r == Invalid(FormatError)
    ensures file.mimeType in AllowedTypes && |file.bytes| > MaxFileSize ==> r == Invalid(SizeError)
  {
    if file.mimeType !in AllowedTypes then Invalid(FormatError)
    else if |file.bytes| > MaxFileSize then Invalid(SizeError)
    else Valid
  }

  /** A PNG or JPEG of exactly 2 MiB passes; one byte more is refused for its size,
      and a file of any other type is refused for its type whatever its size. */
  lemma SizeLimitIsInclusive(name: string, bytes: seq<bv8>, extra: bv8)
    requires |bytes| == MaxFileSize
    ensures ValidateImageFile(Blob(name, "image/jpeg", bytes)) == Valid
    ensures ValidateImageFile(Blob(name, "image/png", bytes + [extra])) == Invalid(SizeError)
    ensures ValidateImageFile(Blob(name, "image/gif", bytes + [extra])) == Invalid(FormatError)
  {
    assert "image/gif" != AllowedTypes[0] && "image/gif" != AllowedTypes[1] && "image/gif" != AllowedTypes[2];
  }

  /** `validateImageDimensions` on the size that loading the file produced, or on
      `None` when the image could not be loaded. */
  function ValidateImageDimensions(size: Option<(nat, nat)>): (r: Validation)
    ensures r == Valid <==> size.Some? && size.value.0 >= MinDimension && size.value.1 >= MinDimension
    ensures size.None? ==> r == Invalid(UnreadableError)
    ensures size.Some? && r != Valid ==> r == Invalid(DimensionError)
  {
    match size
    case None => Invalid(UnreadableError)
    case Some((width, height)) =>
      if width < MinDimension || height < MinDimension then Invalid(DimensionError) else Valid
  }

  /** The size `compressImage` draws at: a landscape image wider than the box is
      narrowed to its width, any other image taller than the box is lowered to its
      height, each keeping the ratio; an image that already fits is left alone. */
  function Fit(w: real, h: real, maxW: real, maxH: real): (r: (real, real))
    requires w >= 0.0 && h >= 0.0 && maxW >= 0.0 && maxH >= 0.0
    ensures (w > h ==> w <= maxW) && (w <= h ==> h <= maxH) ==> r == (w, h)
    ensures w > h ==> r.0 <= maxW && (r.0 == maxW || r.0 == w)
    ensures w <= h ==> r.1 <= maxH && (r.1 == maxH || r.1 == h)
  {
    if w > h then
      if w > maxW then (maxW, h * maxW / w) else (w, h)
    else
      if h > maxH then (w * maxH / h, maxH) else (w, h)
  }

  /** The `let { width, height }` steps of `compressImage`'s `onload`. */
  method FitDimensions(w: real, h: real, maxW: real, maxH: real) returns (width: real, height: real)
    requires w >= 0.0 && h >= 0.0 && maxW >= 0.0 && maxH >= 0.0
    ensures (width, height) == Fit(w, h, maxW, maxH)
  {
    width, height := w, h;
    if width > height {
      if width > maxW {
        height := (height * maxW) / width;
        width := maxW;
      }
    } else {
      if height > maxH {
        width := (width * maxH) / height;
        height := maxH;
      }
    }
  }

  /** Scaling by a non-negative factor keeps order. */
  lemma MulMonotone(k: real, a: real, b: real)
    requires k >= 0.0 && a <= b
    ensures k * a <= k * b
  {
  }

  /** Dividing by a positive `c` what is at most `q * c` gives at most `q`. */
  lemma DivAtMost(p: real, c: real, q: real)
    requires c > 0.0 && p <= q * c
    ensures p / c <= q
  {
    assert p / c * c == p;
  }

  /** Dividing by a positive `c` what is at least `q * c` gives at least `q`. */
  lemma DivAtLeast(p: real, c: real, q: real)
    requires c > 0.0 && p >= q * c
    ensures p / c >= q
  {
    assert p / c * c == p;
  }

  /** `k * m / w` is `k` scaled by `m / w`: at most `k` when `m <= w`. */
  lemma ScaledDown(k: real, m: real, w: real)
    requires k >= 0.0 && m >= 0.0 && w > 0.0 && m <= w
    ensures k * m / w <= k
  {
    MulMonotone(k, m, w);
    DivAtMost(k * m, w, k);
  }

  /** `a * m / w` is `m` scaled by `a / w`: at most `m` when `a <= w`. */
  lemma ScaledBelow(a: real, m: real, w: real)
    requires a >= 0.0 && m >= 0.0 && w > 0.0 && a <= w
    ensures a * m / w <= m
  {
    MulMonotone(m, a, w);
    DivAtMost(a * m, w, m);
  }

  /** The fit never enlarges either side. */
  lemma FitNeverEnlarges(w: real, h: real, maxW: real, maxH: real)
    requires w >= 0.0 && h >= 0.0 && maxW >= 0.0 && maxH >= 0.0
    ensures Fit(w, h, maxW, maxH).0 <= w && Fit(w, h, maxW, maxH).1 <= h
  {
    if w > h && w > maxW {
      ScaledDown(h, maxW, w);
    } else if w <= h && h > maxH {
      ScaledDown(w, maxH, h);
    }
  }

  /** The fit keeps the ratio between the sides. */
  lemma FitPreservesRatio(w: real, h: real, maxW: real, maxH: real)
    requires w >= 0.0 && h >= 0.0 && maxW >= 0.0 && maxH >= 0.0
    ensures Fit(w, h, maxW, maxH).0 * h == Fit(w, h, maxW, maxH).1 * w
  {
    if w > h && w > maxW {
      assert (h * maxW / w) * w == h * maxW;
    } else if w <= h && h > maxH {
      assert (w * maxH / h) * h == w * maxH;
    }
  }

  /** In a square box, the fitted image lies inside the box. */
  lemma FitWithinSquare(w: real, h: real, m: real)
    requires w >= 0.0 && h >= 0.0 && m >= 0.0
    ensures Fit(w, h, m, m).0 <= m && Fit(w, h, m, m).1 <= m
  {
    if w > h && w > m {
      ScaledBelow(h, m, w);
    } else if w <= h && h > m {
      ScaledBelow(w, m, h);
    }
  }

  /** `processImage`'s sizes as written: a fit into 1024 x 1024, then, when a side
      is below 512, the second `compressImage` call into 512 x 512 that is meant to
      enlarge the image. */
  function ProcessedSizeAsWritten(w: real, h: real): (r: (real, real))
    requires w >= 0.0 && h >= 0.0
    ensures r.0 <= w && r.1 <= h
    ensures r.0 <= MaxDimension && r.1 <= MaxDimension
  {
    var first := Fit(w, h, MaxDimension, MaxDimension);
    FitNeverEnlarges(w, h, MaxDimension, MaxDimension);
    FitWithinSquare(w, h, MaxDimension);
    if first.0 < MinDimension as real || first.1 < MinDimension as real then
      FitNeverEnlarges(first.0, first.1, MinDimension as real, MinDimension as real);
      Fit(first.0, first.1, MinDimension as real, MinDimension as real)
    else first
  }

  /** As written, the second call can never bring a side up to the minimum: an
      image with a side below 512 after the first fit keeps a side below 512. */
  lemma UpscaleCallCannotEnlarge(w: real, h: real)
    requires w >= 0.0 && h >= 0.0
    ensures var first := Fit(w, h, MaxDimension, MaxDimension);
      first.0 < MinDimension as real || first.1 < MinDimension as real ==>
        (ProcessedSizeAsWritten(w, h).0 < MinDimension as real || ProcessedSizeAsWritten(w, h).1 < MinDimension as real)
  {
    FitNeverEnlarges(w, h, MaxDimension, MaxDimension);
    var first := Fit(w, h, MaxDimension, MaxDimension);
    FitNeverEnlarges(first.0, first.1, MinDimension as real, MinDimension as real);
  }

  /** A 2000 x 400 photo: the first fit gives 1024 x 204.8, and the "upscale" then
      shrinks it further, to 512 x 102.4. */
  lemma WidePhotoShrinksTwice()
    ensures Fit(2000.0, 400.0, MaxDimension, MaxDimension) == (1024.0, 204.8)
    ensures ProcessedSizeAsWritten(2000.0, 400.0) == (512.0, 102.4)
  {
  }

  /** Scaling up so that the shorter side reaches `least`, keeping the ratio. */
  function UpscaleToMinimum(w: real, h: real, least: real): (r: (real, real))
    requires w > 0.0 && h > 0.0 && least > 0.0
    ensures r.0 * h == r.1 * w
    ensures r.0 >= least && r.1 >= least
    ensures r.0 == least || r.1 == least
  {
    if w <= h then
      assert (h * least / w) * w == h * least;
      MulMonotone(least, w, h);
      DivAtLeast(h * least, w, least);
      (least, h * least / w)
    else
      assert (w * least / h) * h == w * least;
      MulMonotone(least, h, w);
      DivAtLeast(w * least, h, least);
      (w * least / h, least)
  }

  /** `processImage`'s sizes as evidently intended: a side below 512 after the first
      fit is scaled up until the shorter side is 512. The photo's proportions are kept. */
  function ProcessedSize(w: real, h: real): (r: (real, real))
    requires w > 0.0 && h > 0.0
    ensures r.0 >= MinDimension as real && r.1 >= MinDimension as real
    ensures r.0 * h == r.1 * w
  {
    var first := Fit(w, h, MaxDimension, MaxDimension);
    FitPositive(w, h, MaxDimension, MaxDimension);
    FitPreservesRatio(w, h, MaxDimension, MaxDimension);
    if first.0 < MinDimension as real || first.1 < MinDimension as real then
      UpscaleKeepsRatio(first, w, h);
      UpscaleToMinimum(first.0, first.1, MinDimension as real)
    else first
  }

  /** The fitted sides of a non-degenerate image into a non-degenerate box stay positive. */
  lemma FitPositive(w: real, h: real, maxW: real, maxH: real)
    requires w > 0.0 && h > 0.0 && maxW > 0.0 && maxH > 0.0
    ensures Fit(w, h, maxW, maxH).0 > 0.0 && Fit(w, h, maxW, maxH).1 > 0.0
  {
    if w > h && w > maxW {
      assert h * maxW > 0.0;
    } else if w <= h && h > maxH {
      assert w * maxH > 0.0;
    }
  }

  /** Scaling up to the minimum keeps a ratio the fitted size shares with the photo. */
  lemma UpscaleKeepsRatio(first: (real, real), w: real, h: real)
    requires first.0 > 0.0 && first.1 > 0.0 && first.0 * h == first.1 * w
    ensures var r := UpscaleToMinimum(first.0, first.1, MinDimension as real); r.0 * h == r.1 * w
  {
    var r := UpscaleToMinimum(first.0, first.1, MinDimension as real);
    RatioChain(r.0, r.1, first.0, first.1, w, h);
  }

  /** Equal ratios compose: `a : b = c : d` and `c : d = w : h` give `a : b = w : h`. */
  lemma RatioChain(a: real, b: real, c: real, d: real, w: real, h: real)
    requires a * d == b * c && c * h == d * w && d > 0.0
    ensures a * h == b * w
  {
    assert (a * h) * d == (a * d) * h == (b * c) * h == b * (c * h) == b * (d * w) == (b * w) * d;
  }

  /** `processImage` as written: the file is checked first (and its error rethrown),
      then sized by the two `compressImage` calls, so the result is never larger
      than the photo nor than 1024 on either side. */
  function ProcessImage(file: Blob, w: real, h: real): (r: Result<(real, real)>)
    requires w >= 0.0 && h >= 0.0
    ensures r.Err? <==> ValidateImageFile(file) != Valid
    ensures r.Err? ==> Invalid(r.message) == ValidateImageFile(file)
    ensures r.Ok? ==> r.value == ProcessedSizeAsWritten(w, h)
    ensures r.Ok? ==> r.value.0 <= w && r.value.1 <= h && r.value.0 <= MaxDimension && r.value.1 <= MaxDimension
  {
    match ValidateImageFile(file)
    case Invalid(error) => Err(error)
    case Valid => Ok(ProcessedSizeAsWritten(w, h))
  }

  /** `processImage` as evidently intended: the same file check, then a size whose
      sides both reach 512 and which keeps the photo's proportions. */
  function ProcessImageIntended(file: Blob, w: real, h: real): (r: Result<(real, real)>)
    requires w > 0.0 && h > 0.0
    ensures r.Err? <==> ValidateImageFile(file) != Valid
    ensures r.Err? ==> Invalid(r.message) == ValidateImageFile(file)
    ensures r.Ok? ==> r.value == ProcessedSize(w, h)
    ensures r.Ok? ==> r.value.0 >= MinDimension as real && r.value.1 >= MinDimension as real
    ensures r.Ok? ==> r.value.0 * h == r.value.1 * w
  {
    match ValidateImageFile(file)
    case Invalid(error) => Err(error)
    case Valid => Ok(ProcessedSize(w, h))
  }

  /** The two differ on a valid wide photo: as written it ends at 512 x 102.4, below
      the minimum, where the intended version reaches 512 on its shorter side. */
  lemma WidePhotoProcessing(file: Blob)
    requires ValidateImageFile(file) == Valid
    ensures ProcessImage(file, 2000.0, 400.0) == Ok((512.0, 102.4))
    ensures ProcessImageIntended(file, 2000.0, 400.0).Ok?
    ensures ProcessImageIntended(file, 2000.0, 400.0).value.1 >= MinDimension as real
  {
    WidePhotoShrinksTwice();
  }

  /** Whether `regex` `.` matches the character. */
  predicate MatchesDot(c: char) {
    !IsLineTerminator(c)
  }

  /** The lazy group `(.*?);` at the start of `t`: the text before the first `;`,
      provided no line terminator comes before it. */
  function CaptureToSemicolon(t: string): (m: Option<string>)
    ensures m.Some? ==> |m.value| < |t| && t[|m.value|] == ';' && m.value == t[..|m.value|]
    ensures m.Some? ==> forall k | 0 <= k < |m.value| :: m.value[k] != ';' && MatchesDot(m.value[k])
  {
    if t == [] then None
    else if t[0] == ';' then Some([])
    else if !MatchesDot(t[0]) then None
    else
      match CaptureToSemicolon(t[1..])
      case None => None
      case Some(m) => Some([t[0]] + m)
  }

  /** `/:(.*?);/` matches at index `i`: a `:` there, then a lazy group up to a `;`. */
  predicate MatchesAt(s: string, i: nat)
    requires i < |s|
  {
    s[i] == ':' && CaptureToSemicolon(s[i + 1..]).Some?
  }

  /** Dropping the first character shifts every match position down by one. */
  lemma MatchesAtShift(s: string)
    requires s != []
    ensures forall i {:trigger MatchesAt(s[1..], i)} | 0 <= i < |s| - 1 ::
      MatchesAt(s[1..], i) == MatchesAt(s, i + 1)
      && CaptureToSemicolon(s[1..][i + 1..]) == CaptureToSemicolon(s[i + 2..])
  {
    forall i | 0 <= i < |s| - 1
      ensures MatchesAt(s[1..], i) == MatchesAt(s, i + 1)
      ensures CaptureToSemicolon(s[1..][i + 1..]) == CaptureToSemicolon(s[i + 2..])
    {
      assert s[1..][i + 1..] == s[i + 2..];
    }
  }

  /** `s.match(/:(.*?);/)?.[1]`: the group of the leftmost match, if any. */
  function MatchMime(s: string): (m: Option<string>)
    ensures m.None? <==> forall i | 0 <= i < |s| :: !MatchesAt(s, i)
  {
    if s == [] then None
    else if s[0] == ':' && CaptureToSemicolon(s[1..]).Some? then
      assert MatchesAt(s, 0);
      CaptureToSemicolon(s[1..])
    else
      MatchesAtShift(s);
      assert !MatchesAt(s, 0);
      assert (forall i | 0 <= i < |s| - 1 :: !MatchesAt(s[1..], i)) ==> forall i | 1 <= i < |s| :: !MatchesAt(s, i) by {
        forall i | 1 <= i < |s| ensures MatchesAt(s[1..], i - 1) == MatchesAt(s, i) { }
      }
      MatchMime(s[1..])
  }

  /** A match found is the leftmost one, and its group is what `MatchMime` gives. */
  lemma {:induction false} MatchMimeLeftmost(s: string)
    ensures MatchMime(s).Some? ==> exists i | 0 <= i < |s| ::
      MatchesAt(s, i) && MatchMime(s) == CaptureToSemicolon(s[i + 1..]) && forall j | 0 <= j < i :: !MatchesAt(s, j)
  {
    if s != [] && MatchMime(s).Some? {
      if MatchesAt(s, 0) {
        assert MatchMime(s) == CaptureToSemicolon(s[1..]);
      } else {
        MatchMimeLeftmost(s[1..]);
        MatchesAtShift(s);
        var i :| 0 <= i < |s| - 1 && MatchesAt(s[1..], i) && MatchMime(s[1..]) == CaptureToSemicolon(s[1..][i + 1..])
          && forall j | 0 <= j < i :: !MatchesAt(s[1..], j);
        forall j | 0 <= j < i + 1 ensures !MatchesAt(s, j) {
          if j > 0 {
            assert MatchesAt(s[1..], j - 1) == MatchesAt(s, j);
          }
        }
        assert MatchesAt(s, i + 1) && MatchMime(s) == CaptureToSemicolon(s[i + 2..]);
      }
    }
  }

  /** The MIME type `base64ToFile` gives the file: matched in the text before the
      first comma, PNG when nothing matches or the match is empty. */
  function MimeOf(dataUrl: string): (mime: string)
    ensures mime != []
  {
    OrElse(MatchMime(Split(dataUrl, ",")[0]), DefaultMime)
  }

  /** The capture stops at the first `;` of a text that has no line terminator before it. */
  lemma {:induction false} CaptureUpTo(m: string, rest: string)
    requires forall k | 0 <= k < |m| :: m[k] != ';' && MatchesDot(m[k])
    ensures CaptureToSemicolon(m + ";" + rest) == Some(m)
  {
    var t := m + ";" + rest;
    if m != [] {
      CaptureUpTo(m[1..], rest);
      assert t[0] == m[0] && t[0] != ';' && MatchesDot(t[0]);
      assert t[1..] == m[1..] + ";" + rest;
      assert [m[0]] + m[1..] == m;
    } else {
      assert t[0] == ';';
    }
  }

  /** A character other than `:` before the match is skipped. */
  lemma MatchMimeSkipsOne(c: char, s: string)
    requires c != ':'
    ensures MatchMime([c] + s) == MatchMime(s)
  {
    assert ([c] + s)[0] == c && ([c] + s)[1..] == s;
  }

  /** Characters other than `:` before the match are skipped. */
  lemma {:induction false} MatchMimeSkips(p: string, s: string)
    requires ':' !in p
    ensures MatchMime(p + s) == MatchMime(s)
  {
    if p == [] {
      assert p + s == s;
    } else {
      assert p + s == [p[0]] + (p[1..] + s);
      MatchMimeSkipsOne(p[0], p[1..] + s);
      assert ':' !in p[1..] by {
        forall k | 0 <= k < |p| - 1 ensures p[1..][k] != ':' {
          assert p[1..][k] == p[k + 1];
        }
      }
      MatchMimeSkips(p[1..], s);
    }
  }

  /** For a data URL `data:<type>;<parameters>,<data>` (section 3 of RFC 2397, a
      `;base64` marker being one of the parameters), `MimeOf` gives exactly `<type>`,
      or PNG when the type is left out. */
  lemma DataUrlMime(mediaType: string, parameters: string, data: string)
    requires forall k | 0 <= k < |mediaType| :: mediaType[k] != ';' && mediaType[k] != ',' && MatchesDot(mediaType[k])
    requires ',' !in parameters
    ensures MimeOf("data:" + mediaType + ";" + parameters + "," + data)
      == if mediaType == [] then DefaultMime else mediaType
  {
    var header := "data:" + mediaType + ";" + parameters;
    HeaderLacksComma(mediaType, parameters);
    HeaderBeforeComma(header, data);
    HeaderMime(mediaType, parameters);
  }

  /** The match in such a header is the media type. */
  lemma HeaderMime(mediaType: string, parameters: string)
    requires forall k | 0 <= k < |mediaType| :: mediaType[k] != ';' && MatchesDot(mediaType[k])
    ensures MatchMime("data:" + mediaType + ";" + parameters) == Some(mediaType)
  {
    var rest := mediaType + ";" + parameters;
    CaptureUpTo(mediaType, parameters);
    assert "data:" + mediaType + ";" + parameters == "data" + (":" + rest);
    MatchMimeSkips("data", ":" + rest);
    assert (":" + rest)[1..] == rest;
  }

  /** The header of such a data URL has no comma. */
  lemma HeaderLacksComma(mediaType: string, parameters: string)
    requires forall k | 0 <= k < |mediaType| :: mediaType[k] != ','
    requires ',' !in parameters
    ensures ',' !in "data:" + mediaType + ";" + parameters
  {
    var header := "data:" + mediaType + ";" + parameters;
    forall k | 0 <= k < |header| ensures header[k] != ',' {
      if k >= 5 + |mediaType| + 1 {
        assert header[k] == parameters[k - 5 - |mediaType| - 1];
      } else if k >= 5 {
        assert header[k] == (mediaType + ";")[k - 5];
      }
    }
  }

  /** `split(",")[0]` of a text whose first comma follows `header` is `header`. */
  lemma HeaderBeforeComma(header: string, data: string)
    requires ',' !in header
    ensures Split(header + "," + data, ",")[0] == header
  {
    NotContainsFirstChar(header, ",");
    assert header + ","[..0] == header;
    SplitStep(header, ",", data);
  }

  /** A header without `;` (as in `data:text/plain,x`) has no match, so the type
      falls back to PNG. */
  lemma NoSemicolonMeansPng(header: string, data: string)
    requires ',' !in header && ';' !in header
    ensures MimeOf(header + "," + data) == DefaultMime
  {
    HeaderBeforeComma(header, data);
  }

  /** The data URL of a text file is given the PNG type. */
  lemma PlainTextUrlIsPng()
    ensures MimeOf("data:text/plain,x") == "image/png"
  {
    var header := "data:text/plain";
    assert header + "," + "x" == "data:text/plain,x";
    NoSemicolonMeansPng(header, "x");
  }

  /** A string with no `:` has no match, so the type falls back to PNG. */
  lemma {:induction false} NoColonMeansPng(s: string)
    requires ':' !in s
    ensures MatchMime(s) == None
  {
    if s != [] {
      MatchMimeSkips([s[0]], s[1..]);
      assert [s[0]] + s[1..] == s;
      NoColonMeansPng(s[1..]);
    }
  }

  /** A `Uint8Array` element written with a character code keeps its low eight bits. */
  function CharCode(c: char): bv8 {
    (c as int % 256) as bv8
  }

  /** The bytes of a decoded string, one per character. */
  function Bytes(s: string): seq<bv8> {
    seq(|s|, i requires 0 <= i < |s| => CharCode(s[i]))
  }

  /** The indices the `while (n--)` loop has visited after it has counted down to `n`:
      from the last index down to `n`. */
  function Countdown(len: nat, n: nat): (v: seq<nat>)
    requires n <= len
    ensures |v| == len - n && forall k | 0 <= k < |v| :: v[k] == len - 1 - k
  {
    seq(len - n, k requires 0 <= k < len - n => len - 1 - k)
  }

  /** `base64ToFile`'s copy loop: fills a new byte array from the decoded string,
      visiting each index once, from the last down to the first. */
  method CopyCharCodes(bstr: string) returns (u8arr: array<bv8>, ghost visited: seq<nat>)
    ensures u8arr[..] == Bytes(bstr)
    ensures visited == Countdown(|bstr|, 0)
  {
    var n := |bstr|;
    u8arr := new bv8[n];
    visited := [];
    while n != 0
      invariant 0 <= n <= |bstr| == u8arr.Length
      invariant forall i | n <= i < |bstr| :: u8arr[i] == CharCode(bstr[i])
      invariant visited == Countdown(|bstr|, n)
      decreases n
    {
      n := n - 1;
      u8arr[n] := CharCode(bstr[n]);
      visited := visited + [n];
    }
  }

  /** A character the File API keeps in a type: U+0020 to U+007E. */
  predicate TypeChar(c: char) {
    ' ' <= c <= '~'
  }

  function AsciiLower(c: char): (l: char)
    ensures !('A' <= l <= 'Z')
    ensures TypeChar(c) <==> TypeChar(l)
  {
    if 'A' <= c <= 'Z' then (c as int + 32) as char else c
  }

  /** The `type` a `File` constructor keeps (section 4.1 of the W3C File API): the
      empty string when any character lies outside U+0020 to U+007E, otherwise
      the text in ASCII lower case. */
  function FileType(t: string): (r: string)
    ensures r == [] <==> t == [] || exists k | 0 <= k < |t| :: !TypeChar(t[k])
    ensures r != [] ==> |r| == |t| && forall k | 0 <= k < |r| :: AsciiLower(t[k]) == r[k]
    ensures forall k | 0 <= k < |r| :: TypeChar(r[k]) && !('A' <= r[k] <= 'Z')
  {
    if forall k | 0 <= k < |t| :: TypeChar(t[k]) then seq(|t|, k requires 0 <= k < |t| => AsciiLower(t[k]))
    else []
  }

  /** A type already in the File API's form is kept as it is. */
  lemma FileTypeKeepsNormalForm(t: string)
    requires forall k | 0 <= k < |t| :: TypeChar(t[k]) && !('A' <= t[k] <= 'Z')
    ensures FileType(t) == t
  {
    assert forall k | 0 <= k < |t| :: AsciiLower(t[k]) == t[k];
  }

  /** Normalising twice is normalising once, and each accepted type is kept. */
  lemma FileTypeIdempotent(t: string)
    ensures FileType(FileType(t)) == FileType(t)
    ensures forall a | a in AllowedTypes :: FileType(a) == a
  {
    FileTypeKeepsNormalForm(FileType(t));
    forall a | a in AllowedTypes ensures FileType(a) == a {
      FileTypeKeepsNormalForm(a);
    }
  }

  const UpperPng := "IMAGE/PNG"

  /** A data URL whose media type is written in capitals, whatever its
      parameters (`base64` among them), is parsed as written. */
  lemma UpperCaseDataUrlMime(parameters: string, data: string)
    requires ',' !in parameters
    ensures MimeOf("data:" + UpperPng + ";" + parameters + "," + data) == UpperPng
  {
    forall k | 0 <= k < |UpperPng|
      ensures UpperPng[k] != ';' && UpperPng[k] != ',' && MatchesDot(UpperPng[k])
    {
    }
    DataUrlMime(UpperPng, parameters, data);
  }

  /** The `File` constructor lowercases that type, so the photo check accepts the
      file; a type with a character beyond U+007E is dropped and the file refused. */
  lemma UpperCaseTypeIsAccepted(bytes: seq<bv8>)
    requires |bytes| <= MaxFileSize
    ensures FileType(UpperPng) == "image/png"
    ensures ValidateImageFile(Blob("photo.png", FileType(UpperPng), bytes)) == Valid
    ensures FileType("image/pngé") == []
    ensures ValidateImageFile(Blob("photo.png", FileType("image/pngé"), bytes)) == Invalid(FormatError)
  {
    var r := FileType(UpperPng);
    assert |r| == 9;
    assert r == "image/png" by {
      forall k | 0 <= k < 9 ensures r[k] == "image/png"[k] {
        assert r[k] == AsciiLower(UpperPng[k]);
      }
    }
    assert !TypeChar("image/pngé"[9]);
    assert "image/png" == AllowedTypes[0];
  }

  /** `base64ToFile(base64, filename)`, given the string `atob` decodes from the part
      after the first comma. `new File` keeps the parsed type in its normal form. */
  method Base64ToFile(base64: string, filename: string, decoded: string) returns (file: Blob)
    ensures file.name == filename && file.mimeType == FileType(MimeOf(base64))
    ensures |file.bytes| == |decoded| && forall i | 0 <= i < |decoded| :: file.bytes[i] == CharCode(decoded[i])
  {
    var mime := MimeOf(base64);
    var u8arr, _ := CopyCharCodes(decoded);
    file := Blob(filename, FileType(mime), u8arr[..]);
  }
}
