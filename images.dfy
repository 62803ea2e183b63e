/**
 * Image addresses (lib/tmdb/images.ts with the size table of
 * lib/constants.ts): catalogue image URLs by size, responsive source sets,
 * video thumbnails and placeholders.
 */
module Images {
  import opened Common

  /** `TMDB_IMAGE_BASE_URL` */
  const ImageBase: string := "https://image.tmdb.org/t/p/"

  datatype PosterSize = PosterXs | PosterSm | PosterMd | PosterLg | PosterXl | Poster2xl | PosterOriginal
  datatype BackdropSize = BackdropSm | BackdropMd | BackdropLg | BackdropOriginal
  datatype ProfileSize = ProfileSm | ProfileMd | ProfileLg | ProfileOriginal

  /** `TMDB_IMAGE_SIZES.poster` */
  function PosterCode(s: PosterSize): string {
    match s
    case PosterXs => "w92"
    case PosterSm => "w154"
    case PosterMd => "w185"
    case PosterLg => "w342"
    case PosterXl => "w500"
    case Poster2xl => "w780"
    case PosterOriginal => "original"
  }

  /** `TMDB_IMAGE_SIZES.backdrop` */
  function BackdropCode(s: BackdropSize): string {
    match s
    case BackdropSm => "w300"
    case BackdropMd => "w780"
    case BackdropLg => "w1280"
    case BackdropOriginal => "original"
  }

  /** `TMDB_IMAGE_SIZES.profile` */
  function ProfileCode(s: ProfileSize): string {
    match s
    case ProfileSm => "w45"
    case ProfileMd => "w185"
    case ProfileLg => "h632"
    case ProfileOriginal => "original"
  }

  /** `!path`: a missing or empty path. */
  predicate Blank(path: Option<string>) {
    path.None? || path.value == ""
  }

  /** The address of `path` at the size whose code is `code`. */
  function ImageUrl(code: string, path: Option<string>): (r: Option<string>)
    ensures r.None? <==> Blank(path)
    ensures r.Some? ==> |r.value| > |ImageBase + code| && r.value[..|ImageBase + code|] == ImageBase + code
  {
    if Blank(path) then None else Some(ImageBase + code + path.value)
  }

  /** The image path back from an address built at a known size. */
  function PathOf(code: string, url: string): string
    requires |url| >= |ImageBase + code|
  {
    url[|ImageBase + code|..]
  }

  /** An address gives its path back, so one size never maps two paths to one address. */
  lemma ImageUrlRoundTrip(code: string, path: Option<string>, other: Option<string>)
    ensures ImageUrl(code, path).Some? ==> Some(PathOf(code, ImageUrl(code, path).value)) == path
    ensures ImageUrl(code, path).Some? && ImageUrl(code, path) == ImageUrl(code, other) ==> path == other
  {
    if ImageUrl(code, path).Some? {
      assert (ImageBase + code + path.value)[|ImageBase + code|..] == path.value;
      if ImageUrl(code, path) == ImageUrl(code, other) {
        assert (ImageBase + code + other.value)[|ImageBase + code|..] == other.value;
      }
    }
  }

  /** `getPosterUrl(path, size = 'md')` */
  function PosterUrl(path: Option<string>, size: PosterSize := PosterMd): (r: Option<string>)
    ensures r.None? <==> Blank(path)
    ensures r.Some? ==> |r.value| > |ImageBase + PosterCode(size)| && Some(PathOf(PosterCode(size), r.value)) == path
  {
    ImageUrlRoundTrip(PosterCode(size), path, path);
    ImageUrl(PosterCode(size), path)
  }

  /** `getBackdropUrl(path, size = 'lg')` */
  function BackdropUrl(path: Option<string>, size: BackdropSize := BackdropLg): (r: Option<string>)
    ensures r.None? <==> Blank(path)
    ensures r.Some? ==> |r.value| > |ImageBase + BackdropCode(size)| && Some(PathOf(BackdropCode(size), r.value)) == path
  {
    ImageUrlRoundTrip(BackdropCode(size), path, path);
    ImageUrl(BackdropCode(size), path)
  }

  /** `getProfileUrl(path, size = 'md')` */
  function ProfileUrl(path: Option<string>, size: ProfileSize := ProfileMd): (r: Option<string>)
    ensures r.None? <==> Blank(path)
    ensures r.Some? ==> |r.value| > |ImageBase + ProfileCode(size)| && Some(PathOf(ProfileCode(size), r.value)) == path
  {
    ImageUrlRoundTrip(ProfileCode(size), path, path);
    ImageUrl(ProfileCode(size), path)
  }

  /** The defaults: a poster at 'md' (w185), a backdrop at 'lg' (w1280), a profile at 'md' (w185). */
  lemma DefaultSizes(path: Option<string>)
    ensures PosterUrl(path) == ImageUrl("w185", path)
    ensures BackdropUrl(path) == ImageUrl("w1280", path)
    ensures ProfileUrl(path) == ImageUrl("w185", path)
  {
  }

  /** One source-set entry: `${url} ${width}w` */
  function SrcSetEntry(url: string, width: int): string {
    url + " " + IntToString(width) + "w"
  }

  const PosterSrcSizes: seq<PosterSize> := [PosterSm, PosterMd, PosterLg, PosterXl]
  const PosterSrcWidths: seq<nat> := [154, 185, 342, 500]
  const BackdropSrcSizes: seq<BackdropSize> := [BackdropSm, BackdropMd, BackdropLg]
  const BackdropSrcWidths: seq<nat> := [300, 780, 1280]

  /** Each poster source-set width is the number in its size's code `wNNN`. */
  lemma PosterSrcWidthsMatchCodes()
    ensures |PosterSrcSizes| == |PosterSrcWidths| == 4
    ensures forall i :: 0 <= i < 4 ==> PosterCode(PosterSrcSizes[i]) == "w" + NatToString(PosterSrcWidths[i])
  {
    assert NatToString(154) == "154" && NatToString(185) == "185";
    assert NatToString(342) == "342" && NatToString(500) == "500";
  }

  /** Each backdrop source-set width is the number in its size's code `wNNN`. */
  lemma BackdropSrcWidthsMatchCodes()
    ensures |BackdropSrcSizes| == |BackdropSrcWidths| == 3
    ensures forall i :: 0 <= i < 3 ==> BackdropCode(BackdropSrcSizes[i]) == "w" + NatToString(BackdropSrcWidths[i])
  {
    assert NatToString(300) == "300" && NatToString(780) == "780";
    assert NatToString(1280) == "1280";
  }

  /** `getPosterSrcSet(path)` */
  function PosterSrcSet(path: Option<string>): (r: Option<string>)
    ensures r.None? <==> Blank(path)
  {
    if Blank(path) then None
    else
      var entries := seq(4, i requires 0 <= i < 4 =>
        SrcSetEntry(PosterUrl(path, PosterSrcSizes[i]).value, PosterSrcWidths[i]));
      Some(Join(entries, ", "))
  }

  /** `getBackdropSrcSet(path)` */
  function BackdropSrcSet(path: Option<string>): (r: Option<string>)
    ensures r.None? <==> Blank(path)
  {
    if Blank(path) then None
    else
      var entries := seq(3, i requires 0 <= i < 3 =>
        SrcSetEntry(BackdropUrl(path, BackdropSrcSizes[i]).value, BackdropSrcWidths[i]));
      Some(Join(entries, ", "))
  }

  /**
   * The poster set joins, with ", ", the sm, md, lg and xl addresses with
   * widths 154, 185, 342 and 500; each entry reads `<url> <width>w`.
   */
  lemma PosterSrcSetEntries(p: string)
    requires p != ""
    ensures PosterSrcSet(Some(p)) == Some(Join([
      SrcSetEntry(ImageBase + "w154" + p, 154), SrcSetEntry(ImageBase + "w185" + p, 185),
      SrcSetEntry(ImageBase + "w342" + p, 342), SrcSetEntry(ImageBase + "w500" + p, 500)], ", "))
  {
    var entries := seq(4, i requires 0 <= i < 4 =>
      SrcSetEntry(PosterUrl(Some(p), PosterSrcSizes[i]).value, PosterSrcWidths[i]));
    assert entries[0] == SrcSetEntry(ImageBase + "w154" + p, 154);
    assert entries[1] == SrcSetEntry(ImageBase + "w185" + p, 185);
    assert entries[2] == SrcSetEntry(ImageBase + "w342" + p, 342);
    assert entries[3] == SrcSetEntry(ImageBase + "w500" + p, 500);
    assert entries == [entries[0], entries[1], entries[2], entries[3]];
  }

  /** The backdrop set joins the sm, md and lg addresses with widths 300, 780 and 1280. */
  lemma BackdropSrcSetEntries(p: string)
    requires p != ""
    ensures BackdropSrcSet(Some(p)) == Some(Join([
      SrcSetEntry(ImageBase + "w300" + p, 300), SrcSetEntry(ImageBase + "w780" + p, 780),
      SrcSetEntry(ImageBase + "w1280" + p, 1280)], ", "))
  {
    var entries := seq(3, i requires 0 <= i < 3 =>
      SrcSetEntry(BackdropUrl(Some(p), BackdropSrcSizes[i]).value, BackdropSrcWidths[i]));
    assert entries[0] == SrcSetEntry(ImageBase + "w300" + p, 300);
    assert entries[1] == SrcSetEntry(ImageBase + "w780" + p, 780);
    assert entries[2] == SrcSetEntry(ImageBase + "w1280" + p, 1280);
    assert entries == [entries[0], entries[1], entries[2]];
  }

  datatype ThumbnailQuality = QualityDefault | QualityHq | QualityMq | QualitySd | QualityMaxres

  /** `qualityMap` */
  function QualityFile(q: ThumbnailQuality): string {
    match q
    case QualityDefault => "default"
    case QualityMq => "mqdefault"
    case QualityHq => "hqdefault"
    case QualitySd => "sddefault"
    case QualityMaxres => "maxresdefault"
  }

  /** `getYouTubeThumbnail(videoKey, quality = 'hq')` */
  function YouTubeThumbnail(videoKey: string, quality: ThumbnailQuality := QualityHq): string {
    "https://img.youtube.com/vi/" + videoKey + "/" + QualityFile(quality) + ".jpg"
  }

  /** Distinct qualities name distinct files, and the default is `hqdefault.jpg`. */
  lemma ThumbnailQualities(key: string, q1: ThumbnailQuality, q2: ThumbnailQuality)
    ensures QualityFile(q1) == QualityFile(q2) <==> q1 == q2
    ensures YouTubeThumbnail(key) == "https://img.youtube.com/vi/" + key + "/hqdefault.jpg"
  {
    if q1 != q2 {
      var f1 := QualityFile(q1);
      var f2 := QualityFile(q2);
      if |f1| == |f2| {
        assert f1[0] != f2[0];
      }
    }
  }

  datatype PlaceholderKind = PlaceholderPoster | PlaceholderBackdrop | PlaceholderProfile

  function KindName(k: PlaceholderKind): string {
    match k
    case PlaceholderPoster => "poster"
    case PlaceholderBackdrop => "backdrop"
    case PlaceholderProfile => "profile"
  }

  /** `getPlaceholderImage(type, width, height)` */
  function PlaceholderImage(kind: PlaceholderKind, width: int, height: int): (r: string)
    ensures |r| > 28 && r[..28] == "https://via.placeholder.com/"
  {
    "https://via.placeholder.com/" + IntToString(width) + "x" + IntToString(height) + "/1a1a1a/666666?text=" + KindName(kind)
  }
}
