/** Normalisation of artist statistics and top tracks before they are sent
    to clients: numeric fields get defaults, lists keep their order. */
module ResponseNormalizer {
  import opened Wrappers
  import opened JsNumbers

  /** One image as the provider describes it; height and width may be
      missing, null or garbage. */
  datatype SpotifyImage = SpotifyImage(url: string, height: JsValue, width: JsValue)

  /** The `genres` field: an array, or anything else. */
  datatype GenreList = Genres(items: seq<string>) | NotAnArray

  /** The `ArtistStats` record. `images` is None when the field is absent. */
  datatype ArtistStats = ArtistStats(
    popularity: JsValue,
    followers: JsValue,
    genres: GenreList,
    name: string,
    images: Option<seq<SpotifyImage>>,
    spotifyUrl: string,
    id: string,
    lastUpdated: string)

  /** One top track; only the two numeric fields are touched by the
      normaliser, the rest travel as they are. */
  datatype TopTrack = TopTrack(id: string, name: string, durationMs: JsValue, popularity: JsValue)

  /** `Number(v) || 0` */
  function NumberOrZero(v: JsValue): (r: JsValue)
    ensures r.Number? && r.v.Finite?
    ensures r.v.n != 0 <==> Truthy(ToNumber(v))
    ensures r.v.n != 0 ==> r == Number(ToNumber(v))
  {
    if Truthy(ToNumber(v)) then Number(ToNumber(v)) else Number(Finite(0))
  }

  /** `Number(v) || null` */
  function NumberOrNull(v: JsValue): (r: JsValue)
    ensures r.Null? <==> !Truthy(ToNumber(v))
    ensures !r.Null? ==> r == Number(ToNumber(v))
  {
    if Truthy(ToNumber(v)) then Number(ToNumber(v)) else Null
  }

  function NormalizeImage(img: SpotifyImage): SpotifyImage
  {
    SpotifyImage(img.url, NumberOrNull(img.height), NumberOrNull(img.width))
  }

  /** `ResponseNormalizer.normalizeArtistStats`. `stats.images.map(...)` needs
      the field to be present, so its presence is the caller's obligation. */
  function NormalizeArtistStats(stats: ArtistStats): (r: ArtistStats)
    requires stats.images.Some?
    ensures r.followers == NumberOrZero(stats.followers)
    ensures r.popularity == NumberOrZero(stats.popularity)
    ensures r.genres == if stats.genres.Genres? then stats.genres else Genres([])
    ensures r.images.Some? && |r.images.value| == |stats.images.value|
    ensures forall i :: 0 <= i < |r.images.value| ==>
              r.images.value[i] == NormalizeImage(stats.images.value[i])
    ensures r.name == stats.name && r.id == stats.id
    ensures r.spotifyUrl == stats.spotifyUrl && r.lastUpdated == stats.lastUpdated
  {
    var imgs := stats.images.value;
    stats.(
      followers := NumberOrZero(stats.followers),
      popularity := NumberOrZero(stats.popularity),
      genres := if stats.genres.Genres? then stats.genres else Genres([]),
      images := Some(seq(|imgs|, i requires 0 <= i < |imgs| => NormalizeImage(imgs[i]))))
  }

  /** A numeric field holds a number that is not NaN. */
  predicate IsCount(v: JsValue) { v.Number? && v.v.Finite? }

  /** An image dimension is null or a non-zero number. */
  predicate IsDimension(v: JsValue) { v.Null? || (v.Number? && Truthy(v.v)) }

  /** The shape every normalised record has. */
  predicate IsNormalized(stats: ArtistStats)
  {
    && IsCount(stats.followers)
    && IsCount(stats.popularity)
    && stats.genres.Genres?
    && stats.images.Some?
    && forall i :: 0 <= i < |stats.images.value| ==>
         IsDimension(stats.images.value[i].height) && IsDimension(stats.images.value[i].width)
  }

  /** Every result of the normaliser has the normalised shape, and a record
      is left exactly as it is if and only if it already has that shape. */
  lemma NormalizedShape(stats: ArtistStats)
    requires stats.images.Some?
    ensures IsNormalized(NormalizeArtistStats(stats))
    ensures NormalizeArtistStats(stats) == stats <==> IsNormalized(stats)
  {
    var r := NormalizeArtistStats(stats);
    var imgs := stats.images.value;
    if IsNormalized(stats) {
      assert r.images.value == imgs by {
        forall i | 0 <= i < |imgs| ensures r.images.value[i] == imgs[i] {
          assert IsDimension(imgs[i].height) && IsDimension(imgs[i].width);
        }
      }
    }
  }

  /** Normalising twice gives the same record as normalising once. */
  lemma NormalizeArtistStatsIdempotent(stats: ArtistStats)
    requires stats.images.Some?
    ensures NormalizeArtistStats(NormalizeArtistStats(stats)) == NormalizeArtistStats(stats)
  {
    NormalizedShape(stats);
    NormalizedShape(NormalizeArtistStats(stats));
  }

  function NormalizeTrack(track: TopTrack): TopTrack
  {
    track.(durationMs := Number(ToNumber(track.durationMs)),
           popularity := Number(ToNumber(track.popularity)))
  }

  /** `ResponseNormalizer.normalizeTopTracks`: no defaults here, so a missing
      duration becomes NaN. */
  function NormalizeTopTracks(tracks: seq<TopTrack>): (r: seq<TopTrack>)
    ensures |r| == |tracks|
    ensures forall i :: 0 <= i < |r| ==>
              && r[i].id == tracks[i].id && r[i].name == tracks[i].name
              && r[i].durationMs == Number(ToNumber(tracks[i].durationMs))
              && r[i].popularity == Number(ToNumber(tracks[i].popularity))
  {
    seq(|tracks|, i requires 0 <= i < |tracks| => NormalizeTrack(tracks[i]))
  }

  /** Normalising the track list twice changes nothing more. */
  lemma NormalizeTopTracksIdempotent(tracks: seq<TopTrack>)
    ensures NormalizeTopTracks(NormalizeTopTracks(tracks)) == NormalizeTopTracks(tracks)
  {
  }
}
