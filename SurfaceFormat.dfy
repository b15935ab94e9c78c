/** The rule `State::new` uses to pick the surface's texture format from the
    capabilities the surface reports for the adapter. */
module SurfaceFormat {
  import opened Platform

  /** `k` is the position of the first sRGB format in `formats`. */
  predicate FirstSrgbAt(formats: seq<TextureFormat>, k: int)
  {
    0 <= k < |formats| && IsSrgb(formats[k]) &&
    forall j :: 0 <= j < k ==> !IsSrgb(formats[j])
  }

  /** `formats.iter().find(|f| f.is_srgb()).copied()`: the first sRGB format,
      or nothing when the list holds none. */
  function FindSrgb(formats: seq<TextureFormat>): (r: Option<TextureFormat>)
    ensures r.None? <==> forall i :: 0 <= i < |formats| ==> !IsSrgb(formats[i])
    ensures r.Some? ==> exists k :: FirstSrgbAt(formats, k) && formats[k] == r.value
  {
    if formats == [] then None
    else if IsSrgb(formats[0]) then
      assert FirstSrgbAt(formats, 0);
      Some(formats[0])
    else
      var rest := FindSrgb(formats[1..]);
      if rest.Some? then
        var k :| FirstSrgbAt(formats[1..], k) && formats[1..][k] == rest.value;
        assert FirstSrgbAt(formats, k + 1);
        rest
      else
        assert forall i :: 0 < i < |formats| ==> formats[i] == formats[1..][i - 1];
        rest
  }

  /** The surface format of `State::new`: the first sRGB format the surface
      supports, falling back to the first format listed. The source indexes
      `formats[0]` unconditionally, so an empty list is a panic there. */
  function ChooseSurfaceFormat(formats: seq<TextureFormat>): (f: TextureFormat)
    requires |formats| > 0
    ensures f in formats
    ensures forall k :: FirstSrgbAt(formats, k) ==> f == formats[k]
    ensures (forall i :: 0 <= i < |formats| ==> !IsSrgb(formats[i])) ==> f == formats[0]
    ensures IsSrgb(f) <==> exists i :: 0 <= i < |formats| && IsSrgb(formats[i])
  {
    match FindSrgb(formats)
    case Some(srgb) =>
      FirstSrgbUnique(formats);
      srgb
    case None => formats[0]
  }

  /** There is at most one first sRGB position. */
  lemma FirstSrgbUnique(formats: seq<TextureFormat>)
    ensures forall k, m :: FirstSrgbAt(formats, k) && FirstSrgbAt(formats, m) ==> k == m
  {
  }
}
