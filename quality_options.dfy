/**
 * The streaming-quality preset resolver of the player's settings menu
 * (src/components/qualityOptions.js): it builds the ordered list of video
 * or audio presets a user can pick from and marks the one that matches the
 * current bitrate cap.
 *
 * The two exported functions build a mutable array by successive pushes, scan
 * it with a `for` loop that breaks on the first match, and then mutate one
 * entry in place. Here they are methods over a local `seq` that is reassigned
 * at each push and at each in-place update; each method is proved equal to a
 * declarative specification function defined next to it.
 */
module QualityOptions {
  import opened Wrappers

  /** One preset. `maxHeight`, `selected` and `autoText` are None where the
      source leaves the property out of the object literal. */
  datatype QualityOption = QualityOption(
    name: string,
    bitrate: nat,
    maxHeight: Option<int>,
    selected: Option<bool>,
    autoText: Option<string>)

  /** The `options` argument. A missing JavaScript property is None.
      `maxVideoWidth` is not kept: it only feeds `hostScreenWidth`, which the
      source computes and never reads. */
  datatype QualityContext = QualityContext(
    currentMaxBitrate: Option<int>,
    videoWidth: Option<nat>,
    videoHeight: Option<nat>,
    enableAuto: bool,
    isAutomaticBitrateEnabled: bool)

  function VideoTier(name: string, maxHeight: int, bitrate: nat): QualityOption
  {
    QualityOption(name, bitrate, Some(maxHeight), None, None)
  }

  function AudioTier(name: string, bitrate: nat): QualityOption
  {
    QualityOption(name, bitrate, None, None, None)
  }

  /** The synthetic "Auto" entry; `autoLabel` is the translated word "Auto". */
  function AutoOption(autoLabel: string, automatic: bool): QualityOption
  {
    QualityOption(autoLabel, 0, None, Some(automatic), None)
  }

  // ---------------------------------------------------------------------------
  // Widths

  /** A width after the aspect step: a pixel count taken from the source, or
      the pillarboxed width height * 16 / 9, kept exact by recording the height. */
  datatype Width = Pixels(px: nat) | Pillarboxed(height: nat)

  /** The number the JavaScript variable holds, as an exact real. */
  function WidthValue(w: Width): real
  {
    match w
    case Pixels(p) => p as real
    case Pillarboxed(h) => (h as real) * 16.0 / 9.0
  }

  /** `width >= t` decided on integers: 16h/9 >= t exactly when 16h >= 9t. */
  predicate AtLeast(w: Width, t: nat)
  {
    match w
    case Pixels(p) => p >= t
    case Pillarboxed(h) => 16 * h >= 9 * t
  }

  /** The test `videoWidth / videoHeight < 16 / 9`, cross-multiplied. In
      JavaScript it is false whenever the quotient is NaN (a missing operand,
      or 0 / 0) or +Infinity (a positive width over a zero height). */
  predicate NarrowerThanWidescreen(videoWidth: Option<nat>, videoHeight: Option<nat>)
    ensures NarrowerThanWidescreen(videoWidth, videoHeight) ==>
              videoWidth.Some? && videoHeight.Some? &&
              WidthValue(Pillarboxed(videoHeight.value)) > videoWidth.value as real
  {
    videoWidth.Some? && videoHeight.Some? && videoHeight.value > 0
    && 9 * videoWidth.value < 16 * videoHeight.value
  }

  /** `videoWidth` after the pillarbox correction; None is `undefined`. */
  function EffectiveWidth(videoWidth: Option<nat>, videoHeight: Option<nat>): (r: Option<Width>)
    ensures r.None? <==> videoWidth.None?
    ensures r.Some? ==> WidthValue(r.value) >= videoWidth.value as real
    ensures r.Some? && !NarrowerThanWidescreen(videoWidth, videoHeight) ==> r.value == Pixels(videoWidth.value)
  {
    if NarrowerThanWidescreen(videoWidth, videoHeight) then Some(Pillarboxed(videoHeight.value))
    else match videoWidth
      case None => None
      case Some(w) => Some(Pixels(w))
  }

  /** `videoWidth || 4096`: undefined and 0 are falsy. */
  function MaxAllowedWidth(videoWidth: Option<Width>): (r: Width)
    ensures WidthValue(r) > 0.0
    ensures videoWidth.Some? && WidthValue(videoWidth.value) != 0.0 ==> r == videoWidth.value
    ensures videoWidth.None? || WidthValue(videoWidth.value) == 0.0 ==> r == Pixels(4096)
  {
    match videoWidth
    case None => Pixels(4096)
    case Some(w) => if WidthValue(w) == 0.0 then Pixels(4096) else w
  }

  // ---------------------------------------------------------------------------
  // The video tier table

  /** A video tier with the least `maxAllowedWidth` that admits it. */
  datatype Rung = Rung(minWidth: nat, name: string, maxHeight: int, bitrate: nat)
  {
    function Preset(): QualityOption
    {
      VideoTier(name, maxHeight, bitrate)
    }
  }

  /** The video tiers in push order, each with the threshold that gates it.
      The 360p floor is pushed unconditionally, which threshold 0 expresses. */
  const VideoLadder: seq<Rung> := [
    Rung(3800, "4K - 8 Mbps", 2160, 8000000),
    Rung(3800, "4K - 6 Mbps", 2160, 6000000),
    Rung(2500, "2K - 4 Mbps", 1440, 4000000),
    Rung(2500, "2K - 3.5 Mbps", 1440, 3500000),
    Rung(1900, "1080p - 3 Mbps", 1080, 3000000),
    Rung(1900, "1080p - 2 Mbps", 1080, 2000000),
    Rung(1260, "720p - 1.5 Mbps", 720, 1500000),
    Rung(1260, "720p - 1 Mbps", 720, 1000000),
    Rung(620, "480p - 720 kbps", 480, 750000),
    Rung(620, "480p - 420 kbps", 480, 420001),
    Rung(0, "360p - 420 kbps", 360, 420000)
  ]

  /** The lowest video tier. */
  const Floor: QualityOption := VideoTier("360p - 420 kbps", 360, 420000)

  /** The presets of the rungs whose threshold `w` meets, in table order. */
  function Admitted(ladder: seq<Rung>, w: Width): (r: seq<QualityOption>)
    ensures forall m :: 0 <= m < |r| ==> r[m].selected == None && r[m].autoText == None
  {
    if ladder == [] then []
    else
      var last := ladder[|ladder| - 1];
      Admitted(ladder[..|ladder| - 1], w) + (if AtLeast(w, last.minWidth) then [last.Preset()] else [])
  }

  /** The video tiers offered at width `w`; the list always ends with the floor. */
  function VideoTiers(w: Width): (r: seq<QualityOption>)
    ensures |r| > 0 && r[|r| - 1] == Floor
  {
    Admitted(VideoLadder, w)
  }

  /** The nine audio tiers in push order. */
  const AudioTiers: seq<QualityOption> := [
    AudioTier("2 Mbps", 2000000),
    AudioTier("1.5 Mbps", 1500000),
    AudioTier("1 Mbps", 1000000),
    AudioTier("320 kbps", 320000),
    AudioTier("256 kbps", 256000),
    AudioTier("192 kbps", 192000),
    AudioTier("128 kbps", 128000),
    AudioTier("96 kbps", 96000),
    AudioTier("64 kbps", 64000)
  ]

  // ---------------------------------------------------------------------------
  // Selection

  /** JavaScript truthiness of `maxStreamingBitrate`: undefined and 0 are falsy. */
  predicate CapIsSet(cap: Option<int>)
  {
    cap.Some? && cap.value != 0
  }

  /** An entry the scan stops at: a real tier (positive bitrate) within the cap. */
  predicate Fits(o: QualityOption, cap: int)
  {
    0 < o.bitrate <= cap
  }

  /** The least index of an entry that fits, if any. */
  function FirstFit(options: seq<QualityOption>, cap: int): (r: Option<nat>)
    ensures r.Some? ==> r.value < |options| && Fits(options[r.value], cap)
    ensures r.Some? ==> forall j :: 0 <= j < r.value ==> !Fits(options[j], cap)
    ensures r.None? ==> forall j :: 0 <= j < |options| ==> !Fits(options[j], cap)
  {
    if options == [] then None
    else if Fits(options[0], cap) then Some(0)
    else match FirstFit(options[1..], cap)
      case None => None
      case Some(i) => Some(i + 1)
  }

  /** The index the scan settles on: the first fit, else the last entry. */
  function ChosenIndex(options: seq<QualityOption>, cap: int): (r: nat)
    requires |options| > 0
    ensures r < |options|
    ensures (exists j :: 0 <= j < |options| && Fits(options[j], cap)) ==>
              Fits(options[r], cap) && forall j :: 0 <= j < r ==> !Fits(options[j], cap)
    ensures (forall j :: 0 <= j < |options| ==> !Fits(options[j], cap)) ==> r == |options| - 1
  {
    match FirstFit(options, cap)
    case Some(i) => i
    case None => |options| - 1
  }

  /** The index of the first tier: Auto occupies index 0 exactly when enabled. */
  function AutoOffset(ctx: QualityContext): nat
  {
    if ctx.enableAuto then 1 else 0
  }

  /** The list before selection: the Auto entry when enabled, then the tiers. */
  function Listing(ctx: QualityContext, autoLabel: string, tiers: seq<QualityOption>): (r: seq<QualityOption>)
    ensures |r| == AutoOffset(ctx) + |tiers|
    ensures ctx.enableAuto ==> r[0] == AutoOption(autoLabel, ctx.isAutomaticBitrateEnabled)
    ensures |tiers| > 0 ==> r[|r| - 1] == tiers[|tiers| - 1]
  {
    (if ctx.enableAuto then [AutoOption(autoLabel, ctx.isAutomaticBitrateEnabled)] else []) + tiers
  }

  /** The list after the cap-based selection. With automatic bitrate off the
      chosen entry gains `selected = true`; with it on the Auto record gains
      `autoText`, which is visible only when that record is entry 0 of the list. */
  function Resolve(built: seq<QualityOption>, ctx: QualityContext): (r: seq<QualityOption>)
    requires |built| > 0
    ensures |r| == |built|
    ensures forall k :: 0 <= k < |built| ==>
              r[k].name == built[k].name && r[k].bitrate == built[k].bitrate && r[k].maxHeight == built[k].maxHeight
    ensures !CapIsSet(ctx.currentMaxBitrate) ==> r == built
  {
    if !CapIsSet(ctx.currentMaxBitrate) then built
    else
      var chosen := ChosenIndex(built, ctx.currentMaxBitrate.value);
      if !ctx.isAutomaticBitrateEnabled then built[chosen := built[chosen].(selected := Some(true))]
      else if ctx.enableAuto then built[0 := built[0].(autoText := Some(built[chosen].name))]
      else built
  }

  /** What `getVideoQualityOptions` returns. */
  function VideoQualityOptions(ctx: QualityContext, autoLabel: string): (r: seq<QualityOption>)
    ensures |r| > AutoOffset(ctx)
    ensures r[|r| - 1].name == "360p - 420 kbps" && r[|r| - 1].bitrate == 420000
  {
    var tiers := VideoTiers(MaxAllowedWidth(EffectiveWidth(ctx.videoWidth, ctx.videoHeight)));
    Resolve(Listing(ctx, autoLabel, tiers), ctx)
  }

  /** What `getAudioQualityOptions` returns. */
  function AudioQualityOptions(ctx: QualityContext, autoLabel: string): (r: seq<QualityOption>)
    ensures |r| == AutoOffset(ctx) + 9
    ensures r[|r| - 1].name == "64 kbps" && r[|r| - 1].bitrate == 64000
  {
    Resolve(Listing(ctx, autoLabel, AudioTiers), ctx)
  }

  // ---------------------------------------------------------------------------
  // The methods

  lemma AdmittedStep(ladder: seq<Rung>, n: nat, w: Width)
    requires 0 < n <= |ladder|
    ensures Admitted(ladder[..n], w)
         == Admitted(ladder[..n - 1], w)
            + (if AtLeast(w, ladder[n - 1].minWidth) then [ladder[n - 1].Preset()] else [])
  {
    assert ladder[..n][..n - 1] == ladder[..n - 1];
  }

  /** A pair of tiers pushed together under one width threshold. */
  function Gate(w: Width, threshold: nat, first: QualityOption, second: QualityOption): seq<QualityOption>
  {
    if AtLeast(w, threshold) then [first, second] else []
  }

  /** Two adjacent rungs with one threshold are admitted together. */
  lemma AdmittedPair(ladder: seq<Rung>, n: nat, w: Width)
    requires 2 <= n <= |ladder|
    requires ladder[n - 2].minWidth == ladder[n - 1].minWidth
    ensures Admitted(ladder[..n], w)
         == Admitted(ladder[..n - 2], w)
            + (if AtLeast(w, ladder[n - 1].minWidth) then [ladder[n - 2].Preset(), ladder[n - 1].Preset()] else [])
  {
    AdmittedStep(ladder, n, w);
    AdmittedStep(ladder, n - 1, w);
  }

  /** The table read back as the source's gated pushes. */
  lemma VideoTiersByBlocks(w: Width)
    ensures VideoTiers(w)
         == Gate(w, 3800, VideoTier("4K - 8 Mbps", 2160, 8000000), VideoTier("4K - 6 Mbps", 2160, 6000000))
          + Gate(w, 2500, VideoTier("2K - 4 Mbps", 1440, 4000000), VideoTier("2K - 3.5 Mbps", 1440, 3500000))
          + Gate(w, 1900, VideoTier("1080p - 3 Mbps", 1080, 3000000), VideoTier("1080p - 2 Mbps", 1080, 2000000))
          + Gate(w, 1260, VideoTier("720p - 1.5 Mbps", 720, 1500000), VideoTier("720p - 1 Mbps", 720, 1000000))
          + Gate(w, 620, VideoTier("480p - 720 kbps", 480, 750000), VideoTier("480p - 420 kbps", 480, 420001))
          + [Floor]
  {
    var l := VideoLadder;
    assert l[..0] == [];
    AdmittedPair(l, 2, w);
    AdmittedPair(l, 4, w);
    AdmittedPair(l, 6, w);
    AdmittedPair(l, 8, w);
    AdmittedPair(l, 10, w);
    AdmittedStep(l, 11, w);
    assert l[..11] == l;
  }

  /** The first-match scan: the first entry with `0 < bitrate <= cap`, else the last. */
  method FindSelectedIndex(qualityOptions: seq<QualityOption>, maxStreamingBitrate: int)
    returns (selectedIndex: nat)
    requires |qualityOptions| > 0
    ensures selectedIndex == ChosenIndex(qualityOptions, maxStreamingBitrate)
  {
    selectedIndex := |qualityOptions| - 1;
    var i := 0;
    while i < |qualityOptions|
      invariant 0 <= i <= |qualityOptions|
      invariant forall j :: 0 <= j < i ==> !Fits(qualityOptions[j], maxStreamingBitrate)
    {
      var option := qualityOptions[i];
      if option.bitrate > 0 && option.bitrate <= maxStreamingBitrate {
        selectedIndex := i;
        break;
      }
      i := i + 1;
    }
  }

  /** The selection block shared by both functions. `autoQualityOption` is the
      record the caller pushed at index 0 when Auto is enabled; the source
      updates that one object, so the update shows at index 0 exactly then. */
  method ApplyMaxBitrate(qualityOptions: seq<QualityOption>, autoQualityOption: QualityOption, ctx: QualityContext)
    returns (result: seq<QualityOption>)
    requires |qualityOptions| > 0
    requires ctx.enableAuto ==> qualityOptions[0] == autoQualityOption
    ensures result == Resolve(qualityOptions, ctx)
  {
    result := qualityOptions;
    var autoOption := autoQualityOption;
    if CapIsSet(ctx.currentMaxBitrate) {
      var selectedIndex := FindSelectedIndex(qualityOptions, ctx.currentMaxBitrate.value);
      var currentQualityOption := qualityOptions[selectedIndex];
      if !ctx.isAutomaticBitrateEnabled {
        result := result[selectedIndex := currentQualityOption.(selected := Some(true))];
      } else {
        autoOption := autoOption.(autoText := Some(currentQualityOption.name));
        if ctx.enableAuto {
          result := result[0 := autoOption];
        }
      }
    }
  }

  /** One `if (maxAllowedWidth >= threshold) { push; push; }` block. */
  method PushGated(qualityOptions: seq<QualityOption>, maxAllowedWidth: Width, threshold: nat,
                   first: QualityOption, second: QualityOption)
    returns (result: seq<QualityOption>)
    ensures result == qualityOptions + Gate(maxAllowedWidth, threshold, first, second)
  {
    result := qualityOptions;
    if AtLeast(maxAllowedWidth, threshold) {
      result := result + [first];
      result := result + [second];
    }
  }

  method GetVideoQualityOptions(ctx: QualityContext, autoLabel: string)
    returns (qualityOptions: seq<QualityOption>)
    ensures qualityOptions == VideoQualityOptions(ctx, autoLabel)
  {
    var maxAllowedWidth := MaxAllowedWidth(EffectiveWidth(ctx.videoWidth, ctx.videoHeight));
    var autoQualityOption := AutoOption(autoLabel, ctx.isAutomaticBitrateEnabled);
    qualityOptions := [];
    if ctx.enableAuto {
      qualityOptions := qualityOptions + [autoQualityOption];
    }
    ghost var head := qualityOptions;
    qualityOptions := PushGated(qualityOptions, maxAllowedWidth, 3800, VideoTier("4K - 8 Mbps", 2160, 8000000), VideoTier("4K - 6 Mbps", 2160, 6000000));
    ghost var tiers := Gate(maxAllowedWidth, 3800, VideoTier("4K - 8 Mbps", 2160, 8000000), VideoTier("4K - 6 Mbps", 2160, 6000000));
    assert qualityOptions == head + tiers;
    qualityOptions := PushGated(qualityOptions, maxAllowedWidth, 2500, VideoTier("2K - 4 Mbps", 1440, 4000000), VideoTier("2K - 3.5 Mbps", 1440, 3500000));
    tiers := tiers + Gate(maxAllowedWidth, 2500, VideoTier("2K - 4 Mbps", 1440, 4000000), VideoTier("2K - 3.5 Mbps", 1440, 3500000));
    assert qualityOptions == head + tiers;
    qualityOptions := PushGated(qualityOptions, maxAllowedWidth, 1900, VideoTier("1080p - 3 Mbps", 1080, 3000000), VideoTier("1080p - 2 Mbps", 1080, 2000000));
    tiers := tiers + Gate(maxAllowedWidth, 1900, VideoTier("1080p - 3 Mbps", 1080, 3000000), VideoTier("1080p - 2 Mbps", 1080, 2000000));
    assert qualityOptions == head + tiers;
    qualityOptions := PushGated(qualityOptions, maxAllowedWidth, 1260, VideoTier("720p - 1.5 Mbps", 720, 1500000), VideoTier("720p - 1 Mbps", 720, 1000000));
    tiers := tiers + Gate(maxAllowedWidth, 1260, VideoTier("720p - 1.5 Mbps", 720, 1500000), VideoTier("720p - 1 Mbps", 720, 1000000));
    assert qualityOptions == head + tiers;
    qualityOptions := PushGated(qualityOptions, maxAllowedWidth, 620, VideoTier("480p - 720 kbps", 480, 750000), VideoTier("480p - 420 kbps", 480, 420001));
    tiers := tiers + Gate(maxAllowedWidth, 620, VideoTier("480p - 720 kbps", 480, 750000), VideoTier("480p - 420 kbps", 480, 420001));
    assert qualityOptions == head + tiers;
    qualityOptions := qualityOptions + [VideoTier("360p - 420 kbps", 360, 420000)];
    tiers := tiers + [Floor];
    assert qualityOptions == head + tiers;
    VideoTiersByBlocks(maxAllowedWidth);
    assert qualityOptions == Listing(ctx, autoLabel, VideoTiers(maxAllowedWidth));

    qualityOptions := ApplyMaxBitrate(qualityOptions, autoQualityOption, ctx);
  }

  method GetAudioQualityOptions(ctx: QualityContext, autoLabel: string)
    returns (qualityOptions: seq<QualityOption>)
    ensures qualityOptions == AudioQualityOptions(ctx, autoLabel)
  {
    var autoQualityOption := AutoOption(autoLabel, ctx.isAutomaticBitrateEnabled);
    qualityOptions := [];
    if ctx.enableAuto {
      qualityOptions := qualityOptions + [autoQualityOption];
    }
    qualityOptions := qualityOptions + [AudioTier("2 Mbps", 2000000)];
    qualityOptions := qualityOptions + [AudioTier("1.5 Mbps", 1500000)];
    qualityOptions := qualityOptions + [AudioTier("1 Mbps", 1000000)];
    qualityOptions := qualityOptions + [AudioTier("320 kbps", 320000)];
    qualityOptions := qualityOptions + [AudioTier("256 kbps", 256000)];
    qualityOptions := qualityOptions + [AudioTier("192 kbps", 192000)];
    qualityOptions := qualityOptions + [AudioTier("128 kbps", 128000)];
    qualityOptions := qualityOptions + [AudioTier("96 kbps", 96000)];
    qualityOptions := qualityOptions + [AudioTier("64 kbps", 64000)];
    assert qualityOptions == Listing(ctx, autoLabel, AudioTiers);

    qualityOptions := ApplyMaxBitrate(qualityOptions, autoQualityOption, ctx);
  }
}
