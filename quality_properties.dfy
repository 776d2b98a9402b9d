/**
 * Properties of the quality-preset resolver: the aspect correction against
 * real arithmetic, the shape of the video tier list, the first-match
 * selection, and what the selection changes in the list.
 */
module QualityProperties {
  import opened Wrappers
  import opened QualityOptions

  // ---------------------------------------------------------------------------
  // The aspect step

  /** The comparison `videoWidth / videoHeight < 16 / 9` over the reals. It is
      false when the quotient is NaN or +Infinity: a missing operand or a zero
      height. */
  ghost predicate RatioBelowWidescreen(videoWidth: Option<nat>, videoHeight: Option<nat>)
  {
    videoWidth.Some? && videoHeight.Some? && videoHeight.value > 0
    && (videoWidth.value as real) / (videoHeight.value as real) < 16.0 / 9.0
  }

  /** Multiplying by a positive real keeps the sign. */
  lemma PositiveFactor(x: real, y: real)
    requires y > 0.0
    ensures x * y > 0.0 <==> x > 0.0
  {
    if x > 0.0 {
      assert x * y > 0.0;
    } else {
      assert (0.0 - x) * y >= 0.0;
    }
  }

  /** For a positive height, w / h < 16 / 9 exactly when 9w < 16h. */
  lemma CrossMultiplication(w: nat, h: nat)
    requires h > 0
    ensures (w as real) / (h as real) < 16.0 / 9.0 <==> 9 * w < 16 * h
  {
    var x, y := w as real, h as real;
    var q := x / y;
    assert x == q * y;
    PositiveFactor(16.0 - 9.0 * q, y);
    assert (16.0 - 9.0 * q) * y == 16.0 * y - 9.0 * (q * y);
    assert (16.0 - 9.0 * q) * y == 16.0 * y - 9.0 * x;
    assert q < 16.0 / 9.0 <==> 16.0 - 9.0 * q > 0.0;
    assert 16.0 * y - 9.0 * x > 0.0 <==> 9 * w < 16 * h;
  }

  /** The integer threshold test is the comparison of the JavaScript number. */
  lemma AtLeastIsWidthComparison(w: Width, t: nat)
    ensures AtLeast(w, t) <==> WidthValue(w) >= t as real
  {
  }

  /** Lines 10-14 and 19: a source narrower than 16:9 is read at width
      height * 16 / 9; any other source keeps its width; an absent or zero
      width falls back to 4096. The result is always positive. */
  lemma AspectWidening(videoWidth: Option<nat>, videoHeight: Option<nat>)
    ensures var mw := MaxAllowedWidth(EffectiveWidth(videoWidth, videoHeight));
      && (RatioBelowWidescreen(videoWidth, videoHeight) ==>
            mw == Pillarboxed(videoHeight.value)
            && WidthValue(mw) == (videoHeight.value as real) * 16.0 / 9.0)
      && (!RatioBelowWidescreen(videoWidth, videoHeight) && videoWidth.Some? && videoWidth.value > 0 ==>
            mw == Pixels(videoWidth.value))
      && (!RatioBelowWidescreen(videoWidth, videoHeight) && (videoWidth.None? || videoWidth.value == 0) ==>
            mw == Pixels(4096))
      && WidthValue(mw) > 0.0
  {
    if videoWidth.Some? && videoHeight.Some? && videoHeight.value > 0 {
      CrossMultiplication(videoWidth.value, videoHeight.value);
    }
  }

  /** A 4:3 source of 1440x1080 is treated as 1920 wide. */
  lemma PillarboxedFourByThree()
    ensures MaxAllowedWidth(EffectiveWidth(Some(1440), Some(1080))) == Pillarboxed(1080)
    ensures WidthValue(Pillarboxed(1080)) == 1920.0
    ensures VideoTiers(Pillarboxed(1080)) == VideoTiers(Pixels(1920))
  {
    AdmittedAgree(VideoLadder, Pillarboxed(1080), Pixels(1920));
  }

  // ---------------------------------------------------------------------------
  // Tier tables

  /** Each rung's threshold is at least the next one's. */
  predicate ThresholdsDescend(ladder: seq<Rung>)
  {
    forall i :: 0 <= i < |ladder| - 1 ==> ladder[i].minWidth >= ladder[i + 1].minWidth
  }

  /** Each entry's bitrate is above the next one's. */
  predicate StepsDown(s: seq<QualityOption>)
  {
    forall i :: 0 <= i < |s| - 1 ==> s[i].bitrate > s[i + 1].bitrate
  }

  predicate StrictlyDescending(s: seq<QualityOption>)
  {
    forall i, j :: 0 <= i < j < |s| ==> s[i].bitrate > s[j].bitrate
  }

  /** The presets of a table, in table order. */
  function Presets(ladder: seq<Rung>): (r: seq<QualityOption>)
    ensures |r| == |ladder|
    ensures forall i :: 0 <= i < |ladder| ==> r[i] == ladder[i].Preset()
  {
    seq(|ladder|, i requires 0 <= i < |ladder| => ladder[i].Preset())
  }

  lemma {:induction false} StepsDownIsStrictlyDescending(s: seq<QualityOption>)
    requires StepsDown(s)
    ensures StrictlyDescending(s)
  {
    if |s| > 1 {
      var init := s[..|s| - 1];
      assert StepsDown(init) by {
        forall i | 0 <= i < |init| - 1 ensures init[i].bitrate > init[i + 1].bitrate {
          assert init[i] == s[i] && init[i + 1] == s[i + 1];
        }
      }
      StepsDownIsStrictlyDescending(init);
      forall i, j | 0 <= i < j < |s| ensures s[i].bitrate > s[j].bitrate {
        if j < |s| - 1 {
          assert s[i] == init[i] && s[j] == init[j];
        } else if i < j - 1 {
          assert s[i] == init[i] && s[j - 1] == init[j - 1];
        }
      }
    }
  }

  /** Widths that meet the same thresholds admit the same tiers. */
  lemma {:induction false} AdmittedAgree(ladder: seq<Rung>, a: Width, b: Width)
    requires WidthValue(a) == WidthValue(b)
    ensures Admitted(ladder, a) == Admitted(ladder, b)
  {
    if ladder != [] {
      var last := ladder[|ladder| - 1];
      AtLeastIsWidthComparison(a, last.minWidth);
      AtLeastIsWidthComparison(b, last.minWidth);
      AdmittedAgree(ladder[..|ladder| - 1], a, b);
    }
  }

  /** Dropping the last rung keeps the thresholds non-increasing. */
  lemma DescendInit(ladder: seq<Rung>)
    requires ladder != [] && ThresholdsDescend(ladder)
    ensures ThresholdsDescend(ladder[..|ladder| - 1])
  {
    var init := ladder[..|ladder| - 1];
    forall i | 0 <= i < |init| - 1 ensures init[i].minWidth >= init[i + 1].minWidth {
      assert init[i] == ladder[i] && init[i + 1] == ladder[i + 1];
    }
  }

  /** On a table with non-increasing thresholds the rungs a width meets are
      exactly the last |Admitted(ladder, w)| ones. */
  lemma {:induction false} AdmittedPositions(ladder: seq<Rung>, w: Width)
    requires ThresholdsDescend(ladder)
    ensures |Admitted(ladder, w)| <= |ladder|
    ensures forall i :: 0 <= i < |ladder| ==>
              (|ladder| - |Admitted(ladder, w)| <= i <==> AtLeast(w, ladder[i].minWidth))
  {
    if ladder != [] {
      var n := |ladder|;
      var init := ladder[..n - 1];
      DescendInit(ladder);
      AdmittedPositions(init, w);
      var before := |Admitted(init, w)|;
      if !AtLeast(w, ladder[n - 1].minWidth) && n >= 2 {
        assert init[n - 2] == ladder[n - 2];
        assert !AtLeast(w, init[n - 2].minWidth);
      }
      forall i | 0 <= i < n - 1
        ensures n - |Admitted(ladder, w)| <= i <==> AtLeast(w, ladder[i].minWidth)
      {
        assert init[i] == ladder[i];
      }
    }
  }

  /** On a table with non-increasing thresholds the admitted tiers are the
      presets of the table from rung `|ladder| - |Admitted(ladder, w)|` on. */
  lemma {:induction false} AdmittedIsSuffix(ladder: seq<Rung>, w: Width)
    requires ThresholdsDescend(ladder)
    ensures |Admitted(ladder, w)| <= |ladder|
    ensures forall m :: 0 <= m < |Admitted(ladder, w)| ==>
              Admitted(ladder, w)[m] == ladder[|ladder| - |Admitted(ladder, w)| + m].Preset()
    ensures forall i :: 0 <= i < |ladder| ==>
              (|ladder| - |Admitted(ladder, w)| <= i <==> AtLeast(w, ladder[i].minWidth))
  {
    AdmittedPositions(ladder, w);
    if ladder != [] {
      var n := |ladder|;
      var init := ladder[..n - 1];
      DescendInit(ladder);
      AdmittedIsSuffix(init, w);
      var before := Admitted(init, w);
      var after := Admitted(ladder, w);
      if AtLeast(w, ladder[n - 1].minWidth) {
        var k := |init| - |before|;
        forall m | 0 <= m < |before| ensures after[m] == ladder[n - |after| + m].Preset() {
          assert after[m] == before[m] && init[k + m] == ladder[k + m];
        }
      } else {
        assert |after| == 0;
      }
    }
  }

  lemma VideoLadderOrdered()
    ensures ThresholdsDescend(VideoLadder)
    ensures StrictlyDescending(Presets(VideoLadder))
    ensures VideoLadder[|VideoLadder| - 1].bitrate > 0
  {
    var p := Presets(VideoLadder);
    forall i | 0 <= i < |p| - 1 ensures p[i].bitrate > p[i + 1].bitrate
                                    && VideoLadder[i].minWidth >= VideoLadder[i + 1].minWidth {
      assert i == 0 || i == 1 || i == 2 || i == 3 || i == 4 || i == 5 || i == 6 || i == 7 || i == 8 || i == 9;
    }
    StepsDownIsStrictlyDescending(p);
  }

  /** Lines 33-56: the video tiers are the table from some rung on, so reaching
      a higher threshold adds every lower tier too. */
  lemma VideoTiersAreSuffix(w: Width)
    ensures |VideoTiers(w)| <= |VideoLadder|
    ensures forall m :: 0 <= m < |VideoTiers(w)| ==>
              VideoTiers(w)[m] == VideoLadder[|VideoLadder| - |VideoTiers(w)| + m].Preset()
    ensures forall i :: 0 <= i < |VideoLadder| ==>
              (|VideoLadder| - |VideoTiers(w)| <= i <==> AtLeast(w, VideoLadder[i].minWidth))
  {
    VideoLadderOrdered();
    AdmittedIsSuffix(VideoLadder, w);
  }

  /** A tier is offered exactly when `maxAllowedWidth` meets its threshold. */
  lemma VideoTierPresence(w: Width, i: nat)
    requires i < |VideoLadder|
    ensures VideoLadder[i].Preset() in VideoTiers(w) <==> AtLeast(w, VideoLadder[i].minWidth)
  {
    VideoTiersAreSuffix(w);
    VideoLadderOrdered();
    var p := Presets(VideoLadder);
    var k := |VideoLadder| - |VideoTiers(w)|;
    if AtLeast(w, VideoLadder[i].minWidth) {
      assert VideoTiers(w)[i - k] == VideoLadder[i].Preset();
    }
    if VideoLadder[i].Preset() in VideoTiers(w) {
      var m :| 0 <= m < |VideoTiers(w)| && VideoTiers(w)[m] == VideoLadder[i].Preset();
      assert p[k + m] == p[i];
      assert k + m == i;
    }
  }

  /** Tier inclusion is monotone in the width: a wider source offers every
      tier a narrower one does, and the narrower list is a suffix of the wider. */
  lemma VideoTiersMonotone(a: Width, b: Width)
    requires WidthValue(a) <= WidthValue(b)
    ensures |VideoTiers(a)| <= |VideoTiers(b)|
    ensures VideoTiers(a) == VideoTiers(b)[|VideoTiers(b)| - |VideoTiers(a)|..]
  {
    VideoTiersAreSuffix(a);
    VideoTiersAreSuffix(b);
    var n := |VideoLadder|;
    var ka := n - |VideoTiers(a)|;
    var kb := n - |VideoTiers(b)|;
    if ka < kb {
      AtLeastIsWidthComparison(a, VideoLadder[ka].minWidth);
      AtLeastIsWidthComparison(b, VideoLadder[ka].minWidth);
      assert false;
    }
  }

  /** The video tier bitrates are positive and strictly descending, hence
      pairwise distinct. */
  lemma VideoTiersDescending(w: Width)
    ensures StrictlyDescending(VideoTiers(w))
    ensures forall k :: 0 <= k < |VideoTiers(w)| ==> VideoTiers(w)[k].bitrate > 0
  {
    VideoTiersAreSuffix(w);
    VideoLadderOrdered();
    var p := Presets(VideoLadder);
    var k := |VideoLadder| - |VideoTiers(w)|;
    assert forall m :: 0 <= m < |VideoTiers(w)| ==> VideoTiers(w)[m] == p[k + m];
  }

  /** A source 1000 wide offers the two 480p tiers and the 360p floor only. */
  lemma VideoTiersAtWidth1000()
    ensures VideoTiers(Pixels(1000))
         == [VideoTier("480p - 720 kbps", 480, 750000), VideoTier("480p - 420 kbps", 480, 420001), Floor]
  {
    VideoTiersAreSuffix(Pixels(1000));
    var k := |VideoLadder| - |VideoTiers(Pixels(1000))|;
    assert AtLeast(Pixels(1000), VideoLadder[8].minWidth);
    assert !AtLeast(Pixels(1000), VideoLadder[7].minWidth);
    assert k == 8;
  }

  /** A width of 4000 or more offers the whole table: both 4K tiers and every
      lower tier, floor included. */
  lemma VideoTiersAt4000(w: Width)
    requires WidthValue(w) >= 4000.0
    ensures |VideoTiers(w)| == |VideoLadder|
    ensures forall m :: 0 <= m < |VideoLadder| ==> VideoTiers(w)[m] == VideoLadder[m].Preset()
  {
    VideoTiersAreSuffix(w);
    AtLeastIsWidthComparison(w, VideoLadder[0].minWidth);
  }

  lemma AudioTiersOrdered()
    ensures |AudioTiers| == 9
    ensures StrictlyDescending(AudioTiers)
    ensures forall k :: 0 <= k < |AudioTiers| ==> AudioTiers[k].bitrate > 0
  {
    forall i | 0 <= i < |AudioTiers| - 1 ensures AudioTiers[i].bitrate > AudioTiers[i + 1].bitrate {
      assert i == 0 || i == 1 || i == 2 || i == 3 || i == 4 || i == 5 || i == 6 || i == 7;
    }
    StepsDownIsStrictlyDescending(AudioTiers);
  }

  // ---------------------------------------------------------------------------
  // Selection over a listing whose tiers are real tiers

  /** Every tier has a positive bitrate. */
  predicate RealTiers(tiers: seq<QualityOption>)
  {
    |tiers| > 0 && forall k :: 0 <= k < |tiers| ==> tiers[k].bitrate > 0
  }

  /** Lines 58-69: the scan never settles on the Auto entry. */
  lemma ChosenIsNeverAuto(ctx: QualityContext, autoLabel: string, tiers: seq<QualityOption>, cap: int)
    requires RealTiers(tiers)
    ensures var built := Listing(ctx, autoLabel, tiers);
      var c := ChosenIndex(built, cap);
      AutoOffset(ctx) <= c && built[c] == tiers[c - AutoOffset(ctx)]
  {
  }

  /** The scan's index is determined by two facts: nothing before it fits,
      and it fits or is the last entry. */
  lemma ChosenIndexIs(options: seq<QualityOption>, cap: int, c: nat)
    requires c < |options|
    requires forall j :: 0 <= j < c ==> !Fits(options[j], cap)
    requires Fits(options[c], cap) || c == |options| - 1
    ensures ChosenIndex(options, cap) == c
  {
    var r := ChosenIndex(options, cap);
    if Fits(options[c], cap) {
      assert Fits(options[r], cap);
    } else {
      assert forall j :: 0 <= j < |options| ==> !Fits(options[j], cap);
    }
  }

  /** On descending real tiers the scan settles on tier t when the tier
      before t is above the cap and t itself is within it (or is the last). */
  lemma ChosenInDescendingTiers(ctx: QualityContext, autoLabel: string, tiers: seq<QualityOption>, cap: int, t: nat)
    requires RealTiers(tiers) && StrictlyDescending(tiers)
    requires t < |tiers|
    requires 0 < t ==> tiers[t - 1].bitrate > cap
    requires t < |tiers| - 1 ==> tiers[t].bitrate <= cap
    ensures ChosenIndex(Listing(ctx, autoLabel, tiers), cap) == AutoOffset(ctx) + t
  {
    var built := Listing(ctx, autoLabel, tiers);
    var off := AutoOffset(ctx);
    assert forall m :: off <= m < |built| ==> built[m] == tiers[m - off];
    forall j | 0 <= j < off + t ensures !Fits(built[j], cap) {
      if off <= j {
        assert built[j] == tiers[j - off];
        assert tiers[j - off].bitrate >= tiers[t - 1].bitrate;
      }
    }
    ChosenIndexIs(built, cap, off + t);
  }

  /** Lines 58-75: the selection changes one field of one record. With
      automatic bitrate off only the chosen entry gains `selected = true`;
      with it on only the Auto entry, when listed, gains `autoText` set to the
      chosen name. Length, order, names, bitrates and heights are unchanged. */
  lemma SelectionChangesOneField(built: seq<QualityOption>, ctx: QualityContext)
    requires |built| > 0
    requires CapIsSet(ctx.currentMaxBitrate)
    ensures var out := Resolve(built, ctx);
      var c := ChosenIndex(built, ctx.currentMaxBitrate.value);
      && |out| == |built|
      && (forall k :: 0 <= k < |built| ==>
            && out[k].name == built[k].name
            && out[k].bitrate == built[k].bitrate
            && out[k].maxHeight == built[k].maxHeight)
      && (!ctx.isAutomaticBitrateEnabled ==> forall k :: 0 <= k < |built| ==>
            && out[k].selected == (if k == c then Some(true) else built[k].selected)
            && out[k].autoText == built[k].autoText)
      && (ctx.isAutomaticBitrateEnabled ==> forall k :: 0 <= k < |built| ==>
            && out[k].selected == built[k].selected
            && out[k].autoText == (if ctx.enableAuto && k == 0 then Some(built[c].name) else built[k].autoText))
  {
  }

  /** Lines 58 and 106: without a truthy cap the built list is returned as is. */
  lemma NoCapNoSelection(built: seq<QualityOption>, ctx: QualityContext)
    requires |built| > 0
    requires !CapIsSet(ctx.currentMaxBitrate)
    ensures Resolve(built, ctx) == built
  {
  }

  /** Lines 23-31 and 86-94: an Auto entry with bitrate 0 and `selected`
      equal to the automatic-bitrate flag heads the list exactly when Auto is
      enabled, and no other entry has bitrate 0. */
  lemma AutoEntryIffEnabled(ctx: QualityContext, autoLabel: string, tiers: seq<QualityOption>)
    requires RealTiers(tiers)
    ensures var out := Resolve(Listing(ctx, autoLabel, tiers), ctx);
      && |out| == AutoOffset(ctx) + |tiers|
      && (ctx.enableAuto ==>
            out[0].name == autoLabel && out[0].bitrate == 0 && out[0].maxHeight == None
            && out[0].selected == Some(ctx.isAutomaticBitrateEnabled))
      && (forall k :: AutoOffset(ctx) <= k < |out| ==> out[k].bitrate > 0)
      && ((exists k :: 0 <= k < |out| && out[k].bitrate == 0) <==> ctx.enableAuto)
  {
    var built := Listing(ctx, autoLabel, tiers);
    var out := Resolve(built, ctx);
    if CapIsSet(ctx.currentMaxBitrate) {
      ChosenIsNeverAuto(ctx, autoLabel, tiers, ctx.currentMaxBitrate.value);
      SelectionChangesOneField(built, ctx);
    }
    assert |out| == |built|;
    assert forall k :: 0 <= k < |out| ==> out[k].bitrate == built[k].bitrate;
    if ctx.enableAuto {
      assert out[0].bitrate == 0;
    }
  }

  // ---------------------------------------------------------------------------
  // The two functions

  /** Lines 23-31: the Auto entry of the video list, as `AutoEntryIffEnabled`
      states it for any tiers. */
  lemma VideoAutoEntryIffEnabled(ctx: QualityContext, autoLabel: string)
    ensures var out := VideoQualityOptions(ctx, autoLabel);
      && (ctx.enableAuto ==>
            out[0].name == autoLabel && out[0].bitrate == 0
            && out[0].selected == Some(ctx.isAutomaticBitrateEnabled))
      && (forall k :: AutoOffset(ctx) <= k < |out| ==> out[k].bitrate > 0)
      && ((exists k :: 0 <= k < |out| && out[k].bitrate == 0) <==> ctx.enableAuto)
  {
    var w := MaxAllowedWidth(EffectiveWidth(ctx.videoWidth, ctx.videoHeight));
    VideoTiersDescending(w);
    assert RealTiers(VideoTiers(w));
    AutoEntryIffEnabled(ctx, autoLabel, VideoTiers(w));
  }

  /** Lines 86-94: the Auto entry of the audio list. */
  lemma AudioAutoEntryIffEnabled(ctx: QualityContext, autoLabel: string)
    ensures var out := AudioQualityOptions(ctx, autoLabel);
      && (ctx.enableAuto ==>
            out[0].name == autoLabel && out[0].bitrate == 0
            && out[0].selected == Some(ctx.isAutomaticBitrateEnabled))
      && (forall k :: AutoOffset(ctx) <= k < |out| ==> out[k].bitrate > 0)
      && ((exists k :: 0 <= k < |out| && out[k].bitrate == 0) <==> ctx.enableAuto)
  {
    AudioTiersOrdered();
    assert RealTiers(AudioTiers);
    AutoEntryIffEnabled(ctx, autoLabel, AudioTiers);
  }

  /** Lines 56-59: the video list ends with the 360p floor, and the fallback
      index `length - 1` of the scan points at it. */
  lemma VideoOptionsEndWithFloor(ctx: QualityContext, autoLabel: string)
    ensures var out := VideoQualityOptions(ctx, autoLabel);
      && |out| > 0
      && out[|out| - 1].name == "360p - 420 kbps"
      && out[|out| - 1].maxHeight == Some(360)
      && out[|out| - 1].bitrate == 420000
  {
    var tiers := VideoTiers(MaxAllowedWidth(EffectiveWidth(ctx.videoWidth, ctx.videoHeight)));
    var built := Listing(ctx, autoLabel, tiers);
    if CapIsSet(ctx.currentMaxBitrate) {
      SelectionChangesOneField(built, ctx);
    }
  }

  /** Lines 33-56: after the optional Auto entry the video bitrates strictly
      descend. */
  lemma VideoOptionsDescending(ctx: QualityContext, autoLabel: string)
    ensures var out := VideoQualityOptions(ctx, autoLabel);
      forall i, j :: AutoOffset(ctx) <= i < j < |out| ==> out[i].bitrate > out[j].bitrate
  {
    var tiers := VideoTiers(MaxAllowedWidth(EffectiveWidth(ctx.videoWidth, ctx.videoHeight)));
    var built := Listing(ctx, autoLabel, tiers);
    VideoTiersDescending(MaxAllowedWidth(EffectiveWidth(ctx.videoWidth, ctx.videoHeight)));
    if CapIsSet(ctx.currentMaxBitrate) {
      SelectionChangesOneField(built, ctx);
    }
    assert forall m :: AutoOffset(ctx) <= m < |built| ==> built[m] == tiers[m - AutoOffset(ctx)];
  }

  /** Lines 33-56: after the optional Auto entry the returned video list has
      the names, bitrates and heights of the tiers offered at its width. */
  lemma VideoOptionsLayout(ctx: QualityContext, autoLabel: string)
    ensures var w := MaxAllowedWidth(EffectiveWidth(ctx.videoWidth, ctx.videoHeight));
      var out := VideoQualityOptions(ctx, autoLabel);
      && |out| == AutoOffset(ctx) + |VideoTiers(w)|
      && (forall m :: 0 <= m < |VideoTiers(w)| ==>
            out[AutoOffset(ctx) + m].name == VideoTiers(w)[m].name
            && out[AutoOffset(ctx) + m].bitrate == VideoTiers(w)[m].bitrate
            && out[AutoOffset(ctx) + m].maxHeight == VideoTiers(w)[m].maxHeight)
  {
    var w := MaxAllowedWidth(EffectiveWidth(ctx.videoWidth, ctx.videoHeight));
    var built := Listing(ctx, autoLabel, VideoTiers(w));
    assert forall m :: 0 <= m < |VideoTiers(w)| ==> built[AutoOffset(ctx) + m] == VideoTiers(w)[m];
    if CapIsSet(ctx.currentMaxBitrate) {
      SelectionChangesOneField(built, ctx);
    }
  }

  /** A cap of 1 Mbps on a source of unknown width, with automatic bitrate
      off, selects `720p - 1 Mbps` and nothing else. */
  lemma VideoCapOneMbps(enableAuto: bool, autoLabel: string)
    ensures var ctx := QualityContext(Some(1000000), None, None, enableAuto, false);
      var out := VideoQualityOptions(ctx, autoLabel);
      var at := AutoOffset(ctx) + 7;
      && |out| == AutoOffset(ctx) + 11
      && out[at].name == "720p - 1 Mbps"
      && out[at].selected == Some(true)
      && forall k :: 0 <= k < |out| && k != at ==> out[k].selected != Some(true)
  {
    var ctx := QualityContext(Some(1000000), None, None, enableAuto, false);
    var tiers := VideoTiers(Pixels(4096));
    VideoTiersAt4000(Pixels(4096));
    VideoTiersDescending(Pixels(4096));
    assert tiers[6] == VideoLadder[6].Preset() && tiers[7] == VideoLadder[7].Preset();
    ChosenInDescendingTiers(ctx, autoLabel, tiers, 1000000, 7);
    var built := Listing(ctx, autoLabel, tiers);
    SelectionChangesOneField(built, ctx);
    assert forall k :: AutoOffset(ctx) <= k < |built| ==> built[k].selected == None;
  }

  /** A cap below every video bitrate falls back to the 360p floor. */
  lemma VideoCapBelowFloor(ctx: QualityContext, autoLabel: string)
    requires CapIsSet(ctx.currentMaxBitrate) && ctx.currentMaxBitrate.value < 420000
    requires !ctx.isAutomaticBitrateEnabled
    ensures var out := VideoQualityOptions(ctx, autoLabel);
      out[|out| - 1].name == "360p - 420 kbps" && out[|out| - 1].selected == Some(true)
  {
    var w := MaxAllowedWidth(EffectiveWidth(ctx.videoWidth, ctx.videoHeight));
    var tiers := VideoTiers(w);
    VideoTiersDescending(w);
    var built := Listing(ctx, autoLabel, tiers);
    var off := AutoOffset(ctx);
    assert forall m :: off <= m < |built| ==> built[m] == tiers[m - off];
    assert forall j :: 0 <= j < |built| ==> !Fits(built[j], ctx.currentMaxBitrate.value);
    SelectionChangesOneField(built, ctx);
  }

  /** Lines 96-104: after the optional Auto entry the audio list is exactly
      the nine tiers in order. */
  lemma AudioOptionsLayout(ctx: QualityContext, autoLabel: string)
    ensures var out := AudioQualityOptions(ctx, autoLabel);
      && |out| == AutoOffset(ctx) + 9
      && (forall k :: 0 <= k < 9 ==>
            out[AutoOffset(ctx) + k].name == AudioTiers[k].name
            && out[AutoOffset(ctx) + k].bitrate == AudioTiers[k].bitrate
            && out[AutoOffset(ctx) + k].maxHeight == None)
  {
    var built := Listing(ctx, autoLabel, AudioTiers);
    assert forall m :: 0 <= m < 9 ==> built[AutoOffset(ctx) + m] == AudioTiers[m];
    forall k | 0 <= k < 9 ensures AudioTiers[k].maxHeight == None {
      assert k == 0 || k == 1 || k == 2 || k == 3 || k == 4 || k == 5 || k == 6 || k == 7 || k == 8;
    }
    if CapIsSet(ctx.currentMaxBitrate) {
      SelectionChangesOneField(built, ctx);
    }
  }

  /** Lines 106-123: a cap of 200000 selects `192 kbps`; a cap of 50000 is
      below every tier and falls back to `64 kbps`. */
  lemma AudioCapExamples(enableAuto: bool, autoLabel: string)
    ensures var ctx := QualityContext(Some(200000), None, None, enableAuto, false);
      var out := AudioQualityOptions(ctx, autoLabel);
      out[AutoOffset(ctx) + 5].name == "192 kbps" && out[AutoOffset(ctx) + 5].selected == Some(true)
    ensures var ctx := QualityContext(Some(50000), None, None, enableAuto, false);
      var out := AudioQualityOptions(ctx, autoLabel);
      out[AutoOffset(ctx) + 8].name == "64 kbps" && out[AutoOffset(ctx) + 8].selected == Some(true)
  {
    AudioTiersOrdered();
    var c1 := QualityContext(Some(200000), None, None, enableAuto, false);
    ChosenInDescendingTiers(c1, autoLabel, AudioTiers, 200000, 5);
    SelectionChangesOneField(Listing(c1, autoLabel, AudioTiers), c1);
    var c2 := QualityContext(Some(50000), None, None, enableAuto, false);
    ChosenInDescendingTiers(c2, autoLabel, AudioTiers, 50000, 8);
    SelectionChangesOneField(Listing(c2, autoLabel, AudioTiers), c2);
  }

  /** With automatic bitrate on and Auto listed, the Auto entry shows the
      name of the tier the cap selects, and no entry gains `selected`. */
  lemma AutoTextNamesChosenTier(ctx: QualityContext, autoLabel: string, tiers: seq<QualityOption>)
    requires RealTiers(tiers)
    requires CapIsSet(ctx.currentMaxBitrate) && ctx.isAutomaticBitrateEnabled && ctx.enableAuto
    ensures var built := Listing(ctx, autoLabel, tiers);
      var out := Resolve(built, ctx);
      var c := ChosenIndex(built, ctx.currentMaxBitrate.value);
      && out[0].autoText == Some(tiers[c - 1].name)
      && out[0].selected == Some(true)
      && forall k :: 1 <= k < |out| ==> out[k] == built[k]
  {
    var built := Listing(ctx, autoLabel, tiers);
    ChosenIsNeverAuto(ctx, autoLabel, tiers, ctx.currentMaxBitrate.value);
    SelectionChangesOneField(built, ctx);
  }
}
