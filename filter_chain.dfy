/**
 * The filter chain builder: from the settings and one copy's draws, the
 * ordered video filters, the ordered audio filters and the log fragments
 * that describe them.
 *
 * The specification is declarative: each copy has a fixed list of candidate
 * steps (four video, three audio) with their sampled parameters, and the plan
 * keeps, in that order, the candidates whose step fires. BuildPlan is the
 * step-by-step construction of the source, proved equal to it.
 */
module FilterChain {
  import opened Types
  import opened Sampler
  import opened Seqs

  /**
   * Number.prototype.toFixed: renders a number with the given count of
   * decimals. Its rounding is not modelled; the caller supplies it.
   */
  type Formatter = (real, nat) -> string

  // Sampling bounds passed to getRandom.
  const BrightnessMin: real := -0.08
  const BrightnessMax: real := 0.08
  const ToneMin: real := 0.9  // contrast, saturation and audio volume
  const ToneMax: real := 1.1
  const AngleMin: real := -2.0  // degrees
  const AngleMax: real := 2.0
  const ZoomMin: real := 1.01
  const ZoomMax: real := 1.05
  const TempoMin: real := 0.98
  const TempoMax: real := 1.02
  const PitchMin: real := 0.97
  const PitchMax: real := 1.03

  /** Math.PI, as the decimal the runtime prints for it. */
  const Pi: real := 3.141592653589793

  function Radians(degrees: real): real
  {
    degrees * Pi / 180.0
  }

  /** The seven steps of the builder, in the order the builder runs them. */
  datatype Kind = EqKind | RotateKind | ZoomKind | MirrorKind | VolumeKind | SpeedKind | PitchKind

  /** One step with its sampled parameters. */
  datatype Effect =
    | Eq(brightness: real, contrast: real, saturation: real)
    | Rotate(degrees: real)
    | Zoom(factor: real)
    | Mirror
    | Volume(level: real)
    | Speed(tempo: real)
    | Pitch(ratio: real)

  function KindOf(e: Effect): Kind
  {
    match e
    case Eq(_, _, _) => EqKind
    case Rotate(_) => RotateKind
    case Zoom(_) => ZoomKind
    case Mirror => MirrorKind
    case Volume(_) => VolumeKind
    case Speed(_) => SpeedKind
    case Pitch(_) => PitchKind
  }

  /** Position of a step in the builder's fixed evaluation order. */
  function Rank(k: Kind): nat
  {
    match k
    case EqKind => 0
    case RotateKind => 1
    case ZoomKind => 2
    case MirrorKind => 3
    case VolumeKind => 4
    case SpeedKind => 5
    case PitchKind => 6
  }

  /** The first four steps act on the picture, the last three on the sound. */
  predicate IsVideoKind(k: Kind)
  {
    Rank(k) < 4
  }

  /** Whether step `k` contributes a filter: its toggle is on (and, for the mirror, the coin flip came up true). */
  predicate Fires(s: ProcessSettings, d: Draws, k: Kind)
  {
    match k
    case EqKind => s.brightness || s.contrast || s.saturation
    case RotateKind => s.rotation
    case ZoomKind => s.zoom
    case MirrorKind => s.mirror && GetBool(d.mirror)
    case VolumeKind => s.audioVolume
    case SpeedKind => s.audioSpeed
    case PitchKind => s.audioPitch
  }

  function FiresFor(s: ProcessSettings, d: Draws): Effect -> bool
  {
    e => Fires(s, d, KindOf(e))
  }

  /** The combined eq step: a component whose toggle is off keeps its neutral value. */
  function EqEffect(s: ProcessSettings, d: Draws): Effect
  {
    Eq(if s.brightness then GetRandom(BrightnessMin, BrightnessMax, d.brightness) else 0.0,
       if s.contrast then GetRandom(ToneMin, ToneMax, d.contrast) else 1.0,
       if s.saturation then GetRandom(ToneMin, ToneMax, d.saturation) else 1.0)
  }

  function VideoCandidates(s: ProcessSettings, d: Draws): seq<Effect>
  {
    [EqEffect(s, d),
     Rotate(GetRandom(AngleMin, AngleMax, d.rotation)),
     Zoom(GetRandom(ZoomMin, ZoomMax, d.zoom)),
     Mirror]
  }

  function AudioCandidates(s: ProcessSettings, d: Draws): seq<Effect>
  {
    [Volume(GetRandom(ToneMin, ToneMax, d.volume)),
     Speed(GetRandom(TempoMin, TempoMax, d.speed)),
     Pitch(GetRandom(PitchMin, PitchMax, d.pitch))]
  }

  function FiredVideo(s: ProcessSettings, d: Draws): seq<Effect>
  {
    Keep(VideoCandidates(s, d), FiresFor(s, d))
  }

  function FiredAudio(s: ProcessSettings, d: Draws): seq<Effect>
  {
    Keep(AudioCandidates(s, d), FiresFor(s, d))
  }

  /** Every step that fired for this copy, video steps first. */
  function Fired(s: ProcessSettings, d: Draws): seq<Effect>
  {
    FiredVideo(s, d) + FiredAudio(s, d)
  }

  /** The ffmpeg filter each step invokes: its filter expression starts with this name. */
  function FilterName(k: Kind): string
  {
    match k
    case EqKind => "eq="
    case RotateKind => "rotate="
    case ZoomKind => "scale="
    case MirrorKind => "hflip"
    case VolumeKind => "volume="
    case SpeedKind => "atempo="
    case PitchKind => "asetrate="
  }

  /** The label each step's log fragment starts with. */
  function LogLabel(k: Kind): string
  {
    match k
    case EqKind => "EQ("
    case RotateKind => "Rot("
    case ZoomKind => "Zoom("
    case MirrorKind => "Mirror(H)"
    case VolumeKind => "Vol("
    case SpeedKind => "Spd("
    case PitchKind => "Pitch("
  }

  /**
   * The filter expression a step contributes to its chain: it invokes the
   * step's own filter, whatever the formatter returns, and it is the bare
   * `hflip` exactly for the mirror step.
   */
  function FilterText(e: Effect, fmt: Formatter): (r: string)
    ensures FilterName(KindOf(e)) <= r
    ensures r == "hflip" <==> e == Mirror
  {
    match e
    case Eq(b, c, sat) =>
      "eq=brightness=" + fmt(b, 3) + ":contrast=" + fmt(c, 3) + ":saturation=" + fmt(sat, 3)
    case Rotate(a) => "rotate=" + fmt(Radians(a), 4)
    case Zoom(z) => "scale=iw*" + fmt(z, 3) + ":ih*" + fmt(z, 3) + ",crop=iw:ih"
    case Mirror => "hflip"
    case Volume(v) => "volume=" + fmt(v, 2)
    case Speed(t) => "atempo=" + fmt(t, 3)
    case Pitch(p) => "asetrate=44100*" + fmt(p, 3) + ",aresample=44100"
  }

  /**
   * The human-readable fragment a step contributes to the log: it starts with
   * the step's label, so it is non-empty and its first letter is not 'N'.
   */
  function LogText(e: Effect, fmt: Formatter): (r: string)
    ensures LogLabel(KindOf(e)) <= r
    ensures |r| > 0 && r[0] != 'N'
  {
    match e
    case Eq(b, c, sat) => "EQ(b:" + fmt(b, 2) + ", c:" + fmt(c, 2) + ", s:" + fmt(sat, 2) + ")"
    case Rotate(a) => "Rot(" + fmt(a, 1) + "deg)"
    case Zoom(z) => "Zoom(" + fmt((z - 1.0) * 100.0, 1) + "%)"
    case Mirror => "Mirror(H)"
    case Volume(v) => "Vol(" + fmt(v, 2) + ")"
    case Speed(t) => "Spd(" + fmt(t, 2) + ")"
    case Pitch(p) => "Pitch(" + fmt(p, 2) + ")"
  }

  function FilterTexts(es: seq<Effect>, fmt: Formatter): seq<string>
  {
    seq(|es|, i requires 0 <= i < |es| => FilterText(es[i], fmt))
  }

  function LogTexts(es: seq<Effect>, fmt: Formatter): seq<string>
  {
    seq(|es|, i requires 0 <= i < |es| => LogText(es[i], fmt))
  }

  /** The three lists the builder produces for one copy. */
  datatype FilterPlan = FilterPlan(videoFilters: seq<string>, audioFilters: seq<string>, logs: seq<string>)

  /** The plan the builder is specified to produce. */
  function Plan(s: ProcessSettings, d: Draws, fmt: Formatter): FilterPlan
  {
    FilterPlan(FilterTexts(FiredVideo(s, d), fmt), FilterTexts(FiredAudio(s, d), fmt), LogTexts(Fired(s, d), fmt))
  }

  /**
   * The builder as the source runs it: sample, then push a filter and its log
   * fragment for each step whose condition holds, video steps first.
   */
  method BuildPlan(s: ProcessSettings, d: Draws, fmt: Formatter) returns (plan: FilterPlan)
    ensures plan == Plan(s, d, fmt)
    ensures |plan.logs| == |plan.videoFilters| + |plan.audioFilters|
  {
    var videoFilters, logs := BuildVideoFilters(s, d, fmt);
    var audioFilters;
    audioFilters, logs := BuildAudioFilters(s, d, fmt, logs);
    plan := FilterPlan(videoFilters, audioFilters, logs);
    TextsOfConcat(FiredVideo(s, d), FiredAudio(s, d), fmt);
  }

  /** Steps 1 to 4: eq, rotate, scale and crop, hflip. */
  method BuildVideoFilters(s: ProcessSettings, d: Draws, fmt: Formatter) returns (videoFilters: seq<string>, logs: seq<string>)
    ensures videoFilters == FilterTexts(FiredVideo(s, d), fmt)
    ensures logs == LogTexts(FiredVideo(s, d), fmt)
  {
    videoFilters, logs := [], [];
    ghost var video: seq<Effect> := [];

    var b, c, sat := 0.0, 1.0, 1.0;
    if s.brightness { b := GetRandom(BrightnessMin, BrightnessMax, d.brightness); }
    if s.contrast { c := GetRandom(ToneMin, ToneMax, d.contrast); }
    if s.saturation { sat := GetRandom(ToneMin, ToneMax, d.saturation); }
    if s.brightness || s.contrast || s.saturation {
      var eq := Eq(b, c, sat);
      videoFilters := videoFilters + [FilterText(eq, fmt)];
      logs := logs + [LogText(eq, fmt)];
      TextsSnoc(video, eq, fmt);
      video := video + [eq];
    }
    assert video == Step(s, d, EqEffect(s, d));
    assert videoFilters == FilterTexts(video, fmt) && logs == LogTexts(video, fmt);

    if s.rotation {
      var rotate := Rotate(GetRandom(AngleMin, AngleMax, d.rotation));
      videoFilters := videoFilters + [FilterText(rotate, fmt)];
      logs := logs + [LogText(rotate, fmt)];
      TextsSnoc(video, rotate, fmt);
      video := video + [rotate];
    }
    assert videoFilters == FilterTexts(video, fmt) && logs == LogTexts(video, fmt);
    assert video == Step(s, d, EqEffect(s, d))
                  + Step(s, d, Rotate(GetRandom(AngleMin, AngleMax, d.rotation)));

    if s.zoom {
      var zoom := Zoom(GetRandom(ZoomMin, ZoomMax, d.zoom));
      videoFilters := videoFilters + [FilterText(zoom, fmt)];
      logs := logs + [LogText(zoom, fmt)];
      TextsSnoc(video, zoom, fmt);
      video := video + [zoom];
    }
    assert videoFilters == FilterTexts(video, fmt) && logs == LogTexts(video, fmt);
    assert video == Step(s, d, EqEffect(s, d))
                  + Step(s, d, Rotate(GetRandom(AngleMin, AngleMax, d.rotation)))
                  + Step(s, d, Zoom(GetRandom(ZoomMin, ZoomMax, d.zoom)));

    if s.mirror && GetBool(d.mirror) {
      videoFilters := videoFilters + [FilterText(Mirror, fmt)];
      logs := logs + [LogText(Mirror, fmt)];
      TextsSnoc(video, Mirror, fmt);
      video := video + [Mirror];
    }
    assert videoFilters == FilterTexts(video, fmt) && logs == LogTexts(video, fmt);
    assert video == Step(s, d, EqEffect(s, d))
                  + Step(s, d, Rotate(GetRandom(AngleMin, AngleMax, d.rotation)))
                  + Step(s, d, Zoom(GetRandom(ZoomMin, ZoomMax, d.zoom)))
                  + Step(s, d, Mirror);
    FiredVideoSteps(s, d);
  }

  /** Steps 5 to 7: volume, atempo, asetrate and aresample; their log fragments follow `videoLogs`. */
  method BuildAudioFilters(s: ProcessSettings, d: Draws, fmt: Formatter, videoLogs: seq<string>)
    returns (audioFilters: seq<string>, logs: seq<string>)
    ensures audioFilters == FilterTexts(FiredAudio(s, d), fmt)
    ensures logs == videoLogs + LogTexts(FiredAudio(s, d), fmt)
  {
    audioFilters, logs := [], videoLogs;
    ghost var audio: seq<Effect> := [];

    if s.audioVolume {
      var volume := Volume(GetRandom(ToneMin, ToneMax, d.volume));
      audioFilters := audioFilters + [FilterText(volume, fmt)];
      logs := logs + [LogText(volume, fmt)];
      TextsSnoc(audio, volume, fmt);
      audio := audio + [volume];
    }
    assert audioFilters == FilterTexts(audio, fmt) && logs == videoLogs + LogTexts(audio, fmt);
    assert audio == Step(s, d, Volume(GetRandom(ToneMin, ToneMax, d.volume)));

    if s.audioSpeed {
      var speed := Speed(GetRandom(TempoMin, TempoMax, d.speed));
      audioFilters := audioFilters + [FilterText(speed, fmt)];
      logs := logs + [LogText(speed, fmt)];
      TextsSnoc(audio, speed, fmt);
      audio := audio + [speed];
    }
    assert audioFilters == FilterTexts(audio, fmt) && logs == videoLogs + LogTexts(audio, fmt);
    assert audio == Step(s, d, Volume(GetRandom(ToneMin, ToneMax, d.volume)))
                  + Step(s, d, Speed(GetRandom(TempoMin, TempoMax, d.speed)));

    if s.audioPitch {
      var pitch := Pitch(GetRandom(PitchMin, PitchMax, d.pitch));
      audioFilters := audioFilters + [FilterText(pitch, fmt)];
      logs := logs + [LogText(pitch, fmt)];
      TextsSnoc(audio, pitch, fmt);
      audio := audio + [pitch];
    }
    FiredAudioSteps(s, d);
  }

  /** Only if a step fires is it kept; the candidates keep their relative order. */
  function Step(s: ProcessSettings, d: Draws, e: Effect): seq<Effect>
  {
    if Fires(s, d, KindOf(e)) then [e] else []
  }

  lemma FiredVideoSteps(s: ProcessSettings, d: Draws)
    ensures FiredVideo(s, d)
         == Step(s, d, EqEffect(s, d))
          + Step(s, d, Rotate(GetRandom(AngleMin, AngleMax, d.rotation)))
          + Step(s, d, Zoom(GetRandom(ZoomMin, ZoomMax, d.zoom)))
          + Step(s, d, Mirror)
  {
    var c := VideoCandidates(s, d);
    var p := FiresFor(s, d);
    KeepSnoc([], c[0], p);
    assert [] + [c[0]] == c[..1];
    KeepSnoc(c[..1], c[1], p);
    assert c[..1] + [c[1]] == c[..2];
    KeepSnoc(c[..2], c[2], p);
    assert c[..2] + [c[2]] == c[..3];
    KeepSnoc(c[..3], c[3], p);
    assert c[..3] + [c[3]] == c;
  }

  lemma FiredAudioSteps(s: ProcessSettings, d: Draws)
    ensures FiredAudio(s, d)
         == Step(s, d, Volume(GetRandom(ToneMin, ToneMax, d.volume)))
          + Step(s, d, Speed(GetRandom(TempoMin, TempoMax, d.speed)))
          + Step(s, d, Pitch(GetRandom(PitchMin, PitchMax, d.pitch)))
  {
    var c := AudioCandidates(s, d);
    var p := FiresFor(s, d);
    KeepSnoc([], c[0], p);
    assert [] + [c[0]] == c[..1];
    KeepSnoc(c[..1], c[1], p);
    assert c[..1] + [c[1]] == c[..2];
    KeepSnoc(c[..2], c[2], p);
    assert c[..2] + [c[2]] == c;
  }

  lemma TextsSnoc(es: seq<Effect>, e: Effect, fmt: Formatter)
    ensures FilterTexts(es + [e], fmt) == FilterTexts(es, fmt) + [FilterText(e, fmt)]
    ensures LogTexts(es + [e], fmt) == LogTexts(es, fmt) + [LogText(e, fmt)]
  {
  }

  lemma TextsOfConcat(xs: seq<Effect>, ys: seq<Effect>, fmt: Formatter)
    ensures FilterTexts(xs + ys, fmt) == FilterTexts(xs, fmt) + FilterTexts(ys, fmt)
    ensures LogTexts(xs + ys, fmt) == LogTexts(xs, fmt) + LogTexts(ys, fmt)
  {
  }

  /** The steps of `es` strictly follow the builder's evaluation order. */
  ghost predicate InBuilderOrder(es: seq<Effect>)
  {
    forall i, j :: 0 <= i < j < |es| ==> Rank(KindOf(es[i])) < Rank(KindOf(es[j]))
  }

  lemma {:induction false} KeepInBuilderOrder(es: seq<Effect>, p: Effect -> bool)
    requires InBuilderOrder(es)
    ensures InBuilderOrder(Keep(es, p))
  {
    if es != [] {
      var rest := Keep(es[1..], p);
      KeepInBuilderOrder(es[1..], p);
      if p(es[0]) {
        forall j | 0 <= j < |rest|
          ensures Rank(KindOf(es[0])) < Rank(KindOf(rest[j]))
        {
          var k :| 0 <= k < |es[1..]| && es[1..][k] == rest[j];
          assert es[k + 1] == rest[j];
        }
        InBuilderOrderCons(es[0], rest);
      } else {
        assert Keep(es, p) == rest;
      }
    }
  }

  lemma InBuilderOrderCons(e: Effect, rest: seq<Effect>)
    requires InBuilderOrder(rest)
    requires forall j :: 0 <= j < |rest| ==> Rank(KindOf(e)) < Rank(KindOf(rest[j]))
    ensures InBuilderOrder([e] + rest)
  {
    forall i, j | 0 <= i < j < |[e] + rest|
      ensures Rank(KindOf(([e] + rest)[i])) < Rank(KindOf(([e] + rest)[j]))
    {
      assert ([e] + rest)[j] == rest[j - 1];
      if i > 0 {
        assert ([e] + rest)[i] == rest[i - 1];
      }
    }
  }

  lemma CandidatesInBuilderOrder(s: ProcessSettings, d: Draws)
    ensures InBuilderOrder(VideoCandidates(s, d)) && InBuilderOrder(AudioCandidates(s, d))
    ensures forall e :: e in VideoCandidates(s, d) ==> IsVideoKind(KindOf(e))
    ensures forall e :: e in AudioCandidates(s, d) ==> !IsVideoKind(KindOf(e))
  {
  }

  lemma FiredListsInBuilderOrder(s: ProcessSettings, d: Draws)
    ensures InBuilderOrder(FiredVideo(s, d)) && InBuilderOrder(FiredAudio(s, d))
  {
    CandidatesInBuilderOrder(s, d);
    KeepInBuilderOrder(VideoCandidates(s, d), FiresFor(s, d));
    KeepInBuilderOrder(AudioCandidates(s, d), FiresFor(s, d));
  }

  /**
   * Steps 1 to 7 fire in a fixed order, each at most once, and every video
   * step precedes every audio step.
   */
  lemma FiredInBuilderOrder(s: ProcessSettings, d: Draws)
    ensures InBuilderOrder(Fired(s, d))
    ensures forall e :: e in FiredVideo(s, d) ==> IsVideoKind(KindOf(e))
    ensures forall e :: e in FiredAudio(s, d) ==> !IsVideoKind(KindOf(e))
  {
    var v, a := FiredVideo(s, d), FiredAudio(s, d);
    FiredListsInBuilderOrder(s, d);
    CandidatesInBuilderOrder(s, d);
    assert forall e :: e in v ==> e in VideoCandidates(s, d);
    assert forall e :: e in a ==> e in AudioCandidates(s, d);
    forall i, j | 0 <= i < j < |v + a|
      ensures Rank(KindOf((v + a)[i])) < Rank(KindOf((v + a)[j]))
    {
      if j < |v| {
        assert (v + a)[i] == v[i] && (v + a)[j] == v[j];
      } else if |v| <= i {
        assert (v + a)[i] == a[i - |v|] && (v + a)[j] == a[j - |v|];
      } else {
        assert (v + a)[i] in v && (v + a)[j] in a;
      }
    }
  }

  /** A step's effect is in the plan exactly when the step fires. */
  lemma KindFiresIff(s: ProcessSettings, d: Draws, k: Kind)
    ensures (exists e :: e in Fired(s, d) && KindOf(e) == k) <==> Fires(s, d, k)
  {
    var v, a := VideoCandidates(s, d), AudioCandidates(s, d);
    var p := FiresFor(s, d);
    assert forall e :: e in Fired(s, d) ==> (e in v || e in a) && p(e);
    if Fires(s, d, k) {
      var c := match k
        case EqKind => v[0] case RotateKind => v[1] case ZoomKind => v[2] case MirrorKind => v[3]
        case VolumeKind => a[0] case SpeedKind => a[1] case PitchKind => a[2];
      assert KindOf(c) == k && p(c);
      match k
      case EqKind => KeepRetains(v, p, 0);
      case RotateKind => KeepRetains(v, p, 1);
      case ZoomKind => KeepRetains(v, p, 2);
      case MirrorKind => KeepRetains(v, p, 3);
      case VolumeKind => KeepRetains(a, p, 0);
      case SpeedKind => KeepRetains(a, p, 1);
      case PitchKind => KeepRetains(a, p, 2);
      assert c in Fired(s, d);
    }
  }

  /** Brightness, contrast or saturation that is switched off enters the eq filter with its neutral value. */
  lemma EqNeutralValues(s: ProcessSettings, d: Draws)
    ensures forall e :: e in Fired(s, d) && e.Eq? ==>
      && (!s.brightness ==> e.brightness == 0.0)
      && (!s.contrast ==> e.contrast == 1.0)
      && (!s.saturation ==> e.saturation == 1.0)
  {
  }

  predicate Within(x: real, lo: real, hi: real)
  {
    lo <= x < hi
  }

  /** Every parameter lies in the interval getRandom was asked for (or is a neutral eq value, which does too). */
  predicate InRange(e: Effect)
  {
    match e
    case Eq(b, c, sat) => Within(b, BrightnessMin, BrightnessMax) && Within(c, ToneMin, ToneMax) && Within(sat, ToneMin, ToneMax)
    case Rotate(a) => Within(a, AngleMin, AngleMax)
    case Zoom(z) => Within(z, ZoomMin, ZoomMax)
    case Mirror => true
    case Volume(v) => Within(v, ToneMin, ToneMax)
    case Speed(t) => Within(t, TempoMin, TempoMax)
    case Pitch(p) => Within(p, PitchMin, PitchMax)
  }

  /** With draws from Math.random(), every sampled parameter is in its documented range. */
  lemma ParametersInRange(s: ProcessSettings, d: Draws)
    requires ValidDraws(d)
    ensures forall e :: e in Fired(s, d) ==> InRange(e)
  {
  }

  /** The two draw records agree on every draw the settings cause the builder to read. */
  predicate SameReadDraws(s: ProcessSettings, d1: Draws, d2: Draws)
  {
    && (s.brightness ==> d1.brightness == d2.brightness)
    && (s.contrast ==> d1.contrast == d2.contrast)
    && (s.saturation ==> d1.saturation == d2.saturation)
    && (s.rotation ==> d1.rotation == d2.rotation)
    && (s.zoom ==> d1.zoom == d2.zoom)
    && (s.mirror ==> d1.mirror == d2.mirror)
    && (s.audioVolume ==> d1.volume == d2.volume)
    && (s.audioSpeed ==> d1.speed == d2.speed)
    && (s.audioPitch ==> d1.pitch == d2.pitch)
  }

  /**
   * A draw whose toggle is off has no influence on the plan; in particular,
   * with the mirror toggle off the coin flip changes nothing.
   */
  lemma UnreadDrawsIrrelevant(s: ProcessSettings, d1: Draws, d2: Draws, fmt: Formatter)
    requires SameReadDraws(s, d1, d2)
    ensures Fired(s, d1) == Fired(s, d2)
    ensures Plan(s, d1, fmt) == Plan(s, d2, fmt)
  {
    UnreadVideoDrawsIrrelevant(s, d1, d2);
    UnreadAudioDrawsIrrelevant(s, d1, d2);
  }

  lemma UnreadVideoDrawsIrrelevant(s: ProcessSettings, d1: Draws, d2: Draws)
    requires SameReadDraws(s, d1, d2)
    ensures FiredVideo(s, d1) == FiredVideo(s, d2)
  {
    var p1, p2 := FiresFor(s, d1), FiresFor(s, d2);
    var v1, v2 := VideoCandidates(s, d1), VideoCandidates(s, d2);
    assert p1(v1[3]) == p2(v2[3]);
    KeepAgree(v1, v2, p1, p2);
  }

  lemma UnreadAudioDrawsIrrelevant(s: ProcessSettings, d1: Draws, d2: Draws)
    requires SameReadDraws(s, d1, d2)
    ensures FiredAudio(s, d1) == FiredAudio(s, d2)
  {
    KeepAgree(AudioCandidates(s, d1), AudioCandidates(s, d2), FiresFor(s, d1), FiresFor(s, d2));
  }

  /** hflip is emitted exactly when the mirror toggle is on and the coin flip comes up true. */
  lemma HflipIff(s: ProcessSettings, d: Draws, fmt: Formatter)
    ensures "hflip" in Plan(s, d, fmt).videoFilters <==> s.mirror && GetBool(d.mirror)
  {
    var v := FiredVideo(s, d);
    var filters := Plan(s, d, fmt).videoFilters;
    if "hflip" in filters {
      var i :| 0 <= i < |filters| && filters[i] == "hflip";
      assert v[i] in VideoCandidates(s, d) && FiresFor(s, d)(v[i]);
    }
    if s.mirror && GetBool(d.mirror) {
      assert VideoCandidates(s, d)[3] == Mirror;
      KeepRetains(VideoCandidates(s, d), FiresFor(s, d), 3);
      assert Mirror in v;
      var i :| 0 <= i < |v| && v[i] == Mirror;
      assert filters[i] == "hflip";
    }
  }

  /**
   * Filter i of the video chain and log fragment i come from the same step;
   * the audio filters pair with the fragments that follow.
   */
  lemma PlanPairsFiltersWithLogs(s: ProcessSettings, d: Draws, fmt: Formatter)
    ensures var plan := Plan(s, d, fmt);
      && |plan.logs| == |plan.videoFilters| + |plan.audioFilters|
      && (forall i :: 0 <= i < |plan.videoFilters| ==>
            plan.videoFilters[i] == FilterText(Fired(s, d)[i], fmt) && plan.logs[i] == LogText(Fired(s, d)[i], fmt))
      && (forall j :: 0 <= j < |plan.audioFilters| ==>
            var k := |plan.videoFilters| + j;
            plan.audioFilters[j] == FilterText(Fired(s, d)[k], fmt) && plan.logs[k] == LogText(Fired(s, d)[k], fmt))
  {
  }

  /** No step fires: all toggles are off, or only the mirror is on and its coin flip came up false. */
  predicate NothingFires(s: ProcessSettings, d: Draws)
  {
    && !(s.brightness || s.contrast || s.saturation)
    && !s.rotation
    && !s.zoom
    && !(s.mirror && GetBool(d.mirror))
    && !s.audioVolume
    && !s.audioSpeed
    && !s.audioPitch
  }

  lemma FiredEmptyIff(s: ProcessSettings, d: Draws)
    ensures Fired(s, d) == [] <==> NothingFires(s, d)
  {
    FiredVideoSteps(s, d);
    FiredAudioSteps(s, d);
  }

  /** What the record reports when there is no log fragment to join. */
  const NoFilters: string := "No filters"

  /**
   * The filter summary: the log fragments joined with ", ", or the sentinel
   * when that join is the empty string. With fragments that are non-empty and
   * do not start with 'N', it is the sentinel exactly when there are none.
   */
  function Summary(logs: seq<string>): (r: string)
    ensures logs == [] ==> r == NoFilters
    ensures logs != [] && logs[0] != "" ==> r == Join(logs, ", ")
    ensures (forall i :: 0 <= i < |logs| ==> |logs[i]| > 0 && logs[i][0] != 'N') ==> (r == NoFilters <==> logs == [])
  {
    var text := Join(logs, ", ");
    JoinStartsWithFirst(logs, ", ");
    assert logs != [] && logs[0] != "" ==> text[0] == logs[0][0];
    assert NoFilters[0] == 'N';
    if text == "" then NoFilters else text
  }

  /**
   * The filter summary of a copy is the sentinel exactly when no step fired;
   * otherwise it is the log fragments joined with ", ".
   */
  lemma SummarySentinelIff(s: ProcessSettings, d: Draws, fmt: Formatter)
    ensures Summary(Plan(s, d, fmt).logs) == NoFilters <==> NothingFires(s, d)
    ensures !NothingFires(s, d) ==> Summary(Plan(s, d, fmt).logs) == Join(Plan(s, d, fmt).logs, ", ")
  {
    var logs := Plan(s, d, fmt).logs;
    FiredEmptyIff(s, d);
    assert forall i :: 0 <= i < |logs| ==> logs[i] == LogText(Fired(s, d)[i], fmt);
  }
}
