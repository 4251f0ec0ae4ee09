/**
  Meter configuration: the built-in defaults, the four named presets, and the
  resolution of a caller's explicit settings over them (the constructor's
  merge) and over a live configuration (`setPreset`).
 */
module MeterConfig {
  import opened Wrappers

  datatype Colors = Colors(
    background: string, peak: string, rms: string, hold: string,
    warning: string, danger: string, scale: string, text: string)

  /** A partial `colors` object; an absent key is `None`. */
  datatype ColorOverrides = ColorOverrides(
    background: Option<string>, peak: Option<string>, rms: Option<string>, hold: Option<string>,
    warning: Option<string>, danger: Option<string>, scale: Option<string>, text: Option<string>)

  /** Zone thresholds in dB: the yellow zone starts at `warning`, the red one at `danger`. */
  datatype Thresholds = Thresholds(warning: real, danger: real)

  datatype ThresholdOverrides = ThresholdOverrides(warning: Option<real>, danger: Option<real>)

  /** A fully resolved configuration. Times are in ms, rates in dB/s, levels in dB. */
  datatype Config = Config(
    preset: string, orientation: string,
    showScale: bool, showNumeric: bool, showRMS: bool, showHold: bool, showLUFS: bool,
    dbMin: real, dbMax: real, dbClip: real,
    width: real, height: real,
    holdTime: real, decayRate: real,
    ballistics: bool, releaseRate: real,
    colors: Colors, thresholds: Thresholds)

  /**
    A named preset bundle. Every built-in preset sets the layout and the
    visibility of scale, numeric readout, RMS bar and hold marker; only
    `broadcast` sets `showLUFS`. None of them sets colours or thresholds.
   */
  datatype Preset = Preset(
    orientation: string,
    showScale: bool, showNumeric: bool, showRMS: bool, showHold: bool, showLUFS: Option<bool>,
    width: real, height: real)

  /** The caller's configuration object: every recognised key, each possibly absent. */
  datatype Overrides = Overrides(
    preset: Option<string>, orientation: Option<string>,
    showScale: Option<bool>, showNumeric: Option<bool>, showRMS: Option<bool>, showHold: Option<bool>,
    showLUFS: Option<bool>,
    dbMin: Option<real>, dbMax: Option<real>, dbClip: Option<real>,
    width: Option<real>, height: Option<real>,
    holdTime: Option<real>, decayRate: Option<real>,
    ballistics: Option<bool>, releaseRate: Option<real>,
    colors: ColorOverrides, thresholds: ThresholdOverrides)

  const NoColorOverrides := ColorOverrides(None, None, None, None, None, None, None, None)
  const NoThresholdOverrides := ThresholdOverrides(None, None)
  const NoOverrides := Overrides(
    None, None, None, None, None, None, None, None, None, None, None, None, None, None, None, None,
    NoColorOverrides, NoThresholdOverrides)

  const MinimalPreset := Preset("vertical", false, false, true, false, None, 20.0, 120.0)
  const StandardPreset := Preset("vertical", true, true, true, true, None, 44.0, 200.0)
  const BroadcastPreset := Preset("vertical", true, true, true, true, Some(true), 52.0, 300.0)
  const CompactPreset := Preset("horizontal", false, false, true, false, None, 120.0, 12.0)

  const DefaultColors := Colors(
    "var(--meter-bg, #1a1a1a)", "var(--meter-peak, #00ff00)", "var(--meter-rms, #007700)",
    "var(--meter-hold, #ffffff)", "var(--meter-warning, #ffff00)", "var(--meter-danger, #ff0000)",
    "var(--meter-scale, #666666)", "var(--meter-text, #cccccc)")

  const DefaultConfig := Config(
    "standard", "vertical",
    true, true, true, true, false,
    -90.0, 6.0, 0.0,
    24.0, 200.0,
    1500.0, 20.0,
    true, 11.8,
    DefaultColors, Thresholds(-20.0, -10.0))

  /** The preset table lookup; names other than the four built-ins find nothing. */
  function LookupPreset(name: string): (r: Option<Preset>)
    ensures r.Some? <==> name in {"minimal", "standard", "broadcast", "compact"}
  {
    if name == "minimal" then Some(MinimalPreset)
    else if name == "standard" then Some(StandardPreset)
    else if name == "broadcast" then Some(BroadcastPreset)
    else if name == "compact" then Some(CompactPreset)
    else None
  }

  /** The preset the constructor applies: the named one, or `standard` when absent or unknown. */
  function EffectivePreset(name: Option<string>): Preset {
    if name.Some? && LookupPreset(name.value).Some? then LookupPreset(name.value).value
    else StandardPreset
  }

  function OverlayColors(base: Colors, o: ColorOverrides): Colors {
    Colors(
      o.background.GetOr(base.background), o.peak.GetOr(base.peak), o.rms.GetOr(base.rms),
      o.hold.GetOr(base.hold), o.warning.GetOr(base.warning), o.danger.GetOr(base.danger),
      o.scale.GetOr(base.scale), o.text.GetOr(base.text))
  }

  function OverlayThresholds(base: Thresholds, o: ThresholdOverrides): Thresholds {
    Thresholds(o.warning.GetOr(base.warning), o.danger.GetOr(base.danger))
  }

  /**
    The constructor's merge: defaults, then the effective preset, then the
    explicit keys; colours merge key by key over the defaults (presets add
    none), thresholds key by key over the defaults only.
   */
  function ResolveConfig(e: Overrides): (r: Config)
    ensures HonoursOverrides(r, e)
    ensures r.preset == e.preset.GetOr("standard")
  {
    var p := EffectivePreset(e.preset);
    Config(
      e.preset.GetOr(DefaultConfig.preset),
      e.orientation.GetOr(p.orientation),
      e.showScale.GetOr(p.showScale),
      e.showNumeric.GetOr(p.showNumeric),
      e.showRMS.GetOr(p.showRMS),
      e.showHold.GetOr(p.showHold),
      e.showLUFS.GetOr(p.showLUFS.GetOr(DefaultConfig.showLUFS)),
      e.dbMin.GetOr(DefaultConfig.dbMin),
      e.dbMax.GetOr(DefaultConfig.dbMax),
      e.dbClip.GetOr(DefaultConfig.dbClip),
      e.width.GetOr(p.width),
      e.height.GetOr(p.height),
      e.holdTime.GetOr(DefaultConfig.holdTime),
      e.decayRate.GetOr(DefaultConfig.decayRate),
      e.ballistics.GetOr(DefaultConfig.ballistics),
      e.releaseRate.GetOr(DefaultConfig.releaseRate),
      OverlayColors(DefaultConfig.colors, e.colors),
      OverlayThresholds(DefaultConfig.thresholds, e.thresholds))
  }

  /** `setPreset`: an unknown name is ignored; a known one overwrites exactly the keys its bundle sets. */
  function SetPreset(c: Config, name: string): (r: Config)
    ensures LookupPreset(name).None? ==> r == c
    ensures SameCore(c, r) && r.preset == c.preset
    ensures LookupPreset(name).Some? ==> ShowsPreset(r, LookupPreset(name).value)
    ensures LookupPreset(name).Some? && LookupPreset(name).value.showLUFS.None? ==> r.showLUFS == c.showLUFS
  {
    match LookupPreset(name)
    case None => c
    case Some(p) =>
      c.(orientation := p.orientation, showScale := p.showScale, showNumeric := p.showNumeric,
         showRMS := p.showRMS, showHold := p.showHold, showLUFS := p.showLUFS.GetOr(c.showLUFS),
         width := p.width, height := p.height)
  }

  /** Two configurations agree on every key no preset sets (range, timing, ballistics, colours, thresholds). */
  predicate SameCore(a: Config, b: Config) {
    && a.dbMin == b.dbMin && a.dbMax == b.dbMax && a.dbClip == b.dbClip
    && a.holdTime == b.holdTime && a.decayRate == b.decayRate
    && a.ballistics == b.ballistics && a.releaseRate == b.releaseRate
    && a.colors == b.colors && a.thresholds == b.thresholds
  }

  /** `c` carries every key the preset bundle sets. */
  predicate ShowsPreset(c: Config, p: Preset) {
    && c.orientation == p.orientation && c.showScale == p.showScale && c.showNumeric == p.showNumeric
    && c.showRMS == p.showRMS && c.showHold == p.showHold && c.width == p.width && c.height == p.height
    && (p.showLUFS.Some? ==> c.showLUFS == p.showLUFS.value)
  }

  /** Every key the caller gave explicitly survives into the configuration. */
  predicate HonoursOverrides(c: Config, e: Overrides) {
    && (e.preset.Some? ==> c.preset == e.preset.value)
    && (e.orientation.Some? ==> c.orientation == e.orientation.value)
    && (e.showScale.Some? ==> c.showScale == e.showScale.value)
    && (e.showNumeric.Some? ==> c.showNumeric == e.showNumeric.value)
    && (e.showRMS.Some? ==> c.showRMS == e.showRMS.value)
    && (e.showHold.Some? ==> c.showHold == e.showHold.value)
    && (e.showLUFS.Some? ==> c.showLUFS == e.showLUFS.value)
    && (e.dbMin.Some? ==> c.dbMin == e.dbMin.value)
    && (e.dbMax.Some? ==> c.dbMax == e.dbMax.value)
    && (e.dbClip.Some? ==> c.dbClip == e.dbClip.value)
    && (e.width.Some? ==> c.width == e.width.value)
    && (e.height.Some? ==> c.height == e.height.value)
    && (e.holdTime.Some? ==> c.holdTime == e.holdTime.value)
    && (e.decayRate.Some? ==> c.decayRate == e.decayRate.value)
    && (e.ballistics.Some? ==> c.ballistics == e.ballistics.value)
    && (e.releaseRate.Some? ==> c.releaseRate == e.releaseRate.value)
    && (e.colors.background.Some? ==> c.colors.background == e.colors.background.value)
    && (e.colors.peak.Some? ==> c.colors.peak == e.colors.peak.value)
    && (e.colors.rms.Some? ==> c.colors.rms == e.colors.rms.value)
    && (e.colors.hold.Some? ==> c.colors.hold == e.colors.hold.value)
    && (e.colors.warning.Some? ==> c.colors.warning == e.colors.warning.value)
    && (e.colors.danger.Some? ==> c.colors.danger == e.colors.danger.value)
    && (e.colors.scale.Some? ==> c.colors.scale == e.colors.scale.value)
    && (e.colors.text.Some? ==> c.colors.text == e.colors.text.value)
    && (e.thresholds.warning.Some? ==> c.thresholds.warning == e.thresholds.warning.value)
    && (e.thresholds.danger.Some? ==> c.thresholds.danger == e.thresholds.danger.value)
  }

  /** The overrides that spell out every key of `c`. */
  function Explicit(c: Config): Overrides {
    Overrides(
      Some(c.preset), Some(c.orientation),
      Some(c.showScale), Some(c.showNumeric), Some(c.showRMS), Some(c.showHold), Some(c.showLUFS),
      Some(c.dbMin), Some(c.dbMax), Some(c.dbClip), Some(c.width), Some(c.height),
      Some(c.holdTime), Some(c.decayRate), Some(c.ballistics), Some(c.releaseRate),
      ColorOverrides(
        Some(c.colors.background), Some(c.colors.peak), Some(c.colors.rms), Some(c.colors.hold),
        Some(c.colors.warning), Some(c.colors.danger), Some(c.colors.scale), Some(c.colors.text)),
      ThresholdOverrides(Some(c.thresholds.warning), Some(c.thresholds.danger)))
  }

  /** No key set by the caller matches a key a preset bundle sets. */
  predicate LeavesPresetKeys(e: Overrides) {
    e.orientation.None? && e.showScale.None? && e.showNumeric.None? && e.showRMS.None?
    && e.showHold.None? && e.showLUFS.None? && e.width.None? && e.height.None?
  }

  /**
    Key by key, whatever else the caller set: a preset key the caller left
    out comes from the effective preset (for `showLUFS`, from the defaults
    when the preset does not set it), and any other key left out comes from
    the defaults; colours and thresholds fall back one key at a time.
   */
  lemma AbsentKeysFallBack(e: Overrides)
    ensures var r, p := ResolveConfig(e), EffectivePreset(e.preset);
      && (e.orientation.None? ==> r.orientation == p.orientation)
      && (e.showScale.None? ==> r.showScale == p.showScale)
      && (e.showNumeric.None? ==> r.showNumeric == p.showNumeric)
      && (e.showRMS.None? ==> r.showRMS == p.showRMS)
      && (e.showHold.None? ==> r.showHold == p.showHold)
      && (e.showLUFS.None? && p.showLUFS.Some? ==> r.showLUFS == p.showLUFS.value)
      && (e.showLUFS.None? && p.showLUFS.None? ==> r.showLUFS == DefaultConfig.showLUFS)
      && (e.width.None? ==> r.width == p.width)
      && (e.height.None? ==> r.height == p.height)
      && (e.dbMin.None? ==> r.dbMin == DefaultConfig.dbMin)
      && (e.dbMax.None? ==> r.dbMax == DefaultConfig.dbMax)
      && (e.dbClip.None? ==> r.dbClip == DefaultConfig.dbClip)
      && (e.holdTime.None? ==> r.holdTime == DefaultConfig.holdTime)
      && (e.decayRate.None? ==> r.decayRate == DefaultConfig.decayRate)
      && (e.ballistics.None? ==> r.ballistics == DefaultConfig.ballistics)
      && (e.releaseRate.None? ==> r.releaseRate == DefaultConfig.releaseRate)
      && (e.colors.background.None? ==> r.colors.background == DefaultColors.background)
      && (e.colors.peak.None? ==> r.colors.peak == DefaultColors.peak)
      && (e.colors.rms.None? ==> r.colors.rms == DefaultColors.rms)
      && (e.colors.hold.None? ==> r.colors.hold == DefaultColors.hold)
      && (e.colors.warning.None? ==> r.colors.warning == DefaultColors.warning)
      && (e.colors.danger.None? ==> r.colors.danger == DefaultColors.danger)
      && (e.colors.scale.None? ==> r.colors.scale == DefaultColors.scale)
      && (e.colors.text.None? ==> r.colors.text == DefaultColors.text)
      && (e.thresholds.warning.None? ==> r.thresholds.warning == DefaultConfig.thresholds.warning)
      && (e.thresholds.danger.None? ==> r.thresholds.danger == DefaultConfig.thresholds.danger)
  {
  }

  /** Stating every key explicitly reproduces the configuration: defaults and presets lose to it. */
  lemma ExplicitRoundTrip(c: Config)
    ensures ResolveConfig(Explicit(c)) == c
  {
  }

  /** An unknown preset name resolves exactly like `standard`, except that the name itself is kept. */
  lemma UnknownPresetIsStandard(e: Overrides, name: string)
    requires LookupPreset(name).None?
    ensures ResolveConfig(e.(preset := Some(name))) == ResolveConfig(e.(preset := Some("standard"))).(preset := name)
    ensures ResolveConfig(e.(preset := None)) == ResolveConfig(e.(preset := Some("standard")))
  {
  }

  /** An empty configuration object yields the defaults with the `standard` bundle over them. */
  lemma EmptyConfigIsStandard()
    ensures ResolveConfig(NoOverrides) == DefaultConfig.(width := 44.0)
  {
  }

  /**
    Constructing with preset `n` is the same as constructing with the default
    preset and then calling `setPreset(n)`, apart from the recorded name,
    provided the caller sets none of the preset's keys.
   */
  lemma ConstructThenSetPreset(e: Overrides, name: string)
    requires LeavesPresetKeys(e)
    requires LookupPreset(name).Some?
    ensures ResolveConfig(e.(preset := Some(name)))
         == SetPreset(ResolveConfig(e.(preset := None)), name).(preset := name)
  {
  }

  /** Applying the same preset twice is the same as applying it once. */
  lemma SetPresetIdempotent(c: Config, name: string)
    ensures SetPreset(SetPreset(c, name), name) == SetPreset(c, name)
  {
  }

  /**
    `setPreset` overlays and never resets: a key the new bundle does not set
    keeps its previous value, so the LUFS display turned on by `broadcast`
    stays on after switching to any other preset.
   */
  lemma LufsSurvivesPresetSwitch(c: Config, name: string)
    requires LookupPreset(name).Some?
    ensures SetPreset(SetPreset(c, "broadcast"), name).showLUFS
  {
  }
}
