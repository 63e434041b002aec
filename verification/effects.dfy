/** What each effect entry point of the session controller computes from the
    current buffer, as a pure function: the new buffer, or None when the entry
    point reports failure and leaves the buffer as it was.

    The processing engines themselves (equaliser filters, pitch tracking,
    mastering chains) are outside this model; each is a function value in
    `Backends` whose outcome is a processed buffer, "module unavailable" (an
    import failure) or "failed" (any other exception). */
module Effects {
  import opened Samples
  import opened Presets

  datatype Option<T> = None | Some(value: T)

  /** What a processing engine does when invoked. */
  datatype Outcome = Ok(buf: Buffer) | Unavailable | Failed

  /** Settings of the manual mastering chain. */
  datatype ChainSettings = ChainSettings(
    compressorThresholdDb: int,
    limiterCeilingDb: int,
    highFreqProtection: bool,
    stereoWidth: real,
    preset: string)

  /** The processing engines, each given the sample rate, its parameters and the
      current buffer. */
  datatype Backends = Backends(
    /** Graphic equaliser with per-band gains. */
    equalizer: (Option<int>, seq<real>, Buffer) -> Outcome,
    /** Anti-AI equaliser with per-band gains, natural character preserved. */
    antiAiEqualizer: (Option<int>, seq<real>, Buffer) -> Outcome,
    /** Enhanced one-click equaliser by mode name. */
    enhancedEqualizer: (Option<int>, string, Buffer) -> Outcome,
    /** Auto-tune with a strength and a pitch shift in semitones. */
    pitchCorrector: (Option<int>, real, real, Buffer) -> Outcome,
    /** Plain pitch shift by a number of semitones (the signal library's own). */
    pitchShift: (Option<int>, real, Buffer) -> Outcome,
    /** Anti-AI auto-tune with a parameter set. */
    antiAiPitchCorrector: (Option<int>, PitchSettings, Buffer) -> Outcome,
    /** Enhanced one-click pitch correction by mode name. */
    enhancedPitchCorrector: (Option<int>, string, Buffer) -> Outcome,
    /** Enhanced one-click mastering by mode name. */
    enhancedMastering: (Option<int>, string, Buffer) -> Outcome,
    /** Manual mastering chain: compressor, limiter, stereo enhancer, preset. */
    masteringChain: (Option<int>, ChainSettings, Buffer) -> Outcome)

  /** The buffer after an entry point with result `r`: the new buffer on success,
      the old one on failure. */
  function Commit(current: Option<Buffer>, r: Option<Buffer>): Option<Buffer>
  {
    if r.Some? then r else current
  }

  /** The outcome of the one-click equaliser engine the anti-AI switch selects:
      the anti-AI engine with the mode's preset, or the enhanced engine with the
      mode name. */
  function SmartEqEngine(audio: Buffer, sr: Option<int>, mode: string, antiAi: bool, be: Backends): Outcome
  {
    if antiAi then be.antiAiEqualizer(sr, EqPreset(mode), audio) else be.enhancedEqualizer(sr, mode, audio)
  }

  /** The outcome of the one-click pitch engine the anti-AI switch selects: the
      anti-AI engine with the mode's parameter set, or the enhanced engine with the
      mode name. */
  function SmartPitchEngine(audio: Buffer, sr: Option<int>, mode: string, antiAi: bool, be: Backends): Outcome
  {
    if antiAi then be.antiAiPitchCorrector(sr, SmartPitchSettings(mode), audio) else be.enhancedPitchCorrector(sr, mode, audio)
  }

  /** Manual equalisation: refused without audio or without bands; the engine's
      output is clipped; an unavailable engine is a failure like any other. */
  function Equalized(audio: Option<Buffer>, sr: Option<int>, bands: seq<real>, be: Backends): (r: Option<Buffer>)
    ensures audio.None? || |bands| == 0 ==> r.None?
    ensures r.Some? <==> audio.Some? && |bands| > 0 && be.equalizer(sr, bands, audio.value).Ok?
    ensures r.Some? ==> r.value == ClipBuffer(be.equalizer(sr, bands, audio.value).buf)
    ensures r.Some? ==> Bounded(r.value) && |r.value| == |be.equalizer(sr, bands, audio.value).buf|
  {
    if audio.None? || |bands| == 0 then None
    else
      match be.equalizer(sr, bands, audio.value)
      case Ok(out) => Some(ClipBuffer(out))
      case Unavailable => None
      case Failed => None
  }

  /** One-click equalisation. With anti-AI processing the mode picks a preset that
      goes to the anti-AI engine, whose output is taken unclipped; otherwise the
      enhanced engine's output is clipped. An unavailable engine falls back to a
      flat manual equalisation. */
  function SmartEqualized(audio: Option<Buffer>, sr: Option<int>, mode: string, antiAi: bool, be: Backends): (r: Option<Buffer>)
    ensures audio.None? ==> r.None?
    ensures audio.Some? ==>
      (r.Some? <==> SmartEqEngine(audio.value, sr, mode, antiAi, be).Ok? ||
                    (SmartEqEngine(audio.value, sr, mode, antiAi, be).Unavailable? && be.equalizer(sr, FlatBands, audio.value).Ok?))
    ensures audio.Some? && antiAi && SmartEqEngine(audio.value, sr, mode, antiAi, be).Ok? ==>
      r == Some(SmartEqEngine(audio.value, sr, mode, antiAi, be).buf)
    ensures audio.Some? && !antiAi && SmartEqEngine(audio.value, sr, mode, antiAi, be).Ok? ==>
      r == Some(ClipBuffer(SmartEqEngine(audio.value, sr, mode, antiAi, be).buf))
    ensures !antiAi && r.Some? ==> Bounded(r.value)
  {
    if audio.None? then None
    else if antiAi then
      match be.antiAiEqualizer(sr, EqPreset(mode), audio.value)
      case Ok(out) => Some(out)
      case Unavailable => Equalized(audio, sr, FlatBands, be)
      case Failed => None
    else
      match be.enhancedEqualizer(sr, mode, audio.value)
      case Ok(out) => Some(ClipBuffer(out))
      case Unavailable => Equalized(audio, sr, FlatBands, be)
      case Failed => None
  }

  /** Manual pitch correction: the auto-tune engine's output is taken unclipped;
      when it is unavailable, a plain pitch shift by the same number of semitones
      is tried, and any failure of that is a failure. */
  function PitchCorrected(audio: Option<Buffer>, sr: Option<int>, semitones: real, strength: real, be: Backends): (r: Option<Buffer>)
    ensures audio.None? ==> r.None?
    ensures audio.Some? ==>
      (r.Some? <==> be.pitchCorrector(sr, strength, semitones, audio.value).Ok? ||
                    (be.pitchCorrector(sr, strength, semitones, audio.value).Unavailable? && be.pitchShift(sr, semitones, audio.value).Ok?))
    ensures audio.Some? && be.pitchCorrector(sr, strength, semitones, audio.value).Ok? ==>
      r == Some(be.pitchCorrector(sr, strength, semitones, audio.value).buf)
    ensures audio.Some? && be.pitchCorrector(sr, strength, semitones, audio.value).Unavailable? && be.pitchShift(sr, semitones, audio.value).Ok? ==>
      r == Some(be.pitchShift(sr, semitones, audio.value).buf)
  {
    if audio.None? then None
    else
      match be.pitchCorrector(sr, strength, semitones, audio.value)
      case Ok(out) => Some(out)
      case Unavailable =>
        (match be.pitchShift(sr, semitones, audio.value)
         case Ok(out) => Some(out)
         case Unavailable => None
         case Failed => None)
      case Failed => None
  }

  /** One-click pitch correction. With anti-AI processing the mode picks a
      parameter set for the anti-AI engine; otherwise the enhanced engine gets the
      mode name; either output is clipped. An unavailable engine falls back to a
      manual correction with no shift and half strength. */
  function SmartPitchCorrected(audio: Option<Buffer>, sr: Option<int>, mode: string, antiAi: bool, be: Backends): (r: Option<Buffer>)
    ensures audio.None? ==> r.None?
    ensures audio.Some? ==>
      (r.Some? <==> SmartPitchEngine(audio.value, sr, mode, antiAi, be).Ok? ||
                    (SmartPitchEngine(audio.value, sr, mode, antiAi, be).Unavailable? && PitchCorrected(audio, sr, 0.0, 0.5, be).Some?))
    ensures audio.Some? && SmartPitchEngine(audio.value, sr, mode, antiAi, be).Ok? ==>
      r == Some(ClipBuffer(SmartPitchEngine(audio.value, sr, mode, antiAi, be).buf))
  {
    if audio.None? then None
    else if antiAi then
      match be.antiAiPitchCorrector(sr, SmartPitchSettings(mode), audio.value)
      case Ok(out) => Some(ClipBuffer(out))
      case Unavailable => PitchCorrected(audio, sr, 0.0, 0.5, be)
      case Failed => None
    else
      match be.enhancedPitchCorrector(sr, mode, audio.value)
      case Ok(out) => Some(ClipBuffer(out))
      case Unavailable => PitchCorrected(audio, sr, 0.0, 0.5, be)
      case Failed => None
  }

  /** The last-resort mastering: succeeds whenever there is audio. */
  function BasicMastering(audio: Option<Buffer>, rms: real): (r: Option<Buffer>)
    requires rms >= 0.0
    ensures r.Some? <==> audio.Some?
    ensures r.Some? ==> |r.value| == |audio.value| && Bounded(r.value)
  {
    if audio.None? then None else Some(BasicMastered(audio.value, rms))
  }

  /** One-click mastering: the enhanced engine's output is taken unclipped; when it
      is unavailable the last-resort mastering is applied. `rms` is the RMS of the
      current buffer. */
  function SmartMastered(audio: Option<Buffer>, sr: Option<int>, mode: string, be: Backends, rms: real): (r: Option<Buffer>)
    requires rms >= 0.0
    ensures audio.None? ==> r.None?
    ensures audio.Some? ==> (r.Some? <==> !be.enhancedMastering(sr, mode, audio.value).Failed?)
    ensures audio.Some? && be.enhancedMastering(sr, mode, audio.value).Ok? ==>
      r == Some(be.enhancedMastering(sr, mode, audio.value).buf)
  {
    if audio.None? then None
    else
      match be.enhancedMastering(sr, mode, audio.value)
      case Ok(out) => Some(out)
      case Unavailable => BasicMastering(audio, rms)
      case Failed => None
  }

  /** The manual mastering chain run from the mastering panel: its output is
      clipped. */
  function ChainMastered(audio: Buffer, sr: Option<int>, settings: ChainSettings, be: Backends): (r: Option<Buffer>)
    ensures r.Some? <==> be.masteringChain(sr, settings, audio).Ok?
    ensures r.Some? ==> r.value == ClipBuffer(be.masteringChain(sr, settings, audio).buf)
    ensures r.Some? ==> Bounded(r.value)
  {
    match be.masteringChain(sr, settings, audio)
    case Ok(out) => Some(ClipBuffer(out))
    case Unavailable => None
    case Failed => None
  }

  // Fallback chains and the paths that keep the samples in range.

  /** Whenever the chosen one-click engine is unavailable, one-click equalisation
      is a flat manual equalisation. */
  lemma SmartEqFallsBackToFlat(audio: Buffer, sr: Option<int>, mode: string, antiAi: bool, be: Backends)
    requires antiAi ==> be.antiAiEqualizer(sr, EqPreset(mode), audio).Unavailable?
    requires !antiAi ==> be.enhancedEqualizer(sr, mode, audio).Unavailable?
    ensures SmartEqualized(Some(audio), sr, mode, antiAi, be) == Equalized(Some(audio), sr, FlatBands, be)
  {
  }

  /** An engine that fails other than by being unavailable makes one-click
      equalisation fail: the flat fallback is not tried. */
  lemma SmartEqEngineFailure(audio: Buffer, sr: Option<int>, mode: string, antiAi: bool, be: Backends)
    requires antiAi ==> be.antiAiEqualizer(sr, EqPreset(mode), audio).Failed?
    requires !antiAi ==> be.enhancedEqualizer(sr, mode, audio).Failed?
    ensures SmartEqualized(Some(audio), sr, mode, antiAi, be).None?
  {
  }

  /** An auto-tune engine that fails other than by being unavailable makes manual
      pitch correction fail, whatever the plain pitch shift would have done. */
  lemma PitchEngineFailure(audio: Buffer, sr: Option<int>, semitones: real, strength: real, be: Backends)
    requires be.pitchCorrector(sr, strength, semitones, audio).Failed?
    ensures PitchCorrected(Some(audio), sr, semitones, strength, be).None?
  {
  }

  /** An engine that fails other than by being unavailable makes one-click pitch
      correction fail: the manual fallback is not tried. */
  lemma SmartPitchEngineFailure(audio: Buffer, sr: Option<int>, mode: string, antiAi: bool, be: Backends)
    requires antiAi ==> be.antiAiPitchCorrector(sr, SmartPitchSettings(mode), audio).Failed?
    requires !antiAi ==> be.enhancedPitchCorrector(sr, mode, audio).Failed?
    ensures SmartPitchCorrected(Some(audio), sr, mode, antiAi, be).None?
  {
  }

  /** An enhanced mastering engine that fails other than by being unavailable
      makes one-click mastering fail: the basic correction is not tried. */
  lemma SmartMasterEngineFailure(audio: Buffer, sr: Option<int>, mode: string, be: Backends, rms: real)
    requires rms >= 0.0
    requires be.enhancedMastering(sr, mode, audio).Failed?
    ensures SmartMastered(Some(audio), sr, mode, be, rms).None?
  {
  }

  /** With anti-AI processing, a mode the preset table does not know behaves
      exactly like "smart". */
  lemma UnknownEqModeBehavesAsSmart(audio: Option<Buffer>, sr: Option<int>, mode: string, be: Backends)
    requires mode !in EqPresetTable
    ensures SmartEqualized(audio, sr, mode, true, be) == SmartEqualized(audio, sr, "smart", true, be)
  {
    UnknownEqModeIsSmart(mode);
  }

  /** One-click equalisation stays in range except on the anti-AI engine's own
      output. */
  lemma SmartEqBounded(audio: Option<Buffer>, sr: Option<int>, mode: string, antiAi: bool, be: Backends)
    requires audio.Some? && antiAi ==> !be.antiAiEqualizer(sr, EqPreset(mode), audio.value).Ok?
    ensures SmartEqualized(audio, sr, mode, antiAi, be).Some? ==>
      Bounded(SmartEqualized(audio, sr, mode, antiAi, be).value)
  {
  }

  /** When the auto-tune engine is unavailable the strength plays no part: only
      the shift reaches the plain pitch shift. */
  lemma PitchFallbackIgnoresStrength(audio: Buffer, sr: Option<int>, semitones: real, s1: real, s2: real, be: Backends)
    requires be.pitchCorrector(sr, s1, semitones, audio).Unavailable?
    requires be.pitchCorrector(sr, s2, semitones, audio).Unavailable?
    ensures PitchCorrected(Some(audio), sr, semitones, s1, be) == PitchCorrected(Some(audio), sr, semitones, s2, be)
    ensures PitchCorrected(Some(audio), sr, semitones, s1, be).Some? <==> be.pitchShift(sr, semitones, audio).Ok?
  {
  }

  /** Whenever the chosen one-click pitch engine is unavailable, one-click pitch
      correction is a manual correction with no shift at half strength. */
  lemma SmartPitchFallsBackToManual(audio: Buffer, sr: Option<int>, mode: string, antiAi: bool, be: Backends)
    requires antiAi ==> be.antiAiPitchCorrector(sr, SmartPitchSettings(mode), audio).Unavailable?
    requires !antiAi ==> be.enhancedPitchCorrector(sr, mode, audio).Unavailable?
    ensures SmartPitchCorrected(Some(audio), sr, mode, antiAi, be) == PitchCorrected(Some(audio), sr, 0.0, 0.5, be)
  {
  }

  /** One-click pitch correction stays in range unless it fell back to the manual
      correction. */
  lemma SmartPitchBounded(audio: Buffer, sr: Option<int>, mode: string, antiAi: bool, be: Backends)
    requires antiAi ==> !be.antiAiPitchCorrector(sr, SmartPitchSettings(mode), audio).Unavailable?
    requires !antiAi ==> !be.enhancedPitchCorrector(sr, mode, audio).Unavailable?
    ensures SmartPitchCorrected(Some(audio), sr, mode, antiAi, be).Some? ==>
      Bounded(SmartPitchCorrected(Some(audio), sr, mode, antiAi, be).value)
  {
  }

  /** When the enhanced mastering engine is unavailable, one-click mastering is
      the basic loudness correction of the same buffer: it succeeds, keeps the
      length, stays in range and is no louder than the target loudness. */
  lemma SmartMasterFallbackLoudness(audio: Buffer, sr: Option<int>, mode: string, be: Backends, rms: real)
    requires IsRms(rms, audio)
    requires be.enhancedMastering(sr, mode, audio).Unavailable?
    ensures SmartMastered(Some(audio), sr, mode, be, rms) == BasicMastering(Some(audio), rms)
    ensures SmartMastered(Some(audio), sr, mode, be, rms).Some?
    ensures |SmartMastered(Some(audio), sr, mode, be, rms).value| == |audio|
    ensures Bounded(SmartMastered(Some(audio), sr, mode, be, rms).value)
    ensures RmsAtMost(SmartMastered(Some(audio), sr, mode, be, rms).value, TargetRms)
  {
    BasicMasteringAtMostTarget(audio, rms);
  }
}
