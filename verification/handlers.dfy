/** The interface actions that drive the session controller. Each effect action
    records the current buffer as the comparison backup and then runs the effect,
    so that after a successful effect `backup` holds the buffer it was applied to;
    an action that stops with an error before that point changes nothing. The
    reset action restores the buffer as loaded. Dialogs, plots and messages are not
    part of this model; each action returns whether it reports success. */
module Handlers {
  import opened Samples
  import opened Presets
  import opened Effects
  import opened Processor

  /** Band gains read from the equaliser's slider slots. A slot stays empty until
      the main window attaches its slider, which it does only once the player
      reports a duration; reading an empty slot raises, so there are no gains.
      Otherwise there is one gain per slider, a tenth of its position, so the
      slider range -120..120 covers -12..12. */
  function SliderGains(controls: seq<Option<int>>): (bands: Option<seq<real>>)
    ensures bands.Some? <==> forall i :: 0 <= i < |controls| ==> controls[i].Some?
    ensures bands.Some? ==> |bands.value| == |controls|
    ensures bands.Some? ==> forall i :: 0 <= i < |controls| ==> bands.value[i] * 10.0 == controls[i].value as real
    ensures bands.Some? && (forall i :: 0 <= i < |controls| ==> -120 <= controls[i].value <= 120) ==>
      (forall i :: 0 <= i < |controls| ==> -12.0 <= bands.value[i] <= 12.0)
  {
    if forall i :: 0 <= i < |controls| ==> controls[i].Some? then
      Some(seq(|controls|, i requires 0 <= i < |controls| && controls[i].Some? => controls[i].value as real / 10.0))
    else
      None
  }

  /** Reads the equaliser sliders one by one into the list of band gains; an empty
      slot stops the reading with an error. */
  method BandGains(controls: seq<Option<int>>) returns (bands: Option<seq<real>>)
    ensures bands == SliderGains(controls)
  {
    var gains: seq<real> := [];
    var i := 0;
    while i < |controls|
      invariant 0 <= i <= |controls|
      invariant |gains| == i
      invariant forall k :: 0 <= k < i ==> controls[k].Some? && gains[k] == controls[k].value as real / 10.0
    {
      if controls[i].None? {
        return None;
      }
      gains := gains + [controls[i].value as real / 10.0];
      i := i + 1;
    }
    ghost var read := SliderGains(controls).value;
    assert forall k :: 0 <= k < |controls| ==> gains[k] * 10.0 == read[k] * 10.0;
    assert gains == read;
    return Some(gains);
  }

  /** The backup slot after an effect action started with buffer `audio` and
      backup `backup`. */
  function BackupBefore(audio: Option<Buffer>, backup: Option<Buffer>): Option<Buffer>
  {
    if audio.Some? then audio else backup
  }

  /** The pitch panel's control slot as the program leaves it: emptied when the
      panel is built and assigned nowhere else (the main window builds a separate
      label instead). */
  const PanelPitchControl: Option<int> := None

  /** Pitch panel, manual correction. Does nothing without a pitch control; with
      one, the backup takes the buffer and the correction runs with the control's
      position as the shift in tenths of a semitone, at full strength. */
  method ApplyPitchCorrection(p: AudioProcessor, pitchControl: Option<int>, be: Backends) returns (ok: bool)
    requires p.Valid()
    modifies p
    ensures p.Valid()
    ensures p.original == old(p.original) && p.sampleRate == old(p.sampleRate)
    ensures pitchControl.None? ==> !ok && p.audio == old(p.audio) && p.backup == old(p.backup)
    ensures pitchControl.Some? ==> p.backup == BackupBefore(old(p.audio), old(p.backup))
    ensures pitchControl.Some? ==>
      ok == PitchCorrected(old(p.audio), p.sampleRate, pitchControl.value as real / 10.0, 1.0, be).Some?
    ensures pitchControl.Some? ==>
      p.audio == Commit(old(p.audio), PitchCorrected(old(p.audio), p.sampleRate, pitchControl.value as real / 10.0, 1.0, be))
  {
    if pitchControl.None? {
      return false;
    }
    var semitones := pitchControl.value as real / 10.0;
    p.SaveBackup();
    ok := p.PitchCorrection(semitones, 1.0, be);
  }

  /** The manual pitch button as the program wires it: the panel's control slot is
      never filled, so pressing the button never changes a slot and never reports
      success, whatever is loaded and whatever the engines do. */
  method PressPitchButtonAsWired(p: AudioProcessor, be: Backends) returns (ok: bool)
    requires p.Valid()
    modifies p
    ensures p.Valid()
    ensures !ok
    ensures p.audio == old(p.audio) && p.backup == old(p.backup)
    ensures p.original == old(p.original) && p.sampleRate == old(p.sampleRate)
  {
    ok := ApplyPitchCorrection(p, PanelPitchControl, be);
  }

  /** The manual pitch button with the pitch slider attached to the panel, as the
      panel intends: the backup takes the buffer, then manual correction runs with
      the slider's shift at full strength. */
  method PressPitchButtonWithSlider(p: AudioProcessor, slider: int, be: Backends) returns (ok: bool)
    requires p.Valid()
    modifies p
    ensures p.Valid()
    ensures p.backup == BackupBefore(old(p.audio), old(p.backup))
    ensures ok == PitchCorrected(old(p.audio), p.sampleRate, slider as real / 10.0, 1.0, be).Some?
    ensures p.audio == Commit(old(p.audio), PitchCorrected(old(p.audio), p.sampleRate, slider as real / 10.0, 1.0, be))
    ensures p.original == old(p.original) && p.sampleRate == old(p.sampleRate)
  {
    ok := ApplyPitchCorrection(p, Some(slider), be);
  }

  /** Pitch panel, one-click correction with the mode chosen in the selection box. */
  method ApplySmartPitchCorrection(p: AudioProcessor, modeIndex: nat, antiAi: bool, be: Backends) returns (ok: bool)
    requires p.Valid()
    requires modeIndex < |PitchModes|
    modifies p
    ensures p.Valid()
    ensures p.backup == BackupBefore(old(p.audio), old(p.backup))
    ensures ok == SmartPitchCorrected(old(p.audio), p.sampleRate, PitchModes[modeIndex], antiAi, be).Some?
    ensures p.audio == Commit(old(p.audio), SmartPitchCorrected(old(p.audio), p.sampleRate, PitchModes[modeIndex], antiAi, be))
    ensures p.original == old(p.original) && p.sampleRate == old(p.sampleRate)
  {
    var mode := PitchModes[modeIndex];
    p.SaveBackup();
    ok := p.SmartPitchCorrection(mode, antiAi, be);
  }

  /** Equaliser panel, manual equalisation with the slider gains. The sliders are
      read before the backup is taken. A missing slider raises an error that
      escapes the handler; the model records only that every slot is as it was
      then. Otherwise the backup takes the buffer and the equalisation runs. */
  method ApplyEq(p: AudioProcessor, controls: seq<Option<int>>, be: Backends) returns (ok: bool)
    requires p.Valid()
    modifies p
    ensures p.Valid()
    ensures p.original == old(p.original) && p.sampleRate == old(p.sampleRate)
    ensures SliderGains(controls).None? ==> !ok && p.audio == old(p.audio) && p.backup == old(p.backup)
    ensures SliderGains(controls).Some? ==> p.backup == BackupBefore(old(p.audio), old(p.backup))
    ensures SliderGains(controls).Some? ==>
      ok == Equalized(old(p.audio), p.sampleRate, SliderGains(controls).value, be).Some?
    ensures SliderGains(controls).Some? ==>
      p.audio == Commit(old(p.audio), Equalized(old(p.audio), p.sampleRate, SliderGains(controls).value, be))
    ensures ok ==> |controls| > 0 && Bounded(p.audio.value)
  {
    var bands := BandGains(controls);
    if bands.None? {
      return false;
    }
    p.SaveBackup();
    ok := p.Equalize(bands.value, be);
  }

  /** Equaliser panel, one-click equalisation with the mode chosen in the
      selection box. */
  method ApplySmartEq(p: AudioProcessor, modeIndex: nat, antiAi: bool, be: Backends) returns (ok: bool)
    requires p.Valid()
    requires modeIndex < |EqModes|
    modifies p
    ensures p.Valid()
    ensures p.backup == BackupBefore(old(p.audio), old(p.backup))
    ensures ok == SmartEqualized(old(p.audio), p.sampleRate, EqModes[modeIndex], antiAi, be).Some?
    ensures p.audio == Commit(old(p.audio), SmartEqualized(old(p.audio), p.sampleRate, EqModes[modeIndex], antiAi, be))
    ensures p.original == old(p.original) && p.sampleRate == old(p.sampleRate)
  {
    var mode := EqModes[modeIndex];
    p.SaveBackup();
    ok := p.SmartEqualize(mode, antiAi, be);
  }

  /** The settings the mastering panel hands to the mastering chain: compressor
      threshold and limiter ceiling straight from their controls, high-frequency
      protection off, stereo width in hundredths, the chosen preset. */
  function PanelChainSettings(threshold: int, ceiling: int, widthSlider: int, presetIndex: nat): (s: ChainSettings)
    requires presetIndex < |ChainPresets|
    ensures !s.highFreqProtection && s.preset in ChainPresets
    ensures s.stereoWidth * 100.0 == widthSlider as real
    ensures s.compressorThresholdDb == threshold && s.limiterCeilingDb == ceiling
  {
    ChainSettings(threshold, ceiling, false, widthSlider as real / 100.0, ChainPresets[presetIndex])
  }

  /** Mastering panel, manual mastering chain. When the mastering module cannot be
      loaded nothing changes, not even the backup; otherwise the backup is taken
      first, so a chain that then fails leaves the backup renewed and the buffer as
      it was. */
  method ApplyMastering(p: AudioProcessor, threshold: int, ceiling: int, widthSlider: int, presetIndex: nat,
                        chainAvailable: bool, be: Backends) returns (ok: bool)
    requires p.Valid()
    requires presetIndex < |ChainPresets|
    modifies p
    ensures p.Valid()
    ensures !chainAvailable ==> p.backup == old(p.backup)
    ensures chainAvailable ==> p.backup == BackupBefore(old(p.audio), old(p.backup))
    ensures ok <==> (chainAvailable && old(p.audio).Some? &&
      ChainMastered(old(p.audio).value, p.sampleRate, PanelChainSettings(threshold, ceiling, widthSlider, presetIndex), be).Some?)
    ensures ok ==> (p.audio ==
      ChainMastered(old(p.audio).value, p.sampleRate, PanelChainSettings(threshold, ceiling, widthSlider, presetIndex), be))
    ensures ok ==> Bounded(p.audio.value)
    ensures !ok ==> p.audio == old(p.audio)
    ensures p.original == old(p.original) && p.sampleRate == old(p.sampleRate)
  {
    if !chainAvailable {
      return false;
    }
    p.SaveBackup();
    var settings := PanelChainSettings(threshold, ceiling, widthSlider, presetIndex);
    if p.audio.None? {
      return false;
    }
    match be.masteringChain(p.sampleRate, settings, p.audio.value)
    case Ok(processed) =>
      p.audio := Some(ClipBuffer(processed));
      return true;
    case Unavailable =>
      return false;
    case Failed =>
      return false;
  }

  /** Mastering panel, one-click mastering with the mode chosen in the selection
      box. `rms` is the RMS of the current buffer. */
  method ApplySmartMastering(p: AudioProcessor, modeIndex: nat, be: Backends, rms: real) returns (ok: bool)
    requires p.Valid()
    requires modeIndex < |MasterModes|
    requires rms >= 0.0
    requires p.audio.Some? ==> IsRms(rms, p.audio.value)
    modifies p
    ensures p.Valid()
    ensures p.backup == BackupBefore(old(p.audio), old(p.backup))
    ensures ok == SmartMastered(old(p.audio), p.sampleRate, MasterModes[modeIndex], be, rms).Some?
    ensures p.audio == Commit(old(p.audio), SmartMastered(old(p.audio), p.sampleRate, MasterModes[modeIndex], be, rms))
    ensures p.original == old(p.original) && p.sampleRate == old(p.sampleRate)
  {
    var mode := MasterModes[modeIndex];
    p.SaveBackup();
    ok := p.SmartMaster(mode, be, rms);
  }

  /** Reset: the current buffer and the backup both go back to the buffer as
      loaded; the loaded buffer itself is kept. Without a loaded buffer nothing
      changes. */
  method ResetAudio(p: AudioProcessor)
    requires p.Valid()
    modifies p
    ensures p.Valid()
    ensures p.original == old(p.original) && p.sampleRate == old(p.sampleRate)
    ensures p.original.Some? ==> p.audio == p.original && p.backup == p.original
    ensures p.original.None? ==> p.audio == old(p.audio) && p.backup == old(p.backup)
  {
    if p.original.Some? {
      p.audio := p.original;
      p.backup := p.original;
    }
  }
}
