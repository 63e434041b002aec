/** The session controller: one loaded recording, held in four slots that the
    entry points reassign. `audio` is the current buffer, `original` the buffer as
    loaded, `backup` the buffer before the latest effect applied from the
    interface (for the before/after comparison), `sampleRate` the rate reported by
    the decoder. Each effect entry point is proved against the function in
    `Effects` that says what it computes. */
module Processor {
  import opened Samples
  import opened Presets
  import opened Effects

  class AudioProcessor {
    var audio: Option<Buffer>
    var sampleRate: Option<int>
    var original: Option<Buffer>
    var backup: Option<Buffer>

    /** The four slots are filled together: loading fills them all and nothing
        empties one. */
    predicate Valid()
      reads this
    {
      audio.Some? == sampleRate.Some? && audio.Some? == original.Some? && audio.Some? == backup.Some?
    }

    /** A controller with nothing loaded. */
    constructor ()
      ensures Valid()
      ensures audio.None? && sampleRate.None? && original.None? && backup.None?
    {
      audio := None;
      sampleRate := None;
      original := None;
      backup := None;
    }

    /** Takes the decoder's result (the samples at their native rate, or None when
        the file could not be decoded). On success the current, original and
        backup slots all hold the loaded buffer; on failure nothing changes. */
    method LoadAudio(decoded: Option<(Buffer, int)>) returns (ok: bool)
      requires Valid()
      modifies this
      ensures Valid()
      ensures ok == decoded.Some?
      ensures ok ==> audio == Some(decoded.value.0) && sampleRate == Some(decoded.value.1)
      ensures ok ==> original == audio && backup == audio
      ensures !ok ==> audio == old(audio) && sampleRate == old(sampleRate)
      ensures !ok ==> original == old(original) && backup == old(backup)
    {
      if decoded.None? {
        return false;
      }
      audio := Some(decoded.value.0);
      sampleRate := Some(decoded.value.1);
      original := audio;
      backup := audio;
      return true;
    }

    /** Hands the current buffer and its rate to the encoder `write`, which reports
        whether the file was written. Nothing to write is a failure. */
    method SaveAudio(write: (Buffer, Option<int>) -> bool) returns (ok: bool)
      ensures ok <==> audio.Some? && write(audio.value, sampleRate)
    {
      ok := false;
      if audio.Some? {
        ok := write(audio.value, sampleRate);
      }
    }

    /** Records the current buffer as the comparison backup, when there is one. */
    method SaveBackup()
      requires Valid()
      modifies this`backup
      ensures Valid()
      ensures audio.Some? ==> backup == audio
      ensures audio.None? ==> backup == old(backup)
    {
      if audio.Some? {
        backup := audio;
      }
    }

    /** Manual equalisation with the given band gains. */
    method Equalize(bands: seq<real>, be: Backends) returns (ok: bool)
      requires Valid()
      modifies this`audio
      ensures Valid()
      ensures ok == Equalized(old(audio), sampleRate, bands, be).Some?
      ensures audio == Commit(old(audio), Equalized(old(audio), sampleRate, bands, be))
      ensures ok ==> Bounded(audio.value)
    {
      if audio.None? || |bands| == 0 {
        return false;
      }
      match be.equalizer(sampleRate, bands, audio.value)
      case Ok(processed) =>
        audio := Some(ClipBuffer(processed));
        return true;
      case Unavailable =>
        return false;
      case Failed =>
        return false;
    }

    /** One-click equalisation by mode, with or without anti-AI processing; an
        unavailable engine falls back to a flat manual equalisation. */
    method SmartEqualize(mode: string, antiAi: bool, be: Backends) returns (ok: bool)
      requires Valid()
      modifies this`audio
      ensures Valid()
      ensures ok == SmartEqualized(old(audio), sampleRate, mode, antiAi, be).Some?
      ensures audio == Commit(old(audio), SmartEqualized(old(audio), sampleRate, mode, antiAi, be))
    {
      if audio.None? {
        return false;
      }
      var outcome: Outcome;
      if antiAi {
        var bands := EqPreset(mode);
        outcome := be.antiAiEqualizer(sampleRate, bands, audio.value);
        if outcome.Ok? {
          audio := Some(outcome.buf);
          return true;
        }
      } else {
        outcome := be.enhancedEqualizer(sampleRate, mode, audio.value);
        if outcome.Ok? {
          audio := Some(ClipBuffer(outcome.buf));
          return true;
        }
      }
      if outcome.Unavailable? {
        ok := Equalize(FlatBands, be);
        return;
      }
      return false;
    }

    /** Manual pitch correction by `semitones` at the given strength; when the
        auto-tune engine is unavailable, a plain pitch shift is tried. */
    method PitchCorrection(semitones: real, strength: real, be: Backends) returns (ok: bool)
      requires Valid()
      modifies this`audio
      ensures Valid()
      ensures ok == PitchCorrected(old(audio), sampleRate, semitones, strength, be).Some?
      ensures audio == Commit(old(audio), PitchCorrected(old(audio), sampleRate, semitones, strength, be))
    {
      if audio.None? {
        return false;
      }
      match be.pitchCorrector(sampleRate, strength, semitones, audio.value)
      case Ok(corrected) =>
        audio := Some(corrected);
        return true;
      case Unavailable =>
        var shifted := be.pitchShift(sampleRate, semitones, audio.value);
        if shifted.Ok? {
          audio := Some(shifted.buf);
          return true;
        }
        return false;
      case Failed =>
        return false;
    }

    /** One-click pitch correction by mode, with or without anti-AI processing; an
        unavailable engine falls back to a manual correction with no shift at half
        strength. */
    method SmartPitchCorrection(mode: string, antiAi: bool, be: Backends) returns (ok: bool)
      requires Valid()
      modifies this`audio
      ensures Valid()
      ensures ok == SmartPitchCorrected(old(audio), sampleRate, mode, antiAi, be).Some?
      ensures audio == Commit(old(audio), SmartPitchCorrected(old(audio), sampleRate, mode, antiAi, be))
    {
      if audio.None? {
        return false;
      }
      var outcome: Outcome;
      if antiAi {
        var settings := SmartPitchSettings(mode);
        outcome := be.antiAiPitchCorrector(sampleRate, settings, audio.value);
      } else {
        outcome := be.enhancedPitchCorrector(sampleRate, mode, audio.value);
      }
      match outcome
      case Ok(processed) =>
        audio := Some(ClipBuffer(processed));
        return true;
      case Unavailable =>
        ok := PitchCorrection(0.0, 0.5, be);
      case Failed =>
        return false;
    }

    /** One-click mastering by mode; an unavailable engine falls back to the basic
        loudness correction. `rms` is the RMS of the current buffer. */
    method SmartMaster(mode: string, be: Backends, rms: real) returns (ok: bool)
      requires Valid()
      requires rms >= 0.0
      requires audio.Some? ==> IsRms(rms, audio.value)
      modifies this`audio
      ensures Valid()
      ensures ok == SmartMastered(old(audio), sampleRate, mode, be, rms).Some?
      ensures audio == Commit(old(audio), SmartMastered(old(audio), sampleRate, mode, be, rms))
    {
      if audio.None? {
        return false;
      }
      match be.enhancedMastering(sampleRate, mode, audio.value)
      case Ok(mastered) =>
        audio := Some(mastered);
        return true;
      case Unavailable =>
        ok := ApplyBasicMastering(rms);
      case Failed =>
        return false;
    }

    /** The basic loudness correction: a gain towards the target RMS, capped, then
        the clip. `rms` is the RMS of the current buffer. Succeeds whenever there
        is audio, and leaves it in range and no louder than the target. */
    method ApplyBasicMastering(rms: real) returns (ok: bool)
      requires Valid()
      requires rms >= 0.0
      requires audio.Some? ==> IsRms(rms, audio.value)
      modifies this`audio
      ensures Valid()
      ensures ok == old(audio).Some?
      ensures audio == BasicMastering(old(audio), rms)
      ensures ok ==> |audio.value| == |old(audio).value| && Bounded(audio.value)
      ensures ok ==> RmsAtMost(audio.value, TargetRms)
    {
      if audio.None? {
        return false;
      }
      BasicMasteringAtMostTarget(audio.value, rms);
      var gain := BasicGain(rms);
      audio := Some(Scale(audio.value, gain));
      audio := Some(ClipBuffer(audio.value));
      return true;
    }
  }
}
