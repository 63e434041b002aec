# Session controller of the audio workstation

This project models the session controller of a desktop audio-editing
application (singing-voice editing: equaliser, pitch correction, mastering). It
is written in Dafny.

The controller holds one loaded recording in four slots:
- the current buffer;
- the buffer as loaded (`original`);
- the buffer before the latest effect applied from the interface (`backup`, used for the before/after comparison);
- the sample rate.

Every effect entry point follows the same pattern:
- It refuses to run when nothing is loaded.
- It picks its parameters from fixed tables by mode name.
- It hands the buffer to a processing engine.
- It resolves failures in one of two ways:
  - An engine that cannot be loaded takes a fixed fallback route.
  - Any other error reports failure and leaves the buffer untouched.

Some routes hard-clip the engine's output to [-1, 1] and some do not.

Files:

- `samples.dfy` (`Samples`) covers sample arithmetic:
  - the clip to [-1, 1];
  - uniform gain;
  - buffer energy;
  - the last-resort loudness correction. Its gain is `min(0.1 / (rms + 1e-10), 1.5)`, followed by the clip.

  The module proves that this correction never leaves a buffer louder than the 0.1 RMS target, and that silence passes through unchanged.
- `presets.dfy` (`Presets`) holds the nine-band preset table of the one-click equaliser and the parameter sets of the one-click pitch correction. It also holds the mode lists of the selection boxes.
- `effects.dfy` (`Effects`) gives, as a pure function, what each effect entry point computes: the new buffer, or `None` for "returned False, buffer unchanged". The processing engines are function values in `Backends`. Each returns one of:
  - `Ok(buffer)`;
  - `Unavailable` (the module could not be imported);
  - `Failed` (any other exception).

  The module also proves the fallback chains and the in-range guarantees of the clipping routes.
- `processor.dfy` (`Processor`) contains the class `AudioProcessor`. Its fields are the four slots, and its methods reassign them as the original methods do. Each effect method is proved against its function in `Effects`, and every method keeps the invariant that the four slots are filled together.
- `handlers.dfy` (`Handlers`) covers the interface actions. Each one takes the comparison backup before running an effect, unless it stops with an error first; the reset action restores the loaded buffer.

Some behaviour of the code is easy to misremember, and the model follows the code in each case:

- **Unavailable engine in manual equalisation.** Manual equalisation has no fallback: when its engine cannot be imported it returns False (`main.py:96-98`), unlike the one-click entry points, which fall back. So `Effects.Equalized` reports failure there.
- **Clipping.** Not every effect clamps its output to [-1, 1]. Three code paths take the engine's output without a clip, and the model claims the bound only on the clipping routes:
  - the anti-AI one-click equaliser (`main.py:126-130`);
  - manual pitch correction and its pitch-shift fallback (`main.py:161-176`);
  - the enhanced one-click mastering (`main.py:259-262`).
- **Last-resort gain.** The gain divides the target by the RMS plus `1e-10` (`main.py:280`), so a silent buffer gets the capped gain rather than a division by zero. The model adds the same epsilon.
- **Backup before effects.** The manual mastering chain imports its module before it takes the backup (`main.py:953`), so when that import fails there is no backup. When a later step fails, the backup has already been renewed while the buffer stays unchanged.
- **Manual equalisation before playback.** The equaliser panel's slider slots start empty (`main.py:442`) and are filled only when the player reports a duration (`main.py:1542-1573`). Until then, reading the sliders raises before the backup is taken (`main.py:508`). Nothing catches that error, so it escapes the handler and reaches the interface toolkit's event loop. The model records only that no slot has changed by then.

## Model

| member | source | states |
|---|---|---|
| `Samples.Clip` | main.py:285 | a clipped sample lies in [-1, 1], equals the input when it was already in range, and keeps its sign without growing in magnitude |
| `Samples.ClipBuffer` | main.py:91 | clipping a buffer keeps its length, puts every sample in [-1, 1] and clips each sample independently |
| `Samples.ClipBufferIdentity` | main.py:285 | clipping a buffer already in range changes nothing |
| `Samples.ClipBufferIdempotent` | main.py:285 | clipping twice is the same as clipping once |
| `Samples.EnergyScale` | main.py:282 | a uniform gain multiplies the buffer's energy by the square of the gain |
| `Samples.EnergyClip` | main.py:285 | the clip never adds energy to a buffer |
| `Samples.BasicGain` | main.py:278-281 | the last-resort gain is positive, at most 1.5, never pushes an input of the given RMS above the 0.1 target, and is either the cap or exactly the gain that reaches the target |
| `Samples.BasicMastered` | main.py:282-285 | the last-resort correction keeps the length and leaves every sample in [-1, 1] |
| `Samples.ClippedGainAtMostTarget` | main.py:281-285 | any positive gain that would not push the RMS above the target still respects the target after the clip |
| `Samples.BasicMasteringAtMostTarget` | main.py:278-285 | whatever the input, the last-resort correction leaves the buffer no louder than RMS 0.1 |
| `Samples.SilenceUnchanged` | main.py:278-285 | a silent buffer comes out unchanged (the epsilon guard keeps the gain finite) |
| `Presets.EqPreset` | main.py:115-125 | the one-click equaliser always gets nine gains, each within [-0.3, 1.2] |
| `Presets.UnknownEqModeIsSmart` | main.py:125 | an unknown equaliser mode selects exactly the "smart" preset |
| `Presets.FlatPresetOnlyForFlat` | main.py:115-123 | a preset leaves every band at zero if and only if the mode is "flat" |
| `Presets.EqModesHavePresets` | main.py:533 | every mode the equaliser selection box offers has its own preset, and the box offers as many modes as the table has |
| `Presets.SmartPitchSettings` | main.py:196-211 | every pitch mode keeps expression on, with strength in [0.5, 0.9], expression intensity in [0.3, 0.6] and their sum at most 1.2 |
| `Presets.StrongerCorrectionKeepsLessExpression` | main.py:196-211 | of two pitch modes, the one with the higher strength has the lower expression intensity |
| `Presets.UnknownPitchModeIsSmart` | main.py:208-211 | every mode other than aggressive, gentle and adaptive gets the "smart" parameters |
| `Presets.PitchModesDistinct` | main.py:390 | the four modes of the pitch selection box select four different parameter sets |
| `Effects.Equalized` | main.py:74-101 | manual equalisation fails without audio or with no bands. Otherwise it succeeds exactly when the engine returns a buffer, and the result is that buffer clipped: the same length, every sample in [-1, 1] |
| `Effects.SmartEqualized` | main.py:103-148 | with audio loaded, one-click equalisation succeeds exactly when the chosen engine returns a buffer, or is unavailable and the flat manual equalisation succeeds. The anti-AI engine's buffer is taken as returned; the enhanced engine's buffer is clipped, so without anti-AI processing every result lies in [-1, 1]. Without audio it fails |
| `Effects.PitchCorrected` | main.py:150-182 | with audio loaded, manual pitch correction succeeds exactly when the auto-tune engine returns a buffer, or is unavailable and the plain pitch shift returns one; the result is that buffer, unclipped. Without audio it fails |
| `Effects.SmartPitchCorrected` | main.py:184-246 | with audio loaded, one-click pitch correction succeeds exactly when the chosen engine returns a buffer, whose clipped copy is the result, or is unavailable and manual correction with no shift at strength 0.5 succeeds. Without audio it fails |
| `Effects.BasicMastering` | main.py:272-287 | the last-resort mastering succeeds exactly when audio is loaded, keeping the length and putting every sample in [-1, 1] |
| `Effects.SmartMastered` | main.py:248-270 | with audio loaded, one-click mastering fails exactly when the enhanced engine fails other than by being unavailable; an engine buffer is taken unclipped. Without audio it fails |
| `Effects.ChainMastered` | main.py:985-994 | the panel's mastering chain succeeds exactly when the chain returns a buffer, and its result is that buffer clipped, so it lies in [-1, 1] |
| `Effects.SmartEqFallsBackToFlat` | main.py:142-145 | when the chosen one-click engine is unavailable, one-click equalisation equals manual equalisation with nine zero gains |
| `Effects.SmartEqEngineFailure` | main.py:146-148 | a one-click equaliser engine that fails other than by being unavailable makes the call fail without trying the flat fallback |
| `Effects.PitchEngineFailure` | main.py:180-182 | an auto-tune engine that fails other than by being unavailable makes manual pitch correction fail without trying the plain pitch shift |
| `Effects.SmartPitchEngineFailure` | main.py:244-246 | a one-click pitch engine that fails other than by being unavailable makes the call fail without trying the manual fallback |
| `Effects.SmartMasterEngineFailure` | main.py:268-270 | an enhanced mastering engine that fails other than by being unavailable makes the call fail without trying the basic correction |
| `Effects.UnknownEqModeBehavesAsSmart` | main.py:125-130 | with anti-AI processing an unknown mode gives the same outcome as "smart" |
| `Effects.SmartEqBounded` | main.py:132-138 | one-click equalisation lies in [-1, 1] whenever the unclipped anti-AI engine output was not taken |
| `Effects.PitchFallbackIgnoresStrength` | main.py:168-176 | with the auto-tune engine unavailable, the outcome does not depend on the strength and succeeds exactly when the plain pitch shift succeeds |
| `Effects.SmartPitchFallsBackToManual` | main.py:240-243 | when the chosen one-click engine is unavailable, one-click pitch correction equals manual correction with no shift at strength 0.5 |
| `Effects.SmartPitchBounded` | main.py:220-238 | unless it fell back to manual correction, a one-click pitch correction result lies in [-1, 1] |
| `Effects.SmartMasterFallbackLoudness` | main.py:264-267 | with the enhanced mastering engine unavailable, one-click mastering is exactly the basic loudness correction of the same buffer: it succeeds, keeps the length, stays in [-1, 1] and is no louder than RMS 0.1 |
| `Processor.AudioProcessor.constructor` | main.py:47-51 | a new controller has all four slots empty |
| `Processor.AudioProcessor.LoadAudio` | main.py:53-62 | a successful load puts the decoded buffer in the current, original and backup slots and its rate in the rate slot; a failed load changes nothing |
| `Processor.AudioProcessor.SaveAudio` | main.py:64-72 | saving succeeds exactly when audio is loaded and the encoder writes it |
| `Processor.AudioProcessor.SaveBackup` | main.py:370-371 | the backup becomes the current buffer when there is one and is otherwise kept |
| `Processor.AudioProcessor.Equalize` | main.py:74-101 | the method's result and new buffer are those of `Effects.Equalized`; on failure the buffer is unchanged, on success it lies in [-1, 1]; the other slots are untouched |
| `Processor.AudioProcessor.SmartEqualize` | main.py:103-148 | the method's result and new buffer are those of `Effects.SmartEqualized`, including the fallback through `Equalize`; on failure the buffer is unchanged |
| `Processor.AudioProcessor.PitchCorrection` | main.py:150-182 | the method's result and new buffer are those of `Effects.PitchCorrected`; on failure the buffer is unchanged |
| `Processor.AudioProcessor.SmartPitchCorrection` | main.py:184-246 | the method's result and new buffer are those of `Effects.SmartPitchCorrected`, including the fallback through `PitchCorrection`; on failure the buffer is unchanged |
| `Processor.AudioProcessor.SmartMaster` | main.py:248-270 | the method's result and new buffer are those of `Effects.SmartMastered`, including the fallback through `ApplyBasicMastering`; on failure the buffer is unchanged |
| `Processor.AudioProcessor.ApplyBasicMastering` | main.py:272-287 | succeeds exactly when audio is loaded; the new buffer keeps the length, lies in [-1, 1] and is no louder than RMS 0.1 |
| `Handlers.SliderGains` | main.py:506-509 | the sliders can be read exactly when every slot holds a slider; then there is one gain per slider, each a tenth of its position, so sliders in -120..120 give gains in -12..12 |
| `Handlers.BandGains` | main.py:506-509 | reading the sliders one by one builds exactly the slider gains, and stops with nothing at an empty slot |
| `Handlers.ApplyPitchCorrection` | main.py:365-374 | without a pitch control nothing changes and nothing succeeds; with one, the backup becomes the buffer before the effect, then manual pitch correction runs with the control's shift in tenths of a semitone at full strength; the original and the rate are untouched |
| `Handlers.PressPitchButtonAsWired` | main.py:315 | with the panel's control slot as the program leaves it, the manual pitch button never succeeds and leaves every slot unchanged |
| `Handlers.PressPitchButtonWithSlider` | main.py:365-374 | with the pitch slider attached, the button takes the backup and applies manual pitch correction with the slider's shift at full strength |
| `Handlers.ApplySmartPitchCorrection` | main.py:386-407 | the backup becomes the buffer before the effect; then one-click pitch correction runs with the mode in the chosen box position |
| `Handlers.ApplyEq` | main.py:504-517 | with an empty slider slot nothing changes and nothing succeeds; otherwise the backup becomes the buffer before the effect, then manual equalisation runs with the slider gains, and a success leaves the buffer in [-1, 1] |
| `Handlers.ApplySmartEq` | main.py:529-550 | the backup becomes the buffer before the effect; then one-click equalisation runs with the mode in the chosen box position |
| `Handlers.PanelChainSettings` | main.py:962-982 | the chain gets the panel's threshold and ceiling, high-frequency protection off, the width slider in hundredths and one of the three presets |
| `Handlers.ApplyMastering` | main.py:949-1015 | if the mastering module is missing nothing changes. Otherwise the backup is renewed first; on success the buffer becomes the clipped chain output, in [-1, 1]; on failure the buffer is unchanged |
| `Handlers.ApplySmartMastering` | main.py:1041-1065 | the backup becomes the buffer before the effect; then one-click mastering runs with the mode in the chosen box position |
| `Handlers.ResetAudio` | main.py:1646-1651 | with a loaded buffer, the current buffer and the backup both become the loaded buffer, which itself is kept; without one nothing changes |

## Left out

- The user interface is not modelled: widgets, dialogs, message boxes, waveform and spectrum plots, and status texts (`main.py:290-1678` apart from the handler steps above). Each modelled action returns whether it would report success.
- Playback through the audio device and its progress display, live recording, and the multitrack panel are not modelled, because they are device I/O or live in modules that are not shown.
  - `mix_tracks` (`main.py:714-725`) writes the current buffer without touching the other slots.
  - With it left out, `AudioProcessor.Valid()` (all four slots filled together) holds in the model. It would not hold after a mixdown into an empty session.
- File decoding and encoding are parameters:
  - `LoadAudio` takes the decoder's result (mono samples at the native rate, or nothing).
  - `SaveAudio` takes the encoder as a function reporting success.
- The MIDI, staff and project export calls are not modelled.
- The processing engines are opaque `Backends` function values: equaliser filters, pitch tracking, compressor/limiter/stereo chains. Exceptions raised while constructing an engine object are folded into that engine's outcome.
- The engines are modelled as deterministic functions of the rate, their parameters and the buffer. The anti-AI engines' randomised naturalisation is not modelled; it lives in modules that are not part of this model.
- `Effects.UnknownEqModeBehavesAsSmart` depends on that determinism: it states equal outcomes for an unknown mode and "smart". What the code itself guarantees is that the engine receives the "smart" preset in both cases (`Presets.UnknownEqModeIsSmart`). The equalities between the `Processor` methods and their `Effects` functions rest on the same assumption.
- `Processor.AudioProcessor.ApplyBasicMastering`, `Processor.AudioProcessor.SmartMaster` and `Handlers.ApplySmartMastering`: the square root in the RMS is not computed. The caller supplies `rms`, and the precondition `IsRms(rms, audio)` says it is the buffer's RMS, stated without division or square root.
- Samples are exact reals. Floating-point rounding is not modelled, and neither is the NaN gain that numpy computes for an empty buffer; the output is empty either way. NaN samples are not modelled either: `np.clip` passes a NaN through, so the [-1, 1] bounds of the clipping routes hold only for finite engine output.
- `Handlers.ApplyMastering`: whether the mastering module can be imported is the parameter `chainAvailable`. An import error raised later, inside the chain, counts as a failure after the backup. This matches the code's effect on the slots.
- The selection-box handlers take a box position within the box's list. An empty box (position -1) cannot occur, because the boxes are filled when the panels are built.
- The mode names handed to the enhanced engines are passed on unexamined, so the engines' own mode tables are not modelled.
- `system_check.py`, `run_app.py` and `test_transcription.py` are not part of this model: they hold environment checks, a launcher and a transcription script.

## Findings

| source | as written | input that shows it | evidently intended | confidence | as-written member | corrected member |
|---|---|---|---|---|---|---|
| main.py:315, main.py:365-368 | the pitch panel's control slot is set to None and never assigned (the main window attaches its pitch slider to the layout and stores a label on the panel, `main.py:1554-1560`), so the manual pitch button returns without doing anything | pressing "apply pitch correction" with audio loaded and any slider position | the button reads the pitch slider, takes the backup and shifts by the slider's value in tenths of a semitone | high, not executed | `Handlers.PressPitchButtonAsWired` | `Handlers.PressPitchButtonWithSlider` |
