/** The fixed lookup tables the session controller chooses effect parameters
    from: the nine-band gain presets of the one-click equaliser, the parameter
    sets of the one-click pitch correction, and the mode lists the selection
    boxes of the interface offer. */
module Presets {

  /** Number of bands of the graphic equaliser. */
  const BandCount: nat := 9

  /** Gains of the one-click equaliser by mode name. */
  const EqPresetTable: map<string, seq<real>> := map[
    "smart" := [0.0, 0.0, 0.2, 0.5, 0.8, 0.6, 0.3, 0.1, 0.0],
    "vocal" := [0.0, -0.3, 0.0, 0.5, 1.0, 1.2, 0.8, 0.3, -0.2],
    "instrumental" := [0.2, 0.1, 0.0, 0.3, 0.5, 0.8, 1.0, 0.6, 0.2],
    "mix" := [0.0, 0.0, 0.1, 0.3, 0.5, 0.4, 0.2, 0.1, 0.0],
    "flat" := [0.0, 0.0, 0.0, 0.0, 0.0, 0.0, 0.0, 0.0, 0.0],
    "bright" := [0.0, 0.0, 0.0, 0.2, 0.5, 1.0, 1.2, 0.8, 0.3],
    "warm" := [0.5, 0.3, 0.1, 0.0, -0.2, -0.1, 0.0, 0.0, -0.3]
  ]

  /** The flat response: nine zero gains (what `[0]*9` builds). */
  const FlatBands: seq<real> := [0.0, 0.0, 0.0, 0.0, 0.0, 0.0, 0.0, 0.0, 0.0]

  /** Modes of the one-click equaliser selection box, in box order. */
  const EqModes: seq<string> := ["smart", "vocal", "instrumental", "mix", "flat", "bright", "warm"]
  /** Modes of the one-click pitch correction selection box, in box order. */
  const PitchModes: seq<string> := ["smart", "aggressive", "gentle", "adaptive"]
  /** Modes of the one-click mastering selection box, in box order. */
  const MasterModes: seq<string> := ["smart", "loud", "dynamic", "radio", "streaming", "vinyl"]
  /** Presets of the manual mastering chain selection box, in box order. */
  const ChainPresets: seq<string> := ["balanced", "loud", "dynamic"]

  predicate IsFlat(bands: seq<real>) {
    forall i :: 0 <= i < |bands| ==> bands[i] == 0.0
  }

  /** Every gain lies within the range the presets span, [-0.3, 1.2]. */
  predicate PresetRange(bands: seq<real>) {
    forall i :: 0 <= i < |bands| ==> -0.3 <= bands[i] <= 1.2
  }

  /** The preset for a mode, or the "smart" preset for a mode the table does not
      know (a dictionary lookup with a default). */
  function EqPreset(mode: string): (bands: seq<real>)
    ensures |bands| == BandCount
    ensures PresetRange(bands)
  {
    if mode in EqPresetTable then EqPresetTable[mode] else EqPresetTable["smart"]
  }

  /** An unknown mode selects exactly what "smart" selects. */
  lemma UnknownEqModeIsSmart(mode: string)
    requires mode !in EqPresetTable
    ensures EqPreset(mode) == EqPreset("smart")
  {
  }

  /** Only the "flat" mode leaves every band untouched. */
  lemma FlatPresetOnlyForFlat(mode: string)
    ensures IsFlat(EqPreset(mode)) <==> mode == "flat"
  {
    var bands := EqPreset(mode);
    if mode == "flat" {
      assert bands == FlatBands;
    } else if mode == "smart" || mode !in EqPresetTable {
      assert bands[2] != 0.0;
    } else if mode == "vocal" {
      assert bands[1] != 0.0;
    } else if mode == "instrumental" || mode == "warm" {
      assert bands[0] != 0.0;
    } else if mode == "mix" {
      assert bands[2] != 0.0;
    } else {
      assert mode == "bright";
      assert bands[3] != 0.0;
    }
  }

  /** Every mode the selection box offers has its own preset, so the default is
      never reached from the interface. */
  lemma EqModesHavePresets()
    ensures forall i :: 0 <= i < |EqModes| ==> EqModes[i] in EqPresetTable
    ensures |EqModes| == |EqPresetTable|
  {
    assert EqPresetTable.Keys == {"smart", "vocal", "instrumental", "mix", "flat", "bright", "warm"};
  }

  /** Parameters of the anti-AI pitch correction. */
  datatype PitchSettings = PitchSettings(strength: real, preserveExpression: bool, expressionIntensity: real)

  /** The parameter set for a one-click pitch correction mode; any mode other than
      "aggressive", "gentle" and "adaptive" gets the "smart" parameters. */
  function SmartPitchSettings(mode: string): (p: PitchSettings)
    ensures p.preserveExpression
    ensures 0.5 <= p.strength <= 0.9 && 0.3 <= p.expressionIntensity <= 0.6
    ensures p.strength + p.expressionIntensity <= 1.2
  {
    if mode == "aggressive" then PitchSettings(0.9, true, 0.3)
    else if mode == "gentle" then PitchSettings(0.5, true, 0.6)
    else if mode == "adaptive" then PitchSettings(0.7, true, 0.5)
    else PitchSettings(0.7, true, 0.4)
  }

  /** A mode that corrects harder keeps less of the singer's expression. */
  lemma StrongerCorrectionKeepsLessExpression(m1: string, m2: string)
    requires SmartPitchSettings(m1).strength > SmartPitchSettings(m2).strength
    ensures SmartPitchSettings(m1).expressionIntensity < SmartPitchSettings(m2).expressionIntensity
  {
  }

  /** An unrecognised pitch mode behaves exactly like "smart". */
  lemma UnknownPitchModeIsSmart(mode: string)
    requires mode !in {"aggressive", "gentle", "adaptive"}
    ensures SmartPitchSettings(mode) == SmartPitchSettings("smart")
  {
  }

  /** The modes of the selection box select four distinct parameter sets. */
  lemma PitchModesDistinct()
    ensures forall i, j :: 0 <= i < j < |PitchModes| ==>
      SmartPitchSettings(PitchModes[i]) != SmartPitchSettings(PitchModes[j])
  {
  }
}
